/**
 * The landlord side of src/components/LandlordView.js: the property form
 * controller (`LandlordView`) and the wrapper component that owns the session
 * and the role-scoped property list (`App`, modelled as `LandlordApp`).
 */
module Landlord {
  import opened Results
  import opened Records
  import opened Draft
  import opened Seqs

  /** What the preview image shows: the picked local file, or a stored image URL. */
  datatype Preview = FilePreview(file: LocalFile) | UrlPreview(url: string)

  /** The reply of an image upload: the public URL of the stored key, or the error's message. */
  datatype UploadReply = Uploaded(publicUrl: string) | UploadFailed(message: string)

  const UploadFailedPrefix := "❌ Upload failed: "
  const UpdateFailedPrefix := "❌ Update failed: "
  const AddFailedPrefix := "❌ Add failed: "
  const DeleteErrorPrefix := "❌ Delete error: "
  const UpdatedNotice := "✅ Updated!"
  const AddedNotice := "✅ Added!"
  const DeletedNotice := "🗑️ Deleted!"

  /** What the wrapper's main area shows. */
  datatype MainArea =
    | SignInArea
    | TenantArea(items: seq<Property>)
    | LandlordArea(items: seq<Property>, session: Session)

  /** The owner filter `fetchProperties` puts on its select: only the role "landlord" is scoped to its own rows. */
  function OwnerFilter(role: string, uid: UserId): (f: Option<UserId>)
    ensures f.Some? <==> role == LandlordRole
    ensures f.Some? ==> f.value == uid
  {
    if role == LandlordRole then Some(uid) else None
  }

  /** The rows the properties table returns for a select with an optional `owner_id` equality filter. */
  function Selected(table: seq<Property>, filter: Option<UserId>): (rows: seq<Property>)
    ensures filter.None? ==> rows == table
    ensures forall p :: p in rows <==> p in table && (filter.None? || p.ownerId == filter)
  {
    if filter.None? then table else Filter(table, (p: Property) => p.ownerId == filter)
  }

  /** `if (editId)`: an edit is under way when an id is set and, as JavaScript reads it, not 0. */
  function Editing(editId: Option<PropertyId>): (editing: bool)
    ensures editId.None? ==> !editing
    ensures editId == Some(0) ==> !editing
    ensures editId.Some? && editId.value != 0 ==> editing
  {
    editId.Some? && editId.value != 0
  }

  /** The write a submit issues: an update scoped by id and owner while editing, an insert otherwise. */
  function WriteCall(editId: Option<PropertyId>, data: PropertyData, owner: UserId): (c: Call)
    ensures Editing(editId) <==> c.UpdateProperty?
    ensures c.UpdateProperty? ==> c.id == editId.value && c.ownerId == owner && c.data == data
    ensures c.InsertProperty? ==> c.data == data
  {
    if Editing(editId) then UpdateProperty(data, editId.value, owner) else InsertProperty(data)
  }

  /** The preview `startEdit` sets: `p.image_url || null`. */
  function PreviewOf(p: Property): (r: Option<Preview>)
    ensures r.Some? <==> Truthy(p.imageUrl)
    ensures r.Some? ==> r.value == UrlPreview(p.imageUrl.value)
  {
    if Truthy(p.imageUrl) then Some(UrlPreview(p.imageUrl.value)) else None
  }

  /** `if (!uploaded) return;`: a pending file whose upload failed stops the submit before any write. */
  predicate UploadBlocks(file: Option<LocalFile>, reply: UploadReply) {
    file.Some? && reply.UploadFailed?
  }

  /** The storage key of a submit's upload: `${uid}-${Date.now()}-${name}`, or none without a pending file. */
  function UploadKey(session: Session, timestamp: nat, file: Option<LocalFile>): Option<string> {
    if file.Some? then Some(FileKey(session.user.id, timestamp, file.value.name)) else None
  }

  /** The upload a submit issues: one for a pending file under its key, none otherwise. */
  function UploadCalls(session: Session, timestamp: nat, file: Option<LocalFile>): (calls: seq<Call>)
    ensures |calls| <= 1
    ensures file.Some? <==> |calls| == 1
    ensures file.Some? ==> calls[0] == UploadImage(UploadKey(session, timestamp, file).value, file.value)
  {
    if file.Some? then [UploadImage(UploadKey(session, timestamp, file).value, file.value)] else []
  }

  /**
   * The write a submit issues once the upload (if any) went through: the draft
   * coerced into a row owned by the session's user and signed with its email,
   * carrying the uploaded URL and key, or the typed URL and no key.
   */
  function SubmitWrite(session: Session, timestamp: nat, form: Form, file: Option<LocalFile>,
                       editId: Option<PropertyId>, uploadReply: UploadReply): (c: Call)
    ensures c.UpdateProperty? || c.InsertProperty?
    ensures c.UpdateProperty? <==> Editing(editId)
    ensures c.UpdateProperty? ==> c.id == editId.value && c.ownerId == session.user.id
    ensures c.data.ownerId == session.user.id && c.data.landlord == session.user.email
    ensures file.Some? && uploadReply.Uploaded? ==>
      c.data.imageUrl == uploadReply.publicUrl
      && c.data.imagePath == Some(FileKey(session.user.id, timestamp, file.value.name))
    ensures file.None? ==> c.data.imageUrl == form.imageUrl && c.data.imagePath == None
    ensures c.data.price == PriceNumber(form.price) && c.data.bedrooms == OptionalNumber(form.bedrooms)
    ensures c.data == PropertyDataFor(form, session.user.id, session.user.email,
                                      if file.Some? && uploadReply.Uploaded? then uploadReply.publicUrl else form.imageUrl,
                                      UploadKey(session, timestamp, file))
  {
    var url := if file.Some? && uploadReply.Uploaded? then uploadReply.publicUrl else form.imageUrl;
    WriteCall(editId, PropertyDataFor(form, session.user.id, session.user.email, url,
                                      UploadKey(session, timestamp, file)), session.user.id)
  }

  class LandlordView {
    var form: Form
    var file: Option<LocalFile>
    var preview: Option<Preview>
    var uploading: bool
    var editId: Option<PropertyId>
    /** The signed-in landlord's session, passed in by the wrapper. */
    const session: Session

    constructor (session: Session)
      ensures this.session == session
      ensures form == Blank() && file == None && preview == None && !uploading && editId == None
    {
      this.session := session;
      form := Blank();
      file := None;
      preview := None;
      uploading := false;
      editId := None;
    }

    /** `handleChange`: only the named input changes. */
    method HandleChange(name: Field, value: string)
      modifies this
      ensures form == Set(old(form), name, value)
      ensures file == old(file) && preview == old(preview) && uploading == old(uploading) && editId == old(editId)
    {
      form := Set(form, name, value);
    }

    /** `handleFileChange`: the picked file (or none) becomes pending and is previewed; nothing is uploaded yet. */
    method HandleFileChange(f: Option<LocalFile>)
      modifies this
      ensures file == f && preview == (if f.Some? then Some(FilePreview(f.value)) else None)
      ensures form == old(form) && uploading == old(uploading) && editId == old(editId)
    {
      file := f;
      preview := if f.Some? then Some(FilePreview(f.value)) else None;
    }

    /** The preview's remove button: the pending file and its preview are dropped. */
    method RemovePendingFile()
      modifies this
      ensures file == None && preview == None
      ensures form == old(form) && uploading == old(uploading) && editId == old(editId)
    {
      file := None;
      preview := None;
    }

    /** `startEdit`: the draft is seeded from the property, which is being edited; no file is pending. */
    method StartEdit(p: Property)
      modifies this
      ensures editId == Some(p.id) && form == DraftOfAsWritten(p) && preview == PreviewOf(p) && file == None
      ensures uploading == old(uploading)
    {
      editId := Some(p.id);
      form := DraftOfAsWritten(p);
      preview := PreviewOf(p);
      file := None;
    }

    /** `clearForm` (also the Cancel Edit button): exactly the blank create-mode state. */
    method ClearForm()
      modifies this
      ensures editId == None && form == Blank() && preview == None && file == None
      ensures uploading == old(uploading)
    {
      editId := None;
      form := Blank();
      preview := None;
      file := None;
    }

    /** The first half of `uploadImage`, up to the request: the button shows the busy state. */
    method BeginUpload(f: LocalFile, timestamp: nat) returns (call: Call)
      modifies this
      ensures uploading
      ensures call == UploadImage(FileKey(session.user.id, timestamp, f.name), f)
      ensures form == old(form) && file == old(file) && preview == old(preview) && editId == old(editId)
    {
      uploading := true;
      call := UploadImage(FileKey(session.user.id, timestamp, f.name), f);
    }

    /** The second half of `uploadImage`, on the reply: not busy any more, and the URL or the failure alert. */
    method FinishUpload(reply: UploadReply) returns (url: Option<string>, alert: Option<string>)
      modifies this
      ensures !uploading
      ensures reply.Uploaded? ==> url == Some(reply.publicUrl) && alert == None
      ensures reply.UploadFailed? ==> url == None && alert == Some(UploadFailedPrefix + reply.message)
      ensures form == old(form) && file == old(file) && preview == old(preview) && editId == old(editId)
    {
      uploading := false;
      if reply.Uploaded? {
        url, alert := Some(reply.publicUrl), None;
      } else {
        url, alert := None, Some(UploadFailedPrefix + reply.message);
      }
    }

    /**
     * `handleSubmit`. A pending file is uploaded first; if that fails nothing is
     * written and the draft stays. The row carries the uploaded URL and key (or
     * the typed URL and no key), the session's id as owner and its email as
     * landlord. While editing it is an update scoped by id and owner, otherwise
     * an insert. Success clears the form and asks for a refetch; failure keeps
     * the draft and the edit.
     */
    method HandleSubmit(timestamp: nat, uploadReply: UploadReply, writeReply: Status)
      returns (calls: seq<Call>, alert: Option<string>, refetch: bool)
      modifies this
      ensures old(file).Some? ==> !uploading
      ensures old(file).None? ==> uploading == old(uploading)
      ensures UploadBlocks(old(file), uploadReply) ==>
        calls == UploadCalls(session, timestamp, old(file)) && !refetch
        && alert == Some(UploadFailedPrefix + uploadReply.message)
      ensures !UploadBlocks(old(file), uploadReply) ==>
        calls == UploadCalls(session, timestamp, old(file))
                 + [SubmitWrite(session, timestamp, old(form), old(file), old(editId), uploadReply)]
      ensures !UploadBlocks(old(file), uploadReply) && writeReply.Failed? ==>
        !refetch && alert == Some((if Editing(old(editId)) then UpdateFailedPrefix else AddFailedPrefix) + writeReply.message)
      ensures !UploadBlocks(old(file), uploadReply) && writeReply.Succeeded? ==>
        refetch && alert == Some(if Editing(old(editId)) then UpdatedNotice else AddedNotice)
      ensures refetch ==> form == Blank() && editId == None && file == None && preview == None
      ensures !refetch ==> form == old(form) && editId == old(editId) && file == old(file) && preview == old(preview)
    {
      var owner := session.user.id;
      var finalImageUrl := form.imageUrl;
      var storedFileName: Option<string> := None;
      calls := [];
      if file.Some? {
        var up := BeginUpload(file.value, timestamp);
        calls := [up];
        var url, uploadAlert := FinishUpload(uploadReply);
        if url.None? {
          alert, refetch := uploadAlert, false;
          return;
        }
        finalImageUrl := url.value;
        storedFileName := Some(up.key);
      }
      var data := PropertyDataFor(form, owner, session.user.email, finalImageUrl, storedFileName);
      var write := WriteCall(editId, data, owner);
      calls := calls + [write];
      var editing := Editing(editId);
      if writeReply.Failed? {
        alert := Some((if editing then UpdateFailedPrefix else AddFailedPrefix) + writeReply.message);
        refetch := false;
      } else {
        alert := Some(if editing then UpdatedNotice else AddedNotice);
        ClearForm();
        refetch := true;
      }
    }

    /**
     * `deleteProperty`. Unconfirmed, nothing is asked. Confirmed, the image key
     * (when there is one) is removed first, then the row is deleted scoped by id
     * and owner; the removal's own reply is not looked at. A failed delete is
     * reported and neither refetches nor restores the image. The draft is untouched.
     */
    method DeleteProperty(id: PropertyId, imagePath: Option<string>, confirmed: bool, deleteReply: Status)
      returns (calls: seq<Call>, alert: Option<string>, refetch: bool)
      ensures !confirmed ==> calls == [] && alert == None && !refetch
      ensures confirmed ==>
        calls == (if Truthy(imagePath) then [RemoveImages([imagePath.value])] else [])
                 + [DeletePropertyRow(id, session.user.id)]
      ensures confirmed && deleteReply.Failed? ==> !refetch && alert == Some(DeleteErrorPrefix + deleteReply.message)
      ensures confirmed && deleteReply.Succeeded? ==> refetch && alert == Some(DeletedNotice)
    {
      if !confirmed {
        calls, alert, refetch := [], None, false;
        return;
      }
      calls := [];
      if Truthy(imagePath) {
        calls := [RemoveImages([imagePath.value])];
      }
      calls := calls + [DeletePropertyRow(id, session.user.id)];
      if deleteReply.Failed? {
        alert, refetch := Some(DeleteErrorPrefix + deleteReply.message), false;
      } else {
        alert, refetch := Some(DeletedNotice), true;
      }
    }
  }

  /** The wrapper component of the same file: session, role and the role-scoped property list. */
  class LandlordApp {
    var session: Option<Session>
    var userType: string
    var properties: seq<Property>
    const storage: DeviceStorage

    constructor (storage: DeviceStorage)
      ensures this.storage == storage
      ensures session == None && userType == StoredRoleOrTenant(storage.userType) && properties == []
    {
      this.storage := storage;
      session := None;
      userType := StoredRoleOrTenant(storage.userType);
      properties := [];
    }

    /** The startup `getSession` reply and every `onAuthStateChange` event: only the session is set. */
    method OnSession(s: Option<Session>)
      modifies this
      ensures session == s && userType == old(userType) && properties == old(properties)
    {
      session := s;
    }

    /**
     * `fetchProperties`: nothing without a session; landlords select their own
     * properties and every other role all of them; the rows (or `[]` for no
     * data) replace the list, which an error leaves alone.
     */
    method FetchProperties(reply: Result<Option<seq<Property>>>) returns (calls: seq<Call>)
      modifies this
      ensures old(session).None? ==> calls == [] && properties == old(properties)
      ensures old(session).Some? ==>
        calls == [SelectProperties(OwnerFilter(userType, old(session).value.user.id))]
        && properties == (if reply.Err? then old(properties) else reply.value.GetOr([]))
      ensures session == old(session) && userType == old(userType)
    {
      if session.None? {
        calls := [];
        return;
      }
      calls := [SelectProperties(OwnerFilter(userType, session.value.user.id))];
      if reply.Ok? {
        properties := reply.value.GetOr([]);
      }
    }

    /** `handleLogout`: sign out, remove the stored role, drop the session. */
    method HandleLogout() returns (calls: seq<Call>)
      modifies this, storage
      ensures calls == [SignOut] && storage.userType == None && session == None
      ensures userType == old(userType) && properties == old(properties)
    {
      calls := [SignOut];
      storage.RemoveUserType();
      session := None;
    }

    /** The auth form's `onLogin`: session and role set, the role stored. */
    method OnLogin(s: Session, role: string)
      modifies this, storage
      ensures session == Some(s) && userType == role && storage.userType == Some(role)
      ensures properties == old(properties)
    {
      session := Some(s);
      userType := role;
      storage.SetUserType(role);
    }

    /**
     * What the wrapper renders: the sign-in form without a session; otherwise
     * the tenant view of the list for the role "tenant" and, for every other
     * role, the landlord view of the same list with the session.
     */
    function Shown(): (a: MainArea)
      reads this
      ensures session.None? <==> a.SignInArea?
      ensures a.TenantArea? <==> session.Some? && userType == TenantRole
      ensures !a.SignInArea? ==> a.items == properties
      ensures a.LandlordArea? ==> a.session == session.value
    {
      if session.None? then SignInArea
      else if userType == TenantRole then TenantArea(properties)
      else LandlordArea(properties, session.value)
    }
  }

  /**
   * What each role's view lists once the table answers `fetchProperties`: a
   * landlord exactly their own rows; the tenant, and any role other than the
   * two known ones (which still gets the landlord view), every row.
   */
  lemma ViewedRows(table: seq<Property>, role: string, uid: UserId)
    ensures role == LandlordRole ==>
      forall p :: p in Selected(table, OwnerFilter(role, uid)) <==> p in table && p.ownerId == Some(uid)
    ensures role != LandlordRole ==> Selected(table, OwnerFilter(role, uid)) == table
  {
  }
}
