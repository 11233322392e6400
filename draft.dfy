/**
 * The landlord form's draft (src/components/LandlordView.js) as values: its
 * fields, the blank draft, the draft seeded from a property, and the row that
 * a submit builds from a draft.
 */
module Draft {
  import opened Results
  import opened Text
  import opened Records

  /** The names of the form's inputs, one per draft key. */
  datatype Field =
    | Title | Location | Price | Type | Bedrooms | Bathrooms | Area | Description
    | Phone | Email | Amenities | Latitude | Longitude | FullAddress | ImageUrl

  /** The draft: every input's current text. */
  datatype Form = Form(
    title: string,
    location: string,
    price: string,
    propertyType: string,
    bedrooms: string,
    bathrooms: string,
    area: string,
    description: string,
    phone: string,
    email: string,
    amenities: string,
    latitude: string,
    longitude: string,
    fullAddress: string,
    imageUrl: string)

  const DefaultType := "Apartment"

  /** `form[name]`. */
  function Get(f: Form, k: Field): string {
    match k
    case Title => f.title
    case Location => f.location
    case Price => f.price
    case Type => f.propertyType
    case Bedrooms => f.bedrooms
    case Bathrooms => f.bathrooms
    case Area => f.area
    case Description => f.description
    case Phone => f.phone
    case Email => f.email
    case Amenities => f.amenities
    case Latitude => f.latitude
    case Longitude => f.longitude
    case FullAddress => f.fullAddress
    case ImageUrl => f.imageUrl
  }

  /** `{ ...form, [name]: value }`: the named input takes the value, every other input keeps its text. */
  function Set(f: Form, k: Field, v: string): (r: Form)
    ensures Get(r, k) == v
    ensures forall j :: j != k ==> Get(r, j) == Get(f, j)
  {
    match k
    case Title => f.(title := v)
    case Location => f.(location := v)
    case Price => f.(price := v)
    case Type => f.(propertyType := v)
    case Bedrooms => f.(bedrooms := v)
    case Bathrooms => f.(bathrooms := v)
    case Area => f.(area := v)
    case Description => f.(description := v)
    case Phone => f.(phone := v)
    case Email => f.(email := v)
    case Amenities => f.(amenities := v)
    case Latitude => f.(latitude := v)
    case Longitude => f.(longitude := v)
    case FullAddress => f.(fullAddress := v)
    case ImageUrl => f.(imageUrl := v)
  }

  /** The blank draft of the create mode: every input empty except the type, "Apartment". */
  function Blank(): (f: Form)
    ensures forall k :: Get(f, k) == if k == Type then DefaultType else ""
  {
    Form("", "", "", DefaultType, "", "", "", "", "", "", "", "", "", "", "")
  }

  /** `s || ""` on a text column. */
  function TextOrEmpty(s: Option<string>): (r: string)
    ensures r == s.GetOr("")
  {
    if Truthy(s) then s.value else ""
  }

  /** `n || ""` on a number column, as written: 0 is falsy, so 0 shows as an empty input. */
  function NumberOrEmptyAsWritten(n: Option<int>): (r: string)
    ensures r == "" <==> n.None? || n == Some(0)
    ensures n.Some? && n.value != 0 ==> r == ShowInt(n.value)
  {
    if n.Some? && n.value != 0 then ShowInt(n.value) else ""
  }

  /**
   * `n == null ? "" : String(n)` on a number column: only an absent number
   * shows as an empty input, and a stored 0 shows as "0", which the submit's
   * truthiness test then keeps.
   */
  function NumberOrEmpty(n: Option<int>): (r: string)
    ensures r == "" <==> n.None?
    ensures n.Some? ==> r == ShowInt(n.value)
  {
    if n.Some? then ShowInt(n.value) else ""
  }

  /** `startEdit`'s mapping of a property to a draft, as written, with `||` on the number columns. */
  function DraftOfAsWritten(p: Property): (f: Form)
    ensures f.price == "" <==> p.price.None? || p.price == Some(0)
    ensures f.bedrooms == "" <==> p.bedrooms.None? || p.bedrooms == Some(0)
    ensures f.bathrooms == "" <==> p.bathrooms.None? || p.bathrooms == Some(0)
    ensures f.area == "" <==> p.area.None? || p.area == Some(0)
    ensures f.latitude == "" <==> p.latitude.None? || p.latitude == Some(0)
    ensures f.longitude == "" <==> p.longitude.None? || p.longitude == Some(0)
    ensures p.price.Some? && p.price.value != 0 ==> f.price == ShowInt(p.price.value)
    ensures p.bedrooms.Some? && p.bedrooms.value != 0 ==> f.bedrooms == ShowInt(p.bedrooms.value)
    ensures p.bathrooms.Some? && p.bathrooms.value != 0 ==> f.bathrooms == ShowInt(p.bathrooms.value)
    ensures p.area.Some? && p.area.value != 0 ==> f.area == ShowInt(p.area.value)
    ensures p.latitude.Some? && p.latitude.value != 0 ==> f.latitude == ShowInt(p.latitude.value)
    ensures p.longitude.Some? && p.longitude.value != 0 ==> f.longitude == ShowInt(p.longitude.value)
    ensures f.propertyType != ""
    ensures Truthy(p.propertyType) ==> f.propertyType == p.propertyType.value
    ensures !Truthy(p.propertyType) ==> f.propertyType == DefaultType
    ensures f.title == p.title.GetOr("") && f.location == p.location.GetOr("")
    ensures f.description == p.description.GetOr("") && f.phone == p.phone.GetOr("")
    ensures f.email == p.email.GetOr("") && f.amenities == p.amenities.GetOr("")
    ensures f.fullAddress == p.fullAddress.GetOr("") && f.imageUrl == p.imageUrl.GetOr("")
  {
    Form(
      TextOrEmpty(p.title),
      TextOrEmpty(p.location),
      NumberOrEmptyAsWritten(p.price),
      if Truthy(p.propertyType) then p.propertyType.value else DefaultType,
      NumberOrEmptyAsWritten(p.bedrooms),
      NumberOrEmptyAsWritten(p.bathrooms),
      NumberOrEmptyAsWritten(p.area),
      TextOrEmpty(p.description),
      TextOrEmpty(p.phone),
      TextOrEmpty(p.email),
      TextOrEmpty(p.amenities),
      NumberOrEmptyAsWritten(p.latitude),
      NumberOrEmptyAsWritten(p.longitude),
      TextOrEmpty(p.fullAddress),
      TextOrEmpty(p.imageUrl))
  }

  /**
   * `startEdit`'s mapping with the number columns mapped by NumberOrEmpty, so
   * that a stored 0 stays 0 through an edit; the text columns are as written.
   */
  function DraftOf(p: Property): (f: Form)
    ensures f.price == "" <==> p.price.None?
    ensures f.bedrooms == "" <==> p.bedrooms.None?
    ensures f.bathrooms == "" <==> p.bathrooms.None?
    ensures f.area == "" <==> p.area.None?
    ensures f.latitude == "" <==> p.latitude.None?
    ensures f.longitude == "" <==> p.longitude.None?
    ensures p.price.Some? ==> f.price == ShowInt(p.price.value)
    ensures p.bedrooms.Some? ==> f.bedrooms == ShowInt(p.bedrooms.value)
    ensures p.bathrooms.Some? ==> f.bathrooms == ShowInt(p.bathrooms.value)
    ensures p.area.Some? ==> f.area == ShowInt(p.area.value)
    ensures p.latitude.Some? ==> f.latitude == ShowInt(p.latitude.value)
    ensures p.longitude.Some? ==> f.longitude == ShowInt(p.longitude.value)
    ensures f.propertyType != ""
    ensures Truthy(p.propertyType) ==> f.propertyType == p.propertyType.value
    ensures !Truthy(p.propertyType) ==> f.propertyType == DefaultType
    ensures f.title == p.title.GetOr("") && f.location == p.location.GetOr("")
    ensures f.description == p.description.GetOr("") && f.phone == p.phone.GetOr("")
    ensures f.email == p.email.GetOr("") && f.amenities == p.amenities.GetOr("")
    ensures f.fullAddress == p.fullAddress.GetOr("") && f.imageUrl == p.imageUrl.GetOr("")
  {
    Form(
      TextOrEmpty(p.title),
      TextOrEmpty(p.location),
      NumberOrEmpty(p.price),
      if Truthy(p.propertyType) then p.propertyType.value else DefaultType,
      NumberOrEmpty(p.bedrooms),
      NumberOrEmpty(p.bathrooms),
      NumberOrEmpty(p.area),
      TextOrEmpty(p.description),
      TextOrEmpty(p.phone),
      TextOrEmpty(p.email),
      TextOrEmpty(p.amenities),
      NumberOrEmpty(p.latitude),
      NumberOrEmpty(p.longitude),
      TextOrEmpty(p.fullAddress),
      TextOrEmpty(p.imageUrl))
  }

  /** `s ? parseInt(s) : null` (and `parseFloat`): empty input is null, not zero; `NaN` is sent as null too. */
  function OptionalNumber(s: string): (n: Option<int>)
    ensures s == "" ==> n == None
    ensures s != "" ==> n == ParseInt(s)
  {
    if s == "" then None else ParseInt(s)
  }

  /** `parseFloat(s || 0)`: the price is 0 when the input is empty. */
  function PriceNumber(s: string): (n: Option<int>)
    ensures s == "" ==> n == Some(0)
    ensures s != "" ==> n == ParseInt(s)
  {
    if s == "" then Some(0) else ParseInt(s)
  }

  /**
   * The row `handleSubmit` writes: the draft's keys, the numbers coerced, the
   * owner and landlord from the session, and the image URL and storage key.
   */
  function PropertyDataFor(f: Form, owner: UserId, landlord: string, imageUrl: string, imagePath: Option<string>): (d: PropertyData)
    ensures d.ownerId == owner && d.landlord == landlord && d.imageUrl == imageUrl && d.imagePath == imagePath
    ensures d.price == PriceNumber(f.price)
    ensures d.bedrooms == OptionalNumber(f.bedrooms) && d.bathrooms == OptionalNumber(f.bathrooms)
    ensures d.area == OptionalNumber(f.area)
    ensures d.latitude == OptionalNumber(f.latitude) && d.longitude == OptionalNumber(f.longitude)
    ensures d.title == f.title && d.location == f.location && d.propertyType == f.propertyType
    ensures d.description == f.description && d.phone == f.phone && d.email == f.email
    ensures d.amenities == f.amenities && d.fullAddress == f.fullAddress && d.draftImageUrl == f.imageUrl
  {
    PropertyData(
      f.title, f.location, PriceNumber(f.price), f.propertyType,
      OptionalNumber(f.bedrooms), OptionalNumber(f.bathrooms), OptionalNumber(f.area),
      f.description, f.phone, f.email, f.amenities,
      OptionalNumber(f.latitude), OptionalNumber(f.longitude), f.fullAddress, f.imageUrl,
      owner, landlord, imageUrl, imagePath)
  }

  /** The storage key of an upload: `"<userId>-<timestamp>-<file name>"`. */
  function FileKey(uid: UserId, timestamp: nat, name: string): (key: string)
    ensures |key| > |uid| + |name| + 2
    ensures key[..|uid| + 1] == uid + "-" && key[|key| - |name| - 1..] == "-" + name
  {
    var key := uid + "-" + ShowInt(timestamp) + "-" + name;
    assert key == (uid + "-") + (ShowInt(timestamp) + "-" + name);
    assert key == (uid + "-" + ShowInt(timestamp)) + ("-" + name);
    key
  }

  /** Numeric coercion: empty input gives null (0 for the price), and a rendered number reads back as itself. */
  lemma CoercionSpec(n: int)
    ensures OptionalNumber("") == None && PriceNumber("") == Some(0)
    ensures OptionalNumber(ShowInt(n)) == Some(n) && PriceNumber(ShowInt(n)) == Some(n)
  {
    ParseShowInt(n);
  }

  /** A typed "1200" is stored as the number 1200; an empty bedrooms input as null. */
  lemma CoercionExample()
    ensures PriceNumber("1200") == Some(1200)
    ensures OptionalNumber("") == None
  {
    RenderTwelveHundred();
    CoercionSpec(1200);
  }

  lemma RenderTwelveHundred()
    ensures ShowInt(1200) == "1200"
  {
    assert ShowNat(1) == "1";
    assert ShowNat(12) == ShowNat(1) + ['2'];
    assert ShowNat(120) == ShowNat(12) + ['0'];
    assert ShowNat(1200) == ShowNat(120) + ['0'];
  }

  /**
   * Editing a property and saving it unchanged, without a new file, writes
   * back every number it had (a missing price as 0) and every text column it
   * had, a missing one as ""; a missing or empty type becomes "Apartment".
   */
  lemma EditRoundTrip(p: Property, owner: UserId, landlord: string)
    ensures var f := DraftOf(p);
      var d := PropertyDataFor(f, owner, landlord, f.imageUrl, None);
      d.price == Some(p.price.GetOr(0))
      && d.bedrooms == p.bedrooms && d.bathrooms == p.bathrooms && d.area == p.area
      && d.latitude == p.latitude && d.longitude == p.longitude
      && d.title == p.title.GetOr("") && d.location == p.location.GetOr("")
      && d.propertyType == (if Truthy(p.propertyType) then p.propertyType.value else DefaultType)
      && d.description == p.description.GetOr("") && d.phone == p.phone.GetOr("")
      && d.email == p.email.GetOr("") && d.amenities == p.amenities.GetOr("")
      && d.fullAddress == p.fullAddress.GetOr("")
      && d.imageUrl == p.imageUrl.GetOr("") && d.imagePath == None
  {
    PriceRoundTrip(p.price);
    NumberRoundTrip(p.bedrooms);
    NumberRoundTrip(p.bathrooms);
    NumberRoundTrip(p.area);
    NumberRoundTrip(p.latitude);
    NumberRoundTrip(p.longitude);
  }

  /** A number column survives the corrected draft mapping and the submit coercion; a null one stays null. */
  lemma NumberRoundTrip(n: Option<int>)
    ensures OptionalNumber(NumberOrEmpty(n)) == n
  {
    if n.Some? { CoercionSpec(n.value); }
  }

  /** Through the as-written mapping and the coercion a number column survives, except that 0 becomes null. */
  lemma NumberAsWrittenRoundTrip(n: Option<int>)
    ensures OptionalNumber(NumberOrEmptyAsWritten(n)) == if n == Some(0) then None else n
  {
    if n.Some? { CoercionSpec(n.value); }
  }

  /** The price survives the same way, a null price becoming 0. */
  lemma PriceRoundTrip(n: Option<int>)
    ensures PriceNumber(NumberOrEmpty(n)) == Some(n.GetOr(0))
  {
    if n.Some? { CoercionSpec(n.value); }
  }

  /**
   * As written, the same edit turns a stored 0 into null: a property at
   * longitude 0 (or with 0 bedrooms) loses the value on an unchanged save.
   */
  lemma EditAsWrittenLosesZero(p: Property, owner: UserId, landlord: string)
    requires p.longitude == Some(0) && p.bedrooms == Some(0)
    ensures var f := DraftOfAsWritten(p);
      var d := PropertyDataFor(f, owner, landlord, f.imageUrl, None);
      d.longitude == None != p.longitude && d.bedrooms == None != p.bedrooms
  {
  }

  /** A stored key starts with the owner's id, and one owner's uploads of one file at distinct times get distinct keys. */
  lemma FileKeySpec(uid: UserId, t1: nat, t2: nat, name: string)
    ensures FileKey(uid, t1, name)[..|uid| + 1] == uid + "-"
    ensures t1 != t2 ==> FileKey(uid, t1, name) != FileKey(uid, t2, name)
  {
    var k1, k2 := FileKey(uid, t1, name), FileKey(uid, t2, name);
    var s1, s2 := ShowInt(t1), ShowInt(t2);
    assert k1 == (uid + "-") + (s1 + "-" + name);
    if k1 == k2 {
      assert k2 == (uid + "-") + (s2 + "-" + name);
      var n := |uid| + 1;
      assert k1[n..] == s1 + "-" + name;
      assert k2[n..] == s2 + "-" + name;
      assert |s1| == |s2|;
      assert s1 == (s1 + "-" + name)[..|s1|];
      assert s2 == (s2 + "-" + name)[..|s2|];
      ShowIntInjective(t1, t2);
    }
  }
}
