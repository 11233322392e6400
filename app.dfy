/**
 * The main component of the listings client (src/App.jsx): its React state as
 * the fields of a class, each effect and handler as a method. A remote call is
 * issued by returning it, and its reply is a parameter of the method.
 */
module Shell {
  import opened Results
  import opened Records
  import opened Seqs
  import Favorites
  import opened Routing

  const LoadErrorMessage := "Could not load property listings."
  const LoginRequiredNotice := "You must log in to favorite a property."

  class App {
    var session: Option<Session>
    var userType: string
    var currentPage: string
    var properties: seq<Property>
    var favorites: seq<PropertyId>
    var loading: bool
    var error: Option<string>
    var authLoading: bool
    const storage: DeviceStorage

    /** The initial state: no session, the stored role or tenant, the listings page, loading. */
    constructor (storage: DeviceStorage)
      ensures this.storage == storage
      ensures session == None && userType == StoredRoleOrTenant(storage.userType) && currentPage == ListingsPage
      ensures properties == [] && favorites == [] && loading && error == None && authLoading
    {
      this.storage := storage;
      session := None;
      userType := StoredRoleOrTenant(storage.userType);
      currentPage := ListingsPage;
      properties := [];
      favorites := [];
      loading := true;
      error := None;
      authLoading := true;
    }

    /**
     * The reply of `getSession` at startup. With a session the role is the
     * stored one (or tenant) and the page is that role's landing page; without
     * one the stored role is removed, the role is tenant and the page listings.
     */
    method ApplyStartupSession(s: Option<Session>)
      modifies this, storage
      ensures session == s && !authLoading
      ensures s.Some? ==>
        userType == StoredRoleOrTenant(old(storage.userType))
        && storage.userType == old(storage.userType) && currentPage == LandingPage(userType)
      ensures s.None? ==> userType == TenantRole && storage.userType == None && currentPage == ListingsPage
      ensures properties == old(properties) && favorites == old(favorites)
      ensures loading == old(loading) && error == old(error)
    {
      session := s;
      authLoading := false;
      if s.Some? {
        var stored := StoredRoleOrTenant(storage.userType);
        userType := stored;
        if stored == LandlordRole {
          currentPage := AddPage;
        } else {
          currentPage := ListingsPage;
        }
      } else {
        storage.RemoveUserType();
        userType := TenantRole;
        currentPage := ListingsPage;
      }
    }

    /**
     * An `onAuthStateChange` event. A session re-reads the stored role and keeps
     * the page; its absence removes the stored role, resets the role to tenant
     * and the page to listings.
     */
    method OnAuthStateChange(s: Option<Session>)
      modifies this, storage
      ensures session == s
      ensures s.Some? ==>
        userType == StoredRoleOrTenant(old(storage.userType))
        && storage.userType == old(storage.userType) && currentPage == old(currentPage)
      ensures s.None? ==> userType == TenantRole && storage.userType == None && currentPage == ListingsPage
      ensures authLoading == old(authLoading) && properties == old(properties) && favorites == old(favorites)
      ensures loading == old(loading) && error == old(error)
    {
      session := s;
      if s.Some? {
        userType := StoredRoleOrTenant(storage.userType);
      } else {
        storage.RemoveUserType();
        userType := TenantRole;
        currentPage := ListingsPage;
      }
    }

    /** `handleLogin`, called by the auth form: session and role set, the role stored, the role's landing page. */
    method HandleLogin(s: Session, role: string)
      modifies this, storage
      ensures session == Some(s) && userType == role && storage.userType == Some(role)
      ensures currentPage == LandingPage(role)
      ensures authLoading == old(authLoading) && properties == old(properties) && favorites == old(favorites)
      ensures loading == old(loading) && error == old(error)
    {
      session := Some(s);
      userType := role;
      storage.SetUserType(role);
      if role == LandlordRole {
        currentPage := AddPage;
      } else {
        currentPage := ListingsPage;
      }
    }

    /** `handleLogout` only asks the backend to sign out; the state follows through `OnAuthStateChange(None)`. */
    method HandleLogout() returns (call: Call)
      ensures call == SignOut
    {
      call := SignOut;
    }

    /** A click on a navigation button; only the buttons the role sees can be clicked. */
    method Navigate(page: string)
      requires page in NavItems(userType)
      modifies this
      ensures currentPage == page
      ensures session == old(session) && userType == old(userType) && authLoading == old(authLoading)
      ensures properties == old(properties) && favorites == old(favorites)
      ensures loading == old(loading) && error == old(error)
    {
      currentPage := page;
    }

    /** The first half of `fetchProperties`, up to the request: loading on, error cleared. */
    method BeginFetchProperties() returns (call: Call)
      modifies this
      ensures call == SelectProperties(None)
      ensures loading && error == None
      ensures session == old(session) && userType == old(userType) && currentPage == old(currentPage)
      ensures authLoading == old(authLoading) && properties == old(properties) && favorites == old(favorites)
    {
      loading := true;
      error := None;
      call := SelectProperties(None);
    }

    /**
     * The second half of `fetchProperties`, on the reply: the rows replace the
     * list, or the list is kept and the error message set; loading off either way.
     */
    method CompleteFetchProperties(reply: Result<seq<Property>>)
      modifies this
      ensures !loading
      ensures reply.Ok? ==> properties == reply.value && error == old(error)
      ensures reply.Err? ==> properties == old(properties) && error == Some(LoadErrorMessage)
      ensures session == old(session) && userType == old(userType) && currentPage == old(currentPage)
      ensures authLoading == old(authLoading) && favorites == old(favorites)
    {
      if reply.Ok? {
        properties := reply.value;
      } else {
        error := Some(LoadErrorMessage);
      }
      loading := false;
    }

    /** `fetchProperties` from request to reply: every property, unfiltered by role. */
    method FetchProperties(reply: Result<seq<Property>>) returns (call: Call)
      modifies this
      ensures call == SelectProperties(None)
      ensures !loading
      ensures reply.Ok? ==> properties == reply.value && error == None
      ensures reply.Err? ==> properties == old(properties) && error == Some(LoadErrorMessage)
      ensures session == old(session) && userType == old(userType) && currentPage == old(currentPage)
      ensures authLoading == old(authLoading) && favorites == old(favorites)
    {
      call := BeginFetchProperties();
      CompleteFetchProperties(reply);
    }

    /**
     * `fetchFavorites`: without a session the list is emptied and nothing is
     * asked; with one the user's favorite rows are selected and their ids
     * replace the list, which a failure leaves alone.
     */
    method FetchFavorites(reply: Result<seq<FavoriteRow>>) returns (calls: seq<Call>)
      modifies this
      ensures old(session).None? ==> calls == []
      ensures old(session).Some? ==> calls == [SelectFavoriteIds(old(session).value.user.id)]
      ensures favorites == Favorites.AfterFetch(old(favorites), old(session).Some?, reply)
      ensures session == old(session) && userType == old(userType) && currentPage == old(currentPage)
      ensures authLoading == old(authLoading) && properties == old(properties)
      ensures loading == old(loading) && error == old(error)
    {
      if session.None? {
        favorites := [];
        calls := [];
        return;
      }
      calls := [SelectFavoriteIds(session.value.user.id)];
      if reply.Ok? {
        favorites := Favorites.FavoriteIds(reply.value);
      }
    }

    /**
     * The data effect that runs once the startup session is known: properties
     * are fetched either way; favorites are fetched with a session and emptied
     * without one. Before the session is known it does nothing.
     */
    method RunDataEffect(propertiesReply: Result<seq<Property>>, favoritesReply: Result<seq<FavoriteRow>>)
      returns (calls: seq<Call>)
      modifies this
      ensures old(authLoading) ==>
        calls == [] && properties == old(properties) && favorites == old(favorites)
        && loading == old(loading) && error == old(error)
      ensures !old(authLoading) ==>
        !loading
        && properties == (if propertiesReply.Ok? then propertiesReply.value else old(properties))
        && error == (if propertiesReply.Ok? then None else Some(LoadErrorMessage))
        && favorites == Favorites.AfterFetch(old(favorites), old(session).Some?, favoritesReply)
      ensures !old(authLoading) && old(session).None? ==> calls == [SelectProperties(None)]
      ensures !old(authLoading) && old(session).Some? ==>
        calls == [SelectProperties(None), SelectFavoriteIds(old(session).value.user.id)]
      ensures session == old(session) && userType == old(userType) && currentPage == old(currentPage)
      ensures authLoading == old(authLoading)
    {
      calls := [];
      if !authLoading && session.Some? {
        var c := FetchProperties(propertiesReply);
        var cs := FetchFavorites(favoritesReply);
        calls := [c] + cs;
      } else if !authLoading && session.None? {
        var c := FetchProperties(propertiesReply);
        favorites := [];
        calls := [c];
      }
    }

    /**
     * `toggleFavorite`: without a session nothing is asked and the login notice
     * is shown. Otherwise a favorited id has its edge deleted and an other id
     * gets an edge inserted (tagged with the current role); the list follows
     * only a successful reply.
     */
    method ToggleFavorite(id: PropertyId, reply: Status) returns (calls: seq<Call>, notice: Option<string>)
      modifies this
      ensures old(session).None? ==> calls == [] && notice == Some(LoginRequiredNotice) && favorites == old(favorites)
      ensures old(session).Some? ==>
        notice == None
        && favorites == Favorites.AfterToggle(old(favorites), id, reply)
        && calls == if id in old(favorites) then [DeleteFavorite(old(session).value.user.id, id)]
                    else [InsertFavorite(FavoriteEdge(old(session).value.user.id, id, old(userType)))]
      ensures session == old(session) && userType == old(userType) && currentPage == old(currentPage)
      ensures authLoading == old(authLoading) && properties == old(properties)
      ensures loading == old(loading) && error == old(error)
    {
      if session.None? {
        calls, notice := [], Some(LoginRequiredNotice);
        return;
      }
      notice := None;
      var uid := session.value.user.id;
      if id in favorites {
        calls := [DeleteFavorite(uid, id)];
        if reply.Succeeded? {
          favorites := Favorites.Without(favorites, id);
        }
      } else {
        calls := [InsertFavorite(FavoriteEdge(uid, id, userType))];
        if reply.Succeeded? {
          favorites := favorites + [id];
        }
      }
    }

    /** What the component renders from its state. */
    function Render(): (s: Screen)
      reads this
      ensures authLoading ==> s == Spinner
      ensures !authLoading && session.None? ==> s == AuthScreen
      ensures !authLoading && session.Some? ==>
        s == MainScreen(userType, session.value.user.email,
                        PageContent(currentPage, session.value.user.id, properties, favorites),
                        NavItems(userType))
    {
      ScreenFor(authLoading, session, userType, currentPage, properties, favorites)
    }
  }
}
