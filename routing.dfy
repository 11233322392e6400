/**
 * Role-gated routing of the listings client (src/App.jsx): which page a role
 * lands on, which navigation buttons it sees, and what each page lists.
 */
module Routing {
  import opened Results
  import opened Records
  import opened Seqs

  const AllListingsHeading := "All Available Listings"
  const FavoritesHeading := "Your Favorites"

  /** The content of the main area: a listings page with its heading and input list, or the landlord page. */
  datatype View =
    | ListingsView(heading: string, items: seq<Property>)
    | LandlordPage(items: seq<Property>)

  /** What the client renders as a whole. */
  datatype Screen =
    | Spinner
    | AuthScreen
    | MainScreen(role: string, email: string, view: View, nav: seq<string>)

  /** The properties the signed-in user owns, in list order. */
  function OwnedBy(ps: seq<Property>, uid: UserId): (r: seq<Property>)
    ensures forall p :: p in r <==> p in ps && p.ownerId == Some(uid)
    ensures forall p :: multiset(r)[p] == if p.ownerId == Some(uid) then multiset(ps)[p] else 0
    ensures IsSubsequence(r, ps)
  {
    FilterIsSubsequence(ps, (p: Property) => p.ownerId == Some(uid));
    Filter(ps, (p: Property) => p.ownerId == Some(uid))
  }

  /** The properties whose id is among the favorites, in list order. */
  function Favorited(ps: seq<Property>, favorites: seq<PropertyId>): (r: seq<Property>)
    ensures forall p :: p in r <==> p in ps && p.id in favorites
    ensures forall p :: multiset(r)[p] == if p.id in favorites then multiset(ps)[p] else 0
    ensures IsSubsequence(r, ps)
  {
    FilterIsSubsequence(ps, (p: Property) => p.id in favorites);
    Filter(ps, (p: Property) => p.id in favorites)
  }

  /**
   * `getPageContent`: "listings" and "favorites" are listings pages, the second
   * over the favorited properties; "add" is the landlord page over the owned
   * properties; any other page falls back to all listings.
   */
  function PageContent(page: string, uid: UserId, ps: seq<Property>, favorites: seq<PropertyId>): (v: View)
    ensures v.LandlordPage? <==> page == AddPage
    ensures page == AddPage ==> forall p :: p in v.items <==> p in ps && p.ownerId == Some(uid)
    ensures page == AddPage ==>
      forall p :: multiset(v.items)[p] == if p.ownerId == Some(uid) then multiset(ps)[p] else 0
    ensures page == FavoritesPage ==>
      v.heading == FavoritesHeading && forall p :: p in v.items <==> p in ps && p.id in favorites
    ensures page == FavoritesPage ==>
      forall p :: multiset(v.items)[p] == if p.id in favorites then multiset(ps)[p] else 0
    ensures page == AddPage || page == FavoritesPage ==> IsSubsequence(v.items, ps)
    ensures page != AddPage && page != FavoritesPage ==> v == ListingsView(AllListingsHeading, ps)
  {
    match page
    case "listings" => ListingsView(AllListingsHeading, ps)
    case "favorites" => ListingsView(FavoritesHeading, Favorited(ps, favorites))
    case "add" => LandlordPage(OwnedBy(ps, uid))
    case _ => ListingsView(AllListingsHeading, ps)
  }

  /** The navigation bar: Listings always, Favorites for every role but landlord, Add for landlords only. */
  function NavItems(role: string): (nav: seq<string>)
    ensures |nav| == 2 && nav[0] == ListingsPage
    ensures FavoritesPage in nav <==> role != LandlordRole
    ensures AddPage in nav <==> role == LandlordRole
  {
    [ListingsPage] + (if role != LandlordRole then [FavoritesPage] else []) + (if role == LandlordRole then [AddPage] else [])
  }

  /** The page a role starts on once a session is established. */
  function LandingPage(role: string): (page: string)
    ensures page == AddPage <==> role == LandlordRole
    ensures page == AddPage || page == ListingsPage
    ensures page in NavItems(role)
  {
    if role == LandlordRole then AddPage else ListingsPage
  }

  /**
   * The whole screen: a spinner until the startup session is known, the auth
   * form without a session, and otherwise the header, the page and the nav bar.
   */
  function ScreenFor(authLoading: bool, session: Option<Session>, role: string, page: string,
                     ps: seq<Property>, favorites: seq<PropertyId>): (s: Screen)
    ensures authLoading ==> s == Spinner
    ensures !authLoading && session.None? ==> s == AuthScreen
    ensures !authLoading && session.Some? ==> s.MainScreen?
    ensures s.MainScreen? ==>
      session.Some? && s.role == role && s.email == session.value.user.email
      && s.nav == NavItems(role) && s.view == PageContent(page, session.value.user.id, ps, favorites)
  {
    if authLoading then Spinner
    else if session.None? then AuthScreen
    else MainScreen(role, session.value.user.email, PageContent(page, session.value.user.id, ps, favorites), NavItems(role))
  }
}
