# HouseHunt client core in Dafny

This project models the client-side state handling of HouseHunt. HouseHunt is a React property-listings app backed by a hosted database, an auth service and image storage. Tenants browse, search, sort and favorite listings. Landlords add, edit and delete their own listings, each with an optional uploaded image.

The model covers five pieces:

- the main component's session, role and page state machine (`Shell.App`);
- its favorites list, which changes only after the remote call succeeds (`Favorites`);
- the search, sort and projections of the listing pages (`Search`, `Routing`);
- the landlord's draft-form controller and its wrapper component (`Landlord`, `Draft`);
- the auth form's outcome classification (`Auth`).

Each remote call works the same way:

- a method returns the `Call` values it issues;
- the reply arrives as a parameter (a `Status` or a `Result`);
- `localStorage['userType']` is the one field of a shared `DeviceStorage` object;
- `window.confirm` becomes a boolean parameter, and `Date.now()` a timestamp parameter.

Module layout:

| module | purpose |
|---|---|
| `Results` | `Option`, `Result`, `Status` |
| `Text` | JavaScript `trim`, `toLowerCase`, `includes` and a leading-integer parser, with its round-trip against decimal rendering |
| `Records` | property, session and favorite records, the remote calls, `DeviceStorage` |
| `Seqs` | stable filter and subsequences |
| `Search` | the two search filters and the stable price sort |
| `Routing` | page switch, owner and favorites projections, nav bar, screen |
| `Favorites` | the favorites list transitions |
| `Shell` | class `App`, the main component of src/App.jsx |
| `Draft` | the draft form, `startEdit`'s mapping and `handleSubmit`'s numeric coercion |
| `Landlord` | class `LandlordView` (the form controller) and class `LandlordApp` (the wrapper `App` of src/components/LandlordView.js) |
| `Auth` | class `AuthForm` of src/Auth.js and its outcome classification |

The favorites toggle is not optimistic: the code changes the local list only after the remote delete or insert succeeds, and the model does the same.

## Model

| member | source | states |
|---|---|---|
| Text.Trim | src/App.jsx:85 | the result is a contiguous slice of the input, with no whitespace at either end, and only whitespace was cut |
| Text.ToLower | src/App.jsx:85 | same length; every character is the lower-case form of the one at its index |
| Text.ToLowerIdempotent | src/App.jsx:85 | lower-casing twice is lower-casing once |
| Text.ContainsIff | src/App.jsx:85 | `includes` holds exactly when the needle occurs at some index of the haystack |
| Text.ContainsEmpty | src/App.jsx:85 | every string includes the empty string |
| Text.ParseInt | src/components/LandlordView.js:153-158 | an all-whitespace input reads as NaN (null); a number is read only where the input holds a digit |
| Text.ParseShowInt | src/components/LandlordView.js:153-158 | parsing the decimal rendering of any integer gives that integer back |
| Text.ShowIntInjective | src/components/LandlordView.js:127 | distinct integers render as distinct decimal strings |
| Records.StoredRoleOrTenant | src/App.jsx:193 | the stored role when it is a non-empty string, "tenant" otherwise |
| Records.DeviceStorage.constructor | src/App.jsx:177 | the device's stored role is whatever it held before the client started |
| Records.DeviceStorage.SetUserType | src/App.jsx:226 | the stored role becomes the given role |
| Records.DeviceStorage.RemoveUserType | src/App.jsx:201 | no role is stored any more |
| Seqs.Filter | src/App.jsx:83-87 | no longer than the input; keeps exactly the members that pass, each as often as in the input |
| Seqs.FilterIsSubsequence | src/App.jsx:83-87 | filtering keeps the input order (the result is a subsequence) |
| Seqs.FilterAppend | src/App.jsx:302 | filtering distributes over concatenation |
| Search.Query | src/App.jsx:85 | the query has the length of the trimmed term and each of its characters is the lower-case form of the trimmed term's character at that index, so it holds no upper-case letter |
| Search.SearchListings | src/App.jsx:83-87 | no longer than the input; keeps exactly the properties whose title, type or location mentions the query |
| Search.SearchTenant | src/components/TenantView.js:8-12 | no longer than the input; keeps exactly the properties whose title or location mentions the query |
| Search.PriceKey | src/components/TenantView.js:15-16 | the price the comparator subtracts; a missing price counts as 0 |
| Search.Compare | src/App.jsx:89-95 | 0 exactly for an unknown option or equal prices; "low" is negative exactly when the first price is lower; "high" when it is higher |
| Search.CompareIsPreorder | src/App.jsx:89-95 | the comparator is antisymmetric and transitive for every option |
| Search.Insert | src/App.jsx:89-95 | inserting adds exactly one element (multiset) |
| Search.InsertOrdered | src/App.jsx:89-95 | inserting into an ordered list keeps it ordered |
| Search.SortBy | src/App.jsx:89-95 | the sorted copy is a permutation of the input |
| Search.SortByOrdered | src/App.jsx:89-95 | the sorted copy is ordered by the comparator |
| Search.SortByOtherKeepsOrder | src/App.jsx:94 | any option other than "low" and "high" leaves the order unchanged (the sort is stable and the comparator is 0) |
| Search.InsertStable | src/App.jsx:89-95 | among the listings of one price, the inserted one comes first and the others keep their order |
| Search.SortByStable | src/App.jsx:89-95 | the sort is stable: for every price, the listings at that price keep their input order |
| Search.SortByPrice | src/components/TenantView.js:15-19 | "low" gives ascending and "high" descending price, each a permutation of the input |
| Search.FieldMatchesIff | src/App.jsx:85 | a field matches exactly when it is present and its lower-cased text contains the query; an absent field never matches |
| Search.MatchesIff | src/App.jsx:83-87 | the listings-page predicate is "title, type or location mentions the trimmed, lower-cased term"; the tenant-view predicate is the same over title or location |
| Search.SearchListingsSpec | src/App.jsx:83-87 | the listings-page search keeps exactly the input properties that mention the query in title, type or location, in input order |
| Search.SearchListingsBlankTerm | src/App.jsx:83-87 | a term that trims to nothing keeps exactly the properties with a title, a type or a location, so one with all three absent is dropped |
| Search.TrimStartToLower | src/App.jsx:85 | trimming the front commutes with lower-casing |
| Search.TrimEndToLower | src/App.jsx:85 | trimming the end commutes with lower-casing |
| Search.QueryIgnoresCase | src/App.jsx:85 | a lower-cased term gives the same query |
| Search.SearchIgnoresCase | src/components/TenantView.js:8-12 | both searches give the same result for a term and its lower-cased form |
| Search.SearchTenantSpec | src/components/TenantView.js:8-12 | the tenant search keeps exactly the properties that mention the query in title or location; one with both absent is never kept |
| Search.TenantViewShape | src/components/TenantView.js:8-19 | the result is a permutation of a subsequence of matching inputs; "low" ascends, "high" descends, any other option keeps the filtered order |
| Search.ListingsPageResult | src/App.jsx:83-95 | the listings page shows a permutation of the search result |
| Search.TenantViewResult | src/components/TenantView.js:8-19 | the tenant view shows a permutation of its search result |
| Search.ListingsPageShape | src/App.jsx:83-95 | the result is a permutation of the search result; "low" ascends, "high" descends, any other option keeps the filtered order |
| Search.TypeOnlyMatches | src/App.jsx:83-87 | with no title and no location the tenant view never matches, and the listings page matches whenever the type does |
| Search.TypeOnlyListingsPage | src/App.jsx:84 | a property whose only text is the type "Flat" is found by " flat " on the listings page but not in the tenant view |
| Routing.OwnedBy | src/App.jsx:330 | exactly the properties owned by the user, each as often as in the input, in input order |
| Routing.Favorited | src/App.jsx:333-335 | exactly the properties whose id is a favorite, each as often as in the input, in input order |
| Routing.PageContent | src/App.jsx:328-358 | "add" is the landlord page over the owned properties; "favorites" is headed "Your Favorites" over the favorited ones; both lists hold each kept property as often as the input and in input order; every other page is all listings |
| Routing.NavItems | src/App.jsx:389-405 | Listings first; Favorites shown exactly when the role is not landlord; Add exactly when it is |
| Routing.LandingPage | src/App.jsx:195-199 | "add" exactly for landlords, otherwise "listings"; always a page the nav bar shows |
| Routing.ScreenFor | src/App.jsx:316-326 | a spinner while the session is unknown; the auth form without a session; with a session the main screen, showing the role, the user's email, the role's nav bar and the current page's content |
| Favorites.Without | src/App.jsx:302 | the id is gone, every other id keeps its count, and the order is kept |
| Favorites.FavoriteIds | src/App.jsx:270 | the fetched rows' property ids, one per row, in order |
| Favorites.AfterToggle | src/App.jsx:294-309 | a failed reply leaves the list alone; a successful one flips the id's membership |
| Favorites.ToggleSpec | src/App.jsx:294-309 | a failed reply changes nothing; a successful one flips the id's membership, appending exactly that id when absent; other ids keep their counts |
| Favorites.ToggleTwice | src/App.jsx:294-309 | two successful toggles restore membership; an absent id leaves the list exactly as it was |
| Favorites.NoDuplicatesCount | src/App.jsx:302-308 | a duplicate-free list holds each id at most once |
| Favorites.CountAtMostOne | src/App.jsx:302-308 | holding each id at most once means duplicate-free |
| Favorites.ToggleKeepsNoDuplicates | src/App.jsx:294-309 | toggling keeps a duplicate-free list duplicate-free |
| Shell.App.constructor | src/App.jsx:175-183 | no session; the stored role or tenant; listings page; empty lists; loading |
| Shell.App.ApplyStartupSession | src/App.jsx:187-205 | with a session, the stored role (or tenant) and its landing page; without one, the stored role removed, role tenant, page listings; auth loading ends |
| Shell.App.OnAuthStateChange | src/App.jsx:207-217 | with a session, the stored role is re-read and the page kept; without one, the stored role removed, role tenant, page listings |
| Shell.App.HandleLogin | src/App.jsx:223-234 | session and role set, the role stored, the page is the role's landing page; nothing else changes |
| Shell.App.HandleLogout | src/App.jsx:236-238 | only a sign-out request is issued |
| Shell.App.Navigate | src/App.jsx:391-404 | the current page becomes the clicked nav page; nothing else changes |
| Shell.App.BeginFetchProperties | src/App.jsx:242-248 | loading on, error cleared, all properties requested |
| Shell.App.CompleteFetchProperties | src/App.jsx:249-256 | success replaces the list; failure keeps it and sets "Could not load property listings."; loading off either way |
| Shell.App.FetchProperties | src/App.jsx:242-257 | the whole fetch: unfiltered request, loading off, list replaced with error cleared, or list kept and the error message set |
| Shell.App.FetchFavorites | src/App.jsx:259-275 | no session empties the list with no request; otherwise the user's rows are requested and their ids replace the list, which a failure leaves alone |
| Favorites.AfterFetch | src/App.jsx:259-275 | the favorites list after a fetch, as used by `Shell.App.FetchFavorites` |
| Shell.App.RunDataEffect | src/App.jsx:277-286 | nothing until the session is known; then exactly the unfiltered properties request, followed by the user's favorites request when there is a session; loading ends, the error is cleared on success and set on failure; favorites are replaced with a session and emptied without one |
| Shell.App.ToggleFavorite | src/App.jsx:288-312 | no session shows the login notice and changes nothing; otherwise a favorited id is deleted and any other inserted with the role, and the list follows only success |
| Shell.App.Render | src/App.jsx:316-326 | a spinner while the session is unknown; the auth form without a session; with a session the main screen for the current role, the user's email, the role's nav bar and the current page's content over the state's properties and favorites |
| Draft.Set | src/components/LandlordView.js:113-116 | the named field takes the value and every other field is unchanged |
| Draft.Blank | src/components/LandlordView.js:103-106 | every field is "" except type, which is "Apartment" |
| Draft.OptionalNumber | src/components/LandlordView.js:154-158 | an empty field is null; a non-empty one is what the parser reads from it |
| Draft.PriceNumber | src/components/LandlordView.js:153 | an empty price is 0, not null; a non-empty one is what the parser reads from it |
| Draft.PropertyDataFor | src/components/LandlordView.js:151-163 | the row copies the text fields, coerces the numeric ones, and carries the owner, landlord email, image URL and image path given |
| Draft.DraftOfAsWritten | src/components/LandlordView.js:189-207 | as written: a number input is empty exactly when the column is null or 0, and otherwise the number's decimal rendering; the type is the stored type when non-empty and "Apartment" otherwise; every text input is the column's text or "" |
| Draft.DraftOf | src/components/LandlordView.js:189-207 | corrected: a number input is empty exactly when the column is null, and otherwise the number's decimal rendering; the type and text inputs as written |
| Draft.FileKey | src/components/LandlordView.js:127 | the key starts with the user id and a dash and ends with a dash and the file name |
| Draft.CoercionSpec | src/components/LandlordView.js:153-158 | empty numeric fields give null (price 0); the rendering of any integer coerces back to it |
| Draft.CoercionExample | src/components/LandlordView.js:153 | the price "1200" becomes 1200 |
| Draft.EditRoundTrip | src/components/LandlordView.js:189-207 | saving an unchanged edit, with the corrected mapping, writes back every number (a null price as 0) and every text column (title, location, description, phone, email, amenities, full address, image URL; a null one as ""), a missing or empty type as "Apartment", and no image path |
| Draft.NumberRoundTrip | src/components/LandlordView.js:154-158 | a number column mapped into the corrected draft and coerced back is unchanged; a null stays null |
| Draft.PriceRoundTrip | src/components/LandlordView.js:153 | the price mapped into the draft and coerced back is unchanged, and a null price becomes 0 |
| Draft.NumberAsWrittenRoundTrip | src/components/LandlordView.js:196-204 | as written, a number column mapped into the draft and coerced back is unchanged except that 0 becomes null |
| Draft.EditAsWrittenLosesZero | src/components/LandlordView.js:196-204 | as written, a stored 0 (bedrooms, longitude) becomes null on an unchanged save |
| Draft.FileKeySpec | src/components/LandlordView.js:127 | an upload key starts with the owner's id and a dash; distinct timestamps give distinct keys |
| Landlord.Editing | src/components/LandlordView.js:165 | no edit id, or the id 0, means create mode; any other id means an edit |
| Landlord.PreviewOf | src/components/LandlordView.js:208 | a preview exactly when the property has a non-empty image URL, and it shows that URL |
| Landlord.OwnerFilter | src/components/LandlordView.js:21-22 | the select is scoped to an owner exactly for the role "landlord", and then to the user's own id |
| Landlord.Selected | src/components/LandlordView.js:21-24 | the rows of a select: the whole table without a filter, otherwise exactly the rows of that owner |
| Landlord.ViewedRows | src/components/LandlordView.js:18-27 | once the table answers the fetch, a landlord holds exactly their own rows and every other role the whole table |
| Landlord.WriteCall | src/components/LandlordView.js:165-173 | an update scoped by id and owner exactly when an (truthy) edit id is set, otherwise an insert, both carrying the row |
| Landlord.UploadCalls | src/components/LandlordView.js:144-145 | one upload under the generated key exactly when a file is pending |
| Landlord.SubmitWrite | src/components/LandlordView.js:140-173 | the write's row is exactly `PropertyDataFor` of the draft, owned by the session's id and signed with its email, so every column is copied or coerced; an uploaded file's URL and key override the typed URL, and with no file the typed URL goes with no key |
| Landlord.LandlordView.constructor | src/components/LandlordView.js:103-111 | the blank draft, no file, no preview, not uploading, no edit |
| Landlord.LandlordView.HandleChange | src/components/LandlordView.js:113-116 | only the named draft field changes |
| Landlord.LandlordView.HandleFileChange | src/components/LandlordView.js:118-122 | the picked file becomes pending and is previewed |
| Landlord.LandlordView.RemovePendingFile | src/components/LandlordView.js:238 | the pending file and its preview are dropped |
| Landlord.LandlordView.StartEdit | src/components/LandlordView.js:189-210 | edit id set, draft seeded by the as-written mapping, preview from its image URL, no pending file |
| Landlord.LandlordView.ClearForm | src/components/LandlordView.js:212-220 | exactly the initial blank state: draft blank, no edit, no preview, no file |
| Landlord.LandlordView.BeginUpload | src/components/LandlordView.js:124-128 | uploading, and the upload is issued under `<userId>-<timestamp>-<name>` |
| Landlord.LandlordView.FinishUpload | src/components/LandlordView.js:129-135 | not uploading; the public URL, or the failure alert and no URL |
| Landlord.LandlordView.HandleSubmit | src/components/LandlordView.js:138-174 | a failed upload issues no write, alerts, and leaves the draft; otherwise the scoped write is issued; success alerts, clears the form and refetches; failure alerts and keeps draft and edit |
| Landlord.LandlordView.DeleteProperty | src/components/LandlordView.js:176-187 | no call unless confirmed; the image removed first only when there is a path; the row deleted by id and owner; failure alerts and neither refetches nor restores |
| Landlord.LandlordApp.constructor | src/components/LandlordView.js:7-9 | no session, the stored role or tenant, no properties |
| Landlord.LandlordApp.OnSession | src/components/LandlordView.js:11-16 | only the session changes |
| Landlord.LandlordApp.FetchProperties | src/components/LandlordView.js:18-27 | nothing without a session; otherwise one select with the role's owner filter; an error keeps the list, success sets it to the rows or [] |
| Landlord.LandlordApp.HandleLogout | src/components/LandlordView.js:33-37 | sign-out issued, stored role removed, session cleared |
| Landlord.LandlordApp.OnLogin | src/components/LandlordView.js:42-46 | session and role set, the role stored |
| Landlord.LandlordApp.Shown | src/components/LandlordView.js:39-66 | the sign-in form exactly without a session; the tenant view exactly for a session with the role "tenant"; every other role the landlord view with the session; both views over the fetched list |
| Auth.ErrorText | src/Auth.js:49 | never empty; a non-empty message is kept; an empty one becomes "An unknown error occurred." |
| Auth.Request | src/Auth.js:21-32 | sign-up sends the selected role as metadata; login sends only email and password |
| Auth.Classify | src/Auth.js:34-50 | an error shows its text and nothing else; session and user together log in with the selected role; a sign-up without a session is pending confirmation; the four outcomes are exhaustive and exclusive |
| Auth.AuthForm.constructor | src/Auth.js:7-12 | empty credentials, login mode, role "tenant", not loading, no error |
| Auth.AuthForm.SetEmail | src/Auth.js:66 | the email input takes the typed value; nothing else changes |
| Auth.AuthForm.SetPassword | src/Auth.js:75 | the password input takes the typed value; nothing else changes |
| Auth.AuthForm.ToggleMode | src/Auth.js:116-119 | sign-up and login swap; nothing else changes |
| Auth.AuthForm.SelectRole | src/Auth.js:83-99 | the role becomes the selected value; nothing else changes |
| Auth.AuthForm.BeginSubmit | src/Auth.js:14-17 | loading on, error cleared, the mode's request built |
| Auth.AuthForm.FinishSubmit | src/Auth.js:34-53 | loading off; an error sets its text; the role is stored only on login; the outcome is the classification |
| Auth.AuthForm.HandleSubmit | src/Auth.js:14-54 | the request of the mode; loading off after every outcome; error text only for an error, "" otherwise; role stored only on login |

## Left out

- JavaScript's Unicode `toLowerCase` is modelled on ASCII letters only; other characters are left unchanged.
- `parseFloat` and `parseInt` are modelled by one parser. It reads optional leading whitespace, an optional sign and the leading decimal digits, and gives null (NaN) when there are no digits. Fractions, exponents, hex and float coordinates are not modelled; every number is an integer.
- Search.ListingsPageResult: the App.jsx sort compares `parseFloat(price)`, which is NaN for a missing price. The model compares a missing price as 0 on both pages, as TenantView.js's `a.price - b.price` does. The NaN comparisons are not modelled.
- React effect scheduling is not modelled: the order in which `getSession` and `onAuthStateChange` fire, stale `useCallback` closures, and concurrent toggles or submits in flight. Each handler runs to completion on the state it starts from.
- `alert`, `console.error` and the pending-confirmation alert text are not modelled as output. Alerts and notices the logic chooses come back as `Option<string>` results; the confirmation alert is the `PendingConfirmation` outcome.
- `getPublicUrl` is the `Uploaded` reply's URL, and `URL.createObjectURL` is the `FilePreview` of the picked file.
- The column list of App.jsx's `select` and the backend's query semantics belong to the backend. A `SelectProperties` call records only its owner filter; `Landlord.Selected` states what an `owner_id` equality filter selects, and nothing else of the backend is modelled.
- A session always holds a user, so `session?.user` is modelled as the presence of the session.
- Rendering (JSX, classes, icons) is not modelled, beyond which view, heading, list and nav items a state shows. The busy labels driven by `uploading` and `loading` are left out too.
- The auth form's `onLogin` callback is the `LoggedIn` outcome returned to the caller; `Shell.App.HandleLogin` and `Landlord.LandlordApp.OnLogin` model what the two callers do with it.
- The mismatched import in src/App.jsx (line 4 names `LandlordView`, but the module's default export is its wrapper `App`) is module wiring and is not modelled.

## Findings

| source | as written | input that shows it | evidently intended | confidence | as-written member | corrected member |
|---|---|---|---|---|---|---|
| src/components/LandlordView.js:196-204 | `startEdit` maps every numeric column with `p.field \|\| ""`, so a stored 0 becomes the empty string, which `handleSubmit` then saves as null | a property with `bedrooms: 0` or `longitude: 0`, edited and saved unchanged, is written back with `bedrooms: null` and `longitude: null` | a missing value maps to "" and 0 to "0" (`p.field == null ? "" : String(p.field)`, which `handleSubmit`'s truthiness test then keeps; `p.field ?? ""` alone would not do, since the draft would hold the number 0 and `0 ? … : null` is still null), so an unchanged save writes back what was stored | not executed | Draft.EditAsWrittenLosesZero | Draft.EditRoundTrip |
