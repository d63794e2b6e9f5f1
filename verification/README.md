# Election console: data service and page logic in Dafny

This project models the logic of a browser console for running elections.
The console keeps three in-memory tables: elections, requests from users to
stand as candidates ("participants"), and users. Its pages apply a few rules
and list transforms to that data. The model covers:

- **The data service** (`src/services/data.ts`). The class `Store` holds the
  three tables as sequences. Its methods change them in place: `createElection`,
  `updateParticipantStatus`, `toggleUserStatus`, `requestToBeContestant`. It
  also has the read-only getters. Three of the mutating methods are proved equal
  to a pure function from the old tables to the new tables plus the promise's
  outcome (`UpdateStatus`, `ToggleIn`, `RequestIn`). `createElection` states
  its new table directly: the old one with the new election appended.
  Distinct ids in every table (`Store.Valid`) are required of the starting
  tables, as the seed records have them, and every method keeps them. The lemmas are stated
  about those functions: toggling twice restores the table, a lookup after a
  create finds the new election, and ids stay distinct.
- **The Elections page**. It covers the status a new election is given from
  its dates and the current time. It covers the creation handler, including
  its missing-date guard. It covers the case-insensitive search.
- **The Participant Requests page**. It covers replace-by-id after a decision,
  proved to keep the page's list equal to the store's table. It also covers
  the search, the rule that only pending requests offer Approve/Deny, and the
  status badge.
- **The Dashboard page**. It covers the counters, the "recent" slice and the
  voter's available and upcoming lists.
- **The dashboard layout**. It covers the page title that follows the path.
- **The User Profile page**. It covers the avatar initials and the edit form's
  state.

Modules: `Seqs` (the array operations `filter`, `findIndex` and `find`),
`Text` (ASCII case conversion, `includes`, `startsWith`), `DataService`,
`ElectionsPage`, `ParticipantRequestsPage`, `DashboardPage`,
`DashboardLayout` and `UserProfilePage`.

Modelling choices:

- Ids are strings. Each `uuidv4()` call becomes a `newId` parameter. A
  precondition says the table does not already hold that id, which is what a
  version-4 UUID is relied on for.
- Dates are integer timestamps. `new Date()` becomes a `now` parameter.
- A promise is a `Result`: `Ok(value)` when it resolves, `Err(message)` when
  it rejects, with the code's own messages.
- `toLowerCase` and `toUpperCase` are modelled on ASCII letters only.
- Page lists are value copies of the store's tables.

The model follows the code where the code is looser than the design it
serves:

- The store does not check that a request is still pending before deciding
  it (`StoreOverwritesDecision`). Only the page's buttons enforce that
  (`PageDecidesOnlyPending`).
- Duplicate requests are not rejected.
- An election's status is not checked when a request is made.
- No start-before-end check is made when an election is created. Only the
  form's end-date calendar disables dates before the chosen start, and every
  date while no start is chosen (src/pages/Elections.tsx:235). So start ≤ end
  holds when the end date is picked, which is why `UpcomingBeforeStart` and
  `StatusMonotonic` assume it. The start date can still be moved past the end
  afterwards, and `DeriveStatus` is stated for any dates.
- An election's status is computed once at creation and stored. It is never
  recomputed (`StatusFixedAtCreation`). The dashboard counts and lists use
  the stored status.
- No votes are recorded anywhere.

## Model

| member | source | states |
|---|---|---|
| `Seqs.Filter` | src/pages/Dashboard.tsx:169-172 | Each kept element is in the input and passes the test. Every input element that passes the test is kept. The result is no longer than the input. |
| `Seqs.FilterAppend` | src/pages/Elections.tsx:131-134 | Filtering a concatenation gives the concatenation of the filtered parts. With the one-element case, this means the kept elements appear in their original order. |
| `Seqs.IndexOf` | src/services/data.ts:147 | `findIndex` by id returns -1 exactly when no record has the id. Otherwise it returns the first position holding the id. |
| `Seqs.Find` | src/services/data.ts:133 | `find` by id returns nothing exactly when no record has the id. Otherwise it returns the earliest record carrying the id. |
| `DataService.UpdateStatus` | src/services/data.ts:146-153 | For an unknown id, the result is the error "Participant not found" and the table is unchanged. Otherwise the first request with the id gets the new status, and that updated record is returned. Every other record, every other field and the length are unchanged. |
| `DataService.Toggled` | src/services/data.ts:162 | The toggled access status always differs from the old one. |
| `DataService.ToggleIn` | src/services/data.ts:159-166 | For an unknown id, the result is the error "User not found" and the table is unchanged. Otherwise the first user with the id flips between active and blocked and is returned. No other user or field changes, and the length is kept. |
| `DataService.RequestIn` | src/services/data.ts:168-189 | If the user id or the election id is unknown, the result is the error "User or Election not found" and nothing is appended. Otherwise exactly one pending request is appended and returned. It carries the fresh id and the request time, the user's name and email, and the election's title. |
| `DataService.ToggleTwiceRestores` | src/services/data.ts:159-164 | Toggling the same id twice gives back the original users table. |
| `DataService.LookupAfterCreate` | src/services/data.ts:132-140 | After an election is appended under a fresh id, looking that id up returns the new election. |
| `DataService.UpdateStatusKeepsIds` | src/services/data.ts:146-151 | A status update keeps the request ids distinct. |
| `DataService.ToggleKeepsIds` | src/services/data.ts:159-164 | A toggle keeps the user ids distinct. |
| `DataService.RequestKeepsIds` | src/services/data.ts:176-187 | Appending a request under a fresh id keeps the request ids distinct. |
| `DataService.Store.constructor` | src/services/data.ts:34-125 | The store starts with the given three tables, whose ids are distinct within each table. |
| `DataService.Store.GetElections` | src/services/data.ts:128-130 | Returns the elections table as it stands. |
| `DataService.Store.GetElection` | src/services/data.ts:132-134 | Returns nothing exactly when no election has the id. Otherwise returns the first election with that id. |
| `DataService.Store.CreateElection` | src/services/data.ts:136-140 | Appends exactly one election at the end: the caller's fields unchanged, plus the fresh id. Earlier records and the other tables are untouched, and distinct ids stay distinct. |
| `DataService.Store.GetParticipantRequests` | src/services/data.ts:142-144 | Returns the requests table as it stands. |
| `DataService.Store.UpdateParticipantStatus` | src/services/data.ts:146-153 | The new requests table and the outcome are those of `UpdateStatus`. The other tables are untouched, and distinct ids stay distinct. |
| `DataService.Store.GetUsers` | src/services/data.ts:155-157 | Returns the users table as it stands. |
| `DataService.Store.ToggleUserStatus` | src/services/data.ts:159-166 | The new users table and the outcome are those of `ToggleIn`. The other tables are untouched, and distinct ids stay distinct. |
| `DataService.Store.RequestToBeContestant` | src/services/data.ts:168-189 | The new requests table and the outcome are those of `RequestIn`. The other tables are untouched, and distinct ids stay distinct. |
| `ElectionsPage.DeriveStatus` | src/pages/Elections.tsx:89-96 | The status is `active` exactly when start ≤ now ≤ end. It is `completed` exactly when end < now. It is `upcoming` exactly when now < start and now ≤ end. |
| `ElectionsPage.UpcomingBeforeStart` | src/pages/Elections.tsx:91-96 | When start ≤ end, the status is `upcoming` exactly when now < start. |
| `ElectionsPage.StatusMonotonic` | src/pages/Elections.tsx:90-96 | When start ≤ end, a later clock never gives an earlier status in the order upcoming, active, completed. |
| `ElectionsPage.StatusFixedAtCreation` | src/pages/Elections.tsx:89-105 | An election created while running is stored as `active` and is listed among the voter's available elections once appended. At any time after its end date the rule would give `completed`, but the stored record still lists it as available. No store method rewrites an election: the others change only the requests and users tables, and `CreateElection` only appends. |
| `ElectionsPage.SearchElections` | src/pages/Elections.tsx:131-134 | Keeps exactly the elections whose lower-cased title or description contains the lower-cased term. |
| `ElectionsPage.SearchKeepsOrder` | src/pages/Elections.tsx:131-134 | The search keeps the stored order: searching a concatenation concatenates the searches. |
| `ElectionsPage.EmptySearchKeepsAll` | src/pages/Elections.tsx:131-134 | An empty search term keeps every election. |
| `ElectionsPage.SearchIgnoresTermCase` | src/pages/Elections.tsx:131-134 | Two terms with the same lower-case form give the same result. |
| `ElectionsPage.SearchUpperTerm` | src/pages/Elections.tsx:131-134 | Upper-casing the search term does not change the result. |
| `ElectionsPage.Page.constructor` | src/pages/Elections.tsx:42-51 | The page starts with an empty list, an empty search term, a closed dialog and an empty form with no dates. |
| `ElectionsPage.Page.FetchElections` | src/pages/Elections.tsx:59-64 | The page's list becomes the store's elections table. |
| `ElectionsPage.Page.ResetForm` | src/pages/Elections.tsx:124-129 | Empties the title, the description and both dates, and changes nothing else. |
| `ElectionsPage.Page.HandleCreateElection` | src/pages/Elections.tsx:78-122 | If either date is missing, the result is `MissingDates`, the page is unchanged and the store's table is unchanged. Otherwise one election is appended to the store and to the page's list. It carries the form's fields, the fresh id and the status derived from its dates and `now`. The dialog then closes, the form is reset and the search term is kept. |
| `ParticipantRequestsPage.AfterUpdate` | src/pages/ParticipantRequests.tsx:51-66 | If the update failed, the list is unchanged. If it succeeded, the list keeps its length and order: entries with the decided id are replaced by the returned record, and all other entries are unchanged. |
| `ParticipantRequestsPage.PageStaysInSync` | src/pages/ParticipantRequests.tsx:53-54 | If the page's list equals the store's table and ids are distinct, then after a decision the list still equals the store's table, whether the store accepted the decision or not. |
| `ParticipantRequestsPage.SearchRequests` | src/pages/ParticipantRequests.tsx:68-71 | Keeps exactly the requests whose lower-cased user name or election title contains the lower-cased term. |
| `ParticipantRequestsPage.SearchRequestsKeepsOrder` | src/pages/ParticipantRequests.tsx:68-71 | The request search keeps list order. |
| `ParticipantRequestsPage.EmptyRequestSearchKeepsAll` | src/pages/ParticipantRequests.tsx:68-71 | An empty search term keeps every request. |
| `ParticipantRequestsPage.ActionsFor` | src/pages/ParticipantRequests.tsx:127-149 | Approve and Deny are offered exactly for pending requests. Approved and rejected requests offer no action. |
| `ParticipantRequestsPage.DecisionOf` | src/pages/ParticipantRequests.tsx:129-144 | Approve sets `approved` and Deny sets `rejected`. |
| `ParticipantRequestsPage.Badge` | src/pages/ParticipantRequests.tsx:114-121 | The badge is `default` exactly for approved, `destructive` exactly for rejected, and `outline` exactly for pending. |
| `ParticipantRequestsPage.PageDecidesOnlyPending` | src/pages/ParticipantRequests.tsx:127-149 | A request offering an action is pending. The store gives it the action's status, and the decided request then offers no action. So through the page a request goes from pending to decided at most once. |
| `ParticipantRequestsPage.StoreOverwritesDecision` | src/services/data.ts:146-151 | With distinct ids, deciding any request succeeds and gives it the new status, whatever status it had: the store overwrites a decision already taken. |
| `DashboardPage.WithStatus` | src/pages/Dashboard.tsx:64 | Keeps exactly the elections with the given stored status. |
| `DashboardPage.StatusCountsPartition` | src/pages/Dashboard.tsx:50-79 | The numbers of upcoming, active and completed elections add up to the total. |
| `DashboardPage.WithStatusKeepsOrder` | src/pages/Dashboard.tsx:169-172 | Filtering by status keeps the stored order. |
| `DashboardPage.AdminCounters` | src/pages/Dashboard.tsx:50-79 | The total is the number of elections. The active and upcoming counts are the sizes of the status lists. Active plus upcoming is the total minus the completed ones. |
| `DashboardPage.Recent` | src/pages/Dashboard.tsx:108 | "Recent Elections" shows the first min(3, n) elections in stored order. |
| `DashboardPage.RecentIgnoresNewElections` | src/pages/Dashboard.tsx:108 | Once three elections exist, appending another does not change the "recent" list. |
| `DashboardPage.Available` | src/pages/Dashboard.tsx:169-172 | The voter's "Available" list holds exactly the active elections. |
| `DashboardPage.UpcomingList` | src/pages/Dashboard.tsx:223-226 | The voter's "Upcoming" list holds exactly the upcoming elections. |
| `DashboardPage.VoterListsSeparate` | src/pages/Dashboard.tsx:169-226 | No election is in both voter lists, and completed elections are in neither. |
| `DashboardLayout.NextTitle` | src/layouts/DashboardLayout.tsx:14-22 | "/", "/users", "/elections" and "/requests" give "Dashboard", "User Management", "Elections" and "Participant Requests". Any path starting with "/vote" gives "Vote". Any other path keeps the previous title. |
| `DashboardLayout.ExactPathsAreNotVotePaths` | src/layouts/DashboardLayout.tsx:16-21 | None of the four exact paths starts with "/vote". |
| `DashboardLayout.UnroutedPathsKeepTitle` | src/layouts/DashboardLayout.tsx:15-21 | "/profile" and "/users/1" leave the title as it was. |
| `DashboardLayout.NextTitleIdempotent` | src/layouts/DashboardLayout.tsx:14-22 | Running the effect again for the same path changes nothing. |
| `DashboardLayout.Layout.constructor` | src/layouts/DashboardLayout.tsx:12 | The title starts as "Dashboard". |
| `DashboardLayout.Layout.OnLocationChange` | src/layouts/DashboardLayout.tsx:14-22 | The new title is `NextTitle` of the path and the old title. |
| `UserProfilePage.Split` | src/pages/UserProfile.tsx:21 | `split(' ')` gives at least one piece, and no piece contains a space. |
| `UserProfilePage.SplitJoin` | src/pages/UserProfile.tsx:21 | Joining the pieces with spaces gives back the original name. |
| `UserProfilePage.FirstChars` | src/pages/UserProfile.tsx:22-23 | Gives at most one character per piece. |
| `UserProfilePage.FirstCharsOfNonEmptyPieces` | src/pages/UserProfile.tsx:22-23 | There is one character per non-empty piece, in order, and each is that piece's first character. Empty pieces give nothing. |
| `UserProfilePage.Initials` | src/pages/UserProfile.tsx:20-24 | The initials are never longer than the name. |
| `UserProfilePage.InitialsPerPiece` | src/pages/UserProfile.tsx:20-24 | There is one initial per non-empty space-separated piece of the name, in order. Each initial is the upper-cased first character of its piece. |
| `UserProfilePage.FirstCharsAreWordStarts` | src/pages/UserProfile.tsx:20-23 | The first characters of the pieces are exactly the non-space characters at the start of the name or after a space. |
| `UserProfilePage.InitialsAreWordStarts` | src/pages/UserProfile.tsx:20-24 | The initials are the upper-cased characters that start a word of the name. |
| `UserProfilePage.InitialsOfEmptyName` | src/pages/UserProfile.tsx:20-24 | An empty name gives empty initials. |
| `UserProfilePage.InitialsOfSingleWord` | src/pages/UserProfile.tsx:20-24 | A non-empty name without spaces gives exactly its upper-cased first character. |
| `UserProfilePage.ProfileForm.constructor` | src/pages/UserProfile.tsx:14-16 | The form starts from the user's name and email, not editing. |
| `UserProfilePage.ProfileForm.StartEditing` | src/pages/UserProfile.tsx:124 | "Edit Profile" enters editing mode. |
| `UserProfilePage.ProfileForm.EditName` | src/pages/UserProfile.tsx:78 | Typing sets the name field. |
| `UserProfilePage.ProfileForm.EditEmail` | src/pages/UserProfile.tsx:88 | Typing sets the email field. |
| `UserProfilePage.ProfileForm.Cancel` | src/pages/UserProfile.tsx:98-102 | Cancel resets the fields to the stored name and email and leaves editing mode. |
| `UserProfilePage.ProfileForm.Submit` | src/pages/UserProfile.tsx:26-34 | Submit leaves editing mode. The user record and the edited fields are unchanged. |

## Left out

- Rendering is not modelled: JSX, styling, toasts, dialogs' visuals, the loading flag and date formatting.
- The role and authentication redirects are not modelled (src/pages/Elections.tsx:54-56, src/pages/ParticipantRequests.tsx:28-30, src/layouts/DashboardLayout.tsx:24-26). They are routing glue.
- src/pages/Vote.tsx is not part of this model. Its voting is a timer against a hardcoded candidate list and records nothing. Its request path only calls `requestToBeContestant`, which is modelled.
- src/App.tsx (the route table) and src/components/AppSidebar.tsx (navigation) are not part of this model. The auth context is not part of it either: the profile form takes the signed-in user as a parameter.
- The literal seed records of the three tables (src/services/data.ts:34-125) are not reproduced. Their dates use the local calendar and the wall clock. The store starts from any tables it is given.
- `uuidv4` is not modelled: a fresh id is a parameter, with a precondition that the table does not hold it. `new Date()` is not modelled either: the time is a parameter.
- UserProfilePage.Initials: strings are modelled as sequences of Unicode code points, not of UTF-16 code units. A piece that starts with a character outside the Basic Multilingual Plane yields that whole character here, where the code's `piece[0]` yields a lone high surrogate.
- Full Unicode case mapping is not modelled. `toLowerCase` and `toUpperCase` act on ASCII letters only and leave other characters unchanged.
- Promise wrapping is not modelled. The getters and `createElection` never reject, so the page handlers' failure branches for fetching and for creating an election cannot be reached, and they are not modelled.
- The store/page aliasing is not modelled. `getElections` hands out the live array, and `createElection` pushes onto it, so the page's spread can list a new election twice. Page lists are modelled as independent copies.
- The controlled inputs of the Elections page (title, description, dates and search term setters) are not modelled as operations. They are plain assignments to the page's fields. The end-date calendar's disabling of dates before the start is not modelled either; see the start-before-end note above.
- The Elections page's and Dashboard's status badge colours are not modelled. They are rendering.
