# LifeLink blood-logistics core in Dafny

LifeLink links patients, donors, hospitals, clinics and blood banks. Its backend
keeps three collections: blood units, blood requests and users. A request for
blood is approved at once when the network holds enough Available units of its
group; otherwise it is broadcast to compatible donors. A blood bank can approve a
request by hand, dispatch an approved one, and add units. Adding units triggers a
first-in-first-out "back-in-stock" allocation over the Pending requests of that
group. The web pages derive their KPIs, tables and previews from the fetched
lists, and keep the session token, the role and the colour theme in browser
storage.

The model has these modules:

- `Common`: options, results, HTTP errors, API outcomes, and order-preserving `Filter` with its lemmas.
- `Models`: the documents and the `Database` class that holds the three collections.
  - `Reserve` flips Available units of a group to Reserved.
  - `ReservesFrom` specifies that reservation without fixing which units are flipped.
- `RequestsRouter`, `InventoryRouter` and `AuthRouter`: the backend handlers, as methods on a `Database`, or as functions where they only read.
- `DashboardViews`: the derived views shared by the institution pages.
- `BloodBankDashboard`, `HospitalDashboard`, `ClinicDashboard` and `PatientDashboard`: the dashboards. A page that updates its state step by step is a class whose handlers take each API outcome as a parameter.
- `LoginPage` and `ThemeContext`: the login page and the theme provider.

## Model

| member | source | states |
|---|---|---|
| Models.CountAvailable | backend/app/routers/requests.py:27-30 | the number of Available units of a group, never more than the table's size |
| Models.CountAvailableUpdate | backend/app/routers/inventory.py:85-87 | saving one changed unit moves the Available count of a group by exactly that unit's before/after contribution |
| Models.ReservesFromFlipsExactly | backend/app/routers/requests.py:42-44 | a reservation of `n` units changes exactly `n` positions of the unit table |
| Models.ReservesFromTrans | backend/app/routers/inventory.py:80-87 | two successive reservations from one group are one reservation of their sum |
| Models.Database.Reserve | backend/app/routers/requests.py:115-126 | reserves `n` Available units of the group, touching no other unit, when at least `n` are Available; ids stay valid |
| Models.IndexOf | backend/app/routers/inventory.py:98-100 | `Document.get(id)`: the index of a document whose key is that id, or none exactly when no document has it; used with `UnitId` here and with `RequestId` at backend/app/routers/requests.py:107-109 |
| Models.FindUser | backend/app/routers/auth.py:25 | `User.find_one(smart_id == …)`: a stored user with that smart id, or none exactly when no user has it |
| Models.SaveRequestAt | backend/app/routers/requests.py:130 | `req.save()` with ids unique is exactly the in-place update of the one stored request with that id, which is how the request handlers write it |
| Models.SortByCreation | backend/app/routers/requests.py:85 | the result is sorted by creation time (oldest or newest first) and is a permutation of the input |
| Models.LifecycleTerminal | backend/app/routers/requests.py:111-163 | Dispatched and Fulfilled have no successor status; from any status but Pending, two handler steps amount to one |
| Models.RemoveAtKeepsUnitIds | backend/app/routers/inventory.py:101 | deleting the unit at one index keeps ids distinct and below the counter and removes exactly the units with that id |
| RequestsRouter.CompatibleGroups | backend/app/routers/requests.py:48-50 | the requested group and O-, one entry when the group is O- itself |
| RequestsRouter.DonorIds | backend/app/routers/requests.py:52-57 | a smart id is broadcast to exactly when a donor with that id has the requested group or O- |
| RequestsRouter.DonorIdsPerDonor | backend/app/routers/requests.py:52-57 | one smart id per compatible donor, in table order, so `broadcast_count` (requests.py:76) is the number of compatible donors |
| RequestsRouter.DonorIdsDistinct | backend/app/routers/requests.py:52-57 | with smart ids unique, no donor appears twice in the broadcast list |
| RequestsRouter.CreateRequest | backend/app/routers/requests.py:17-77 | 404 for an unknown caller; otherwise one new request is appended. With enough stock it is Approved "LifeLink Network", `units` units are reserved and the broadcast is empty; else it is Pending and broadcast to the compatible donors. The reply carries status, id and broadcast count |
| RequestsRouter.FulfillRequest | backend/app/routers/requests.py:104-131 | 404 for an unknown id; 400 "Request already processed" unless Pending; 400 "Insufficient stock to approve" when stock is short; else it reserves the units and approves with "Blood Bank (Manual)" |
| RequestsRouter.DispatchRequest | backend/app/routers/requests.py:133-147 | 404 for an unknown id, 400 unless Approved, else the status alone becomes Dispatched and no unit changes |
| RequestsRouter.DonateRequest | backend/app/routers/requests.py:149-164 | 404 for an unknown id, 400 "Request no longer pending" unless Pending, else Fulfilled by "Donor: " and the caller's name |
| RequestsRouter.MyRequests | backend/app/routers/requests.py:79-86 | 404 for an unknown caller; else exactly the caller's requests, with multiplicity, newest first |
| RequestsRouter.AllRequests | backend/app/routers/requests.py:88-92 | a permutation of the whole table, newest first |
| RequestsRouter.Broadcasts | backend/app/routers/requests.py:94-102 | exactly the Pending requests whose broadcast list holds the caller, newest first |
| RequestsRouter.ReservationTouchesOnlyTheGroup | backend/app/routers/requests.py:27-30 | a reservation leaves every unit of another blood group as it was |
| InventoryRouter.MockIsbtShape | backend/app/routers/inventory.py:43 | the mock ISBT id is "W", four digits, a space, five digits, a space and two digits, with no leading zeros |
| InventoryRouter.DecimalDigitsLength | backend/app/routers/inventory.py:43 | a number between 10^(k-1) and 10^k prints with exactly k digits |
| InventoryRouter.MintUnits | backend/app/routers/inventory.py:36-54 | `max(quantity, 0)` fresh Available units with consecutive new ids, the requested group and component, the caller's institution, expiry 42 days after collection (default now), and an ISBT-shaped id |
| InventoryRouter.Remaining | backend/app/routers/inventory.py:68-91 | walking the FIFO list of needs never adds stock |
| InventoryRouter.RemainingStep | backend/app/routers/inventory.py:78 | one step of the walk serves the next request exactly when the remaining stock covers its need |
| InventoryRouter.AllocationConserves | backend/app/routers/inventory.py:70-91 | the stock left plus the units handed to approved requests equals the stock at the start |
| InventoryRouter.RemainingShrinks | backend/app/routers/inventory.py:70-91 | the stock left after the whole walk is at most the stock left after any prefix |
| InventoryRouter.SkippedStaysUnsatisfiable | backend/app/routers/inventory.py:78 | a request the walk skips needs more than the stock left at the end |
| InventoryRouter.SkipLeavesStock | backend/app/routers/inventory.py:70-78 | after any position past a skipped request, the stock left equals the stock left by the walk without that request |
| InventoryRouter.NoHeadOfLineBlocking | backend/app/routers/inventory.py:70-78 | a request that does not fit consumes nothing: every later request is approved exactly when it would be with the skipped one removed from the list |
| InventoryRouter.FifoPending | backend/app/routers/inventory.py:63-66 | exactly the Pending requests of the group, with multiplicity, oldest first |
| InventoryRouter.PendingMember | backend/app/routers/inventory.py:63-66 | every FIFO entry is a Pending request of the group from the table |
| InventoryRouter.PendingIndexOf | backend/app/routers/inventory.py:63-66 | every Pending request of the group appears in the FIFO list |
| InventoryRouter.ApprovedIsPendingOfGroup | backend/app/routers/inventory.py:89-91 | only Pending requests of the group are auto-approved |
| InventoryRouter.UnapprovedPendingUnsatisfiable | backend/app/routers/inventory.py:78 | a Pending request of the group that was not approved needs more than the stock left |
| InventoryRouter.AutoAllocationGuarantees | backend/app/routers/inventory.py:59-92 | after the trigger: requests of other groups or statuses are unchanged, each change is Pending to Approved, and every request of the group still Pending needs more units than remain Available |
| InventoryRouter.ApprovedSoFarStep | backend/app/routers/inventory.py:70-91 | one turn extends the table of approvals by the current request exactly when it fits |
| InventoryRouter.ServeInTurn | backend/app/routers/inventory.py:73-91 | one turn recounts the Available stock; when it covers the need it reserves that many units and approves the request as "LifeLink Auto-Allocation", otherwise it changes nothing |
| InventoryRouter.TurnKeepsInvariant | backend/app/routers/inventory.py:70-91 | a turn carries the loop invariant from the k-th FIFO request to the next |
| InventoryRouter.AutoAllocate | backend/app/routers/inventory.py:63-92 | the loop's outcome is the FIFO walk: reservations of exactly the units the walk hands out, and approval of exactly the requests it serves |
| InventoryRouter.AddUnits | backend/app/routers/inventory.py:25-94 | 404 for an unknown caller; else the minted units are appended, the trigger runs only when some unit was minted, the request lifecycle only moves forward, and the message is "Successfully added N units" |
| InventoryRouter.DeleteUnit | backend/app/routers/inventory.py:96-102 | 404 "Unit not found" for an unknown id; else that unit alone is removed, whatever its status |
| AuthRouter.NewUser | backend/app/routers/auth.py:29-37 | the stored user keeps the smart id and only the hash of the password |
| AuthRouter.Register | backend/app/routers/auth.py:22-40 | 400 "Smart Identifier already registered" for a taken id; else the user is appended with any role; smart ids stay unique |
| AuthRouter.Login | backend/app/routers/auth.py:42-64 | fails exactly for an unknown id or a wrong password, both with 401 "Invalid credentials"; else a bearer token for that id and stored role, and the same role |
| AuthRouter.Me | backend/app/routers/auth.py:66-78 | an error, 404 "User not found", exactly when no user has the token's subject; otherwise `Ok` with that user's name, smart id, role, blood group and creation time |
| AuthRouter.RegisterThenLogin | backend/app/routers/auth.py:22-64 | after registering a new id, logging in with the same password yields that id's token and role |
| AuthRouter.LoginThenMe | backend/app/routers/auth.py:58-78 | the token issued at login leads `me` to the same user's profile |
| AuthRouter.RegisterLeavesOtherIds | backend/app/routers/auth.py:39 | registering one id changes the lookup of no other id |
| AuthRouter.FindUserAppend | backend/app/routers/auth.py:25-39 | after an append a lookup finds the earlier user of that id if any, else the new one |
| Common.Filter | frontend/src/pages/BloodBankDashboard.jsx:125 | an element is kept exactly when it is in the list and passes the predicate |
| Common.FilterMultiset | frontend/src/pages/HospitalDashboard.jsx:108 | filtering keeps every copy of a passing element and no copy of another |
| Common.FilterKeepsOrder | frontend/src/pages/BloodBankDashboard.jsx:125 | filtering keeps the original order |
| Common.FilterCountsPartition | frontend/src/pages/HospitalDashboard.jsx:107-109 | three predicates of which exactly one holds split the list's length |
| Common.DetailOr | frontend/src/pages/BloodBankDashboard.jsx:107 | `detail \|\| fallback`: the server's detail when it is a non-empty string, else the fallback |
| Common.Take | frontend/src/pages/ClinicDashboard.jsx:164 | `slice(0, n)`: a prefix of length min(n, length) |
| Common.DecimalDigits | backend/app/routers/inventory.py:94 | a numeral of digits only, with no leading zero |
| Common.NumeralRoundTrip | backend/app/routers/inventory.py:94 | the printed numeral, read back digit by digit, is the number itself |
| Common.IntToStringDenotes | backend/app/routers/inventory.py:94 | the printed quantity in "Successfully added N units" starts with a minus sign exactly for a negative quantity, and the digits after it denote its magnitude; the same formatting is at frontend/src/pages/BloodBankDashboard.jsx:73 |
| DashboardViews.AvailableUnits | frontend/src/pages/HospitalDashboard.jsx:316-323 | exactly the Available units; the same code is at frontend/src/pages/ClinicDashboard.jsx:271-278 |
| DashboardViews.AvailableKeepsOrder | frontend/src/pages/HospitalDashboard.jsx:323 | the Available table keeps the fetched order |
| DashboardViews.AvailableExcludesReserved | frontend/src/pages/BloodBankDashboard.jsx:124-125 | the Available view and the Reserved units together make up the whole inventory |
| DashboardViews.AvailableOfGroup | frontend/src/pages/BloodBankDashboard.jsx:125 | per group, the page's Available count equals the backend's Available count |
| DashboardViews.PendingCount | frontend/src/pages/HospitalDashboard.jsx:108 | at most the total, and zero exactly when no request is Pending |
| DashboardViews.FulfilledCount | frontend/src/pages/HospitalDashboard.jsx:109 | at most the total, and zero exactly when no request is Fulfilled or Approved |
| DashboardViews.KpiPartition | frontend/src/pages/HospitalDashboard.jsx:107-109 | Pending, Fulfilled-or-Approved and Dispatched counts sum to the total, so the two KPIs together never exceed it and a Dispatched request is in neither; the same code is at frontend/src/pages/ClinicDashboard.jsx:95-97 |
| DashboardViews.StatusBadge | frontend/src/pages/HospitalDashboard.jsx:257-259 | green exactly for Approved, blue exactly for Fulfilled, yellow for every other status; the same code is at frontend/src/pages/ClinicDashboard.jsx:212-214 |
| DashboardViews.InitialInstitutionPage | frontend/src/pages/HospitalDashboard.jsx:31-46 | the first render: nothing fetched, spinner on, overview tab, modal closed, the page's default form |
| DashboardViews.Prefill | frontend/src/pages/HospitalDashboard.jsx:65-67 | the hospital field becomes the full name when that is non-empty; blood group, units and urgency stay |
| DashboardViews.FetchInstitution | frontend/src/pages/HospitalDashboard.jsx:53-76 | on success the profile, inventory and own requests are stored and the form prefilled; on failure only the spinner stops; the same code is at frontend/src/pages/ClinicDashboard.jsx:39-62 |
| DashboardViews.FetchToast | frontend/src/pages/HospitalDashboard.jsx:70-71 | "Failed to load dashboard data" exactly when a call failed, and then the page kept its data; the same code is at frontend/src/pages/ClinicDashboard.jsx:56-57 |
| DashboardViews.StatusTextInjective | backend/app/routers/requests.py:74 | distinct statuses have distinct names, so the success toast names the status |
| DashboardViews.SubmitInstitutionRequest | frontend/src/pages/HospitalDashboard.jsx:85-105 | a failed create changes only the submit spinner; a successful create closes the modal without resetting the form; a successful refetch stores the requests and opens the requests tab; a failed refetch shows the failure toast; the same code is at frontend/src/pages/ClinicDashboard.jsx:71-93 |
| DashboardViews.SubmitToastTellsOutcome | frontend/src/pages/HospitalDashboard.jsx:92-101 | the toast differs from "Failed to create request." exactly when both calls succeeded |
| BloodBankDashboard.TotalUnits | frontend/src/pages/BloodBankDashboard.jsx:127 | at most the inventory's size, and zero exactly when no unit is Available |
| BloodBankDashboard.DaysUntil | frontend/src/pages/BloodBankDashboard.jsx:130-133 | `Math.ceil` of the time to expiry in days: the least d with expiry - now <= d days |
| BloodBankDashboard.ExpiringSoonWindow | frontend/src/pages/BloodBankDashboard.jsx:129-135 | a unit is expiring soon exactly when it expired less than a day ago or expires within the next seven days |
| BloodBankDashboard.ExpiringSoonCount | frontend/src/pages/BloodBankDashboard.jsx:129-135 | at most the Available total, and zero exactly when no Available unit is in the window |
| BloodBankDashboard.Lower | frontend/src/pages/BloodBankDashboard.jsx:139 | the same length, each ASCII capital replaced by its lower-case letter |
| BloodBankDashboard.LowerIdempotent | frontend/src/pages/BloodBankDashboard.jsx:139 | lowering twice equals lowering once |
| BloodBankDashboard.FilteredInventory | frontend/src/pages/BloodBankDashboard.jsx:138-142 | exactly the Available units whose lower-cased ISBT id contains the lower-cased term and whose group matches, or any group under "All Groups" |
| BloodBankDashboard.FilteredKeepsOrder | frontend/src/pages/BloodBankDashboard.jsx:138-142 | the filtered table keeps the order of the fetched inventory |
| BloodBankDashboard.UnfilteredShowsAllAvailable | frontend/src/pages/BloodBankDashboard.jsx:28-29 | the initial empty search under "All Groups" shows every Available unit |
| BloodBankDashboard.SearchIgnoresCase | frontend/src/pages/BloodBankDashboard.jsx:139 | two terms with the same lower-case form show the same units |
| BloodBankDashboard.RemoveById | frontend/src/pages/BloodBankDashboard.jsx:91 | exactly the units with another id remain |
| BloodBankDashboard.RemoveKeepsOrder | frontend/src/pages/BloodBankDashboard.jsx:91 | the remaining units keep their order |
| BloodBankDashboard.RemoveByIdMatchesDelete | frontend/src/pages/BloodBankDashboard.jsx:84-96 | with distinct ids, the page's optimistic removal equals the table the backend keeps after deleting that unit |
| BloodBankDashboard.RequestsTab | frontend/src/pages/BloodBankDashboard.jsx:334 | exactly the requests that are not Dispatched |
| BloodBankDashboard.ActionFor | frontend/src/pages/BloodBankDashboard.jsx:345-356 | an Approve button on a Pending row, the "Ready for Dispatch" label on an Approved row, nothing on others |
| BloodBankDashboard.ReadyToDispatch | frontend/src/pages/BloodBankDashboard.jsx:375-379 | exactly the Approved requests |
| BloodBankDashboard.DispatchHistory | frontend/src/pages/BloodBankDashboard.jsx:399 | exactly the Dispatched requests |
| BloodBankDashboard.TabsPartitionRequests | frontend/src/pages/BloodBankDashboard.jsx:234 | the two distribution lists share no request and fit in the list; the requests tab plus the history is the whole list |
| BloodBankDashboard.BloodBankPage.constructor | frontend/src/pages/BloodBankDashboard.jsx:25-37 | the first render's state: empty inventory and requests, the spinner on, the add modal closed, the form at "A+", "Whole Blood", quantity 1 |
| BloodBankDashboard.BloodBankPage.FetchInventory | frontend/src/pages/BloodBankDashboard.jsx:40-50 | the list is replaced on success; on failure it is kept and the toast is "Failed to load inventory"; the spinner stops either way |
| BloodBankDashboard.BloodBankPage.FetchRequests | frontend/src/pages/BloodBankDashboard.jsx:53-61 | the list is replaced on success; on failure it is kept and the toast is "Failed to load requests" |
| BloodBankDashboard.BloodBankPage.HandleDeleteUnit | frontend/src/pages/BloodBankDashboard.jsx:84-96 | after a confirmed, successful delete that unit leaves the list and the toast is "Unit removed from inventory"; a confirmed failure keeps the list and shows "Failed to remove unit"; a cancelled confirm changes nothing and shows no toast |
| BloodBankDashboard.BloodBankPage.HandleApproveRequest | frontend/src/pages/BloodBankDashboard.jsx:98-109 | on success "Request Approved!" and both lists refetched; on failure the server detail or "Failed to approve", and nothing changes |
| BloodBankDashboard.BloodBankPage.HandleDispatch | frontend/src/pages/BloodBankDashboard.jsx:111-121 | on success "Units Dispatched!" and the requests refetched; on failure "Failed to dispatch", and nothing changes |
| BloodBankDashboard.BloodBankPage.HandleAddUnit | frontend/src/pages/BloodBankDashboard.jsx:68-82 | on success the toast names quantity and group, the modal closes, the form resets and both lists are refetched; on failure nothing changes |
| HospitalDashboard.DonorsTab | frontend/src/pages/HospitalDashboard.jsx:358-363 | exactly the requests with a non-empty `fulfilled_by` |
| HospitalDashboard.DonorsKeepOrder | frontend/src/pages/HospitalDashboard.jsx:362 | the donor cards keep the order of the fetched requests |
| HospitalDashboard.BackendApprovalsListed | frontend/src/pages/HospitalDashboard.jsx:358 | every request the backend approves or fulfils carries a non-empty name, so it is listed among the donors: "LifeLink Network" (backend/app/routers/requests.py:39), "Blood Bank (Manual)" (requests.py:129), "LifeLink Auto-Allocation" (backend/app/routers/inventory.py:90) and "Donor: " + name (requests.py:162) |
| HospitalDashboard.HospitalPrefill | frontend/src/pages/HospitalDashboard.jsx:40-45 | after fetching, the hospital field is the full name when it is non-empty, else "City General Hospital"; group and urgency keep their defaults |
| ClinicDashboard.StockPreview | frontend/src/pages/ClinicDashboard.jsx:164 | a prefix of the Available units, of length min(10, Available count) |
| ClinicDashboard.PreviewIsWholeTableWhenSmall | frontend/src/pages/ClinicDashboard.jsx:164 | the preview is the whole Available table exactly when there are at most ten Available units |
| ClinicDashboard.PreviewKeepsOrder | frontend/src/pages/ClinicDashboard.jsx:164 | the preview keeps the fetched order |
| ClinicDashboard.ClinicPrefill | frontend/src/pages/ClinicDashboard.jsx:29-34 | after fetching, the hospital field is the clinic's full name, empty when that is empty; urgency stays "Standard" |
| PatientDashboard.WithoutRequest | frontend/src/pages/PatientDashboard.jsx:135 | exactly the broadcasts with another id remain |
| PatientDashboard.WithoutRequestKeepsOrder | frontend/src/pages/PatientDashboard.jsx:135 | the remaining broadcasts keep their order |
| PatientDashboard.WithoutRequestShrinks | frontend/src/pages/PatientDashboard.jsx:135 | the list is unchanged exactly when no broadcast has that id, and strictly shorter when one has |
| PatientDashboard.RemovalMatchesRefetch | frontend/src/pages/PatientDashboard.jsx:126-141 | after the backend accepts the offer, refetching the broadcasts gives the same requests as the page's local removal, up to order |
| PatientDashboard.BroadcastPreview | frontend/src/pages/PatientDashboard.jsx:209 | a prefix of the broadcasts, of length min(3, count) |
| PatientDashboard.ViewAllWhenPreviewIsPartial | frontend/src/pages/PatientDashboard.jsx:227 | "View All" appears exactly when the preview leaves some broadcast out |
| PatientDashboard.BroadcastReach | frontend/src/pages/PatientDashboard.jsx:412-414 | shown exactly for Pending requests: the length of `broadcasted_to`, or 0 when it is missing |
| PatientDashboard.PatientBadge | frontend/src/pages/PatientDashboard.jsx:400-403 | green exactly for Approved, never blue |
| PatientDashboard.BadgesAgreeOnApproved | frontend/src/pages/PatientDashboard.jsx:400-403 | this page and the institution pages agree on green and disagree on Fulfilled |
| PatientDashboard.PatientPage.constructor | frontend/src/pages/PatientDashboard.jsx:46-100 | the first render's state: no profile, no requests or broadcasts, the spinner on, the "dashboard" tab, the modal closed, the blank request form, no submit or donate in flight |
| PatientDashboard.PatientPage.FetchData | frontend/src/pages/PatientDashboard.jsx:103-124 | the profile, then the own requests, then, for a donor only, the broadcasts; the first failure ends the sequence and is the only case with a toast, "Failed to load dashboard data"; the spinner stops |
| PatientDashboard.PatientPage.HandleDonate | frontend/src/pages/PatientDashboard.jsx:126-141 | `donateLoading` holds the id during the call and is null afterwards; success removes that id from the broadcasts; failure keeps them |
| PatientDashboard.PatientPage.HandleRequestSubmit | frontend/src/pages/PatientDashboard.jsx:143-165 | a successful create closes the modal and resets the form to A+, 1, "", Standard; a successful refetch stores the requests and opens the requests tab; the spinner is on during the calls and off afterwards |
| LoginPage.RouteFor | frontend/src/pages/Login.jsx:40-56 | patient and donor go to /dashboard/patient; hospital, clinic and bloodbank go to their own dashboards; any other role goes to /landing |
| LoginPage.RouteIsDeclared | frontend/src/App.jsx:20-35 | every destination is a route the router declares, and a dashboard exactly for a known role |
| LoginPage.LoginRoutesByStoredRole | frontend/src/pages/Login.jsx:32-56 | a successful backend login routes by the role stored at registration |
| LoginPage.LoginForm.HandleLogin | frontend/src/pages/Login.jsx:21-64 | on success the token and role are stored and then the page navigates by role, and the storage recorded at that last navigation holds this login's token and role; on failure nothing is stored, there is no navigation, and the toast is the server detail or the fallback |
| ThemeContext.InitialTheme | frontend/src/context/ThemeContext.jsx:6-24 | a non-empty stored theme wins, else "dark" exactly when the system prefers dark, else "light"; never empty |
| ThemeContext.Toggle | frontend/src/context/ThemeContext.jsx:42-44 | always "light" or "dark", and "dark" exactly when the previous theme was "light" |
| ThemeContext.ToggleTwice | frontend/src/context/ThemeContext.jsx:43 | toggling twice is the identity exactly on "light" and "dark"; any other stored value ends up "dark" |
| ThemeContext.ThemeRoot.constructor | frontend/src/context/ThemeContext.jsx:6-40 | mounting starts from `InitialTheme` of the stored value and the system preference, then the effect runs once: the "dark" class matches the theme, other classes are kept, and the theme is stored |
| ThemeContext.ThemeRoot.ApplyTheme | frontend/src/context/ThemeContext.jsx:26-40 | the root has class "dark" exactly when the theme is "dark", no other class changes, and the theme is stored |
| ThemeContext.ThemeRoot.ToggleTheme | frontend/src/context/ThemeContext.jsx:42-44 | the theme toggles and the effect re-establishes the class and the stored value |
| ThemeContext.ReloadKeepsTheme | frontend/src/context/ThemeContext.jsx:10-14 | a non-empty stored theme is what the next visit starts with, whatever the system prefers |

## Left out

- Concurrency: each handler is one atomic step. The races between a find and the following saves in `requests.py` and `inventory.py` are not modelled, and neither is the ordering of `Promise.all`.
- The duplicated first `useEffect` of the patient page (`PatientDashboard.jsx:53-70`): only the later, sequential fetch is modelled.
- RequestsRouter.CreateRequest: requires `units >= 1`. With `units <= 0` Mongo's `limit(0)` means "no limit", and that case is not modelled. FulfillRequest and the auto-allocation rely on stored requests needing at least one unit.
- RequestsRouter.DonateRequest: requires that the caller exists. The source dereferences a user it may not have found.
- Models.Database.Reserve: says how many units of which group are flipped. It does not say which ones: the database's natural order is not modelled.
- ISBT-128 uniqueness: the random digits are free choices of the right width. The unique index of the collection is not modelled.
- Dates are integer milliseconds, and `now` is a parameter. Clocks, time zones and floating-point day arithmetic are left out.
- Password hashing, password checking and JWT signing are function parameters. The token is its payload, and expiry is not modelled.
- InventoryRouter.FifoPending: requests with equal `created_at` come out in the one order `SortByCreation` fixes, while `.sort(+BloodRequest.created_at)` at backend/app/routers/inventory.py:66 leaves the order of ties to the database. `AutoAllocated`, `AutoAllocate` and `AddUnits` therefore fix which of two simultaneous requests is served first, where the source may serve either.
- Request-body defaults are not modelled: every field of `RequestCreate` and `UnitForm`/`BloodUnitCreate` must be supplied. The pydantic defaults are `hospital = None` and `urgency = "Standard"` (backend/app/routers/requests.py:14-15), and `component_type = "Whole Blood"` and `quantity = 1` (backend/app/routers/inventory.py:14-15).
- Server-side logging is left out: the `print` calls at backend/app/routers/auth.py:44,48,51 (the last one writes the stored password hash to stdout) and at backend/app/routers/inventory.py:92.
- Path ids are `nat`s, so a `req_id` or `id` path value that is not a well-formed ObjectId is outside the model; the 404 branches cover only well-formed ids that match no document.
- `toLowerCase` is modelled on ASCII letters only.
- `GET /inventory` returns the whole table. It is the identity on the unit list, so it has no member of its own.
- Rendering, i18n, maps, QR codes, the sidebar, logout and SOS buttons, and the translation of HTTP failures into `ApiResult` values are left out. Toasts are modelled as the text each handler raises; the loading toast an action replaces, and the second toast a refetch inside an action can raise, are not returned by that action.
- The donors tab of frontend/src/pages/HospitalDashboard.jsx renders `<User/>` at line 366, but the icon import at lines 4-27 brings in `Users`, not `User`, so the tab would fail with a ReferenceError once it has a row to show; the model covers only which donors the tab lists (`HospitalDashboard.DonorsTab`), not the rendering.
- The theme provider's `try/catch` and its checks for an absent `window` or `localStorage` are left out. Storage is always present here.
- The registration, landing, prescription-upload and tracking pages, the AI vision router and the geo router are not part of this model.
