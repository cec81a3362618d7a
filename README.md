# Asset management dashboard: client data protocol

A model of the client side of an asset-management dashboard. Customers own buildings, and buildings
own assets. The client reads and writes the three tables of a hosted database one request at a
time. It keeps what it has read in a query cache keyed by arrays of strings, and it marks cache
entries stale after each write. The screens validate form input, send the write, refresh the
cache entries the write affects, and render lists, badges and dashboard counts from the rows.

The model follows the program's structure:

- `Records`, `Tables`, `Integrity` and `StoreClient` model the three tables.
  - `Tables` holds one pure step function per request: insert, filtered update, filtered delete.
  - `StoreClient.Store` is the database as a class with three `seq` fields. Each request is a
    method whose new state is the matching step function of the old state.
  - `Integrity` proves that every insert and update, and every delete of a row that has no
    children, keeps the tables free of orphans and of duplicate keys. A plain delete of a customer
    that still owns buildings, or of a building that still holds assets, leaves orphans
    (`DeleteCustomerOrphansIff`, `DeleteBuildingOrphansIff`).
    For the two cascading deletes, it proves where each stops on a failure, what a complete run
    removes and spares, and that a re-run is safe.
- `CustomerQueries`, `BuildingQueries`, `AssetQueries`, `DashboardQueries` and `Api` are the read
  functions of the query modules and of the service object. They cover ordering, the page window,
  single-row lookups, status filters and the dashboard counts.
- `Cache` is the query cache. Its partial key matching follows the cache library: a filter matches
  every key it is a prefix of. `QueryCache` is a class whose methods mark entries stale.
- `Invalidation` lists the key each view reads and the key filters each write invalidates. It proves
  exactly which views each write refreshes.
- `ErrorMessages`, `Forms` and `SquareFootage` model `getErrorMessage` and the form schemas:
  `trim`, `min(1)`, `enum`, `positive`, `optional`, and the number-input conversion.
- One module per screen: `CustomerCreateForm`, `EditCustomerModal`, `CustomersListView`,
  `BuildingCreateForm`, `EditBuildingModal`, `BuildingsListView`, `BuildingsOverviewView`,
  `AssetCreateForm`, `AssetEditForm`, `AssetDetailsView`, `AssetListsView`, `AssetDisplay` and
  `DashboardPage`.
  - Each submit is a method over the shared `Store` and `QueryCache`. An invalid form changes
    nothing. A valid form sends one request; on success it invalidates the mutation's key list,
    and on failure it shows the screen's error text.
  - Screens with dialog state are classes: `CustomersList`, `BuildingsList`, `AssetDetails`.
- `DashboardRealtime` models the change subscription. `UiStore` models the sidebar flag.

Several things are parameters rather than modelled: the outcome of each request (`o`, or `inject`
for the steps of a cascade), and the row id and creation time the database assigns (`id`, `now`).

Assumptions about the database:

- A failed request changes nothing.
- A filtered update or delete that matches no row succeeds.
- An insert is refused when the primary key is taken or the parent row is missing.
- The model lets every delete succeed whatever rows still refer to the deleted one. Each step's
  outcome is a parameter, so a refusal by a delete-side foreign key is covered as a failed step too.
  Only `Integrity.DeleteCustomerOrphansIff` and `Integrity.DeleteBuildingOrphansIff` describe a
  schema without such a key, where a parent delete that succeeds leaves orphans. The cascades
  delete leaf to root, so each of their steps removes only rows with no remaining children
  (`Integrity.AfterAssetsContents`, `Integrity.NoBuildingsLeft`), which such a key would not refuse.
- A read without `order` (`fetchAllAssets`) is modelled as returning the rows in the model's stored
  order. The database promises no order there, so `AssetQueries.FetchAllAssetsLists`,
  `AssetListsView.OverviewRows` and `Api.ListReadsAgree` fix one order that the page may not show;
  the set of rows and how often each appears do not depend on it.
- A range read with a negative offset or a negative length is refused.
- Because the customer page asks for the exact count, a range that starts beyond the last row is
  refused as "Requested range not satisfiable". A range that starts exactly at the row count is an
  empty page.
- Every unpaged read returns all rows: the server's row cap (`max-rows`, 1000 rows by default) is
  not modelled. The dashboard's active and maintenance counts are lengths of the `data` array
  (src/features/dashboard/queries.ts:20-23), which the cap truncates, while its totals are exact
  counts, which it does not. So `Api.GetStatsAgrees`, `DashboardQueries.DistributionAddsUp`,
  `DashboardPage.CardsMatchTheirLists` and `DashboardPage.DistributionSlices` describe the
  dashboard only while every table is within the cap; the unpaged list reads (`FetchAllBuildings`,
  `FetchAssets`, `FetchAllAssets`, `GetCustomers`, `GetBuildings`, `GetAssets`) return every row
  only under the same condition.
- No two rows of a table share a `created_at`. `Seqs.SortDesc` fixes one order for equal times,
  but the database promises none, so `CustomerQueries.PagesTile` ("no gap, no overlap") and the
  other newest-first orders hold as stated only for distinct creation times.

A few details of the code are easy to misread; the model follows the code as written:

- The customer list reads with `select("*")`, so the `buildings(count)` aggregate is never part of
  the row. `BuildingCount` is therefore always 0, and every card offers delete (`PlainCard`,
  `DeleteGate`). `CardWithCount` models what an aggregate read would give.
- `EditBuildingModal` imports an `updateBuilding` that the buildings query module does not define.
  It is modelled as the filtered update by id that the other update functions use.
- The overview's status filter shares the `["assets", …]` key space with the per-building lists.
  A building whose id spells a status would share a cache entry with that overview
  (`Invalidation.SharedEntries`).

## Model

| member | source | states |
|---|---|---|
| Records.ParseStatus | src/features/assets/types.ts:6 | a parsed status is named by exactly the string it was parsed from |
| Records.StatusNamesRoundTrip | src/features/assets/types.ts:6 | status names and parsing are inverse: each status is stored as exactly one string |
| Tables.DeleteCustomerRows | src/features/customers/queries.ts:56-63 | removes exactly the customers with that id; the buildings and assets are untouched |
| Tables.DeleteBuildingsOf | src/features/customers/queries.ts:87-93 | removes exactly the buildings naming the customer; nothing else changes |
| Tables.DeleteBuildingRows | src/features/buildings/queries.ts:47-53 | removes exactly the building with that id; nothing else changes |
| Tables.DeleteAssetsIn | src/features/customers/queries.ts:77-85 | removes exactly the assets whose building id is in the list; nothing else changes |
| Tables.DeleteAssetRows | src/features/assets/queries.ts:79-86 | removes exactly the asset with that id; nothing else changes |
| Tables.InsertCustomer | src/features/customers/queries.ts:49-52 | succeeds iff the request succeeds and the id is new; then it appends the row |
| Tables.InsertBuilding | src/features/buildings/queries.ts:15-24 | succeeds iff the request succeeds, the id is new and the customer exists; then it appends the row |
| Tables.BuildingRow | src/features/buildings/queries.ts:15-24 | the inserted row carries the input's owner, the assigned id and time, and no description |
| Tables.InsertAsset | src/features/assets/queries.ts:17-25 | succeeds iff the request succeeds, the id is new and the building exists; then it appends the row |
| Tables.AssetRow | src/features/assets/queries.ts:17-25 | the inserted row carries the input's building and status name, with the assigned id and time |
| Tables.RenameCustomer | src/features/customers/queries.ts:26-36 | renames every row with that id in place; the order, the other rows and the other tables are kept |
| Tables.SetAssetStatus | src/features/assets/queries.ts:38-48 | stores the given string as the status of the asset with that id; everything else is kept |
| Tables.PatchedAsset | src/features/assets/queries.ts:50-64 | the fields present in the patch replace the row's; absent fields, id, building and time stay |
| Tables.PatchAsset | src/features/assets/queries.ts:50-64 | patches every asset row with that id in place; everything else is kept |
| Tables.PatchedBuilding | src/features/buildings/EditBuildingModal.tsx:66-71 | the fields present in the patch replace the row's; absent fields, id, owner and time stay |
| Tables.PatchBuilding | src/features/buildings/EditBuildingModal.tsx:66-71 | patches every building row with that id in place; everything else is kept |
| Tables.BuildingIdsOf | src/features/customers/queries.ts:67-75 | the listed ids are exactly the ids of the customer's buildings |
| Integrity.DeleteAssetsKeepsValid | src/features/customers/queries.ts:77-85 | deleting assets keeps the tables valid |
| Integrity.DeleteAssetRowKeepsValid | src/features/assets/queries.ts:79-86 | deleting one asset keeps the tables valid |
| Integrity.DeleteBuildingsKeepsValid | src/features/customers/queries.ts:87-93 | once the buildings' assets are gone, deleting a customer's buildings keeps the tables valid |
| Integrity.DeleteBuildingRowKeepsValid | src/features/buildings/queries.ts:47-53 | once its assets are gone, deleting a building keeps the tables valid |
| Integrity.DeleteCustomerKeepsValid | src/features/customers/queries.ts:95-101 | once its buildings are gone, deleting a customer keeps the tables valid |
| Integrity.DeleteCustomerOrphansIff | src/features/customers/queries.ts:56-63 | the plain customer delete leaves no orphans iff the customer owns no building |
| Integrity.DeleteBuildingOrphansIff | src/features/buildings/queries.ts:47-53 | deleting a building leaves no orphans iff it holds no asset |
| Integrity.InsertCustomerKeepsValid | src/features/customers/queries.ts:49-52 | inserting a customer, refused or not, keeps the tables valid |
| Integrity.InsertBuildingKeepsValid | src/features/buildings/queries.ts:15-24 | inserting a building, refused or not, keeps the tables valid |
| Integrity.InsertAssetKeepsValid | src/features/assets/queries.ts:17-25 | inserting an asset, refused or not, keeps the tables valid |
| Integrity.RenameCustomerKeepsValid | src/features/customers/queries.ts:26-36 | renaming keeps the tables valid |
| Integrity.SetAssetStatusKeepsValid | src/features/assets/queries.ts:38-48 | a status update keeps the tables valid |
| Integrity.PatchAssetKeepsValid | src/features/assets/queries.ts:50-64 | an asset patch keeps the tables valid |
| Integrity.PatchBuildingKeepsValid | src/features/buildings/EditBuildingModal.tsx:66-71 | a building patch keeps the tables valid |
| Integrity.DeleteNothingSucceeds | src/features/assets/queries.ts:79-86 | a successful delete whose filter matches no row leaves the tables as they were |
| Integrity.UpdateNothingSucceeds | src/features/assets/queries.ts:38-64 | a successful update whose filter matches no row leaves the tables as they were |
| Integrity.BuildingIdsOfReadsBuildings | src/features/customers/queries.ts:67-75 | the listing depends only on the buildings table |
| Integrity.AfterAssetsContents | src/features/customers/queries.ts:77-85 | the cascade's asset step removes exactly the assets of the customer's buildings |
| Integrity.CustomerCascadeStops | src/features/customers/queries.ts:66-102 | every run of `Tables.CustomerCascade` ends in one of the four intermediate states; it succeeds iff it ends after the customer delete |
| Integrity.CustomerCascadeStatesValid | src/features/customers/queries.ts:66-102 | each intermediate state of the cascade is valid |
| Integrity.CustomerCascadeKeepsValid | src/features/customers/queries.ts:66-102 | the cascade keeps the tables valid however far it gets |
| Integrity.CustomerCascadeRemovesSubtree | src/features/customers/queries.ts:66-102 | a successful cascade removes exactly the customer, its buildings and their assets |
| Integrity.CustomerCascadeSparesOthers | src/features/customers/queries.ts:66-102 | another customer's buildings and their assets survive any run |
| Integrity.CustomerCascadeFailures | src/features/customers/queries.ts:73-101 | each failing step stops the cascade with its error, in the state the earlier steps left |
| Integrity.CustomerCascadeSkipsEmptyAssetDelete | src/features/customers/queries.ts:78 | with no buildings, the asset delete is not sent, so its outcome cannot matter |
| Integrity.AfterAssetsIsFixed | src/features/customers/queries.ts:77-85 | repeating the asset step changes nothing |
| Integrity.NoBuildingsLeft | src/features/customers/queries.ts:78 | with no buildings left, the asset step is the identity |
| Integrity.AfterBuildingsIsFixed | src/features/customers/queries.ts:87-93 | repeating the building step changes nothing |
| Integrity.AfterCustomerIsFixed | src/features/customers/queries.ts:95-101 | the state after the customer delete is a fixed point of all three deletes |
| Integrity.CustomerCascadeIdempotent | src/features/customers/queries.ts:66-102 | a second cascade after a successful one changes nothing, whatever its requests do |
| Integrity.CustomerCascadeRetry | src/features/customers/queries.ts:66-102 | a fault-free retry after any failure ends where a fault-free first run would have ended |
| Integrity.BuildingCascadeStops | src/features/buildings/queries.ts:38-54 | for `Tables.BuildingCascade`: a failed asset step changes nothing; a failed building step leaves the building without assets; success iff both steps ran |
| Integrity.BuildingCascadeKeepsValid | src/features/buildings/queries.ts:38-54 | the building cascade keeps the tables valid however far it gets |
| Integrity.BuildingCascadeRemovesSubtree | src/features/buildings/queries.ts:38-54 | no other row is ever touched; success removes exactly the building and its assets |
| Integrity.BuildingCascadeIdempotent | src/features/buildings/queries.ts:38-54 | a second cascade after success changes nothing |
| Integrity.BuildingCascadeRetry | src/features/buildings/queries.ts:38-54 | a fault-free retry after any failure ends where a fault-free first run would have ended |
| StoreClient.Store.constructor | src/features/customers/queries.ts:1-3 | the client holds exactly the tables it is given |
| StoreClient.Store.Request | src/features/customers/queries.ts:30-35 | a single request's new state is `Attempt` of the old state, and its outcome is reported |
| StoreClient.Store.Write | src/features/customers/queries.ts:49-52 | an insert's new state and outcome are its step function's |
| StoreClient.Store.CreateCustomer | src/features/customers/queries.ts:49-52 | the new tables are `InsertCustomer` of the old ones, and validity is kept |
| StoreClient.Store.UpdateCustomer | src/features/customers/queries.ts:26-36 | the new tables are the old ones renamed on success, and validity is kept |
| StoreClient.Store.DeleteCustomer | src/features/customers/queries.ts:56-63 | the new tables lack the customer on success; validity is kept when the customer owns no building |
| StoreClient.Store.ListBuildingIds | src/features/customers/queries.ts:67-75 | on success it returns the customer's building ids; nothing changes |
| StoreClient.Store.DeleteCustomerCascade | src/features/customers/queries.ts:66-102 | the four sequential requests leave `CustomerCascade` of the old tables, and validity is kept |
| StoreClient.Store.CreateBuilding | src/features/buildings/queries.ts:15-24 | the new tables are `InsertBuilding` of the old ones, and validity is kept |
| StoreClient.Store.UpdateBuilding | src/features/buildings/EditBuildingModal.tsx:66-71 | the new tables are `PatchBuilding` of the old ones on success, and validity is kept |
| StoreClient.Store.DeleteBuildingCascade | src/features/buildings/queries.ts:38-54 | the two sequential requests leave `BuildingCascade` of the old tables, and validity is kept |
| StoreClient.Store.CreateAsset | src/features/assets/queries.ts:17-25 | the new tables are `InsertAsset` of the old ones, and validity is kept |
| StoreClient.Store.UpdateAssetStatus | src/features/assets/queries.ts:38-48 | the new tables are `SetAssetStatus` of the old ones on success, and validity is kept |
| StoreClient.Store.UpdateAsset | src/features/assets/queries.ts:50-64 | the new tables are `PatchAsset` of the old ones on success, and validity is kept |
| StoreClient.Store.DeleteAsset | src/features/assets/queries.ts:79-86 | the new tables lack the asset on success, and validity is kept |
| CustomerQueries.NewestFirst | src/features/customers/queries.ts:15 | a permutation of the table, sorted by creation time, newest first |
| CustomerQueries.PageRange | src/features/customers/queries.ts:9-10 | the inclusive range spans exactly `pageSize` rows |
| CustomerQueries.Window | src/features/customers/queries.ts:16 | `.range(from, to)` returns at most `to - from + 1` rows |
| CustomerQueries.FetchCustomers | src/features/customers/queries.ts:5-24 | succeeds iff the request succeeds and the range starts at a row from 0 to the row count with a non-negative page size; the store's refusal otherwise; request errors are rethrown; `pageSize` defaults to 10 |
| CustomerQueries.FirstPageByDefault | src/features/customers/queries.ts:5-7 | with the default page size, page 1 is the ten newest customers, or all of them when there are fewer, with the table's size |
| CustomerQueries.FetchCustomersPage | src/features/customers/queries.ts:5-24 | a page holds at most `pageSize` table rows, newest first, and counts the whole table |
| CustomerQueries.PageOf | src/features/customers/queries.ts:9-10 | the page number whose range holds a given row position |
| CustomerQueries.RowOnItsPage | src/features/customers/queries.ts:9-16 | every row appears on the page its position determines, at the offset it determines |
| CustomerQueries.PageSpan | src/features/customers/queries.ts:9-16 | page k holds exactly the rows after those pages 1..k-1 cover, up to k·pageSize clipped to the table |
| CustomerQueries.PagesTile | src/features/customers/queries.ts:9-16 | pages 1..k concatenated are the first k·pageSize rows in order: no gap, no overlap |
| CustomerQueries.PageIsSlice | src/features/customers/queries.ts:9-16 | a page is the slice of the newest-first rows its range selects |
| CustomerQueries.PastTheEnd | src/features/customers/queries.ts:9-23 | the page starting right after the last row is empty but reports the table's size; a page starting further on is refused |
| CustomerQueries.CustomersWithId | src/features/customers/queries.ts:42 | exactly the rows with that id |
| CustomerQueries.FetchCustomerById | src/features/customers/queries.ts:38-47 | a failed request is rethrown |
| CustomerQueries.FetchCustomerByIdFinds | src/features/customers/queries.ts:38-47 | with unique keys, `.single()` (`Tables.Single`) succeeds iff the id exists, returning that row; a missing id is the zero-row error |
| BuildingQueries.BuildingsOf | src/features/buildings/queries.ts:4-13 | exactly the customer's buildings, newest first |
| BuildingQueries.AllBuildings | src/features/buildings/queries.ts:28-36 | a permutation of the table, newest first |
| BuildingQueries.FetchBuildings | src/features/buildings/queries.ts:4-13 | succeeds iff the request does, with the customer's buildings |
| BuildingQueries.FetchAllBuildings | src/features/buildings/queries.ts:28-36 | succeeds iff the request does, with every building |
| BuildingQueries.BuildingListsPartition | src/features/buildings/queries.ts:4-36 | a building is in its own customer's list and no other, and every list row is in the overview |
| BuildingQueries.BuildingsOfCount | src/features/buildings/queries.ts:4-13 | a customer's list is as long as the number of rows naming it |
| AssetQueries.AssetsOf | src/features/assets/queries.ts:5-14 | exactly the building's assets, newest first |
| AssetQueries.FetchAssets | src/features/assets/queries.ts:5-14 | succeeds iff the request does, with the building's assets |
| AssetQueries.AssetsWithId | src/features/assets/queries.ts:31 | exactly the rows with that id |
| AssetQueries.FetchAssetById | src/features/assets/queries.ts:27-36 | a failed request is rethrown |
| AssetQueries.FetchAssetByIdFinds | src/features/assets/queries.ts:27-36 | with unique keys: succeeds iff the id exists, returning that asset; a missing id is the zero-row error |
| AssetQueries.WithStatus | src/features/assets/queries.ts:69-71 | exactly the rows holding that status |
| AssetQueries.FetchAllAssets | src/features/assets/queries.ts:66-77 | succeeds iff the request does |
| AssetQueries.FetchAllAssetsLists | src/features/assets/queries.ts:66-77 | a truthy status returns exactly the rows holding it; an absent or empty one returns the whole table |
| DashboardQueries.CountOrZero | src/features/dashboard/queries.ts:14-23 | the row count on success and 0 on a failed request |
| DashboardQueries.OtherStatus | src/pages/Dashboard.tsx:127-130 | exactly the rows that are neither Active nor Maintenance |
| DashboardQueries.StatusSplit | src/features/dashboard/queries.ts:20-23 | Active, Maintenance and the other rows partition the table |
| DashboardQueries.DistributionAddsUp | src/features/dashboard/queries.ts:14-23 | in the counts of `FetchDashboardStats`, active plus maintenance never exceed the total; on success the remainder counts the other rows |
| DashboardQueries.ErrorsReadAsEmpty | src/features/dashboard/queries.ts:8-24 | `FetchDashboardStats` reads a failed request as an empty table: zeros, not an error |
| Api.GetStatsAgrees | src/services/api.ts:6-44 | `GetStats` fails iff any of the five requests fails, with the fixed message; otherwise it equals the dashboard's fault-free counts |
| Api.InsightsReadBack | src/services/api.ts:49-54 | the summary `GetAIInsights` builds has three lines; the first two read back the active and maintenance counts |
| Api.InsightsLines | src/services/api.ts:51-53 | the summary splits into exactly its three bullet lines |
| Api.GetCustomers | src/services/api.ts:58-66 | succeeds iff the request does |
| Api.GetBuildings | src/services/api.ts:70-83 | succeeds iff the request does |
| Api.GetAssets | src/services/api.ts:87-100 | succeeds iff the request does; `ListReadsAgree` states its rows |
| Api.ListReadsAgree | src/services/api.ts:58-100 | with an id, the service reads equal the feature queries; without one (or with an empty one) the buildings equal `fetchAllBuildings`, the customers are newest first, and the assets are the whole table newest first, the rows `fetchAllAssets` gives in the model's stored order |
| Text.TrimEmptyIffBlank | src/features/customers/CustomerCreate.tsx:13 | `Trim` leaves nothing iff the string is all white space |
| Text.TrimShape | src/features/customers/CustomerCreate.tsx:13 | `Trim` gives an infix of the input with no white space at either end |
| Text.TrimIdempotent | src/features/customers/CustomerCreate.tsx:13 | trimming twice is trimming once |
| Text.TrimStart | src/features/customers/CustomerCreate.tsx:13 | removes a blank prefix, leaving a suffix that is empty or starts with a non-space |
| Text.TrimEnd | src/features/customers/CustomerCreate.tsx:13 | removes a blank suffix, leaving a prefix that is empty or ends with a non-space |
| Text.NatToStringRoundTrip | src/features/customers/CustomersList.tsx:106 | the rendered digits read back as the count |
| Text.AsciiLower | src/features/assets/AssetsOverview.tsx:44 | same length; upper-case ASCII letters are lowered and every other character is kept |
| Text.LinesCons | src/services/api.ts:51-53 | splitting at a line break separates off the first line |
| Cache.MatchesIsPrefix | src/features/customers/EditCustomerModel.tsx:34-37 | a filter matches a cached key iff it is a prefix of that key |
| Cache.MatchesBasics | src/features/customers/EditCustomerModel.tsx:34-37 | every key matches itself and the empty filter; a match survives extending the key |
| Cache.Reached | src/features/buildings/EditBuildingModal.tsx:74 | only cached keys are reached, and a fully defined filter reaches exactly the cached keys it is a prefix of |
| Cache.Invalidated | src/features/buildings/EditBuildingModal.tsx:73-81 | invalidating keeps every stale key, adds every cached key each filter reaches, and adds nothing outside the cache |
| Cache.InvalidateIdempotent | src/features/buildings/EditBuildingModal.tsx:73-81 | invalidating the same filters twice is invalidating them once |
| Cache.InvalidateCompose | src/features/customers/EditCustomerModel.tsx:33-44 | two rounds equal one round over both lists, in either order, so `Promise.all` order cannot matter |
| Cache.QueryCache.constructor | src/features/customers/CustomersList.tsx:11 | the cache starts empty |
| Cache.QueryCache.Fetched | src/features/customers/CustomersList.tsx:14-17 | a completed read caches its key as fresh |
| Cache.QueryCache.Invalidate | src/features/customers/CustomersList.tsx:22 | `invalidateQueries(filter)` adds exactly the matching cached keys to the stale set |
| Cache.QueryCache.InvalidateEach | src/features/buildings/EditBuildingModal.tsx:73-81 | the stale set becomes `Invalidated` over the whole filter list; the cached set is unchanged |
| Cache.InvalidateStep | src/features/buildings/EditBuildingModal.tsx:73-81 | one more filter extends the invalidated set by the keys it reaches |
| Cache.InvalidatedIsUnion | src/features/buildings/EditBuildingModal.tsx:73-81 | invalidating adds to the stale set exactly the union of what the filters reach one at a time |
| Invalidation.ReadKey | src/features/buildings/BuildingsList.tsx:16-20 | each view's read key; a view reads nothing exactly when its route parameter is missing or empty |
| Invalidation.SharedEntries | src/features/assets/AssetsOverview.tsx:10-13 | two views share a cache entry iff they are the same view, or a building id spells the overview's status |
| Invalidation.InvalidationKeys | src/features/buildings/EditBuildingModal.tsx:72-81 | each mutation's filter list; every filter is fully defined |
| Invalidation.RefreshedViews | src/features/buildings/EditBuildingModal.tsx:72-81 | a mutation refreshes a view (`Refreshes`: the view's key is matched by one of the mutation's filters) iff the reference table of expected refreshes (`Expected`) says so |
| Invalidation.WhatNothingRefreshes | src/features/dashboard/useDashboardRealtime.ts:15-17 | only a realtime change refreshes the dashboard; no write refreshes the unfiltered asset overview; disabled views are never refreshed |
| Invalidation.StaleAfter | src/features/customers/CustomersList.tsx:22 | after a mutation, a cached view is stale iff it already was or the mutation refreshes it |
| ErrorMessages.MessageBlankIff | src/utils/getErrorMessage.tsx:1-16 | `GetErrorMessage` is empty iff the thrown value carried an empty message |
| ErrorMessages.CarriedMessageReadBack | src/utils/getErrorMessage.tsx:1-16 | a message carried by an `Error`, or as a string `message` of any object, reads back unchanged |
| ErrorMessages.OtherValuesFallBack | src/utils/getErrorMessage.tsx:6-15 | for `GetErrorMessage`, null, undefined, primitives and objects without a string `message` all give the fallback |
| ErrorMessages.Thrown | src/features/customers/queries.ts:51 | a thrown store error is a plain object, not an `Error`, with a string `message`; `getErrorMessage` reads back the store's message, never empty for the fixed errors |
| Forms.TrimmedNonEmpty | src/features/customers/CustomerCreate.tsx:13 | passes iff the string is not blank, giving the trimmed value, which has no white space at either end |
| Forms.TrimmedNonEmptyStable | src/features/customers/EditCustomerModel.tsx:10 | re-validating a validated name gives the same result |
| Forms.OneOf | src/features/assets/AssetCreate.tsx:13 | `enum` passes iff the string names an allowed status, giving that status; otherwise the enum issue |
| SquareFootage.Converted | src/features/buildings/BuildingCreate.tsx:125 | corrected conversion: a cleared field is undefined, never NaN |
| SquareFootage.ConvertedAsWritten | src/features/buildings/BuildingCreate.tsx:121-126 | with `valueAsNumber` winning, the field is never undefined: a cleared field is NaN |
| SquareFootage.Shown | src/features/buildings/EditBuildingModal.tsx:62 | the number input of a stored area is empty iff the area is null, and otherwise holds that area |
| SquareFootage.ClearedIsRejectedAsWritten | src/features/buildings/EditBuildingModal.tsx:144-149 | as written, a cleared square-footage field is rejected with the NaN issue |
| SquareFootage.ConvertedAccepts | src/features/buildings/EditBuildingModal.tsx:16 | corrected: `positive().optional()` (`Positive`) passes iff the input is cleared or positive, and typed numbers convert as before |
| CustomerCreateForm.Submit | src/features/customers/CustomerCreate.tsx:12-30 | invalid names send nothing; otherwise the trimmed name is inserted; success invalidates `["customers"]`; failure shows `getErrorMessage` of the error |
| CustomerCreateForm.CreationRefreshesOnlyTheList | src/features/customers/CustomerCreate.tsx:27 | creating a customer refreshes the customer list and no other view |
| EditCustomerModal.Defaults | src/features/customers/EditCustomerModel.tsx:56-58 | the form opens with the customer's current name |
| EditCustomerModal.Submit | src/features/customers/EditCustomerModel.tsx:28-48 | invalid names send nothing; otherwise the customer is renamed; success invalidates the three keys; failure shows the fixed text |
| EditCustomerModal.UntouchedSaveIsNoOp | src/features/customers/EditCustomerModel.tsx:56-58 | saving an untouched, already trimmed name validates and leaves the tables as they were |
| EditCustomerModal.RenameToSameName | src/features/customers/queries.ts:26-36 | renaming a customer to its own name changes nothing |
| EditCustomerModal.EditRefreshes | src/features/customers/EditCustomerModel.tsx:33-44 | an edit refreshes the customer list and that customer's building list, and nothing else |
| CustomersListView.DeleteOrCount | src/features/customers/CustomersList.tsx:70-108 | a card shows a delete button (`CanDelete`) iff it shows no count (`CountLabel`); a shown count reads back as the first aggregate row's count (`BuildingCount`) |
| CustomersListView.DeleteGate | src/features/customers/CustomersList.tsx:70-89 | with the aggregate (`CardWithCount`), delete is offered iff no building names the customer; with the rows as read (`PlainCard`), always |
| CustomersListView.CustomersList.constructor | src/features/customers/CustomersList.tsx:12 | nothing is selected and no dialog is open |
| CustomersListView.CustomersList.AskDelete | src/features/customers/CustomersList.tsx:79-89 | a card's delete button selects that customer; cards without the button change nothing |
| CustomersListView.CustomersList.Cancel | src/features/customers/CustomersList.tsx:130 | cancel clears the selection and closes the dialog |
| CustomersListView.CustomersList.Confirm | src/features/customers/CustomersList.tsx:19-133 | with no selection nothing is sent; otherwise the cascade runs; success invalidates `["customers"]` and clears the selection |
| CustomersListView.CascadeRefreshesOnlyTheList | src/features/customers/CustomersList.tsx:22 | a cascade delete refreshes only the customer list; building, asset and dashboard entries stay |
| BuildingCreateForm.Defaults | src/features/buildings/BuildingCreate.tsx:53-55 | the form opens with status Active and the empty square-footage input read through the intended conversion, as absent |
| BuildingCreateForm.BuildingStatusOf | src/features/buildings/BuildingCreate.tsx:14 | passes iff the string is Active or Inactive |
| BuildingCreateForm.Validate | src/features/buildings/BuildingCreate.tsx:11-16 | passes iff the name is non-empty, the status is a building status and the square footage passes; the payload carries the route's customer and the fields untrimmed |
| BuildingCreateForm.EmptyAreaRejectedAsWritten | src/features/buildings/BuildingCreate.tsx:121-126 | as written, an empty square-footage input (untouched or cleared) is NaN and the form is refused with the number issue, whatever else it holds |
| BuildingCreateForm.EmptyAreaPassesCorrected | src/features/buildings/BuildingCreate.tsx:11-16 | with the intended conversion, a form with an empty square-footage input passes iff its name and status do, and sends no square footage |
| BuildingCreateForm.SpacesPass | src/features/buildings/BuildingCreate.tsx:12 | this schema does not trim: a name of spaces is accepted and stored as typed |
| BuildingCreateForm.Submit | src/features/buildings/BuildingCreate.tsx:33-155 | invalid input sends nothing; otherwise the building is inserted; success invalidates `["buildings", customerId]`; failure shows the fixed text |
| BuildingCreateForm.CreationRefreshes | src/features/buildings/BuildingCreate.tsx:40-42 | creation refreshes that customer's building list only, not the overview and not the customer list |
| EditBuildingModal.Reset | src/features/buildings/EditBuildingModal.tsx:51-64 | the form opens with the row's values, nulls shown as empty strings, and a null square footage read through the intended conversion as undefined |
| EditBuildingModal.NullAreaSaveRejectedAsWritten | src/features/buildings/EditBuildingModal.tsx:62-149 | as written, the untouched modal of a building stored without a square footage holds NaN and is refused with the number issue |
| EditBuildingModal.StoredAreaAgrees | src/features/buildings/EditBuildingModal.tsx:62-149 | for a building stored with a square footage, the untouched form is the same under the conversion as written and the intended one |
| EditBuildingModal.Validate | src/features/buildings/EditBuildingModal.tsx:10-17 | passes iff the name is not blank, the status is a building status and the square footage passes; the patch carries the trimmed name and every field |
| EditBuildingModal.UntouchedSave | src/features/buildings/EditBuildingModal.tsx:51-71 | saving an untouched form of a trimmed, well-formed row validates, and the patch changes nothing but null text columns to empty strings |
| EditBuildingModal.ResetValidates | src/features/buildings/EditBuildingModal.tsx:51-64 | the untouched form of a row with a trimmed, non-blank name and a positive or null area validates to exactly the row's own values |
| EditBuildingModal.ResetPasses | src/features/buildings/EditBuildingModal.tsx:54-63 | the reset values of a row with a non-blank name and a positive or null area validate |
| EditBuildingModal.PatchOfOwnFields | src/features/buildings/EditBuildingModal.tsx:66-71 | a patch carrying the row's own values leaves it as it is |
| EditBuildingModal.Submit | src/features/buildings/EditBuildingModal.tsx:66-178 | invalid input sends nothing; otherwise the building is patched; success invalidates the three keys; failure shows `ErrorText` of the thrown value, which for a store error is the fixed "Failed to update building" |
| EditBuildingModal.ErrorTextOfStore | src/features/buildings/EditBuildingModal.tsx:175-177 | a store error is not an `Error` instance, so the modal's error text (`ErrorText`) is always the fixed "Failed to update building", although `getErrorMessage` would read the store's message |
| EditBuildingModal.EditRefreshes | src/features/buildings/EditBuildingModal.tsx:73-81 | an edit refreshes the overview and, through the `["buildings"]` prefix, every customer's building list, and nothing else |
| BuildingsListView.AddressLabelShows | src/features/buildings/BuildingsList.tsx:116 | the label (`AddressLabel`, `address \|\| fallback`) is never empty; unless it is the "No address provided" fallback, it is the stored address |
| BuildingsListView.BuildingsList.constructor | src/features/buildings/BuildingsList.tsx:14 | nothing is selected |
| BuildingsListView.BuildingsList.AskDelete | src/features/buildings/BuildingsList.tsx:93-98 | every card's delete button selects that building; the dialog opens iff its id is non-empty |
| BuildingsListView.BuildingsList.Cancel | src/features/buildings/BuildingsList.tsx:136 | cancel clears the selection |
| BuildingsListView.BuildingsList.Confirm | src/features/buildings/BuildingsList.tsx:22-139 | with no selection nothing is sent; otherwise the building cascade runs; success invalidates `["buildings", customerId]` and clears the selection |
| BuildingsListView.DeleteRefreshes | src/features/buildings/BuildingsList.tsx:25-27 | a delete refreshes that customer's building list only; the overview and the asset lists stay |
| BuildingsOverviewView.EmptyIffNoBuildings | src/features/buildings/BuildingsOverview.tsx:28-35 | with the read loaded, the empty state shows iff the table has no building |
| AssetDisplay.BadgeReadsStatus | src/features/assets/AssetDetails.tsx:236-261 | the badge (`StatusBadge`) reads the stored status; Active and Maintenance get their own tones, anything else the neutral one |
| AssetDisplay.BadgeInjective | src/features/assets/AssetsList.tsx:122-144 | two badges differ iff the statuses do |
| AssetDisplay.TypeFallbacks | src/features/assets/AssetDetails.tsx:112-154 | a typed asset shows its type on both lines (`TypeLine`, `TypeField`); an untyped one shows "Unknown type" and "N/A" |
| AssetCreateForm.Defaults | src/features/assets/AssetCreate.tsx:47-49 | the form opens with status Active |
| AssetCreateForm.Validate | src/features/assets/AssetCreate.tsx:10-14 | passes iff name and type are non-empty and the status is Active or Inactive; the payload carries the route's building |
| AssetCreateForm.NoMaintenanceAtCreation | src/features/assets/AssetCreate.tsx:13 | a new asset can never be created in Maintenance |
| AssetCreateForm.Submit | src/features/assets/AssetCreate.tsx:27-140 | invalid input sends nothing; otherwise the asset is inserted; success invalidates `["assets", buildingId]`; failure shows the fixed text |
| AssetCreateForm.CreationRefreshes | src/features/assets/AssetCreate.tsx:34-36 | creation refreshes the building's asset list and the overview filtered by a status equal to that building id |
| AssetEditForm.Reset | src/features/assets/AssetEdit.tsx:65-73 | the form opens with the asset's name, type and status |
| AssetEditForm.RequiredString | src/features/assets/AssetEdit.tsx:15 | a null type gets zod's type issue; a string passes iff it is non-empty |
| AssetEditForm.Validate | src/features/assets/AssetEdit.tsx:13-17 | passes iff name and type are non-empty and the status is one of the three; the patch carries all three |
| AssetEditForm.StatusDomains | src/features/assets/AssetEdit.tsx:16 | edit accepts every status; creation accepts all but Maintenance |
| AssetEditForm.UntypedAssetBlocks | src/features/assets/AssetEdit.tsx:69 | an asset stored without a type cannot be saved untouched |
| AssetEditForm.UntouchedSaveIsNoOp | src/features/assets/AssetEdit.tsx:65-73 | an untouched save of a well-formed asset rewrites it with the values it holds |
| AssetEditForm.Submit | src/features/assets/AssetEdit.tsx:40-181 | invalid input sends nothing; otherwise the asset is patched; success invalidates the asset and its building's list; failure shows the fixed text |
| AssetEditForm.EditRefreshes | src/features/assets/AssetEdit.tsx:43-48 | an edit refreshes the asset's page, the building's list and the overview filtered by a status equal to that building id, and nothing else |
| AssetDetailsView.ActionsOffered | src/features/assets/AssetDetails.tsx:177-188 | the buttons (`Actions`): Mark Active iff not Active, Mark Inactive iff not Inactive; Maintenance gets both; at least one, never to Maintenance |
| AssetDetailsView.ActionsAfter | src/features/assets/AssetDetails.tsx:177-188 | after a button's status is stored, only the other button is offered |
| AssetDetailsView.DetailItems | src/features/assets/AssetDetails.tsx:167-215 | the Status and Category items (`DetailValue`) show the row's values, or the page's mis-encoded dash literal; a typed Category agrees with the Asset Type field |
| AssetDetailsView.AssetDetails.constructor | src/features/assets/AssetDetails.tsx:28 | the delete dialog starts closed |
| AssetDetailsView.AssetDetails.AskDelete | src/features/assets/AssetDetails.tsx:131 | the delete button opens the dialog |
| AssetDetailsView.AssetDetails.Cancel | src/features/assets/AssetDetails.tsx:198 | cancel closes the dialog |
| AssetDetailsView.AssetDetails.Apply | src/features/assets/AssetDetails.tsx:40-188 | an offered button stores its status; success invalidates the asset and its building's list; an absent button sends nothing |
| AssetDetailsView.AssetDetails.ConfirmDelete | src/features/assets/AssetDetails.tsx:52-199 | confirm is only reachable with the dialog open, which it leaves open; it deletes the asset; success invalidates only the building's asset list |
| AssetDetailsView.MutationsRefresh | src/features/assets/AssetDetails.tsx:43-57 | a status change refreshes the page and the list; a delete refreshes the list but not the asset's own entry |
| AssetListsView.PathsDistinct | src/features/assets/AssetsList.tsx:86-89 | two cards of a list link to the same path (`AssetPath`) iff they are the same asset; each path ends in the asset's id |
| AssetListsView.BuildingListEmpty | src/features/assets/AssetsList.tsx:76-80 | with the read loaded, the empty state shows iff the building has no asset |
| AssetListsView.OverviewTexts | src/features/assets/AssetsOverview.tsx:27-45 | a status names the `Heading` and, in lower case, the `EmptyText`; no status reads "All Assets" |
| AssetListsView.OverviewRows | src/features/assets/AssetsOverview.tsx:10-13 | the overview lists every asset for no status, and exactly the assets with that status otherwise |
| DashboardPage.KpiTable | src/pages/Dashboard.tsx:43-84 | five cards with distinct fields and distinct links, whose fields (`KpiFields`) cover every stats field; Active and Maintenance link (`LinkTarget`) to the filtered overview |
| DashboardPage.CardsMatchTheirLists | src/pages/Dashboard.tsx:52-83 | with every request succeeding, the building and asset cards show as many rows as the list they open |
| DashboardPage.Round | src/pages/Dashboard.tsx:111 | `Math.round`: an integer within half a unit of its argument |
| DashboardPage.Share | src/pages/Dashboard.tsx:109-112 | 0 for a zero total; otherwise within half a point of the exact percentage |
| DashboardPage.ShareBounds | src/pages/Dashboard.tsx:109-112 | a part no larger than the total gives 0..100; no part gives 0 and the whole gives 100 |
| DashboardPage.ActivePct | src/pages/Dashboard.tsx:109-112 | the active percentage is 0 when there are no assets |
| DashboardPage.HealthBars | src/pages/Dashboard.tsx:109-116 | on fetched stats both bars lie in 0..100, the maintenance bar (`MaintenancePct`) is finite and is the same rounded share as the active one, and both are 0 without assets |
| DashboardPage.InfiniteOnlyWithoutTotal | src/pages/Dashboard.tsx:114-116 | the maintenance bar is infinite iff there is no total but some maintenance, which fetched stats never have |
| DashboardPage.ChartAgreesWithCards | src/pages/Dashboard.tsx:118-218 | the bars (`Bars`) are customers, buildings and assets in that order, equal to the first three cards; the highlighted bar is assets |
| DashboardPage.DistributionSlices | src/pages/Dashboard.tsx:124-132 | the slices (`Distribution`) sum to the total and have distinct names; none is negative on fetched stats; Inactive counts the other rows |
| DashboardPage.ReadsTheRealtimeKey | src/pages/Dashboard.tsx:92-95 | the page reads `["dashboard-stats"]`, which is the key a realtime change invalidates |
| DashboardRealtime.EveryTableWatched | src/features/dashboard/useDashboardRealtime.ts:11-37 | all three tables have exactly one handler each |
| DashboardRealtime.EventKeys | src/features/dashboard/useDashboardRealtime.ts:15-35 | every table and event kind invalidates the same single key, the `TableChanged` entry of the invalidation table (a consistency fact between two tables; what that key refreshes is `EventsRefreshOnlyTheDashboard`) |
| DashboardRealtime.EventsRefreshOnlyTheDashboard | src/features/dashboard/useDashboardRealtime.ts:9-38 | a change event refreshes the dashboard and no other view |
| DashboardRealtime.Subscription.constructor | src/features/dashboard/useDashboardRealtime.ts:8 | not subscribed before the effect runs |
| DashboardRealtime.Subscription.Mount | src/features/dashboard/useDashboardRealtime.ts:9-38 | the effect subscribes the channel |
| DashboardRealtime.Subscription.OnChange | src/features/dashboard/useDashboardRealtime.ts:14-18 | while subscribed an event marks the dashboard entry stale; after teardown the cache is untouched |
| DashboardRealtime.Subscription.Teardown | src/features/dashboard/useDashboardRealtime.ts:40-42 | cleanup removes the channel |
| UiStore.ActionLaws | src/stores/uiStore.ts:12-15 | for the actions of `Next` (toggle flips, close clears, open sets): two toggles restore the flag; close and open are idempotent |
| UiStore.Toggles | src/stores/uiStore.ts:12-13 | the number of toggles in a sequence of actions is the multiplicity of `Toggle` in it, so at most its length |
| UiStore.OnlyToggles | src/stores/uiStore.ts:12-13 | a run of toggles leaves the flag flipped iff their number is odd |
| UiStore.LastSetWins | src/stores/uiStore.ts:12-15 | after an open or close, earlier history no longer affects the flag, which is then set by that action |
| UiStore.Sidebar.constructor | src/stores/uiStore.ts:11 | the sidebar starts closed |
| UiStore.Sidebar.ToggleSidebar | src/stores/uiStore.ts:12-13 | the new flag is `Next` of the old one under toggle |
| UiStore.Sidebar.CloseSidebar | src/stores/uiStore.ts:14 | the new flag is closed |
| UiStore.Sidebar.OpenSidebar | src/stores/uiStore.ts:15 | the new flag is open |

## Left out

- Network transport, the `Promise.all` fan-out, authentication and the row-level security of the hosted database are left out. Each request's outcome is a parameter instead.
- Loading spinners, navigation after success, and page layout and styling are rendering only.
- The `Promise.all` of the invalidations is modelled as sequential calls. `Cache.InvalidateCompose` shows that the order cannot matter.
- Ids and creation times are assigned by the database, so they are parameters.
- DashboardPage.Share: floating point is not modelled. The percentage is computed on exact rationals, so a result that floating point would put on the other side of a .5 boundary is not captured.
- DashboardPage.MaintenancePct: a quotient that JavaScript computes as a float is modelled exactly, and Infinity is represented as `None`.
- Text.AsciiLower lowers only ASCII letters, where `toLowerCase` lowers every alphabet. It lowers the `?status=` search parameter in the overview's empty-list text (src/features/assets/AssetsOverview.tsx:8, 44), which is whatever the user typed in the URL, so non-ASCII letters there keep their case in the model's text while the page would lower them.
- Zod's own issue texts are abbreviated to the constants `InvalidEnum`, `NotANumber` and `NullType`. Whenever the source gives its own message, that text is kept exactly.
- BuildingCreateForm.Defaults: the empty square-footage input is read through the intended conversion, as absent. As written it reads as NaN, and the untouched form is refused (`BuildingCreateForm.EmptyAreaRejectedAsWritten`). The submit and validation members use the intended conversion.
- EditBuildingModal.Reset: a null square footage is read through the intended conversion, as undefined. As written it reads as NaN (`EditBuildingModal.NullAreaSaveRejectedAsWritten`); for a stored area the two agree (`EditBuildingModal.StoredAreaAgrees`).
- EditBuildingModal.UntouchedSave: for a building stored without a square footage this holds only under the intended conversion; as written that save is refused.
- EditBuildingModal.ResetValidates: for a null square footage this holds only under the intended conversion; as written the untouched form is refused.
- EditBuildingModal.ResetPasses: for a null square footage this holds only under the intended conversion; as written the untouched form is refused.
- ErrorMessages.StoreMessage: the texts of the store's own errors (duplicate key, missing parent, no single row, bad range) are representative stand-ins, not the server's exact wording.
- ErrorMessages.Thrown: the client library returns the parsed error body as a plain object with a string `message`, and `if (error) throw error` throws that object. Only its `message` is modelled; `details`, `hint` and `code` are not.
- The customer list passes `fetchCustomers` to the query directly. The query context then arrives as the page number, and the `{ data, count }` result is rendered as if it were an array. The model gives the list the rows of a page; the mismatch between the page object and the array the page expects is not modelled.
- The building-count aggregate is absent from the list's read, so the count-based branches are modelled for a read that includes it (`CardWithCount`) alongside the read as written (`PlainCard`).
- Route parameters in mutations are assumed present, because the source asserts them with `!`. Read queries model their `enabled: !!param` guards.
- The realtime channel's subscribe/remove plumbing is reduced to a flag. Event payloads are ignored, as the source ignores them.
- The other pages and components (login, layout, breadcrumbs, sidebar rendering, confirm dialog, error boundary, routes) are rendering or authentication, and are not part of this model.

## Findings

| source | as written | input that shows it | evidently intended | confidence | as-written member | corrected member |
|---|---|---|---|---|---|---|
| src/features/buildings/BuildingCreate.tsx:121-126 and src/features/buildings/EditBuildingModal.tsx:144-149 | `register("square_footage", { valueAsNumber: true, setValueAs })`: react-hook-form applies `valueAsNumber` and ignores `setValueAs`, so an empty number input yields NaN, which `z.number().optional()` rejects | clear the Square Footage field, or leave it empty, and submit a building with a valid name and status; or open the edit modal of a building stored without a square footage and save it untouched (`BuildingCreateForm.EmptyAreaRejectedAsWritten`, `EditBuildingModal.NullAreaSaveRejectedAsWritten`) | an empty field is `undefined`, so the optional square footage passes and is not sent | medium, not executed | SquareFootage.ClearedIsRejectedAsWritten | SquareFootage.ConvertedAccepts |
