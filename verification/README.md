# Inventory client: routing, views and forms

This project models the pure logic of a React inventory client. The client
keeps stores (`tiendas`), warehouses (`bodegas`), racks and products in a
document store. Users have one of three roles: `logistica`, `bodeguero` or
`vendedor`. Once the storage, authentication and rendering calls are
removed, three groups of logic remain, and each is modelled here as pure
functions over immutable datatypes.

- **Route authorization** (`Roles`, `ProtectedRoute`, `Routes`, `Dashboard`):
  - the role guard's decision;
  - the application's route table, as data;
  - the home screen's role-scoped cards.

  A cross-module lemma shows that every card shown to a role links to a
  route that admits that role.
- **View assembly** (`ResponsiveTable`, `ProductList`, `WarehouseReport`,
  `RackList`, `UserList`, on top of `Records`, `Seqs` and `Text`):
  - search, pagination and the product→rack→warehouse join;
  - the per-warehouse report with its store filter and counts;
  - the rack→warehouse name resolution;
  - the user rows;
  - the shared table's fixed first-page slice and card view.

  Every join is total: an unresolved code shows a fixed sentinel, and no
  record is dropped. `Array.find` is modelled as the first match in
  sequence order. Codes are not assumed to be unique, because the client
  never enforces that.
- **Forms** (`Forms`, `RackForm`, `WarehouseForm`, `StoreForm`, `ProductForm`,
  `AccountSettings`):
  - validators that report the first failing check;
  - the selection handlers that copy or clear linked fields;
  - the submitted document shapes and the reset after a completed write;
  - the three-photo cap;
  - the password-change sequence and its error mapping.

Conventions used throughout:

- **Field values.** A document field that may be absent is an
  `Option<string>`. Dafny `==` on such values is JavaScript `===`.
  `Text.Or(o, fb)` is `o || fb`, where an absent value and `""` are both
  falsy.
- **Store reads and writes.** They are inputs to the model: a read is a
  `Result`, and a write is a `Forms.WriteOutcome`. A submit returns the
  next form state together with the document handed to the write, if one
  was handed over.
- **Time and locale.** Timestamps are `nat` parameters, and date
  formatting is a function parameter.

## Model

| member | source | states |
|---|---|---|
| Roles.Parse | src/Components/admin/users/CrearUser.js:133-135 | a stored role string denotes a role exactly when it is that role's option value; any other string denotes none |
| Roles.ParseName | src/Components/admin/users/CrearUser.js:133-135 | parsing a role's stored name gives the role back, so distinct roles are stored under distinct strings |
| ProtectedRoute.Decide | src/Context/ProtectedRoute.js:6-26 | the four outcomes, each as an if-and-only-if: the placeholder while loading; a redirect to the login path when not signed in; a redirect to access-denied when a role list is given and the profile's role is not in it; otherwise the children |
| ProtectedRoute.AdmitsNamedRole | src/Context/ProtectedRoute.js:19 | `allowedRoles.includes(role)` holds for a role stored under its own name exactly when that role is listed |
| ProtectedRoute.UnknownRoleDenied | src/Context/ProtectedRoute.js:19-22 | a signed-in user with no profile, or with a role string naming no role, is sent to access-denied by every role list |
| ProtectedRoute.LoadingNeverRedirects | src/Context/ProtectedRoute.js:10-17 | a loading session never yields a redirect, whatever the user, role or list |
| ProtectedRoute.RenderIffListed | src/Context/ProtectedRoute.js:19-25 | a loaded, signed-in user with a known role gets the screen exactly when the role is listed, and access-denied otherwise |
| Routes.Lookup | src/App.js:33-188 | route matching: the result is absent exactly when no route has the path, and a found route is declared with that path |
| Routes.LookupDeclared | src/App.js:33-188 | in a table with distinct paths, looking up a declared path finds that route's own entry |
| Routes.PathsDistinct | src/App.js:33-188 | no path is declared twice in the route table |
| Routes.GuardAt | src/App.js:33-188 | the guard the router applies to a declared path is the guard declared with it |
| Routes.Navigate | src/App.js:33-188 | navigating renders nothing exactly for an undeclared path; the logged-in redirect guard decides exactly for the public paths, the screen is shown directly exactly for the unguarded path, and the role guard decides exactly for role-guarded paths, with the path's own role list |
| Routes.NavigateAt | src/App.js:33-188 | navigating to the path of a role-guarded entry is the role guard's decision for that entry's list |
| Routes.PublicOnlyPaths | src/App.js:34-57 | each of login, verification and password reset sits behind the logged-in redirect guard, not the role guard |
| Routes.AccessDeniedIsOpen | src/App.js:188 | the access-denied path has no guard |
| Routes.CreationPathsLogisticaOnly | src/App.js:79-101 | each of the store, owner and warehouse creation paths admits logistica only |
| Routes.UserPathsLogisticaOnly | src/App.js:171-181 | each of the user creation and user listing paths admits logistica only |
| Routes.WarehouseStaffPaths | src/App.js:117-155 | each of the rack creation, QR printing and product entry paths admits bodeguero and logistica, not vendedor |
| Routes.GeneralPathsAdmitAll | src/App.js:61-163 | each of home, settings and the product listing is role-guarded and admits all three roles |
| Routes.StorageListingsAdmitAll | src/App.js:107-135 | each of the warehouse and rack listings is role-guarded and admits all three roles |
| Routes.StoreListingPath | src/App.js:71-73 | the store listing admits logistica and vendedor, and not bodeguero |
| Routes.RoleListsWellFormed | src/App.js:63-181 | every role list is non-empty, has no repeats and contains logistica |
| Routes.LogisticaOnlyNavigation | src/App.js:79-181 | a signed-in user who opens the store, owner or warehouse form, or either user screen, gets the screen when logistica and is sent to access-denied otherwise |
| Routes.WarehouseStaffNavigation | src/App.js:117-155 | a signed-in user who opens the rack form, the QR screen or the product form is sent to access-denied when vendedor and gets the screen otherwise |
| Dashboard.AllCardsLaidOut | src/Components/all/inicio.js:43-125 | every card has a place in the fixed layout |
| Dashboard.LabelsDistinct | src/Components/all/inicio.js:43-111 | card labels are distinct, so testing a label for membership is testing the card |
| Dashboard.AllowedCards | src/Components/all/inicio.js:16-23 | vendedor is allowed the inventory card; bodeguero inventory, racks and warehouses; logistica all five in layout order; a missing profile or a string naming no role, nothing |
| Dashboard.Keep | src/Components/all/inicio.js:43-112 | a card is rendered exactly when it is in the layout and its label is allowed, and rendered cards keep layout order |
| Dashboard.VisibleCards | src/Components/all/inicio.js:23-112 | the cards shown are exactly the role's allowed cards, in layout order whatever the order of the allowed list |
| Dashboard.VendedorCards | src/Components/all/inicio.js:17 | a vendedor sees only the inventory card |
| Dashboard.BodegueroCards | src/Components/all/inicio.js:18 | a bodeguero sees the inventory, racks and warehouses cards, in that order |
| Dashboard.KeepAllAllowed | src/Components/all/inicio.js:43-112 | when every card of the layout is allowed, the whole layout renders, in order |
| Dashboard.LogisticaCards | src/Components/all/inicio.js:19 | logistica sees all five cards in layout order |
| Dashboard.UnknownRoleNoCards | src/Components/all/inicio.js:23 | a missing profile or an unknown role string shows no card |
| Dashboard.CardsNested | src/Components/all/inicio.js:16-20 | the card sets are nested: vendedor within bodeguero within logistica |
| Dashboard.RouteIndex | src/Components/all/inicio.js:44-112 | each card lands on an entry of the route table, and that entry is role-guarded |
| Dashboard.LinkTarget | src/Components/all/inicio.js:44-112 | each card links to the declared path of its route-table entry |
| Dashboard.LinkTargetsDistinct | src/Components/all/inicio.js:44-112 | no two cards link to the same path |
| Dashboard.CardEntryListsRole | src/Components/all/inicio.js:16-23 | the route a card lands on is role-guarded, and its list includes every role the card is allowed to |
| Dashboard.CardLinksAdmitRole | src/Components/all/inicio.js:44-112 | following a card shown to a role reaches a role-guarded route that lists the role, and that route renders its screen for a signed-in user of that role |
| Records.FieldCell | src/Components/User/Bodeguero/Productos/VerProductos.js:77 | an absent field renders as nothing and a present one as its text; a field is never a number |
| ResponsiveTable.Displayed | src/Components/ui/ResponsiveTable.js:4-10 | the table shows the first min(5, n) rows, as a prefix in the same order |
| ResponsiveTable.DisplayedBounded | src/Components/ui/ResponsiveTable.js:8-10 | at most five rows are shown, and rows past the fifth never are |
| ResponsiveTable.ShortListShownWhole | src/Components/ui/ResponsiveTable.js:10 | five rows or fewer are shown unchanged, so showing is idempotent |
| ResponsiveTable.HeaderAt | src/Components/ui/ResponsiveTable.js:40 | the header over a cell is present exactly when the cell's position is within the header list |
| ResponsiveTable.CardView | src/Components/ui/ResponsiveTable.js:36-41 | in card view, cell i is paired with header i and the cells keep their order |
| ResponsiveTable.CardCells | src/Components/ui/ResponsiveTable.js:36-41 | reading the cells out of a card keeps their number and order |
| ResponsiveTable.CardKeepsCells | src/Components/ui/ResponsiveTable.js:36-41 | the card view loses no cell and adds none: its cells are the row |
| ResponsiveTable.CardFullyLabelled | src/Components/ui/ResponsiveTable.js:36-41 | a row with no more cells than headers has every cell labelled by its header |
| ProductList.Load | src/Components/User/Bodeguero/Productos/VerProductos.js:20-38 | the three collections are stored only when all three reads succeed; otherwise they stay as they were; loading ends either way |
| ProductList.LoadAllOrNothing | src/Components/User/Bodeguero/Productos/VerProductos.js:23-38 | after the mount-time load either every collection holds its read or none holds anything |
| ProductList.Search | src/Components/User/Bodeguero/Productos/VerProductos.js:50-53 | a product is kept exactly when the query occurs in its lower-cased SKU or name; the result keeps collection order |
| ProductList.EmptyQueryKeepsAll | src/Components/User/Bodeguero/Productos/VerProductos.js:50-53 | the empty query keeps every product |
| ProductList.SearchAppend | src/Components/User/Bodeguero/Productos/VerProductos.js:50-53 | searching distributes over concatenation, so matches keep their relative order |
| ProductList.HandleSearch | src/Components/User/Bodeguero/Productos/VerProductos.js:45-48 | a search stores the lower-cased input as the query and returns to page 1, touching nothing else |
| ProductList.SearchIgnoresCase | src/Components/User/Bodeguero/Productos/VerProductos.js:45-48 | inputs that differ only in letter case give the same state |
| ProductList.TotalPages | src/Components/User/Bodeguero/Productos/VerProductos.js:56 | the page count is the least number of five-item pages that hold n matches |
| ProductList.TotalPagesSmall | src/Components/User/Bodeguero/Productos/VerProductos.js:56 | there are no pages exactly when nothing matches, and one page exactly for one to five matches |
| ProductList.PageOf | src/Components/User/Bodeguero/Productos/VerProductos.js:57-59 | page p holds matches (p-1)*5 up to min(p*5, n), so at most five |
| ProductList.PagedIsPrefix | src/Components/User/Bodeguero/Productos/VerProductos.js:57-59 | pages 1 through k, read in turn, are the first min(5k, n) matches |
| ProductList.PagesCoverList | src/Components/User/Bodeguero/Productos/VerProductos.js:56-59 | reading every page in turn shows every match exactly once, in order |
| ProductList.PageInRangeNotEmpty | src/Components/User/Bodeguero/Productos/VerProductos.js:56-59 | a page between 1 and the page count is never empty |
| ProductList.HandlePageChange | src/Components/User/Bodeguero/Productos/VerProductos.js:61-65 | the page moves to the requested page exactly when that page is between 1 and the page count; any other request leaves the state unchanged |
| ProductList.PageValidPreserved | src/Components/User/Bodeguero/Productos/VerProductos.js:17-65 | the initial state, the load, a search and a page change all keep the page at least 1 and, past page 1, within the page count |
| ProductList.ValidPageShowsMatches | src/Components/User/Bodeguero/Productos/VerProductos.js:56-65 | in a valid state with matches, the current page is not empty |
| ProductList.ProductRow | src/Components/User/Bodeguero/Productos/VerProductos.js:69-77 | six cells with SKU and name copied; the first rack with the product's rack code supplies number, row and aisle; the first warehouse with that rack's code supplies the name; each miss gives its sentinel and the aisle is never empty |
| ProductList.ProductRowByIndex | src/Components/User/Bodeguero/Productos/VerProductos.js:70-75 | joining through first-wins code indexes gives the same row as scanning with `find` |
| ProductList.ProductRows | src/Components/User/Bodeguero/Productos/VerProductos.js:69-78 | one row per product on the page, in order |
| ProductList.Rows | src/Components/User/Bodeguero/Productos/VerProductos.js:57-78 | the table gets exactly one row per product of the current page, in page order, each that product's joined row; at most five |
| ProductList.FewMatchesAllShown | src/Components/User/Bodeguero/Productos/VerProductos.js:50-78 | with at most five matches a valid state is on page 1 and the table holds one row per match, in order |
| ProductList.SearchShowsFewMatches | src/Components/User/Bodeguero/Productos/VerProductos.js:45-78 | a search leaving at most five matches (say three of twelve products) shows exactly those matches' rows, in order |
| ProductList.TableShowsCurrentPage | src/Components/User/Bodeguero/Productos/VerProductos.js:104 | the table's own fixed slice shows the current page unchanged, and every row has one cell per header |
| WarehouseReport.LoadReport | src/Components/admin/Bodega/VerBodegas.js:23-67 | the four collections are held only when all four reads succeed; any failure leaves all four empty |
| WarehouseReport.OfTienda | src/Components/admin/Bodega/VerBodegas.js:72 | a warehouse is kept exactly when its store id is the selected one, in collection order |
| WarehouseReport.OfTiendaAppend | src/Components/admin/Bodega/VerBodegas.js:72 | the filter distributes over concatenation, so identical warehouses are each kept |
| WarehouseReport.FilterByTienda | src/Components/admin/Bodega/VerBodegas.js:70-78 | an empty selection shows every warehouse; otherwise exactly those of the selected store, in order |
| WarehouseReport.OfTiendaIdempotent | src/Components/admin/Bodega/VerBodegas.js:72 | filtering by the same store twice is filtering once |
| WarehouseReport.FilterByTiendaIdempotent | src/Components/admin/Bodega/VerBodegas.js:70-78 | re-running the filter effect with the same selection changes nothing |
| WarehouseReport.RacksOf | src/Components/admin/Bodega/VerBodegas.js:97 | a rack is kept exactly when it stands in the warehouse, as a subsequence of the racks |
| WarehouseReport.RacksOfAppend | src/Components/admin/Bodega/VerBodegas.js:97 | the rack filter distributes over concatenation, so every matching rack document is counted |
| WarehouseReport.DuplicateRacksCounted | src/Components/admin/Bodega/VerBodegas.js:97 | two identical racks of a warehouse count as two |
| WarehouseReport.RackCodes | src/Components/admin/Bodega/VerBodegas.js:88 | the codes are the racks' codes, position by position |
| WarehouseReport.OnRacks | src/Components/admin/Bodega/VerBodegas.js:89 | a product is kept exactly when its rack code is among the codes, in collection order |
| WarehouseReport.OnRacksAppend | src/Components/admin/Bodega/VerBodegas.js:89 | the product filter distributes over concatenation, so every matching product document is counted |
| WarehouseReport.InCodesIffStocked | src/Components/admin/Bodega/VerBodegas.js:86-90 | a product's rack code is among the warehouse's rack codes exactly when some rack of the warehouse carries it |
| WarehouseReport.ProductosFor | src/Components/admin/Bodega/VerBodegas.js:86-90 | the products counted for a warehouse are exactly those stocked on one of its racks, as a subsequence of the products |
| WarehouseReport.ProductosForAppend | src/Components/admin/Bodega/VerBodegas.js:86-90 | the products of two collections together are those of each, in order, identical documents each counted |
| WarehouseReport.NoRacksNoProducts | src/Components/admin/Bodega/VerBodegas.js:86-97 | a warehouse without racks has no products |
| WarehouseReport.CountCell | src/Components/admin/Bodega/VerBodegas.js:102-103 | a count shows its sentence exactly when it is zero, and the number exactly when it is positive |
| WarehouseReport.TiendaCell | src/Components/admin/Bodega/VerBodegas.js:95-101 | the store cell is the name of the first store whose id matches the warehouse's, or the sentinel when none matches |
| WarehouseReport.ReportRow | src/Components/admin/Bodega/VerBodegas.js:94-105 | four cells: the warehouse name; the first matching store's name or the sentinel when none matches; the product count: its sentence exactly when zero and the number (at most the number of products) exactly when positive; the rack count likewise |
| WarehouseReport.NoRacksRowNoProducts | src/Components/admin/Bodega/VerBodegas.js:96-103 | a row that reports no racks also reports no products |
| WarehouseReport.ReportRows | src/Components/admin/Bodega/VerBodegas.js:94-105 | one row per shown warehouse, in order |
| WarehouseReport.Report | src/Components/admin/Bodega/VerBodegas.js:70-105 | row i is the row of the i-th warehouse the store filter keeps, so there are no more rows than warehouses, and with no selection exactly one per warehouse |
| WarehouseReport.FailedLoadEmptyReport | src/Components/admin/Bodega/VerBodegas.js:60-63 | a failed read shows an empty report whatever the selection |
| RackList.BodegaName | src/Components/User/Bodeguero/Racks/VerRacks.js:28-42 | the name is never empty; a rack naming no warehouse, or naming one nobody carries, gets "Sin bodega"; otherwise the first matching warehouse's name, or the unavailable-name sentinel when that name is empty |
| RackList.NameWithoutCodeIgnoresBodegas | src/Components/User/Bodeguero/Racks/VerRacks.js:28-43 | a rack naming no warehouse resolves the same against any warehouse collection |
| RackList.Resolve | src/Components/User/Bodeguero/Racks/VerRacks.js:23-50 | one resolved entry per rack, in order, the rack's fields kept |
| RackList.LoadRacks | src/Components/User/Bodeguero/Racks/VerRacks.js:18-61 | a failed rack read, or a failed warehouse read that was needed, leaves the list empty; otherwise every rack is resolved |
| RackList.LoadIgnoresBodegasWhenUnneeded | src/Components/User/Bodeguero/Racks/VerRacks.js:29-43 | when no rack names a warehouse, the warehouse read cannot change the list |
| RackList.RackRow | src/Components/User/Bodeguero/Racks/VerRacks.js:68-74 | five non-empty text cells; each empty field shows its own fallback |
| RackList.WarehouseColumnIsResolvedName | src/Components/User/Bodeguero/Racks/VerRacks.js:70 | the warehouse column always shows the resolved name; its own fallback never fires |
| RackList.RackRows | src/Components/User/Bodeguero/Racks/VerRacks.js:68-74 | one row per rack, in order |
| UserList.LoadUsers | src/Components/admin/users/VerUser.js:19-33 | the profiles on a successful read, and none on a failure |
| UserList.UserRow | src/Components/admin/users/VerUser.js:40-46 | a missing name or store shows its fallback, and a present one shows the value; email and role pass through unchanged; a missing date shows "N/A" |
| UserList.UserRows | src/Components/admin/users/VerUser.js:40-46 | one row per profile, in order |
| UserList.FailedLoadNoRows | src/Components/admin/users/VerUser.js:27-32 | a failed read shows no rows |
| UserList.UserRowsAppend | src/Components/admin/users/VerUser.js:40-46 | the rows of two lists of profiles are the first list's rows followed by the second's |
| Forms.Code | src/Components/User/Bodeguero/Racks/CrearRacks.js:51 | a generated code is the prefix followed by a non-empty run of digits that reads back as the timestamp |
| Forms.CodeInjective | src/Components/User/Bodeguero/Racks/CrearRacks.js:51 | distinct timestamps give distinct codes |
| RackForm.Fresh | src/Components/User/Bodeguero/Racks/CrearRacks.js:13-59 | a fresh form has the code "RACK-" followed by the mount timestamp's digits, and every other field empty |
| RackForm.SetInput | src/Components/User/Bodeguero/Racks/CrearRacks.js:61-67 | an input change sets only the field named by the input |
| RackForm.SelectBodega | src/Components/User/Bodeguero/Racks/CrearRacks.js:69-77 | the first warehouse carrying the selected code supplies code and name; with none both are cleared; the other fields are unchanged |
| RackForm.SelectPlaceholderClears | src/Components/User/Bodeguero/Racks/CrearRacks.js:69-77 | choosing the placeholder option leaves no warehouse selected |
| RackForm.Validate | src/Components/User/Bodeguero/Racks/CrearRacks.js:79-98 | valid exactly when number, row and aisle are non-blank after trimming and a warehouse is chosen; otherwise the first failing check's message, in source order |
| RackForm.WhitespaceOnlyRejected | src/Components/User/Bodeguero/Racks/CrearRacks.js:81 | a whitespace-only rack number fails like an empty one |
| RackForm.MessagesDistinct | src/Components/User/Bodeguero/Racks/CrearRacks.js:79-98 | the four messages are distinct, so the message names the failing field |
| RackForm.Submit | src/Components/User/Bodeguero/Racks/CrearRacks.js:100-135 | an invalid form writes nothing; a valid one writes the five rack fields and not the warehouse name; a completed write resets to a fresh form and a failed one keeps the form |
| RackForm.WrittenRackComplete | src/Components/User/Bodeguero/Racks/CrearRacks.js:104-118 | every written rack has a non-blank number, row and aisle and names a warehouse |
| RackForm.ResetFormInvalid | src/Components/User/Bodeguero/Racks/CrearRacks.js:121-128 | after a completed write the form fails validation, so a second submit writes nothing |
| RackForm.FilledFormWrites | src/Components/User/Bodeguero/Racks/CrearRacks.js:61-128 | typing non-blank number, row and aisle into a fresh form and choosing a loaded warehouse makes it valid; the submit writes the typed values under the mount-time code and starts over |
| RackForm.FreshCodesDistinct | src/Components/User/Bodeguero/Racks/CrearRacks.js:49-59 | forms created at distinct times carry distinct rack codes |
| WarehouseForm.Fresh | src/Components/admin/Bodega/CrearBodega.js:44-54 | a fresh form has the code "BOD-" followed by the mount timestamp's digits, and every other field empty |
| WarehouseForm.SetName | src/Components/admin/Bodega/CrearBodega.js:56-62 | typing the name sets only the name |
| WarehouseForm.SelectTienda | src/Components/admin/Bodega/CrearBodega.js:64-72 | the selected id is always kept; the first store with that id supplies the name, and with none the name is cleared |
| WarehouseForm.UnknownStoreAccepted | src/Components/admin/Bodega/CrearBodega.js:64-85 | an id no loaded store carries still passes validation, with an empty store name |
| WarehouseForm.Validate | src/Components/admin/Bodega/CrearBodega.js:74-85 | valid exactly when the trimmed name is non-empty and a store is chosen; otherwise the first failing check's message |
| WarehouseForm.WhitespaceNameRejected | src/Components/admin/Bodega/CrearBodega.js:76 | a whitespace-only name is rejected before the store is looked at |
| WarehouseForm.Submit | src/Components/admin/Bodega/CrearBodega.js:87-120 | an invalid form writes nothing; a valid one writes code, name, store id and store name; a completed write resets to a fresh form and a failed one keeps the form |
| WarehouseForm.ResetFormInvalid | src/Components/admin/Bodega/CrearBodega.js:108-113 | after a completed write a second submit writes nothing |
| WarehouseForm.FilledFormWrites | src/Components/admin/Bodega/CrearBodega.js:56-113 | typing a non-blank name into a fresh form and choosing any store makes it valid; the submit writes name and store under the mount-time code and starts over |
| WarehouseForm.FreshCodesDistinct | src/Components/admin/Bodega/CrearBodega.js:44-54 | forms created at distinct times carry distinct warehouse codes |
| StoreForm.SetInput | src/Components/admin/Tienda/CrearTienda.js:38-44 | an input change sets only the field named by the input, never the region |
| StoreForm.SetRegion | src/Components/admin/Tienda/CrearTienda.js:25-32 | changing the region sets it and clears the commune, leaving name, street and number |
| StoreForm.Comunas | src/Components/admin/Tienda/CrearTienda.js:34-36 | no region, or a region not in the table, offers no communes; otherwise the first matching entry's communes |
| StoreForm.ComunasFollowRegion | src/Components/admin/Tienda/CrearTienda.js:34-36 | the communes offered depend on the region alone |
| StoreForm.Validate | src/Components/admin/Tienda/CrearTienda.js:46-69 | valid exactly when name and street are non-blank, region and commune are chosen and the number is all digits; otherwise the first failing check's message, in source order |
| StoreForm.RegionChangeNeedsCiudad | src/Components/admin/Tienda/CrearTienda.js:25-59 | after a region change the form fails on the missing commune |
| StoreForm.PaddedNumberRejected | src/Components/admin/Tienda/CrearTienda.js:64 | a number with a leading space passes the trim test but fails the digits test |
| StoreForm.Submit | src/Components/admin/Tienda/CrearTienda.js:71-106 | an invalid form writes nothing; a valid one writes name, joined address, commune, region and the write time; a completed write empties the form and a failed one keeps it |
| StoreForm.AddressSplitsBack | src/Components/admin/Tienda/CrearTienda.js:85 | the number of a valid form is the trailing run of digits of the stored address, and the street is its beginning |
| StoreForm.NumberReadBack | src/Components/admin/Tienda/CrearTienda.js:85 | a digit string joined after a street and a space is the joined text's trailing run of digits |
| StoreForm.ResetFormInvalid | src/Components/admin/Tienda/CrearTienda.js:93-99 | after a completed write a second submit writes nothing |
| StoreForm.FilledFormWrites | src/Components/admin/Tienda/CrearTienda.js:25-99 | choosing a region, then filling name, commune, street and a digits-only number makes an empty form valid; the submit writes them with street and number joined by a space |
| ProductForm.Capture | src/Components/User/Bodeguero/Productos/AgregarProductos.js:32-43 | with no camera nothing changes; with three or more photos only the cap message is set; otherwise exactly one photo is appended and the message cleared |
| ProductForm.CaptureKeepsCap | src/Components/User/Bodeguero/Productos/AgregarProductos.js:36-42 | capturing keeps at most three photos, and the photos already taken keep their place |
| ProductForm.FourthPhotoRefused | src/Components/User/Bodeguero/Productos/AgregarProductos.js:32-43 | four captures from none leave the first three photos and the cap message |
| ProductForm.SetInput | src/Components/User/Bodeguero/Productos/AgregarProductos.js:80-83 | an input change sets only the named field |
| ProductForm.StartScan | src/Components/User/Bodeguero/Productos/AgregarProductos.js:121-124 | the scan button clears the message and shows the reader, leaving the fields, the decoded text, the photo message and the camera |
| ProductForm.ActivateCamera | src/Components/User/Bodeguero/Productos/AgregarProductos.js:199 | the camera button turns the camera on and changes nothing else |
| ProductForm.ScanFillsRack | src/Components/User/Bodeguero/Productos/AgregarProductos.js:102-124 | pressing scan and then decoding a label fills the rack with the decoded text, hides the reader and shows no hint |
| ProductForm.CameraNeededForCapture | src/Components/User/Bodeguero/Productos/AgregarProductos.js:32-43 | a capture before the camera button takes nothing; after it, a capture below the cap appends the frame |
| ProductForm.OnQrResult | src/Components/User/Bodeguero/Productos/AgregarProductos.js:102-110 | a decoded text sets both the rack and the last text and stops scanning; a not-found error sets the hint; each is checked independently |
| ProductForm.Submit | src/Components/User/Bodeguero/Productos/AgregarProductos.js:45-78 | an incomplete form sets the message and writes nothing; a complete one writes every field; a completed write empties the fields and the decoded text |
| ProductForm.WrittenProductComplete | src/Components/User/Bodeguero/Productos/AgregarProductos.js:48-62 | every written product has one to three photos and a scanned rack |
| ProductForm.BlankSkuAccepted | src/Components/User/Bodeguero/Productos/AgregarProductos.js:48 | the check does not trim, so a whitespace-only SKU is accepted |
| ProductForm.TypingLeavesRack | src/Components/User/Bodeguero/Productos/AgregarProductos.js:80-83 | typing never changes the rack, which only a scan sets |
| ProductForm.PhotoCapInvariant | src/Components/User/Bodeguero/Productos/AgregarProductos.js:32-83 | every transition keeps at most three photos |
| AccountSettings.ProfileField | src/Components/all/Config.js:20-21 | the field's value when the profile has a non-empty one; the empty string when the profile is missing or the field is absent or empty |
| AccountSettings.Open | src/Components/all/Config.js:20-27 | the screen opens with empty password fields and with the profile's name and email, each falling back to the empty string when missing or empty |
| AccountSettings.DisplayRole | src/Components/all/Config.js:118 | the role shown is never empty: the stored role when it is non-empty, otherwise "No disponible", whether the profile or only its role is missing |
| AccountSettings.DisplayStore | src/Components/all/Config.js:131 | the store shown is never empty: the stored store when it is non-empty, otherwise "No disponible", whether the profile or only its store is missing |
| AccountSettings.KnownRoleDisplayed | src/Components/all/Config.js:118 | a profile with a known role shows that role's stored name |
| AccountSettings.SaveChanges | src/Components/all/Config.js:32-37 | saving stores nothing and only shows the success message |
| AccountSettings.SavedEditsDiscarded | src/Components/all/Config.js:20-37 | reopening the screen after a save shows the stored name, not the typed one |
| AccountSettings.FailureMessage | src/Components/all/Config.js:61-65 | the wrong-password message appears exactly for the wrong-password code, and the generic one for every other error |
| AccountSettings.ChangePassword | src/Components/all/Config.js:39-67 | a mismatch makes no service call; otherwise re-authentication comes first and the update runs only if it succeeds; success exactly when both succeed, then the three password fields are cleared; any failure leaves every field as typed and maps its code |
| AccountSettings.WrongCurrentPassword | src/Components/all/Config.js:47-65 | a wrong current password never reaches the update and leaves the fields as typed |
| AccountSettings.SuccessClearsFields | src/Components/all/Config.js:54-58 | after a successful change the password fields are empty, and name and email are unchanged |
| Text.BlankIffAllWhitespace | src/Components/User/Bodeguero/Racks/CrearRacks.js:81 | a string is empty after trimming exactly when every character is whitespace |
| Text.ContainsIffOccurs | src/Components/User/Bodeguero/Productos/VerProductos.js:51-52 | string `includes` holds exactly when the query occurs at some offset |
| Text.DecimalRoundTrip | src/Components/User/Bodeguero/Racks/CrearRacks.js:51 | reading back a rendered timestamp gives the timestamp |
| Text.Or | src/Components/User/Bodeguero/Racks/VerRacks.js:69-73 | `x || fallback` gives the value when it is a non-empty string, and the fallback when it is absent or empty |
| Seqs.FindBy | src/Components/User/Bodeguero/Productos/VerProductos.js:70 | `find` by key: absent exactly when no element has the key; otherwise the first element that has it |
| Seqs.IndexByAgreesWithFindBy | src/Components/User/Bodeguero/Productos/VerProductos.js:70-74 | a first-wins code index hits exactly when `find` does, and with the same record |
| Seqs.Slice | src/Components/ui/ResponsiveTable.js:10 | `slice` clamps both indices to the sequence and is empty when they cross |

## Left out

- The authentication context provider and the logged-in redirect guard
  are imported by src/App.js but are not part of this model. The role
  guard takes "loading", "signed in" and the profile's role as plain
  inputs. Screens behind the redirect guard are reported as such, with no
  decision.
- Storage and authentication calls are left out: the reads, `addDoc`,
  re-authentication, the password update and sign-out. Their outcomes are
  `Result`, `WriteOutcome` and `AuthOutcome` inputs, and no state outside
  the component is modelled.
- Route matching is exact string equality. The router's case-insensitive
  and trailing-slash matching is not modelled, because every link in the
  client uses the declared spelling.
- `Text.Lower` lower-cases ASCII letters only. Unicode case mapping is not
  modelled.
- The `orderBy("idTienda")` of the warehouse read is left out. The
  collection order is taken as given.
- Time and locale are not modelled. `Date.now()` and `new Date()` are
  `nat` parameters, and `toLocaleDateString` is a function parameter of
  `UserList.UserRow`.
- A field holding a non-string value (a number, a map) is not modelled.
  Fields are absent or strings, and creation dates are absent or numbers.
- A product without `sku` or `nombreProducto` would make the search throw.
  These two fields are plain strings in the model, so that case is outside
  it.
- RackList.LoadRacks: the warehouse collection is read once per rack that
  names a warehouse. All those reads share one outcome here, so a failure
  of only some of them is not distinguished.
- Dashboard.AllowedCards: the role-to-cards table is a plain object. A role
  string such as "constructor" would look up an inherited property rather
  than nothing; only absent and unknown roles are modelled.
- Webcam and QR decoding are left out. A screenshot and a decoded text are
  opaque strings, and a screenshot that comes back null is not
  distinguished from a real one.
- Toasts, console logging, loading spinners, the sidebar, dropdown and
  password-visibility toggles are left out. The model keeps only the
  messages that carry information: validation verdicts, password-change
  toasts, and the product form's two messages.
- The presentation components are not part of this model: the card and
  label components, the access-denied screen and the dashboard header,
  including its logout call.
- The user-creation form is pure sequencing of authentication and storage
  calls. Only its role options are used, as `Roles.Role`.
- The region and commune data file is not part of this model. It is the
  `regions` parameter of `StoreForm.Comunas`.
- AccountSettings.ChangePassword: a missing signed-in user, for which the
  credential call would throw before re-authentication, is not modelled.
- RackForm.SetInput, WarehouseForm.SetName, StoreForm.SetInput and
  ProductForm.SetInput: only the inputs that are wired to the handler are
  modelled. An arbitrary element id could add an unrelated key to the form
  object in JavaScript, and that is not modelled.
