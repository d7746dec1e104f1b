# ERP-VMS admin dashboard, modelled in Dafny

This project models the logic of the ERP-VMS web application, a React front end with three kinds of user: super admin, admin and client. It covers:

- **Role-based navigation.** The role is derived from `localStorage`. It selects the sidebar menu, the display role and the landing page after sign-in. The shell and sidebar keep their collapse and drawer state, and the route table maps paths to screens.
- **The client-only guard.** The client dashboard checks the session when it mounts.
- **The two form validators.** Sign-in/sign-up validation, and the sub-admin creation form with its image checks, request payload and server error message.
- **In-memory list CRUD.** Toggle, edit, upsert and delete by id on sub-admins, business modules, inventory items and warehouses. This includes the edit → cancel → add sequence that duplicates an id in the inventory and warehouse lists.
- **Filter, sort and aggregate pipelines.** Projects, sold products, customers, the super-admin user table, devices, products and subscription plans.

Each source file is one Dafny module. A few shared modules sit underneath them:

- `Options` and `Text` (`text.dfy`): trimming, ASCII lower-casing, substring search and integer rendering.
- `Seqs`: order-preserving filter, sums and map-where-selected, each with its lemmas.
- `Browser`: `localStorage` as a class over a map.
- `JsObjects`: plain objects with spread, upsert and delete by `id`.

Screens whose state the source changes in place are classes. Their fields are the component's state and their methods are its handlers. Each method's `ensures` states the new state in terms of a pure function. That function's properties are then proved as lemmas or as its own contract.

Browser inputs become parameters:

- the answer of `window.confirm` is a `bool`;
- `Date.now()` is a fresh-id parameter;
- the window width is an `int`;
- server replies are values of a reply datatype;
- dates are day numbers.

Where the screens' names, comments or UI text suggest one behaviour and the code does another, the model follows the code:

- **No route guard.** The route table mounts every screen for every session, whatever the role (src/Layout.jsx:82-103; `Layout.ScreenAt` takes no role). Only the client dashboard checks the session, and it does so itself (src/ClientDashboard/ClientDashboard.jsx:84-119, `ClientDashboard.CheckAuth`).
- **Token without a user record.** A sign-in token with no stored user record makes the sidebar derive the role `"admin"`, not a super-admin default (src/Sidebar/Sidebar.jsx:69-71, `Sidebar.TokenAloneShowsAdminMenu`).
- **Nothing stored.** With no user record and no token the role is `null`, and `null` selects the super-admin menu, so a signed-out visitor is offered it (src/Sidebar/Sidebar.jsx:72-74 and 150-152, `Sidebar.EmptyStorageShowsSuperAdminMenu`).
- **Unreadable user record.** The `catch` sets the role to `null`, which shows the super-admin menu. Nothing is removed from storage (src/Sidebar/Sidebar.jsx:76-79).
- **Logout.** It only removes storage keys and navigates. It does not touch the shell's drawer state (src/Sidebar/Sidebar.jsx:179-186).
- **Unrecognised role.** The menu selector's final branch returns an empty list, so such a role gets no menu at all (src/Sidebar/Sidebar.jsx:150-160, `Sidebar.MenuFor`).

## Model

| member | source | states |
|---|---|---|
| Browser.LocalStorage.SetItem | src/Sidebar/Sidebar.jsx:179-186 | storing a key changes that key only |
| Browser.LocalStorage.RemoveItem | src/Sidebar/Sidebar.jsx:180-184 | removing a key drops it and nothing else; removing a missing key changes nothing |
| Sidebar.MenuFor | src/Sidebar/Sidebar.jsx:150-160 | `null`/"superadmin" get the 3 super-admin entries, "admin" the 9 admin entries, "client" the 6 client entries; the menu is empty exactly for an unknown role; every entry returned lists the role in its `roles` field |
| Sidebar.AdminMenuPaths | src/Sidebar/Sidebar.jsx:123-136 | the admin menu's paths are the nine screens, in order |
| Sidebar.RoleFilterIsNoOp | src/Sidebar/Sidebar.jsx:116-160 | filtering the selected menu by its own `roles` field changes nothing, for every role |
| Sidebar.DisplayRole | src/Sidebar/Sidebar.jsx:220-226 | "admin" shows "Admin", "superadmin" and `null` show "Super Admin", "client" shows "Client"; any other role keeps its length, its first character is upper-cased and the rest is kept |
| Sidebar.RoleOf | src/Sidebar/Sidebar.jsx:55 | `user.role \|\| null` never yields an empty role name |
| Sidebar.DerivedRole | src/Sidebar/Sidebar.jsx:51-79 | a readable user record gives `user.role \|\| null`; with no record, "admin" if a token exists and `null` if not; an unreadable record gives `null`; the role is "admin" exactly when the record says so or there is only a token |
| Sidebar.TokenAloneShowsAdminMenu | src/Sidebar/Sidebar.jsx:69-71 | a token with no user record shows the admin menu |
| Sidebar.EmptyStorageShowsSuperAdminMenu | src/Sidebar/Sidebar.jsx:72-74 | with nothing stored the role is `null` and the super-admin menu is offered |
| Sidebar.MainContentMargin | src/Sidebar/Sidebar.jsx:100-113 | in all eight states the content margin equals the sidebar width of line 253 |
| Sidebar.SidebarWidth | src/Sidebar/Sidebar.jsx:253 | the panel is hidden exactly on a closed mobile drawer, 80px exactly when collapsed on desktop, 280px otherwise |
| Sidebar.DerivedImage | src/Sidebar/Sidebar.jsx:57-67 | without a readable user record the image is unchanged; it changes only to the user's own non-placeholder image or to the `userImage` entry |
| Sidebar.SidebarState.constructor | src/Sidebar/Sidebar.jsx:39-41 | expanded, no role, no image |
| Sidebar.SidebarState.LoadUserData | src/Sidebar/Sidebar.jsx:48-83 | the role becomes the derived role and the image the derived image; collapse state untouched |
| Sidebar.SidebarState.HandleResize | src/Sidebar/Sidebar.jsx:86-98 | on desktop a width above 1024 un-collapses the sidebar; otherwise nothing changes |
| Sidebar.SidebarState.HandleToggleSidebar | src/Sidebar/Sidebar.jsx:188-194 | on mobile with a close callback it only requests close; otherwise it flips `isCollapsed` |
| Sidebar.SidebarState.HandleMenuItemClick | src/Sidebar/Sidebar.jsx:167-177 | navigates to the path, requests close on mobile, and leaves a desktop sidebar expanded |
| Sidebar.SidebarState.HandleLogout | src/Sidebar/Sidebar.jsx:179-186 | removes exactly the five session keys (others, `refresh_token` included, survive) and goes to /login |
| Layout.LayoutState.constructor | src/Layout.jsx:24-38 | both flags start false, then the mount check sets `isMobile` from the width |
| Layout.LayoutState.CheckScreenSize | src/Layout.jsx:28-34 | `isMobile` iff width ≤ 1024; a desktop width closes the drawer, a mobile width leaves it |
| Layout.LayoutState.HandleToggleSidebar | src/Layout.jsx:41-43 | flips `isSidebarOpen` |
| Layout.LayoutState.HandleCloseSidebar | src/Layout.jsx:45-47 | sets `isSidebarOpen` false, whatever it was |
| Layout.TrimTrailingSlashes | src/Layout.jsx:82-103 | the result is a prefix of the path, no longer, not ending in "/", and only slashes were dropped |
| Layout.MatchForm | src/Layout.jsx:82-103 | a path not ending in "/" keeps its length, and every character after the first is lower-cased |
| Layout.Lookup | src/Layout.jsx:82-103 | a path finds a screen iff some route's path matches it up to letter case and trailing slashes, and the screen found is that of such a route |
| Layout.ScreenAt | src/Layout.jsx:82-103 | a path mounts a screen iff some route matches it, ignoring case and trailing slashes, and that route's screen; the role plays no part |
| Layout.LookupByForm | src/Layout.jsx:82-103 | two paths with the same match form find the same screen |
| Layout.FirstMatchWins | src/Layout.jsx:82-103 | the first matching route decides the screen |
| Layout.TrailingSlashIgnored | src/Layout.jsx:82-103 | `path + "/"` mounts the same screen as `path` |
| Layout.ProductsForm | src/Layout.jsx:94 | "/Products/" and "/products" have the same match form |
| Layout.CaseAndSlashIgnored | src/Layout.jsx:94 | "/Products/" mounts the products screen |
| Layout.RoutePathsDistinct | src/Layout.jsx:84-102 | no two routes share a path |
| Layout.RootIsSuperAdminDashboard | src/Layout.jsx:84-85 | "/" and "/superAdminDashboard" mount the super-admin dashboard |
| Layout.NotManageAdmins | src/Layout.jsx:84-102 | no route's path matches "/manageAdmins", in any case |
| Layout.ManageAdminsUnrouted | src/Layout.jsx:84-102 | "/manageAdmins" has no route |
| Layout.MenuPathsRouted | src/Layout.jsx:84-102 | for every role, a menu link has a route iff its path is not "/manageAdmins" |
| LoginSignup.ApplyInput | src/LoginSignup.jsx:57-63 | only the named field changes; a checkbox writes `checked`, any other input its text |
| LoginSignup.ValidateForm | src/LoginSignup.jsx:65-92 | an invalid verdict carries one of the five messages; it throws only when `username` (or, signing up, `name`) is not a string |
| LoginSignup.LoginValidIff | src/LoginSignup.jsx:65-92 | sign-in passes iff the username is not blank and the password not empty |
| LoginSignup.SignupValidIff | src/LoginSignup.jsx:65-92 | sign-up also needs a non-blank name and `password === confirmPassword` |
| LoginSignup.UsernameInvalidUnreachable | src/LoginSignup.jsx:71-79 | the "valid username" message can never be shown |
| LoginSignup.SignupWithoutNameThrows | src/LoginSignup.jsx:32-43 | the initial form has no `name`, so signing up before typing a name throws |
| LoginSignup.InitialLoginNeedsUsername | src/LoginSignup.jsx:32-43 | the untouched form fails on the username |
| LoginSignup.StoredUser | src/LoginSignup.jsx:133-136 | the stored user is the reply's user with a falsy role replaced by `null` |
| LoginSignup.LandingPath | src/LoginSignup.jsx:144-159 | "admin" → /adminDashboard, "client" → /clientDashboard, anything else → /superAdminDashboard |
| LoginSignup.StoreSession | src/LoginSignup.jsx:122-138 | each token is written only when truthy, the user only when present; every other key is untouched |
| LoginSignup.LoginErrorMessage | src/LoginSignup.jsx:171-175 | `detail`, else `message`, else "Login failed"; never empty |
| LoginSignup.SubmitOutcome | src/LoginSignup.jsx:94-179 | an invalid form is never sent and shows its validation message; a reply with a user navigates to `LandingPath` of its role, one without a user nowhere; a failure shows `LoginErrorMessage` of the detail and message |
| LoginSignup.SignedInRoleReachesSidebar | src/LoginSignup.jsx:154-158 | after sign-in the sidebar derives the reply's role; an unknown role lands on the super-admin page with an empty menu |
| LoginSignup.LoginPage.constructor | src/LoginSignup.jsx:26-43 | sign-in mode, not loading, the initial form |
| LoginSignup.LoginPage.HandleInputChange | src/LoginSignup.jsx:57-63 | the form becomes `ApplyInput` of the event |
| LoginSignup.LoginPage.ToggleMode | src/LoginSignup.jsx:183-185 | flips sign-in/sign-up and keeps the form |
| LoginSignup.LoginPage.HandleSubmit | src/LoginSignup.jsx:94-179 | an invalid form changes no storage; a valid one stores what the reply carries and ends not loading |
| LoginSignup.LoginPage.SendLogin | src/LoginSignup.jsx:101-175 | storage after the reply is `AfterReply`, the result `SubmitOutcome` |
| ClientDashboard.CheckAuth | src/ClientDashboard/ClientDashboard.jsx:84-119 | admits exactly a stored token plus a readable user whose role is "client"; otherwise "Please login first", "Access denied" or a silent redirect, by case |
| ClientDashboard.SignedInClientAdmitted | src/ClientDashboard/ClientDashboard.jsx:95-100 | signing in with a token passes the guard iff the user's role is "client" |
| ClientDashboard.GreetingName | src/ClientDashboard/ClientDashboard.jsx:219 | `first_name`, else `username`, else "Client"; never empty |
| ClientDashboard.AvatarInitial | src/ClientDashboard/ClientDashboard.jsx:592 | the avatar shows one character, "C" when there is no user |
| ClientDashboard.AvatarMatchesGreeting | src/ClientDashboard/ClientDashboard.jsx:592 | the avatar letter is the first letter of the greeting's name |
| ClientDashboard.ClientDashboardPage.constructor | src/ClientDashboard/ClientDashboard.jsx:49-58 | no user, loading, zero stats |
| ClientDashboard.ClientDashboardPage.RunCheckAuth | src/ClientDashboard/ClientDashboard.jsx:84-119 | only an admitted client sets the user, the fixed stats and clears `loading`; every redirect leaves the state as it was |
| CreateSubAdmin.SetFieldOnlyChangesThatField | src/AdminDashboard/CreateSubAdmin.jsx:183-190 | typing changes the named field and no other |
| CreateSubAdmin.WithError | src/AdminDashboard/CreateSubAdmin.jsx:192-195 | the key gets the message, every other key keeps its entry |
| CreateSubAdmin.SetField | src/AdminDashboard/CreateSubAdmin.jsx:183-190 | the named field reads back the typed text; the image and creator are kept |
| CreateSubAdmin.ClearError | src/AdminDashboard/CreateSubAdmin.jsx:192-195 | only the edited field's error is blanked, and only when one is shown |
| CreateSubAdmin.ImageProblem | src/AdminDashboard/CreateSubAdmin.jsx:157-165 | too large (checked first) or wrong type is refused; a file is accepted iff ≤ 5 MB and of an allowed type |
| CreateSubAdmin.UsernameRule | src/AdminDashboard/CreateSubAdmin.jsx:217-219 | "required" iff the username is blank |
| CreateSubAdmin.PasswordError | src/AdminDashboard/CreateSubAdmin.jsx:221-225 | "required" iff empty, "at least 6" iff 1–5 characters, none iff ≥ 6 |
| CreateSubAdmin.EmailRule | src/AdminDashboard/CreateSubAdmin.jsx:227-231 | "required" iff blank, "invalid" iff not blank and not matching `\S+@\S+\.\S+`, none otherwise |
| CreateSubAdmin.FirstNameRule | src/AdminDashboard/CreateSubAdmin.jsx:233-235 | "required" iff the first name is blank |
| CreateSubAdmin.LastNameRule | src/AdminDashboard/CreateSubAdmin.jsx:237-239 | "required" iff the last name is blank |
| CreateSubAdmin.RoleError | src/AdminDashboard/CreateSubAdmin.jsx:241-245 | "required" iff empty, "invalid" iff not one of the five options, none otherwise |
| CreateSubAdmin.Errors | src/AdminDashboard/CreateSubAdmin.jsx:214-248 | one entry per checked field; phone, address and image never get one |
| CreateSubAdmin.NoErrorsIffValid | src/AdminDashboard/CreateSubAdmin.jsx:214-248 | no errors iff every field rule holds |
| CreateSubAdmin.PhoneAndAddressUnchecked | src/AdminDashboard/CreateSubAdmin.jsx:214-248 | phone number and address never change the errors |
| CreateSubAdmin.FreshFormHasNoRoleError | src/AdminDashboard/CreateSubAdmin.jsx:30-34 | the default role is an option, so a fresh form has no role error |
| CreateSubAdmin.BuildPayload | src/AdminDashboard/CreateSubAdmin.jsx:353-364 | the payload copies the form, phone and address default to "", the image is "profile.png" |
| CreateSubAdmin.EntryParts | src/AdminDashboard/CreateSubAdmin.jsx:409-417 | one "field: …" part per error entry, in order |
| CreateSubAdmin.CollectEntryParts | src/AdminDashboard/CreateSubAdmin.jsx:409-417 | the loop collects exactly `EntryParts` |
| CreateSubAdmin.SetValue | src/AdminDashboard/CreateSubAdmin.jsx:413 | same length and keys; the value of every entry under the key is replaced and every other entry is kept |
| CreateSubAdmin.Parsed | src/AdminDashboard/CreateSubAdmin.jsx:413 | the parsed object has no repeated key, the same keys as the written body, and is empty iff the body is |
| CreateSubAdmin.LookupDistinct | src/AdminDashboard/CreateSubAdmin.jsx:413 | without repeated keys, a key finds the value at its place |
| CreateSubAdmin.LookupMissing | src/AdminDashboard/CreateSubAdmin.jsx:406-408 | a key no entry carries finds nothing |
| CreateSubAdmin.ParsedLookup | src/AdminDashboard/CreateSubAdmin.jsx:406-413 | parsing keeps, under each key, the value written last |
| CreateSubAdmin.ParsedDistinct | src/AdminDashboard/CreateSubAdmin.jsx:413 | a body without repeated keys parses to itself |
| CreateSubAdmin.FailureMessage | src/AdminDashboard/CreateSubAdmin.jsx:400-428 | `detail`, then `message`, each shown as `toast.error` renders it (an array's items run together), then the " \| "-joined field parts of the parsed object, then the no-response notice, then "Failed to create user" |
| CreateSubAdmin.RepeatedFieldShowsLastValue | src/AdminDashboard/CreateSubAdmin.jsx:413-421 | a field written twice is reported once, with its last value |
| CreateSubAdmin.ArrayDetailRunsTogether | src/AdminDashboard/CreateSubAdmin.jsx:406-407 | an array `detail` reaches the toast unjoined, its messages side by side |
| CreateSubAdmin.FieldErrorsReported | src/AdminDashboard/CreateSubAdmin.jsx:409-420 | a body with one field error reports that field's part |
| CreateSubAdmin.ToastsMatchErrors | src/AdminDashboard/CreateSubAdmin.jsx:343-348 | validation toasts something iff it failed, at most six messages, each the message of some field |
| CreateSubAdmin.ErrorToasts | src/AdminDashboard/CreateSubAdmin.jsx:343-348 | at most six toasts, none exactly when no checked field has an error |
| CreateSubAdmin.SubmitOutcome | src/AdminDashboard/CreateSubAdmin.jsx:340-432 | nothing is sent with errors or without an access token; otherwise the payload is built from the form and the reply decides |
| CreateSubAdmin.CreateSubAdminPage.constructor | src/AdminDashboard/CreateSubAdmin.jsx:57-68 | the fresh form, no errors, no picture |
| CreateSubAdmin.CreateSubAdminPage.HandleInputChange | src/AdminDashboard/CreateSubAdmin.jsx:183-196 | sets the field and clears only its error |
| CreateSubAdmin.CreateSubAdminPage.RemoveImage | src/AdminDashboard/CreateSubAdmin.jsx:143-151 | drops the picture and blanks the image error |
| CreateSubAdmin.CreateSubAdminPage.HandleImageUpload | src/AdminDashboard/CreateSubAdmin.jsx:154-180 | no file does nothing; a refused file only sets the image error; an accepted one becomes the picture and clears it |
| CreateSubAdmin.CreateSubAdminPage.ValidateForm | src/AdminDashboard/CreateSubAdmin.jsx:214-248 | the accumulated error object is `Errors` of the form |
| CreateSubAdmin.CreateSubAdminPage.HandleSubmit | src/AdminDashboard/CreateSubAdmin.jsx:340-432 | the result is `SubmitOutcome`; errors are shown only when validation fails; `success` only on creation |
| CreateSubAdmin.CreateSubAdminPage.Send | src/AdminDashboard/CreateSubAdmin.jsx:350-431 | after validation: no token sends nothing, otherwise the reply decides; `loading` ends false |
| CreateSubAdmin.CreateSubAdminPage.ResetForm | src/AdminDashboard/CreateSubAdmin.jsx:435-451 | back to the fresh form with no picture and no errors |
| CreateSubAdmin.CreateSubAdminPage.SuccessTimerFires | src/AdminDashboard/CreateSubAdmin.jsx:392-395 | the success state ends and the form is back to the fresh one |
| Projects.FilteredProjectsSpec | src/SuperAdminDashBoard/Projects.jsx:98-108 | a project is listed iff it matches the search and status, each match as often as in the list; the list is a subsequence, so the footer's X ≤ Y |
| Projects.FilteredProjects | src/SuperAdminDashBoard/Projects.jsx:98-108 | the filtered list is no longer than the list |
| Projects.EmptySearchListsAll | src/SuperAdminDashBoard/Projects.jsx:98-108 | an empty search with "All" lists every project, in order |
| Projects.CompareAntisymmetric | src/SuperAdminDashBoard/Projects.jsx:111-121 | the comparator is antisymmetric |
| Projects.CompareTransitive | src/SuperAdminDashBoard/Projects.jsx:111-121 | "not after" is transitive |
| Projects.Compare | src/SuperAdminDashBoard/Projects.jsx:114-120 | -1, 0 or 1; 0 for every pair with no key set; with a key (any of the six, the manager's name included), 0 iff both rows have the same key value, and negative iff the first row's key is smaller (ascending) or larger (descending) |
| Projects.Sort | src/SuperAdminDashBoard/Projects.jsx:111-121 | the sorted table is a permutation of its input |
| Projects.SortSpec | src/SuperAdminDashBoard/Projects.jsx:111-121 | the sorted table is ordered by the comparator and a permutation of the filtered list |
| Projects.UnsortedKeepsOrder | src/SuperAdminDashBoard/Projects.jsx:111-113 | with no sort key the table keeps the filtered order |
| Projects.AscendingMeansNonDecreasing | src/SuperAdminDashBoard/Projects.jsx:114-120 | ascending order on a key means no later row has a smaller key |
| Projects.NextSort | src/SuperAdminDashBoard/Projects.jsx:124-130 | the key becomes the clicked one; descending iff it was already ascending on that key |
| Projects.HeaderClicksAlternate | src/SuperAdminDashBoard/Projects.jsx:124-130 | repeated clicks on one header alternate direction |
| Projects.ProjectStats | src/SuperAdminDashBoard/Projects.jsx:228-230 | total is the length; active and completed are the numbers of projects with status "Active" and "Completed"; active + completed ≤ total |
| Projects.ActiveProjectIsCounted | src/SuperAdminDashBoard/Projects.jsx:229 | every copy of an "Active" project is counted on the active card |
| Projects.AfterDelete | src/SuperAdminDashBoard/Projects.jsx:145-149 | a confirmed delete keeps exactly the projects with another id, each as often as before, in order; a declined one keeps all |
| Projects.ProjectsPage.constructor | src/SuperAdminDashBoard/Projects.jsx:89-92 | the seeded list, empty search, "All", no sort key |
| Projects.ProjectsPage.Displayed | src/SuperAdminDashBoard/Projects.jsx:111-121 | the rows are a permutation of the filtered projects |
| Projects.EveryKeyHasAColumn | src/SuperAdminDashBoard/Projects.jsx:374-382 | each of the six sort keys, the manager's name included, has a header, and the last header, actions, is the only one that does not sort |
| Projects.ProjectsPage.SetSearchTerm | src/SuperAdminDashBoard/Projects.jsx:303 | the search box's text becomes the search term; nothing else changes |
| Projects.ProjectsPage.SetStatusFilter | src/SuperAdminDashBoard/Projects.jsx:329 | the selected status becomes the filter; nothing else changes |
| Projects.ProjectsPage.ClickHeader | src/SuperAdminDashBoard/Projects.jsx:374-395 | of the seven columns (six data columns, the manager's included, and actions), the actions column never sorts; a data column applies `NextSort` |
| Projects.ProjectsPage.HandleDelete | src/SuperAdminDashBoard/Projects.jsx:145-149 | the list becomes `AfterDelete` |
| SoldProducts.TabPayment | src/ClientDashboard/SoldProducts.jsx:222-228 | tabs 1–3 select a payment status, any other tab none |
| SoldProducts.GetFilteredProducts | src/ClientDashboard/SoldProducts.jsx:208-244 | the staged filter returns exactly the sales passing every active control, in original order |
| SoldProducts.FilteredSalesSpec | src/ClientDashboard/SoldProducts.jsx:208-244 | a sale is listed iff it passes every control, each as often as in the list; the list is a subsequence |
| SoldProducts.IdleControlsListAll | src/ClientDashboard/SoldProducts.jsx:208-244 | with every control idle all sales are listed |
| SoldProducts.HalfOpenRangeIgnored | src/ClientDashboard/SoldProducts.jsx:236-241 | a date range missing a bound filters nothing |
| SoldProducts.CalculateStats | src/ClientDashboard/SoldProducts.jsx:338-351 | totals are the sums of amount, commission and quantity; orders is the length; paid is the number of sales whose payment status is "paid", so paid ≤ orders |
| SoldProducts.PaidSaleIsCounted | src/ClientDashboard/SoldProducts.jsx:342 | every copy of a paid sale is counted among the paid ones |
| SoldProducts.PendingOrders | src/ClientDashboard/SoldProducts.jsx:432 | orders minus paid sales, never negative when paid ≤ orders |
| SoldProducts.PendingOrdersNonNegative | src/ClientDashboard/SoldProducts.jsx:432 | the pending count shown is never negative |
| SoldProducts.NetAmount | src/ClientDashboard/SoldProducts.jsx:758 | amount minus commission, between 0 and the amount while the commission is within the amount |
| SoldProducts.NetAmountsAddUp | src/ClientDashboard/SoldProducts.jsx:758 | the net amounts sum to total sales minus total commission |
| SoldProducts.SoldProductsPage.constructor | src/ClientDashboard/SoldProducts.jsx:61-74 | no sales, loading, no menu, no dialog |
| SoldProducts.SoldProductsPage.LoadSales | src/ClientDashboard/SoldProducts.jsx:192-198 | the list is loaded and `loading` cleared |
| SoldProducts.SoldProductsPage.HandleMenuOpen | src/ClientDashboard/SoldProducts.jsx:263-266 | the menu opens on the row |
| SoldProducts.SoldProductsPage.HandleMenuClose | src/ClientDashboard/SoldProducts.jsx:268-271 | the menu closes and the row is forgotten |
| SoldProducts.SoldProductsPage.HandleAction | src/ClientDashboard/SoldProducts.jsx:273-293 | with no row nothing happens; otherwise the named action runs on the row; the menu always closes |
| ManageCustomers.FilteredCustomers | src/ClientDashboard/ManageCustomers.jsx:137-141 | a customer is listed iff the term is in the name or email ignoring case, or verbatim in the phone; each match as often as in the list, order kept |
| ManageCustomers.EmptySearchListsAll | src/ClientDashboard/ManageCustomers.jsx:137-141 | an empty search lists every customer |
| ManageCustomers.PhoneSearchIsCaseSensitive | src/ClientDashboard/ManageCustomers.jsx:140 | the phone is matched without lowering case |
| ManageCustomers.CustomerStats | src/ClientDashboard/ManageCustomers.jsx:229-258 | total is the length; active is the number of customers with status "active" and at most the total; orders and revenue are the sums over all customers |
| ManageCustomers.ActiveCustomerIsCounted | src/ClientDashboard/ManageCustomers.jsx:239 | every copy of an "active" customer is counted on the active card |
| ManageCustomers.CardCountsAtLeastTheRows | src/ClientDashboard/ManageCustomers.jsx:229-234 | the total card is never below the number of rows listed |
| ManageCustomers.EditPath | src/ClientDashboard/ManageCustomers.jsx:152-154 | the edit path starts with "/client/customers/edit/" |
| ManageCustomers.EditPathNamesTheCustomer | src/ClientDashboard/ManageCustomers.jsx:153 | the id reads back from the edit path |
| ManageCustomers.AfterDelete | src/ClientDashboard/ManageCustomers.jsx:156-165 | a confirmed delete keeps exactly the other customers, each as often as before, in order; a declined one keeps all |
| ManageCustomers.ManageCustomersPage.constructor | src/ClientDashboard/ManageCustomers.jsx:52-59 | empty, loading, no search, closed snackbar |
| ManageCustomers.ManageCustomersPage.LoadCustomers | src/ClientDashboard/ManageCustomers.jsx:125-131 | the list is loaded and `loading` cleared |
| ManageCustomers.ManageCustomersPage.HandleSearch | src/ClientDashboard/ManageCustomers.jsx:133-135 | the text becomes the search term |
| ManageCustomers.ManageCustomersPage.Rows | src/ClientDashboard/ManageCustomers.jsx:137-141 | a customer is a row iff it matches the term |
| ManageCustomers.ManageCustomersPage.HandleDeleteCustomer | src/ClientDashboard/ManageCustomers.jsx:156-165 | the list becomes `AfterDelete`; only a confirmed delete opens the success snackbar |
| ManageCustomers.ManageCustomersPage.HandleMenuOpen | src/ClientDashboard/ManageCustomers.jsx:167-170 | the menu opens on the customer |
| ManageCustomers.ManageCustomersPage.HandleMenuClose | src/ClientDashboard/ManageCustomers.jsx:172-175 | the menu closes and the customer is forgotten |
| ManageCustomers.ManageCustomersPage.HandleAction | src/ClientDashboard/ManageCustomers.jsx:177-200 | at most one action runs on the selected customer; the menu always closes |
| SuperAdminDashboard.NeverMobileAndTablet | src/SuperAdminDashBoard/SuperAdminDashboard.jsx:15-18 | a width is never both mobile and tablet |
| SuperAdminDashboard.GridColumns | src/SuperAdminDashBoard/SuperAdminDashboard.jsx:164-168 | 1 column on mobile, 2 on tablet, 4 otherwise |
| SuperAdminDashboard.GridColumnsByWidth | src/SuperAdminDashBoard/SuperAdminDashboard.jsx:15-18 | one column up to 768, two up to 1024, four above |
| SuperAdminDashboard.BreakpointsDisagree | src/SuperAdminDashBoard/SuperAdminDashboard.jsx:16 | the layout (1024) and this page (768) disagree exactly on the tablet widths |
| SuperAdminDashboard.Viewport.constructor | src/SuperAdminDashBoard/SuperAdminDashboard.jsx:9-21 | the flags are set from the initial width |
| SuperAdminDashboard.Viewport.HandleResize | src/SuperAdminDashBoard/SuperAdminDashboard.jsx:15-18 | mobile iff ≤ 768, tablet iff 768 < width ≤ 1024, never both |
| SuperAdminDashboard.FilteredTableData | src/SuperAdminDashBoard/SuperAdminDashboard.jsx:38-42 | a row is listed iff the term is in its user, email or role ignoring case; a subsequence of at most 8 rows |
| SuperAdminDashboard.EmptySearchShowsAll | src/SuperAdminDashBoard/SuperAdminDashboard.jsx:38-42 | an empty search shows all eight rows in order |
| SuperAdminDashboard.RenderTable | src/SuperAdminDashBoard/SuperAdminDashboard.jsx:493-532 | the rows are exactly the filtered users when some match, otherwise "No users found" with the search term; the footer, shown with the rows, reads (matches, all users) |
| SuperAdminDashboard.FooterIffSomeMatch | src/SuperAdminDashBoard/SuperAdminDashboard.jsx:493-532 | the footer appears iff some user matches |
| SuperAdminDashboard.StatusBadge | src/SuperAdminDashBoard/SuperAdminDashboard.jsx:422-423 | the active style iff the status is "Active" |
| ManageSubAdmins.Toggled | src/AdminDashboard/ManageSubAdmins.jsx:16-24 | "active" becomes "inactive", anything else "active"; nothing else changes |
| ManageSubAdmins.WithStatusToggled | src/AdminDashboard/ManageSubAdmins.jsx:16-24 | only admins with that id change; length and order kept |
| ManageSubAdmins.ToggleTwiceRestores | src/AdminDashboard/ManageSubAdmins.jsx:16-24 | two clicks restore the list when the admins concerned are active or inactive |
| ManageSubAdmins.ToggleTwiceLosesOtherStatus | src/AdminDashboard/ManageSubAdmins.jsx:19-21 | for every list, an admin with the clicked id whose status is neither "active" nor "inactive" ends up "inactive" after two clicks, otherwise unchanged |
| ManageSubAdmins.AfterDelete | src/AdminDashboard/ManageSubAdmins.jsx:26-30 | a confirmed delete keeps exactly the other admins, each as often as before, in order; a declined one keeps all |
| ManageSubAdmins.Edited | src/AdminDashboard/ManageSubAdmins.jsx:37-46 | name and email come from the form; id, status and created are kept |
| ManageSubAdmins.WithEdits | src/AdminDashboard/ManageSubAdmins.jsx:37-46 | only the edited admin changes; length kept |
| ManageSubAdmins.SavingUnchangedDialogIsNoOp | src/AdminDashboard/ManageSubAdmins.jsx:32-46 | saving the dialog right after opening it changes nothing |
| ManageSubAdmins.StatusButton | src/AdminDashboard/ManageSubAdmins.jsx:154 | "Deactivate" iff the status is "active" |
| ManageSubAdmins.ManageSubAdminsPage.constructor | src/AdminDashboard/ManageSubAdmins.jsx:7-14 | the seeded list, no dialog, empty form |
| ManageSubAdmins.ManageSubAdminsPage.ToggleStatus | src/AdminDashboard/ManageSubAdmins.jsx:16-24 | the list becomes `WithStatusToggled` |
| ManageSubAdmins.ManageSubAdminsPage.DeleteSubAdmin | src/AdminDashboard/ManageSubAdmins.jsx:26-30 | the list becomes `AfterDelete` |
| ManageSubAdmins.ManageSubAdminsPage.OpenEdit | src/AdminDashboard/ManageSubAdmins.jsx:32-35 | only name and email go into the form |
| ManageSubAdmins.ManageSubAdminsPage.EditName | src/AdminDashboard/ManageSubAdmins.jsx:219 | only the form's name changes |
| ManageSubAdmins.ManageSubAdminsPage.EditEmail | src/AdminDashboard/ManageSubAdmins.jsx:234 | only the form's email changes |
| ManageSubAdmins.ManageSubAdminsPage.UpdateSubAdmin | src/AdminDashboard/ManageSubAdmins.jsx:37-46 | the edited admin takes the form and the dialog closes; with no admin it throws and changes nothing |
| ManageSubAdmins.ManageSubAdminsPage.Cancel | src/AdminDashboard/ManageSubAdmins.jsx:249 | the dialog closes; list and form untouched |
| BusinessModule.Merged | src/AdminDashboard/BusinessModule.jsx:19-22 | name and status come from the form; id and date kept |
| BusinessModule.AfterSave | src/AdminDashboard/BusinessModule.jsx:18-28 | editing a module with an id changes only that module, length kept; otherwise exactly one new module with the fresh id and today's date is appended |
| BusinessModule.AfterDelete | src/AdminDashboard/BusinessModule.jsx:33-37 | a confirmed delete keeps exactly the other modules, each as often as before, in order; a declined one keeps all |
| BusinessModule.AddThenDeleteRestores | src/AdminDashboard/BusinessModule.jsx:18-37 | adding under an unused id, then deleting it, gives the list back |
| BusinessModule.ConfigureButton | src/AdminDashboard/BusinessModule.jsx:158 | "Configure" iff active, otherwise "Activate" |
| BusinessModule.BusinessModulePage.constructor | src/AdminDashboard/BusinessModule.jsx:7-16 | the seeded list, no dialog, the blank form |
| BusinessModule.BusinessModulePage.Add | src/AdminDashboard/BusinessModule.jsx:53 | opens the dialog on `{}`, keeping the form |
| BusinessModule.BusinessModulePage.OpenEdit | src/AdminDashboard/BusinessModule.jsx:145-147 | the dialog opens on the module, its name and status in the form |
| BusinessModule.BusinessModulePage.EditName | src/AdminDashboard/BusinessModule.jsx:209 | only the form's name changes |
| BusinessModule.BusinessModulePage.EditStatus | src/AdminDashboard/BusinessModule.jsx:223 | only the form's status changes |
| BusinessModule.BusinessModulePage.Cancel | src/AdminDashboard/BusinessModule.jsx:241 | the dialog closes and the form is kept |
| BusinessModule.BusinessModulePage.SaveModule | src/AdminDashboard/BusinessModule.jsx:18-31 | the list becomes `AfterSave`; the dialog closes and the form is blank |
| BusinessModule.BusinessModulePage.DeleteModule | src/AdminDashboard/BusinessModule.jsx:33-37 | the list becomes `AfterDelete` |
| BusinessModule.CancelKeepsForm | src/AdminDashboard/BusinessModule.jsx:53 | open, cancel, Add: the new dialog is pre-filled with the module's fields |
| JsObjects.Spread | src/AdminDashboard/Inventory.jsx:22 | every key of either object, the second winning |
| JsObjects.Appended | src/AdminDashboard/Inventory.jsx:25 | the new object's id is the form's id when it has one, else the fresh one |
| JsObjects.Upsert | src/AdminDashboard/Inventory.jsx:19-26 | with a truthy edited id only matching objects change, length kept; otherwise exactly one object is appended |
| JsObjects.UpsertKeepsIds | src/AdminDashboard/Warehouse.jsx:57-68 | every object keeps an id after a save |
| JsObjects.StaleFormDuplicatesId | src/AdminDashboard/Inventory.jsx:25 | a form still holding an edited object's id appends a second object with that id |
| JsObjects.RemoveId | src/AdminDashboard/Inventory.jsx:31-35 | a confirmed delete keeps exactly the objects with another id, each as often as before (duplicates included), in order; a declined one keeps all |
| JsObjects.AddThenDeleteRestores | src/AdminDashboard/Inventory.jsx:19-35 | adding under an unused id, then deleting it, gives the list back |
| Inventory.NumericQuantityRule | src/AdminDashboard/Inventory.jsx:17 | a numeric quantity is low iff below 100 |
| Inventory.IsLowStock | src/AdminDashboard/Inventory.jsx:17 | a number is low iff below 100; a blank text reads as 0 and is low |
| Inventory.BlankQuantityIsLow | src/AdminDashboard/Inventory.jsx:17 | a blank quantity reads as 0 and is low |
| Inventory.NonNumericIsNotLow | src/AdminDashboard/Inventory.jsx:17 | every text that is not blank and does not read as a number is not low |
| Inventory.WordQuantitiesAreNotLow | src/AdminDashboard/Inventory.jsx:17 | "few" and "5 units" are not low |
| Inventory.TypedQuantityAgrees | src/AdminDashboard/Inventory.jsx:17 | typing a number's digits gives the same verdict as the number |
| Inventory.ParseDecimal | src/AdminDashboard/Inventory.jsx:17 | a string of digits reads as its value |
| Inventory.InventoryPage.constructor | src/AdminDashboard/Inventory.jsx:7-15 | the seeded list, no dialog, the empty form |
| Inventory.InventoryPage.Add | src/AdminDashboard/Inventory.jsx:51 | opens the dialog on `{}`, keeping the form |
| Inventory.InventoryPage.OpenEdit | src/AdminDashboard/Inventory.jsx:136-139 | the whole item, id included, becomes the form |
| Inventory.InventoryPage.Input | src/AdminDashboard/Inventory.jsx:199-204 | the field becomes text |
| Inventory.InventoryPage.Cancel | src/AdminDashboard/Inventory.jsx:219 | the dialog closes and the form is kept |
| Inventory.InventoryPage.SaveItem | src/AdminDashboard/Inventory.jsx:19-29 | the list becomes `Upsert`; the dialog closes and the form is empty |
| Inventory.InventoryPage.DeleteItem | src/AdminDashboard/Inventory.jsx:31-35 | the list becomes `RemoveId` |
| Inventory.EditCancelAddDuplicatesId | src/AdminDashboard/Inventory.jsx:19-29 | edit, cancel, Add, save leaves two items with id 1 |
| Warehouse.StatusColor | src/AdminDashboard/Warehouse.jsx:74-79 | active → primary, maintenance → amber, anything else → grey |
| Warehouse.SaveDoesNotValidate | src/AdminDashboard/Warehouse.jsx:57-72 | save spreads the form as it is, stock above capacity included |
| Warehouse.WarehousePage.constructor | src/AdminDashboard/Warehouse.jsx:7-39 | the seeded warehouse, no dialog, `emptyForm` |
| Warehouse.WarehousePage.Add | src/AdminDashboard/Warehouse.jsx:95 | opens the dialog on `{}`, keeping the form |
| Warehouse.WarehousePage.OpenEdit | src/AdminDashboard/Warehouse.jsx:52-55 | the whole warehouse, id included, becomes the form |
| Warehouse.WarehousePage.Input | src/AdminDashboard/Warehouse.jsx:221-239 | the field becomes text |
| Warehouse.WarehousePage.Cancel | src/AdminDashboard/Warehouse.jsx:250 | the dialog closes and the form is kept |
| Warehouse.WarehousePage.SaveWarehouse | src/AdminDashboard/Warehouse.jsx:57-72 | the list becomes `Upsert`; the dialog closes and the form is `emptyForm` |
| Warehouse.EditCancelAddDuplicatesId | src/AdminDashboard/Warehouse.jsx:52-72 | edit, cancel, Add, save leaves two warehouses with id 1 |
| DevicesCams.FilteredDevices | src/AdminDashboard/DevicesCams.jsx:17-20 | "All" is the list itself; any other type keeps exactly the devices of that type, each as often as before, in order |
| DevicesCams.SensorMatchesNoSeededDevice | src/AdminDashboard/DevicesCams.jsx:7-14 | "Sensor" is offered but matches no seeded device |
| DevicesCams.OtherTypesMatchSomeSeededDevice | src/AdminDashboard/DevicesCams.jsx:7-14 | every other offered type matches some device |
| DevicesCams.StatusColor | src/AdminDashboard/DevicesCams.jsx:22-26 | green iff online, red iff offline, amber otherwise |
| DevicesCams.Icon | src/AdminDashboard/DevicesCams.jsx:28-33 | one glyph each for Camera, Network, Server; the plug otherwise |
| DevicesCams.IpAddress | src/AdminDashboard/DevicesCams.jsx:188 | the address starts with "192.168.1." |
| DevicesCams.IpAddressEndsWithId | src/AdminDashboard/DevicesCams.jsx:188 | the id reads back from the address |
| DevicesCams.DevicesPage.constructor | src/AdminDashboard/DevicesCams.jsx:7-15 | the seeded devices, "All" selected |
| DevicesCams.DevicesPage.Shown | src/AdminDashboard/DevicesCams.jsx:17-20 | the cards are a subsequence of the devices |
| DevicesCams.DevicesPage.SelectType | src/AdminDashboard/DevicesCams.jsx:75 | the clicked type becomes the selection |
| Products.FilteredProducts | src/AdminDashboard/Products.jsx:16-19 | "All" is the list itself; any other category keeps exactly its products, each as often as before, in order |
| Products.AccessoriesMatchesNoSeededProduct | src/AdminDashboard/Products.jsx:7-13 | "Accessories" matches no seeded product |
| Products.StockLabel | src/AdminDashboard/Products.jsx:179-181 | "Out of stock" iff the status is "out_of_stock", otherwise "<stock> in stock" |
| Products.LabelFollowsStatusNotCount | src/AdminDashboard/Products.jsx:179-181 | a zero stock can read "0 in stock" and a positive one "Out of stock" |
| Products.ProductsPage.constructor | src/AdminDashboard/Products.jsx:7-14 | the seeded products, "All" selected |
| Products.ProductsPage.Shown | src/AdminDashboard/Products.jsx:16-19 | the cards are a subsequence of the products |
| Products.ProductsPage.SelectCategory | src/AdminDashboard/Products.jsx:61 | the clicked category becomes the selection |
| Subscription.ShownPlans | src/AdminDashboard/Subscription.jsx:111-112 | a plan is shown iff its name contains the billing type, case-sensitively; order kept |
| Subscription.DefaultTabShowsMonthlyPlans | src/AdminDashboard/Subscription.jsx:6-13 | the default "Monthly" tab shows the two monthly plans |
| Subscription.Features | src/AdminDashboard/Subscription.jsx:157-162 | three fixed lines, plus "Premium Features" iff the name contains "Pro": four lines for a "Pro" plan, three otherwise |
| Subscription.StatusColor | src/AdminDashboard/Subscription.jsx:15-16 | green iff "active", red otherwise |
| Subscription.SubscriptionPage.constructor | src/AdminDashboard/Subscription.jsx:6-13 | "Monthly" and the seeded plans |
| Subscription.SubscriptionPage.Shown | src/AdminDashboard/Subscription.jsx:111-112 | the cards are a subsequence of the plans |
| Subscription.SubscriptionPage.ClickTab | src/AdminDashboard/Subscription.jsx:78-81 | the clicked tab becomes the billing type |

## Left out

- **Network requests.** The login and sub-admin requests are not modelled. Their outcomes (a reply or a failure shape) are parameters of the submit handlers.
- **Toasts and other effects.** The `setTimeout` delays are not modelled: the sub-admin success timer is a method the caller invokes (`SuccessTimerFires`), and the delays before navigation are returned effect values. `window.print`, and `mailto:`/`tel:` navigation appear only as returned effect values or messages. `console` logging is omitted.
- **Picture preview.** The `FileReader` preview in the sub-admin form is not modelled; the picture is its size and MIME type.
- **Dates.** JavaScript `Date` parsing and time zones are not modelled. Sale dates and range bounds are integer day numbers, and a business module's date is the text the page stores, passed in as `today`.
- **Text handling.** `toLowerCase` and `toUpperCase` are ASCII-only, and strings are sequences of characters, not UTF-16 code units.
- **Stored JSON.** A stored user record is either a readable record or a value whose fields cannot be read. JSON texts that parse to a number, string or array are not distinguished.
- **Spread of extra user fields.** The sign-in reply's user is modelled with the fields the views read, so other fields it carries (spread by `...user`) are not represented.
- **Sample-data loading.** The delayed loading of sample data is a method taking the list (`LoadSales`, `LoadCustomers`).
- **Sold-products filter controls.** The search box, tabs, status select and date pickers are plain setters and are not fields of `SoldProductsPage`. `GetFilteredProducts` takes their values as parameters.
- **Presentation.** Styling, themes, the colour arithmetic of the button helpers, CSS animations and random background particles are not modelled. The drawer's margin is modelled only as a number of pixels.
- **Number and date formatting.** `Intl.NumberFormat`, `toLocaleDateString` and `toFixed` are not modelled.
- **Dead code.** The commented-out multipart submit of the sub-admin form is not modelled.
- **Screens with no operations.** The Clients, Payments and Invoices screens hold only static data and colour lookups, and are not modelled.
- **Warehouse delete.** The warehouse card's Delete button has no handler, so there is no delete operation to model.
- **Sidebar `getUserInfo`.** This name/role/image lookup for the profile block is presentation only and is not modelled.
- **React runtime.** Re-rendering, effect scheduling and the resize listener's registration and removal are not modelled; a resize is a method call with the width.
- **Product prices.** Prices are whole cents; only the stock label and category are used.
- Layout.ScreenAt: paths are compared as React Router v6 compares them up to letter case (ASCII only) and trailing slashes; percent-decoding, repeated inner slashes and the `basename` are not modelled.
- CreateSubAdmin.FailureMessage: the field parts follow the order the body writes its members in (first occurrence); JavaScript's `Object.entries` lists integer-like keys first, in ascending order, and that reordering is not modelled.
- Inventory.IsLowStock: `Number()` is modelled for decimal numerals (sign, digits, one optional fraction), blanks and numbers. Exponent forms, hex/octal/binary prefixes and `Infinity` are read as NaN, so for those texts the verdict may differ from JavaScript's.
