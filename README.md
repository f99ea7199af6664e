# A verified model of a logistics back office

The system is a back-office web application for a logistics company. Staff
use it to record transport jobs and follow each job through a nine-step
tracking workflow with photo attachments. They also bill delivered jobs and
take payments, keep master data (vehicles, drivers, customers, rates, parts
and routes), bulk-import master data from files and export it as CSV. A
server-side function clears out expired photos. This project models the
application's logic in Dafny and proves what each part promises. Every
Dafny module corresponds to one source component:

- **Tracking** (`tracking.dfy`) models the tracking detail page as one
  class. The class holds the job, its events, its photos, the storage
  bucket, the deletion log and a journal of writes. It covers:
  - the nine-step catalog and the done, current and pending projection of
    the job's current step;
  - advancing the status, which stamps every photo with a retention date
    on the first arrival at `payment-received`;
  - the per-file upload loop;
  - deleting a photo by hand.
- **Invoicing** (`invoicing.dfy`) models the invoice ledger as one class
  over the jobs, invoices, invoice items and payments collections. It
  covers:
  - creating an invoice from the ticked delivered jobs;
  - recording a payment, with its guards, its status change and the
    cascade to the jobs;
  - the reconciliation invariant: an invoice's paid amount is the sum of
    its payments.
- **ImportValidation** and **ValidationMessages** (`import_validation.dfy`,
  `messages.dfy`) model the validation preview: the per-entity record
  validator, the status derived from issues, cell edits, deletion, the
  filter and the tallies.
- **BulkImport** (`bulk_import.dfy`) models the import dialog: the file
  acceptance rule, the truncated content, the temporary ids and the import
  loop over the key-value store.
- **Csv** and **Templates** (`csv_export.dfy`, `templates.dfy`) model cell
  escaping, the CSV layout, the six import templates and the export row
  builders. A reader for the same dialect is the writer's partner: an
  exported file reads back as its header and rows.
- **JobStore** (`job_store.dfy`) models the data-access layer: the next job
  number of the year, time-stamp conversion on read, the vehicle query
  constraints, the job filters and the date conversion on update.
- **AppShell**, **Navigation** and **MasterDataPage** (`app_shell.dfy`,
  `navigation.dfy`, `master_data_page.dfy`) model hash routing, the page
  dispatch, the per-role side menu and the master-data tab taken from the
  hash.
- **Dashboard**, **JobsPage**, **TrackingList**, **InvoiceList**,
  **MasterTabs**, **RoutesTab** and **UsersTab** model the list pages and
  the dashboard. They cover role guards, search and status filters, page
  slices, the tallies and the in-place sort of the recent jobs.
- **StorageCleanup** (`storage_cleanup.dfy`) models the expiry trigger, the
  daily orphan sweep, the manual test call and the deletion statistics.
  Their in-memory stores stand for the photo documents, the bucket and the
  two log collections.

The code shared by these modules lives in six more:

- **Base** holds the Option type.
- **Text** holds the JavaScript string behaviour the code relies on:
  `includes`, `trim`, `split`, `padStart`, `parseInt`, the string order, and
  the e-mail and phone patterns as character predicates.
- **Seqs** holds `filter`, count and sum, with their lemmas.
- **Paging** holds the page count, the page slice and the pagination bar.
- **Domain** holds the stored record types.
- **ValidationMessages** holds the validator's texts.

Where a component changes stored state step by step, the model is a
`class` with `modifies` clauses. Its methods are proved against
specification functions. Selectors, filters and formatters are functions,
and lemmas state their properties.

## Model

| member | source | states |
|---|---|---|
| AppShell.InitialPath | src/App.tsx:21-24 | The start-up path is never empty: the hash without its `#`, or `/dashboard` when that leaves nothing. |
| AppShell.NavigateSurvivesReload | src/App.tsx:21-29 | Navigating to a non-empty path sets the shown path to it, and a fresh start from the hash it wrote comes back to exactly the same shell state. |
| AppShell.EmptyHashStartsOnDashboard | src/App.tsx:22 | With no hash or the bare `#`, the shell starts on `/dashboard`. |
| AppShell.DetailJobId | src/App.tsx:53-55 | For a path under `/tracking/` the third `/`-piece exists and is the first piece of what follows `/tracking/`. |
| AppShell.TrackingSegments | src/App.tsx:54 | A path under `/tracking/` splits into at least three pieces, the third being the first piece after the prefix. |
| AppShell.SegmentsAfter | src/App.tsx:54 | The third `/`-piece of `/<seg>/<rest>` (with no `/` in `seg`) is the first piece of `rest`. |
| AppShell.ShowSpec | src/App.tsx:31-46 | The spinner shows exactly while loading, the login form exactly when loaded without a user, and a signed-in user sees the page the path renders. |
| AppShell.MasterDataFirst | src/App.tsx:49-51 | The master-data page is shown exactly for the paths that start with `/master-data`, whatever follows. |
| AppShell.TrackingDetailOf | src/App.tsx:53-56 | `/tracking/<id>` followed by nothing or by further segments shows the detail page of `<id>`, including the empty id of `/tracking/`. |
| AppShell.TrackingListPath | src/App.tsx:63-64 | The bare `/tracking` path shows the tracking list, not a detail page. |
| AppShell.AdminPageOnlyForAdmins | src/App.tsx:71-76 | The settings page is shown exactly for `/admin` and an administrator; any other role asking for `/admin` gets the dashboard. |
| AppShell.UnknownPathShowsDashboard | src/App.tsx:58-79 | A path outside the two prefixes and the switch's names shows the dashboard. |
| AppShell.MenuPathsShowTheirPages | src/App.tsx:58-76 | For an administrator, each of the eight menu items' paths shows that item's own page. |
| Navigation.NavigationItems | src/lib/navigation.ts:16-81 | The menu has eight items; the first seven are for every role and the last, `admin`, for administrators only. |
| Navigation.NavigationForRoleSpec | src/lib/navigation.ts:83-85 | A role's menu holds exactly the items whose roles include it, in declaration order. |
| Navigation.AdminSeesEverything | src/lib/navigation.ts:13-85 | An administrator's menu is the whole list of eight items. |
| Navigation.OthersSeeAllButAdmin | src/lib/navigation.ts:73-85 | Every other role's menu is the first seven items, none of them the settings entry. |
| Navigation.KeysDistinct | src/lib/navigation.ts:16-81 | No two menu items share a key. |
| Navigation.PathsDistinct | src/lib/navigation.ts:16-81 | No two menu items share a path. |
| MasterDataPage.InitialTab | src/components/pages/masterdata/MasterDataPage.tsx:14-17 | The tab read from the hash is never empty and holds no `/`: the third segment, or `vehicles`. |
| MasterDataPage.TabChangeSurvivesReload | src/components/pages/masterdata/MasterDataPage.tsx:19-22 | After a tab change to a plain name, a reload reads the same tab back and the shell shows the master-data page again. |
| MasterDataPage.TabHashSegments | src/components/pages/masterdata/MasterDataPage.tsx:21 | The hash a tab change writes splits into `#`, `master-data` and the tab, and the shell's path is `/master-data/<tab>`. |
| MasterDataPage.KnownTabsSurviveReload | src/components/pages/masterdata/MasterDataPage.tsx:34-40 | Each of the five tab-bar tabs survives a reload. |
| MasterDataPage.BareHashShowsVehicles | src/components/pages/masterdata/MasterDataPage.tsx:15 | The menu entry `/master-data`, or `/master-data/`, opens the vehicles tab. |
| MasterDataPage.TabPathShowsMasterData | src/App.tsx:49-51 | Every tab path under `/master-data` shows the master-data page, for every role. |
| Paging.TotalPages | src/components/pages/shared/DataTablePagination.tsx:19 | The page count is the least number of pages of the given size that holds every row. |
| Paging.PageSliceIs | src/components/pages/jobs/JobsPage.tsx:120-123 | Page `p` (from one) is the run of rows from `(p - 1) * size` on, clamped to the list, and holds at most `size` rows. |
| Paging.PagesPrefix | src/components/pages/jobs/JobsPage.tsx:120-123 | The first `k` pages laid end to end are the first `k * size` rows (or the whole list). |
| Paging.PagesCoverAll | src/components/pages/jobs/JobsPage.tsx:119-123 | The pages from the first to the last give back the whole list, so every row is on exactly one page. |
| Paging.PageEmptiness | src/components/pages/jobs/JobsPage.tsx:119-123 | A page is empty exactly when its number is past the page count. |
| Paging.StartPastEnd | src/components/pages/jobs/JobsPage.tsx:119-123 | A page starts at or beyond the end of the list exactly when its number is past the page count. |
| Paging.BarRequestsStayInRange | src/components/pages/shared/DataTablePagination.tsx:21-43 | From a page in range, an enabled Previous or Next button asks for a page that is in range too. |
| Paging.BarShownRule | src/components/pages/shared/DataTablePagination.tsx:19-21 | The pagination bar is shown exactly when the rows do not fit on one page. |
| JobsPage.PermissionRoles | src/components/pages/jobs/JobsPage.tsx:35-39 | Every role but finance may write, only an administrator may delete, every deleter may write, and no one signed out may do either. |
| JobsPage.HandleDeleteSpec | src/components/pages/jobs/JobsPage.tsx:83-99 | A delete happens exactly for a confirmed request by an administrator; otherwise the list stays as it was; after it, a job is listed exactly when it was before and has another id. |
| JobsPage.CustomerNameForSpec | src/components/pages/jobs/JobsPage.tsx:56-59 | The name filled in is the first customer's with the job's customer id. |
| JobsPage.NoCustomerNoName | src/components/pages/jobs/JobsPage.tsx:59 | With no customer of that id, the name is the empty string. |
| JobsPage.WithCustomerNamesSpec | src/components/pages/jobs/JobsPage.tsx:55-61 | Filling in names keeps every job in order and changes only each job's customer name. |
| JobsPage.WithCustomerNamesIdempotent | src/components/pages/jobs/JobsPage.tsx:55-61 | Filling in names a second time changes nothing. |
| JobsPage.FilteredJobsSpec | src/components/pages/jobs/JobsPage.tsx:106-117 | A job is listed exactly when it matches the search (number or customer name, ignoring case) and the status and customer filters, in loaded order. |
| JobsPage.NoFilterListsAll | src/components/pages/jobs/JobsPage.tsx:106-117 | An empty search with both filters on `all` lists every job. |
| JobsPage.PaginatedJobsSpec | src/components/pages/jobs/JobsPage.tsx:119-123 | A page shows at most twenty consecutive rows of the filtered list, the page count covers every row, and a page is empty exactly when it is past the count. |
| UsersTab.ToggleActiveSpec | src/components/pages/admin/UserManagementTab.tsx:95-101 | Toggling keeps the list's length and flips only the `active` flag of the users with the id; every other user is unchanged. |
| UsersTab.ToggleTwice | src/components/pages/admin/UserManagementTab.tsx:95-101 | Toggling the same id twice gives the list back. |
| UsersTab.ValidateSpec | src/components/pages/admin/UserManagementTab.tsx:115-124 | A form is accepted exactly when the name is filled in and the e-mail matches `^[^\s@]+@[^\s@]+\.[^\s@]+$`. |
| UsersTab.EditUsersSpec | src/components/pages/admin/UserManagementTab.tsx:126-138 | An edit keeps length and order; an edited user takes the form's name, e-mail and role and keeps its id, flag and timestamps; others are unchanged. |
| UsersTab.EditCommutesWithToggle | src/components/pages/admin/UserManagementTab.tsx:95-138 | Editing and toggling commute, since an edit never touches the `active` flag. |
| UsersTab.FilteredUsersSpec | src/components/pages/admin/UserManagementTab.tsx:157-167 | A user is listed exactly when the search (name or e-mail, ignoring case), the role filter and the status filter all pass, in stored order. |
| UsersTab.StatusFiltersPartition | src/components/pages/admin/UserManagementTab.tsx:162-165 | The `active` and `inactive` lists together have as many users as the `all` list. |
| UsersTab.PartitionCounts | src/components/pages/admin/UserManagementTab.tsx:162-165 | The status split of the counts, by induction over the users. |
| UsersTab.UsersPage.constructor | src/components/pages/admin/UserManagementTab.tsx:56-69 | The tab starts with the stored users, no pending edit or toggle, the empty form and both dialogs closed. |
| UsersTab.UsersPage.Edit | src/components/pages/admin/UserManagementTab.tsx:80-88 | Editing remembers the user, fills the form from it and opens the dialog; the users and the toggle state are unchanged. |
| UsersTab.UsersPage.AskToggle | src/components/pages/admin/UserManagementTab.tsx:90-93 | Asking to toggle remembers the user and opens the confirmation; nothing else changes. |
| UsersTab.UsersPage.ConfirmToggle | src/components/pages/admin/UserManagementTab.tsx:95-110 | With a pending user, its flag is flipped by id and the confirmation closes; with none, nothing changes. |
| UsersTab.UsersPage.Submit | src/components/pages/admin/UserManagementTab.tsx:112-155 | A rejected form changes nothing and reports its error; an accepted one edits the user being edited or appends an active new user, then resets and closes the form. |
| RoutesTab.ValidateSpec | src/components/pages/masterdata/RoutesTab.tsx:122-138 | A form is accepted exactly when the three names are filled in and both numbers parse and are positive; a missing name is reported first. |
| RoutesTab.EditFormOfValidRoute | src/components/pages/masterdata/RoutesTab.tsx:91-103 | The form filled from a route with filled names and positive numbers passes the checks again. |
| RoutesTab.NewRouteSpec | src/components/pages/masterdata/RoutesTab.tsx:160-170 | A new route carries the form's values, the given id and creation time, and no update time. |
| RoutesTab.EditRoutesSpec | src/components/pages/masterdata/RoutesTab.tsx:140-157 | An edit keeps length and order; an edited route takes the form's fields and the update time and keeps its id and creation time; others are unchanged. |
| RoutesTab.EditRoutesIdempotent | src/components/pages/masterdata/RoutesTab.tsx:140-157 | Saving the same form twice gives what saving it once gives. |
| RoutesTab.DeleteRoutesSpec | src/components/pages/masterdata/RoutesTab.tsx:110-117 | Deleting keeps exactly the routes with another id, in order. |
| RoutesTab.DeleteUndoesAdd | src/components/pages/masterdata/RoutesTab.tsx:110-171 | Deleting a freshly added route's id gives what deleting it before the add gives, which is the old list when the id was new. |
| RoutesTab.FilteredRoutesSpec | src/components/pages/masterdata/RoutesTab.tsx:179-186 | A route is listed exactly when its name, origin or destination contains the search (ignoring case) and the status filter passes, in stored order. |
| RoutesTab.NoFilterListsAll | src/components/pages/masterdata/RoutesTab.tsx:179-186 | An empty search with the status filter on `all` lists every route. |
| RoutesTab.RoutesPage.constructor | src/components/pages/masterdata/RoutesTab.tsx:60-76 | The tab starts with the stored routes, no pending edit or delete, the empty form and both dialogs closed. |
| RoutesTab.RoutesPage.Edit | src/components/pages/masterdata/RoutesTab.tsx:91-103 | Editing remembers the route, fills the form from it and opens the dialog; the routes and the delete state are unchanged. |
| RoutesTab.RoutesPage.AskDelete | src/components/pages/masterdata/RoutesTab.tsx:105-108 | Asking to delete remembers the id and opens the confirmation; nothing else changes. |
| RoutesTab.RoutesPage.ConfirmDelete | src/components/pages/masterdata/RoutesTab.tsx:110-117 | With a non-empty pending id, the routes with that id go and the confirmation closes; otherwise nothing changes. |
| RoutesTab.RoutesPage.Submit | src/components/pages/masterdata/RoutesTab.tsx:119-177 | A rejected form changes nothing and reports its error; an accepted one edits the route being edited or appends a new one, then resets and closes the form. |
| MasterTabs.FilteredVehiclesSpec | src/components/pages/masterdata/VehiclesTab.tsx:66-89 | A vehicle is listed exactly when the search (head plate, tail plate or type, ignoring case), the brand filter and the status filter accept it, each only when set, in loaded order. |
| MasterTabs.NoVehicleFilterListsAll | src/components/pages/masterdata/VehiclesTab.tsx:66-89 | With no search and both filters on `all`, every vehicle is listed. |
| MasterTabs.ToggledStatusSpec | src/components/pages/masterdata/VehiclesTab.tsx:118-119 | An active vehicle becomes inactive and any other one active, so a vehicle in maintenance goes back in service; two toggles always land on `active` or `inactive`. |
| MasterTabs.SetStatusSpec | src/components/pages/masterdata/VehiclesTab.tsx:120-121 | The status update changes only the status of the vehicles with that id. |
| MasterTabs.VehicleStages | src/components/pages/masterdata/VehiclesTab.tsx:66-86 | The three filter steps, each taken only when its filter is set, give the one combined filter. |
| MasterTabs.VehiclesPage.constructor | src/components/pages/masterdata/VehiclesTab.tsx:32-41 | The tab starts with the loaded vehicles all listed, no search, both filters on `all`, page one and no dialog. |
| MasterTabs.VehiclesPage.ApplyFilters | src/components/pages/masterdata/VehiclesTab.tsx:49-89 | The filter step lists exactly the vehicles the filters accept and goes back to page one; nothing else changes. |
| MasterTabs.VehiclesPage.Edit | src/components/pages/masterdata/VehiclesTab.tsx:96-103 | Editing is allowed exactly for administrators and managers; then the vehicle is remembered and the dialog opens, otherwise nothing changes. |
| MasterTabs.VehiclesPage.StatusToggle | src/components/pages/masterdata/VehiclesTab.tsx:111-127 | Toggling is allowed exactly for administrators and managers; then the vehicle's stored status flips and the list is filtered again from page one, otherwise nothing changes. |
| MasterTabs.FilteredDriversSpec | src/components/pages/masterdata/DriversTab.tsx:74-93 | A driver is listed exactly when the search (name, licence or phone) and the status filter accept it, each only when set, in loaded order. |
| MasterTabs.VehiclePlateSpec | src/components/pages/masterdata/DriversTab.tsx:103-106 | A driver's vehicle plate is the head plate of the first vehicle with the assigned id. |
| MasterTabs.NoVehicleDash | src/components/pages/masterdata/DriversTab.tsx:105 | With no vehicle of that id the plate shows as `-`. |
| MasterTabs.DriverStages | src/components/pages/masterdata/DriversTab.tsx:74-90 | The two filter steps, each taken only when set, give the one combined filter. |
| MasterTabs.DriversPage.constructor | src/components/pages/masterdata/DriversTab.tsx:38-45 | The tab starts with the loaded drivers all listed, no search, the status filter on `all` and page one. |
| MasterTabs.DriversPage.ApplyFilters | src/components/pages/masterdata/DriversTab.tsx:53-93 | The filter step lists exactly the drivers the filters accept and goes back to page one. |
| MasterTabs.FilteredCustomersSpec | src/components/pages/masterdata/CustomersTab.tsx:61-77 | A customer is listed exactly when there is no search or its name, contact, phone or e-mail holds it; no search lists all. |
| MasterTabs.CustomersPage.constructor | src/components/pages/masterdata/CustomersTab.tsx:31-36 | The tab starts with the loaded customers all listed, no search and page one. |
| MasterTabs.CustomersPage.ApplyFilters | src/components/pages/masterdata/CustomersTab.tsx:44-77 | The filter step lists exactly the customers the search accepts and goes back to page one. |
| MasterTabs.FilteredRatesSpec | src/components/pages/masterdata/RatesTab.tsx:61-76 | A rate is listed exactly when there is no search or its origin, destination or vehicle type holds it; no search lists all. |
| MasterTabs.RatesPage.constructor | src/components/pages/masterdata/RatesTab.tsx:31-35 | The tab starts with the loaded rates all listed, no search and page one. |
| MasterTabs.RatesPage.ApplyFilters | src/components/pages/masterdata/RatesTab.tsx:44-76 | The filter step lists exactly the rates the search accepts and goes back to page one. |
| MasterTabs.FilteredPartsSpec | src/components/pages/masterdata/PartsTab.tsx:60-76 | A part is listed exactly when there is no search or its name, category, unit or description holds it; no search lists all. |
| MasterTabs.PartsPage.constructor | src/components/pages/masterdata/PartsTab.tsx:30-34 | The tab starts with the loaded parts all listed, no search and page one. |
| MasterTabs.PartsPage.ApplyFilters | src/components/pages/masterdata/PartsTab.tsx:43-76 | The filter step lists exactly the parts the search accepts and goes back to page one. |
| MasterTabs.FirstPageAfterFilter | src/components/pages/masterdata/DriversTab.tsx:108-111 | After a filter run a tab shows the first twenty filtered rows, or all of them when there are fewer. |
| TrackingList.FilteredJobsSpec | src/components/pages/tracking/TrackingPage.tsx:91-100 | A job is listed exactly when it matches the search (number or customer name, ignoring case), the step filter and the vehicle filter, in loaded order. |
| TrackingList.NoFilterListsAll | src/components/pages/tracking/TrackingPage.tsx:91-100 | An empty search with both filters on `all` lists every job. |
| TrackingList.UnsetShowsCreatedButIsFilteredOut | src/components/pages/tracking/TrackingPage.tsx:96-177 | A job whose current step is unset wears a `created` badge, yet the `created` step filter leaves it out. |
| TrackingList.SetCreatedIsFilteredIn | src/components/pages/tracking/TrackingPage.tsx:96-177 | A job whose current step is `created` is both shown and filtered as `created`. |
| TrackingList.BadgeColorTable | src/components/pages/tracking/TrackingPage.tsx:62-85 | Each step's name gets that step's colour and any other text gets gray. |
| TrackingList.SharedBadgeColors | src/components/pages/tracking/TrackingPage.tsx:62-85 | Two different steps share a colour only for `pickup-scheduled` and `invoiced`. |
| Tracking.CatalogShape | src/components/pages/tracking/TrackingDetailPage.tsx:31-41 | The catalog is the nine steps from `created` to `payment-received`, numbered 1 to 9 in order, each step once. |
| Tracking.FindNumber | src/components/pages/tracking/TrackingDetailPage.tsx:134 | The catalog search returns a number only for an entry of that step, and none exactly when no entry has the step. |
| Tracking.StepNumberIsPosition | src/components/pages/tracking/TrackingDetailPage.tsx:134 | Every step's number is between 1 and 9 and is its position in the catalog. |
| Tracking.FindNumberFirst | src/components/pages/tracking/TrackingDetailPage.tsx:134 | The catalog search returns the number of the first entry of the step. |
| Tracking.StepStatusPartition | src/components/pages/tracking/TrackingDetailPage.tsx:116-122 | Over the catalog, the job's current step is current, the steps before it done and the steps after it pending. |
| Tracking.ExactlyOneCurrent | src/components/pages/tracking/TrackingDetailPage.tsx:116-122 | Exactly one catalog step is current. |
| Tracking.UnsetStepIsCreated | src/components/pages/tracking/TrackingDetailPage.tsx:117 | An unset current step reads as `created`: step 1 is current and every later step pending. |
| Tracking.GetStepEvent | src/components/pages/tracking/TrackingDetailPage.tsx:124-126 | The event found for a step is the first event of the list recorded for it; none is found exactly when no event has the step. |
| Tracking.RetentionOfPhoto | src/components/pages/tracking/TrackingDetailPage.tsx:152-183 | Retention stamps every photo of the job with now plus 30 days in `workflow` and now plus 90 days in `documents`, and leaves other jobs' photos alone. |
| Tracking.AdvanceMovesStep | src/components/pages/tracking/TrackingDetailPage.tsx:147-150 | An advance moves the current step to the chosen one whatever the current one is, and the job has a payment date afterwards exactly when it had one or the step is `payment-received`. |
| Tracking.RetentionOneShot | src/components/pages/tracking/TrackingDetailPage.tsx:152-153 | Once an advance has reached `payment-received`, no later advance stamps anything. |
| Tracking.StampBelowStep | src/components/pages/tracking/TrackingDetailPage.tsx:155-168 | One turn of a folder loop stamps the next id exactly when it is a photo of the job in that folder. |
| Tracking.StampWritesStep | src/components/pages/tracking/TrackingDetailPage.tsx:155-168 | One turn of a folder loop adds that id's update to the writes exactly when it stamps it. |
| Tracking.FolderIdsIgnoreStamps | src/components/pages/tracking/TrackingDetailPage.tsx:155-183 | Stamping changes only `deleteAt`, so the second folder's query sees the same photos whether or not the first loop ran. |
| Tracking.TwoFoldersRetain | src/components/pages/tracking/TrackingDetailPage.tsx:155-183 | The workflow loop followed by the documents loop, over all ids, gives exactly the retention stamps. |
| Tracking.JobWrittenLast | src/components/pages/tracking/TrackingDetailPage.tsx:134-186 | An advance writes the event first and the job last, with only photo updates in between. |
| Tracking.UpdatesArePhotoUpdates | src/components/pages/tracking/TrackingDetailPage.tsx:163-178 | The writes of a folder loop are one photo update per id, in id order. |
| Tracking.PlannedRecords | src/components/pages/tracking/TrackingDetailPage.tsx:222-244 | Every record an upload makes belongs to the job, is within the size limit, has no deletion date, is in `workflow` exactly when a step number is given, and lies under its folder's storage prefix. |
| Tracking.PlannedRecordsUpTo | src/components/pages/tracking/TrackingDetailPage.tsx:214-245 | The same facts for the records of the first `i` files, by induction. |
| Tracking.PathHasFolderPrefix | src/components/pages/tracking/TrackingDetailPage.tsx:222-225 | Every storage path starts with `jobs/<job>/<folder>/`. |
| Tracking.PlannedKeepsSmallFiles | src/components/pages/tracking/TrackingDetailPage.tsx:214-245 | An upload records exactly the files within the 5 MB limit, in file order. |
| Tracking.KeepsSmallFilesUpTo | src/components/pages/tracking/TrackingDetailPage.tsx:214-245 | The same for the first `i` files, by induction. |
| Tracking.PlannedFileNames | src/components/pages/tracking/TrackingDetailPage.tsx:217-220 | One file gives a record with its name exactly when it is within the limit. |
| Tracking.TrackingDetail.constructor | src/components/pages/tracking/TrackingDetailPage.tsx:128-284 | The page starts on the given job, events, photos, storage and log, with no writes yet. |
| Tracking.TrackingDetail.Advance | src/components/pages/tracking/TrackingDetailPage.tsx:128-198 | An advance appends the event, moves the current step, stamps the payment date and the retention when due, and issues the event, the photo updates and the job update in that order; nothing else changes. |
| Tracking.TrackingDetail.EventThenRetention | src/components/pages/tracking/TrackingDetailPage.tsx:134-183 | The event is appended and written first, then the retention runs exactly when due. |
| Tracking.TrackingDetail.RetainJobPhotos | src/components/pages/tracking/TrackingDetailPage.tsx:152-183 | The retention pass stamps exactly the retention dates and writes one update per workflow photo, then one per document photo. |
| Tracking.TrackingDetail.StampFolder | src/components/pages/tracking/TrackingDetailPage.tsx:155-168 | A folder loop stamps every photo of the job in that folder and writes each update in id order. |
| Tracking.TrackingDetail.UploadPhotos | src/components/pages/tracking/TrackingDetailPage.tsx:200-255 | More than five files are refused with nothing changed; otherwise exactly the files within the size limit are stored and recorded in order, and the outcome counts them. |
| Tracking.TrackingDetail.StoreFiles | src/components/pages/tracking/TrackingDetailPage.tsx:214-245 | The upload loop leaves the records, next id, storage and writes as storing the planned records in order gives. |
| Tracking.TrackingDetail.DeletePhoto | src/components/pages/tracking/TrackingDetailPage.tsx:257-282 | A delete happens exactly for a chosen photo whose object is in storage; it removes the object, logs a manual delete and sets the record's `deleteAt` to now; otherwise nothing changes. |
| Tracking.StampLoop | src/components/pages/tracking/TrackingDetailPage.tsx:155-168 | The folder loop's result is the stamps and writes of every id below the bound. |
| Tracking.StoreStep | src/components/pages/tracking/TrackingDetailPage.tsx:226-244 | Storing one more file extends the batch by that file's object, record and two writes. |
| Tracking.PlannedStep | src/components/pages/tracking/TrackingDetailPage.tsx:217-244 | One more file adds its record exactly when it is within the limit. |
| Tracking.StoreBatch | src/components/pages/tracking/TrackingDetailPage.tsx:214-245 | The loop ends with every planned record stored under consecutive ids, every object stored, and the writes in file order; the count is the number of records. |
| Tracking.BatchStep | src/components/pages/tracking/TrackingDetailPage.tsx:214-245 | One turn of the loop stores and plans a file within the limit and skips a larger one. |
| Tracking.UpdateStatusRoles | src/components/pages/tracking/TrackingDetailPage.tsx:284 | Operations staff, administrators and managers may advance and attach; sales, finance and signed-out users may not. |
| Dashboard.MonthlyJobsSpec | src/components/pages/DashboardPage.tsx:25-31 | A job counts for the month exactly when its start has today's month and year, in stored order. |
| Dashboard.ActiveVehiclesSnoc | src/components/pages/DashboardPage.tsx:33 | Each vehicle adds one to the active count exactly when its status is `active`; the count never exceeds the number of vehicles. |
| Dashboard.OutstandingBalanceSnoc | src/components/pages/DashboardPage.tsx:35-37 | Each invoice adds its total less its paid amount unless it is `paid`, in which case it adds nothing. |
| Dashboard.OutstandingBalanceNonNegative | src/components/pages/DashboardPage.tsx:35-37 | When no invoice is paid beyond its total, the balance is not negative. |
| Dashboard.PendingCountsUnpaidOnly | src/components/pages/DashboardPage.tsx:35-39 | Only `unpaid` invoices are pending; a `partial` one adds to the balance but not to the pending count. |
| Dashboard.StatusCountsAddUp | src/components/pages/DashboardPage.tsx:35-39 | With the three invoice statuses, the unpaid, partial and paid counts add up to the number of invoices. |
| Dashboard.SortNewestFirst | src/components/pages/DashboardPage.tsx:41-42 | The in-place sort leaves the jobs newest start instant first (day and time of day, as `getTime()` orders them), as a permutation of the stored jobs. |
| Dashboard.InsertAt | src/components/pages/DashboardPage.tsx:41-42 | Moving the next job back past every job that started earlier leaves the first `i + 1` jobs newest first and a permutation of what they were, and leaves every later position untouched. |
| Dashboard.RecentJobs | src/components/pages/DashboardPage.tsx:41-43 | The stored list is sorted in place newest first, and the recent jobs are its first ten (or all), none of the rest having started at a later instant than a kept one. |
| Dashboard.HyphenatedStatusesGetDefault | src/components/pages/DashboardPage.tsx:45-55 | The hyphenated statuses jobs actually carry (`in-transit`, `payment-received`) fall to the default badge; only the underscored spellings are mapped. |
| Dashboard.BadgeVariants | src/components/pages/DashboardPage.tsx:45-55 | Every badge is `secondary`, `default` or `outline`, and `outline` exactly for `in_transit`. |
| InvoiceList.CanEditRoles | src/components/pages/invoices/InvoicePage.tsx:33 | Exactly administrators and finance staff may edit; no one signed out may. |
| InvoiceList.FilteredInvoicesSpec | src/components/pages/invoices/InvoicePage.tsx:77-84 | An invoice is listed exactly when it matches the search (number or customer name, ignoring case) and the customer and status filters, in loaded order. |
| InvoiceList.NoFilterListsAll | src/components/pages/invoices/InvoicePage.tsx:77-84 | An empty search with both filters on `all` lists every invoice. |
| InvoiceList.PaginatedInvoicesSpec | src/components/pages/invoices/InvoicePage.tsx:86-89 | A page shows at most twenty consecutive filtered rows, from `(page - 1) * 20` on. |
| InvoiceList.ClampsStayInRange | src/components/pages/invoices/InvoicePage.tsx:234-242 | From a page in range, Previous moves back one page and stops at the first, Next moves on one and stops at the last. |
| InvoiceList.PreviousReachesFirst | src/components/pages/invoices/InvoicePage.tsx:234 | Enough presses of Previous reach the first page and stay there. |
| InvoiceList.NextReachesLast | src/components/pages/invoices/InvoicePage.tsx:242 | Enough presses of Next reach the last page and stay there. |
| InvoiceList.InvoiceBadgeVariants | src/components/pages/invoices/InvoicePage.tsx:93-104 | The three invoice statuses get three different badge variants, only an unpaid invoice is shown as destructive, and any other status falls back to outline. |
| Invoicing.ToggleMember | src/components/pages/invoices/InvoiceFormDialog.tsx:88-96 | Toggling a job flips whether that id is ticked and leaves every other id as it was. |
| Invoicing.ToggleTwice | src/components/pages/invoices/InvoiceFormDialog.tsx:88-96 | Toggling the same id twice gives back the same set of ticked ids. |
| Invoicing.ToggleDistinct | src/components/pages/invoices/InvoiceFormDialog.tsx:88-96 | Toggling never ticks an id twice. |
| Invoicing.AvailableJobsMember | src/components/pages/invoices/InvoiceFormDialog.tsx:51-79 | A job is offered exactly when it is the customer's, `delivered`, and no invoice item refers to it. |
| Invoicing.TotalIgnoresUnknownIds | src/components/pages/invoices/InvoiceFormDialog.tsx:98-102 | The total depends only on which offered jobs are ticked; ids of jobs not on offer add nothing. |
| Invoicing.TotalNonNegative | src/components/pages/invoices/InvoiceFormDialog.tsx:98-102 | With no negative revenue the total is not negative. |
| Invoicing.YearWidth | src/components/pages/invoices/InvoiceFormDialog.tsx:116-118 | The year field of an invoice number is always two characters. |
| Invoicing.InvoiceNumberReadsBack | src/components/pages/invoices/InvoiceFormDialog.tsx:116-118 | An invoice number starts with `INV`, has the two-digit year at positions 3-4 and a dash at 5, and the rest reads back as the count of stored invoices plus one. |
| Invoicing.InvoiceNumberInjective | src/components/pages/invoices/InvoiceFormDialog.tsx:116-118 | Within one year, different invoice counts give different numbers. |
| Invoicing.PatchJobsIs | src/components/pages/invoices/InvoiceFormDialog.tsx:142-161 | Updating jobs by a list of ids patches exactly the jobs whose id is listed, once each however often listed, and leaves the others as they were. |
| Invoicing.JobIdsMember | src/components/pages/invoices/InvoiceFormDialog.tsx:141-156 | An id is among the billed ids exactly when some billed job has it. |
| Invoicing.ItemsAddUp | src/components/pages/invoices/InvoiceFormDialog.tsx:141-154 | The items of an invoice add up to the revenue of the jobs they bill. |
| Invoicing.ItemsForJobs | src/components/pages/invoices/InvoiceFormDialog.tsx:141-154 | There is one item per billed job, in order, for that job's number and revenue. |
| Invoicing.BilledJobsNotOffered | src/components/pages/invoices/InvoiceFormDialog.tsx:71-79 | Once its items are stored, no billed job is offered again for any customer. |
| Invoicing.BillStep | src/components/pages/invoices/InvoiceFormDialog.tsx:142-161 | One more billed job adds its item and its job update to what the jobs before it gave. |
| Invoicing.BillJobs | src/components/pages/invoices/InvoiceFormDialog.tsx:141-161 | The billing loop adds one item per billed job, moves exactly those jobs to `invoiced`, and journals item then job update for each, in order. |
| Invoicing.FindCustomer | src/components/pages/invoices/InvoiceFormDialog.tsx:39 | A customer is found only if it has the id, and none is found exactly when no customer has it. |
| Invoicing.StraySelection | src/components/pages/invoices/InvoiceFormDialog.tsx:37-161 | A ticked id not on offer is listed on the invoice but gets no item and no `invoiced` update, yet the paid cascade marks that job paid. |
| Invoicing.SettleArithmetic | src/components/pages/invoices/InvoiceDetailDialog.tsx:104-113 | An accepted payment against a consistent invoice takes the amount off the balance without going below zero, keeps the invoice consistent, never leaves it `unpaid`, and makes it `paid` exactly when the whole balance is paid. |
| Invoicing.PaymentFormAfterSettle | src/components/pages/invoices/InvoiceDetailDialog.tsx:233 | After a payment in full the payment form is no longer offered; after a part payment an editor still gets it. |
| Invoicing.PaidToAppend | src/components/pages/invoices/InvoiceDetailDialog.tsx:102 | A payment adds its amount to its own invoice's receipts and nothing to any other invoice's. |
| Invoicing.PaymentKeepsReconciled | src/components/pages/invoices/InvoiceDetailDialog.tsx:102-113 | Recording a payment against the stored invoice itself keeps every invoice's paid amount equal to its receipts. |
| Invoicing.NewInvoiceKeepsReconciled | src/components/pages/invoices/InvoiceFormDialog.tsx:120-139 | Adding an invoice with a fresh id, nothing paid and its total outstanding keeps the books balanced. |
| Invoicing.StaleSnapshotLosesPayment | src/components/pages/invoices/InvoiceDetailDialog.tsx:104-113 | Two payments recorded from the same, unrefreshed dialog both pass the guards and both reach the payments collection, but the invoice keeps only the second: the books no longer balance. |
| Invoicing.Ledger.constructor | src/components/pages/invoices/InvoiceFormDialog.tsx:139-156 | The ledger starts on the given jobs, invoices, items and payments, with no writes yet. |
| Invoicing.Ledger.CreateInvoice | src/components/pages/invoices/InvoiceFormDialog.tsx:139-161 | The invoice is added, then each billed job gets its item and its move to `invoiced`; payments are untouched; a balanced ledger stays balanced when the id is fresh. |
| Invoicing.Ledger.RecordPayment | src/components/pages/invoices/InvoiceDetailDialog.tsx:76-124 | An empty or non-positive amount, or one above the shown balance, is refused with nothing changed; otherwise the payment is stored, the invoice updated from the shown snapshot, and on `paid` every listed job moved to `payment-received`, in that write order. |
| Invoicing.Ledger.RecordCurrentPayment | src/components/pages/invoices/InvoiceDetailDialog.tsx:76-124 | The payment made against the stored invoice: an unknown id is refused, a recorded payment adds exactly its amount to the invoice's receipts, and a balanced ledger stays balanced. |
| Invoicing.PatchStep | src/components/pages/invoices/InvoiceDetailDialog.tsx:116-123 | One more listed id adds its job update to what the ids before it gave. |
| Invoicing.PatchAll | src/components/pages/invoices/InvoiceDetailDialog.tsx:115-124 | The cascade loop patches exactly the listed jobs and journals one job update per listed id, in order. |
| Invoicing.PaidCascadeSkipsRetention | src/components/pages/invoices/InvoiceDetailDialog.tsx:115-124 | A job the cascade moves to `payment-received` also gets a payment date, so a later tracking advance to that step never stamps its photos for deletion. |
| Invoicing.InvoiceForm.constructor | src/components/pages/invoices/InvoiceFormDialog.tsx:28-32 | A fresh form has no customer, nothing offered or ticked, today as issue date and no due date. |
| Invoicing.InvoiceForm.ChooseCustomer | src/components/pages/invoices/InvoiceFormDialog.tsx:36-49 | Choosing a new customer offers its billable jobs, keeps the ticked ids, and sets the due date from a non-zero payment term; clearing the customer empties the offer and the selection. |
| Invoicing.InvoiceForm.Toggle | src/components/pages/invoices/InvoiceFormDialog.tsx:88-96 | Ticking or unticking changes only the selection. |
| Invoicing.InvoiceForm.PickIssuedDate | src/components/pages/invoices/InvoiceFormDialog.tsx:208 | The issue-date picker ignores a cleared date. |
| Invoicing.InvoiceForm.PickDueDate | src/components/pages/invoices/InvoiceFormDialog.tsx:223 | The due-date picker sets or clears the due date. |
| Invoicing.InvoiceForm.Submit | src/components/pages/invoices/InvoiceFormDialog.tsx:104-161 | Without customer, ticked job or due date, or with an unknown customer, nothing is written; otherwise the numbered `unpaid` invoice listing every ticked id is added and each ticked job on offer is billed. |
| Invoicing.SubmittedTotalIsItems | src/components/pages/invoices/InvoiceFormDialog.tsx:98-154 | The items a submission adds add up to the new invoice's total. |
| JobStore.YearSuffixDigits | src/lib/firestore.ts:334 | The year tag is the last one or two digits of the year, so it holds no dash. |
| JobStore.Greatest | src/lib/firestore.ts:339-347 | The first number of a descending query is one of the numbers and no number sorts above it. |
| JobStore.FirstJobOfYear | src/lib/firestore.ts:343-345 | With no number of the year stored, the next number is `yy-0001`. |
| JobStore.InYearParses | src/lib/firestore.ts:335-348 | Every number the range query returns starts with the year tag and a dash followed by a digit, so its sequence parses to a non-negative number and never gives `NaN`. |
| JobStore.NumberWithSequence | src/lib/firestore.ts:348-351 | A job number built from a sequence reads back as that sequence. |
| JobStore.NextJobNumberFollowsGreatest | src/lib/firestore.ts:342-351 | Once the year has numbers, the next number is the sequence of the greatest number returned, plus one, padded to four digits, and reads back as that successor. |
| JobStore.SequenceRolloverRepeats | src/lib/firestore.ts:337-351 | With `yy-9999` and `yy-10000` stored, the query still returns `yy-9999` first, so the next number is `yy-10000` again: a number already taken. |
| JobStore.NextJobNumberByValue | src/lib/firestore.ts:333-351 | The next number taken as one past the greatest sequence of the year compared as numbers: it carries the year tag and is never a number already stored, however many jobs the year has. |
| JobStore.FirstByValue | src/lib/firestore.ts:343-345 | With no number of the year stored, the number chosen by value is `yy-0001`, as the query version gives. |
| JobStore.ConvertTimestamp | src/lib/firestore.ts:25-33 | The conversion loop yields the converted document: every top-level time stamp replaced by the date of its instant, every other field copied. |
| JobStore.ConvertedSpec | src/lib/firestore.ts:25-33 | Conversion keeps the key set and every instant, leaves no top-level stamp, leaves every other value (nested stamps included) as it was, and is idempotent. |
| JobStore.JobUpdatePayloadSpec | src/lib/firestore.ts:311-326 | A job update always sets `updatedAt` to now, overriding the patch, adds no other field, and stores only the date fields it carries as stamps. |
| JobStore.JobUpdateReadsBack | src/lib/firestore.ts:311-326 | Reading back a job update gives each date the patch carried and `updatedAt` as the date of now. |
| JobStore.RateUpdatePayloadSpec | src/lib/firestore.ts:195-202 | A rate update adds no field and converts `effectiveDate` only when it is given. |
| JobStore.VehicleConstraintsSpec | src/lib/firestore.ts:36-44 | The vehicle query always orders newest first and has one equality clause per active filter; a vehicle meets the clauses exactly when it has the brand and status asked for. |
| JobStore.JobsGetAllSpec | src/lib/firestore.ts:253-285 | The job list holds exactly the loaded jobs that meet every active filter, with inclusive pickup bounds compared as instants (a pickup later on the end date's day than the end instant is dropped), in loaded order. |
| ImportValidation.RevalidateRecord | src/components/pages/masterdata/DataValidationPreview.tsx:482-549 | The validator's loops and checks produce exactly the verdict `Revalidate` defines: required-field issues in field order, then the format checks in the order the entity type runs them, with their suggestions, and the derived status. |
| ImportValidation.RequiredLoop | src/components/pages/masterdata/DataValidationPreview.tsx:498-503 | The required-field loop yields one issue per missing field, in field order. |
| ImportValidation.NumericLoop | src/components/pages/masterdata/DataValidationPreview.tsx:530-541 | The numeric-field loop yields an issue and a suggestion for each given field that is not a number, in field order. |
| ImportValidation.VehicleFormat | src/components/pages/masterdata/DataValidationPreview.tsx:505-514 | The vehicle checks add the brand issue, then the status issue, each with its suggestion, exactly when they fail. |
| ImportValidation.FormatCheck | src/components/pages/masterdata/DataValidationPreview.tsx:516-528 | A phone or e-mail check adds its issue and suggestion exactly when it fails. |
| ImportValidation.MissingIssuesSpec | src/components/pages/masterdata/DataValidationPreview.tsx:498-503 | There are at most as many required-field issues as required fields, and an issue is there exactly when it names a required field that is missing. |
| ImportValidation.OneSuggestionPerFailedCheck | src/components/pages/masterdata/DataValidationPreview.tsx:505-541 | Each failed format check adds exactly one issue and one suggestion. |
| ImportValidation.CheckIssueUnmarked | src/components/pages/masterdata/DataValidationPreview.tsx:505-545 | No format issue contains the words that mark a required field, so a format failure alone never makes a record an error. |
| ImportValidation.RequiredMessageMarked | src/components/pages/masterdata/DataValidationPreview.tsx:501-545 | Every required-field issue contains the marker words the status rule looks for. |
| ImportValidation.StatusRule | src/components/pages/masterdata/DataValidationPreview.tsx:543-546 | A record is `valid` exactly when it has no issue and `error` exactly when some required field is missing; format failures alone make it a `warning`. |
| ImportValidation.IssueAndSuggestionCounts | src/components/pages/masterdata/DataValidationPreview.tsx:487-541 | There is one suggestion per failed format check, and the issues are the missing required fields plus those same checks. |
| ImportValidation.VehicleBrandRule | src/components/pages/masterdata/DataValidationPreview.tsx:506-509 | A vehicle gets the brand issue exactly when a brand is given and it is not the string Hino, PRY or Other. |
| ImportValidation.UnknownEntityIsValid | src/components/pages/masterdata/DataValidationPreview.tsx:498 | A record of a type the validator does not know has no issue and no suggestion, and is valid. |
| ImportValidation.EditorsCoverRequiredFields | src/components/pages/masterdata/DataValidationPreview.tsx:434-480 | Every required field has an editor, the vehicle brand and status pickers offer exactly the values the validator accepts, and an unknown type gets no editor. |
| ImportValidation.EditSaveSpec | src/components/pages/masterdata/DataValidationPreview.tsx:88-112 | An edit keeps the list's length and order, changes only the records with that id, sets the edited cell to the text entered and no other cell, and leaves those records with the validator's verdict on their new data. |
| ImportValidation.EditSavePreservesConsistency | src/components/pages/masterdata/DataValidationPreview.tsx:88-112 | If every record carried the validator's verdict on its data before an edit, every record does after it. |
| ImportValidation.ConfirmDeleteSpec | src/components/pages/masterdata/DataValidationPreview.tsx:169-175 | Confirming a delete removes exactly the records with the pending id and keeps the rest in order; with no pending id nothing changes. |
| ImportValidation.FilteredRecordsSpec | src/components/pages/masterdata/DataValidationPreview.tsx:206-209 | The `all` filter lists every record; a status lists exactly the records with it, in order. |
| ImportValidation.StatusCountsPartition | src/components/pages/masterdata/DataValidationPreview.tsx:211-216 | The valid, warning and error tallies add up to the total, and each equals the length of its filtered list. |
| ValidationMessages.MessagesLackMarkerLetters | src/components/pages/masterdata/DataValidationPreview.tsx:505-545 | No issue a format check can add holds a letter of either marker word, so none can be read as a missing required field. |
| BulkImport.TypeAcceptedRule | src/components/pages/masterdata/BulkImportDialog.tsx:60-70 | A file passes the type test exactly when its MIME type is one of the four accepted or its name ends in `.csv`, `.xlsx` or `.json`. |
| BulkImport.ReadContent | src/components/pages/masterdata/BulkImportDialog.tsx:199-209 | The content handed to the analyser is a prefix of the file of at most 50000 characters, and the whole file when it is that short. |
| BulkImport.WithTempIds | src/components/pages/masterdata/BulkImportDialog.tsx:137-140 | Each analysed record keeps its fields except the id, and no two records of one analysis share an id, so an edit or a delete by id in the preview reaches exactly one record. |
| BulkImport.TempIdsDistinct | src/components/pages/masterdata/BulkImportDialog.tsx:139 | Under one clock reading, two positions give two different temporary ids. |
| BulkImport.TempIdsPairwiseDistinct | src/components/pages/masterdata/BulkImportDialog.tsx:139 | Any number of positions under one clock reading give pairwise different temporary ids. |
| BulkImport.RecountedTallies | src/components/pages/masterdata/BulkImportDialog.tsx:402-417 | After the preview hands back its records the totals describe the new list: the total is its length, the three counters split it, and the column mapping is kept. |
| BulkImport.NewRecordFields | src/components/pages/masterdata/BulkImportDialog.tsx:263-268 | A saved record has every field of the imported record except the timestamps, an `id` (the record's own when it has one, else the generated one), and both timestamps set to now. |
| BulkImport.NewRecordsAre | src/components/pages/masterdata/BulkImportDialog.tsx:174-175 | The k-th record the import appends is built from the k-th valid record's data and the k-th generated id. |
| BulkImport.SavedAppendsOne | src/components/pages/masterdata/BulkImportDialog.tsx:259-272 | Saving a record appends exactly it to its type's list, keeps the entries already there, and leaves every other key unchanged. |
| BulkImport.ProgressShape | src/components/pages/masterdata/BulkImportDialog.tsx:177 | The rounded percentage after k of n saves stays within 0-100, never goes down from one save to the next, and is 100 after the last. |
| BulkImport.ProgressTraceMonotone | src/components/pages/masterdata/BulkImportDialog.tsx:171-179 | Over a whole import the bar only moves forward and ends at 100. |
| BulkImport.ToImportSpec | src/components/pages/masterdata/BulkImportDialog.tsx:160 | Exactly the valid records are imported, in their order, as many as the valid tally. |
| BulkImport.SaveAll | src/components/pages/masterdata/BulkImportDialog.tsx:170-179 | The save loop appends one saved record per valid record, in order, to the type's list, and the bar steps through its trace. |
| BulkImport.ImportDialog.constructor | src/components/pages/masterdata/BulkImportDialog.tsx:43-47 | The dialog opens with no file, no analysis and the bar at 0. |
| BulkImport.ImportDialog.SelectFile | src/components/pages/masterdata/BulkImportDialog.tsx:57-80 | No file does nothing; a wrong type or a file over 10 MiB is refused with the state unchanged; an accepted file is chosen and the old analysis dropped. |
| BulkImport.ImportDialog.ReceiveAnalysis | src/components/pages/masterdata/BulkImportDialog.tsx:82-147 | Without a chosen file nothing happens; otherwise the analyser's answer is kept with temporary ids on its records. |
| BulkImport.ImportDialog.RecordsUpdated | src/components/pages/masterdata/BulkImportDialog.tsx:402-417 | An edit in the preview replaces the records and recomputes the tallies. |
| BulkImport.ImportDialog.Close | src/components/pages/masterdata/BulkImportDialog.tsx:192-197 | Closing drops the file and the analysis, resets the bar and closes the dialog. |
| BulkImport.ImportDialog.Import | src/components/pages/masterdata/BulkImportDialog.tsx:157-190 | Without an analysis or a valid record nothing changes; otherwise exactly the valid records are appended in order, the bar steps to 100, and the dialog closes. |
| Csv.Double | src/lib/exportTemplates.ts:13 | Doubling quotes never shortens a cell and leaves a cell without quotes as it was. |
| Csv.EscapeSpec | src/lib/exportTemplates.ts:11-16 | A cell is left alone exactly when it has no comma, double quote or line feed; otherwise it is wrapped in double quotes. A carriage return alone does not trigger quoting. |
| Csv.EmptyExport | src/lib/exportTemplates.ts:18-21 | Without rows the file is the header line followed by one line feed. |
| Csv.ConvertSnoc | src/lib/exportTemplates.ts:19-21 | One more row adds a line feed and that row's line at the end, and no trailing line feed. |
| Csv.ParseUnquoted | src/lib/exportTemplates.ts:11-19 | The partner reader: an unquoted cell is read up to the next comma or line feed and nothing is lost. |
| Csv.CellRoundTrip | src/lib/exportTemplates.ts:11-16 | An escaped cell followed by a separator or the end reads back as the cell itself. |
| Csv.RowRoundTrip | src/lib/exportTemplates.ts:18-19 | An escaped line of cells reads back as those cells. |
| Csv.ConvertRoundTrip | src/lib/exportTemplates.ts:10-22 | An exported file with at least one row, every line holding a cell, reads back as its header and its rows. |
| Csv.EmptyExportReadsExtraLine | src/lib/exportTemplates.ts:18-21 | Without rows the trailing line feed reads back as one extra line holding one empty cell. |
| Csv.TemplateRoundTrip | src/lib/exportTemplates.ts:161-195 | A template file reads back as the template's headers and sample rows. |
| Csv.TemplatesReadBack | src/lib/exportTemplates.ts:161-195 | Each of the six downloadable template files (vehicles, drivers, customers, routes, rates, parts) reads back as exactly its header row followed by its three sample rows. |
| Csv.PlateForMissing | src/lib/exportTemplates.ts:226-241 | A driver whose vehicle id no vehicle carries gets an empty plate cell. |
| Csv.PlateForLast | src/lib/exportTemplates.ts:226-241 | Otherwise the plate is that of the last vehicle with the id, as a map built from the list keeps. |
| Csv.SurchargeTextGrows | src/lib/exportTemplates.ts:296 | No surcharge gives an empty cell, one gives `name: amount`, and each further one adds `; name: amount` at the end. |
| Csv.ExportVehiclesShape | src/lib/exportTemplates.ts:197-223 | The vehicles export has one row per vehicle, in order, each with one cell per header, and with a vehicle or more it reads back as the headers and those rows. |
| Csv.ExportDriversShape | src/lib/exportTemplates.ts:225-249 | The drivers export has one row per driver, in order, each with one cell per header, and with a driver or more it reads back as the headers and those rows. |
| Csv.ExportCustomersShape | src/lib/exportTemplates.ts:251-277 | The customers export has one row per customer, in order, each with one cell per header, and with a customer or more it reads back as the headers and those rows. |
| Csv.ExportRatesShape | src/lib/exportTemplates.ts:279-303 | The rates export has one row per rate, in order, each with one cell per header, and with a rate or more it reads back as the headers and those rows. |
| Csv.ExportPartsShape | src/lib/exportTemplates.ts:305-323 | The parts export has one row per part, in order, each with one cell per header, and with a part or more it reads back as the headers and those rows. |
| Csv.ExportRoutesShape | src/lib/exportTemplates.ts:337-363 | The routes export has one row per route, in order, each with one cell per header, and with a route or more it reads back as the headers and those rows. |
| Templates.VehicleTemplateRectangular | src/lib/exportTemplates.ts:39-57 | The vehicle template has 6 headers and three sample rows of 6 cells each. |
| Templates.DriverTemplateRectangular | src/lib/exportTemplates.ts:59-76 | The driver template has 5 headers and three sample rows of 5 cells each. |
| Templates.CustomerTemplateRectangular | src/lib/exportTemplates.ts:78-97 | The customer template has 7 headers and three sample rows of 7 cells each. |
| Templates.RouteTemplateRectangular | src/lib/exportTemplates.ts:99-117 | The route template has 6 headers and three sample rows of 6 cells each. |
| Templates.RateTemplateRectangular | src/lib/exportTemplates.ts:119-141 | The rate template has 10 headers and three sample rows of 10 cells each. |
| Templates.PartTemplateRectangular | src/lib/exportTemplates.ts:143-159 | The part template has 4 headers and three sample rows of 4 cells each. |
| StorageCleanup.SweepLogsLength | CLOUD_FUNCTIONS_CODE.ts:130-164 | The sweep writes one log entry per listed file no photo refers to. |
| StorageCleanup.SweepLogsSucceeded | CLOUD_FUNCTIONS_CODE.ts:139-171 | The entries marked successful are exactly the deletions the report counts. |
| StorageCleanup.SweepLogsEntries | CLOUD_FUNCTIONS_CODE.ts:139-163 | Every sweep entry is an `orphaned-cleanup` entry for a listed, unreferenced file, and its success flag says whether that file's delete went through. |
| StorageCleanup.SweepEntrySpec | CLOUD_FUNCTIONS_CODE.ts:134-163 | For one file the sweep logs nothing when a photo refers to it, and otherwise one entry carrying the delete's outcome. |
| StorageCleanup.SweptSpec | CLOUD_FUNCTIONS_CODE.ts:130-164 | The sweep removes a file exactly when it was listed, no photo refers to it and its delete does not throw; a referenced file is never removed. |
| StorageCleanup.DeletedAtMostChecked | CLOUD_FUNCTIONS_CODE.ts:166-173 | A report never counts more deletions than files checked. |
| StorageCleanup.Backend.constructor | CLOUD_FUNCTIONS_CODE.ts:17-20 | The back end starts on the given photo documents and bucket, with both log collections empty. |
| StorageCleanup.Backend.OnPhotoExpiry | CLOUD_FUNCTIONS_CODE.ts:39-98 | No storage path does nothing; a throwing storage call logs one failed `auto-expiry` entry and removes nothing; otherwise the file is gone from the bucket and one successful entry is logged, whether or not the file was there. |
| StorageCleanup.Backend.Expire | CLOUD_FUNCTIONS_CODE.ts:22-43 | A time-to-live deletion removes the document and fires the trigger with its data. Without a path nothing else changes. When the object's deletion throws, the bucket is unchanged and one failed expiry entry is logged. Otherwise the file is gone and one successful entry is logged. |
| StorageCleanup.Backend.CleanupOrphans | CLOUD_FUNCTIONS_CODE.ts:117-188 | Given a listing of stored files under `jobs/`, a failed listing adds only a failed report; otherwise the bucket loses exactly the swept files, the sweep's entries are logged in listing order, and one report counts every listed file and every deletion that went through. |
| StorageCleanup.Backend.TestCleanup | CLOUD_FUNCTIONS_CODE.ts:200-255 | Unsigned callers, a missing id, and a missing document, storage path or throwing storage call are refused with nothing changed; a file absent from the bucket is reported untouched; otherwise the file and the document are deleted and one `manual-test` entry is logged under the caller. |
| StorageCleanup.SweepStep | CLOUD_FUNCTIONS_CODE.ts:130-164 | One turn of the sweep adds the file's count, removal and log entry to what the files before it gave. |
| StorageCleanup.StatsSnoc | CLOUD_FUNCTIONS_CODE.ts:291-310 | Each entry adds one to the total, one to the counter of its own reason if it has one of the three, and one to the failures when it is not marked successful. |
| StorageCleanup.ReasonCountersBounded | CLOUD_FUNCTIONS_CODE.ts:283-310 | The three reason counters together, and the failures, never exceed the total. |
| StorageCleanup.ManualTestCountsInTotalOnly | CLOUD_FUNCTIONS_CODE.ts:236-310 | A `manual-test` entry counts in the total and in no reason counter. |
| StorageCleanup.UnflaggedManualDeleteIsFailure | CLOUD_FUNCTIONS_CODE.ts:295-297 | An entry written without a success flag, as the tracking page's manual delete writes it, counts as a failure although the delete went through. |
| StorageCleanup.Tally | CLOUD_FUNCTIONS_CODE.ts:283-312 | The tally loop reaches the statistics of the entries it is given. |
| StorageCleanup.DeletionStats | CLOUD_FUNCTIONS_CODE.ts:263-318 | Unsigned callers and non-administrators are refused; an administrator gets the statistics of the entries deleted at or after the start of the window. |

## Left out

- Firestore, Storage and Auth calls are replaced by in-memory sequences, maps and sets held by the model's classes. A failing storage call is a parameter.
- LLM calls and the `window.spark.kv` calls: the analyser's answer is an opaque input, and the key-value store is a map from key to list.
- The clock and randomness: `Timestamp.now`, `Date.now`, `new Date()` and `Math.random` become parameters, a whole number or a `Date`.
- Calendar arithmetic: `setDate` and the 30-day retention window are modelled as a given day number (`since`, the retention date), not computed from dates.
- Concurrency and atomicity: the pages issue separate awaits that can interleave with other clients. The model has one sequential caller, and each write succeeds.
- Floating point: money, quantities, distances and durations are whole numbers. `parseFloat` and `isNaN(Number(..))` become an `Option` that is `None` when the text does not read as a number. `toFixed`, the margin in JobFormDialog.tsx and the random route estimate are not modelled.
- ImportValidation: numeric cells are integers. Fractional numbers and NaN cells are not modelled.
- Unicode: `toLowerCase` folds ASCII letters only. JavaScript regular expressions become explicit character predicates for the e-mail and phone patterns.
- downloadCSV in exportTemplates.ts: the Blob, the link click and the byte-order mark are browser I/O.
- Presentation: translations, labels, icons, toasts, dialogs' open and close state, the template instructions text and the badge colours other than those modelled.
- The five form dialogs, JobsTable.tsx, MainLayout.tsx, ReportsPage, PlaceholderPage, AdminPage, utils.ts and i18n.ts: form wiring, static UI and formatting configuration.
- useAuth.ts is not part of this model. The signed-in user is an input, and its form depends on where it is read. The role guards, the invoice writers and Tracking.TrackingDetail.DeletePhoto read `user?.…`, so they take an `Option`. Tracking.TrackingDetail.Advance and UploadPhotos take a plain `Actor`, because App.tsx shows the login form instead of any page while nobody is signed in.
- handleAutoFix in DataValidationPreview.tsx: it sends the record to the LLM and takes its answer as is, so the model has only the cell edit that follows.
- Dashboard.SortNewestFirst: jobs that started at the same instant keep their stored order in the source, because `Array.prototype.sort` is stable. The contract proves the order and the permutation but does not state the order among such ties.
- Domain.IsoDay: prints the local calendar day that a `Date` holds. The source's `toISOString().split('T')[0]` prints the UTC day, which differs in zones ahead of UTC before their offset hour and in zones behind UTC after it, so export cells and export file names can be a day off from the model. Time zones and the UTC conversion are not modelled; every `Date` is an instant in the browser's own zone.
- StorageCleanup: the `fileName`, `uploadedBy`, `uploadedAt` and error-message fields of the log entries are not modelled, and neither are failing log writes, the outer `catch` with its rethrow, or the expiry trigger that the test call's own document deletion would fire.
- Tracking.TrackingDetail.DeletePhoto: a photo whose document has disappeared from the store is treated as not deletable. The page would still delete the object and write the log entry before its update of the missing document fails.

## Findings

| source | as written | input that shows it | evidently intended | confidence | as-written member | corrected member |
|---|---|---|---|---|---|---|
| src/components/pages/invoices/InvoiceDetailDialog.tsx:104-113 | The new paid amount is computed from the `invoice` prop. The page passes its selected invoice (InvoicePage.tsx:262-268) and does not replace it after the update, so the dialog keeps the old figures. | An invoice with total 100 and nothing paid. Two payments of 30 are recorded without closing the dialog. The payments collection holds 60, but the invoice shows 30 paid and 70 outstanding. | Each payment should add to the stored paid amount, so that paid always equals the sum of the invoice's payments. | not executed | Invoicing.StaleSnapshotLosesPayment | Invoicing.Ledger.RecordCurrentPayment |
| src/lib/firestore.ts:333-351 | The greatest job number of the year is taken by ordering the stored numbers as strings and reading the one that sorts last. | `yy-9999` and `yy-10000` are both stored. `yy-10000` sorts below `yy-9999`, so the next number is `yy-10000` again, a number already taken. | The next number should follow the greatest sequence compared as a number, and it should never be a number already stored. | not executed | JobStore.SequenceRolloverRepeats | JobStore.NextJobNumberByValue |
