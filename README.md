# A verified model of the ECM construction-ledger backend and its pages

This project models the core of a multi-tenant construction cost ledger ("工事台帳"). Its FastAPI backend keeps one master database of companies, users and super administrators, and one database per company of projects, costs, vendors, cost categories, customers and settings. Its React pages list, filter, sort, print and edit those records. The model is written in Dafny and states what each endpoint and page handler computes. Dafny's verifier proves those statements.

How the model is built:

- **Tables.** A table is a `seq<Row<R>>` of `(id, record)` rows in ascending key order, as the integer primary key keeps them (`Tables`). Lookup by key, insert with the next key, write-back and delete are specified by their effect on every key (`GetInsert`, `GetReplace`, `GetRemove`). A key-indexed sequence is used rather than a map so that the listing order of `query.all()` is part of the model.
- **Databases.** Each company database is a `CompanyModels.CompanyDb` object. The master database is a `MasterDatabase.MasterDb` object. Both hold one table per model class as fields. An endpoint that writes is a method that `modifies` the database and states the whole new state of the modelled columns (the timestamp columns it leaves out are listed under "Left out"). An endpoint that only reads is a function, or a method that changes nothing.
- **Errors.** Every endpoint returns `Ok(value)` or `Err(e)`. The error `e` is the HTTP status the handler raises: 400, 401, 403, 404, 422 for request validation, or 500 for an exception the handler does not catch.
- **Request bodies.** A body field is `Omitted` or `Given(v)`. That is the distinction `dict(exclude_unset=True)` draws, so a partial update applies exactly the sent fields, in declaration order (`Schemas`, `Tables.SetAttrLoop`).
- **Frontend values.** JavaScript objects are maps from keys to JSON values (`Js`). Spreads, computed keys and `forEach` over keys become map updates. Truthiness, `||` and `parseInt` are written out.
- **Outside inputs.** The clock, password hashing and checking, the random draws of company codes, `confirm` answers, the success or failure of an API call, and the backup directory listing are parameters.

Behaviour of the source that the model keeps as written:

- The dashboard summary reads its fiscal month and current period from the key/value settings `fiscal_year_start_month` and `current_fiscal_period`. It does not read the `fiscal_settings` row that the settings page edits.
- The end of a fiscal period is `date(y, m - 1, 31)`. That date does not exist when month `m - 1` has fewer than 31 days, so for those start months the summary fails with an error 500 (`DashboardRouter.PeriodBounds`).
- The full project code pads the period to two digits, whatever `staff_code_digits` says.
- Deleting a project that still has costs fails with an error 500 and deletes nothing. The `costs` relationship has no delete cascade, so the ORM sets the costs' `project_id` to NULL, which its NOT NULL constraint refuses (`ProjectsRouter.DeleteProject`).
- The `register` endpoint rejects a username that any company already uses, not only one in the same company.
- `update_user` assigns the name before it checks the staff code. A 400 from that check is raised before the commit, so the session discards the assignment and nothing changes.

## Model

| member | source | states |
|---|---|---|
| SettingsRouter.CalculateCurrentPeriod | backend/routers/settings.py:25-32 | the period number is the one whose months, from the start month of year `startYear + p - 1` to the month before the next start, contain the date; nothing is clamped |
| SettingsRouter.PeriodUnique | backend/routers/settings.py:25-32 | no other number's months contain the date, so the period is determined by the date alone |
| SettingsRouter.PeriodStepsAtStartMonth | backend/routers/settings.py:28-31 | going from the month before the start month to the start month of one year raises the period by exactly one |
| SettingsRouter.PeriodConstantWithinSide | backend/routers/settings.py:28-31 | two dates of one year on the same side of the start month have the same period |
| SettingsRouter.FirstWithKey | backend/routers/settings.py:50-52 | the index found holds the key and no earlier row does; none is found exactly when no row holds the key |
| SettingsRouter.FiscalResponseOf | backend/routers/settings.py:66-76 | the response echoes the row's year, month and digits with the period the formula gives; a row with null digits cannot satisfy the integer response model and is an error 500 |
| SettingsRouter.EnsureFiscalRow | backend/routers/settings.py:50-64 | an existing fiscal row is returned and nothing changes; otherwise the default row 2000/8/3 is appended and returned; afterwards the fiscal row is found under its key; other tables are unchanged |
| SettingsRouter.InsertKeepsFirst | backend/routers/settings.py:54-64 | a row appended under a key no row has becomes the first row under it |
| SettingsRouter.GetFiscalSettings | backend/routers/settings.py:44-76 | a missing fiscal row is created with the defaults before the response is built from it; an existing one is read without change |
| SettingsRouter.FiscalRowAfterUpdate | backend/routers/settings.py:92-98 | the row holds the given year and month; an existing row keeps its other columns; a fresh row has digits 3 when none are sent and no value |
| SettingsRouter.UpdateFiscalSettings | backend/routers/settings.py:78-113 | 422 without year or month; 403 for a non-admin, with the settings unchanged; otherwise the fiscal row, created if missing, holds the sent year, month and digits (3 when omitted) and the period is computed from them |
| SettingsRouter.FiscalUpdateReadsBack | backend/routers/settings.py:96-106 | after an update the row reads back the sent year and month, and digits 3 when they were omitted |
| SettingsRouter.GetSetting | backend/routers/settings.py:116-128 | 404 exactly when no row has the key; otherwise the first row under the key |
| SettingsRouter.Reported | backend/routers/settings.py:139-141 | a null value is reported as "" and nothing else about the setting changes |
| SettingsRouter.GetAllSettings | backend/routers/settings.py:130-143 | every row in table order, each as reported, with the table itself unchanged |
| SettingsRouter.UpdateSetting | backend/routers/settings.py:145-169 | 422 without a value and nothing changes; otherwise the table is the upsert of the key and the returned row holds the key and the value |
| SettingsRouter.FirstWithKeyReplace | backend/routers/settings.py:152-165 | replacing a row by a record that keeps its key leaves the first index of every key unchanged |
| SettingsRouter.ReplaceAt | backend/routers/settings.py:164 | the row at a given index of the replaced table is the new record if its id matches, the old one otherwise |
| SettingsRouter.UpsertThenGet | backend/routers/settings.py:152-169 | after `update_setting(k, v)`, `get_setting(k)` returns `v`, and every other key reads as before |
| SettingsRouter.InsertKeepsOthers | backend/routers/settings.py:156-162 | inserting a new key leaves the first row of every other key, and all earlier rows, as they were |
| SettingsRouter.UpsertExisting | backend/routers/settings.py:163-165 | updating an existing key makes it read as the new value and leaves every other key's reading unchanged |
| DashboardRouter.IntSetting | backend/routers/dashboard.py:52-61 | a missing setting gives the default; a stored value is read exactly when Python's `int()` accepts it, as that integer, and a NULL or refused value is an error 500 |
| DashboardRouter.IntSettingAfterUpdate | backend/routers/dashboard.py:60-61 | a number stored with `update_setting` is the number the dashboard reads back |
| DashboardRouter.PeriodStartYear | backend/routers/dashboard.py:73-77 | the start month of the returned year is at most twelve months before today, and not after it |
| DashboardRouter.PeriodNumberOfStartYear | backend/routers/dashboard.py:73-77 | the period number the settings page computes is this start year counted from the first fiscal year |
| DashboardRouter.FiscalYearBounds | backend/routers/dashboard.py:79-90 | the fiscal year starts on the first of the start month and both bounds are real dates; otherwise the date construction fails with an error 500 |
| DashboardRouter.FiscalYearBoundsDefined | backend/routers/dashboard.py:81-84 | the bounds exist exactly when the start month is not 3, 5, 7, 10 or 12, since `date(y, fm-1, 31)` needs a 31-day month |
| DashboardRouter.FiscalYearIsOneYear | backend/routers/dashboard.py:79-84 | a fiscal year ends on the day before the next one begins |
| DashboardRouter.PeriodBounds | backend/routers/dashboard.py:79-96 | the bounds are real dates, or the error 500 of an impossible date or an unparseable custom date |
| DashboardRouter.CurrentPeriodContainsToday | backend/routers/dashboard.py:79-84 | the current period, when it exists, contains today |
| DashboardRouter.PreviousAdjoinsCurrent | backend/routers/dashboard.py:85-90 | the previous period ends on the day before the current one begins |
| DashboardRouter.CustomPeriodOfIsoDates | backend/routers/dashboard.py:91-93 | a custom period given as two `YYYY-MM-DD` dates is exactly those dates |
| DashboardRouter.OtherPeriodIsAllTime | backend/routers/dashboard.py:94-96 | an unknown period type, or `custom` without both dates, spans 2000-01-01 to 2100-12-31 |
| DashboardRouter.InPeriodIsOverlap | backend/routers/dashboard.py:108-116 | for a non-empty period, a project with ordered dates is kept exactly when it is a general expense or its run overlaps the period; the cases with a missing date are stated separately |
| DashboardRouter.ScopedProjects | backend/routers/dashboard.py:99-118 | an admin without `my` gets every project; otherwise exactly the caller's projects that pass the period condition |
| DashboardRouter.Ids | backend/routers/dashboard.py:119 | the ids of the projects, in order |
| DashboardRouter.Categories | backend/routers/dashboard.py:130 | each category occurring among the costs, once, and no other |
| DashboardRouter.Groups | backend/routers/dashboard.py:122-132 | one group per category key, holding the sum of that category's amounts |
| DashboardRouter.GroupsPartition | backend/routers/dashboard.py:122-136 | for distinct keys, the group totals add up to the total of the costs whose category is one of the keys |
| DashboardRouter.TotalOfGroups | backend/routers/dashboard.py:136 | the group totals over all occurring categories add up to the total of all the costs |
| DashboardRouter.Breakdown | backend/routers/dashboard.py:141-143 | the breakdown has exactly the groups' categories as keys, each mapped to its group's total |
| DashboardRouter.Classify | backend/routers/dashboard.py:150-173 | the unbilled list is the projects the configured rule selects and the unpaid list those invoiced and not paid, both in scope order, general expenses skipped |
| DashboardRouter.UnbilledUnpaidDisjoint | backend/routers/dashboard.py:153-173 | no project is both unbilled and unpaid, and no general expense is either |
| DashboardRouter.GetDashboardSummary | backend/routers/dashboard.py:42-232 | an error 500 exactly when a setting is not an integer or a bound is not a date; otherwise the summary of the scoped projects and of their costs in the period |
| DashboardRouter.Summarize | backend/routers/dashboard.py:134-232 | the period info, the totals (gross profit is contract minus cost, rate 0 when the contract is not positive), the status counts, the unbilled and unpaid counts and totals, and the period label |
| DashboardRouter.CostFigures | backend/routers/dashboard.py:132-143 | the total cost is the sum of the costs' amounts and the breakdown holds each occurring category's total |
| DashboardRouter.UnbilledDetails | backend/routers/dashboard.py:176-186 | one detail per unbilled project, in order |
| DashboardRouter.UnpaidDetails | backend/routers/dashboard.py:188-197 | one detail per unpaid project, in order |
| DashboardRouter.BreakdownOfGroups | backend/routers/dashboard.py:141-143 | a map filled from the groups is the breakdown of the costs |
| DashboardRouter.BreakdownKeys | backend/routers/dashboard.py:141-143 | the map's keys are exactly the category keys |
| DashboardRouter.BreakdownValues | backend/routers/dashboard.py:141-143 | every key maps to that category's total |
| DashboardRouter.CostOfProjectsIsSum | backend/routers/dashboard.py:279-282 | the shortcut to 0 for no projects agrees with the sum over the projects' costs |
| DashboardRouter.GetAllDashboard | backend/routers/dashboard.py:236-295 | 403 exactly for a non-admin; otherwise project count, contract total, cost of every project, gross profit and rate, and the active non-general-expense projects with their owner's name |
| DashboardRouter.MonthStart | backend/routers/dashboard.py:333-334 | the first of the same month at the same time of day, not after now |
| DashboardRouter.GetMyDashboard | backend/routers/dashboard.py:299-361 | the totals over the caller's projects, their active ones, at most five completed ones of the caller, and the counts and amount created since the first of the month |
| DashboardRouter.UserStatOfCost | backend/routers/dashboard.py:380-401 | a user's entry is their project count, their contract total and the rate after their projects' costs |
| DashboardRouter.StatsOfUsers | backend/routers/dashboard.py:379-401 | one entry per user, in the given order |
| DashboardRouter.GetUserStats | backend/routers/dashboard.py:364-405 | 403 exactly for a non-admin; otherwise one entry per user of the caller's company, in table order |
| ProjectsRouter.OwnedBy | backend/routers/projects.py:29-31 | exactly the rows whose `user_id` is the given user, each taken from the table |
| ProjectsRouter.GetProjects | backend/routers/projects.py:21-33 | the `skip`/`limit` page of the caller's own projects, in table order; every row returned is the caller's |
| ProjectsRouter.NewProject | backend/routers/projects.py:79-83 | the inserted row carries the caller as owner, the computed period and the sent fields, with the column defaults (contract 0, tax type "included", tax rate 10, status active, not a general expense) in place of what was not sent, and the estimate number as sent |
| ProjectsRouter.CreateProject | backend/routers/projects.py:37-87 | 422 for an incomplete body; a missing fiscal row is created with 2000/8/3; 400 exactly when the caller already has the code, adding nothing; otherwise one row is appended with the period `calculate_current_period` gives, and per-user code uniqueness is kept |
| ProjectsRouter.InsertKeepsCodesUnique | backend/routers/projects.py:67-84 | appending a project whose code its owner does not use yet keeps codes unique per user |
| ProjectsRouter.GetProject | backend/routers/projects.py:89-100 | 404 exactly for an unknown id; otherwise the row stored under it |
| ProjectsRouter.SetAttrProjectUpdate | backend/routers/projects.py:115-117 | the `setattr` loop over the sent fields gives the field-by-field merge, unsent fields keeping their value |
| ProjectsRouter.UpdateProject | backend/routers/projects.py:102-122 | 404 for an unknown id; a null for a required column fails the commit (500) and changes nothing; otherwise the stored row becomes the merge of the sent fields |
| ProjectsRouter.UpdateChangesOnlySent | backend/routers/projects.py:115-118 | a sent field takes the sent value, an unsent one keeps its value, and owner, period and creation time never change |
| ProjectsRouter.EmptyUpdateIsIdentity | backend/routers/projects.py:115-117 | an update that sends nothing leaves the project as it was |
| ProjectsRouter.DeleteProject | backend/routers/projects.py:124-138 | 404 for an unknown id; a project some cost refers to is not deleted and the caller gets an error 500, because the ORM nulls the NOT NULL `costs.project_id`; otherwise only that row is removed; costs are never changed |
| ProjectsRouter.DeleteLeavesNoOrphan | backend/company_models.py:30-37 | a delete that succeeds leaves every cost that had its project still with its project |
| ProjectsRouter.GetProjectsByUser | backend/routers/projects.py:140-160 | 403 for a non-admin; user id 0 pages every project, any other id pages that user's projects |
| CostsRouter.OfProject | backend/routers/costs.py:31-32 | exactly the costs of the given project, each taken from the table |
| CostsRouter.GetCosts | backend/routers/costs.py:21-35 | a non-zero project id pages that project's costs; a missing or zero id pages every cost |
| CostsRouter.NewCost | backend/company_models.py:33-49 | the sent fields are stored as sent; tax type `included`, tax amount 0, category 材料費 and payment status `unpaid` stand in for what was not sent |
| CostsRouter.SetAttrCostUpdate | backend/routers/costs.py:71-73 | the `setattr` loop over the sent fields gives the field-by-field merge, unsent fields keeping their value |
| CostsRouter.CreateCost | backend/routers/costs.py:37-55 | 422 for an incomplete body; 403 exactly when the project does not exist, adding nothing; otherwise exactly one cost is added under the next id and every other id reads as before |
| CostsRouter.UpdateCost | backend/routers/costs.py:57-78 | 422 for an incomplete body, 404 for an unknown id, with nothing changed; otherwise the cost becomes the merge of the sent fields and every other id reads as before |
| CostsRouter.DeleteCost | backend/routers/costs.py:80-95 | 404 for an unknown id, with nothing changed; otherwise exactly that cost is gone and every other id reads as before |
| CategoriesRouter.ActiveCategories | backend/routers/categories.py:26-27 | exactly the categories flagged active, each taken from the table |
| CategoriesRouter.DisplayOrderIsTotal | backend/routers/categories.py:28 | ordering by `display_order` is a total preorder |
| CategoriesRouter.GetCategories | backend/routers/categories.py:20-29 | a permutation of the active categories, sorted by `display_order`, with equal orders kept in table order |
| CategoriesRouter.NewCategory | backend/company_models.py:70-79 | the sent fields are stored as sent; display order 999, not default and active stand in for what was not sent |
| CategoriesRouter.SetAttrCategoryUpdate | backend/routers/categories.py:61-63 | the `setattr` loop over the sent fields gives the field-by-field merge, unsent fields keeping their value |
| CategoriesRouter.CreateCategory | backend/routers/categories.py:31-41 | 422 for an incomplete body; otherwise exactly one category is added under the next id |
| CategoriesRouter.UpdateCategory | backend/routers/categories.py:43-67 | 422 for an incomplete body, 404 for an unknown id, 403 for a default category, each with nothing changed; otherwise the category becomes the merge of the sent fields |
| CategoriesRouter.DeleteCategory | backend/routers/categories.py:69-88 | 404 for an unknown id and 400 for a default category, each leaving it present; otherwise exactly that category is gone |
| VendorsRouter.ActiveVendors | backend/routers/vendors.py:25-27 | exactly the vendors flagged active, each taken from the table |
| VendorsRouter.GetVendors | backend/routers/vendors.py:20-28 | the active vendors in table order, and no other |
| VendorsRouter.NewVendor | backend/company_models.py:54-67 | the sent fields are stored as sent; tax type `included`, active and not a favourite stand in for what was not sent |
| VendorsRouter.SetAttrVendorUpdate | backend/routers/vendors.py:56-58 | the `setattr` loop over the sent fields gives the field-by-field merge, unsent fields keeping their value |
| VendorsRouter.CreateVendor | backend/routers/vendors.py:30-40 | 422 for an incomplete body; otherwise exactly one vendor is added under the next id |
| VendorsRouter.UpdateVendor | backend/routers/vendors.py:42-62 | 422 for an incomplete body and 404 for an unknown id, with nothing changed; otherwise the vendor becomes the merge of the sent fields |
| VendorsRouter.DeleteVendor | backend/routers/vendors.py:64-79 | 404 for an unknown id, with nothing changed; otherwise exactly that vendor is gone |
| CustomersRouter.ActiveCustomers | backend/routers/customers.py:26-28 | exactly the customers flagged active, each taken from the table |
| CustomersRouter.GetCustomers | backend/routers/customers.py:21-29 | the active customers in table order, and no other |
| CustomersRouter.NewCustomer | backend/company_models.py:82-94 | the sent fields are stored as sent; active stands in when not sent |
| CustomersRouter.SetAttrCustomerUpdate | backend/routers/customers.py:57-59 | the `setattr` loop over the sent fields gives the field-by-field merge, unsent fields keeping their value |
| CustomersRouter.CreateCustomer | backend/routers/customers.py:31-41 | 422 for an incomplete body; otherwise exactly one customer is added under the next id |
| CustomersRouter.UpdateCustomer | backend/routers/customers.py:43-64 | 422 for an incomplete body and 404 for an unknown id, with nothing changed; otherwise the customer becomes the merge of the sent fields |
| CustomersRouter.DeleteCustomer | backend/routers/customers.py:66-81 | 404 for an unknown id, with nothing changed; otherwise exactly that customer is gone |
| UsersRouter.DefaultPermissionsGranted | backend/routers/users.py:12-29 | the default permissions grant exactly `view_dashboard`, `view_projects`, `view_costs` and `view_partners`, all four being keys of the table |
| UsersRouter.ListedPermissions | backend/routers/users.py:56-58 | missing or empty permissions are reported as the defaults, any others as stored; the result is never empty |
| UsersRouter.GetUsers | backend/routers/users.py:46-62 | 403 exactly for a non-admin; otherwise the users of the caller's company in table order, each as stored except for its permissions as reported |
| UsersRouter.ValidateUserCreate | backend/routers/users.py:32-37 | username, name and password are required (422 without); staff code defaults to none and permissions to the defaults |
| UsersRouter.NewUser | backend/routers/users.py:97-105 | the new user has the caller's company, the sent names, the hash of the password, the sent staff code and permissions, and is active |
| UsersRouter.CreateUser | backend/routers/users.py:64-111 | 422 for an incomplete body, 403 for a non-admin, 400 when the username or a non-empty staff code is already used in the company, each with nothing changed; otherwise one user is added; staff codes stay unique per company |
| UsersRouter.InsertKeepsStaffCodes | backend/routers/users.py:84-91 | adding a user whose non-empty staff code is not used in the company keeps staff codes unique |
| UsersRouter.UpdateUser | backend/routers/users.py:113-159 | 403 for a non-admin, 404 for a user outside the company, 400 when a non-empty staff code is used by another user of the company, each with nothing changed; otherwise only the sent (non-null) fields change, an empty staff code being stored |
| UsersRouter.AssignUserFields | backend/routers/users.py:133-154 | each non-null field sent replaces the stored one (the password by its hash), every other column keeps its value |
| UsersRouter.UpdateKeepsStaffCodes | backend/routers/users.py:136-147 | replacing a user's staff code by one no other user of the company has keeps staff codes unique |
| UsersRouter.DeleteUser | backend/routers/users.py:161-186 | 403 for a non-admin, 400 for the caller's own id, 404 for a user outside the company, each with nothing changed; otherwise exactly that user is removed |
| MasterDatabase.UsersOf | backend/routers/users.py:54 | exactly the users whose company is the given one |
| MasterDatabase.UniqueUnderSubset | backend/master_database.py:56-58 | any sub-list of a table with unique `(company_id, username)` is unique too |
| MasterDatabase.MasterDb.constructor | backend/master_database.py:96 | the freshly created master tables are empty and satisfy every uniqueness constraint |
| MasterDatabase.InsertMember | backend/master_database.py:108-109 | a row of the table after an insert is an old row or the new one under the next id |
| MasterDatabase.InsertCompany | backend/master_database.py:17-18 | the insert is refused (the integrity error surfaces as a 500) exactly when the code or the name is already used; otherwise the company is added under the next id |
| MasterDatabase.InsertUser | backend/master_database.py:56-58 | the insert is refused exactly when the company already has the username; otherwise the user is added under the next id |
| MasterDatabase.ReplaceMember | backend/master_database.py:56-58 | a row of a replaced table is an untouched old row or the replacement under an existing id |
| MasterDatabase.ReplaceUserKeepsUnique | backend/master_database.py:56-58 | replacing a user by one with the same company and username keeps usernames unique per company |
| MasterDatabase.ReplaceCompanyKeepsUnique | backend/master_database.py:17-18 | replacing a company by one with the same code and name keeps codes and names unique |
| MasterDatabase.UpdateUserRow | backend/master_database.py:39-58 | the user under the id becomes the new record and every other id reads as before |
| MasterDatabase.UpdateCompanyRow | backend/master_database.py:13-35 | the company under the id becomes the new record and every other id reads as before |
| MasterDatabase.DeleteUserRow | backend/master_database.py:39-58 | exactly the user under the id is gone |
| MasterDatabase.DeleteCompanyRow | backend/master_database.py:13-35 | exactly the company under the id is gone |
| MasterDatabase.GenerateCompanyCode | backend/master_database.py:114-120 | the code returned is the first of the drawn six-character lower-case-or-digit codes that no company has; none is returned only when every draw is taken |
| MasterDatabase.FirstFreeDrawUnique | backend/master_database.py:114-120 | the first free draw is unique |
| MasterDatabase.SeedSuperAdmin | backend/master_database.py:101-109 | afterwards a `superadmin` exists; the table is unchanged when one already did, otherwise exactly one row is appended |
| MasterDatabase.SeedIdempotent | backend/master_database.py:101-109 | seeding a second time changes nothing |
| MasterDatabase.SeedLeavesOne | backend/master_database.py:101-109 | after seeding a table with unique names, there is exactly one row named `superadmin` |
| MasterDatabase.SeedAddsOnlyOne | backend/master_database.py:102-108 | when no `superadmin` existed, the only one after seeding is the appended row |
| MasterDatabase.InitMasterDb | backend/master_database.py:94-112 | the super-administrator table becomes its seeded form and the other tables are unchanged |
| AuthRouter.RegisteredUser | backend/routers/auth.py:40-46 | the new user belongs to the requested company with the sent names and the password's hash, and has the requested role or `user` when none is given |
| AuthRouter.UnnamedIsFree | backend/routers/auth.py:19-24 | a username no user anywhere has is free in every company, so the global check is stricter than the per-company constraint |
| AuthRouter.Register | backend/routers/auth.py:13-59 | 400 when the username exists in any company, 400 without a company id, 404 for an unknown company, each with nothing changed; otherwise the user is added and returned with its company |
| AuthRouter.LoginFindsCompany | backend/routers/auth.py:68-71 | with unique codes, an active company with the code is the one the lookup finds |
| AuthRouter.LoginFindsUser | backend/routers/auth.py:77-80 | with usernames unique per company, a user of that name in the company is the one the lookup finds |
| AuthRouter.SetCompanyRow | backend/routers/auth.py:86 | the company row is replaced by its updated columns and the other tables are unchanged |
| AuthRouter.SetUserRow | backend/routers/auth.py:87 | the user row is replaced by its updated columns and the other tables are unchanged |
| AuthRouter.Login | backend/routers/auth.py:61-97 | 404 when no active company has the code; otherwise success exactly when that company has the user and the password checks (401 otherwise); on success the company and the user get `last_login_at = now`, and on failure nothing changes |
| AuthRouter.PendingCompany | backend/routers/auth.py:134-148 | the pending company has the generated code, the sent name and email, the free plan's limits, is inactive and holds the token |
| AuthRouter.PendingAdmin | backend/routers/auth.py:154-161 | the pending admin belongs to the new company, is named after it, has the admin role and is inactive |
| AuthRouter.CompanyRegister | backend/routers/auth.py:114-181 | 403 when verification is disabled; a taken company name fails the insert; otherwise one inactive company with a fresh code and the token is appended, then its inactive admin (failing when the name is taken), and the code is returned |
| AuthRouter.Verified | backend/routers/auth.py:199-202 | the verified company is active, verified now, has no token, and keeps its code, name and plan |
| AuthRouter.ActivateFirstAdmin | backend/routers/auth.py:204-210 | the company's first admin, if any, becomes active and nothing else changes |
| AuthRouter.ActivateByToken | backend/routers/auth.py:189-212 | 404 when verification is disabled or no company holds the token, with nothing changed; otherwise that company is verified and its first admin activated |
| AuthRouter.SeedCompanyDb | backend/routers/auth.py:224-245 | the company database gets the four default categories and the three default settings appended, in order, and nothing else |
| AuthRouter.VerifyEmail | backend/routers/auth.py:183-251 | 404 when verification is disabled or the token is unknown, with nothing changed; otherwise the company is activated, seeded with 4 categories and 3 settings, and its code returned |
| AuthRouter.SeededSettingsRead | backend/routers/auth.py:236-240 | the dashboard reads the seeded settings back as fiscal month 8, current period 1 and the `completed` rule |
| SuperAdminRouter.CurrentSuperAdmin | backend/routers/super_admin.py:36-40 | the request is admitted exactly when the token's `super_admin_id` names an existing super administrator, who is returned; otherwise 401 |
| SuperAdminRouter.SuperLogin | backend/routers/super_admin.py:42-64 | success returns a super administrator of that name whose password checks; anything else is 401 |
| SuperAdminRouter.SuperLoginExactly | backend/routers/super_admin.py:49-54 | with unique names, login as an existing administrator succeeds exactly when the password checks, and returns that administrator |
| SuperAdminRouter.SuperLoginUnknown | backend/routers/super_admin.py:53-54 | an unknown username is always 401 |
| SuperAdminRouter.SummaryOf | backend/routers/super_admin.py:82-97 | a company's summary carries its id, name and code and the number of its users |
| SuperAdminRouter.GetAllCompanies | backend/routers/super_admin.py:66-99 | one summary per company, in table order |
| SuperAdminRouter.UserCountStep | backend/routers/super_admin.py:83 | adding a user raises exactly its own company's count by one |
| SuperAdminRouter.UserCountsCoverUsers | backend/routers/super_admin.py:83-92 | when every user belongs to a listed company, the user counts of all companies add up to the number of users |
| SuperAdminRouter.CompanyUsers | backend/routers/super_admin.py:101-117 | one summary per user of the company, in table order |
| SuperAdminRouter.CompanyUsersExactly | backend/routers/super_admin.py:108 | every summary is of a user of that company, and every user of that company is summarised |
| SuperAdminRouter.Toggled | backend/routers/super_admin.py:130 | the active flag is negated and every other column is kept |
| SuperAdminRouter.ToggledTwice | backend/routers/super_admin.py:130 | toggling twice restores the company |
| SuperAdminRouter.ToggleCompanyActive | backend/routers/super_admin.py:119-133 | 404 for an unknown id with nothing changed; otherwise only that company's flag is negated and the new state is reported |
| SuperAdminRouter.ToggleTwiceRestores | backend/routers/super_admin.py:126-131 | applying the toggle twice to a table restores it |
| SuperAdminRouter.WithPlan | backend/routers/super_admin.py:149-151 | exactly `plan_type`, `max_users` and `storage_limit_mb` take the given values |
| SuperAdminRouter.UpdateCompanyPlan | backend/routers/super_admin.py:135-154 | 404 for an unknown id with nothing changed; otherwise only that company's plan columns change and every other company reads as before |
| SuperAdminRouter.IdAmongStep | backend/routers/super_admin.py:171-174 | the ids deleted so far grow by one user per step |
| SuperAdminRouter.DeleteStep | backend/routers/super_admin.py:172-173 | each loop step removes exactly the next doomed user |
| SuperAdminRouter.DeleteUsers | backend/routers/super_admin.py:171-174 | afterwards exactly the users not listed as doomed remain |
| SuperAdminRouter.DeleteCompany | backend/routers/super_admin.py:156-176 | 404 for an unknown id with nothing changed; otherwise the company and exactly the users with its `company_id` are removed, and its name is returned |
| SuperAdminRouter.Stats | backend/routers/super_admin.py:216-226 | the company and user totals are the table sizes, and the active, paid and free counts are each at most the company total |
| SuperAdminRouter.PaidAndFree | backend/routers/super_admin.py:224-225 | paid and free companies and those with a null plan account for every company; paid plus free is the total exactly when no plan is null |
| SuperAdminRouter.ValidateCreateCompany | backend/routers/super_admin.py:332-338 | the name is required (422 without); the plan defaults to `free` and the other fields to none |
| SuperAdminRouter.PlanFor | backend/routers/super_admin.py:363-383 | an unknown plan type gets the free plan's limits |
| SuperAdminRouter.OrElse | backend/routers/super_admin.py:392 | Python's `x or d` on an optional string: the value when it is non-empty, the default otherwise |
| SuperAdminRouter.CustomCompany | backend/routers/super_admin.py:383-401 | the company has the chosen code, the name, the sent email or `admin@{code}.local`, the requested plan string with that plan's limits, is active, verified now, and expires after now |
| SuperAdminRouter.CustomAdmin | backend/routers/super_admin.py:413-419 | the admin is active with the admin role, named `admin` unless one is sent, with the hash of the sent password or `admin123` |
| SuperAdminRouter.ChooseCode | backend/routers/super_admin.py:350-360 | a sent code is used unless a company has it (400); without one, the first free draw is used; the code is never taken |
| SuperAdminRouter.CreateCustomCompany | backend/routers/super_admin.py:340-431 | 400 exactly for a sent code already in use, creating nothing; otherwise, with the sent code or the first free draw, success exactly when the expiry can be computed, the name is free and the new company has no user of the admin's name; then the company and its admin are appended, and the code and the admin credentials are returned; when only the admin's name is taken, the 500 leaves the company committed without an admin |
| SuperAdminRouter.ResetUserPassword | backend/routers/super_admin.py:433-456 | 404 for an unknown user with nothing changed; otherwise only that user's hash changes, to the hash of the sent password or `password123` |
| SuperAdminRouter.BackupCompanyName | backend/routers/super_admin.py:285-287 | the company's name when it still exists, a placeholder otherwise |
| SuperAdminRouter.FileEntriesExactly | backend/routers/super_admin.py:290-302 | the entries are exactly the folder's `.db` files, each under the folder's company |
| SuperAdminRouter.FileBackups | backend/routers/super_admin.py:290-302 | the loop collects the entries of the `.db` files, in file order |
| SuperAdminRouter.FolderEntries | backend/routers/super_admin.py:280-283 | a folder not named `company_…` contributes nothing; a non-numeric id after the prefix is an error 500 |
| SuperAdminRouter.CollectBackups | backend/routers/super_admin.py:278-302 | the entries of all folders in listing order, or the error 500 of a malformed folder |
| SuperAdminRouter.NewerFirstTotal | backend/routers/super_admin.py:305 | ordering by `created_at` in Python's code-point order, newest first, is a total preorder |
| SuperAdminRouter.FolderBackups | backend/routers/super_admin.py:280-302 | one folder's step of the listing loop computes that folder's entries |
| SuperAdminRouter.GetAllBackups | backend/routers/super_admin.py:269-306 | a permutation of the collected entries, sorted newest first, ties in listing order; an error 500 exactly when a folder is malformed |
| SuperAdminRouter.CollectStopsAtError | backend/routers/super_admin.py:280-282 | once a folder is malformed the whole listing fails |
| Schemas.ValidateProject | backend/schemas.py:58-74 | a project body is accepted exactly when `project_code` and `name` are sent (422 otherwise); sent fields are kept and omitted ones take the schema defaults (`contract_amount` 0, `tax_type` `included`, `tax_rate` 10, `status` `active`, the rest none) |
| Schemas.ValidateCost | backend/schemas.py:104-118 | a cost body is accepted exactly when `project_id`, `date`, `vendor`, `amount` and `total_amount` are sent (422 otherwise); omitted fields take the defaults `included`, 0, `材料費`, `unpaid` and none |
| Schemas.ValidateVendor | backend/schemas.py:136-148 | a vendor body is accepted exactly when `name` is sent; omitted fields take the defaults (`default_tax_type` `included`, active, not favourite, the rest none) |
| Schemas.ValidateCategory | backend/schemas.py:158-166 | a category body is accepted exactly when `name` is sent; omitted fields take the defaults (no colour, order 999, not default, active) |
| Schemas.ValidateCustomer | backend/schemas.py:176-186 | a customer body is accepted exactly when `name` is sent; omitted fields take the defaults (active, the rest none) |
| Schemas.ValidateLogin | backend/schemas.py:35-38 | a login body is accepted exactly when company code, username and password are all sent, and carries them |
| Schemas.ValidateRegister | backend/schemas.py:26-33 | a registration body is accepted exactly when username, name and password are sent; the role defaults to `user` and the company to none |
| Schemas.ValidateCompanyRegister | backend/schemas.py:240-245 | a company registration is accepted exactly when company name, email, admin username and admin password are sent; the plan defaults to `free` |
| Schemas.ValidateSettingValue | backend/schemas.py:208-209 | a setting update is accepted exactly when `value` is sent, and carries it |
| Tables.NextId | backend/company_models.py:10 | the autoincrement key of an insert is larger than every key in the table, so it is new |
| Tables.Get | backend/routers/projects.py:95-97 | the lookup by primary key finds nothing exactly when no row has the key, and otherwise a record stored under it |
| Tables.KeyedRow | backend/company_models.py:10 | in a table with ascending keys two rows with one key are the same row |
| Tables.GetUnique | backend/company_models.py:10 | a record stored under a key is the one the lookup returns |
| Tables.Insert | backend/routers/projects.py:84-85 | an insert keeps the keys ascending and adds one row |
| Tables.GetInsert | backend/routers/projects.py:84-85 | after an insert the new key holds the new record and every other key reads as before |
| Tables.Replace | backend/routers/projects.py:116-120 | a write-back keeps the table's size and every row's key |
| Tables.ReplaceAscending | backend/routers/projects.py:116-120 | a write-back keeps the keys ascending |
| Tables.GetReplace | backend/routers/projects.py:116-120 | after a write-back the key holds the new record (when it was present) and every other key reads as before |
| Tables.ReplaceAbsent | backend/routers/projects.py:116-120 | writing back under a key the table lacks changes nothing |
| Tables.ReplaceSame | backend/routers/projects.py:116-120 | writing back the record a key already holds changes nothing |
| Tables.ReplaceReplace | backend/routers/projects.py:116-120 | of two write-backs under one key the second is the one that counts |
| Tables.Remove | backend/routers/projects.py:136-137 | a delete leaves only rows of the table, none with the deleted key |
| Tables.RemoveAscending | backend/routers/projects.py:136-137 | a delete keeps the keys ascending |
| Tables.RemoveMembers | backend/routers/projects.py:136-137 | the rows left by a delete are exactly those with another key |
| Tables.GetRemove | backend/routers/projects.py:136-137 | after a delete the key is absent and every other key reads as before |
| Tables.FirstWhere | backend/routers/projects.py:44-46 | `query.filter(...).first()`: the index found is in range and its row satisfies the filter |
| Tables.FirstWhereSpec | backend/routers/projects.py:44-46 | no earlier row satisfies the filter, and nothing is found exactly when no row does |
| Tables.FirstWhereOnly | backend/routers/projects.py:44-46 | when the rows satisfying the filter all share one key, the first of them is that row |
| Tables.InsertAll | backend/routers/auth.py:231-245 | adding several records keeps the keys ascending and adds one row per record |
| Tables.InsertAllRows | backend/routers/auth.py:231-245 | the added rows follow the old ones in the order given, with consecutive new keys |
| Tables.InsertEach | backend/routers/auth.py:231-233 | the `for` loop of `add` calls computes the batch insert |
| Tables.SetAttrLoop | backend/routers/projects.py:116-117 | the `setattr` loop applies the sent fields in order |
| CompanyModels.InsertValue | backend/company_models.py:18-21 | an inserted `None` stores the column default, a sent value is stored as is |
| CompanyModels.CompanyDb.constructor | backend/company_database.py:26 | a freshly created company database has every table empty and valid |
| Calendar.DaysInMonth | backend/routers/dashboard.py:80-90 | the month lengths `datetime.date` accepts: 31 for the long months, 29 only for February of a leap year, 28 to 31 in all |
| Calendar.MakeDate | backend/routers/dashboard.py:80-90 | `date(y, m, d)` succeeds exactly for an existing date and fails with an error 500 otherwise |
| Calendar.DateOrder | backend/routers/dashboard.py:108-115 | the date comparison is a strict total order |
| Calendar.NextDay | backend/routers/super_admin.py:386 | the day after a date exists except after 9999-12-31 and is later |
| Calendar.AddDays | backend/routers/super_admin.py:386 | adding a positive number of days gives a valid later date, or the overflow error |
| Calendar.TsAddDays | backend/routers/super_admin.py:386 | `datetime + timedelta(days=n)` keeps the time of day and gives a later timestamp |
| Calendar.FixedDigits | backend/routers/dashboard.py:202-203 | the zero-filled rendering has exactly the width asked for and only digits |
| Calendar.FixedDigitsValue | backend/routers/dashboard.py:202-203 | the zero-filled digits read back as the number |
| Calendar.IsoFormat | backend/routers/dashboard.py:202-203 | `isoformat` renders ten characters with hyphens at positions 4 and 7 |
| Calendar.ParseYmd | backend/routers/dashboard.py:92-93 | `strptime(s, "%Y-%m-%d")` on ASCII digits yields only valid dates, fails with an error 500, and rejects strings under eight characters |
| Calendar.ParseIsoFormat | backend/routers/dashboard.py:92-93 | every rendered date is parsed back as the same date |
| Base.Status | backend/routers/projects.py:99 | each error is reported with its HTTP status, between 400 and 500 |
| Text.Lower | frontend/src/pages/ProjectList.jsx:188-191 | lower-casing maps each character on its own, folds the ASCII letters and leaves no upper-case ASCII letter |
| Text.LowerIdempotent | frontend/src/pages/ProjectList.jsx:188-191 | lower-casing twice is lower-casing once |
| Text.ContainsEmpty | frontend/src/pages/ProjectList.jsx:188 | `includes("")` holds for every string |
| Text.ContainsSelf | frontend/src/pages/ProjectList.jsx:188 | every string includes itself |
| Text.StrLtIrreflexive | frontend/src/pages/CostList.jsx:113-115 | the string order of either language (JavaScript: UTF-16 code units; Python: code points) is irreflexive |
| Text.StrLtTransitive | frontend/src/pages/CostList.jsx:113-115 | the string order of either language is transitive |
| Text.StrLtTrichotomy | frontend/src/pages/CostList.jsx:113-115 | under either language's order, any two strings are ordered one way, or equal |
| Text.StrLtAsymmetric | frontend/src/pages/CostList.jsx:113-115 | the string order of either language is asymmetric |
| Text.StrLeTotalOrder | frontend/src/pages/CostList.jsx:113-115 | the non-strict string order of either language is total, antisymmetric and transitive |
| Text.Utf16Units | frontend/src/pages/CostList.jsx:113-115 | a character is one UTF-16 code unit, or a surrogate pair of two |
| Text.SeqLtCommonPrefix | frontend/src/pages/CostList.jsx:113-115 | a common prefix makes no difference to the lexicographic order of code-unit sequences |
| Text.UnitsDecide | frontend/src/pages/CostList.jsx:113-115 | two different characters compare in code-unit order exactly as their JavaScript order keys compare |
| Text.CodeUnitOrder | frontend/src/pages/CostList.jsx:113-115 | JavaScript's `<` on strings holds exactly when the UTF-16 code units of one come lexicographically before those of the other |
| Text.SurrogatePairFirst | frontend/src/pages/CostList.jsx:113-115 | U+20BB7 (a surrogate pair) sorts before U+FF08 in JavaScript and after it in Python |
| Text.StrLeTotal | frontend/src/pages/CostList.jsx:113-115 | JavaScript's `<=` on strings and Python's are total preorders, so sorting by them is well defined |
| Text.NatToString | frontend/src/pages/ProjectList.jsx:185 | `String(n)` of a natural number is a non-empty digit string without a leading zero |
| Text.DigitsValueOfNatToString | frontend/src/pages/ProjectList.jsx:185 | the rendered digits read back as the number |
| Text.PadStart | frontend/src/pages/ProjectList.jsx:185 | `padStart(w, c)` keeps the string as the suffix, fills the front with `c` and reaches length `w` when shorter |
| Text.Repeat | frontend/src/pages/ProjectList.jsx:185 | the fill is `n` copies of one character |
| Text.TrimStart | backend/routers/dashboard.py:60-61 | what is removed is a prefix of white space of the given parser (for `int()`: tab to carriage return, the space and the non-ASCII `str.isspace` characters, but not U+001C to U+001F; for `parseInt`: ECMAScript's WhiteSpace and LineTerminator), and what is left does not start with such white space |
| Text.TrimEnd | backend/routers/dashboard.py:60-61 | what is removed is a suffix of white space of the given parser, and what is left does not end with such white space |
| Text.TrimStartSkips | backend/routers/dashboard.py:60-61 | a prefix of white space makes no difference to what the trim leaves |
| Text.TrimEndSkips | backend/routers/dashboard.py:60-61 | a suffix of white space makes no difference to what the trim leaves |
| Text.TrimBothSkips | backend/routers/dashboard.py:60-61 | trailing white space makes no difference to what trimming both ends leaves |
| Text.PyStripSkips | backend/routers/dashboard.py:60-61 | white space on either side makes no difference to what `int()` reads |
| Text.DropUnderscoresOfDigits | backend/routers/dashboard.py:60-61 | a string of digits has no underscore to drop |
| Text.DropUnderscoresAppend | backend/routers/dashboard.py:60-61 | dropping underscores distributes over concatenation |
| Text.DigitsDropped | backend/routers/dashboard.py:60-61 | digits and underscores leave only digits once the underscores are dropped |
| Text.PyDigitsDropped | backend/routers/dashboard.py:60-61 | a Python digit string leaves only digits once its underscores are dropped |
| Text.PyInt | backend/routers/dashboard.py:60-61 | `int(s)` succeeds exactly when, after stripping the white space `int()` strips (tab to carriage return, the space and the non-ASCII `str.isspace` characters) and one sign, the rest is ASCII digits with single underscores between them, and then yields the signed value of those digits |
| Text.PyIntStripsSpace | backend/routers/dashboard.py:60-61 | white space around the text never changes what `int()` yields |
| Text.PyIntUnderscoreSeparated | backend/routers/dashboard.py:60-61 | an underscore between two digit groups is ignored, as in `int("1_000") == 1000` |
| Text.PyDigitsJoined | backend/routers/dashboard.py:60-61 | two digit groups joined by one underscore are a valid Python digit string |
| Text.DropJoined | backend/routers/dashboard.py:60-61 | dropping the joining underscore leaves the two digit groups |
| Text.PyByteOrderMark | backend/routers/dashboard.py:60-61 | `int()` refuses a byte-order mark before the digits, which is not white space to it |
| Text.PyInformationSeparator | backend/routers/dashboard.py:60-61 | `int()` refuses U+001C before the digits, although `str.isspace` accepts it |
| Text.JsParseInt | frontend/src/components/CostForm.jsx:40-41 | `parseInt(s)` skips leading white space and one sign, reads base 16 after `0x` or `0X` and base 10 otherwise, and is NaN exactly when no digit follows; the value is the signed value of the longest digit run |
| Text.JsParseIntSkipsSpace | frontend/src/components/CostForm.jsx:40-41 | leading white space never changes what `parseInt` yields |
| Text.JsParseIntReadsPrefix | frontend/src/components/CostForm.jsx:40-41 | `parseInt` reads the leading digits and ignores the rest, as in `parseInt("12px") == 12` |
| Text.JsByteOrderMark | frontend/src/components/CostForm.jsx:40-41 | `parseInt` skips a byte-order mark before the digits |
| Text.HexNotation | frontend/src/components/CostForm.jsx:40-41 | without a radix, `parseInt("0x1A")` is 26 |
| Text.HexPrefix | frontend/src/components/CostForm.jsx:40-41 | the run of base-16 digits `parseInt` reads after `0x` is the longest such prefix |
| Text.Unsigned | frontend/src/components/CostForm.jsx:40-41 | one leading sign is removed, and nothing else |
| Text.DigitNotSpace | frontend/src/components/CostForm.jsx:40-41 | a digit or a sign is never white space to either parser |
| Text.DigitPrefix | frontend/src/components/CostForm.jsx:40-41 | the run of digits `parseInt` reads is the longest digit prefix |
| Text.DigitPrefixOfDigits | frontend/src/components/CostForm.jsx:40-41 | an all-digit string is read whole |
| Text.DigitPrefixStops | frontend/src/components/PrintPreview.jsx:28 | the digit run stops at the first non-digit |
| Text.JsParseIntOfIntToString | frontend/src/components/CostForm.jsx:40-41 | `parseInt` reads back every rendered integer |
| Text.PyIntOfIntToString | backend/routers/dashboard.py:60-61 | Python's `int()` reads back every rendered integer |
| Text.Before | backend/routers/super_admin.py:282 | the text before the first separator, which does not contain it |
| Text.BeforeAbsent | backend/routers/super_admin.py:282 | a string without the separator is kept whole |
| Text.LeadingNumber | frontend/src/components/PrintPreview.jsx:28 | `match(/^(\d+)-/)`: a non-empty digit group that starts the string and is followed by a hyphen |
| Text.LeadingNumberExactly | frontend/src/components/PrintPreview.jsx:28 | digits followed by a hyphen match, with those digits as the group |
| Text.AfterHyphen | frontend/src/components/PrintPreview.jsx:61 | `match(/-(.+)$/)`: the group is a non-empty line ending the string after a hyphen; no match means no hyphen is followed by such a line |
| Text.AfterHyphenOf | frontend/src/components/PrintPreview.jsx:61 | a hyphen-free prefix, a hyphen and a one-line number give that number |
| Seqs.Find | frontend/src/pages/Settings.jsx:152 | `find` returns a listed element that passes the test |
| Seqs.FindNone | frontend/src/pages/ProjectList.jsx:76 | nothing is found exactly when no element passes the test |
| Seqs.FindFirst | frontend/src/pages/Settings.jsx:152 | `find` returns the first element that passes the test |
| Seqs.Filter | frontend/src/pages/CostList.jsx:118-130 | `filter` never lengthens a list |
| Seqs.FilterSpec | frontend/src/pages/CostList.jsx:118-130 | the kept elements are elements satisfying the test, and every element satisfying it is kept |
| Seqs.FilterAppend | frontend/src/pages/CostList.jsx:118-130 | filtering distributes over concatenation |
| Seqs.FilterAll | frontend/src/pages/CostList.jsx:118-130 | a test every element passes keeps the list |
| Seqs.FilterFilter | frontend/src/pages/CostList.jsx:118-130 | two filters in a row are the filter by both tests |
| Seqs.FilterSorted | frontend/src/pages/ProjectList.jsx:152-226 | filtering a sorted list keeps it sorted |
| Seqs.FilterPermutation | frontend/src/pages/ProjectList.jsx:152-226 | filtering permutations gives permutations |
| Seqs.SumByAppend | frontend/src/pages/CostList.jsx:156 | a `reduce` sum distributes over concatenation |
| Seqs.SumByMonotone | frontend/src/components/PrintPreview.jsx:72-73 | a sum of pointwise smaller terms is smaller |
| Seqs.SumByNonNegative | frontend/src/components/PrintPreview.jsx:72-73 | a sum of non-negative terms is non-negative |
| Seqs.SumByFilterSplit | backend/routers/dashboard.py:120-143 | the sum over a disjoint union of two filters is the sum of the two sums |
| Seqs.FilterCountSplit | backend/routers/super_admin.py:222-226 | three disjoint tests covering every element count the list |
| Seqs.Dedup | frontend/src/pages/CostList.jsx:113-115 | `[...new Set(xs)]` holds exactly the elements of `xs`, without duplicates |
| Seqs.InsertBy | frontend/src/pages/ProjectList.jsx:152-180 | inserting one element adds it to the multiset |
| Seqs.InsertBySorted | frontend/src/pages/ProjectList.jsx:152-180 | inserting into a sorted list keeps it sorted |
| Seqs.SortBy | frontend/src/pages/ProjectList.jsx:152-180 | sorting is a permutation |
| Seqs.SortBySorted | frontend/src/pages/ProjectList.jsx:152-180 | for a total preorder, the sort is sorted and a permutation |
| Seqs.NoDuplicatesPermutation | frontend/src/pages/CostList.jsx:113-115 | a permutation of a duplicate-free list is duplicate-free |
| Seqs.Page | backend/routers/costs.py:34 | `offset(skip).limit(limit)`: the consecutive rows starting at the offset, at most `limit` of them, and all that remain when fewer |
| Seqs.PageIn | backend/routers/costs.py:34 | every row of a page is a row of the table |
| Seqs.Take | frontend/src/components/DashboardCards.jsx:30 | a prefix of at most `n` elements |
| ListSort.HandleSort | frontend/src/pages/ProjectList.jsx:142-148 | a header click sorts by that column, descending exactly when it was already sorted ascending by it |
| ListSort.HandleSortAlternates | frontend/src/pages/ProjectList.jsx:142-148 | a second click on the same column flips the direction |
| ListSort.HandleSortNewKey | frontend/src/pages/ProjectList.jsx:142-148 | a click on another column starts ascending |
| Js.Get | frontend/src/pages/ProjectList.jsx:251-252 | reading a missing key is `undefined`, a present key its value |
| Js.Or | frontend/src/pages/ProjectDetail.jsx:30 | the logical or of two values is the first when truthy and the second otherwise |
| Js.ParseInt | frontend/src/components/CostForm.jsx:40-41 | `parseInt` keeps integers below 1e21 in magnitude, reads strings as `Text.JsParseInt` does and is `NaN` (sent as null) when that finds no digit |
| Js.DatePart | frontend/src/pages/CostList.jsx:66 | `split('T')[0]` is a prefix free of `T` |
| Js.DatePartOfDate | frontend/src/pages/CostList.jsx:66 | a bare date is kept |
| Js.DatePartOf | frontend/src/pages/CostList.jsx:66 | only strings are cut |
| ApiData.TotalAmountAppend | frontend/src/pages/CostList.jsx:156 | the total of concatenated cost lists is the sum of their totals |
| ApiData.TotalAmountNonNegative | frontend/src/pages/CostList.jsx:156 | non-negative amounts give a non-negative total |
| ApiData.FindSetting | frontend/src/pages/Dashboard.jsx:26 | `find` returns a listed setting with that key |
| ApiData.FindSettingNone | frontend/src/pages/Dashboard.jsx:26 | nothing is found exactly when no setting has the key |
| ApiData.SettingOr | frontend/src/pages/Dashboard.jsx:26-31 | the value of the found setting, or the fallback when that is missing or empty, is the fallback or the value of a setting with that key, and empty only when the fallback is |
| ApiData.SettingOrExactly | frontend/src/pages/Dashboard.jsx:26-31 | with one row per key, a non-empty value is used, and a missing key gives the fallback |
| Profit.ProfitRate | backend/routers/dashboard.py:286 | the rate is 0 without a positive amount and otherwise the exact quotient `100 * profit / amount` |
| Profit.RateAtLeast | backend/routers/dashboard.py:286 | the rate reaches `pct` exactly when `100 * profit >= pct * amount` |
| Profit.RateBand | frontend/src/components/DashboardCards.jsx:71-72 | green exactly from 30 percent, red exactly below 20 percent |
| Profit.RateBandMonotone | frontend/src/components/DashboardCards.jsx:71-72 | a higher rate never gets a worse band |
| Profit.BandOfProfit | frontend/src/components/DashboardCards.jsx:71-72 | the band of a profit in integer terms: red without a positive amount, green when `10 * profit >= 3 * amount`, yellow when `5 * profit >= amount` |
| Profit.RateWithinPercent | backend/routers/dashboard.py:393 | a cost between zero and the amount gives a rate between 0 and 100 |
| CostTable.FilterCosts | frontend/src/pages/CostList.jsx:118-140 | the header filters keep, in order, exactly the costs that match every filter that is set |
| CostTable.FilteredExactly | frontend/src/pages/CostList.jsx:121-140 | a cost is shown exactly when it is listed and matches the date, project, vendor and category filters that are set |
| CostTable.ResetShowsAll | frontend/src/pages/CostList.jsx:159-166 | after the filters are reset every cost is shown, in order |
| CostTable.LessStrict | frontend/src/pages/CostList.jsx:144-152 | the `<` of the comparator is asymmetric and negatively transitive on every column, among costs holding a category when the column is the category |
| CostTable.StrLessStrict | frontend/src/pages/CostList.jsx:145-149 | string `<` is asymmetric and negatively transitive |
| CostTable.CostLeTotal | frontend/src/pages/CostList.jsx:144-152 | the comparator is a total preorder in either direction on any costs holding a value in the column, so the sort is well defined there |
| CostTable.NullCategoryInconsistent | frontend/src/pages/CostList.jsx:144-152 | a NULL category ties with two ordered categories, so on the category column the comparator is no total preorder |
| CostTable.SortCosts | frontend/src/pages/CostList.jsx:143-153 | without a sort key the order is kept; the sort is a permutation |
| CostTable.SortCostsSorted | frontend/src/pages/CostList.jsx:143-153 | with a key, the costs come out ordered by that column in the chosen direction, strings in UTF-16 code-unit order, when every shown cost holds a value in the column |
| CostTable.ShownCosts | frontend/src/pages/CostList.jsx:118-153 | the rows shown are the filtered costs, sorted, strings in UTF-16 code-unit order |
| CostTable.TotalOfShown | frontend/src/pages/CostList.jsx:156 | the total is the sum of the filtered amounts whatever the sort |
| CostTable.TotalAmountPermutation | frontend/src/pages/CostList.jsx:156 | permuted costs have the same total |
| CostTable.SortedUnique | frontend/src/pages/CostList.jsx:113-115 | the option list is a permutation of the de-duplicated values |
| CostTable.SortedUniqueSpec | frontend/src/pages/CostList.jsx:113-115 | the options are sorted by their strings in UTF-16 code-unit order, free of duplicates, and are exactly the values that occur |
| CostTable.TextLeTotal | frontend/src/pages/CostList.jsx:113-115 | comparing values by their strings is a total preorder |
| CostTable.CategoryOptions | frontend/src/pages/CostList.jsx:115 | the category options hold `null` exactly when a cost has a NULL category, placed as the string `"null"` sorts, and every occurring category once |
| CostTable.Dates | frontend/src/pages/CostList.jsx:113 | one date part per cost, in order |
| CostTable.Vendors | frontend/src/pages/CostList.jsx:114 | one vendor per cost, in order |
| CostTable.Categories | frontend/src/pages/CostList.jsx:115 | one category per cost, in order, `null` for a NULL category |
| CostTable.CostEditForm | frontend/src/pages/CostList.jsx:62-68 | the edit form is the cost with its date cut to the date part |
| CostTable.CostEditPayload | frontend/src/pages/CostList.jsx:71-77 | the update sends the form with `amount` and `total_amount` both `parseInt` of the edited amount |
| CostTable.EditUnchanged | frontend/src/pages/CostList.jsx:62-77 | saving an untouched edit sends the cost's own amount as both amounts |
| CostTable.ManagementEditKeepsDate | frontend/src/pages/CostManagement.jsx:105-111 | the cost management page sends the cost as fetched, with its own amount as both amounts and its date uncut |
| CostTable.ActiveProjects | frontend/src/pages/CostManagement.jsx:59 | the project choice is a sublist of the projects |
| CostTable.ActiveProjectsExactly | frontend/src/pages/CostManagement.jsx:59 | exactly the active projects are offered |
| CostTable.EntryInitial | frontend/src/pages/CostManagement.jsx:17-25 | the entry form opens with today's date, the given category, tax included and every other field blank |
| CostTable.EntryPayload | frontend/src/pages/CostManagement.jsx:79-84 | the form with `amount` and `total_amount` both `parseInt` of the amount |
| CostTable.PartialReset | frontend/src/pages/CostManagement.jsx:90-95 | after a save vendor, description and amount are cleared and the other fields kept |
| CostTable.ResetNeedsNewEntry | frontend/src/pages/CostManagement.jsx:73-95 | the cleared form cannot be sent again as it stands, and keeps project, date, category and tax type |
| CostFormComponent.Initial | frontend/src/components/CostForm.jsx:6-14 | the form opens on category 材料費 with tax included and no project, so it cannot be sent |
| CostFormComponent.HandleSubmit | frontend/src/components/CostForm.jsx:29-60 | without project, vendor and amount nothing is sent and the form is kept; otherwise the entry payload is sent, and on failure the form is kept |
| CostFormComponent.ResetKeepsContext | frontend/src/components/CostForm.jsx:47-53 | after a successful save the form keeps its context, clears the rest, and cannot be resent unchanged |
| CostManagementPage.Initial | frontend/src/pages/CostManagement.jsx:17-25 | the form opens with no category, tax included, and cannot be sent |
| CostManagementPage.SubmitPayload | frontend/src/pages/CostManagement.jsx:79-84 | the entry payload with a blank category replaced by 材料費 |
| CostManagementPage.HandleSubmit | frontend/src/pages/CostManagement.jsx:70-102 | without project, vendor and amount nothing is sent; otherwise the payload is sent, and on failure the form is kept |
| CostManagementPage.SubmitThenResubmit | frontend/src/pages/CostManagement.jsx:70-102 | a sent cost always has a category and equal amounts, and the reset form cannot be resent unchanged |
| ProjectDetailPage.ProjectCosts | frontend/src/pages/ProjectDetail.jsx:71-73 | the page's costs are a sublist of the fetched costs |
| ProjectDetailPage.ProjectCostsExactly | frontend/src/pages/ProjectDetail.jsx:71-73 | a cost is shown exactly when it was fetched and belongs to the page's project |
| ProjectDetailPage.FiguresOf | frontend/src/pages/ProjectDetail.jsx:275-278 | the total cost is the sum of the amounts, profit plus cost is the contract (0 when null), and the rate is 0 without a positive contract and otherwise the exact percentage |
| ProjectDetailPage.FiguresBand | frontend/src/pages/ProjectDetail.jsx:525-528 | the page's colour band in integer terms of the contract and the cost total |
| ProjectDetailPage.FiguresWithinPercent | frontend/src/pages/ProjectDetail.jsx:275-278 | non-negative costs within a positive contract give a rate between 0 and 100 |
| ProjectDetailPage.CostPayload | frontend/src/pages/ProjectDetail.jsx:183-188 | the cost sent carries the page's project id and `amount == total_amount == parseInt(amount)`, with every other field as entered |
| ProjectDetailPage.HandleCostSubmit | frontend/src/pages/ProjectDetail.jsx:174-206 | without vendor and amount nothing is sent; otherwise the payload is sent, the form resets to today, 材料費 and tax included on success, and is kept on failure |
| ProjectDetailPage.OrNull | frontend/src/pages/ProjectDetail.jsx:101 | or-null: a truthy value is kept, anything else becomes null |
| ProjectDetailPage.EditForm | frontend/src/pages/ProjectDetail.jsx:133-142 | the edit form is the project with its four dates cut to `YYYY-MM-DD`, or blank when unset |
| ProjectDetailPage.SaveEditSpread | frontend/src/pages/ProjectDetail.jsx:147-154 | the spread sets the contract to `parseInt` of it or 0 and each blank date to null |
| ProjectDetailPage.EmptyToNull | frontend/src/pages/ProjectDetail.jsx:156-160 | an empty string becomes null and every other value is kept |
| ProjectDetailPage.NullEmpties | frontend/src/pages/ProjectDetail.jsx:156-160 | the loop over the keys maps every value through the empty-to-null rule and keeps the keys |
| ProjectDetailPage.SaveEditPayload | frontend/src/pages/ProjectDetail.jsx:145-162 | the update sent has no empty string, the parsed contract, null for blank dates and every other field as edited |
| ProjectDetailPage.InlineSave | frontend/src/pages/ProjectDetail.jsx:97-109 | the inline save sends the project with just the edited field replaced, by null when the input is empty |
| ProjectDetailPage.InlineCancel | frontend/src/pages/ProjectDetail.jsx:124-130 | cancelling restores the field from the project (blank when unset, dates cut), leaving the other inputs |
| ProjectDetailPage.CancelThenSave | frontend/src/pages/ProjectDetail.jsx:97-130 | saving right after cancelling sends the project unchanged for null, non-date and bare-date values |
| ProjectListPage.FindUser | frontend/src/pages/ProjectList.jsx:76 | the user found is listed and is the project's owner |
| ProjectListPage.FindUserNone | frontend/src/pages/ProjectList.jsx:76 | nobody is found exactly when no listed user is the owner |
| ProjectListPage.WithProfit | frontend/src/pages/ProjectList.jsx:66-86 | each listed project carries the detail page's figures over its own costs, and the owner's staff code, or blanks when the owner is not listed |
| ProjectListPage.ProjectLeTotal | frontend/src/pages/ProjectList.jsx:154-172 | the null-last comparator is a total preorder in both directions |
| ProjectListPage.SortedProjects | frontend/src/pages/ProjectList.jsx:151-175 | without a key the list is returned as is; with one, a permutation of it |
| ProjectListPage.SortedNullsLast | frontend/src/pages/ProjectList.jsx:154-172 | the sorted list is ordered by the comparator and every null value comes after every non-null one |
| ProjectListPage.FullCode | frontend/src/pages/ProjectList.jsx:184-186 | with a period and a staff code, the period padded to two digits, the staff code, a hyphen and the code; otherwise the code |
| ProjectListPage.FullCodeEndsWithCode | frontend/src/pages/ProjectList.jsx:184-186 | the full code always ends with the project code |
| ProjectListPage.SearchFindsOwnName | frontend/src/pages/ProjectList.jsx:181-192 | searching for a project's name keeps it |
| ProjectListPage.FilterWanted | frontend/src/pages/ProjectList.jsx:181-198 | the search and status filters keep, in order, exactly the projects that satisfy both |
| ProjectListPage.FilterInRange | frontend/src/pages/ProjectList.jsx:200-222 | the date and amount filters keep, in order, exactly the projects within every bound that is set |
| ProjectListPage.FilteredProjects | frontend/src/pages/ProjectList.jsx:178-225 | the list shown is the sorted list narrowed by the whole panel |
| ProjectListPage.ShownProjects | frontend/src/pages/ProjectList.jsx:178-225 | the projects shown are exactly the kept ones, each once per fetch, sorted when a column is chosen and in fetch order otherwise |
| ProjectListPage.EmptyPanelShowsAll | frontend/src/pages/ProjectList.jsx:181-222 | an empty panel with status `all` keeps every project |
| ProjectListPage.AmountRange | frontend/src/pages/ProjectList.jsx:213-222 | the amount bounds are inclusive and compare a null contract as 0 |
| ProjectFormComponent.Initial | frontend/src/components/ProjectForm.jsx:5-14 | the form opens with every field blank except the start date, today |
| ProjectFormComponent.Payload | frontend/src/components/ProjectForm.jsx:40-46 | the contract is `parseInt` of it or 0, blank dates are null, the status is always `active`, and every other field passes through |
| ProjectFormComponent.HandleSubmit | frontend/src/components/ProjectForm.jsx:31-66 | without code and name nothing is sent; otherwise the payload is sent, the form resets on creation and is kept otherwise |
| ProjectFormComponent.SubmitThenReset | frontend/src/components/ProjectForm.jsx:34-59 | a sent project has the code and name entered, a numeric or null contract and status `active`, and the reset form cannot be resent |
| DashboardPage.FiscalOf | frontend/src/pages/Dashboard.jsx:23-32 | the start month and period are never empty: each is its default (`8`, `1`) or the value of the setting with its key |
| DashboardPage.FiscalDefaults | frontend/src/pages/Dashboard.jsx:29-32 | without either setting the page uses month `8` and period `1` |
| DashboardPage.PeriodOptions | frontend/src/pages/Dashboard.jsx:67-76 | no options before the settings arrive; then exactly current, previous and all, labelled with the period and the one before it |
| DashboardPage.OptionsMatchSummary | frontend/src/pages/Dashboard.jsx:67-76 | the option labels name the same periods the summary endpoint reports for current and previous, and all periods for all |
| DashboardPage.SummaryRequest | frontend/src/pages/Dashboard.jsx:41-44 | the summary request carries the chosen period type, scope `my` and no dates |
| DashboardPage.DashboardIsOwnScope | frontend/src/pages/Dashboard.jsx:41-44 | the page's request is always restricted to the caller's own projects |
| DashboardPage.ProfitRateColor | frontend/src/pages/Dashboard.jsx:61-65 | green from 30, yellow from 20 to below 30, red below 20 |
| DashboardPage.SummaryColor | frontend/src/pages/Dashboard.jsx:61-65 | the colour of the summary rate in integer terms of its profit and contract |
| DashboardCards.AmountText | frontend/src/components/DashboardCards.jsx:16 | a number is shown grouped after `¥`, a string verbatim, anything else as nothing |
| DashboardCards.ProjectListBody | frontend/src/components/DashboardCards.jsx:28-43 | an empty or missing list shows the no-data message; otherwise the first five in order, and the overflow count `length - 5` exactly when more than five |
| DashboardCards.ListingCoversAll | frontend/src/components/DashboardCards.jsx:30-40 | the rows shown and the overflow count account for every project |
| DashboardCards.UserRateColor | frontend/src/components/DashboardCards.jsx:70-72 | green exactly from 30, red exactly below 20, and red for a missing rate |
| SettingsPage.UnbilledSetting | frontend/src/pages/Settings.jsx:70-71 | never empty: `completed` or a stored `unbilled_definition` value |
| SettingsPage.UnbilledDefault | frontend/src/pages/Settings.jsx:70-71 | without the setting the page shows `completed` |
| SettingsPage.FiscalSave | frontend/src/pages/Settings.jsx:85-89 | the save sends exactly the year, the month and the digits of the form |
| SettingsPage.FiscalSaveStored | frontend/src/pages/Settings.jsx:85-89 | the fiscal row written by the endpoint holds the form's year, month and digits |
| SettingsPage.AddCategoryBody | frontend/src/pages/Settings.jsx:116-121 | a new category is sent with its name and colour, order `categories.length + 1`, not default and active |
| SettingsPage.HandleAddCategory | frontend/src/pages/Settings.jsx:110-126 | an empty name sends nothing; otherwise the body is sent and the inputs are cleared on success and kept on failure |
| SettingsPage.AddedCategoryStored | frontend/src/pages/Settings.jsx:116-121 | the body passes validation and the stored category has the entered name and colour, the next order, not default and active |
| SettingsPage.FindCategory | frontend/src/pages/Settings.jsx:152 | the category found is listed and has the id |
| SettingsPage.FindCategoryFirst | frontend/src/pages/Settings.jsx:152 | `find` returns the first category with the id |
| SettingsPage.HandleDelete | frontend/src/pages/Settings.jsx:151-166 | deleting is blocked before any request exactly for a default category; otherwise the delete is sent only after confirmation |
| SettingsPage.DefaultNeverDeleted | frontend/src/pages/Settings.jsx:152-156 | with unique ids a default category is never deleted, confirmed or not |
| SettingsPage.ControlsAgreeWithGuard | frontend/src/pages/Settings.jsx:425-440 | every category that shows a delete button is deleted when confirmed |
| UserManagementPage.GetDefaultPermissions | frontend/src/pages/UserManagement.jsx:63-71 | the defaults hold every key of the permission categories, and exactly the default view keys are granted |
| UserManagementPage.AddKeys | frontend/src/pages/UserManagement.jsx:65-69 | each category's keys are added, granted exactly when they are default view keys |
| UserManagementPage.AllKeys | frontend/src/pages/UserManagement.jsx:13-61 | the permission categories list these sixteen keys in this order |
| UserManagementPage.SameKeys | frontend/src/pages/UserManagement.jsx:63-71 | the page's keys are the server's default permission keys |
| UserManagementPage.DefaultsMatchServer | frontend/src/pages/UserManagement.jsx:63-71 | the page's default permissions equal the server's |
| UserManagementPage.Toggled | frontend/src/pages/UserManagement.jsx:116-127 | another key flips alone; switching `super_admin` on grants every key; switching it off clears only it |
| UserManagementPage.ToggledTwice | frontend/src/pages/UserManagement.jsx:117-120 | toggling an ordinary key twice restores the permissions |
| UserManagementPage.SuperAdminOnThenOff | frontend/src/pages/UserManagement.jsx:117-127 | switching `super_admin` on and off leaves every other key granted, not as before |
| UserManagementPage.ApplyToggle | frontend/src/pages/UserManagement.jsx:117-127 | the spread and the `forEach` compute the toggle rule |
| UserManagementPage.TogglePermission | frontend/src/pages/UserManagement.jsx:116-135 | the update is sent for the user with the toggled permissions |
| UserManagementPage.ToggleNewUserPermission | frontend/src/pages/UserManagement.jsx:148-160 | the new-user form changes only in its permissions, by the same rule |
| UserManagementPage.InitialNewUserForm | frontend/src/pages/UserManagement.jsx:73-79 | the new-user form opens blank with the server's default permissions |
| PrintPreviewComponent.PrintedProjects | frontend/src/components/PrintPreview.jsx:27-44 | the three filters keep, in order, exactly the printed projects |
| PrintPreviewComponent.PrintedExactly | frontend/src/components/PrintPreview.jsx:27-44 | a project is printed exactly when its code is under the prefix, it belongs to the chosen user (unless `all`) and it is not a general expense unless those are included |
| PrintPreviewComponent.CodeUnderItsPrefix | frontend/src/components/PrintPreview.jsx:27-30 | a code of digits, a hyphen and anything is printed under those digits |
| PrintPreviewComponent.ProjectNumber | frontend/src/components/PrintPreview.jsx:60-63 | the text after a hyphen that ends the code, or the whole code without a match |
| PrintPreviewComponent.NumberAfterPrefix | frontend/src/components/PrintPreview.jsx:60-63 | `prefix-number` gives the number |
| PrintPreviewComponent.PaidAmount | frontend/src/components/PrintPreview.jsx:66-68 | the contract amount exactly when a payment date is set, else null |
| PrintPreviewComponent.TotalsOf | frontend/src/components/PrintPreview.jsx:71-75 | the totals are the sums of the contracts and of the paid amounts, nulls as 0 |
| PrintPreviewComponent.PaidWithinContract | frontend/src/components/PrintPreview.jsx:71-75 | with non-negative contracts the paid total lies between 0 and the contract total |
| PrintPreviewComponent.AllPaid | frontend/src/components/PrintPreview.jsx:66-75 | when every project is paid the two totals agree |
| PrintModalComponent.Prefixes | frontend/src/components/PrintModal.jsx:28-36 | the prefixes are sorted, free of duplicates, and exactly the leading digit groups of the codes |
| PrintModalComponent.OfferedStep | frontend/src/components/PrintModal.jsx:30-35 | each `forEach` step adds exactly that project's prefix |
| PrintModalComponent.HandlePrint | frontend/src/components/PrintModal.jsx:51-62 | refused exactly without a prefix; otherwise the prefix and flag chosen, with the chosen user for an administrator and the viewer's own id for anyone else |
| PrintModalComponent.InitialRefused | frontend/src/components/PrintModal.jsx:6-9 | printing with the initial choices is refused |
| PrintModalComponent.PreviewScope | frontend/src/components/PrintModal.jsx:57-61 | a non-administrator only ever prints their own projects; an administrator's defaults print every non-general-expense project under the prefix |

## Left out

- HTTP plumbing is not modelled: FastAPI routing and `Depends`, the axios client and the redirect on 401. Handlers are plain functions and methods that return a result or an error.
- The JSON Web Token is not modelled. `SuperAdminRouter.CurrentSuperAdmin` takes the `super_admin_id` claim, or none when the token is missing or does not decode (backend/routers/super_admin.py:19-35). Login does not issue a token.
- bcrypt hashing and checking are the parameters `hash` and `verify`.
- The plain-text e-mail that company registration prints is not modelled.
- The SQLAlchemy engines and sessions, `create_all` and the company database files are not modelled. A database is an object with one table per model.
- File-system work is not modelled: database sizes, storage figures, removing a company's database file, and creating or deleting backups (backend/routers/super_admin.py:77-80, 179-186, 190-214 and 308-325). The backup listing takes the directory contents and file times as a parameter.
- Two dashboard endpoints are left out: `get_dashboard` (backend/routers/dashboard.py:22-40) and the `get_me` profile endpoints. They only read and return rows.
- MasterDatabase.GenerateCompanyCode: `while True` becomes a finite sequence of random draws. The method returns the first free draw, or nothing when every draw is taken.
- AuthRouter.CompanyRegister: requires that at least one draw is free, standing in for the retry loop eventually finding a code.
- SuperAdminRouter.CreateCustomCompany: has the same requirement when no code is sent.
- Timestamp columns other than `created_at` of projects and costs are not modelled. This covers `updated_at` of projects, costs, customers, print templates and settings (backend/company_models.py:28, 49, 94, 105 and 119), and `created_at` of vendors, categories, customers and settings. `update_project`, `update_cost`, `update_customer`, `update_fiscal_settings` and `update_setting` set `updated_at` (backend/routers/projects.py:119, costs.py:75, customers.py:61, settings.py:99 and 165), and the other updates set it through `onupdate`. The response schemas return these columns. The stated new state of an update says nothing about them.
- Text.PyInt: reads ASCII digits only. Python's `int()` also accepts every other Unicode decimal digit, such as the fullwidth `８`, which the model refuses.
- DashboardRouter.IntSetting: a setting stored with non-ASCII decimal digits is read by the source and is an error 500 in the model, because it parses with `Text.PyInt`.
- Calendar.ParseYmd: accepts ASCII digits only. The `\d` in the patterns of `strptime` matches every Unicode decimal digit, so the source also reads dates written in other digits.
- Js.ParseInt: JavaScript renders a number of magnitude 1e21 or more in exponent form before `parseInt` reads it, so `parseInt(1e21)` is 1. The model keeps such numbers unchanged. Numbers are integers, and double-precision rounding is not modelled.
- SettingsPage.FiscalSave: the form's year, month and digits are integers. Clearing a field makes `parseInt('')` put NaN into the form (frontend/src/pages/Settings.jsx:202, 217 and 238), and NaN is sent as null. The source then refuses a null year or month with 422, and stores null digits as NULL, after which reading the fiscal settings fails with an error 500. The model does not capture that path.
- CategoriesRouter.GetCategories: SQL `ORDER BY display_order` leaves the order of equal values unspecified. The model keeps them in table order.
- Formatting is not modelled: `isoformat` of timestamps, `round(x, 1)` and `toFixed(1)`. Rates are exact rationals (`real`), so the model does not capture a displayed rate that rounds across the 20 or 30 percent boundary.
- `Intl.NumberFormat` and `toLocaleString` are a parameter of `DashboardCards.AmountText`.
- Time zones are not modelled. `now` is a local date and time of day, and `toISOString().split('T')[0]` is the parameter `today`.
- ProjectListPage.SortedProjects: `localeCompare(…, 'ja')` is replaced by UTF-16 code-unit order on ASCII-lowercased strings.
- Text.Lower: folds the ASCII letters only. JavaScript's `toLowerCase` also folds other letters, such as fullwidth `Ａ` to `ａ`, Greek and Cyrillic, and can lengthen a string (`"İ"` becomes two code units). So the project list's search (frontend/src/pages/ProjectList.jsx:188-191) and its sort ignore case for ASCII letters only: a search for `ａｂｃ` finds `ＡＢＣ工事` in the page but not in the model.
- ProjectListPage.SortedProjects: two null values compare as equal. The source's comparator returns 1 for that case, and the resulting order depends on the engine's sort algorithm.
- ProjectListPage.SortedProjects: each column holds values of one type. Comparisons between mixed types are not modelled.
- CostTable.SortCosts: each column holds values of one type. Comparisons between mixed types are not modelled.
- CostTable.Less: a NULL category compared with a category string is never ordered. JavaScript compares 0 with `Number()` of the string, so this differs only for a category that reads as a number, such as `"5"`.
- CostTable.SortCostsSorted: promises no order on the category column when a shown cost has a NULL category. There the comparator is inconsistent (NullCategoryInconsistent), and the order `Array.prototype.sort` leaves is not defined.
- `split('T')` is applied only to strings (`Js.DatePartOf`). The exception it throws on other values is not modelled.
- The `Promise.all` fan-out that fetches costs per project is not modelled. The costs of all projects are one parameter of `ProjectListPage.WithProfit`.
- React state, rendering, `alert` messages and `window.print` are not modelled. `confirm` answers and API success or failure are parameters.
- The print template's layout is not modelled.
- UI-only pages are not modelled: App, Login, Register, SuperAdminLogin, SuperAdminDashboard, AdminDashboard, VendorList, CustomerList, BusinessPartners and CostEntry.
- Operational code is not modelled: backend/scripts, configuration (`config.py`, `main.py`), and the superseded single-database files (`models.py`, `auth.py`, `reset_password.py`).
- Concurrency is not modelled. Each endpoint call runs on its own, as if no other request interleaves with it.
