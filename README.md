# Relatia CRM core, modelled in Dafny

Relatia is a small CRM. It has an Express/Mongoose server that keeps support tickets,
sales leads and follow-up tasks per user, registers and signs in users, and shows admins
user statistics. It also has a Next.js client with sign-up and sign-in forms, a session
kept in `localStorage`, and dashboards that keep their lead and task lists in step with
the server.

This project models the record-keeping rules of that system and proves their contracts:

- **Stores.** Each Mongoose collection (tickets, leads, tasks, users) is a class holding a
  `seq` of records. The records come in insertion order, with growing ids and creation
  times. Methods `Insert`, `Replace` and `Remove` stand for `create`,
  `findOneAndUpdate` and `findOneAndDelete`, and each keeps the collection's `Valid()`
  invariant: the schema's required paths and enums, and for users the unique indexes.
- **Schemas.** Each schema enum is a datatype with a parser. A round-trip lemma shows the
  parser accepts exactly the names of the enum.
- **Handlers.** Each HTTP handler is a method taking the store, the authenticated caller
  (`None` when there is none) and the request. It returns a `Response` whose cases are
  the 201/200/400/401/403/404/500 answers, with their messages. These are the server
  controllers (`TicketController`, `LeadController`, `TaskController`,
  `AuthController`, `UserController`).
- **List handlers.** The list handlers are proved against their filters, the sort order
  and the page arithmetic of `Pagination`.
- **Client forms.** On the client, the three forms (`RegisterPage`, `RegistrationPage`,
  `LoginPage`) are classes over the form state. Their rules (`FormRules`) are functions
  over the field values. The e-mail regex `/^[^\s@]+@[^\s@]+\.[^\s@]+$/` is stated as a
  predicate on positions (`EmailFormat.MatchesRegex`). It is proved equal to the plain
  conditions: no white space, exactly one `@`, a non-empty local part, and a domain with
  a `.` that has text on both sides.
- **Client session.** The session provider (`AuthContext`) works over a two-key
  `BrowserStorage` (`Session`).
- **Dashboards.** The two dashboards (`UserDashboard`, `LeadsDashboard`) hold lists and
  change them with the list operations of `ClientLists`.

The network, `bcrypt`, `jsonwebtoken`, `JSON.parse`/`JSON.stringify`, `new Date(...)`
and the user's answer to a `confirm` dialog are parameters. So is the way a client
request came back (`ApiOutcome`, `Fetched`, `Deleted`, `DeleteResult`). The clock and
the ObjectId generator are the collections' `nextId` counter. The environment variable
`JWT_SECRET` is a `secret` parameter, where "" means unset.

Where the code disagrees with its own schema and typings, the model follows the code:

- The register handler assigns the role `"user"` to every user after the first. The User
  schema's enum admits only `admin|manager|client`, and the request typings agree with
  the schema. So, as written, a second registration fails validation and is answered
  500 "Server error", and the store is left unchanged.
  - `AuthController.LaterUsersRefused` and `AuthController.BootstrapRoleMeetsSchemaOnlyFirst`
    state this.
  - `UserController.NoStoredRegularUsers` shows that the `regularUsers` statistic is
    then always 0.
  - The mismatch is recorded here and is not resolved.
- The register response carries `companyName` and `phone` read back from the stored user.
  The schema has neither path, so both are absent (`AuthController.ToPublic`).
- The duplicate check of register looks up the e-mail as submitted, but the address is
  stored lower-cased. A case variant of a registered address therefore passes the check.
  The unique index then refuses it, and the answer is a 500
  (`AuthController.CaseVariantPassesDuplicateCheck`).
- An update body may carry `createdBy`, and the update handlers apply it as sent.
- The role picked on the registration page is not part of the request the register
  handler reads (`RegistrationPage.RoleIsIgnored`).
- After a successful sign-in, the login page leaves `loading` set while it navigates away.

## Model

| member | source | states |
|---|---|---|
| Common.MessageOr | client/app/login/page.tsx:57-61 | `message \|\| fallback`: the message when it is not empty, else the fallback |
| Pagination.TotalPages | server/src/controllers/ticket.controller.ts:70 | `ceil(total/limit)`: the least page count whose pages hold `total` items; 0 exactly when there are no items |
| Pagination.PageSlice | server/src/controllers/ticket.controller.ts:59-67 | the page has at most `limit` items, its length is what is left after `skip`, and item i is item `skip + i` of the sorted matches |
| Pagination.HasNextIffMoreItems | server/src/controllers/ticket.controller.ts:75-79 | `hasNext` holds exactly when matches remain after this page; `hasPrev` exactly when the page skips some |
| Pagination.PageEmptyIffPastLast | server/src/controllers/ticket.controller.ts:59-70 | a page is empty exactly when its number is past `totalPages` |
| Pagination.ItemOnItsPage | server/src/controllers/ticket.controller.ts:59-70 | every match is on page `k / limit + 1` at position `k % limit`, and that page is at most `totalPages` |
| Pagination.PagesUpToPrefix | server/src/controllers/ticket.controller.ts:59-67 | pages 1..n laid end to end are the first `n * limit` matches |
| Pagination.PagesCoverAll | server/src/controllers/ticket.controller.ts:59-70 | pages 1..totalPages list every match exactly once, in order |
| TicketModel.ParseStatus | server/src/models/ticket.model.ts:24-28 | the status enum admits exactly open, in-progress, resolved and closed |
| TicketModel.ParsePriority | server/src/models/ticket.model.ts:29-33 | the priority enum admits exactly low, medium, high and urgent |
| TicketModel.ParseCategory | server/src/models/ticket.model.ts:34-38 | the category enum admits exactly technical, billing, feature-request, bug and other |
| TicketModel.ParseNamesRoundTrip | server/src/models/ticket.model.ts:24-38 | every enum name is accepted and gives back its value |
| TicketModel.TicketCollection.constructor | server/src/models/ticket.model.ts:20-44 | an empty collection is valid |
| TicketModel.TicketCollection.Insert | server/src/controllers/ticket.controller.ts:16-22 | appends the document with a fresh, larger id and keeps the schema invariant |
| TicketModel.TicketCollection.Replace | server/src/controllers/ticket.controller.ts:142-146 | replaces the fields of one document and nothing else |
| TicketModel.TicketCollection.Remove | server/src/controllers/ticket.controller.ts:231 | removes the one document at that position |
| TicketController.CheckPatch | server/src/controllers/ticket.controller.ts:142-146 | with validators on, an update is accepted exactly when every enum key holds an enum value and no required string is emptied; accepted values, `attachments` included, are the ones sent |
| TicketController.PatchFor | server/src/controllers/ticket.controller.ts:135-140 | a non-admin's body loses `status` and `assignedTo` and keeps every other key; an admin's is untouched |
| TicketController.NonAdminKeepsWorkflow | server/src/controllers/ticket.controller.ts:135-146 | nothing a non-admin sends changes a ticket's status or assignee |
| TicketController.AdminSetsWorkflow | server/src/controllers/ticket.controller.ts:142-146 | an admin's status and assignee are applied as sent |
| TicketController.ApplyTakesBody | server/src/controllers/ticket.controller.ts:142-146 | every key of an accepted body, `attachments` included, takes the value sent; a key not sent keeps its value |
| TicketController.ApplyKeepsSchema | server/src/controllers/ticket.controller.ts:142-146 | an accepted update keeps the required paths non-empty |
| TicketController.CreateTicket | server/src/controllers/ticket.controller.ts:4-39 | 401 without a caller; 400 unless title, description and category are given; otherwise the ticket is appended with status "open", priority `priority \|\| "medium"` and the caller as creator; 500 for a value outside the enums; nothing stored on any error |
| TicketController.BuildListFilter | server/src/controllers/ticket.controller.ts:50-55 | the filter has no owner key exactly for admins, and matches exactly the visible tickets agreeing with each query field given |
| TicketController.BuildIdFilter | server/src/controllers/ticket.controller.ts:100-103 | the filter matches exactly the ticket with that id when the caller may see it |
| TicketController.GetTickets | server/src/controllers/ticket.controller.ts:41-89 | 401 without a caller; otherwise the requested page of the matching tickets newest first, with the page metadata of the match count; every ticket returned is stored, visible to the caller and matches the query |
| TicketController.GetTicketById | server/src/controllers/ticket.controller.ts:91-122 | 200 exactly when a ticket with that id exists and the caller may see it, otherwise 404 "Ticket not found" (never 403) |
| TicketController.UpdateTicket | server/src/controllers/ticket.controller.ts:124-163 | 401 without a caller; 500 when the (stripped) body fails validation; 404 when no visible ticket has that id; otherwise exactly that ticket gets the stripped body (including a new `attachments` list) applied and no other ticket changes |
| TicketController.StatusGroups | server/src/controllers/ticket.controller.ts:188-196 | every group is a listed status with its true, positive count |
| TicketController.StatusGroupsComplete | server/src/controllers/ticket.controller.ts:188-196 | every listed status that occurs has its group with its count |
| TicketController.StatusGroupsDistinct | server/src/controllers/ticket.controller.ts:188-196 | no status has two groups when the listed statuses are distinct |
| TicketController.CategoryGroups | server/src/controllers/ticket.controller.ts:178-186 | every group is a listed category with its true, positive count |
| TicketController.CategoryGroupsComplete | server/src/controllers/ticket.controller.ts:178-186 | every listed category that occurs has its group with its count |
| TicketController.CategoryGroupsDistinct | server/src/controllers/ticket.controller.ts:178-186 | no category has two groups when the listed categories are distinct |
| TicketController.SumCountsAppend | server/src/controllers/ticket.controller.ts:178-196 | the sum of the counts of two group lists laid end to end is the sum of their sums |
| TicketController.StatusPartition | server/src/controllers/ticket.controller.ts:171-174 | the four status counts add up to the number of tickets |
| TicketController.CategoryPartition | server/src/controllers/ticket.controller.ts:178-186 | the five category counts add up to the number of tickets |
| TicketController.StatusGroupsSum | server/src/controllers/ticket.controller.ts:188-196 | dropping the empty status groups does not change the total |
| TicketController.CategoryGroupsSum | server/src/controllers/ticket.controller.ts:178-186 | dropping the empty category groups does not change the total |
| TicketController.StatusTotalAll | server/src/controllers/ticket.controller.ts:171-174 | the counts over all statuses add up to the number of tickets |
| TicketController.CategoryTotalAll | server/src/controllers/ticket.controller.ts:178-186 | the counts over all categories add up to the number of tickets |
| TicketController.GroupsCoverAll | server/src/controllers/ticket.controller.ts:178-196 | the status groups, and likewise the category groups, add up to the number of tickets |
| TicketController.GroupsOnePerValue | server/src/controllers/ticket.controller.ts:178-196 | over all statuses and categories: exactly one group for each value that occurs |
| TicketController.GetTicketStats | server/src/controllers/ticket.controller.ts:165-221 | 403 "Access denied" exactly for a missing or non-admin caller; otherwise the counts; each grouping has one group with its count for every value that occurs, no value twice, and sums to the total; the total is at least open + in-progress + resolved |
| TicketController.DeleteTicket | server/src/controllers/ticket.controller.ts:223-245 | 403 for a non-admin; 404 when no ticket has that id; otherwise exactly that ticket is removed and every other ticket stays |
| LeadModel.ParseSource | server/src/models/lead.model.ts:28-32 | the source enum admits exactly website, referral, social, direct and other |
| LeadModel.ParseLeadStatus | server/src/models/lead.model.ts:33-37 | the status enum admits exactly new, contacted, qualified and lost |
| LeadModel.LeadParseRoundTrip | server/src/models/lead.model.ts:28-37 | every enum name is accepted and gives back its value |
| LeadModel.LeadCollection.constructor | server/src/models/lead.model.ts:22-44 | an empty collection is valid |
| LeadModel.LeadCollection.Insert | server/src/controllers/lead.controller.ts:16-25 | appends the document with a fresh, larger id and keeps the schema invariant |
| LeadModel.LeadCollection.Replace | server/src/controllers/lead.controller.ts:136-140 | replaces the fields of one document and nothing else |
| LeadModel.LeadCollection.Remove | server/src/controllers/lead.controller.ts:166-169 | removes the one document at that position |
| LeadController.FaultResponse | server/src/controllers/lead.controller.ts:39-48 | a store error with code 11000 is 400 "A lead with this email or phone already exists"; any other is 500 "Server error" |
| LeadController.CheckPatch | server/src/controllers/lead.controller.ts:136-140 | an update is accepted exactly when every enum key holds an enum value and no required string is emptied; accepted values are the ones sent |
| LeadController.ApplyTakesBody | server/src/controllers/lead.controller.ts:136-140 | every key sent takes the value sent, `company`, `notes` and `createdBy` included; keys not sent keep theirs; required paths stay non-empty |
| LeadController.CreateLead | server/src/controllers/lead.controller.ts:4-50 | 401 without a caller; 400 unless name, email and phone are given; otherwise the lead is appended with source `source \|\| "website"`, status `status \|\| "new"` and the caller as creator, 500 whatever the store would raise when the source or status is outside the enums (a ValidationError has no driver code), else a store error is answered by FaultResponse; nothing stored on any error |
| LeadController.BuildListFilter | server/src/controllers/lead.controller.ts:60-63 | the filter always has the caller as owner and matches exactly the caller's leads agreeing with each query field given |
| LeadController.GetLeads | server/src/controllers/lead.controller.ts:52-96 | 401 without a caller; otherwise the requested page of the caller's matching leads newest first, with the page metadata |
| LeadController.ListIgnoresRole | server/src/controllers/lead.controller.ts:60 | the list is the same whatever the caller's role: admins see only their own leads |
| LeadController.GetLeadById | server/src/controllers/lead.controller.ts:98-125 | 200 exactly when the caller owns a lead with that id, otherwise 404 "Lead not found" |
| LeadController.FilterFnAgree | server/src/controllers/lead.controller.ts:106-109 | the id filter matches exactly the caller's lead with that id |
| LeadController.UpdateLead | server/src/controllers/lead.controller.ts:127-156 | 401 without a caller; 500 on a body the validators refuse; 404 unless the caller owns a lead with that id; otherwise exactly that lead gets the body applied and no other lead changes |
| LeadController.DeleteLead | server/src/controllers/lead.controller.ts:158-183 | 404 unless the caller owns a lead with that id; otherwise exactly that lead is removed and every other lead stays |
| TaskModel.ParseTaskPriority | server/src/models/task.model.ts:27-31 | the priority enum admits exactly low, medium and high |
| TaskModel.ParseTaskStatus | server/src/models/task.model.ts:32-36 | the status enum admits exactly pending, in-progress, completed and cancelled |
| TaskModel.ParseRelatedKind | server/src/models/task.model.ts:37-41 | `relatedTo.type` admits only "lead" |
| TaskModel.TaskParseRoundTrip | server/src/models/task.model.ts:27-41 | every enum name is accepted and gives back its value |
| TaskModel.TaskCollection.constructor | server/src/models/task.model.ts:22-47 | an empty collection is valid |
| TaskModel.TaskCollection.Insert | server/src/controllers/task.controller.ts:29 | appends the document with a fresh, larger id and keeps the schema invariant |
| TaskModel.TaskCollection.Replace | server/src/controllers/task.controller.ts:141-145 | replaces the fields of one document and nothing else |
| TaskModel.TaskCollection.Remove | server/src/controllers/task.controller.ts:172-175 | removes the one document at that position |
| TaskController.SortRankIsDescendingName | server/src/controllers/task.controller.ts:76 | `priority: -1` compares the stored strings: ranks medium, low, high follow the strings in descending order |
| TaskController.InsertTaskSorted | server/src/controllers/task.controller.ts:76 | inserting a task into a sorted list keeps it sorted and adds exactly that task |
| TaskController.SortTasks | server/src/controllers/task.controller.ts:76 | the order returned is sorted by due date, then by the priority string descending, and is a permutation of the matches |
| TaskController.PageOfSorted | server/src/controllers/task.controller.ts:76-78 | a page of the sorted tasks is sorted and holds only tasks of it |
| TaskController.SortedUniqueDueDates | server/src/controllers/task.controller.ts:76 | any two sorted arrangements of the same tasks have the same due date at every position |
| TaskController.CastRelated | server/src/models/task.model.ts:37-43 | a `relatedTo` object is accepted exactly when its type is absent or "lead", and keeps its id |
| TaskController.CreateTask | server/src/controllers/task.controller.ts:4-53 | 401 without a caller; 400 unless title and due date are given; otherwise the task is appended with status "pending" whatever was sent, priority `priority \|\| "medium"`, the caller as creator, and `relatedTo` exactly when its id is given; 500 exactly when the date does not convert, the priority is outside the enum or the `relatedTo` type is not "lead"; nothing stored on any error |
| TaskController.BuildListFilter | server/src/controllers/task.controller.ts:63-66 | the filter always has the caller as owner and matches exactly the caller's tasks agreeing with each query field given |
| TaskController.GetTasks | server/src/controllers/task.controller.ts:55-100 | 401 without a caller; otherwise the requested page of the caller's matching tasks in sort order, with the page metadata; all of them match the query |
| TaskController.GetTaskById | server/src/controllers/task.controller.ts:102-130 | 200 exactly when the caller owns a task with that id, otherwise 404 "Task not found" |
| TaskController.CheckPatch | server/src/controllers/task.controller.ts:141-145 | an update is accepted exactly when the title is not emptied, the due date converts, every enum key holds an enum value and `relatedTo` has an admitted type |
| TaskController.ApplyTakesBody | server/src/controllers/task.controller.ts:141-145 | every key sent takes the value sent: `description` as given, `dueDate` as converted by `new Date`, priority and status by name, `relatedTo` as cast; every key not sent keeps its value |
| TaskController.UpdateTask | server/src/controllers/task.controller.ts:132-162 | 500 on a body the validators refuse; 404 unless the caller owns a task with that id; otherwise exactly that task gets the body applied and no other task changes |
| TaskController.DeleteTask | server/src/controllers/task.controller.ts:164-189 | 404 unless the caller owns a task with that id; otherwise exactly that task is removed and every other task stays |
| UserModel.SchemaAndClaimsAgree | server/src/models/user.model.ts:17-21 | the schema's role enum and the request typings admit the same three roles, and "user" is not one of them |
| UserModel.UserCollection.constructor | server/src/models/user.model.ts:12-24 | an empty collection is valid |
| UserModel.UserCollection.Insert | server/src/models/user.model.ts:14-21 | a document that meets the schema and collides with no unique index is appended, and the usernames and e-mails stay unique |
| AuthController.ToPublic | server/src/controllers/auth.controller.ts:47-54 | the response user has id, username, e-mail and role of the stored user, no password, and no company or phone (the schema keeps neither) |
| AuthController.RegisterError | server/src/controllers/auth.controller.ts:12-23 | the three checks in order: a missing field, then an address outside the regex, then a password shorter than 6 UTF-16 code units; none fails exactly when all pass |
| AuthController.BootstrapRole | server/src/controllers/auth.controller.ts:33-34 | the role is "admin" exactly when the store is empty |
| AuthController.BootstrapRoleMeetsSchemaOnlyFirst | server/src/controllers/auth.controller.ts:33-40 | the role assigned passes the schema's role enum exactly for the first user |
| AuthController.Register | server/src/controllers/auth.controller.ts:8-83 | 400 with the first failed check; 400 "User already exists" when the raw e-mail is stored; 500 with no change when the store refuses the document; otherwise the trimmed user with the normalised address is appended, then 500 "Server configuration error" without a secret, else 201 with the signed claims and the public user |
| AuthController.FirstUserIsAdmin | server/src/controllers/auth.controller.ts:33-43 | on an empty store an accepted registration creates an admin that meets the schema |
| AuthController.LaterUsersRefused | server/src/controllers/auth.controller.ts:33-43 | on a non-empty store the new document has role "user" and fails the schema |
| AuthController.CaseVariantPassesDuplicateCheck | server/src/controllers/auth.controller.ts:25-43 | a case variant of a stored (lower-case) address passes the duplicate check and then collides with the unique index |
| AuthController.StoredEmailIsLowerCase | server/src/controllers/auth.controller.ts:38 | the address register stores is its own lower-case form |
| AuthController.FirstWithEmail | server/src/controllers/auth.controller.ts:98 | `findOne` by e-mail finds a user with that address, and finds none exactly when no user has it |
| AuthController.Login | server/src/controllers/auth.controller.ts:85-141 | 400 when e-mail or password is missing; 500 without a secret, before any lookup; 200 exactly when a user with the normalised address has a matching password, else the same 400 "Invalid credentials" for both failures; the store is only read |
| AuthController.StoredEmailUnique | server/src/models/user.model.ts:15 | in a valid store at most one user has a given address |
| UserController.Listed | server/src/controllers/user.controller.ts:34-35 | a listed user carries every stored path but the password |
| UserController.RolePartition | server/src/controllers/user.controller.ts:10-12 | the counts per role add up to the number of users |
| UserController.NoStoredRegularUsers | server/src/controllers/user.controller.ts:12 | in a store that meets the schema no user has role "user", so that count is 0 |
| UserController.GetUserStats | server/src/controllers/user.controller.ts:4-26 | 403 "Access denied" exactly for a missing or non-admin caller; otherwise total, admin and "user" counts with admin + user at most total |
| UserController.NewestFirst | server/src/controllers/user.controller.ts:34-36 | the listing has one entry per user, item i being the i-th from the last created |
| UserController.NewestFirstIsDescending | server/src/controllers/user.controller.ts:36 | the listing is ordered by creation time, newest first |
| UserController.NewestFirstListsEveryone | server/src/controllers/user.controller.ts:34-36 | every stored user is listed |
| UserController.NewestFirstListsOnlyStored | server/src/controllers/user.controller.ts:34-36 | everything listed is the listing of a stored user |
| UserController.GetAllUsers | server/src/controllers/user.controller.ts:28-46 | 403 exactly for a missing or non-admin caller; otherwise every user without password, newest first |
| Text.TrimStart | client/app/register/page.tsx:33 | drops exactly the leading white space |
| Text.TrimEnd | client/app/register/page.tsx:33 | drops exactly the trailing white space |
| Text.Trim | client/app/register/page.tsx:33 | the result is no longer than the input and starts and ends with non-space |
| Text.TrimIsInnerSlice | client/app/register/page.tsx:33 | the result is a slice of the input with only white space before and after it |
| Text.TrimEmptyIffAllSpace | client/app/register/page.tsx:33 | `trim()` is empty exactly when the value is all white space |
| Text.TrimNoSpace | server/src/controllers/auth.controller.ts:38 | `trim()` leaves a value with no white space unchanged |
| Text.ToLower | server/src/controllers/auth.controller.ts:38 | lower-casing maps every character on its own and keeps the length |
| Text.LowerIdempotent | server/src/controllers/auth.controller.ts:38 | lower-casing twice is lower-casing once |
| Text.Utf16Length | client/app/register/page.tsx:35 | `.length` counts UTF-16 code units: between the number of characters and twice it, and 0 only for "" |
| Text.Utf16LengthBmp | client/app/register/page.tsx:35 | without characters above U+FFFF the length is the number of characters |
| Text.Digits | client/app/dashboard/user/page.tsx:159-162 | keeps only digits |
| Text.DigitsMultiset | client/app/dashboard/user/page.tsx:159-162 | keeps every digit as often as it occurs and nothing else |
| Text.DigitsIdempotent | client/app/dashboard/user/page.tsx:159-162 | filtering digits twice is filtering once |
| EmailFormat.IndexOf | server/src/controllers/auth.controller.ts:16-19 | the first position of a character, or the length when it is absent |
| EmailFormat.EmailRegexIffValid | server/src/controllers/auth.controller.ts:16-19 | the regex holds exactly when there is no white space, one `@`, a non-empty local part and a domain with an inner `.` |
| EmailFormat.ValidEmailIsTrimmed | server/src/controllers/auth.controller.ts:38 | an address in the format is unchanged by `trim()`, so normalising it is lower-casing it |
| EmailFormat.LowerKeepsRegex | server/src/controllers/auth.controller.ts:38 | lower-casing keeps an address in the format |
| EmailFormat.NormalizedEmailInFormat | server/src/controllers/auth.controller.ts:38 | the stored address of a valid submission is non-empty, of the same length and still in the format |
| FormRules.KeyNamesDistinct | client/app/register/page.tsx:31 | the error keys have distinct names |
| FormRules.BlankIffTrimEmpty | client/app/register/page.tsx:33 | a value is blank exactly when its `trim()` is empty |
| FormRules.EmailInFormatNotBlank | client/app/register/page.tsx:39-43 | an address in the format is never blank |
| FormRules.UsernameError | client/app/register/page.tsx:33-37 | "required" exactly when blank; "at least 3 characters" exactly when not blank and the untrimmed length in UTF-16 code units is under 3 |
| FormRules.EmailError | client/app/register/page.tsx:39-43 | "required" exactly when blank; "valid email" exactly when not blank and outside the format |
| FormRules.EmailRuleIsRegex | client/app/register/page.tsx:39-43 | an address is accepted exactly when the regex holds |
| FormRules.PasswordError | client/app/register/page.tsx:45-49 | "required" exactly when empty; "at least 6 characters" exactly when 1 to 5 UTF-16 code units long |
| FormRules.AstralUsernameAccepted | client/app/register/page.tsx:35 | two characters above U+FFFF have length 4 and pass the username rule |
| FormRules.RequiredError | client/app/register/page.tsx:51-57 | the message exactly when the value is blank |
| FormRules.Record | client/app/register/page.tsx:30-61 | a failed rule writes its message under its key; a passed one changes nothing |
| FormRules.ClearError | client/app/register/page.tsx:85-90 | only that field's error is blanked; every key and every other entry stays |
| FormRules.ClearErrorIdempotent | client/app/register/page.tsx:85-90 | clearing twice is clearing once |
| RegisterPage.SetField | client/app/register/page.tsx:85-90 | only the named field takes the value |
| RegisterPage.AcceptableInPlainTerms | client/app/register/page.tsx:30-61 | the accepted forms: non-blank username of 3 or more, an address in the format, password of 6 or more, non-blank company and phone |
| RegisterPage.FormErrorsPerField | client/app/register/page.tsx:30-61 | each of the five fields has at most one message, the one its rule gives, and no other key is written |
| RegisterPage.NoErrorsIffAcceptable | client/app/register/page.tsx:59-60 | the error map is empty exactly when every rule accepts |
| RegisterPage.CollectErrors | client/app/register/page.tsx:30-61 | the map filled field by field is the map of the rules, and is empty exactly for accepted forms |
| RegisterPage.AcceptedFormPassesServerChecks | client/app/register/page.tsx:63-83 | a form the page accepts passes the register handler's three checks |
| RegisterPage.RegisterPageState.constructor | client/app/register/page.tsx:22-28 | all fields empty, no errors, not loading |
| RegisterPage.RegisterPageState.ValidateForm | client/app/register/page.tsx:30-61 | records the rules' errors and answers whether the form is accepted |
| RegisterPage.RegisterPageState.HandleChange | client/app/register/page.tsx:85-90 | sets one field, blanks that field's error only, leaves the rest |
| RegisterPage.RegisterPageState.HandleSubmit | client/app/register/page.tsx:63-83 | an invalid form sends nothing and shows its errors; a valid one is sent, then an alert and the move to /login on success, or the submit error on failure; loading ends either way |
| RegistrationPage.SetField | client/app/registration/page.tsx:68-74 | only the named field takes the value |
| RegistrationPage.FormErrorsPerField | client/app/registration/page.tsx:21-44 | each of the three fields has at most one message, the one its rule gives; there are no company or phone entries |
| RegistrationPage.SameCredentialRules | client/app/registration/page.tsx:24-40 | the error map is that of the register page without its company and phone entries |
| RegistrationPage.NoErrorsIffAcceptable | client/app/registration/page.tsx:42-43 | the error map is empty exactly when every rule accepts |
| RegistrationPage.CollectErrors | client/app/registration/page.tsx:21-44 | the map filled field by field is the map of the rules, and is empty exactly for accepted forms |
| RegistrationPage.RoleIsIgnored | client/app/registration/page.tsx:46-66 | the role chosen does not change what the register handler reads or answers |
| RegistrationPage.AcceptedFormPassesServerChecks | client/app/registration/page.tsx:46-66 | a form the page accepts passes the register handler's three checks |
| RegistrationPage.RegistrationPageState.constructor | client/app/registration/page.tsx:14-19 | the role starts as "client", one of the options offered |
| RegistrationPage.RegistrationPageState.ValidateForm | client/app/registration/page.tsx:21-44 | records the rules' errors and answers whether the form is accepted |
| RegistrationPage.RegistrationPageState.HandleChange | client/app/registration/page.tsx:68-74 | sets one field, blanks that field's error only, leaves the rest |
| RegistrationPage.RegistrationPageState.HandleSubmit | client/app/registration/page.tsx:46-66 | an invalid form sends nothing; a valid one is sent, then an alert and /login on success, or the submit error on failure |
| LoginPage.SetField | client/app/login/page.tsx:64-69 | only the named field takes the value |
| LoginPage.PasswordMissing | client/app/login/page.tsx:28-30 | "Password is required" exactly when empty, with no length rule |
| LoginPage.FormErrorsPerField | client/app/login/page.tsx:19-34 | only e-mail and password entries, each the message of its rule |
| LoginPage.AcceptableInPlainTerms | client/app/login/page.tsx:19-34 | accepted exactly when the address is in the format and a password is given |
| LoginPage.NoErrorsIffAcceptable | client/app/login/page.tsx:32-33 | the error map is empty exactly when both rules accept |
| LoginPage.CollectErrors | client/app/login/page.tsx:19-34 | the map filled field by field is the map of the rules, and is empty exactly for accepted forms |
| LoginPage.LoginPageState.constructor | client/app/login/page.tsx:14-17 | empty form, no errors, not loading |
| LoginPage.LoginPageState.ValidateForm | client/app/login/page.tsx:19-34 | records the rules' errors and answers whether the form is accepted |
| LoginPage.LoginPageState.HandleChange | client/app/login/page.tsx:64-69 | sets one field, blanks that field's error only, leaves the rest |
| LoginPage.LoginPageState.HandleSubmit | client/app/login/page.tsx:36-62 | an invalid form sends nothing; on success "token" and "userData" are written and the page goes to /dashboard; on failure the submit error is the message or "Login failed" and loading ends |
| Session.BrowserStorage.constructor | client/contexts/AuthContext.tsx:33-34 | the storage starts empty |
| Session.BrowserStorage.GetItem | client/contexts/AuthContext.tsx:33-34 | the stored value, or none for a missing key |
| Session.BrowserStorage.SetItem | client/contexts/AuthContext.tsx:51-52 | writes one key and keeps the others |
| Session.BrowserStorage.RemoveItem | client/contexts/AuthContext.tsx:42-43 | removes one key and keeps the others |
| Session.AfterLogin | client/contexts/AuthContext.tsx:49-54 | both keys written with the token and the serialised user, every other key kept |
| Session.RestoreSession | client/contexts/AuthContext.tsx:32-47 | a user exactly when both keys are truthy and userData parses; both keys dropped when it does not parse; storage unchanged otherwise |
| Session.RestoreIsStable | client/contexts/AuthContext.tsx:32-47 | a second restore finds the same and changes nothing |
| Session.LoginIsRestored | client/contexts/AuthContext.tsx:32-54 | after a login whose user serialises and parses back, the restore finds that user |
| Session.LogoutIsNotRestored | client/contexts/AuthContext.tsx:56-62 | after the two keys are removed the restore finds no user |
| AuthContext.UseAuth | client/contexts/AuthContext.tsx:71-76 | outside a provider it fails with the provider message; inside it gives the context value |
| AuthContext.AuthProvider.constructor | client/contexts/AuthContext.tsx:25-26 | no user, loading |
| AuthContext.AuthProvider.CheckAuth | client/contexts/AuthContext.tsx:32-47 | storage and user are those of RestoreSession, and loading ends on every path |
| AuthContext.AuthProvider.Login | client/contexts/AuthContext.tsx:49-54 | on a rejected request nothing changes and the error propagates; otherwise both keys are written and the user is set |
| AuthContext.AuthProvider.Logout | client/contexts/AuthContext.tsx:56-62 | both keys removed, user cleared, location "/" |
| ClientLists.Prepend | client/app/dashboard/user/page.tsx:85-91 | the new item first, then the old list in its order |
| ClientLists.ReplaceById | client/app/dashboard/user/page.tsx:93-98 | same length; every item with the edited id becomes the edited item and every other item stays |
| ClientLists.RemoveById | client/app/dashboard/user/page.tsx:122 | no item with that id remains, every other item remains, and nothing is added |
| ClientLists.ReplaceKeepsIds | client/app/dashboard/user/page.tsx:93-98 | replacing keeps the id at every position |
| ClientLists.ReplaceIdempotent | client/app/dashboard/user/page.tsx:93-98 | replacing again with the same item changes nothing |
| ClientLists.RemoveAfterReplace | client/app/dashboard/user/page.tsx:93-131 | removing an id after editing it leaves what removing alone leaves |
| ClientLists.RemovePrepended | client/app/dashboard/user/page.tsx:85-131 | removing the id of an item just prepended takes it out again |
| ClientLists.RemoveIdempotent | client/app/dashboard/user/page.tsx:107-131 | removing twice is removing once |
| ClientLists.FormatPhoneNumber | client/app/dashboard/user/page.tsx:159-162 | keeps exactly the digits of the number, each as often as it occurs |
| ClientLists.FormatPhoneNumberKeepsOrder | client/app/dashboard/user/page.tsx:159-162 | formatting a concatenation concatenates the formatted parts, so the digits keep their order |
| ClientLists.WhatsAppUrl | client/app/dashboard/user/page.tsx:164-167 | "https://wa.me/" followed by the digits of the number |
| ClientLists.WhatsAppUrlUsesDigitsOnly | client/app/dashboard/leads/page.tsx:61-64 | numbers with the same digits give the same link, and a formatted number links where the raw one does |
| UserDashboard.EffectFor | client/app/dashboard/user/page.tsx:24-30 | no user: nothing; role other than "user": a redirect to /dashboard/{role}; role "user": the data fetch |
| UserDashboard.FetchOnlyForUsers | client/app/dashboard/user/page.tsx:169-175 | the page fetches exactly when it shows the dashboard, and never redirects to itself |
| UserDashboard.Received | client/app/dashboard/user/page.tsx:43-83 | a thrown or non-ok fetch, or a body without the list, leaves the list empty |
| UserDashboard.DeleteAlert | client/app/dashboard/user/page.tsx:107-131 | no alert exactly on success; the server message or the fallback otherwise |
| UserDashboard.UserDashboardState.constructor | client/app/dashboard/user/page.tsx:17-22 | empty lists, loading, nothing being edited |
| UserDashboard.UserDashboardState.OnUser | client/app/dashboard/user/page.tsx:24-30 | redirects, fetches or does nothing as EffectFor says |
| UserDashboard.UserDashboardState.FetchInitialData | client/app/dashboard/user/page.tsx:32-41 | both lists received, then loading ends |
| UserDashboard.UserDashboardState.HandleLeadAdded | client/app/dashboard/user/page.tsx:85-87 | prepends the lead, nothing else changes |
| UserDashboard.UserDashboardState.HandleTaskAdded | client/app/dashboard/user/page.tsx:89-91 | prepends the task, nothing else changes |
| UserDashboard.UserDashboardState.HandleLeadUpdated | client/app/dashboard/user/page.tsx:93-98 | replaces by id and clears the lead being edited |
| UserDashboard.UserDashboardState.HandleTaskUpdated | client/app/dashboard/user/page.tsx:100-105 | replaces by id and clears the task being edited |
| UserDashboard.UserDashboardState.HandleDeleteLead | client/app/dashboard/user/page.tsx:107-131 | requests only when confirmed; removes the id only on a confirmed ok answer, otherwise alerts and keeps the list |
| UserDashboard.UserDashboardState.HandleDeleteTask | client/app/dashboard/user/page.tsx:133-157 | requests only when confirmed; removes the id only on a confirmed ok answer, otherwise alerts and keeps the list |
| LeadsDashboard.DeleteAlert | client/app/dashboard/leads/page.tsx:47-59 | no alert exactly on success; the error's message, or "Failed to delete lead" |
| LeadsDashboard.SuccessHandler | client/app/dashboard/leads/page.tsx:202 | the update handler exactly while a lead is being edited |
| LeadsDashboard.Received | client/app/dashboard/leads/page.tsx:23-34 | a failed fetch, or an answer without leads, leaves the list empty |
| LeadsDashboard.LeadsPageState.constructor | client/app/dashboard/leads/page.tsx:12-15 | empty list, loading, modal closed |
| LeadsDashboard.LeadsPageState.FetchLeads | client/app/dashboard/leads/page.tsx:23-34 | the list received, and loading ends on every path |
| LeadsDashboard.LeadsPageState.HandleLeadAdded | client/app/dashboard/leads/page.tsx:36-38 | prepends the lead, nothing else changes |
| LeadsDashboard.LeadsPageState.HandleLeadUpdated | client/app/dashboard/leads/page.tsx:40-45 | replaces by id and clears the lead being edited |
| LeadsDashboard.LeadsPageState.HandleDeleteLead | client/app/dashboard/leads/page.tsx:47-59 | requests only when confirmed; removes the id only on a confirmed success, otherwise alerts and keeps the list |
| LeadsDashboard.LeadsPageState.OpenCreateModal | client/app/dashboard/leads/page.tsx:66-69 | nothing being edited, modal open |
| LeadsDashboard.LeadsPageState.OpenEditModal | client/app/dashboard/leads/page.tsx:71-74 | that lead being edited, modal open |
| LeadsDashboard.LeadsPageState.CloseModal | client/app/dashboard/leads/page.tsx:76-79 | modal closed and nothing being edited |
| LeadsDashboard.LeadsPageState.OnModalSuccess | client/app/dashboard/leads/page.tsx:202 | the update while a lead is being edited, else the add |

## Left out

- Password hashing, password comparison and token signing (`bcrypt`, `jsonwebtoken`) are
  parameters. The dummy comparison login makes for an unknown address only evens out
  timing, so it is not modelled.
- The token-checking middleware and `authorizeRoles` are not part of this model. The
  handlers' own caller checks are modelled; the caller is a parameter.
- Mongoose mechanics are not modelled: `populate`, the `select` projections other than
  dropping the password, the `__v` key, the connection and the server wiring.
  - The validators are modelled as the schema checks (`MeetsSchema`, `CheckPatch`).
  - A refused document is a 500 with nothing stored.
- `$group` returns its groups in an order the store chooses. The model lists them in the
  order of the enum's declaration.
- Dates are left out.
  - The seven-day window of the ticket statistics is a `since` parameter.
  - `new Date(dueDate)` is a `toDate` parameter.
  - `createdAt` is the collection's counter, so clocks and time zones are not modelled.
  - Local date rendering on the client is not modelled.
- LeadController.UpdateLead and LeadController.CreateLead: the lead schema's Date paths
  `lastContacted` and `nextFollowUp` are not part of the lead record, so a body that
  sets them is not modelled.
- `parseInt` of `page` and `limit` is not modelled. NaN and a limit of 0 are excluded by
  requiring page ≥ 1 and limit ≥ 1.
- Concurrency is not modelled. In particular the count-then-create race of the first-user
  bootstrap is not, since the store is sequential.
- client/lib/api.ts and the network are not part of this model. Each request is a
  parameter giving how it came back.
- LeadsDashboard.LeadsPageState.HandleDeleteLead: the leads page calls
  `apiService.deleteLead`, which client/lib/api.ts does not define. As written, every
  confirmed delete throws a TypeError, alerts its message and keeps the list. The
  `Removed` outcome, which cannot occur with that file, is kept as a parameter value.
- TicketController.GetTicketById, TicketController.UpdateTicket, TicketController.DeleteTicket,
  LeadController.GetLeadById, LeadController.UpdateLead, LeadController.DeleteLead,
  TaskController.GetTaskById, TaskController.UpdateTask and TaskController.DeleteTask:
  ids are `nat`, so a path id that is not a valid ObjectId, and the CastError with its
  500 "Server error" that it causes, are not modelled. The same holds for a body
  `createdBy`, `assignedTo` or `relatedTo.id` that is not an ObjectId.
- TaskController.GetTasks: MongoDB promises no order among tasks with equal sort keys.
  The model fixes one (`SortTasks`), so across pages it cannot show tied tasks repeated
  or skipped. `SortedUniqueDueDates` states what holds of every sorted order.
- Text.ToLower: only ASCII letters are lower-cased. Full Unicode case mapping
  is not modelled.
- Session.RestoreSession: a `JSON.parse` that succeeds with a value that is not a user
  object (such as `"null"`) is not distinguished from a parsed user.
- The `handleChange` methods take a field of the form's own enum. An input whose `name`
  is no field of the form is not modelled.
- The leads page's effect that calls `fetchLeads` once a user is known is not a member; `FetchLeads` is the call itself.
- `LeadsDashboard.ShowsAddLead` and `UserDashboard.ShowsDashboard` state the page's
  render conditions as definitions.
- Presentational components, the form components that only copy fields around requests,
  the ticket pages and static content are not part of this model.
