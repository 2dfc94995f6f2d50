# AMPA membership manager — a verified model of its core

AMPA is a small web application for a school parents' association. It keeps the
association's families, each with its members (parents, tutors and children),
behind a login, and it has a few administrative tools:

- a CSV backup and restore;
- spreadsheet exports;
- a dashboard of counters and age groups;
- a printable membership card.

This project models the core of that application in Dafny and proves what the
code promises about it.

- **Session layer** (`auth.dfy`, `session.dfy`). `auth.dfy` parses the `session`
  cookie out of a Cookie header and holds the password-hash stand-in.
  `session.dfy` resolves a token to its user through the session table and
  holds the two role gates, `requireAuth` and `requireAdmin`.
- **API handlers** (`auth_routes.dfy`, `family_routes.dfy`, `user_routes.dfy`,
  `import_route.dfy`). These cover login, logout, session and me; the
  family listing and the two-phase family create; the user listing and the
  user create; and the destructive import that replaces every family and
  member. Each handler is a method over a `Db.Store`. Its contract gives the
  response for every input and says which tables and id counters it changes.
  For the tables it leaves alone it states that they are unchanged. For the
  tables it writes it states the new rows, with two exceptions. A login whose
  fresh token is already stored is promised only a non-200 answer and an
  unchanged session table. The import gives its final tables through the
  reference step `InsertStep` run over the submitted list, which it shows
  to be deterministic.
- **The store** (`db.dfy`). The relational database becomes a class with one map
  per table (users, sessions, families, members) and one auto-increment
  counter per table. Each insert, update, delete and read the handlers issue
  is a method, and each states what it changes and what it leaves alone.
- **Client-side logic** (`settings_panel.dfy`, `family_form.dfy`,
  `family_list.dfy`, `family_details.dfy`, `dashboard.dfy`,
  `membership_card.dfy`).
  - The backup CSV writer and reader, and their round trip.
  - The family form, as a class whose fields are the form's state.
  - The list's search, status filter, sorting and three spreadsheet exports.
  - The member order of the detail page.
  - The dashboard's counters, histogram, age groups and recent-activity list.
  - The texts of the membership card.
- **Shared pieces**:
  - `types.dfy`: the records and enums.
  - `text.dfy`: the JavaScript string primitives the code uses.
  - `ordering.dfy`: the stable `sort` with a key comparator.
  - `seqs.dfy`: filters, counts and sums.
  - `http.dfy`: responses and cookies.
  - `wrappers.dfy`: `Option`.

Randomness, the clock, the session token and the deployment mode are
parameters of the operations that use them.

## Model

| member | source | states |
|---|---|---|
| Auth.CookiePair | src/lib/auth.ts:13-14 | the key of a cookie part never contains `=`: the part is cut at its first `=` |
| Auth.CookiePairFirstEquals | src/lib/auth.ts:13-14 | a trimmed part `k=v` with `=`-free `k` yields `(k, v)`, so a value keeps every later `=` |
| Auth.LookupLast | src/lib/auth.ts:11-18 | the lookup finds nothing exactly when no entry has the key; otherwise it returns the value of the last entry with that key |
| Auth.CookieEntries | src/lib/auth.ts:11-16 | one entry per `;`-separated part of the header |
| Auth.ExtractSessionToken | src/lib/auth.ts:7-19 | an absent or empty Cookie header yields no token |
| Auth.LastSessionCookieWins | src/lib/auth.ts:11-18 | with several `session` cookies the last one wins, whatever precedes it and including any `=` in its value |
| Auth.OnlySessionCookie | src/lib/auth.ts:11-18 | a header holding just `session=v` yields `v` |
| Auth.NoSessionKeyNoToken | src/lib/auth.ts:18 | a header with no `session` key yields no token |
| Auth.Hash | src/app/api/users/route.ts:23 | the stored hash is never the plaintext password |
| Auth.CompareHash | src/app/api/auth/login/route.ts:31 | a password matches its own hash and no other password does |
| Session.ServerSession | src/lib/auth.ts:24-43 | resolves exactly when the token is present, non-empty and has a session row whose user exists; the result is that user projected to id, username, name and role |
| Session.UserFromSession | src/lib/auth.ts:48-51 | `getUserFromSession` and `requireAuth` give the resolved session's user, and nothing when the session does not resolve |
| Session.RequireAdmin | src/lib/auth.ts:94-101 | the user, exactly when the session resolves and the role is `ADMIN` or `SUPERADMIN` |
| Session.ResolvesOwnCookie | src/lib/auth.ts:24-43 | a header carrying only a stored token's cookie resolves to that session's user |
| Session.DeletedTokenResolvesToNothing | src/lib/auth.ts:28-33 | a token without a session row resolves to nothing |
| Db.Store.CreateSession | src/lib/auth.ts:56-68 | adds exactly one row binding the token to the user; fails and changes nothing when the token is taken or the user is unknown; no other table changes |
| Db.Store.DeleteSession | src/lib/auth.ts:73-81 | removes the token's row; an unknown token is a silent no-op, so a second delete changes nothing; no other table changes |
| Db.Store.FindUserByUsername | src/app/api/auth/login/route.ts:19-21 | returns the stored row with that username, or nothing exactly when no row has it |
| Db.Store.ListUsers | src/app/api/users/route.ts:10-12 | every stored user row, password column included, ascending by username |
| Db.Store.InsertUser | src/app/api/users/route.ts:25-32 | inserts the row under the counter's next id; fails without change when the username or the id is taken; the counter always advances |
| Db.Store.InsertFamily | src/app/api/families/route.ts:33-58 | inserts a family and its members in one statement, all or nothing; absent ids come from the counters; it succeeds exactly when no id is taken and the member ids differ |
| Db.AutoIdsConsecutive | src/app/api/families/route.ts:44-55 | members created without ids receive consecutive ids from the member counter |
| Db.Store.SetMembershipNumber | src/app/api/families/route.ts:61-67 | sets only the membership number of an existing family; fails without change for an unknown id |
| Db.Store.ReadFamily | src/app/api/families/route.ts:61-67 | the family row with exactly its members, by ascending member id, or nothing for an unknown id |
| Db.Store.ListFamilies | src/app/api/families/route.ts:13-16 | every family exactly once, by ascending id, each with exactly its members |
| Db.Store.DeleteAllMembers | src/app/api/import/csv/route.ts:15 | empties the member table and nothing else |
| Db.Store.DeleteAllFamilies | src/app/api/import/csv/route.ts:16 | empties the family table once no member is left; nothing else changes |
| AuthRoutes.Decide | src/app/api/auth/login/route.ts:11-37 | missing credentials exactly when either field is absent or empty; accepted exactly when both are present, the user exists and the password matches |
| AuthRoutes.Rejection | src/app/api/auth/login/route.ts:11-37 | missing credentials answer 400 and a failed check 401, never with a cookie |
| AuthRoutes.UnknownUserLooksLikeWrongPassword | src/app/api/auth/login/route.ts:23-37 | an unknown username and a wrong password get the identical 401 `Invalid credentials` response |
| AuthRoutes.Login | src/app/api/auth/login/route.ts:7-69 | 500 for an unreadable body, 400 for missing fields, 401 for unknown credentials; on 200 the body is the user's public fields, the cookie is the 7-day httpOnly `session` cookie, one session row is added and it resolves to that user; no failure changes the session table; other tables never change |
| AuthRoutes.Logout | src/app/api/auth/logout/route.ts:4-20 | deletes the cookie's session when the cookie has a value, otherwise changes nothing; always answers `{success: true}` and clears the cookie with an epoch expiry |
| AuthRoutes.SessionStatus | src/app/api/auth/session/route.ts:5-16 | a failing lookup (`fault`) is the unhandled 500, since the handler has no `catch`; otherwise always 200, never 401: unauthenticated exactly when the session does not resolve, otherwise authenticated with the projected user; read-only |
| AuthRoutes.Me | src/app/api/auth/me/route.ts:4-23 | 500 on a failing lookup, 401 `Not authenticated` without a session, otherwise 200 with the session object; read-only |
| FamilyRoutes.NewFamilyData | src/app/api/families/route.ts:34-43 | null membership number; absent address, phone, email and join date become empty, an absent status `Activo`; created by the caller |
| FamilyRoutes.NewMemberFields | src/app/api/families/route.ts:45-54 | an absent birth date becomes empty; every other field is taken as given, absent optionals stay null |
| FamilyRoutes.NewMembers | src/app/api/families/route.ts:44-55 | one member per input member, in order, none with an explicit id |
| FamilyRoutes.MembershipNumbersDistinct | src/app/api/families/route.ts:64 | distinct ids give distinct membership numbers |
| FamilyRoutes.GetFamilies | src/app/api/families/route.ts:7-19 | 401 without a session; otherwise 200 with every family by ascending id, each with its members |
| FamilyRoutes.PostFamily | src/app/api/families/route.ts:23-77 | 401 and no change for a non-admin, and only for a non-admin; an admin is answered 201 or 500 "Internal Server Error"; an unreadable body answers 500 and changes nothing; 201 exactly when the counters' next family and member ids are free and the second write succeeds; the family counter then advances by one and the member counter by the number of members on every create attempt; when the ids are free the family table gains exactly the new row (its number the decimal text of its id, or null when the second write fails) and the member table gains exactly `CreatedRows`; otherwise neither table changes; on 201 the response is the new row with its members in request order |
| FamilyRoutes.Create | src/app/api/families/route.ts:29-76 | the two writes and the read-back, with the same outcome, counters and exact tables as the create above |
| FamilyRoutes.CreatedRowsSpec | src/app/api/families/route.ts:44-55 | the rows a create adds are keyed by exactly the next `n` ids of the member counter, the id `next + i` holding the `i`-th requested member |
| FamilyRoutes.BatchIsCreatedRows | src/app/api/families/route.ts:44-55 | the nested insert of a create's members stores exactly `CreatedRows` |
| FamilyRoutes.Numbered | src/app/api/families/route.ts:61-67 | a created row differs from the first write's columns only in its number, which the second write sets to the id's decimal text |
| FamilyRoutes.InsertNew | src/app/api/families/route.ts:33-58 | the first write succeeds exactly when the counters' next ids are free, and then adds exactly the new family and its members |
| FamilyRoutes.CreatedInOrder | src/app/api/families/route.ts:44-57 | read back by ascending id, the members of a new family are exactly the request's members, in request order |
| UserRoutes.GetUsers | src/app/api/users/route.ts:6-15 | 401 unless admin; otherwise every stored row, password hashes included, by username |
| UserRoutes.PostUser | src/app/api/users/route.ts:17-35 | 401 and no change unless admin, and only then; an admin is answered 201 or the unhandled 500; 201 exactly when the body is readable, has a password, and the username and the id are free; the row stores username, name and role verbatim and the password's hash; otherwise the user table does not change; the user counter stays put when the body or the password is missing and advances by one on every insert attempt |
| ImportRoute.ImportData | src/app/api/import/csv/route.ts:21-31 | every family column is stored as submitted; absent audit fields stay null |
| ImportRoute.ImportFields | src/app/api/import/csv/route.ts:35-42 | every member column is stored as submitted |
| ImportRoute.ImportBatch | src/app/api/import/csv/route.ts:32-44 | one insert per submitted member, in order, keeping its id |
| ImportRoute.ImportFamilies | src/app/api/import/csv/route.ts:5-54 | 401 and no change for a non-admin, and only then; 500 and no change for a body that is not JSON; 500 with both tables emptied for JSON that is not a list, since the wipe runs before the loop; otherwise the import of `Replace`: the tables pass, from empty, through the successful inserts of the run (`Trace`) and end as its 200 after the last family or its 500 at the first failed insert (`Ended`), the final tables being those that insert left |
| ImportRoute.Replace | src/app/api/import/csv/route.ts:14-47 | members are deleted, then families; the families are then inserted in order from empty tables: the ghost trace lists the tables after each successful insert (`Trace` over `InsertStep`), 200 means every insert succeeded and the tables are the last entry, 500 means the insert after the last entry failed and the tables are what it left (`Ended`); also 200 gives one row per family, 500 fewer, explicit ids keep their rows; users and sessions do not change |
| ImportRoute.InsertAll | src/app/api/import/csv/route.ts:19-49 | the loop reaches exactly the states of `InsertStep` run over the list until one insert fails (`Trace`, `Ended`): 200 after the last family, 500 at the first failure; an empty list leaves both tables empty; with explicit, pairwise different ids every family is stored with its members and the answer is 200 |
| ImportRoute.InsertOne | src/app/api/import/csv/route.ts:20-46 | one family insert succeeds exactly when its family id and member ids are free and distinct (`FitsIn`), with the exact effect of `InsertStep`; a success carries the import's progress to the next family, a failure leaves the rows; with explicit distinct ids it always succeeds |
| ImportRoute.OneInsert | src/app/api/import/csv/route.ts:20-46 | an insert with the effect of `InsertStep` either advances the import's progress or is rejected leaving the rows unchanged, and never is rejected when the ids are explicit and distinct |
| ImportRoute.InsertNext | src/app/api/import/csv/route.ts:19-47 | one turn of the loop: a successful insert extends the trace by the new tables, a failed one ends the import with 500 on the tables it left |
| ImportRoute.TraceSnoc | src/app/api/import/csv/route.ts:19-47 | a successful step extends a trace of the loop by the state it left |
| ImportRoute.TraceAgree | src/app/api/import/csv/route.ts:19-47 | two traces of the same loop from the same state agree entry by entry, and a step one of them goes past succeeded in both |
| ImportRoute.NoLongerTrace | src/app/api/import/csv/route.ts:19-52 | once a run has ended, no trace of it lists more successful steps than the one it ended with |
| ImportRoute.EndedUnique | src/app/api/import/csv/route.ts:19-52 | the loop is deterministic: two ways of ending the same run give the same trace, final tables and answer, so the import's outcome is a function of the list and the counters |
| ImportRoute.StepMatches | src/app/api/import/csv/route.ts:20-46 | a store insert whose effect is that of `prisma.family.create` with nested members is exactly the reference step `InsertStep` |
| ImportRoute.ExplicitFits | src/app/api/import/csv/route.ts:19-47 | with explicit, pairwise different ids each family fits into what the earlier ones left |
| SettingsPanel.ExportCsv | src/components/SettingsPanel.tsx:160-198 | the backup text is the byte-order mark, the header line and the data rows, joined by newlines |
| SettingsPanel.WriteRows | src/components/SettingsPanel.tsx:172-196 | the header line, then the lines of every family in order |
| SettingsPanel.PushFamily | src/components/SettingsPanel.tsx:175-195 | appends one line per member of the family, in order |
| SettingsPanel.FamilyLines | src/components/SettingsPanel.tsx:175-195 | one line per member |
| SettingsPanel.DataRowsCount | src/components/SettingsPanel.tsx:174-196 | the backup has exactly one data line per (family, member) pair; a family without members writes none |
| SettingsPanel.Unquote | src/components/SettingsPanel.tsx:228 | the column is the result with a `"` in front exactly when it starts with one, and a `"` behind exactly when what follows that first quote ends with one |
| SettingsPanel.UnquoteQuoted | src/components/SettingsPanel.tsx:228 | unquoting removes exactly the quotes the export put around a column |
| SettingsPanel.Cells | src/components/SettingsPanel.tsx:234 | one cleaned column per `;`-separated piece of the line |
| SettingsPanel.DataLines | src/components/SettingsPanel.tsx:226-231 | the data lines are never blank |
| SettingsPanel.HeaderDropped | src/components/SettingsPanel.tsx:226-231 | below a header line, which carries the byte-order mark, one-line rows are read back as they are |
| SettingsPanel.NonEmpty | src/components/SettingsPanel.tsx:267-269 | an empty optional column becomes absent, any other is kept |
| SettingsPanel.RandomId | src/components/SettingsPanel.tsx:237 | a random id has seven digits |
| SettingsPanel.TakeId | src/components/SettingsPanel.tsx:237 | a column that reads as a non-zero number is the id and takes no draw; any other takes the next draw |
| SettingsPanel.Open | src/components/SettingsPanel.tsx:239-253 | opening a new family keeps the grouping well formed and records the id |
| SettingsPanel.Append | src/components/SettingsPanel.tsx:261-270 | appending a member keeps the grouping well formed |
| SettingsPanel.Step | src/components/SettingsPanel.tsx:233-271 | a line is grouped by its cleaned columns: fewer than eight change nothing, otherwise the line has exactly its row's effect (`RowEffect`); the grouping stays well formed |
| SettingsPanel.Group | src/components/SettingsPanel.tsx:234-271 | fewer than eight columns change nothing; otherwise (`RowEffect`) a row of eight or more columns names its family by column 0 or a draw; an unseen id is opened with the row's columns 1 to 7 at the end of the order; a member from columns 8 to 15 is appended exactly when column 8 is non-empty; no other family changes; the grouping stays well formed |
| SettingsPanel.GroupKeeps | src/components/SettingsPanel.tsx:239-271 | a row never changes a seen family's columns, appends at most one member and adds at most one id to the order |
| SettingsPanel.FirstRowFixesFamily | src/components/SettingsPanel.tsx:239-271 | after any further lines a family keeps the columns of its first row, its members only grow, and families keep their first-appearance place |
| SettingsPanel.Preview | src/components/SettingsPanel.tsx:274 | the preview lists the groups in first-appearance order |
| SettingsPanel.PreviewOpen | src/components/SettingsPanel.tsx:239-253 | a newly opened family appears at the end of the preview |
| SettingsPanel.ImportCsv | src/components/SettingsPanel.tsx:225-274 | the loop over the data lines builds the preview the reading function describes |
| SettingsPanel.ReadLine | src/components/SettingsPanel.tsx:233-272 | the loop body for one line is one reading step |
| SettingsPanel.RoundTrip | src/components/SettingsPanel.tsx:174-274 | under the field conditions of `Portable`, reading a backup gives every family back in order, with its id, columns and members; notes, the AI summary and the update stamp are lost, and the import sets its own creation stamp |
| SettingsPanel.ExportLines | src/components/SettingsPanel.tsx:198 | the data lines read from a portable backup are exactly the written rows |
| SettingsPanel.RowColumns | src/components/SettingsPanel.tsx:176-193 | a portable row has sixteen columns, none with a `;` or a newline, each cleaning back to its value |
| SettingsPanel.CellsOfRow | src/components/SettingsPanel.tsx:234 | the cleaned columns of a portable row are the family's and the member's values |
| SettingsPanel.StepRow | src/components/SettingsPanel.tsx:233-272 | reading a portable row opens its family if new and appends its member |
| SettingsPanel.FoldRows | src/components/SettingsPanel.tsx:233-272 | reading a portable backup's rows gives the expected grouping and takes no random draw |
| SettingsPanel.ExpectedPreview | src/components/SettingsPanel.tsx:274 | the expected grouping's preview lists every family in backup order |
| SettingsPanel.AddUser | src/components/SettingsPanel.tsx:93-113 | refused when a field is empty, then when the username is in the list; otherwise the user saved has the form's fields |
| SettingsPanel.AddedUsernameIsNew | src/components/SettingsPanel.tsx:101-104 | a saved username is not in the loaded list |
| SettingsPanel.DeleteUser | src/components/SettingsPanel.tsx:131-143 | refused for the signed-in account and for an account without a usable id; otherwise it proceeds to the confirmation with that id |
| FamilyForm.BlankFamily | src/components/FamilyForm.tsx:13-25 | a new form's family has no id, an empty membership number, status `Activo`, no members, and today's date |
| FamilyForm.WithField | src/components/FamilyForm.tsx:38-40 | replacing one field changes that field only |
| FamilyForm.WithMemberField | src/components/FamilyForm.tsx:42-44 | replacing one draft field changes that field only |
| FamilyForm.KeepOthers | src/components/FamilyForm.tsx:77 | the index filter never lengthens the list |
| FamilyForm.KeepOthersRemoves | src/components/FamilyForm.tsx:74-79 | filtering out an index removes exactly that position and keeps the rest in order; an index out of range changes nothing |
| FamilyForm.KeepOthersAll | src/components/FamilyForm.tsx:77 | what holds of every member holds of every member kept |
| FamilyForm.Form.constructor | src/components/FamilyForm.tsx:13-36 | the form starts from the given family, or the blank one, and the empty draft |
| FamilyForm.Form.UpdateField | src/components/FamilyForm.tsx:38-40 | one family field is replaced; the draft is untouched |
| FamilyForm.Form.UpdateMemberField | src/components/FamilyForm.tsx:42-44 | one draft field is replaced; the family is untouched |
| FamilyForm.Form.AddMember | src/components/FamilyForm.tsx:46-72 | added exactly when both names hold more than whitespace; a refusal changes nothing; an add appends the draft with id 0 at the end and resets the draft; all members stay named |
| FamilyForm.Form.RemoveLocalMember | src/components/FamilyForm.tsx:74-79 | removes exactly position `index`, or nothing when out of range; the draft is untouched |
| FamilyList.RolePriority | src/components/FamilyList.tsx:50-56 | priority 1 exactly for the parent and tutor roles, 2 exactly for the child role, 99 otherwise |
| FamilyList.SortMembers | src/components/FamilyList.tsx:49-57 | the sorted members are a permutation of the family's |
| FamilyList.SortMembersOrder | src/components/FamilyList.tsx:49-57 | priorities ascend, every parent or tutor precedes every child, and members of equal priority keep their order |
| FamilyList.FilteredSpec | src/components/FamilyList.tsx:62-74 | the shown list is a subsequence of the families, and a family is in it exactly when it matches the search and the status |
| FamilyList.BlankTerm | src/components/FamilyList.tsx:63 | a whitespace-only search normalises to the empty term |
| FamilyList.BlankSearchShowsAll | src/components/FamilyList.tsx:62-74 | a blank search with status `ALL` shows every family, in order |
| FamilyList.StatusFilterSpec | src/components/FamilyList.tsx:71 | `ALL` filters on the search alone; a status keeps exactly the families with that status |
| FamilyList.SortedFamilies | src/components/FamilyList.tsx:76-79 | the sorted list is a permutation of the shown list |
| FamilyList.NumberOfSpec | src/components/FamilyList.tsx:78 | an empty membership number sorts as 0, and the decimal text of `n` as `n` |
| FamilyList.SortedFamiliesOrder | src/components/FamilyList.tsx:76-79 | by number the families ascend by parsed number; by name they ascend by name |
| FamilyList.JoinRows | src/components/FamilyList.tsx:106 | one `;`-joined line per row |
| FamilyList.FamilyRow | src/components/FamilyList.tsx:95-104 | a families row has one column per header |
| FamilyList.FamilyRows | src/components/FamilyList.tsx:95-104 | one row per displayed family, in order |
| FamilyList.FamilyRowCounts | src/components/FamilyList.tsx:102-103 | the Miembros column reads back as the member count and Hijos as the child count, which is no greater |
| FamilyList.MemberRow | src/components/FamilyList.tsx:118-127 | a members row has one column per header |
| FamilyList.MemberRowsOf | src/components/FamilyList.tsx:117-128 | one row per member, in the given order |
| FamilyList.MemberRowsCount | src/components/FamilyList.tsx:111-131 | the members export has one row per member of every displayed family |
| FamilyList.ExportMembers | src/components/FamilyList.tsx:111-131 | the nested loops build the families in display order, each family's members in role order |
| FamilyList.PushMemberRows | src/components/FamilyList.tsx:117-128 | the inner loop appends one row per member, in order |
| FamilyList.SortedChildren | src/components/FamilyList.tsx:142-143 | a family's sorted children are a permutation of its CHILD members |
| FamilyList.SortedChildrenSpec | src/components/FamilyList.tsx:142-143 | they are exactly the family's children, in ascending birth-date text |
| FamilyList.ChildRow | src/components/FamilyList.tsx:146-155 | a children row has one column per header |
| FamilyList.ChildRowsOf | src/components/FamilyList.tsx:145-156 | one row per child, in the given order |
| FamilyList.ChildRowsCount | src/components/FamilyList.tsx:136-158 | the children export has one row per child of every displayed family |
| FamilyList.ExportChildren | src/components/FamilyList.tsx:136-158 | the nested loops build the families in display order, each family's children by birth date |
| FamilyList.PushChildRows | src/components/FamilyList.tsx:145-156 | the inner loop appends one row per child, in order |
| FamilyDetails.DetailKey | src/components/FamilyDetails.tsx:95-108 | rank 0 exactly for non-children, 1 for dated children, 2 for undated children |
| FamilyDetails.SortedMembers | src/components/FamilyDetails.tsx:95 | the listing is a permutation of the family's members |
| FamilyDetails.SortedMembersOrder | src/components/FamilyDetails.tsx:95-108 | every non-child precedes every child and every dated child every undated one; dated children ascend by birth date; non-children keep their order |
| FamilyDetails.HandleDelete | src/components/FamilyDetails.tsx:59-75 | the missing-id alert exactly for an absent or zero id; a usable id with a declined confirmation keeps the family; a deletion happens exactly when the id is usable and the user confirms, through `onDelete` when given, otherwise directly |
| FamilyDetails.MemberIcon | src/components/FamilyDetails.tsx:78-82 | male exactly for `H`, female exactly for `M`, otherwise the default |
| Dashboard.StatusCountsCover | src/components/Dashboard.tsx:12-13 | active plus inactive is the number of families when every status is one of the two |
| Dashboard.ChildrenAtMostMembers | src/components/Dashboard.tsx:14-15 | the total of children is at most the total of members |
| Dashboard.TallySnoc | src/components/Dashboard.tsx:49 | counting one more element bumps its bucket |
| Dashboard.HistogramAt | src/components/Dashboard.tsx:47-49 | key `k` counts the families with exactly `k` children |
| Dashboard.HistogramTotal | src/components/Dashboard.tsx:47-49 | the histogram's values add up to the number of families |
| Dashboard.ChildGroup | src/components/Dashboard.tsx:54 | a child's age falls in exactly one of six groups, with inclusive upper bounds 3, 6, 12, 16 and 18 |
| Dashboard.ParentGroup | src/components/Dashboard.tsx:56 | no group under 20; otherwise exactly one decade group, or `60+` |
| Dashboard.BucketsOfMember | src/components/Dashboard.tsx:51-56 | an undated member is counted in no group; a member counted as a child is not counted as a parent; a dated child is in its age's group; a dated parent under 20 is in none |
| Dashboard.ChildGroupsTotal | src/components/Dashboard.tsx:50-57 | the six child groups add up to the members counted as children |
| Dashboard.ParentGroupsTotal | src/components/Dashboard.tsx:50-57 | the five parent groups add up to the members counted as parents |
| Dashboard.Zeros | src/components/Dashboard.tsx:42-43 | the group objects start with every group at zero |
| Dashboard.Tallies | src/components/Dashboard.tsx:42-59 | the loops build the children histogram and the two age-group objects as the tallies over all members |
| Dashboard.TallyMembers | src/components/Dashboard.tsx:50-58 | the member loop adds one family's members to both group objects |
| Dashboard.CountMember | src/components/Dashboard.tsx:51-57 | one member raises at most its own group |
| Dashboard.GroupsBump | src/components/Dashboard.tsx:54-56 | raising one group keeps the object in step with the tally |
| Dashboard.AgeData | src/components/Dashboard.tsx:62-63 | one chart entry per group, in label order, with that group's count |
| Dashboard.RecentSorted | src/components/Dashboard.tsx:24-34 | the sorted recent families are a permutation of those created or updated after the cutoff |
| Dashboard.RecentActivitySpec | src/components/Dashboard.tsx:24-35 | at most ten families, each changed after the cutoff, by non-increasing update time with a missing time as 0 |
| Dashboard.RecentActivityCutoff | src/components/Dashboard.tsx:30-35 | a recent family left out of the list was updated no later than the tenth one shown |
| MembershipCard.SocioNumberSpec | src/components/MembershipCard.tsx:23 | the membership number when not empty; otherwise the id's text, which reads back as the id, or `undefined` |
| MembershipCard.SchoolYearSpec | src/components/MembershipCard.tsx:19-21 | the school year splits at its dash into the year and the next year |
| MembershipCard.QrTextLines | src/components/MembershipCard.tsx:25-28 | the QR text is exactly four lines: the association, the member number, the family name and the school year |
| MembershipCard.CardGroups | src/components/MembershipCard.tsx:30-37 | the parents and the children lists hold exactly the members of their roles, in family order, and together are the family when every role is known |
| MembershipCard.FileNamesSpec | src/components/MembershipCard.tsx:154 | the PDF and the JPEG names carry their fixed prefix and extension around the member number, which reads back |
| MembershipCard.MemberLines | src/components/MembershipCard.tsx:158-160 | one line per member |
| MembershipCard.MembersListLines | src/components/MembershipCard.tsx:158-160 | the member list is one `• first last (role)` line per member, in order, and empty without members |
| MembershipCard.BodyLines | src/components/MembershipCard.tsx:163 | the e-mail body's lines are the greeting, the heading, the member lines (one blank line without members), a blank line and the reminder naming the file |
| Types.RoleOfLabel | src/types.ts:5-10 | the role a label names, and none for any other text |
| Types.RoleLabelRoundTrip | src/types.ts:5-10 | the four role labels are distinct, so a label identifies its role |
| Types.StatusOfLabel | src/types.ts:12-15 | `Activo` and `Baja` name the two statuses, and no other text does |
| Types.AppRoleOfLabel | src/types.ts:17-21 | the three application roles have distinct labels |
| Types.ParentOrChild | src/types.ts:5-10 | a known role is a parent role or the child role, never both |
| Text.TrimResult | src/lib/auth.ts:13 | trimmed text has no surrounding whitespace, in the full ECMAScript sense: white space, Unicode space separators and line terminators |
| Text.TrimIdentity | src/lib/auth.ts:13 | text without surrounding whitespace is left as it is |
| Text.TrimAllSpace | src/components/SettingsPanel.tsx:226 | a whitespace-only line trims to the empty string |
| Text.Split | src/lib/auth.ts:12 | a split is never empty and no piece holds the separator |
| Text.JoinSplit | src/lib/auth.ts:14 | joining the pieces of a split gives the text back |
| Text.SplitJoin | src/components/SettingsPanel.tsx:226 | splitting a join of separator-free pieces gives the pieces back |
| Text.ParseShow | src/app/api/families/route.ts:64 | `Number(String(n))` is `n` |
| Text.ParseIntShow | src/components/FamilyList.tsx:78 | `parseInt` reads a number written by `String` back |
| Ordering.SortBy | src/components/FamilyList.tsx:56 | sorting permutes its input |
| Ordering.SortBySorted | src/components/FamilyList.tsx:56 | sorting orders the elements by key |
| Ordering.SortByStable | src/components/FamilyList.tsx:56 | elements with equal keys keep their input order |

## Left out

- Prisma: the database is a set of in-memory tables with per-table counters. A unique or foreign-key violation is an insert that fails.
- Randomness, the clock and the deployment mode are parameters:
  - `crypto.randomUUID` becomes the login's `token`;
  - `new Date()` becomes `now`, `today`, `year` and `cutoff`;
  - `Date` parsing becomes the `time` and `birthYear` functions;
  - `Math.random` becomes `draw(n)`;
  - `NODE_ENV` becomes `production`.
- Auth.Hash: bcrypt's salted hash is a deterministic, injective stand-in, so salting and cost are not modelled.
- AuthRoutes.Login: a login token that is already stored makes the insert fail and the handler answer 500. The real code assumes a fresh UUID.
- The family and user `PUT`/`DELETE` handlers under `[id]` are not part of this model.
- `src/services/*`, `src/App.tsx`, `LoginScreen.tsx` and `Button.tsx` are not part of this model: fetch wrappers, browser storage, navigation and styling.
- The plaintext-password cache in browser storage in the settings panel is not modelled. It stores secrets and keeps no invariant.
- Rendering and browser I/O are not modelled: JSX, charts, print windows, PDF and JPEG generation, QR images, Blob downloads, `FileReader`, `mailto`/Gmail URLs and `encodeURIComponent`.
- File names that embed the date (`ampa_familias_<date>.csv` and the like) are not modelled.
- Dashboard: the `Math.round` percentages and the label sort of `childrenDistributionData` are floating point and presentation, so they are left out.
- Dashboard.Tallies, FamilyList.ChildRow: `new Date(text).getFullYear()` becomes a `birthYear` function returning an integer. An unparsable date is therefore never NaN; in JavaScript such a child would land in `+18`.
- Dashboard.BucketsOfMember: a dated member whose computed age is exactly -1 (born the year after the current one) is skipped like an undated member, as the code does; the contract speaks of ages other than -1.
- Text.ToLower, Ordering.StrLe: `toLowerCase` covers ASCII letters only, and `localeCompare` is ordering by character code. The database's `orderBy: { username: "asc" }` in Db.Store.ListUsers and UserRoutes.GetUsers sorts by its collation; the model uses the same character-code order.
- Text.ParseNumber, Text.ParseIntPrefix: `Number` and `parseInt` read decimal notation only: no exponents, hexadecimal, fractions, a leading `+`, `Infinity` or surrounding whitespace for `Number`. An import id column such as `+5` therefore takes a random id in the model where JavaScript reads 5.
- FamilyList.NumberOf: a membership number `parseInt` cannot read (NaN) ranks as 0. JavaScript's sort with a NaN comparator result is implementation-defined.
- FamilyDetails.DetailKey: for two undated children the source comparator answers 1 both ways, which is inconsistent. The model ranks them equal, so they keep their input order.
- SettingsPanel.Col: a column past the end of a short row reads as the empty string, where JavaScript gives `undefined`.
- SettingsPanel.RoundTrip: the round trip is proved under `Portable`:
  - every family has at least one member;
  - the family ids are pairwise different, since rows with the same id are merged;
  - ids are positive;
  - no field holds a `;`, a newline, a surrounding quote or surrounding whitespace.
- MembershipCard.Subject: the e-mail subject is modelled as text, with no property proved about it.
- UserRoutes.GetUsers: the listing returns password hashes, as the code does; no projection is added.
- Db.Store.ReadFamily, Db.Store.ListFamilies, FamilyRoutes.GetFamilies, FamilyRoutes.PostFamily, FamilyRoutes.Create, FamilyRoutes.CreatedInOrder: `include: { members: true }` names no order for a family's members. The model fixes one, ascending member id, and the "members in request order" of a created family rests on it.
- ImportRoute.ImportFamilies, ImportRoute.Replace: a submitted list is assumed to hold complete families. An element without `members` throws at `f.members.map` after the earlier families were stored, and an element missing a required column is refused by the database whatever its ids; the model fails an insert only on a taken or repeated id (`FitsIn`). A JSON body that is not a list is modelled: both tables are wiped, then 500.
- UserRoutes.PostUser, FamilyRoutes.PostFamily: `username`, `name`, `role`, `familyName` and the members' `firstName`, `lastName` and `role` are always present in the modelled request. A request that omits one is refused by the database in the source: an unhandled 500 for users, the caught 500 for families.
- Concurrency and transactions: the handlers' writes run in sequence. The failure of the family create's second write is the `updateFault` parameter, and a failing session lookup in `me` and `session` is `fault`.
- FamilyList.FilteredSpec, FamilyList.SortedFamilies: the client model's `Family.membershipNumber` is a string, never null. A family left with a null number by a failed second write of the create would make the list's search throw in `toLowerCase`; that case is not modelled.
