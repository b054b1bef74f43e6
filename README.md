# Enterprise management platform: persistence layer and component logic

This project models the client side of an enterprise management web application. It has three parts.

- **The local database.** `LocalDatabase` wraps the browser's Indexed Database. It holds seven object stores: users, tasks, customers, projects, notifications, settings and audit logs. Settings are keyed by their own `key`. Every other store has an auto-increment `id`.
  - The model covers opening and upgrading the database, `add`, `put`, `get` and `delete` on records, and `clear` and `count` on a store.
  - It covers the exact-match index `query` and the filter → sort → page pipeline of `getAll`.
  - It covers the JSON `backup` and `restore` and the record counts of `getStats`.
- **The seeder.** `DatabaseSeeder` builds a fixed sample dataset. `seedAll` empties the seven stores and loads that dataset. `generateRandomData` appends random tasks, and `getStats` tallies the stores.
- **Component logic.** The list and state logic of five screens:
  - the task list: filters, status update, delete, statistics, labels;
  - the customer list: search, totals, the add form, CSV export;
  - the system initializer: a dependency-gated run of eight start-up steps with a bounded log;
  - the navigation sidebar: expand and collapse, highlighting, auto-expand;
  - the communication module: presence labels and "time ago" texts.

How the pieces are modelled:

- **Object stores.** The object store semantics the code relies on follow the W3C Indexed Database API:
  - `add` refuses a key that is in use;
  - `put` replaces the record;
  - key generators are bumped by explicit numeric keys;
  - `getAll` returns records in ascending key order.

  Each store is a list of entries kept sorted by key (module `ObjectStores`), with `Find` as its map view. A database maps store names to stores (module `LocalDb`).
- **Wrapper state.** `LocalDatabase` and `DatabaseSeeder` are classes.
  - Their methods update the wrapper's `db`/`isInitialized` state and the stored database in place.
  - Their loops (clearing, adding, counting store by store) are `for` loops with invariants.
  - Each method is proved equal to a pure function of the old state. The properties are lemmas about those functions.
- **Components.** The component logic is pure functions over sequences. The one exception is the initializer's `startInitialization`, which is also a class with a `while` loop.

Browser answers and other non-deterministic inputs are parameters:
- whether the database opens;
- `confirm`;
- `Math.random`, `Date.now` and `toISOString`;
- the locale date text.

## Model

| member | source | states |
|---|---|---|
| Schema.DefaultConfig | lib/local-database.ts:291-361 | The database "EnterpriseManagementDB" at version 1 has seven stores with distinct names, in order: users, tasks, customers, projects, notifications, settings, auditLogs. `settings` is keyed by `key` with no generator; every other store is keyed by `id` with auto-increment. |
| Schema.TasksStatusIndex | lib/local-database.ts:309-310 | The `tasks` store has a `status` index over the `status` property. |
| Keys.KeyLessTotal | lib/local-database.ts:111-120 | The key order that `getAll` lists records in is total: two different keys are ordered one way or the other. |
| Keys.KeyLessTransitive | lib/local-database.ts:111-120 | The key order is transitive. |
| Keys.ToKeyInverse | lib/local-database.ts:72-83 | A value that is a valid key is the value handed back as that key: the conversion loses nothing. |
| ObjectStores.EmptyStore | lib/local-database.ts:51-67 | A store made by the upgrade step is valid, has the configured spec and holds no record. |
| ObjectStores.Bumped | lib/local-database.ts:72-83 | An explicit numeric key at or above the generator's number moves the generator to that key plus one. Any other key leaves the generator where it was. The generator never goes down. |
| ObjectStores.ResolveKey | lib/local-database.ts:72-96 | A record's key is the value at the key path, which must be a valid key, else DataError. A record with no key needs a generator and a plain object to carry the generated key, else DataError: the model rejects a key-less array or `Date` (see "Left out"). The generator never goes down. |
| ObjectStores.Add | lib/local-database.ts:72-83 | `store.add` succeeds exactly when the key resolves and is not in use. A key in use fails with ConstraintError. On success there is one more record, found under the returned key, and every other key finds what it found before. |
| ObjectStores.Put | lib/local-database.ts:85-96 | `store.put` succeeds exactly when the key resolves, replaces or inserts the record under that key, and leaves every other key as it was. |
| ObjectStores.GetRecord | lib/local-database.ts:98-109 | `store.get` throws DataError exactly for a query that is not a key. Otherwise it returns the record under the key, or nothing. |
| ObjectStores.Delete | lib/local-database.ts:150-161 | `store.delete` throws DataError exactly for a non-key. Otherwise it removes that key's record alone and keeps the generator. Deleting an absent key changes nothing. |
| ObjectStores.Clear | lib/local-database.ts:163-174 | `store.clear` removes every record and keeps the spec and the generator. |
| ObjectStores.GetAll | lib/local-database.ts:111-118 | `store.getAll` returns as many records as the store holds, in the store's order. |
| ObjectStores.GetAllListsContents | lib/local-database.ts:111-118 | `getAll` lists exactly the records of the map view, each found under its own key, in strictly ascending key order. |
| ObjectStores.Query | lib/local-database.ts:189-201 | An unknown index throws NotFoundError. A query that is neither `null` nor a key throws DataError. Every other query succeeds, and its result only holds stored records. |
| ObjectStores.QueryExact | lib/local-database.ts:189-201 | A record is in the index query's result exactly when it is stored, its indexed property is a valid key, and that key is the query key. A `null` query drops the last condition. |
| ObjectStores.QueryAll | lib/local-database.ts:189-201 | A `null` query is the unbounded key range. It lists the stored records that have an index key, ordered by index key and then by primary key. |
| ObjectStores.QueryBoolean | lib/local-database.ts:189-201 | A record whose indexed property is a boolean is never found by an index query, because a boolean is not a key. |
| ObjectStores.AddThenGet | lib/local-database.ts:72-109 | After a successful `add`, `get` with the returned key finds the stored record, and every other key finds what it found before. |
| ObjectStores.PutThenGet | lib/local-database.ts:85-109 | After a successful `put`, `get` with the returned key finds the new record, replacing the old one, and every other key finds what it found before. |
| ObjectStores.AddExplicitKey | lib/local-database.ts:72-83 | A record carrying its own key is added as it is, under that key, exactly when the key is free. |
| ObjectStores.GeneratedKeyFresh | lib/local-database.ts:72-83 | A record with no key, added to a generator store, succeeds exactly when it is a plain object and the generator is not exhausted. A key-less array or `Date` is rejected in the model (see "Left out"). It gets the generator's number, and the generator advances by one. |
| ObjectStores.TwoGeneratedKeys | lib/local-database.ts:72-83 | Two key-less adds in a row get different keys and grow the store by two. |
| ObjectStores.ExplicitKeyBumpsGenerator | lib/local-database.ts:72-83 | An explicit numeric key at or above the generator moves it past that key. A smaller key leaves it. |
| ObjectStores.PutIdempotent | lib/local-database.ts:85-96 | `put` of the same keyed record twice leaves the store as the first `put` left it. |
| ObjectStores.AddInKeyOrder | lib/local-database.ts:240-246 | Adding a store's records back in key order into its emptied copy rebuilds it record by record. Each add succeeds under the record's own key. |
| Queries.BeforeNegativelyTransitive | lib/local-database.ts:128-135 | The `orderBy` comparator, ascending or descending, is a strict weak order, as a sort needs. |
| Queries.SortBy | lib/local-database.ts:128-135 | `results.sort(compare)` returns a sorted permutation of its input. |
| Queries.SortByStable | lib/local-database.ts:128-135 | The sort is stable: the records of each class of equal keys keep their order. |
| Queries.SortBySorted | lib/local-database.ts:128-135 | An already ordered list comes out of the sort unchanged. |
| Queries.RelativeIndex | lib/local-database.ts:138-142 | `slice` counts a negative position from the end and clamps every position to the list. |
| Queries.ApplyOptions | lib/local-database.ts:111-148 | `getAll`'s result only drops records, and with a filter every record in it passes the filter. |
| Queries.NoOptionsKeepsRecords | lib/local-database.ts:111-148 | Without options `getAll` returns the records unchanged. |
| Queries.UnorderedKeepsStoreOrder | lib/local-database.ts:123-125 | Without `orderBy`, offset or limit, the result is the filter's output, in store order. |
| Queries.OrderedResults | lib/local-database.ts:123-135 | With `orderBy` and no page cut, the result is sorted and is a permutation of the filtered records. Records that compare equal keep their filtered order. |
| Queries.PageOnly | lib/local-database.ts:138-142 | With no filter and no order, `getAll` is the page cut alone. |
| Queries.PageIsSlice | lib/local-database.ts:138-142 | A page with a non-negative offset and a positive limit skips `offset` records and keeps at most `limit`. |
| Queries.ConsecutivePages | lib/local-database.ts:138-142 | Two consecutive pages together are the page of their combined size. |
| Queries.NegativeOffsetTakesTail | lib/local-database.ts:138-142 | A negative offset of -k with no limit keeps the last k records. |
| Values.JsonifyIdempotent | lib/local-database.ts:208-222 | A value that went through the JSON text once is unchanged by a second trip. |
| Values.JsonifyLookup | lib/local-database.ts:208-222 | A property looked up after the JSON trip is the trip of the property looked up before it. |
| Values.LessNegativelyTransitive | lib/local-database.ts:128-135 | The order on property values used by `orderBy` is a strict weak order. |
| LocalDb.Wrap | lib/local-database.ts:72-83 | A thrown exception passes through unchanged. A failed request becomes an `Error` whose message is the operation's prefix followed by the request's error. |
| LocalDb.UpgradedKeepsAndAdds | lib/local-database.ts:47-67 | The upgrade step keeps every existing store. Every store it adds is a configured one, empty, with its configured spec. Every configured store exists afterwards. |
| LocalDb.Open | lib/local-database.ts:30-70 | Opening succeeds exactly when the version is at least 1, the browser does not refuse and the stored version is not above it. Otherwise it fails with TypeError, the prefixed refusal or VersionError. The opened database has the configured version; at the stored version it is the database as it was. |
| LocalDb.Ready | lib/local-database.ts:275-279 | `ensureInitialized` hands back the open database without opening again once initialized. |
| LocalDb.ReadyRetries | lib/local-database.ts:30-45 | A failed opening leaves the wrapper uninitialized, so the next operation opens again, and succeeds once the browser agrees. |
| LocalDb.OpenUpgrade | lib/local-database.ts:47-67 | An upgrade keeps every existing store and adds each missing configured store, empty. |
| LocalDb.AddTo | lib/local-database.ts:72-83 | `add` on a missing store fails with NotFoundError and changes nothing. A failed store `add` rejects with the add prefix and changes nothing. A successful one returns the key and replaces that store alone. |
| LocalDb.PutTo | lib/local-database.ts:85-96 | `put` does the same with the put prefix and `store.put`. |
| LocalDb.GetFrom | lib/local-database.ts:98-109 | `get` returns NotFoundError for a missing store and DataError for a non-key. Otherwise it returns the record under the key, or `undefined`. |
| LocalDb.GetAllFrom | lib/local-database.ts:111-148 | `getAll` fails exactly for a missing store. Otherwise it is the options pipeline applied to the store's records in key order. |
| LocalDb.DeleteFrom | lib/local-database.ts:150-161 | `delete` fails for a missing store or a non-key without changing anything. Otherwise it removes that key from that store alone. |
| LocalDb.ClearIn | lib/local-database.ts:163-174 | `clear` fails exactly for a missing store. Otherwise it empties that store alone. |
| LocalDb.CountIn | lib/local-database.ts:176-187 | `count` fails exactly for a missing store. Otherwise it returns the number of records `getAll` would list. |
| LocalDb.QueryIn | lib/local-database.ts:189-201 | `query` fails for a missing store, and a failed index query rejects with the query prefix. Otherwise it returns the index query's records, including every indexed record for a `null` value. |
| LocalDb.OpenTransaction | lib/local-database.ts:203-206 | `transaction` succeeds exactly for a non-empty list of existing stores and a mode other than "versionchange", with that scope and mode. An empty list throws InvalidAccessError. Existing stores with the mode "versionchange" throw TypeError. |
| LocalDb.AddThenGetFrom | lib/local-database.ts:72-109 | After a successful `add`, `get` with the returned key finds the stored record. Every other key and every other store is unchanged. |
| LocalDb.PutThenGetFrom | lib/local-database.ts:85-109 | After a successful `put`, `get` with the returned key finds the record. Every other key and every other store is unchanged. |
| LocalDb.AddExistingRejects | lib/local-database.ts:72-96 | `add` of a record whose key is stored rejects with the prefixed ConstraintError and changes nothing. `put` of it succeeds. |
| LocalDb.DeleteAbsentNoOp | lib/local-database.ts:150-161 | `delete` of a key whose `get` is `undefined` resolves and leaves the database as it was. |
| LocalDb.ClearThenCount | lib/local-database.ts:163-187 | After `clear`, `count` is 0 and every other store's `getAll` is unchanged. |
| LocalDb.Snapshot | lib/local-database.ts:208-222 | The backup's `data` has one property per configured store, in order. Each holds that store's records after the JSON trip. A missing store makes it fail. |
| LocalDb.SnapshotFinds | lib/local-database.ts:208-222 | The backup's data succeeds whenever every configured store exists. |
| LocalDb.RestoreFrom | lib/local-database.ts:224-252 | `restore` keeps the database valid and its stores. Every failure is an `Error` carrying the restore prefix. |
| LocalDb.RestoreNeedsData | lib/local-database.ts:230-232 | A document without a truthy `data` is refused with the invalid-backup message before anything is cleared. |
| LocalDb.ClearStoresEmpties | lib/local-database.ts:235-237 | The clearing loop empties every configured store and leaves the others as they were. |
| LocalDb.ClearStoresStops | lib/local-database.ts:235-237 | Once the clearing loop has failed, the rest of it changes nothing. |
| LocalDb.AddItemsStops | lib/local-database.ts:240-246 | Once an `add` has failed, the rest of the inner loop changes nothing: earlier records stay added. |
| LocalDb.AddEntriesStops | lib/local-database.ts:240-246 | Once a store's loop has failed, the later entries change nothing: a mid-way failure leaves a partial state. |
| LocalDb.AddEntriesSkips | lib/local-database.ts:240-246 | Entries whose value is not an array are skipped. |
| LocalDb.RestoreWithoutArrays | lib/local-database.ts:224-252 | A truthy `data` holding no array empties every configured store and reports success. |
| LocalDb.RestoreStringData | lib/local-database.ts:224-252 | `{"data": "x"}` in particular empties every configured store and reports success. |
| LocalDb.BackupRestoreRoundTrip | lib/local-database.ts:208-252 | Restoring a backup gives back the database it was taken from, when its records are unchanged by the JSON trip. |
| LocalDb.Counts | lib/local-database.ts:254-273 | The per-store counts of the configured stores, in order. A missing store makes them fail. |
| LocalDb.CountsPresent | lib/local-database.ts:254-273 | Counting succeeds exactly when every configured store exists. |
| LocalDb.LocalDatabase.constructor | lib/local-database.ts:21-28 | A new wrapper has the given config and is not initialized. |
| LocalDb.LocalDatabase.Initialize | lib/local-database.ts:30-70 | `initialize` either fails, leaving the state as it was, or succeeds with the wrapper initialized on the ready database. |
| LocalDb.LocalDatabase.Close | lib/local-database.ts:281-287 | `close` drops the connection and the flag and keeps the stored data. |
| LocalDb.LocalDatabase.Add | lib/local-database.ts:72-83 | `add` opens if needed, then has the result and new stored database of `AddTo`. A failed opening changes nothing. |
| LocalDb.LocalDatabase.Put | lib/local-database.ts:85-96 | `put` is the same, with `PutTo`. |
| LocalDb.LocalDatabase.Get | lib/local-database.ts:98-109 | `get` opens if needed and returns `GetFrom`. |
| LocalDb.LocalDatabase.GetAll | lib/local-database.ts:111-148 | `getAll` opens if needed and returns `GetAllFrom`. |
| LocalDb.LocalDatabase.Delete | lib/local-database.ts:150-161 | `delete` opens if needed, with `DeleteFrom`'s result and database. |
| LocalDb.LocalDatabase.Clear | lib/local-database.ts:163-174 | `clear` opens if needed, with `ClearIn`'s result and database. |
| LocalDb.LocalDatabase.Count | lib/local-database.ts:176-187 | `count` opens if needed and returns `CountIn`. |
| LocalDb.LocalDatabase.Query | lib/local-database.ts:189-201 | `query` opens if needed and returns `QueryIn`, so a `null` value yields every indexed record in index order. |
| LocalDb.LocalDatabase.Transaction | lib/local-database.ts:203-206 | `transaction` opens if needed and returns `OpenTransaction`. |
| LocalDb.LocalDatabase.Backup | lib/local-database.ts:208-222 | `backup`'s loop over the configured stores produces the document with the version, the timestamp and the snapshot. |
| LocalDb.LocalDatabase.Restore | lib/local-database.ts:224-252 | `restore`'s clearing loop and nested adding loops produce `RestoreFrom`'s result and database. |
| LocalDb.LocalDatabase.GetStats | lib/local-database.ts:254-273 | `getStats`'s loop returns each configured store's record count. |
| Loading.LoadKeyed | lib/database-seeder.ts:379-426 | Records with distinct keys of their own, none in use, are all added. Each is found under its key, every other key is unchanged, and the store grows by their number. |
| Loading.ReloadSame | lib/database-seeder.ts:379-426 | Loading keyed records into an emptied store, emptying it and loading them again gives the same store. |
| Loading.LoadGenerated | lib/database-seeder.ts:445-470 | Key-less records added to a generator store with numeric keys are appended in turn under the generator's next numbers, each with its number written at the key path. |
| Loading.LoadInOrder | lib/database-seeder.ts:379-426 | Records with ascending keys loaded into an empty store come back from `getAll` as they were given. |
| Loading.AddGeneratedItems | lib/database-seeder.ts:445-470 | The loop of key-less `add`s appends the records to that store alone. |
| WrapperCalls.ClearCallsMeaning | lib/database-seeder.ts:370-377 | A run of `clear` calls throws the opening error and changes nothing when the wrapper cannot open. Otherwise it clears the stores in turn up to the first failure. |
| WrapperCalls.AddCallsMeaning | lib/database-seeder.ts:379-384 | A run of `add` calls does nothing for no records. It throws the opening error when the wrapper cannot open. Otherwise it adds the records in turn up to the first failure. |
| WrapperCalls.CountCallsMeaning | lib/database-seeder.ts:428-443 | A run of `count` calls throws the opening error when the wrapper cannot open. Otherwise it reports the counts in order and changes no store. |
| SeedData.SampleTaskStatuses | lib/database-seeder.ts:83-140 | The four sample tasks are in progress, completed (task 2), pending and in progress. |
| SeedData.UsersNumbered | lib/database-seeder.ts:26-82 | The five sample users carry ids 1 to 5. |
| SeedData.TasksNumbered | lib/database-seeder.ts:83-140 | The four sample tasks carry ids 1 to 4. |
| SeedData.CustomersNumbered | lib/database-seeder.ts:141-187 | The three sample customers carry ids 1 to 3. |
| SeedData.ProjectsNumbered | lib/database-seeder.ts:188-221 | The two sample projects carry ids 1 and 2. |
| SeedData.NotificationsNumbered | lib/database-seeder.ts:222-256 | The three sample notifications carry ids 1 to 3. |
| Seeding.SettingsNamed | lib/database-seeder.ts:257-293 | The five sample settings carry their own distinct `key`s. |
| SeedData.AuditLogsNumbered | lib/database-seeder.ts:294-343 | The four sample audit logs carry ids 1 to 4. |
| Seeding.SeedDataFits | lib/database-seeder.ts:20-345 | The sample dataset, whenever it is built, gives every record a distinct key of its own in its store. |
| Seeding.SeedKeysDistinct | lib/database-seeder.ts:20-345 | Each store's seed keys are distinct, and there are as many as that store's records. |
| Seeding.SeedLoadsAny | lib/database-seeder.ts:347-368 | Whatever the records, if each of the seven stores takes its records once emptied, `seedAll` succeeds. Each store ends up as its emptied self refilled and every other store is untouched. |
| Seeding.ClearedAll | lib/database-seeder.ts:370-377 | `clearAllData` empties each of the seven stores and leaves the rest alone. |
| Seeding.SeedLoads | lib/database-seeder.ts:347-368 | With the sample dataset, `seedAll` succeeds: no seed `add` collides after the clear. |
| Seeding.SeedContents | lib/database-seeder.ts:347-426 | After `seedAll`, each store holds exactly its records, each under its own key, and nothing else. |
| Seeding.SeededTasksInOrder | lib/database-seeder.ts:386-391 | After `seedAll`, the `tasks` store lists the dataset's tasks in the order of their ids. |
| Seeding.SeededStatusQuery | lib/local-database.ts:189-201 | After `seedAll`, a `status` index query of `tasks` returns the dataset's tasks with that status, in id order. |
| Seeding.CompletedSampleTask | lib/database-seeder.ts:83-140 | Of the sample tasks only task 2 is completed, so the `status` index finds that one record under "completed". |
| Seeding.SeedCounts | lib/database-seeder.ts:347-368 | After `seedAll` the counts are users 5, tasks 4, customers 3, projects 2, notifications 3, settings 5, audit logs 4. |
| Seeding.StoreReseeded | lib/database-seeder.ts:370-426 | A store emptied and refilled twice with the same records is the store after the first refill. |
| Seeding.SeedTwice | lib/database-seeder.ts:347-368 | `seedAll` twice in a row leaves the database as the first one left it. |
| Seeding.TallyTotal | lib/database-seeder.ts:428-443 | `totalRecords` is the sum of the per-store counts. |
| Seeding.TallyTable | lib/database-seeder.ts:428-443 | With distinct store names, `storeStats` holds each store's own count under its name and nothing else. |
| Seeding.SeededStats | lib/database-seeder.ts:428-443 | After `seedAll`, `getStats` reports 26 records with the seven counts. |
| RandomData.Pick | lib/database-seeder.ts:452-464 | `Math.floor(x * n)` for a draw picks one of the first n choices. |
| RandomData.After | lib/database-seeder.ts:452-464 | A due date lies at most the span after now. |
| RandomData.Before | lib/database-seeder.ts:452-464 | A creation or update time lies at most the span before now. |
| RandomData.RandomTaskAt | lib/database-seeder.ts:451-466 | The i-th random task is built from the i-th draws. |
| RandomData.TaskAssignment | lib/database-seeder.ts:452-464 | Every random task has an assignee from 1 to 5, a project 1 or 2, and a prefix of one to three of the tags. |
| RandomData.TaskStates | lib/database-seeder.ts:452-464 | Every random task has one of the four statuses and one of the four priorities. |
| RandomData.TaskKeyless | lib/database-seeder.ts:452-464 | Every random task is an object without `id`, titled by its position from 1. |
| RandomData.TaskTimes | lib/database-seeder.ts:452-464 | Every random task is due within 30 days after now, created within 30 days before it and updated within the day before it. |
| RandomData.RandomTasksKeyless | lib/database-seeder.ts:445-470 | None of the random tasks carries an `id`. |
| RandomData.RandomTasksAppend | lib/database-seeder.ts:445-470 | Added to a `tasks` store whose keys come from its generator, the random tasks are appended under the next numbers and nothing else changes. |
| Seeder.SeedCallsMeaning | lib/database-seeder.ts:347-368 | `seedAll` throws the opening error and changes nothing when the wrapper cannot open. Otherwise it leaves the `Seeded` database and reports its first failure. |
| Seeder.StatsCallsMeaning | lib/database-seeder.ts:428-443 | `getStats` changes no store and reports the tally of the database's counts. |
| Seeder.SeedThenStats | lib/database-seeder.ts:347-443 | `seedAll` on a database with the seven stores succeeds. A `getStats` after it reports 26 records with the seven counts and changes nothing. |
| Seeder.RandomCallsAppend | lib/database-seeder.ts:445-470 | `generateRandomData` appends every task under the generator's next numbers, clears nothing and touches no other store. |
| Seeder.DatabaseSeeder.constructor | lib/database-seeder.ts:16-18 | The dataset is built once, at construction, and fits the seven stores. |
| Seeder.DatabaseSeeder.ClearAllData | lib/database-seeder.ts:370-377 | `clearAllData` clears the seven stores: its calls are the run `ClearCalls` over them. |
| Seeder.DatabaseSeeder.ClearEach | lib/database-seeder.ts:373-376 | The loop of `clear` calls over any list of store names is the run `ClearCalls` over that list, up to its first failure. |
| Seeder.DatabaseSeeder.SeedStore | lib/database-seeder.ts:379-426 | Each `seedX` loop of `add` calls is the run `AddCalls` over that store's records. |
| Seeder.DatabaseSeeder.SeedAll | lib/database-seeder.ts:347-368 | `seedAll`'s sequence is the run `SeedCalls` with the dataset fixed at construction. |
| Seeder.DatabaseSeeder.GetStats | lib/database-seeder.ts:428-443 | `getStats` over the seven stores returns the tally of the run of `count` calls and leaves the state that run leaves. |
| Seeder.DatabaseSeeder.CountEach | lib/database-seeder.ts:436-440 | The counting loop over any list of store names accumulates exactly the tally of the run of `count` calls over it. |
| Seeder.DatabaseSeeder.AddRandomTask | lib/database-seeder.ts:452-466 | One turn adds the i-th random task to `tasks`. |
| Seeder.DatabaseSeeder.GenerateRandomData | lib/database-seeder.ts:445-470 | The loop is the run of `add` calls over the random tasks. |
| TaskManagement.FilterTasksShown | components/task-management.tsx:127-148 | The chained filters keep, in order, exactly the tasks that meet every active criterion. |
| TaskManagement.FilterTasksMember | components/task-management.tsx:127-148 | A task is shown exactly when it is in the list and meets the search, status and priority criteria. |
| TaskManagement.FilterTasksNone | components/task-management.tsx:127-148 | With an empty search and both filters "all", the shown list is the task list. |
| TaskManagement.UpdateTaskStatus | components/task-management.tsx:210-218 | Tasks with the id take the new status, and progress 100 exactly when it is "completed"; their other fields are kept. Other tasks are unchanged. |
| TaskManagement.UpdateTwice | components/task-management.tsx:210-218 | Updating twice to the same status is updating once. |
| TaskManagement.DeleteTask | components/task-management.tsx:220-222 | The tasks left are exactly those without the id. |
| TaskManagement.DeleteAbsent | components/task-management.tsx:220-222 | Deleting an id no task carries keeps the list. |
| TaskManagement.UpdateThenDelete | components/task-management.tsx:210-222 | Updating and then deleting an id is deleting it. |
| TaskManagement.Toggled | components/task-management.tsx:429 | "completed" toggles to "in-progress" and every other status to "completed". |
| TaskManagement.ToggleTwice | components/task-management.tsx:429 | Toggling twice brings a completed task back at progress 100 and leaves any other at "in-progress". Other tasks are unchanged. |
| TaskManagement.GetTaskStats | components/task-management.tsx:224-231 | `total` is the list's length; completed + in progress and completed + overdue are each at most the total. |
| TaskManagement.CompleteNotOverdue | components/task-management.tsx:224-231 | A completed task is never overdue: completing tasks does not raise the overdue count. |
| TaskManagement.StatusText | components/task-management.tsx:165-178 | "未知" exactly for a status other than the four known ones. |
| TaskManagement.PriorityText | components/task-management.tsx:195-208 | "未知" exactly for a priority other than the four known ones. |
| TaskManagement.PriorityColor | components/task-management.tsx:180-193 | Grey exactly for an unknown priority. |
| CustomerManagement.FilteredCustomers | components/customer-management.tsx:130-134 | A customer is shown exactly when its lowercased name or company contains the lowercased search term. |
| CustomerManagement.EmptySearchKeepsAll | components/customer-management.tsx:130-134 | An empty search keeps every customer, in order. |
| CustomerManagement.GetTotals | components/customer-management.tsx:136-139 | The total is the list's length, and active + potential is at most the total. |
| CustomerManagement.TotalValueBothWays | components/customer-management.tsx:136-139 | The `reduce` sum of values is the same summed from either end. |
| CustomerManagement.TotalsAppend | components/customer-management.tsx:136-139 | One more customer adds one to the count and its value to the total value. |
| CustomerManagement.TagsFor | components/customer-management.tsx:148-153 | Tags are VIP and 大客户 exactly when the value is above 500000, else 新客户. |
| CustomerManagement.AddCustomer | components/customer-management.tsx:142-167 | A blank name or company changes nothing. Otherwise exactly one record is appended after the unchanged list, the form is reset and the dialog closed. |
| CustomerManagement.AddedRecord | components/customer-management.tsx:148-153 | The new record carries the form's fields, the date part of the timestamp and the tags its value calls for. |
| CustomerManagement.AddCustomerTotals | components/customer-management.tsx:142-167 | A successful add raises the count by one and the total value by the form's value. |
| CustomerManagement.StatusLabel | components/customer-management.tsx:182-197 | The status cell is 非活跃 exactly for a status other than active and potential. |
| CustomerManagement.Row | components/customer-management.tsx:182-197 | A customer's row has the header's nine cells. |
| CustomerManagement.Lines | components/customer-management.tsx:182-197 | One text line per row. |
| CustomerManagement.CsvReadsBack | components/customer-management.tsx:181-197 | When no cell holds a comma or line break, the CSV splits back into the header plus one nine-cell row per shown customer, in order. |
| SystemInit.AddLog | components/system-initializer.tsx:190-194 | The new entry goes first, followed by at most 99 previous ones, so the log has at most 100 entries. |
| SystemInit.AddLogsNewestFirst | components/system-initializer.tsx:190-194 | After any number of entries the log is the latest 100, newest first. |
| SystemInit.Updated | components/system-initializer.tsx:196-280 | A step update by id changes the steps with that id alone. |
| SystemInit.Reset | components/system-initializer.tsx:286-295 | Every step is pending with progress 0 and no error or duration; its identity is kept. |
| SystemInit.Find | components/system-initializer.tsx:344-349 | `find` returns a step with the id exactly when there is one. |
| SystemInit.Simulate | components/system-initializer.tsx:196-280 | The run is aborted exactly when the attempt failed, the step is critical and the user declined to go on. |
| SystemInit.SimulateAt | components/system-initializer.tsx:248-268 | Simulating a step changes it alone: it is completed at progress 100 on success, or failed with its message. |
| SystemInit.StepOnceOutcome | components/system-initializer.tsx:297-318 | One turn skips a step whose dependencies are not all completed in the steps captured at the press, without counting it. Otherwise it runs the step and counts it unless the run aborts. |
| SystemInit.LoopCount | components/system-initializer.tsx:297-331 | The run aborts exactly when some step aborts. The counter goes up once per step that ran and did not abort, failed ones included, skipped ones not. |
| SystemInit.StartOutcome | components/system-initializer.tsx:282-342 | After a press each step up to the abort point ends skipped, completed or failed as its gate and attempt say, and later steps stay pending. The run is logged as failed exactly when it aborted. |
| SystemInit.Start | components/system-initializer.tsx:282-342 | The run ends with no current step and the running flag down. |
| SystemInit.Retry | components/system-initializer.tsx:344-349 | `retryStep` with an id no step has changes nothing. |
| SystemInit.ResetPanel | components/system-initializer.tsx:351-365 | Reset leaves every step reset, no current step, progress 0 and exactly one log entry. |
| SystemInit.StepCounts | components/system-initializer.tsx:423-424 | The completed and failed counts are together at most the number of steps. |
| SystemInit.FreshRunSkipsDependents | components/system-initializer.tsx:297-314 | As written, a press while no step is completed skips every step with dependencies up to the abort point. |
| SystemInit.OnlyLeadingStepRuns | components/system-initializer.tsx:297-314 | As written, when only the first step has no dependencies, a press while nothing is completed runs the first step and skips the rest. |
| SystemInit.FirstRunSkipsDependents | components/system-initializer.tsx:297-314 | As written, the first press on a fresh panel completes the database step and skips the seven others. |
| SystemInit.LiveStartCompletes | components/system-initializer.tsx:297-318 | With the gate reading the current steps, ordered steps whose attempts all succeed all complete. |
| SystemInit.LiveFirstRunCompletes | components/system-initializer.tsx:91-172 | With the gate reading the current steps, the first press on a fresh panel with all attempts succeeding completes all eight steps. |
| SystemInit.DependenciesDone | components/system-initializer.tsx:303-307 | The `every` loop over the dependencies answers whether all are completed in the steps it reads. |
| SystemInit.SystemInitializer.AddLogEntry | components/system-initializer.tsx:190-194 | The log becomes `AddLog` of the old log; nothing else changes. |
| SystemInit.SystemInitializer.ProgressLoop | components/system-initializer.tsx:241-245 | The progress loop leaves the step at progress 100. |
| SystemInit.SystemInitializer.SimulateStep | components/system-initializer.tsx:196-280 | `simulateStep` leaves the panel `Simulate` describes and reports whether it aborted. |
| SystemInit.SystemInitializer.RunStep | components/system-initializer.tsx:297-318 | One turn of the loop, as `TurnAt` describes it. |
| SystemInit.SystemInitializer.StartInitialization | components/system-initializer.tsx:282-342 | `startInitialization`'s loop leaves the panel `Start` describes. |
| SystemInit.SystemInitializer.RetryStep | components/system-initializer.tsx:344-349 | `retryStep` leaves the panel `Retry` describes. |
| SystemInit.SystemInitializer.ResetInitialization | components/system-initializer.tsx:351-365 | `resetInitialization` leaves the panel `ResetPanel` describes. |
| Sidebar.Toggle | components/sidebar.tsx:48-50 | A listed title is removed, every occurrence of it, and the rest keeps its order. A missing title is appended at the end. |
| Sidebar.RemoveAll | components/sidebar.tsx:48-50 | Filtering out a title drops exactly its occurrences. |
| Sidebar.ToggleTwice | components/sidebar.tsx:48-50 | Toggling a missing title twice gives back the list. |
| Sidebar.ToggleTwiceListed | components/sidebar.tsx:48-50 | Toggling a listed title twice leaves it once, at the end, after the others in order. |
| Sidebar.AnyChildAt | components/sidebar.tsx:240 | Holds exactly when some child links to the path. |
| Sidebar.IsParentActive | components/sidebar.tsx:240 | `isParentActive` holds exactly when some child's href is the path. |
| Sidebar.Highlighted | components/sidebar.tsx:236-293 | A group is highlighted exactly when it is expanded or a child links to the path. A link is highlighted exactly when its href is the path. |
| Sidebar.Added | components/sidebar.tsx:298-309 | The effect appends exactly the titles of groups with a child at the path that are not yet listed. |
| Sidebar.AutoExpand | components/sidebar.tsx:298-309 | The effect never removes or moves a title. Every group holding the page is listed afterwards, and every added title is such a group. |
| Sidebar.AddedNothing | components/sidebar.tsx:298-309 | When every group holding the page is listed, the effect appends nothing. |
| Sidebar.AutoExpandIdempotent | components/sidebar.tsx:298-309 | Running the effect twice on one path is running it once. |
| Sidebar.InitialExpandedAsWrittenMatchesNothing | components/sidebar.tsx:46 | As written, the starting list names no item, so at "/" every group starts collapsed. |
| Sidebar.InitialExpandedOpensCommunication | components/sidebar.tsx:46 | With the communication group's own title, that group starts expanded and the effect at "/" adds nothing. |
| Communication.StatusText | components/communication-module.tsx:187-198 | 离线 exactly for offline. |
| Communication.StatusColor | components/communication-module.tsx:173-184 | Grey exactly for offline. |
| Communication.FloorDiv | components/communication-module.tsx:201-211 | `Math.floor(diff / unit)`: the largest whole number of units not above `diff`. |
| Communication.AgeOf | components/communication-module.tsx:201-211 | Under a minute (the future included) is "just now". Then whole minutes from 1 to 59, then whole hours from 1 to 23, then the date, each bucket exactly on its range. |
| Communication.FormatTime | components/communication-module.tsx:201-211 | "刚刚" under 60000 ms, "m分钟前" and "h小时前" with the floored counts, and the date from 86400000 ms on. |
| Communication.AgeMonotone | components/communication-module.tsx:201-211 | An older moment never reads as more recent. |
| Communication.AgeTextInjective | components/communication-module.tsx:201-211 | Outside the date bucket, equal texts mean equal buckets. |

## Left out

- I/O and the browser. Console logging, `alert`, `Notification`, `window` events, `localStorage`/`sessionStorage`, `setTimeout` delays and the Blob download of the CSV are left out. They hold no logic the screens depend on.
- JSX rendering is left out, including the status badges of the customer list and the icons of the task list and sidebar. So are `handleCustomerAction` and `handleFilter` of the customer screen, which only log, alert or open a window.
- Request events, promise plumbing and concurrency are left out: each operation is one atomic step on the database. Overlapping `initialize` calls are not modelled, since the code has no coalescing to verify.
- The raw transaction handle is left out: `transaction` returns its scope and mode only.
- `initializeDatabase` and the `localDB` and `dbSeeder` singletons, with the exported `seedDatabase`, `clearDatabase`, `getDatabaseStats` and `generateRandomData` wrappers, are left out. They call one modelled method each and log.
- LocalDb.LocalDatabase.GetStats: reports record counts only, not the Blob byte sizes of each store's JSON text, which come from the browser's serialiser.
- LocalDb.BackupRestoreRoundTrip: stated for records that the JSON trip leaves unchanged. A `Date` comes back from `JSON.parse` as a string, so the trip is the function `Jsonify` with `toISOString` as a parameter.
- The JSON text itself is not produced or parsed. `backup` returns the document the text denotes. `restore` takes what `JSON.parse` made of the text, or the message of its SyntaxError.
- Array and binary keys are not modelled; such a value is treated as not a key. Keys are numbers, dates and strings, in that order.
- ObjectStores.ResolveKey: a key-less array or `Date` record in a generator store is a DataError in the model. IndexedDB accepts any object or array there and stores it with the generated key injected as an `id` property. The model's `List` and `Date` values have no properties to carry that key. ObjectStores.GeneratedKeyFresh, LocalDb.AddTo and LocalDb.RestoreFrom share this: for example, restoring `{"data":{"tasks":[[1,2]]}}` stops with DataError in the model, whereas IndexedDB stores the array under key 1.
- Queries.SortBy: JavaScript's `<` between values of different kinds (with its coercions) is replaced by a fixed order of kinds. Within a kind:
  - numbers, dates and booleans compare as in JavaScript;
  - strings compare by code point, whereas JavaScript compares UTF-16 code units. The two differ for a character above U+FFFF against one in U+E000-U+FFFF: "😀" < "！" holds in JavaScript and not in the model;
  - arrays all compare equal and keep their input order, whereas JavaScript compares their joined strings. For example, ["a","b"] comes before ["c"] in JavaScript;
  - objects all compare equal, as their shared text "[object Object]" makes them in JavaScript.
- The messages of browser exceptions are represented by the exception's name.
- Numbers are integers, not IEEE doubles: `Values.Num` and the numeric keys hold an `int`. So no fractional number or key, no rounding, and no `NaN` or infinity appears. A fractional explicit key, and the generator bump past it by its floor, are not modelled. Neither are fractional `limit` and `offset`, which `slice` truncates.
- CustomerManagement.GetTotals: the value input accepts fractions (`Number(e.target.value) || 0`), but the model sums integer values only. So a fractional total such as 1234.5, and the rounding of double addition, are not captured.
- CustomerManagement.TagsFor: the VIP and important thresholds are tested on integer values only, so a value such as 500000.5 cannot be given.
- CustomerManagement.Row: the value cell is the decimal text of an integer. The fractional form ("1234.5") and the exponent form (from 1e21 on) of `toString` are not produced.
- TaskManagement.FilterTasksShown: the search lowercases ASCII letters only, where `toLowerCase` folds all of Unicode. So a title "École" is hidden by the search "école" in the model but shown by the component.
- TaskManagement.FilterTasksMember: the search criterion uses the same ASCII-only lowercasing.
- CustomerManagement.FilteredCustomers: the name and company search uses the same ASCII-only lowercasing.
- Timestamps and other moments are parameters:
  - `Date.now()` and `new Date()` in the seeder, the random tasks, the customer id and the log stamps;
  - the draws of `Math.random`, including the initializer's failure progress;
  - the locale date text of `formatTime`.
- A step attempt is a parameter: its error, the user's answer to `confirm` and its random failure progress.
- SystemInit.Simulate: the step kinds' side effects are not modelled: `initializeDatabase`, `seedAll`, storage writes and waits. Their outcome is the attempt's error or success.
- Durations are a parameter, not measured times.
- SystemInit.Start: every log line of a run carries the one stamp given to the run. The component takes a fresh `toLocaleTimeString` for each line, across a run that waits between steps. SystemInit.Simulate, SystemInit.Skip, SystemInit.Retry and SystemInit.SystemInitializer.StartInitialization share this restriction. Only the stamp text is affected: the messages, their order and the steps' states are as the component produces them.
- The system-resource simulation and the percentage displays of the customer screen are left out (floating-point with random drift).
- Customer export escaping is not modelled, because the code does not escape: CustomerManagement.CsvReadsBack is stated for cells without commas or line breaks.

## Findings

| source | as written | input that shows it | evidently intended | confidence | as-written member | corrected member |
|---|---|---|---|---|---|---|
| components/system-initializer.tsx:303-307 | The dependency gate looks steps up in `initSteps`, the list captured when the button was pressed, which the reset and the run's updates never reach. | The first press on a fresh panel with every step succeeding: the database step completes, yet the seven steps after it are skipped as "dependencies not completed". | The gate reads the steps as the run leaves them, so a step runs once the steps it depends on have completed. | not executed | SystemInit.FirstRunSkipsDependents | SystemInit.LiveFirstRunCompletes |
| components/sidebar.tsx:46 | The sidebar starts with `["communication"]` expanded, an English word that is the title of no item. | A fresh sidebar at "/": every group is collapsed, the communication group included. | The communication group (titled 沟通协作) starts expanded. | not executed | Sidebar.InitialExpandedAsWrittenMatchesNothing | Sidebar.InitialExpandedOpensCommunication |
