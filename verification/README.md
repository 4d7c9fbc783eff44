# FinGuard, modelled and proved in Dafny

FinGuard is a Kubernetes cost monitor. Plugins and the cost collection scheduler feed events into a
hub that fans them out to WebSocket clients; collectors store cost records in a relational database
(SQLite or PostgreSQL) that is queried and aggregated per project; users log in through OpenID Connect
and get roles from project role rows. This project models the parts of it that hold state or compile
text, and proves what they keep over every input, every interleaving and every history.

| module | what it models |
|---|---|
| `HubMachine`, `HubDelivery`, `HubOutcomes`, `HubTopics`, `HubRuns`, `HubObjects` | the event hub as a step machine (one lock operation, map operation, filter test, send, receive or close per step, any number of goroutines), with the plugin bridges in front of it and the socket pumps behind it; the same hub as objects |
| `Decimal`, `Rebind`, `CostWhere` | the compiler from `?` SQL to `$N` SQL, the builder of the cost query's WHERE text, and a small semantics of the text that reaches the driver |
| `Model`, `Tables`, `Store`, `Ledger` | the schema's keys, unique columns, foreign keys, cascades and set-null; the store as an object; cost sums |
| `Collection`, `Passes`, `SinglePass`, `Windows`, `Overlaps`, `Gaps`, `Visits` | the Kubernetes collector's normalising loop, one collection pass, interleaved passes (any number on a source) under a clock, the intervals they store, and which sources a pass visits |
| `Migrations`, `MigrationFiles` | the migration runner over directories of files, with failures and restarts, and which files of a directory it takes up |
| `Identity`, `LoginRaces`, `SingleLogin`, `Roles` | find-or-create logins, logins that run at the same time call by call, and the role decision against its specification |
| `Calendar`, `Allocations`, `Budgets`, `Savings` | month lengths as `time.Date` counts them, namespace spend, budget status, and savings recommendations |

How to read it. Imperative source code is imperative here: objects with `modifies` clauses and loops with
invariants, each proved against a specification function or relation; the theorems are lemmas about those.
Concurrency is a machine: `Enabled` says when an action may happen, `Apply` what it does, `Possible` and
`After` lift this to whole interleavings, and lemmas about `After(INITIAL, ...)` or `Initial` hold in every
reachable state. That the machines do what the source does is proved too: operations run alone from any
state have the effect that the methods state (`HubRuns`, `HubObjects.PublishAlone`, `SinglePass`,
`SingleLogin`), and store operations may come in any sequence between the steps
(`Passes.StoreHistoriesHappen`, `LoginRaces.EveryStoreHistoryHappens`). Clocks, fresh ids, HTTP responses
and failures are parameters, so that the lemmas hold for all of them. The last rows of the table below only
link methods of the store to the statements of `Tables.Exec`, about which the results are proved.

Findings where the code does less than one might expect; each is proved, with the exact condition:

* The rewriter changes the meaning of a statement exactly when an unquoted `?` or `$` stands directly
  before a digit (`Rebind.MeaningPreservedIffClean`). Every statement around `buildCostWhere` is fine
  (`CostWhere.StatementIsRebindable`).
* Migrations that are repeated after failures end as a single run does exactly when the positive versions,
  in the byte order of the names, strictly increase (`Migrations.RestartSafeIffIncreasing`); the whole
  directory gets applied exactly when, besides, no version is 0 or negative
  (`Migrations.WholePlanIffIncreasing`). Six-digit zero-padded positive numbers guarantee both.
* Consecutive collection windows leave the time from the window's end to the watermark write uncovered,
  and no later record ever covers it, as long as the source has one pass at a time (`Gaps.UncoveredGap`).
  Two passes at once store overlapping intervals, one of which covers the gap of the other
  (`Gaps.TwoPassesAtOnce`); the ticks do not prevent that.
* Later passes can store an interval again exactly when a stored interval of the source ends after the
  start of the next window (`Overlaps.WillOverlapIff`). After a watermark write lost on a stored batch that
  means: when the lost window ends after the start of the next one (`Overlaps.LostWriteOverlapsIff`), and
  `Overlaps.OverlapsHappen` constructs such a history.
* A user who was found by address is not linked to the subject used (`Identity.SameUserIffLinked`), and
  becomes a second user under another address (`Identity.FoundByAddressThenAnother`).
* A listed group claim is not joined exactly when it is empty, or a group has its name but none has the
  claim (`Identity.NewUserJoinsItsClaims`, `Identity.NamedGroupKeepsOut`). It may be joined in two groups
  exactly when it is listed twice and two groups carry it (`Identity.OneGroupEachIff`).
* Two first logins that race for a new claim make one group for it, but the user of the slower one stays
  out, without any failure (`LoginRaces.RacesMakeOneGroupPerClaim`, `LoginRaces.RaceLosesMembership`).
* A failed query for the own role is taken for having none (`Roles.WidenedIff`, `Roles.WideningHappens`),
  and where groups share a claim the decision may hang on which of them is found
  (`Roles.DecisionIsSpecifiedIff`).
* The `sync.Once` around the close of a client's channel is redundant: `HubMachine.NoSendOrCloseOnClosed`
  shows that whoever is about to close finds it unused.

## Model

| member | source | states |
|---|---|---|
| `HubMachine.RunKeepsSafe` | internal/stream/hub.go:45-62 | from any safe state, every interleaving of registering, unregistering, publishing, broadcasting, bridging and pumping keeps the lock, membership, channels and Onces in agreement |
| `HubMachine.NoSendOrCloseOnClosed` | internal/stream/hub.go:53-111 | in every reachable state nothing has panicked, a goroutine about to close has an open channel and an unused Once, and one about to send has its client still in the hub |
| `HubMachine.NoDeadlock` | internal/stream/hub.go:45-110 | in every reachable state a goroutine inside an operation can move, or waits for the lock while a holder of it can |
| `HubMachine.NoDeadlockBehindWriters` | internal/stream/hub.go:45-110 | the same for a lock that, like Go's, keeps new readers out while a goroutine waits to write: while any goroutine is inside an operation, one can move |
| `HubDelivery.HubAccounting` | internal/stream/hub.go:82-110 | in every reachable state, what was delivered to a client is what it consumed followed by what is queued, the queue never exceeds 256, every drop met a full queue, and every delivery one with room |
| `HubDelivery.LoopVisitsEveryClient` | internal/stream/hub.go:79-91 | a publishing loop that ends has given every client in the hub exactly one outcome |
| `HubOutcomes.EndedLoopIsInEveryHistory` | internal/stream/hub.go:79-91 | when a publishing loop ends, the last entry each client's history has of this producer is the loop's event, with the outcome the loop has noted |
| `HubDelivery.TopicsOnlyGrow` | internal/stream/hub.go:113-125 | no interleaving takes a topic away from a client |
| `HubTopics.OnlyWantedEventsArrive` | internal/stream/hub.go:82-91 | once a client has topics, whatever interleaves, a step of a filtered publication changes its queue only if the event's topic is among them, or if the goroutine had passed the filter test before and has stood at this send since |
| `HubTopics.FilteredIffUnwanted` | internal/stream/hub.go:119-125 | the filter test notes Filtered exactly when the client has topics and the event's is none of them |
| `HubDelivery.PerProducerOrder` | internal/stream/hub.go:72-92 | what a client consumed from one producer is an order-preserving subsequence of what that producer published |
| `HubDelivery.PluginEventsStayInOrder` | internal/plugin/manager.go:84-112 | from the plugin's channel to the write pump, with all else interleaved and drops at full buffers, a plugin's events reach a client as an order-preserving subsequence |
| `HubRuns.RegisterAlone` | internal/stream/hub.go:36-51 | from every safe state with the lock free, the steps of Register in a row are possible, and end with the lock free and the new client in the hub, its channel open, its queue empty and without topics; nothing else changes |
| `HubRuns.UnregisterAlone` | internal/stream/hub.go:53-64 | the same for Unregister: a member is out of the hub, its channel closed and its context cancelled, and for anybody else nothing changes |
| `HubRuns.RegisteredIsMember` | internal/stream/hub.go:45-57 | in every interleaving, a client whose registration has passed the insertion is in the hub as long as nobody calls Unregister for it |
| `HubRuns.BridgesPublishFiltered` | internal/plugin/manager.go:94-109 | in every reachable state a bridge that is publishing does so through the topic filter |
| `HubRuns.BridgedEventsAreWanted` | internal/plugin/manager.go:94-109 | once a client has topics, whatever interleaves, a bridge adds to its queue only events of these topics, unless it has stood at this send since before |
| `HubRuns.BridgeAlone` | internal/plugin/manager.go:94-109 | from every safe state without a writer, a bridge alone takes the next event of its plugin and makes every client of the hub one filtered offer of it, in every order of iteration |
| `HubRuns.SubscribeAlone` | internal/stream/hub.go:113-117 | subscribing to a list adds exactly its topics to the client and changes nothing else |
| `HubRuns.DrainAlone` | internal/server/server.go:349-363 | a write pump that takes everything off the queue consumes it in order and leaves it empty |
| `HubRuns.PluginChannelIsBounded` | plugins/budgets/plugin.go:49 | in every reachable state a plugin can emit exactly while fewer than 100 events are waiting in its channel |
| `HubRuns.PluginEventArrives` | internal/plugin/manager.go:94-109 | for every plugin and event, constructs an interleaving from the start in which a client registers, the plugin emits, and the client consumes exactly this event |
| `HubObjects.HubClient.Send` | internal/stream/hub.go:86-90 | the queue grows by the message when fewer than 256 are waiting, else nothing happens |
| `HubObjects.HubClient.CloseOnce` | internal/stream/hub.go:62 | the first call closes the channel; a later one leaves it as it is |
| `HubObjects.HubClient.Subscribe` | internal/stream/hub.go:113-117 | the topics become the union with the listed ones |
| `HubObjects.Hub.Register` | internal/stream/hub.go:36-51 | the hub gains exactly one new client with an empty queue and no filter, and stays valid |
| `HubObjects.Hub.Unregister` | internal/stream/hub.go:53-64 | the client is gone from the hub and, if it was there, closed and cancelled; a second call changes nothing |
| `HubObjects.Hub.Publish` | internal/stream/hub.go:72-92 | every client's queue becomes the one it would have after a single filtered offer, whatever the order of iteration |
| `HubObjects.Hub.Broadcast` | internal/stream/hub.go:94-111 | as Publish, without the filter |
| `HubObjects.PublishAlone` | internal/stream/hub.go:72-111 | from every safe state with no writer, a whole publication is possible in the step machine for every order of iteration and has on all queues the effect the methods state |
| `Decimal.PrintThenRead` | internal/store/rebind.go:113 | a printed number is a non-empty string of digits and reads back as itself |
| `Decimal.FixedWidthOrder` | internal/store/migrate.go:39 | on digit strings of one length byte order is numeric order |
| `Rebind.RebindQuery` | internal/store/rebind.go:95-119 | the loop with its early return computes the recursive specification of the rewriting |
| `Rebind.RebindFor` | internal/store/rebind.go:57-62 | only the pgx driver gets rewritten text |
| `Rebind.MeaningPreservedIffClean` | internal/store/rebind.go:93-119 | binding any argument list by position in the input gives the text that binding by `$N` in the output gives, if and only if no unquoted `?` or `$` stands directly before a digit |
| `Rebind.DriverMeaning` | internal/store/rebind.go:57-91 | whichever driver is behind the wrapper, the bound text is that of the input on the same condition |
| `Rebind.InvertibleIffClean` | internal/store/rebind.go:100-118 | replacing each maximal unquoted `$digits` by `?` gives the query back, if and only if the query is clean in this sense |
| `Rebind.ReboundLength` | internal/store/rebind.go:105-117 | on every query the output is longer than the input by exactly the decimal widths of 1 to n |
| `Rebind.NumberedInOrder` | internal/store/rebind.go:110-113 | on a clean query the references come out as $1 to $k in order, one per placeholder |
| `Rebind.NothingToRebind` | internal/store/rebind.go:96-98 | without a `?` the loop copies its input, so the early return agrees with it |
| `Rebind.ToggleIsScanner` | internal/store/rebind.go:103-117 | the one-bit quote toggle classifies every non-quote byte as a scanner of character literals with doubled quotes does (subclause 5.3 of ISO/IEC 9075-2) |
| `Rebind.RewritesExactlyCode` | internal/store/rebind.go:105-117 | on every query the rewriter replaces exactly the `?` that the scanner of literals classifies as code, numbered in order, and copies every other byte |
| `Rebind.LiteralsAreCopied` | internal/store/rebind.go:107-116 | a statement written from code segments and literals comes out with its literals unchanged and only its code segments renumbered |
| `CostWhere.BuildCostWhere` | internal/store/sql.go:613-646 | the text and arguments are those of the restrictions the query sets, in the builder's order |
| `CostWhere.WhereParses` | internal/store/sql.go:613-646 | the text that reaches either driver reads back as the clauses it was built from, with argument i at clause i |
| `CostWhere.WhereSelectsMatches` | internal/store/sql.go:613-646 | for every driver, query and record, the sent text with its arguments selects the record exactly when it satisfies every field that is set |
| `CostWhere.EmptyQuerySelectsAll` | internal/store/sql.go:613-646 | the query that sets no field, and only it, has no WHERE text, has no arguments, and selects every record, on either driver |
| `CostWhere.StatementIsRebindable` | internal/store/sql.go:565-611 | a statement around the WHERE part is clean, and has as many placeholders, numbered in order, as there are arguments |
| `CostWhere.StatementIsSentInParts` | internal/store/rebind.go:57-62 | rewriting the whole statement leaves what is around the WHERE part unchanged and gives the WHERE part as rewritten by itself, for either driver |
| `Tables.StoreStaysConsistent` | migrations/000001_init.up.sql:1-88 | after every sequence of store operations, failed ones included, unique columns are unique and every reference resolves |
| `Tables.WithoutProjectIsConsistent` | internal/store/sql.go:129-132 | deleting a project with its cascades and set-nulls leaves no dangling reference |
| `Tables.ProjectDeletionLeaves` | migrations/000001_init.up.sql:12-88 | deleting a project leaves exactly the other projects, their sources, roles, records and budgets as they were, but for budget references to a source that is gone; users, groups and memberships stay |
| `Tables.SourceDeletionLeaves` | internal/store/sql.go:201-204 | deleting a source leaves everything but the source and its records, and clears it from budgets |
| `Tables.BatchIsAllOrNothing` | internal/store/sql.go:526-563 | a batch goes in if and only if its ids are new and distinct and its projects and sources exist; then the tables grow by exactly its rows |
| `Store.SQLStore.DeleteProject` | internal/store/sql.go:129-132 | the table-by-table deletions have the effect of the schema's cascades |
| `Store.SQLStore.InsertCostRecords` | internal/store/sql.go:526-563 | the insert loop in a transaction, with ids filled in, is the all-or-nothing batch |
| `Store.SQLStore.QueryCostRecords` | internal/store/sql.go:565-600 | an error where the driver cannot read the page; else a page of a listing of exactly the selected rows, each once, latest start first |
| `Store.SQLStore.AggregateCosts` | internal/store/sql.go:602-611 | returns the order-independent sums over the selected rows, zero for none |
| `Ledger.AggregateIsFoldOfQuery` | internal/store/sql.go:565-611 | the aggregate of a query is the fold, and the count the length, of whatever unlimited list the query returns |
| `Ledger.AggregateSumsColumns` | internal/store/sql.go:602-611 | each figure of the summary is the sum, over whatever unlimited list the query returns, of the column it is named after, and the count its length |
| `Ledger.PageIsASlice` | internal/store/sql.go:569-574 | a page begins behind a positive offset and ends after a positive limit, or with the list |
| `Ledger.NextPageContinues` | internal/store/sql.go:569-574 | two consecutive pages are one longer page |
| `Ledger.InsertAddsItsSums` | internal/store/sql.go:526-611 | a batch that goes in adds exactly the sums of its matching records to every aggregate, a failed one nothing |
| `Ledger.ProjectsPartitionTheTotal` | internal/store/sql.go:602-646 | after every sequence of store operations the per-project aggregates over all projects add up to the aggregate without a project |
| `Collection.Collect` | internal/collector/kubernetes/kubernetes.go:90-119 | the loop yields one record for each namespace of each data set, whatever the order of the maps; their list, net and amortized costs each add up to the totals of the response |
| `Collection.CollectedDescribe` | internal/collector/kubernetes/kubernetes.go:93-114 | every collected record comes from a namespace of some data set: its list, net and amortized cost are the total of that namespace, its amortized net cost is 0, provider and service name Kubernetes and the namespace |
| `Collection.NamespacesAreCollected` | internal/collector/kubernetes/kubernetes.go:93-114 | every namespace of every data set has such a record in the window asked for |
| `Collection.CollectedBelong` | internal/collector/kubernetes/kubernetes.go:93-105 | every collected record is charged to the source, its project and exactly the window asked for |
| `Collection.CollectSource` | internal/collector/scheduler.go:134-177 | the pass leaves the store and ends with the event of the pass specification, for every collector, clock reading and fault |
| `Collection.WindowStarts` | internal/collector/scheduler.go:141-147 | the window ends at the reading of the clock and starts at the watermark, or 24 hours before for a source without one |
| `Collection.PassIsAllOrNothing` | internal/collector/scheduler.go:149-170 | a pass that fails to collect or store leaves the store as it was; a complete one stored its whole batch and then moved only the watermark; and it completes exactly when the collector answered with no records, or with a batch that can go in |
| `SinglePass.PassAlone` | internal/collector/scheduler.go:134-177 | from every state with a listed pass, its steps in a row are possible for all clock readings, answers and faults, and end with the store that collectSource is specified by |
| `Passes.RecordsFollowTheirSource` | internal/store/sql.go:194-204 | in every interleaving of other operations and of passes, any number of them on the same source, each record's source exists and has the record's project |
| `Passes.OrphanedBatchIsRejected` | internal/store/sql.go:526-563 | in every reachable state, when the source or project was deleted between listing and insert, a non-empty batch is rejected as a whole |
| `Passes.WatermarkMovesOnlyAfterStoring` | internal/collector/scheduler.go:161-170 | in every history, lost writes and simultaneous passes included, a watermark changes only by being written after a pass stored its batch, and never goes back |
| `Windows.IntervalsNeverOverlap` | internal/collector/scheduler.go:141-170 | in every history in which this source has one pass at a time and loses no watermark write after a non-empty batch, records of the source stored by different passes have intervals that do not overlap |
| `Overlaps.WillOverlapIff` | internal/collector/scheduler.go:141-170 | in every reachable state, of a source without a pass under way: an orderly continuation can store a record that overlaps with one of another pass if and only if a stored record of the source ends after the start of the next window, which is the watermark, or a day before now without one |
| `Overlaps.LostWriteOverlapsIff` | internal/collector/scheduler.go:168-170 | when, in an orderly history, the watermark write after a non-empty batch is lost, that can happen if and only if the lost window ends after the start of the next one |
| `Overlaps.OverlapsHappen` | internal/collector/scheduler.go:168-170 | constructs a history from the empty store that ends with two overlapping records of different passes |
| `Gaps.UncoveredGap` | internal/collector/scheduler.go:141-168 | in every history in which the source has one pass at a time, lost watermark writes included: each window whose watermark was written starts at the write before it, the stored watermark is the last write, and no record of the source meets the time from such a window's end to its write |
| `Gaps.TwoPassesAtOnce` | internal/collector/scheduler.go:65-75 | constructs a history without lost writes in which two passes on a source at once store overlapping records and one covers the other's gap |
| `Visits.CollectAll` | internal/collector/scheduler.go:80-90 | visits the enabled sources of all projects in listing order, passing over projects that cannot be listed |
| `Visits.CollectByTypes` | internal/collector/scheduler.go:92-117 | as above, for sources of the given types only |
| `Visits.CollectForProject` | internal/collector/scheduler.go:119-132 | the enabled sources of one project in listing order |
| `Visits.AllIsByEveryType` | internal/collector/scheduler.go:80-132 | on one snapshot collectAll visits the same sequence as collectByTypes given every type |
| `Visits.EachSourceOnce` | internal/collector/scheduler.go:104-131 | a pass visits each enabled source of the wanted types exactly once and no other |
| `Visits.TicksPartitionTheSources` | internal/collector/scheduler.go:72-75 | the tick for AWS, Azure and GCP sources and the one for Kubernetes sources share no source and together visit every enabled source of these types |
| `Migrations.Database.RunMigrations` | internal/store/migrate.go:12-77 | the runner, with its sort, its skipped names and its transactions, computes the specified outcome for every directory and fault |
| `MigrationFiles.PlanTakesUpFiles` | internal/store/migrate.go:33-45 | for every directory, the plan consists of exactly the names that end in ".up.sql" and whose version can be read, with this version |
| `MigrationFiles.ParsedIffScanned` | internal/store/migrate.go:42-45 | a name has this version if and only if it is blanks, an optional sign, digits (at most six characters with the sign) of this value, and an underscore |
| `MigrationFiles.ShippedDirectory` | internal/store/migrate.go:22-75 | the first start on the shipped up and down scripts applies the up script only and records version 1 |
| `Migrations.AlwaysAPrefix` | internal/store/migrate.go:41-75 | with increasing versions, after any runs with any faults the applied files and recorded versions are a prefix of the plan |
| `Migrations.RestartSafeIffIncreasing` | internal/store/migrate.go:22-75 | for every directory: a single run without faults succeeds and any failed runs followed by one without faults end as it does, if and only if the positive versions of the plan strictly increase |
| `Migrations.WholePlanIffIncreasing` | internal/store/migrate.go:41-75 | for every directory: any failed runs followed by one without faults apply the whole plan in order, if and only if all versions are positive and strictly increase |
| `Migrations.SortOrders` | internal/store/migrate.go:33-39 | the sort puts exactly the names it is given into byte order |
| `Migrations.PaddedOrder` | internal/store/migrate.go:39-45 | byte order on six-digit padded names is the order of the numbers parsed from them |
| `Migrations.PaddedNamesAreRestartSafe` | internal/store/migrate.go:41-75 | for padded distinct positive numbers, any failures followed by one run without apply every file once, in the order of the numbers |
| `Identity.Manager.ProvisionUser` | internal/auth/auth.go:265-302 | the find-or-create sequence meets the login relation under every combination of failing store calls |
| `Identity.Manager.SyncGroup` | internal/auth/auth.go:304-323 | one claim, failures passed over, meets its relation |
| `Identity.SubjectStaysLinked` | internal/auth/auth.go:265-272 | once a row carries a subject, every later login with it returns that user and changes nothing, whatever came between |
| `Identity.SameUserIffLinked` | internal/auth/auth.go:265-288 | for a login under a new address it is the same user again if and only if the row carries the subject |
| `Identity.CreatedUserIsFoundAgain` | internal/auth/auth.go:274-293 | a created user is returned to later logins with its subject, or with its address under an unknown subject, without a further change |
| `Identity.HistoryKeeps` | migrations/000001_init.up.sql:23-42 | no sequence of logins and store operations changes or loses a user row or a constraint, so that emails and subjects stay unique |
| `Identity.NewUserJoinsItsClaims` | internal/auth/auth.go:297-323 | for all consistent tables in which no group carries the empty claim, shared claims included: a new user is in a group for a claim exactly when the claim is listed and joinable, that is non-empty, and carried by a group or not any group's name; and in no other group unless the empty claim is listed |
| `Identity.OneGroupEachIff` | internal/auth/auth.go:304-323 | the new user is in at most one group for each claim, whichever groups the look-ups find, if and only if no non-empty claim that two groups carry is listed twice |
| `Identity.FirstLoginsJoinEachClaimOnce` | internal/auth/auth.go:265-323 | in every history whose groups come from non-empty claims, earlier failures included, a first login joins exactly one group for each distinct claim and no other |
| `Identity.FoundByAddressThenAnother` | internal/auth/auth.go:274-293 | constructs a history in which one subject is two users |
| `Identity.NamedGroupKeepsOut` | internal/auth/auth.go:304-318 | constructs a history without failures in which a new user does not join a claim |
| `LoginRaces.RacingLoginsReturnRightUsers` | internal/auth/auth.go:265-302 | in every interleaving of the store calls of logins and of other operations: the constraints hold, every user returned has the login's subject or address, and two logins with one subject whose users carry it returned the same user |
| `LoginRaces.LaterLookUpFindsIt` | internal/auth/auth.go:265-272 | in every interleaving, once a row carries a subject every later look-up of it finds this row |
| `LoginRaces.RacesMakeOneGroupPerClaim` | internal/auth/auth.go:304-318 | in every interleaving in which groups come from non-empty claims, no claim ever gets a second group |
| `LoginRaces.RaceLosesMembership` | internal/auth/auth.go:304-318 | constructs an interleaving of two logins, none of whose calls fails, after which one user is not in the group of its claim |
| `SingleLogin.LoginAlone` | internal/auth/auth.go:265-323 | for every state of the call-by-call machine: a started login can return this user and leave these tables by steps of its own, if and only if the find-or-create sequence can, for some drawn ids and failing calls |
| `Roles.DecisionIsSpecified` | internal/auth/rbac.go:80-121 | in every history whose groups come from non-empty claims, without failing queries, the decision is: platform administrator, else the own role, else some claimed group's role |
| `Roles.DecisionIsSpecifiedIff` | internal/auth/rbac.go:80-121 | for arbitrary tables: without failing queries the decision is the specified one for every order of the rows and every choice among groups that share a claim, if and only if the specification does not hang on that choice |
| `Roles.FailuresNeverInvent` | internal/auth/rbac.go:85-105 | whichever queries fail, a grant rests on rows of the store, where a failed own role counts as none |
| `Roles.WidenedIff` | internal/auth/rbac.go:85-107 | whichever queries fail, the exact case in which the decision grants what the specification denies |
| `Roles.WideningHappens` | internal/auth/rbac.go:85-105 | constructs tables and answers for which the decision is widened |
| `Roles.LesserRolesAreGrantedToo` | internal/auth/rbac.go:98-135 | the decision is antitone in the level of the required role, for all answers of the store |
| `Roles.LevelsFollowTheOrder` | internal/auth/rbac.go:123-136 | a required role is met by exactly the roles from it on in the order viewer, editor, admin, platform-admin, and by no other name |
| `Roles.OwnRoleMeetsUpToItself` | internal/auth/rbac.go:85-107 | without platform rights, a user with an own role is granted a requirement exactly when it does not come after this role in that order |
| `Roles.GroupRolesMeetUpToThemselves` | internal/auth/rbac.go:85-105 | without platform rights or an own role, the same holds of the roles of the groups that are found |
| `Roles.PlatformRightsAreOnGlobal` | internal/auth/rbac.go:110-121 | platform rights are the role platform-admin of the user on the project `_global`, and are granted every requirement |
| `Roles.OwnRoleDecides` | internal/store/sql.go:390-405 | after a role was set, through any operations that do not replace or remove it, the decision for a user without platform rights is the comparison with this role |
| `Roles.NoAdminWithoutGlobalProject` | internal/auth/rbac.go:110-121 | as long as the project `_global` does not exist, nobody is a platform administrator |
| `Calendar.CountingIsExact` | plugins/budgets/plugin.go:278-281 | for every year, counting days and turning the count into a date again gives the date |
| `Calendar.DaysInMonthAreGregorian` | plugins/budgets/plugin.go:278-281 | day 0 of the next month gives the month length in the written-out Gregorian table, for every date of every year |
| `Allocations.SumMerged` | plugins/budgets/plugin.go:234 | adding entry by entry under shared keys adds the totals |
| `Allocations.FittingFits` | plugins/budgets/plugin.go:183-196 | a channel of 100 takes the first events that fit, in order, and never holds more |
| `Budgets.FetchNamespaceCosts` | plugins/budgets/plugin.go:204-239 | for every order in which the maps are walked, the spend of each namespace is the sum of its numeric total costs over the windows, and only charged namespaces appear |
| `Budgets.SpendIsConserved` | plugins/budgets/plugin.go:230-238 | the spends add up to all total costs of the response |
| `Budgets.SpendOfConcat` | plugins/budgets/plugin.go:231-236 | spend adds up over windows, so their order does not matter |
| `Budgets.Plugin.CheckBudgets` | plugins/budgets/plugin.go:128-202 | without costs nothing changes; else the statuses are replaced, and the alerts appended in order as far as the buffer of 100 has room |
| `Budgets.LevelsInMoney` | plugins/budgets/plugin.go:147-162 | the levels without division: exceeded iff the budget is positive and reached, and when it is a warning |
| `Budgets.LevelRisesWithSpend` | plugins/budgets/plugin.go:157-162 | more spend never gives a lower level, for every budget and threshold |
| `Budgets.ProjectionBounds` | plugins/budgets/plugin.go:135-155 | for non-negative spend the projection is at least the spend, and equal exactly on the last day of the month or for no spend |
| `Budgets.ReportedIffCharged` | plugins/budgets/plugin.go:140-171 | a status is reported exactly for the budgets whose namespace was charged |
| `Budgets.SpendIsStated` | plugins/budgets/plugin.go:230-238 | the spend of a namespace is the sum of the numbers that the windows state under totalCost for it |
| `Budgets.StatusFigures` | plugins/budgets/plugin.go:140-171 | every reported status gives the stated spend of a budget's namespace, as a share of a positive budget, carried on to the month's end in proportion of its days, with the level that its amounts call for |
| `Budgets.OverspendingIsAnnounced` | plugins/budgets/plugin.go:128-197 | from response to channel, while there is room for the alerts: the events added announce a namespace as exceeding its positive budget if and only if its charges reach it |
| `Savings.Plugin.DetectIdle` | plugins/costbreakdown/plugin.go:102-179 | the recommendations are those of the allocations of the response in some order; one event if there are any; with no negative cost they claim no more than the response charges |
| `Savings.FetchAllocations` | plugins/costbreakdown/plugin.go:207-213 | lists every allocation as often as it occurs, and keeps the total cost |
| `Savings.AdviceBounds` | plugins/costbreakdown/plugin.go:115-156 | CPU savings lie between 64% and 80% of an allocation's non-negative cost, memory savings between 16% and 20% |
| `Savings.RecommendedIffIdle` | plugins/costbreakdown/plugin.go:109-156 | CPU or memory is recommended for exactly when it is requested, used, and used to less than a fifth; with the share of the cost that the unused part makes, and a severity by 50 and 10 |
| `Savings.ClaimsWithinCost` | plugins/costbreakdown/plugin.go:109-157 | all recommendations together claim between nothing and the total cost |
| `Savings.WithinCostIffNonNegative` | plugins/costbreakdown/plugin.go:115-156 | what is claimed for one allocation stays within its cost if and only if the cost is not negative |
| `Savings.SeverityRises` | plugins/costbreakdown/plugin.go:118-124 | more savings never look less severe |
| `Store.SQLStore.DropSources` | migrations/000001_init.up.sql:54-69 | link to `Tables.Exec`: dropping sources takes their records along and clears them from budgets, nothing else |
| `Store.SQLStore.CreateCostSource` | internal/store/sql.go:136-151 | link to `Tables.Exec`: goes through exactly when the id is new and the project exists, and starts without a watermark |
| `Store.SQLStore.UpdateCostSource` | internal/store/sql.go:188-199 | link to `Tables.Exec`: changes name and enabled flag of an existing source only |
| `Store.SQLStore.DeleteCostSource` | internal/store/sql.go:201-204 | link to `Tables.Exec`: the source, its records and the budgets' references to it are gone |
| `Store.SQLStore.UpdateCostSourceCollectedAt` | internal/store/sql.go:206-212 | link to `Tables.Exec`: moves one watermark, and is no error when the source is gone |
| `Store.SQLStore.CreateUser` | internal/store/sql.go:216-226 | link to `Tables.Exec`: fails on a taken id, email or non-NULL subject; an empty subject is stored as NULL |
| `Store.SQLStore.GetUserByOIDCSubject` | internal/store/sql.go:254-265 | finds a row with the subject if there is one |
| `Store.SQLStore.CreateGroup` | internal/store/sql.go:289-299 | link to `Tables.Exec`: fails on a taken id or name; an empty claim is stored as NULL |
| `Store.SQLStore.AddGroupMember` | internal/store/sql.go:347-358 | link to `Tables.Exec`: needs both rows, and adding twice changes nothing |
| `Store.SQLStore.RemoveGroupMember` | internal/store/sql.go:360-363 | link to `Tables.Exec`: one membership is gone |
| `Store.SQLStore.SetProjectRole` | internal/store/sql.go:390-397 | link to `Tables.Exec`: leaves exactly one role under the key |
| `Store.SQLStore.UpdateProject` | internal/store/sql.go:120-127 | link to `Tables.Exec`: renames an existing project unless another has the name |
| `Store.SQLStore.CreateBudget` | internal/store/sql.go:466-477 | link to `Tables.Exec`: needs a new id, the project and, if given, the source |
| `Store.SQLStore.UpdateBudget` | internal/store/sql.go:510-517 | link to `Tables.Exec`: changes limit and threshold of an existing budget only |
| `Store.SQLStore.DeleteBudget` | internal/store/sql.go:519-522 | link to `Tables.Exec`: one budget is gone |

## Left out

* HTTP handlers, routing, the OpenCost proxy, OpenID Connect, OAuth, cookies and sessions: I/O plumbing; responses are arbitrary inputs.
* The AWS, Azure and GCP collectors: their `Collect` returns no records.
* The cluster cache, the frontend, the plugin SDK, charts and generated documentation.
* JSON encoding, UUID generation, clocks and tickers: payloads are opaque, and ids, clock readings and ticks are parameters or actions.
* Real SQL engines: only the WHERE fragment has a semantics; foreign keys are taken as enforced and DDL as transactional, and a failed call, commit included, as one that changed nothing.
* That SQLite rejects an OFFSET without a LIMIT, so that `QueryCostRecords` returns an error there, is an assumption about the engine, not a result.
* Floating point: `float64` is `real`, so rounding, infinities and NaN are not modelled.
* The data race between `Subscribe` and `subscribedTo`, which use the topic map without the lock: reads and writes of it are atomic steps here.
* Logging, and the read lock that `Len` takes for it.
* The preference of Go's `sync.RWMutex` for waiting writers: the hub machine lets new readers in, which allows more interleavings; `HubMachine.NoDeadlockBehindWriters` covers progress with the preference.
* The bridge and pump loops appear as actions of the hub machine, one per turn, not as loops; `InitializeAll` as starting at most one bridge for each plugin, as the program's one call does.
* Closing plugin channels at `Shutdown`: the poll loops use the parent context, and nothing orders the close after the last send.
* `Scheduler.Start` and its `running` flag: passes start at any time, as the goroutines of the ticks do.
* In `Identity` a login is one change of the history; logins whose calls interleave are the subject of `LoginRaces`.
* The queries of one role decision are answered from one state of the tables.
* While `CheckBudgets` or `DetectIdle` offers its events, nobody drains the channel.
* Columns without a role in a property: descriptions, creation times, labels, configurations and the like.
* Members of the store that only list or read plain columns.
* White space beyond ASCII in migration file names, and character encodings generally: one char is one byte.
- Windows.IntervalsNeverOverlap: assumes that the source has one pass at a time and that no watermark write is lost after a non-empty batch of the source; the ticks do not ensure the first, and `Overlaps.WillOverlapIff` says what happens without the second.
- Gaps.UncoveredGap: assumes that the source has one pass at a time; `Gaps.TwoPassesAtOnce` shows that this is needed, here and for `Windows.IntervalsNeverOverlap`.
- Passes.RecordsFollowTheirSource: assumes that source ids are handed out at most once and that only the scheduler inserts records.
