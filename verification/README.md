# NSQLite: the transaction coordinator, verified

NSQLite serves one SQLite database over HTTP. Any number of requests share one read-write connection and
a pool of read-only ones; a transaction is begun by one request, used by others under the ID the first
one returned, and ended by yet another one, by an idle monitor, or at shutdown. This project models that
coordinator and the code around it, and proves what it promises: over every interleaving where the code
is concurrent, over every input where it is not.

Check it with `dafny verify dfyconfig.toml`.

## How it is organised

**The step system.** `Protocol` gives every goroutine (a `Query` call, the idle monitor, `Close`) a program
counter; one step is one access to something shared: a mutex, an atomic, one call into SQLite, one
counter. Steps interleave freely, and every answer of the outside world is a free choice of the step: whether the pool
and SQLite cooperate, what a classification finds, which UUID is drawn. `Gauges` states conservation
laws (the weights of all goroutines sum to a level of the shared state) that hold step by step; `Locks`
turns them into the inductive invariant. `History` records one event for each operation that took effect;
`Lifecycle`, `SerialMeaning`, `Roles`, `Ownership`, `Timeouts` and `Reclassify` add what they need to the
invariant, and `Runs`, `Agreement`, `Atomicity`, `Progress`, `Draining`, `Fairness`, `Expiry`, `Scenarios` and
`LateOwner` hold the theorems about whole runs.

**The class.** `Coordinator.Database` has the fields of the source's `DB` and a method for each of its
methods, updating them in place. `Operations` and `Calls` give the closed form of each method and prove
that the step system, left alone with that goroutine, gets exactly there; each method is proved to
leave the fields in its closed form. So every call of the class is a run of the step system, and the theorems about runs
apply to it. A goroutine that finds `txMu` locked stays at the place where it waits.

**Clients and the rest.** `Batch` is the atomic rqlite batch as a client of the step system under interference; `SplitBatch` shows
what a bare END in its list does;
`RqliteServer` has its loop in the source's form, proved to be a run of that client. `Authorizer`, `Auth`, `Shell`, `Stats`,
`Encoding`, `Values`, `Binding` and `RqliteValues` cover the smaller cores.

## Assumptions

- SQLite is a connection with committed contents, working contents, a transaction flag and a role. Preparing
  a statement has no effect; a statement that fails changes nothing and does not end the transaction; SQLite
  reports every change to the authorizer; a statement that `sqlite3_stmt_readonly` calls read-only changes no contents.
- A read without a transaction ID sees the committed contents of its moment.
- A UUID drawn by BEGIN has never been used by a request before. Requests may still carry any ID; the
  history flag `leaked` says that some request carried an ID before the BEGIN that made it had returned. Only the
  theorem about owners needs the flag to be down.
- *Routing*: statements classified as reads or writes neither open nor end SQLite's transaction (`Locks.Routed`). The
  source does not enforce this, because only four prefixes are recognised as control statements: a bare `END`, or a COMMIT behind
  a comment, goes down the ordinary path. `QueryText.UnrecognisedControl`, `Agreement.AgreementIsKept`, `Scenarios.BareEndWedges`,
  `Agreement.WedgedForever`, `SerialMeaning.ContentsAreKept` and `SplitBatch.BareEndSplitsBatch` show what that costs;
  the theorems about tokens, IDs, roles, owners and counters do not need it.
- The three stores at the end of BEGIN are three steps, and the idle monitor may come in between. The theorem about
  owners asks that no owner store of the run hits an open transaction of another principal (`Ownership.OwnersLand`),
  and the one about the timeout that the monitor never decides on a transaction that began within the timeout
  (`Timeouts.NeverHasty`); neither asks for the other, and `Runs.OwnerStoreTheorem`, `Timeouts.DecisionTheorem` and
  `Timeouts.RollbackTheorem` show that the conditions are exact. `Scenarios.PrematureRollback` and `LateOwner.LateOwnerStore` are
  runs of the code that break these.
- The pool hands each connection to one user at a time; there is one read-write connection and at least one read-only one.
- `Close` starts when no request is under way, since the server is stopped first.
- Principals, transaction IDs and UUIDs are only compared, so numbers stand for them, zero for the empty string. `Auth.PrincipalsIdentify`
  connects them with the texts of the source.
- Of the salted SHA-256 digests only this is assumed, and only where it is said: no two of the tokens presented to the
  server so far have the same one (`Auth.Hashes.Distinguish`).

## Model

| member | source | states |
|---|---|---|
| Runs.SerialTheorem | internal/db/db.go:353-573 | after any interleaving of begins, statements, commits, rollbacks, ticks and standalone writes, the committed contents are the serial replay: each committed transaction as one block where it commits, each standalone write on its own; and every read saw the serial state of its moment plus its own transaction's writes |
| Atomicity.AtomicityTheorem | internal/db/db.go:487-539 | a committed ID has exactly one block in that schedule, holding every write ever made under it; an ID rolled back by a client, the monitor or Close has none |
| Atomicity.BlocksAreWhole | internal/db/db.go:544-573 | each block of the schedule is one standalone write or all writes of one transaction, including none recorded after its commit |
| Atomicity.EndsOnce | internal/db/db.go:496-539 | an ID ends at most once, as committed or as rolled back, never both |
| Locks.TokenIsExact | internal/db/db.go:458-478 | txMu is locked exactly when txID is set or one goroutine is to unlock it; never both, never two goroutines |
| Locks.OpAndWriteAreExact | internal/db/db.go:355-377 | txOpMu and writeMu are locked exactly when one goroutine is inside their sections |
| Locks.NoUnlockOfUnlocked | internal/db/db.go:503-535 | no run unlocks a mutex that is not locked, although txMu is locked by one request and unlocked by another |
| Locks.WriteMuNeverWaits | internal/db/db.go:329-340 | at most one goroutine is between asking for writeMu and returning it, so locking writeMu never blocks |
| Locks.InvAlways | internal/db/db.go:203-573 | the inductive invariant of the protocol holds after every run |
| Gauges.Balance | internal/db/db.go:343-573 | every step changes its goroutine's weight and the level of each conserved quantity by the same amount |
| Agreement.AgreesWithSqlite | internal/db/db.go:467-507 | outside the windows of BEGIN, COMMIT and ROLLBACK, txID is set exactly when SQLite is in a transaction, given routing |
| Agreement.AgreementIsKept | internal/db/db.go:544-596 | executing an ordinary statement keeps that agreement if and only if it leaves the transaction alone or fails |
| Agreement.WedgedForever | internal/db/db.go:496-539 | once txID is set over a connection in autocommit, no COMMIT, ROLLBACK, tick or other request ever clears txID or frees txMu |
| Scenarios.BareEndWedges | internal/db/db.go:284-300 | a run that gets there: BEGIN, then a bare END with the transaction's ID |
| QueryText.Recognised | internal/db/db.go:284-293 | exactly the texts that are space, then BEGIN, COMMIT, ROLLBACK or END TRANSACTION in any case, then anything, are taken for the control statements, END TRANSACTION for a rollback; all others are ordinary |
| QueryText.UnrecognisedControl | internal/db/db.go:284-293 | texts that start with a comment, or with END not spelled out as "end transaction", are taken for ordinary statements |
| QueryText.ControlTexts | internal/db/db.go:285-293 | the texts the server sends itself are recognised as BEGIN, COMMIT and ROLLBACK |
| QueryText.TrimLeft | internal/db/db.go:285-285 | exactly the leading space of the text is removed before the prefix test |
| Progress.NoDeadlock | internal/db/db.go:355-377 | some goroutine can step, and not only by being refused, whenever a request is unfinished and does not wait for an open transaction |
| Progress.RunsAreBounded | internal/db/db.go:223-254 | without new requests and new ticks, a run is no longer than the drop of a measure of the pending work |
| Draining.NeverStuck | internal/db/db.go:233-251 | in every reachable state with an unfinished request some step is enabled, and not only a refusal; if only waiting calls are left, it is the idle monitor's |
| Draining.DrainTheorem | internal/db/db.go:223-254 | from every reachable state some run without new requests finishes every call and leaves no transaction open |
| Draining.StepsAreBounded | internal/db/db.go:223-254 | every run without new requests has at most as many steps as a measure of the pending work, plus a constant for every tick it starts |
| Draining.OnlyTicksLeft | internal/db/db.go:223-254 | a run that can go on only with new ticks has finished every call but those that wait for the open transaction; with none open, it has drained |
| Fairness.RoundLowers | internal/db/db.go:223-254 | with any others interleaved, each stretch of a run between two rests of the monitor in which another goroutine steps, or the monitor handles a tick later than T after the last use, pool and SQLite cooperating with it, strictly lowers the pending work |
| Fairness.FairTheorem | internal/db/db.go:223-254 | every run without new requests that goes through as many such rounds as the pending work counts has finished every call and left no transaction open, whatever is chosen for the others |
| Fairness.FairRoundExists | internal/db/db.go:223-254 | and every run can go on so: from each reachable state in which the monitor rests there is such a round |
| Expiry.NotBeforeTheorem | internal/db/db.go:241-241 | in every run from a reachable state in which a transaction is open and was last used at u: as long as no statement and no BEGIN stores a later time, it is open, or it has ended, and the monitor has not rolled it back at u + T or earlier |
| Expiry.ExpiryTheorem | internal/db/db.go:233-251 | whatever else runs: if moreover the monitor starts a tick later than u + T and completes it, pool and SQLite cooperating with the monitor, the transaction has ended, by a client's own COMMIT or ROLLBACK or rolled back |
| Expiry.DueTick | internal/db/db.go:227-230 | of ticks T apart, exactly one falls into (u + T, u + 2T] |
| Expiry.PunctualTheorem | internal/db/db.go:227-251 | with ticks T apart and that one handled on time, the transaction has ended, and if the monitor ended it, then in (u + T, u + 2T] |
| Scenarios.PunctualRun | internal/db/db.go:233-251 | such runs exist: from every state in which a transaction has just been used and nobody is at work, one tick leaves it alone and the next rolls it back in that interval |
| Timeouts.DecisionTheorem | internal/db/db.go:241-241 | in every reachable state in which the monitor decides on a rollback: the transaction had been used within the timeout if and only if it began within the timeout, and then, and only then, with its BEGIN still between its stores; whatever clients send |
| Timeouts.RollbackTheorem | internal/db/db.go:233-251 | in every run: each single rollback by the monitor came later than T after the last use if and only if it came later than T after the BEGIN; all did exactly if none ended so young a transaction |
| Timeouts.TimeoutTheorem | internal/db/db.go:233-251 | in every run in which the monitor never decides on a transaction that began within the timeout, it has rolled back only what had not been used for longer than the timeout |
| Scenarios.PrematureRollback | internal/db/db.go:474-476 | a run in which it is, and the new transaction is rolled back at once |
| Runs.OwnershipTheorem | internal/db/db.go:203-220 | in every run in which no ID leaked and every owner store landed on no open transaction, its own, or one of the same principal, every client statement of a transaction came from the principal that began it (an empty principal is not checked) |
| Runs.OwnerStoreTheorem | internal/db/db.go:474-476 | the condition is exact: in every reachable state with a transaction open, the owner store of a BEGIN leaves txOwner that transaction's owner if and only if the transaction is the BEGIN's own or of the same principal |
| LateOwner.LateOwnerStore | internal/db/db.go:474-476 | a run in which it is neither: a BEGIN overtaken by the monitor stores its owner late, onto the next transaction, which that owner then commits |
| Runs.NoRollbackUnderStatement | internal/db/db.go:233-251 | while the monitor rolls back, no statement of the transaction is running |
| Runs.RoleTheorem | internal/db/db.go:302-317 | every statement ran under the role of its request, which allowed it, although classification sets the administrator's role on the same connections |
| Runs.ReadOnlyTheorem | internal/sqlite/sqlite.c:243-256 | no step of a read-only request changes the contents, opens or ends a transaction, or clears txID |
| Runs.LifecycleTheorem | internal/db/db.go:467-507 | an ID goes from fresh to active to ended and never back, and no two IDs are active at once |
| Runs.RefusedStep | internal/db/db.go:382-385 | no step of a request that names an ended transaction touches SQLite, txMu, txID or the records |
| Runs.RefusedTheorem | internal/db/db.go:203-220 | such a request is refused before it is classified, whatever else runs |
| Runs.ReclassifyTheorem | internal/db/db.go:361-379 | a statement re-classified under txMu is executed with no transaction open and against the contents it was re-classified on, and never enters BEGIN |
| Runs.CounterTheorem | internal/db/db.go:343-350 | at rest, finished calls and the server's own rollbacks are what the six counters add up to; begins are commits plus rollbacks plus the open transaction; each counter is the number of its operations; the queue gauges are zero |
| Runs.QueueTheorem | internal/db/db.go:451-452 | at any moment the queue gauges are the numbers of requests inside their windows |
| Coordinator.Database.constructor | internal/db/db.go:106-157 | a new database is an initial state of the step system, with the contents, the readers and the timeout it was opened with |
| Coordinator.Database.ValidateTxID | internal/db/db.go:203-220 | accepts exactly no ID, or the open transaction's with its owner or no owner; not found exactly if none is open, no match otherwise |
| Coordinator.Database.UnlockTxMu | internal/db/db.go:507-507 | unlocks, and notes the unlock of an unlocked mutex |
| Coordinator.Database.WithReadWriteConn | internal/db/db.go:419-438 | runs a statement under the request's role; succeeds exactly when pool, role and transaction state allow it |
| Coordinator.Database.ClassifyOnReadWriteConn | internal/db/db.go:329-340 | leaves the administrator's role on the connection and nothing else |
| Coordinator.Database.ClassifyOnReadOnlyConn | internal/db/db.go:319-327 | likewise on the connection the pool hands out, which is returned |
| Coordinator.Database.ClassifyQuery | internal/db/db.go:284-300 | BEGIN, COMMIT and ROLLBACK exactly by their texts, else by the connection that fits the request |
| Coordinator.Database.ExecuteBeginQuery | internal/db/db.go:441-484 | refuses an ID; else the whole new state: waiting for txMu, stored and holding it, or given up with txMu unlocked |
| Coordinator.Database.BeginOnceFree | internal/db/db.go:458-484 | the same from the lock of txMu on, for a BEGIN that had to wait |
| Coordinator.Database.ResumeBegin | internal/db/db.go:458-484 | a call whose BEGIN had to wait, from the wait to its end or to the next wait |
| Coordinator.Database.StoreTransaction | internal/db/db.go:473-478 | the three stores and the counters |
| Coordinator.Database.ExecuteCommitQuery | internal/db/db.go:487-512 | refuses without an ID; on success txID, owner and time are cleared, the commit counted and txMu unlocked; on failure nothing of that |
| Coordinator.Database.ExecuteRollbackQuery | internal/db/db.go:515-540 | the same for ROLLBACK |
| Coordinator.Database.ClearTransaction | internal/db/db.go:503-507 | the stores, the count and the unlock after COMMIT or ROLLBACK |
| Coordinator.Database.ExecuteWriteQuery | internal/db/db.go:544-573 | the whole new state of a write: gauge up and down, contents changed in or outside the transaction, counted if it worked |
| Coordinator.Database.ExecuteReadQuery | internal/db/db.go:578-630 | the same for a read, on the read-only pool without an ID and on the read-write connection with one |
| Coordinator.Database.ExecuteClassifiedQuery | internal/db/db.go:398-417 | the kinds go to their methods; when it is answered, refused or left waiting |
| Coordinator.Database.QueryWithType | internal/db/db.go:382-396 | refuses before classification and changes nothing, or touches txLastUsed before and after the statement; which error it answers, and when |
| Coordinator.Database.QueryInTx | internal/db/db.go:354-359 | a request with an ID, under txOpMu; it never waits for txMu |
| Coordinator.Database.Reclassify | internal/db/db.go:363-371 | the retry under txMu |
| Coordinator.Database.ExecuteOnceFree | internal/db/db.go:364-379 | a statement of its own from the lock of txMu on |
| Coordinator.Database.QueryStandalone | internal/db/db.go:361-379 | a request without an ID: classification, retry only when a transaction is open, txMu only for writes |
| Coordinator.Database.Query | internal/db/db.go:343-350 | a whole call leaves the fields where the step system takes its goroutine alone, and returns an answer, a wait or an error accordingly; each of the six errors exactly when the request, the open transaction and the answers of pool and SQLite call for it |
| Coordinator.Database.Tick | internal/db/db.go:233-251 | one tick of the monitor, likewise |
| Coordinator.Database.TxIdleMonitor | internal/db/db.go:223-254 | left to itself, the monitor rolls back exactly when some tick comes more than the timeout after the last use and finds pool and SQLite cooperating, and never changes the committed contents |
| Coordinator.Database.Close | internal/db/db.go:257-266 | the committed contents stay in any case; nothing of an open transaction survives if pool and SQLite cooperate |
| Coordinator.QueryIsRun | internal/db/db.go:343-380 | every such call is a run of the step system |
| Calls.QueryAlone | internal/db/db.go:343-380 | the closed form of a whole call is where its goroutine, alone, arrives |
| Calls.BeginAlone | internal/db/db.go:441-484 | the same for BEGIN |
| Calls.EndAlone | internal/db/db.go:487-540 | the same for COMMIT and ROLLBACK |
| Calls.WriteAlone | internal/db/db.go:544-573 | the same for a write |
| Calls.RetriedAlone | internal/db/db.go:363-371 | the same for the retry under txMu |
| Calls.TickAlone | internal/db/db.go:233-251 | the same for a tick |
| Calls.CloseAlone | internal/db/db.go:257-266 | the same for Close |
| Calls.ServerOutcome | internal/db/db.go:233-266 | a rollback by the server keeps the committed contents; when it is due, it empties the transaction and frees txMu if pool and SQLite cooperate, and leaves the transaction as it is if they do not |
| Batch.AtomicBatch | internal/server/rqlite.go:130-167 | under any interference, then or later, even if the inner COMMIT or ROLLBACK fails, the schedule has from the batch nothing, or one block; then the executions recorded under its ID are those of every statement of the list, once and in order, up to the first COMMIT in the list if it has one, and the block is exactly those recorded as writes |
| Batch.BatchTheorem | internal/server/rqlite.go:130-167 | all or nothing on the database: in every routed run from a database opened with any contents, then or later, the committed contents are what others committed, every write of the list in order in one place, and what others committed after; or only what others committed |
| Batch.EvolvesLeads | internal/server/rqlite.go:130-167 | the batch with everybody else is a run of the step system, so that all theorems about runs apply to it |
| Batch.AllWrites | internal/server/rqlite.go:148-158 | if every execution was a write, that block is the list of statements itself |
| Batch.BadItemNeverCommits | internal/server/rqlite.go:148-158 | a batch with a statement that cannot be asked, and no COMMIT in the list before it, never has a block |
| RqliteServer.BadQueryNeverCommits | internal/server/rqlite.go:148-158 | the same of the list as sent: an empty text or a parameter that cannot be converted undoes the batch |
| SplitBatch.BareEndSplitsBatch | internal/server/rqlite.go:148-158 | why routing is asked for: a run of a batch of a write, a bare END and a bad statement that shows an error and has no block, while its write is committed |
| SerialMeaning.ContentsAreKept | internal/db/db.go:544-630 | the condition is exact: executing a statement of the open transaction as a read or a write keeps the committed contents those of the schedule if and only if it does not commit changes |
| Batch.WholeListWanted | internal/server/rqlite.go:148-158 | for a list without COMMIT that is the whole list |
| Batch.BatchResults | internal/server/rqlite.go:148-166 | only the last result can be an error; without an error there are as many results as statements and the batch is committed; a list without COMMIT is committed only then |
| Batch.BatchAlways | internal/server/rqlite.go:130-167 | the invariant of the batch under interference holds after every run |
| BatchSteps.WritesAmong | internal/server/rqlite.go:148-152 | execution k recorded in a transaction is of its statement k, and its writes are exactly the executions recorded as writes, in order |
| BatchSteps.OwnStep | internal/server/query.go:81-87 | what a call that names a transaction adds to it, step by step: its statement once, or its COMMIT |
| BatchSteps.OtherStep | internal/db/db.go:382-385 | no step of a call that does not name a transaction adds to it or commits it |
| RqliteServer.ExecuteRequestQuery | internal/server/query.go:40-110 | an empty text, or a parameter that cannot be converted (the first one tells which error), exactly then ends without a call; else the call of the database, with its errors |
| RqliteServer.Check | internal/server/query.go:47-84 | what is found wrong before the call, if anything |
| Binding.ParamsFromVDL | internal/server/query_convert.go:25-46 | all parameters converted in order with their names, or the error of the first that cannot be |
| RqliteServer.ExecuteQueries | internal/server/query.go:20-37 | one result for each query, in order, unless one has to wait for txMu: a run of the step system in which the queries are asked one after the other, each ending with the result listed for it, and those that cannot be asked are listed as errors |
| RqliteServer.ExecuteRQLiteQueries | internal/server/rqlite.go:130-167 | the loop in the source's form, on a database with or without an open transaction, is a run of the batch and returns its results, or waits for txMu |
| RqliteServer.ContinueRQLiteQueries | internal/server/rqlite.go:140-167 | from such a wait on, whatever the database has become meanwhile, likewise |
| RqliteServer.FinishBatch | internal/server/rqlite.go:146-166 | what follows the BEGIN: one error if it failed, else the statements and the COMMIT or ROLLBACK, with the results of the batch |
| RqliteServer.BeginBatch | internal/server/rqlite.go:140-147 | the BEGIN of the batch, whether or not a transaction is open: it gives the ID for its statements, ends the batch with one error, or waits exactly when txMu is locked |
| RqliteServer.ResumeBatch | internal/db/db.go:458-484 | the same for a BEGIN that had to wait, once it tries again |
| RqliteServer.TryStatement | internal/server/rqlite.go:149-153 | one statement of the list as steps of the batch: an empty text or a bad parameter aborts without a call, anything else is asked of the database |
| RqliteServer.RunStatements | internal/server/rqlite.go:148-158 | the statements up to the first error, with their results |
| RqliteServer.EndBatch | internal/server/rqlite.go:154-163 | the ROLLBACK after an error, whose result is dropped, or the COMMIT at the end |
| Authorizer.IsAllowedFunction | internal/sqlite/sqlite.c:138-148 | the scan finds exactly the functions on the list |
| Authorizer.RoleLadder | internal/sqlite/sqlite.c:202-260 | read-only is read-write without the changing actions; read-write is below admin and shut out of internal tables and of every other action |
| Authorizer.Permitted | internal/sqlite/sqlite.c:202-260 | for every list of actions: administrators may do it; readers exactly if it only selects, reads, recurses, calls functions on the list and inspects by the named pragmas; writers exactly if, besides, it begins or ends transactions and changes rows of tables whose names do not start with sqlite_ |
| Authorizer.SelectsAreOpen | internal/sqlite/sqlite.c:215-248 | a statement that only selects and reads is open to every role |
| Authorizer.CompiledIsLawful | internal/sqlite/sqlite.c:243-256 | nothing a read-only connection may execute changes contents or transaction |
| Authorizer.ControlStatements | internal/sqlite/sqlite.c:229-231 | BEGIN, COMMIT and ROLLBACK are open to exactly the roles the authorizer gives the transaction action |
| Auth.NewAuthTokens | internal/server/auth.go:31-59 | the token list: administrators, then read-write, then read-only, each with its algorithm |
| Auth.RolePrecedence | internal/server/auth.go:99-106 | admin if any admin value lets the client in, else read-write if any does, else read-only if any does, else nobody; a value that starts like an argon2id or bcrypt hash lets in whom that check accepts, any other exactly its equal |
| Auth.PlaintextOnly | internal/server/auth.go:111-117 | with no hashes configured, exactly the clients equal to a configured value get in |
| Auth.Server.CheckAuthWithCache | internal/server/auth.go:86-109 | as long as no two tokens presented so far have the same digest, the answer is the role that the configured values give this client, whatever was looked up before; in any case the principal is this token's and the role is what they give a token with its digest; only this token's entry is added |
| Auth.Server.AuthenticateRequest | internal/server/auth.go:63-81 | everybody is admin without tokens; else the header without its scheme is looked up, with that answer |
| Auth.SchemeIsCut | internal/server/auth.go:68-70 | what is looked up: the text after either scheme, or after both |
| Auth.PrincipalsIdentify | internal/server/auth.go:91-92 | principals are never empty and, for two tokens with different digests unless equal, equal exactly for equal tokens |
| Auth.SomeDistinguish | internal/server/auth.go:91-92 | that assumption can be met by 32-byte digests, for every set of tokens that are short enough |
| Shell.ShellJoin | cmd/entrypoint/main.go:325-332 | the loop computes the quoted words joined by spaces |
| Shell.PrintedBare | cmd/entrypoint/main.go:334-340 | a value is printed without quotes exactly if it is not empty and has none of 25 special characters |
| Shell.RoundTrip | cmd/entrypoint/main.go:325-340 | a POSIX shell reads back exactly the given arguments, for every list, if and only if the first word is not an unquoted reserved word or assignment |
| Shell.ServerLine | cmd/entrypoint/main.go:135-164 | with the server's fixed path in front it always does |
| Shell.JoinedIsInjective | cmd/entrypoint/main.go:325-340 | different argument lists are printed differently |
| Stats.MinuteOf | internal/stats/stats.go:74-74 | the last full minute not after the moment |
| Stats.DBStats.GetOrCreateMinuteData | internal/stats/stats.go:72-85 | the bucket of the minute is there and is the old one if there was one |
| Stats.DBStats.Increment | internal/stats/stats.go:87-127 | the bucket of the minute counts one more increment |
| Stats.DBStats.Evict | internal/stats/stats.go:53-66 | exactly the buckets of minutes that started more than 24 hours ago go, in any order of the walk |
| Stats.DBStats.LoadStats | internal/stats/load_stats.go:40-109 | every bucket once, strictly newest first; the totals are the sums of the buckets and the numbers of increments in buckets not evicted |
| Stats.Collect | internal/stats/load_stats.go:52-88 | the walk, in any order, lists each bucket once and sums them up |
| Stats.SortNewestFirst | internal/stats/load_stats.go:90-94 | the same buckets, newest first |
| Stats.ListingIsUnique | internal/stats/load_stats.go:90-94 | the order of the walk does not show in the report |
| Stats.CountKept | internal/stats/stats.go:61-63 | eviction keeps or drops the increments of a minute as a whole |
| Encoding.Base64RoundTrip | internal/server/rqlite.go:526-533 | decoding base64 gives back the bytes that were encoded |
| Encoding.Decodable | internal/server/rqlite.go:526-533 | decoded is exactly text in groups of four characters of the alphabet with up to two of padding, line breaks left out, and to exactly the bytes its bits spell |
| Encoding.HexDecodable | internal/server/rqlite.go:347-350 | exactly an even number of hexadecimal digits is decoded |
| Encoding.HexRoundTrip | internal/server/rqlite.go:340-354 | the same for hexadecimal |
| Values.FromVDL | internal/server/query_convert.go:50-84 | accepted exactly when one field is set, null: false counting as unset, and a blob is valid base64; the value is that field's |
| Values.IntegerEcho | internal/sqlite/sqlite.go:631-633 | an integer selected back is the same exactly in [-2^31, 2^31), else the one number there with the same low 32 bits |
| Values.ValueEcho | internal/sqlite/sqlite.go:361-402 | every accepted value comes back acceptable; it is the same value except for wide integers and empty blobs, and an empty blob comes back as NULL |
| Binding.BindParameterIndexSafe | internal/sqlite/sqlite.go:339-359 | the parameter of that name, or under the first of four prefixes that has one |
| Binding.SafeIndexIs | internal/sqlite/sqlite.go:339-359 | which parameter that is, for every name: none for the empty one, the first called so for one with a prefix, else the first called so after the first of the prefixes with which there is one |
| Binding.NamesReach | internal/sqlite/sqlite.go:339-359 | a value reaches the parameter of its name with or without the prefix |
| Binding.BindAll | internal/sqlite/sqlite.go:202-218 | an error exactly if some value has no parameter; else each parameter holds the last value for it, or NULL |
| Binding.BoundIsUnique | internal/sqlite/sqlite.go:202-218 | which determines the bindings |
| Binding.Step | internal/sqlite/sqlite.go:259-272 | a row read column by column; undeclared types come from the first row |
| Binding.StorageClasses | internal/sqlite/sqlite.go:558-580 | each value is named by its own storage class |
| Binding.Query | internal/sqlite/sqlite.go:187-284 | an error exactly when the text does not compile, a parameter is missing or a step fails, each told apart; else all rows for the bindings, and the types |
| Binding.EchoAll | internal/sqlite/sqlite.go:187-284 | a list of values selected back: each value as ValueEcho says |
| RqliteValues.HexBlobEcho | internal/server/rqlite.go:340-354 | every blob sent as X'hex', with x and each digit in either case and space around it, arrives with its bytes |
| RqliteValues.HexBlobExactly | internal/server/rqlite.go:340-354 | exactly the texts X'hex' with an even number of digits, in either case and with space around them, are blobs |
| RqliteValues.BlobArrayExactly | internal/server/rqlite.go:489-500 | exactly base64 text becomes an array, of exactly its bytes |

## Left out

- Coordinator.Database.Query: a call that starts while another one is inside a section is modelled by the step system only; the class runs one goroutine at a time and leaves it where it would wait.
- Coordinator.Database.ExecuteCommitQuery: a COMMIT that fails and makes SQLite itself roll back, or an `INSERT OR ROLLBACK`, is outside the assumption that failed statements change nothing.
- Coordinator.Database.TxIdleMonitor: no other goroutine is at work during its ticks; Expiry and Timeouts have the monitor among others.
- RqliteServer.ExecuteQueries: the queries of one list, with no other goroutine at work meanwhile; calls may be left waiting for txMu.
- RqliteServer.ExecuteRQLiteQueries: the loop runs with no other goroutine at work, except while it waits for txMu; Batch has it under any interference.
- Draining.DrainTheorem: that some such run exists; what holds of every run is in Fairness.FairTheorem, Draining.StepsAreBounded, OnlyTicksLeft and NeverStuck.
- Scenarios.PunctualRun: a run with nobody else at work; Expiry has every run.
- Stats.DBStats.Increment: counters are unbounded integers; the source's 64-bit counters wrap only after 2^63 increments in a minute.
- Stats.DBStats.Evict: a goroutine that stays for a day between finding its bucket and incrementing it loses the increment; the model takes the two as one.
- SQLite itself: SQL, WAL, page cache, busy handling, PRAGMA statements that act when compiled.
- The transaction state of read-only connections: a control statement behind a comment on the read-only pool.
- The internals of database/sql: dialing, retries, contexts, connection lifetimes.
- `Close` while requests are running; a second `Close`.
- What an answer carries besides the ID of a new transaction (its type, times, columns, row counts); the texts of errors.
- HTTP, routing, JSON, logging, configuration files, process start, the end-to-end harness.
- Bcrypt, Argon2id and SHA-256 are functions nothing is known about, except what Assumptions says of digests.
- Generated code in internal/vdl, request validators, atomic wrappers, IntWithCommas: plumbing or easy members.
- Floating-point values pass through unexamined (SQLite turns NaN into NULL); text with embedded NUL bytes; column affinity; the mapping of declared types to storage classes.
- rqlite's associative result rows and its JSON parameters other than blobs.
- Litestream's own splitting of its command line, which is not part of this repository; the reader is the POSIX shell's.
- RFC 3339 keys of the minute buckets are modelled by the moments they denote.
