# Verified models of resoto's locking, scheduling, query compiling and parsing

This project models the parts of resoto whose correctness is hardest to see from reading them, and proves
what they promise. Each part stands in its own files.

* **Readers-writer lock** (`RWLock`). Any number of threads interleave, one lock operation, counter update or
  counter test at a time, over five plain mutexes that have no owner. Who took a lock is recorded for the
  proofs only.
* **Worker task queue** (`OrderedDict`, `WorkerTasks`, `WorkerTaskProofs`, `WorkerTaskLaws`, `WorkerTaskQueue`).
  `WorkerTasks` gives every operation as a function on the whole state, the class `WorkerTaskQueue` updates its
  fields in place and is proved equal to it, and `WorkerTaskProofs` proves what holds over every run.
  `WorkerTaskLaws` says without these functions what every operation does to every task, what is put and told
  over every run, and what the counters and subscriptions are. A run starts empty and consists of attaching,
  detaching, adding, acknowledging, reporting errors and checking for outdated tasks.
* **Query compiler** (`Decimal` and the files that start with `Aql`). `AqlTerms` compiles a term to a filter over
  bind variables and gives the term a meaning of its own; `AqlCompiler` is the same compiler with counters and
  bind variables updated in place; `AqlQueries` compiles whole queries to the statements that declare and use
  cursors; `AqlPieces`, `AqlMerges` and `AqlWellFormed` prove that names in a query are bound, in scope and
  never reused; `AqlSelections` carries the meaning of filters through whole queries, and `AqlFlows` reads off
  the text which filters it applies to which input and proves that these are the ones the query asks for.
* **Durations** (`Parsing`, `Durations`, `DeltaStrings`). The printer and the parser of resotolib, the parser
  of resotocore, and both parsers on what the printer prints.
* **Escaped splitting** (`SplitEsc`) and the **JSON value parser** (`JsonParser`), with ordered choice.
* **Database cursor** (`AsyncCursor`), **messages and message bus** (`Messages`, `MessageBus`), **nested
  paths** (`Paths` on values, `NestedDicts` in place).

Where the code does not meet its own documentation, the code is modelled as it is and the exact condition is
proved:

* An ordering comparison with null does not mean what it says: `>=` on a simple kind, every ordering on a kind
  that is stored in reverse (`OrderingExact`). Sorting by such a kind reverses nodes with and without the
  property as well (`SortExact`).
* `has_key` with several names never finds a system attribute, and a list of one name reaches the database as a
  list (`HasKeyExact`).
* A part that is tagged but has nothing to filter, sort or limit leaves an empty name in the union of the query,
  and ancestors to merge that are repeated, or called `node`, `ancestor_nodes` or `p`, declare a variable twice
  (`QueryWellFormed`).
* `delta_to_str` says that `parse_delta` reverses it; the sign is lost (`ReversibleExactly`). resotocore's
  parser keeps the sign, unless the first number is zero (`PhraseParses`).
* An empty JSON object with whitespace inside is not parsed (`ParseRender`). A number with an exponent is parsed
  as a word if it has neither a fraction nor a plus sign in the exponent, and is not parsed otherwise
  (`ExponentExactly`). Of the words that start with `true`, `false` or `null`, these three are parsed as values
  and no longer one is parsed (`WordExactly`).
* A sub-query of a merge that has no navigation at its start, or a limit of 0, passes the test that should refuse
  it, and then loops over a single node (`SubQueryStarts`).
* A cursor without a transformation skips rows that Python takes for false (`RawRows`).
* A subscription to `*` and to another channel receives messages twice (`OnceExactly`), and a subscriber that
  leaves removes the entry of another one with the same id (`LeaveKeepsEntries`).
* Deleting a path that is not there turns a falsy value on the way into null (`DelAbsent`).

Assumptions: worker and listener queues are unbounded, so that a `put` never suspends and every public
operation is one atomic step; task ids are fresh, timeouts are not negative and the clock, whose readings are
the values of a function, is monotone; callers do not cancel futures; a worker id has at most one open
`attach`; the database sends no empty batches, except for an empty result; nested dicts form a tree.

## Model

| member | source | states |
|---|---|---|
| RWLock.MutualExclusion | resotolib/resotolib/utils.py:83-122 | In every state reachable by any interleaving of any number of threads, a writer inside excludes every other writer and every reader. |
| RWLock.CallKeepsProtocol | resotolib/resotolib/utils.py:83-99 | In every run a thread that called writer_acquire goes through the steps of a writer only until it is idle again, and one that called reader_acquire through those of a reader. |
| RWLock.CallGetsInside | resotolib/resotolib/utils.py:83-99 | In every run a call that has come to its end was inside in between: the thread was writing, or reading, as it had called. |
| RWLock.OnlyReadersTogether | resotolib/resotolib/utils.py:83-99 | If two threads are inside together, both called reader_acquire and are reading. |
| RWLock.WriterGetsInside | resotolib/resotolib/utils.py:93-95 | On a fresh lock of any number of threads, any of them gets to write by calling writer_acquire. |
| RWLock.ReadersTogether | resotolib/resotolib/utils.py:83-91 | For any number of readers there is a run from the fresh lock after which all of them are reading. |
| RWLock.OneReaderContends | resotolib/resotolib/utils.py:53-55 | readers_queue lets at most one reader at a time compete with a writer for no_readers. |
| RWLock.FirstReaderNeverWaits | resotolib/resotolib/utils.py:83-88 | A first reader holds no_readers and no_writers is free then, so it never waits for it. |
| RWLock.NeverReleasesFree | resotolib/resotolib/utils.py:83-122 | No step of any run releases a lock that is free, although a switch is turned on by one thread and off by another. |
| RWLock.NoDeadlock | resotolib/resotolib/utils.py:27-30 | Whenever a thread is inside an acquire or release, such a thread can step, or a writer is inside, or readers are inside while a writer waits: readers alone never keep anyone waiting. |
| RWLock.DrainLowersRank | resotolib/resotolib/utils.py:83-122 | Every step of a thread that is not idle brings the threads closer to being idle. |
| RWLock.DrainEnds | resotolib/resotolib/utils.py:83-122 | Without new calls every schedule ends after a bounded number of steps. |
| RWLock.DrainEndsFree | resotolib/resotolib/utils.py:83-122 | A reachable state that no thread can leave is the fresh lock with every thread idle. |
| RWLock.StepWriterFirst | resotolib/resotolib/utils.py:93-99 | While the write switch owns no_readers no step counts a reader in, and the switch stays on until its counter is 0. |
| RWLock.WriterPreference | resotolib/resotolib/utils.py:29-30 | As long as writers are counted, the readers let in at any later point were let in at the start: a waiting writer waits for them and other writers only. |
| WorkerTaskProofs.Conservation | resotocore/core/worker_task_queue.py:126-222 | Over every run each added task is in exactly one of the two maps or was resolved, and its callback is resolved exactly once, when it leaves both. |
| WorkerTaskLaws.Fates | resotocore/core/worker_task_queue.py:101-222 | For every operation and every task: attaching touches none; detaching and a check after the deadline issue a task again up to the third retry and give it up after that, never before; a result or an error closes exactly the task of the worker that has it; a check gives up overdue parked tasks and issues the others where somebody can do them. A task that is issued is put on the queue of a best worker, which its entry names, or is parked if there is none, with its time running from then. |
| WorkerTaskLaws.CallbacksTold | resotocore/core/worker_task_queue.py:140-222 | Over every run the callback of a task is told once, in the operation in which it leaves both maps: the very result or message of the worker its entry named, too many retries if it was taken from its worker at three or more, no worker if it was parked and overdue. |
| WorkerTaskLaws.PutsFollowEntries | resotocore/core/worker_task_queue.py:178-180 | Over every run the puts of a task are, in order, those of its successive entries, so an outstanding task was put last on the queue of the worker its entry names. |
| WorkerTaskLaws.ListedAsDescribed | resotocore/core/worker_task_queue.py:104-113 | Over every run an attached worker is listed once for every description of its attach, in order and with one queue that no other worker has, and a worker that is not attached is not listed. |
| WorkerTaskLaws.LoadIs | resotocore/core/worker_task_queue.py:110-111 | Over every run the count of an attached worker is what is outstanding on it plus the tasks taken from it by checks after their deadlines since it attached, so it is never negative. |
| WorkerTaskProofs.OutstandingIsPlaced | resotocore/core/worker_task_queue.py:155-186 | Over every run an outstanding task names an attached worker that subscribed to its name with a filter its attributes satisfy. |
| WorkerTaskProofs.RetryAllUnparked | resotocore/core/worker_task_queue.py:212-222 | A timeout retry never parks a task. |
| WorkerTaskProofs.DetachFreesWorker | resotocore/core/worker_task_queue.py:116-126 | After a detach nothing is outstanding on that worker. |
| WorkerTaskProofs.UnregisterMine | resotocore/core/worker_task_queue.py:119-121 | Detaching finds every subscription it removes, leaves none of the worker's, and keeps those of every other worker in order. |
| WorkerTaskProofs.BoundedRetries | resotocore/core/worker_task_queue.py:212-222 | In any run a task that starts at retry count 0 is put on worker queues at most four times. |
| WorkerTaskProofs.StagesRise | resotocore/core/worker_task_queue.py:155-222 | Between any two points of a run a task is untouched or at a higher stage, by retry count and by being parked or assigned. |
| WorkerTaskProofs.CheckRaises | resotocore/core/worker_task_queue.py:140-145 | A check after the deadline of an outstanding task resolves it or raises its retry count. |
| WorkerTaskProofs.CheckResolvesParked | resotocore/core/worker_task_queue.py:146-149 | A check after the deadline of a parked task resolves it. |
| WorkerTaskProofs.ResolvedInFour | resotocore/core/worker_task_queue.py:140-153 | The fourth check that comes after its deadline resolves a task that started at retry count 0. |
| WorkerTaskLaws.CheckSettles | resotocore/core/worker_task_queue.py:140-153 | After a check no deadline is over and no parked task satisfies the filter of a subscription to its name. |
| WorkerTaskProofs.LateResultsIgnored | resotocore/core/worker_task_queue.py:188-210 | Once resolved a task stays resolved, and later results or errors for it, from whichever worker, change nothing. |
| WorkerTaskLaws.AssignPicksBest | resotocore/core/worker_task_queue.py:167-180 | Every assignment goes to a listed subscription whose filter the task satisfies, none such with a larger filter and none with as large a filter and a smaller count; the task is put on that queue, and the entry names it. |
| WorkerTaskProofs.AddsAreFair | resotocore/core/worker_task_queue.py:171-180 | Interchangeable workers whose counts are within one of each other stay so over any sequence of adds. |
| WorkerTaskQueue.WorkerTaskQueue.InternalAddTask | resotocore/core/worker_task_queue.py:155-186 | Assigns to a best worker with a least count, on whose queue the task is put, or parks, as the state function does; the result says which. |
| WorkerTaskQueue.WorkerTaskQueue.RetryTasks | resotocore/core/worker_task_queue.py:212-222 | The loop over the tasks ends in the state of the specification, including the count that a give-up writes for a worker already removed. |
| WorkerTaskQueue.WorkerTaskQueue.AddTask | resotocore/core/worker_task_queue.py:128-130 | Keeps the invariant behind all run properties, ends in the specified state and does to every task what Fates says. |
| WorkerTaskQueue.WorkerTaskQueue.AcknowledgeTask | resotocore/core/worker_task_queue.py:188-198 | The same for a result: only the worker that has the task closes it, and its callback gets that result. |
| WorkerTaskQueue.WorkerTaskQueue.ErrorTask | resotocore/core/worker_task_queue.py:200-210 | The same for an error and its message. |
| WorkerTaskQueue.WorkerTaskQueue.CheckOutdatedUnassignedTasks | resotocore/core/worker_task_queue.py:140-153 | The three loops end in the specified state and keep the invariant. |
| WorkerTaskQueue.WorkerTaskQueue.Attach | resotocore/core/worker_task_queue.py:104-115 | Registers the subscriptions and resets the count; without descriptions it raises before anything changes. |
| WorkerTaskQueue.WorkerTaskQueue.Detach | resotocore/core/worker_task_queue.py:116-126 | Removes the subscriptions and the counter and reschedules, as specified, and keeps the invariant. |
| Aql.MaskIsPrefix | resotocore/core/db/arangodb_functions.py:30-35 | Two masked addresses are equal if and only if their first bits agree, as section 3.1 of RFC 4632 defines a network. |
| Aql.MaskTwice | resotocore/core/db/arangodb_functions.py:30-32 | Masking an address a second time changes nothing, so the bound value is the network's address. |
| AqlTerms.BindFresh | resotocore/core/db/arango_query.py:79-80 | A counted variable is never bound already, although three naming schemes share the map. |
| AqlTerms.BindSizedFresh | resotocore/core/db/arangodb_functions.py:33-53 | Nor is a variable named by the number of variables, with either prefix. |
| AqlTerms.TermBinds | resotocore/core/db/arango_query.py:127-190 | For every term, every placeholder of the filter is bound and nothing bound before is overwritten. |
| AqlTerms.TermRaises | resotocore/core/db/arango_query.py:127-190 | Compiling a term raises exactly when it names a kind that does not exist, compares with a value that its kind cannot read, or calls an unknown function or one with wrong arguments. |
| AqlTerms.FilterSelects | resotocore/core/db/arango_query.py:127-190 | For every term that is Safe and every node that is WellTyped, the filter under the final bind variables selects the node if and only if the term means it. Safe shuts out orderings with null and, on a reversed kind, regular expressions; system attributes among several names; a one-element list of names unless the database takes it for the name; and an `is` without kinds. WellTyped says that points in time are numbers and IPv4 addresses have 32 bits. |
| AqlTerms.OrderingExact | resotocore/core/db/arango_query.py:141-151 | An ordering comparison agrees with its meaning on all nodes if and only if it does not compare with null where that fails. |
| AqlTerms.FlipIsReverse | resotocore/core/constants.py:6-11 | The flipped operator on values stored in reverse is the operator on what the user sees. |
| AqlTerms.SortExact | resotocore/core/db/arango_query.py:441-450 | Sorting by the stored value in the reversed order agrees with the user's order if and only if the kind keeps its order or the property is missing on both nodes or on neither. |
| AqlTerms.InSubnetSelects | resotocore/core/db/arangodb_functions.py:16-35 | The in_subnet filter selects exactly the nodes whose address has the network's prefix. |
| AqlTerms.HasKeyExact | resotocore/core/db/arangodb_functions.py:38-53 | has_key with a list of names means that all are present if and only if none of several is a system attribute, or a single one is looked up by the database as if it were not in a list. |
| AqlCompiler.Compiler.BindVar | resotocore/core/db/arango_query.py:71-80 | Takes the next counted name, which is new, and overwrites nothing. |
| AqlCompiler.Compiler.BindBySize | resotocore/core/db/arangodb_functions.py:33-53 | Takes the name given by the number of variables, which is new, and overwrites nothing. |
| AqlCompiler.Compiler.PredicateTerm | resotocore/core/db/arango_query.py:127-151 | Leaves the expression and the state that the term proofs are about. |
| AqlCompiler.Compiler.IsKind | resotocore/core/db/arango_query.py:158-167 | The loop over the kinds binds each and raises at the first unknown one. |
| AqlCompiler.Compiler.HasKeyTerm | resotocore/core/db/arangodb_functions.py:38-53 | Binds the single name as it was given, or the list of names. |
| AqlCompiler.Compiler.InSubnetTerm | resotocore/core/db/arangodb_functions.py:16-35 | Binds the masked network address, or raises. |
| AqlCompiler.Compiler.TermFilter | resotocore/core/db/arango_query.py:172-190 | Compiling a whole tree in place leaves exactly the specified expression, counters and bind variables. |
| AqlQueries.NextCrsFresh | resotocore/core/db/arango_query.py:71-77 | next_crs never returns a cursor that was issued before. |
| AqlWellFormed.QueryWellFormed | resotocore/core/db/arango_query.py:48-53 | For every query, through merges, sub-queries, with clauses and navigations: every placeholder is bound, no cursor is declared twice, and every variable is in scope where it is used and declared once if and only if every tagged part filters and the names of merged ancestors do not collide. |
| AqlMerges.QueryFits | resotocore/core/db/arango_query.py:452-477 | The same for a sub-query compiled in the middle of another query: it declares only names issued since, overwrites no binding and is well scoped under the same condition. |
| AqlMerges.MergeFits | resotocore/core/db/arango_query.py:192-258 | The merge of any number of sub-queries keeps their cursors apart, and is well scoped if and only if they are. |
| AqlPieces.WithFits | resotocore/core/db/arango_query.py:302-348 | The nested cursors of a with clause are new at every depth, and in scope where they are counted. |
| AqlPieces.NavigateFits | resotocore/core/db/arango_query.py:350-390 | A navigation in one or both directions uses only cursors in scope. |
| AqlPieces.AncestorsFits | resotocore/core/db/arango_query.py:405-439 | The ancestor lookups bind new variables, and declare every ancestor once and before it is merged if and only if the names are distinct, none is `node`, and with a lookup none is `ancestor_nodes` and none but the last looked up is `p`. |
| AqlSelections.QuerySelects | resotocore/core/db/arango_query.py:48-53 | A query is refused exactly when a term in its text or a sub-query is. If it compiles, every FILTER at any depth lets through exactly the WellTyped nodes its Safe term means, and in a with clause the root as well, and the placeholders of the ancestor lookups have their values, under the bind variables of the finished query. |
| AqlFlows.QueryFilters | resotocore/core/db/arango_query.py:48-53 | For every query whose text is well scoped: the FILTERs of the text in their order are exactly those the query asks for, of parts, with clauses, merges and sub-queries, each with its term, its root and its input, followed through all variables from the collection, with loops over lists and traversals from single rows; the text returns what the query asks for; it is refused exactly when one of these terms or a sub-query is; and every FILTER means its term as in QuerySelects. |
| AqlFlows.WithFlows | resotocore/core/db/arango_query.py:302-348 | In a with clause every level traverses from what the level above lets through, and its filter has the root of the clause beside the term. |
| AqlFlows.NavigateFlows | resotocore/core/db/arango_query.py:350-390 | A navigation reaches its range of steps from every row of its input, or from the one row a sub-query starts with; in both directions, the ways in, and the ways out from at least one step. |
| AqlFlows.MergeFlows | resotocore/core/db/arango_query.py:192-258 | Every sub-query of a merge starts from the nodes of the outer query, and the merged result is made of these nodes and the results of all sub-queries. |
| AqlFlows.SubQueryStarts | resotocore/core/db/arango_query.py:199-203 | A sub-query that passes the test for a navigation at its start goes on from a list, without looping over the single row it starts with, if and only if it has the navigation and no limit. |
| AqlFlows.AncestorsFlow | resotocore/core/db/arango_query.py:405-439 | Every ancestor is the node's own reference of that kind if it is resolved already; the others are looked up on the way to the root, which ends at the first of them and keeps those of any of their kinds, and each is picked by its own kind. |
| Durations.CombineDurations | resotocore/core/durations.py:39-43 | The loop sums the magnitudes and takes the sign of the first element. |
| Durations.UnitPlus | resotocore/core/durations.py:46-48 | Ordered choice picks the whole unit name that was written, with its seconds, whatever may follow it. |
| Durations.PhraseParses | resotocore/core/durations.py:46-52 | Every duration written as numbers and unit names, in any order, spacing and separation, is read as the sum of its parts; a leading minus counts unless the first part is zero. |
| DeltaStrings.DeltaToStr | resotolib/resotolib/utils.py:168-216 | The loop over the units prints the minutes, rounded up, as weeks, days, hours and minutes without zeros. |
| DeltaStrings.ParseDelta | resotolib/resotolib/utils.py:219-248 | The loop over the chunks gives the seconds of the last count of each unit, and nothing where the source raises. |
| DeltaStrings.DeltaRaises | resotolib/resotolib/utils.py:219-248 | parse_delta raises if and only if it finds no count with something behind it, or one whose unit is the start of no known name. |
| DeltaStrings.DurationRoundTrip | resotolib/resotolib/utils.py:168-216 | resotocore reads what resotolib prints, for every number of seconds, as its magnitude rounded up to a minute with the sign kept. |
| DeltaStrings.DeltaRoundTrip | resotolib/resotolib/utils.py:219-248 | parse_delta reads it as the rounded magnitude. |
| DeltaStrings.ReversibleExactly | resotolib/resotolib/utils.py:169-172 | parse_delta reverses delta_to_str if and only if the delta is a whole number of minutes and not negative. |
| DeltaStrings.ParsersAgree | plugins/cleanup_untagged/resoto_plugin_cleanup_untagged/__init__.py:35-39 | On counts with units, zero or not, the two parsers agree if and only if every count that a later count of the same unit replaces is zero. |
| SplitEsc.SplitEscaped | resotolib/resotolib/utils.py:258-276 | The loop returns the parts that the specification reads from the front, for every delimiter without a backslash. |
| SplitEsc.CountEscapes | resotolib/resotolib/utils.py:268-269 | Counting backslashes back over the whole string stops behind the last delimiter. |
| SplitEsc.SplitJoin | resotolib/resotolib/utils.py:258-276 | Splitting the joined text gives back every non-empty list of strings. |
| SplitEsc.JoinSplit | resotolib/resotolib/utils.py:258-276 | Joining the parts gives back every string. |
| SplitEsc.Bijection | resotolib/resotolib/utils.py:258-276 | No two strings split alike, and every non-empty list of strings is a split. |
| JsonParser.UnquotedString | resotocore/core/parse_util.py:75-98 | The loop returns the word up to the next delimiter if all its characters are allowed and one rules out a number, and fails otherwise. |
| JsonParser.QuotedParses | resotocore/core/parse_util.py:101-122 | A quoted string with the escapes of section 7 of RFC 8259 is read back. |
| JsonParser.NumberParses | resotocore/core/parse_util.py:182-192 | A number is read as a number although words are tried before it. |
| JsonParser.WordExactly | resotocore/core/parse_util.py:182-192 | A word is read as itself if and only if it does not start with true, false or null; these are read as values, and a longer word that starts with one is not read. |
| JsonParser.PlainKeyParses | resotocore/core/parse_util.py:174-178 | A key of an object is read without quotes as well. |
| JsonParser.ParseRender | resotocore/core/parse_util.py:165-193 | Every JSON text, with whitespace anywhere, is read as the value it stands for, a number with an exponent as its text, if and only if no empty object in it holds whitespace and no exponent follows a fraction or has a plus sign; otherwise it is not read. |
| JsonParser.DictLastWins | resotocore/core/parse_util.py:181 | A key of an object has the value of its last pair. |
| JsonParser.ExponentExactly | resotocore/core/parse_util.py:182-192 | Every number with an exponent is read as its own text if it has no fraction and no plus sign in the exponent, and is not read otherwise. |
| AsyncCursor.Cursor.NextFromDb | resotocore/core/db/async_arangodb.py:107-117 | Returns the next row across batches, or the end. |
| AsyncCursor.Cursor.NextFiltered | resotocore/core/db/async_arangodb.py:68-105 | Returns a vertex, an edge or nothing for a row and puts the edge of a row with a vertex on hold. |
| AsyncCursor.Cursor.Next | resotocore/core/db/async_arangodb.py:48-60 | Returns the first of the elements still to come and leaves the others, none lost or repeated. |
| AsyncCursor.Cursor.Drain | resotocore/core/db/async_arangodb.py:48-60 | Reading to the end returns exactly the elements that the rows yield, however they are batched. |
| AsyncCursor.FirstSights | resotocore/core/db/async_arangodb.py:68-105 | Row by row, the elements are the transformed vertex where its id is seen first, followed by the edge if it is read and no edge read before has both the same from and the same to. |
| AsyncCursor.EdgeNames | resotocore/core/db/async_arangodb.py:86-96 | Edges name their nodes by key and their collection without the graph's name, although the length to cut is taken from the first edge only. |
| AsyncCursor.RawRows | resotocore/core/db/async_arangodb.py:56-60 | Without a transformation rows come back in order, all of them if and only if none is falsy. |
| Messages.DecodeEncode | resotocore/core/message_bus.py:52-109 | Decoding an encoded message returns it without the reserved keys of its data, so the same message if and only if it has none. |
| Messages.DecodesExactly | resotocore/core/message_bus.py:52-72 | Decoding succeeds exactly for a known kind with a type and all fields of that kind; every field is the one of that name, and a missing error reads n/a. |
| Messages.EncodeDecode | resotocore/core/message_bus.py:52-109 | A message that was decoded survives encoding and decoding. |
| MessageBus.Bus.Emit | resotocore/core/message_bus.py:222-228 | Puts the message on the queues of its type and on those for everything, as the specification does. |
| MessageBus.Bus.Subscribe | resotocore/core/message_bus.py:189-211 | Emits the connect event before the queue is listed, and keeps the lists in line with the subscriptions. |
| MessageBus.Bus.Unsubscribe | resotocore/core/message_bus.py:212-217 | Finds the queue in every list it removes it from, and emits the disconnect event after that. |
| MessageBus.Delivered | resotocore/core/message_bus.py:168-228 | Over every run an open subscription is to the channels it asked for, or to everything if it asked for none, and has received exactly the matching messages since it was entered, connect and disconnect events of others included, in order and in as many copies as it names the type, without its own connect event. |
| MessageBus.Frozen | resotocore/core/message_bus.py:212-217 | A queue that was left receives nothing more, not even its own disconnect event. |
| MessageBus.OnceExactly | resotocore/core/message_bus.py:222-228 | With distinct channels every matching message arrives once if and only if `*` is not combined with another channel. |
| MessageBus.ActiveExact | resotocore/core/message_bus.py:206-216 | With unique ids active_listener lists exactly the open subscriptions. |
| MessageBus.LeaveKeepsEntries | resotocore/core/message_bus.py:216 | Where every open subscription is listed, a subscriber that leaves keeps the entries of all others if and only if none has its id. |
| Paths.GetSet | resotocore/core/util.py:175-206 | What was set is read back, and so is everything inside it. |
| Paths.SetSet | resotocore/core/util.py:190-206 | The last value set at a path stays. |
| Paths.SetElsewhere | resotocore/core/util.py:190-206 | Setting changes nothing at an incomparable path, even where it replaces what is no dict. |
| Paths.SetSame | resotocore/core/util.py:190-206 | Setting what is there changes nothing if and only if the path is there. |
| Paths.GetDel | resotocore/core/util.py:209-224 | A deleted path and everything inside it reads as nothing. |
| Paths.DelElsewhere | resotocore/core/util.py:209-224 | Deleting changes nothing at an incomparable path, even where it blanks an emptied parent. |
| Paths.DelParent | resotocore/core/util.py:219-221 | The dict deleted from keeps its other keys or becomes null when there are none, and the dicts above it stay dicts. |
| Paths.DelAbsent | resotocore/core/util.py:213-221 | Deleting a path that is not there changes nothing if and only if no value on the way is falsy without being null. |
| NestedDicts.Node.SetAt | resotocore/core/util.py:194-202 | Setting in place gives the value of the specification and touches no dict but those of the tree and new ones. |
| NestedDicts.SetValueInPath | resotocore/core/util.py:190-206 | The same from the top, with a new dict where none is given. |
| NestedDicts.Node.DelAt | resotocore/core/util.py:212-222 | Deleting in place gives the value of the specification and touches no dict but those of the tree. |

## Left out

- RWLock: the lock is a state machine over the steps of all threads; the objects with their fields and the context managers around acquire and release are not modelled as classes.
- RWLock.WriterPreference: no fairness of `threading.Lock` is assumed, so it bounds whom a writer waits for, not for how long.
- WorkerTaskQueue: bounded queues, cancelled futures and two open attaches of one worker id are excluded, since the invariants do not hold for them.
- AqlTerms.FilterSelects: what `Safe` shut out is exact by OrderingExact and HasKeyExact but for two cases, regular expressions on a kind that is stored in reverse, which match the stored value, and an `is` without kinds, whose filter is an empty pair of brackets; how a list in HAS is treated is a parameter.
- AqlTerms: kinds are either simple, without coercion of the value, or durations stored as points in time, with points in time as numbers; array paths, regular expressions and the text of a network are left to functions that are not part of this model.
- AqlQueries: text is modelled as statements with the names they declare and use; aggregation text, the counting of with clauses, sort text inside filters, traversal depths and query cost are left out.
- AqlWellFormed.QueryWellFormed: no merged ancestor is named like one of the compiler's numbered cursors, as `m0` or `filter1` are, and the collection has a name.
- AqlPieces.WithFits: the variables and counters that COLLECT introduces at each depth, and the counting itself; one RETURN of all cursors stands for them.
- AqlFlows.QueryFilters: the collection is not named like a numbered cursor; sorting, limits, grouping and the choice of attributes do not change a flow, and a text that the database would reject for its names is left to QueryWellFormed.
- Durations: numbers are exact, where the program uses floating point, and durations are whole seconds where they are printed.
- Parsing: whitespace and digits are those of ASCII.
- SplitEsc.SplitEscaped: delimiters that contain a backslash or are empty; the bijection is for delimiters of one character.
- JsonParser.ParseRender: surrogates in escapes, and single-quoted strings, which RFC 8259 does not have.
- AsyncCursor: a row is its id, its edge fields and a document that only the transformation looks into; closing and counting are foreign calls.
- Messages.DecodeEncode: a `data` field that is no object and a type that is no text are refused, where Python's dict accepts some of them.
- MessageBus: bounded queues, cancellation and the reading side of a queue; queues are numbered and hold what was put on them.
- NestedDicts: aliasing between dicts; lists are values, since no path leads into them.
- Everything that talks to the network, to the database or to cloud providers, the command line, rendering and metrics.
- The cleanup order of resotolib/resotolib/cleaner.py and the one-shot listeners of resotolib/resotolib/event.py.
