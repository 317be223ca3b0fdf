# Barq Native: verified model of the SDK's own logic

Barq Native is a C++ layer over the `barq-core` database engine. Most of it forwards calls; this project models the parts that
hold logic of their own and proves what they do, on all inputs.

**Query builder** (`Conditions`, `Predicates`, `QueryBuilder`, `QueryMeaning`, `QueryExact`, `Where`, `Navigation`, `DirectMode`).
A `where` function runs once against a recording object. Every comparison overwrites or extends the query of one builder and
returns a copy; `&&`, `||` and `!` then change the queries of those copies. A bridge query either owns its core query (`Owned`) or
shares it with its copies (`Shared`). `Evaluate` is that program on the heap; `Compile` says what every query involved holds
afterwards, and who shares it. `Safe` is a syntactic guard on the predicate, and the main results say that a compiled query means
what the predicate says exactly inside the guard, separately for the two storage modes. The guard looks at the shape of a
predicate only: at its operators, its constants and which of its comparisons extend; where a comparison occurs twice, it is exact
for all predicates of the shape taken together. A comparison of a mixed property or of a direct link *extends* what the builder
last held; all others start from the table.

**Object graphs** (`Store`, `StoreInvariant`, `Graph`, `GraphInvariant`, `GraphFrame`, `Upsert`, `LinkAssign`, `Cells`,
`Renumber`, `SteadyGraphs`, `TwoRuns`, `Repeat`, `Holds`, `Success`, `RoundTrip`, `NullLinks`, `Sharing`, `Mirror`, `Rebuild`,
`AddDetach`, `PointerGraph`, `AddPointers`, `Database`). `add` writes a graph of objects recursively into tables, with upsert by
primary key, embedded ownership and lists of links; `detach` reads it back. The tables are rows addressed by a primary key or a
number, with links as cells; embedded rows go away with the link that owns them. The accessors follow pointers and never compare
them, so a graph is represented by its unfolding; `PointerGraph` shows that this is finite exactly for acyclic graphs, and
`AddPointers` carries the results over to objects that are pointed to more than once. While a graph is written, `Mirror` and
`Rebuild` keep track of the object every row stands for. `Cells` says what `add` makes of every cell of every row: the writes to
it, in order, with the numbers of the rows they link to; `TwoRuns` compares two runs of the same writes, and `Repeat` concludes
what adding a graph again does. `Holds` says which embedded rows stay while a graph is written, and `Success` when writing goes
through. Where a set `up` of rows is mentioned, it holds the rows that the row in question is embedded in; `Holders` computes one
for every row.

**Scheduler** (`InvocationQueue`, `Scheduler`). The libuv scheduler as interleaved steps of producers, loop thread and destructor.

**Vector indexes** (`VectorIndexes`, `DbSession`). Reconciling declared and persisted vector indexes when a database is opened and
after a client reset; write transactions with rollback; the registry of declared types.

**Notifications** (`Observation`), **schema names** (`SchemaNames`) and the **IPv4 test** (`Ipv4`).

## What is assumed of code not shown

- Core queries: conditions and `and_query` conjoin in place, `!` and `||` make new queries, copying is deep. A null link on a path
  makes the value at its end null; comparing with the null object matches null links.
- Core tables: creating an object with a primary key returns the existing row if there is one; an embedded row lives exactly as
  long as the link that owns it; creating a plain row in the table of an embedded class, setting a link to an existing embedded
  row, writing to a deleted row and inserting behind the end of a list throw. A link is written as an object key, which stands
  for the row that has it in the table linked to; writing a key that no row there has throws. So do reading by the name of a
  column that the table does not have, and reading a column as a value of another type; a link column can be read as a link to
  any class.
- Vector indexes: `add_vector_index` builds a missing index, adopts a different `ef_search`, and refuses any other difference.
- libuv: sends coalesce, a pending send is cleared before the callback starts, no callback starts on a closing handle, the close
  callback runs once.

## Where the code and its names or comments disagree

The model follows the code: `||` on two plain Booleans computes `&&` (`DirectMode.DirectMeaning`); `<` on an enum property
records `greater`, and `== nullptr` behind a link chain records `!= null` (`Conditions.RecordedMeaning`); `link != object`
outside of a query ignores the object (`DirectMode.LinkNotEqualMeaning`). Wherever another link property is the right-hand side,
the code takes the key of the object that holds it, not of the one it leads to: in comparisons in and outside of queries
(`Conditions.RecordedMeaning`, `DirectMode.LinkEqualMeaning`), in `link = other link` (`LinkAssign.AssignedLinkLeads`) and in
`push_back(other link)` (`LinkAssign.PushedLinkLeads`); tests/db/object_tests.cpp:771-773 looks at objects whose keys happen to
be the same. A null pointer that `add` writes leaves the link, one that is assigned clears it
(`LinkAssign.NullWrittenNullAssigned`). `detach` of a null link reads the row that holds the link as an object of the target
class, by the names of its columns: it may return an object that was never linked, or not end (`NullLinks.DetachEnds` and the
lemmas behind it). An object that two pointers lead to is written twice, so its links and `bool` items are in its lists twice
(`AddDetach.AddThenDetach`). A notification promises the object linked before the change, but delivers an accessor that reads
the link as it is (`Observation.OldValueSeen`). Each of these lemmas says exactly when the result is still right.

## Model

| member | source | states |
|---|---|---|
| `Conditions.RecordedSelects` | include/barq_native/rbool.hpp:52-202 | for every comparison and every chain of pending links: the relation and the value it selects by, on all objects |
| `Conditions.LessIsGreater` | include/barq_native/managed_numeric.hpp:545-548 | `<` on an enum selects the objects with greater values |
| `Conditions.NullBehindLinks` | include/barq_native/rbool.hpp:176-202 | behind links both null comparisons select the objects whose link is set |
| `Conditions.OtherLinkIsItsHolder` | include/barq_native/link.hpp:160-185 | comparing with another link selects by the object that holds it |
| `Conditions.RecordedMeaning` | include/barq_native/rbool.hpp:52-202 | a comparison is recorded with its own meaning, in all databases, iff it is neither `<` on an enum, nor `== nullptr` behind a link chain, nor with another link that does not lead to its own holder |
| `Conditions.ComparedWithHolder` | include/barq_native/link.hpp:160-163 | `link == other` selects the objects linked to the holder of the other link, and none of those it describes |
| `Predicates.SharingFacts` | include/barq_native/rbool.hpp:270-301 | which results still are the builder's own core query, and that only comparisons re-point the builder |
| `QueryBuilder.Copy` | src/barq_native/internal/bridge/query.cpp:449-455 | copying a bridge query copies or shares the core query, by storage mode |
| `QueryBuilder.RBool.Assign` | src/barq_native/internal/bridge/query.cpp:457-485 | assigning a query overwrites the core query in place or re-points to the other one, which leaves sharers alone |
| `QueryBuilder.RBool.ExtendQuery` | src/barq_native/internal/bridge/query.cpp:590-606 | an extending comparison changes the shared core query before the builder moves on to a copy |
| `QueryBuilder.RBool.ReplaceQuery` | include/barq_native/rbool.hpp:61-78 | a fresh comparison starts from the table and leaves earlier results alone |
| `QueryBuilder.RBool.AddLinkChain` | include/barq_native/rbool.hpp:43-50 | navigating a link adds it behind the pending ones |
| `QueryBuilder.RBool.Comparison` | include/barq_native/rbool.hpp:156-202 | what each kind of comparison does to the builder, the chain, the result and the query held before |
| `QueryBuilder.RBool.Negate` | include/barq_native/rbool.hpp:258-264 | negation leaves whoever shared the query untouched |
| `QueryBuilder.RBool.AndWith` | include/barq_native/rbool.hpp:295-301 | `&&` extends the left core query in place, for everyone who shares it |
| `QueryBuilder.RBool.OrWith` | include/barq_native/rbool.hpp:302-308 | `\|\|` gives the left result a query of its own |
| `QueryBuilder.Evaluate` | include/barq_native/rbool.hpp:251-308 | for every predicate and storage mode: the exact contents of the result's, the builder's and the initial core query, and exactly who shares what |
| `QueryMeaning.SatCompile` | include/barq_native/rbool.hpp:295-308 | the truth values of all conditions built, for every outcome of the comparisons |
| `QueryMeaning.SafeIsSound` | include/barq_native/rbool.hpp:251-308 | inside the guard the built condition has the Boolean meaning, whatever true condition the builder held |
| `QueryExact.CompiledMeaning` | include/barq_native/rbool.hpp:156-308 | the compiled query has the Boolean meaning for all outcomes of the comparisons iff the predicate, constants included, is safe for the storage mode |
| `QueryExact.ShapeMeaning` | include/barq_native/rbool.hpp:156-308 | whatever comparisons are put into a predicate, repeated ones included, the compiled query has the Boolean meaning iff the shape is safe |
| `QueryExact.AgreementIsSafe` | include/barq_native/rbool.hpp:156-308 | outside the guard some outcome of the comparisons tells query and predicate apart, for any state of the builder |
| `QueryExact.CompiledSelects` | include/barq_native/rbool.hpp:251-308 | a safe predicate selects exactly the objects that the comparisons it records describe, in every database; they are those it describes itself if its comparisons are faithful |
| `QueryExact.FragmentsSelect` | include/barq_native/rbool.hpp:52-308 | so do all predicates over fresh comparisons, all conjunctions mixing fresh and extending ones, and those extending only at their beginning, in both modes |
| `QueryExact.SharedSafeIsOwnedSafe` | src/barq_native/internal/bridge/query.cpp:449-466 | what is safe with shared queries is safe with owned ones |
| `QueryExact.ModesDiffer` | src/barq_native/internal/bridge/query.cpp:33-37 | `a && !mixed` selects the right objects with owned queries and none with shared ones |
| `Where.BuildQuery` | include/barq_native/results.hpp:84-94 | `where(fn)`, if the predicate is safe, selects exactly the objects described by the predicate with each comparison replaced by the one it records; faithful ones stay as they are |
| `Navigation.Session` | include/barq_native/rbool.hpp:43-107 | over any sequence of navigations and comparisons, each comparison that uses links up is recorded on its column at the end of exactly the links navigated since the last such one |
| `Navigation.NothingLeaks` | include/barq_native/link.hpp:95-101 | after a comparison only links navigated later are pending |
| `Navigation.DictionaryLeaks` | include/barq_native/rbool.hpp:206-209 | a dictionary comparison neither sees the pending links nor clears them |
| `DirectMode.DirectMeaning` | include/barq_native/rbool.hpp:302-308 | outside of a query the operators compute the Boolean meaning, for all outcomes, iff each `\|\|` is settled by constants or has an operand that is false but computed as true |
| `DirectMode.DirectShapeMeaning` | include/barq_native/rbool.hpp:302-308 | the same whatever comparisons are put in, repeated ones included |
| `DirectMode.DirectGuardIsNoDisjunction` | include/barq_native/rbool.hpp:302-308 | without constants: iff there is no `\|\|` |
| `GraphInvariant.AddKeeps` | include/barq_native/db.hpp:122-141 | `add` of any typed graph to any well-formed tables keeps them well formed (keys, live links, one owner for each embedded row), also when it throws |
| `GraphInvariant.WriteValKeeps` | include/barq_native/accessors.hpp:454-481 | every accessor call keeps the tables well formed, including the cascade of a replaced embedded row |
| `StoreInvariant.ReplaceEmbeddedKeeps` | src/barq_native/internal/bridge/obj.cpp:416-418 | replacing an embedded row drops exactly what nobody owns any more |
| `StoreInvariant.InsertEmbeddedKeeps` | src/barq_native/internal/bridge/lnklst.cpp:69-75 | inserting an embedded row into a list keeps one owner for each |
| `GraphFrame.AddFrame` | include/barq_native/accessors.hpp:316-348 | any set of rows closed under ownership that the graph does not name stays as it is |
| `RoundTrip.DetachesOnce` | include/barq_native/macros.hpp:509-519 | `detach` has one result at most |
| `RoundTrip.SeenByName` | include/barq_native/macros.hpp:509-519 | a property is read from the column of its name, if that has its type or both are links |
| `NullLinks.DetachEnds` | include/barq_native/macros.hpp:412-421 | `detach` ends on a row iff every row it comes to has a column to read each property from, by its name, and it comes to none again as the same class |
| `NullLinks.NullLinkDetaches` | include/barq_native/link.hpp:34-45 | so `detach` of a null link ends iff the row that holds it can be read as the target class in this way |
| `NullLinks.NullLinkToPlainClass` | include/barq_native/link.hpp:34-45 | for a target class without links: iff the holder has a column of the name and type of each property |
| `NullLinks.NullLinkToOwnClass` | include/barq_native/link.hpp:34-45 | a null link to the holder's own class is followed without end |
| `NullLinks.NullLinkFilledFromHolder` | tests/db/test_objects.hpp:64-83 | an `AllTypesObjectLink` without a linked object detaches with a `StringObject` filled from its own columns |
| `Sharing.AddLength` | include/barq_native/accessors.hpp:316-348 | `add` makes each list of a keyed row longer by exactly the entries of all occurrences of its key in the graph |
| `Rebuild.MirrorProps` | include/barq_native/accessors.hpp:475-479 | writing the properties of a row succeeds, and every row written on the way says what its object says, lists written again being longer |
| `AddDetach.AddThenDetach` | include/barq_native/db.hpp:122-141 | a graph with one object for each key, none of them in the tables, is added and detaches to itself iff it has no null link or element, and no key that occurs more than once has an object with links or items that are added again |
| `AddPointers.AddPointerThenDetach` | include/barq_native/accessors.hpp:454-481 | the same for an object in acyclic memory, objects there having distinct keys but being pointed to any number of times |
| `AddPointers.PointedToTwice` | include/barq_native/accessors.hpp:454-481 | an object with two pointers to one with a `bool` list comes back iff that list is empty |
| `Upsert.WriteValEffect` | include/barq_native/accessors.hpp:349-451 | one accessor call, on a row of any class, has its stated effect on its column and none on the others |
| `Upsert.UpsertEffect` | include/barq_native/accessors.hpp:316-348 | `add` on an existing row: scalars overwritten, null pointers leave the link, link lists become old ++ new (embedded: new ++ old), sets and maps merge, primitive lists are replaced, old ++ new or new ++ old |
| `Cells.AddDoes` | include/barq_native/db.hpp:122-141 | what adding any graph makes of every cell of every row, old or new, at any depth: exactly the listed writes in order, with the numbers of the rows created; and which rows that are not embedded there are afterwards |
| `Repeat.AddTwiceButNumbers` | include/barq_native/db.hpp:122-141 | adding any graph again succeeds and leaves the tables the same but for the numbers of rows iff all its objects have keys or are embedded and those with keys add nothing to a list |
| `Success.AddSucceedsIff` | include/barq_native/accessors.hpp:316-348 | `add` of any graph to any tables succeeds iff the root is not embedded, no embedded object is replaced by the parts of its own properties while there is something left to write to it, and no null element leaves a gap before an embedded one |
| `Success.SolidSucceeds` | include/barq_native/accessors.hpp:454-481 | so a graph without nulls in which no object has its own key below itself is added to any tables |
| `Success.NestedKeyFails` | include/barq_native/accessors.hpp:323-342 | a folder whose index lists another object under the folder's key is never added |
| `Success.RepeatsSucceeds` | include/barq_native/accessors.hpp:454-481 | a graph of keyed objects that only overwrite or merge is added to any tables |
| `Holds.Stays` | src/barq_native/internal/bridge/obj.cpp:416-418 | an embedded row stays while other properties are written iff they do not write again the to-one property of a keyed row that it hangs on |
| `Repeat.AddTwice` | include/barq_native/db.hpp:122-141 | adding any graph again, whatever keys it repeats, changes nothing iff the object and all it links to have primary keys and only overwriting or merging properties |
| `LinkAssign.AssignKeeps` | include/barq_native/link.hpp:108-143 | every link assignment, from an object, a pointer, null or another link, keeps the tables well formed |
| `LinkAssign.AssignSucceedsIff` | include/barq_native/link.hpp:108-143 | when each kind of assignment succeeds, on any row |
| `LinkAssign.AssignEffect` | include/barq_native/link.hpp:108-143 | where the link leads afterwards, on a row of any class; no other column changes |
| `LinkAssign.AssignFrame` | include/barq_native/link.hpp:108-143 | any set of rows closed under ownership, without the holder and the rows the object names, stays as it is |
| `LinkAssign.AssignedLinkLeads` | include/barq_native/link.hpp:112-115 | assigned from another link, a link leads where that one leads iff that one leads to the row with the key of its own holder |
| `LinkAssign.FriendOfFriend` | include/barq_native/link.hpp:112-115 | a person made a friend of another one's friend becomes a friend of that other one |
| `LinkAssign.PushBackSucceedsIff` | include/barq_native/managed_list.hpp:274-295 | `push_back` of an object succeeds, whatever the list holds, iff the object can be written and does not cut off the row that holds the list |
| `LinkAssign.SolidIsPushed` | include/barq_native/managed_list.hpp:274-295 | so an object without nulls and nested keys is pushed to any list whose row it does not name |
| `LinkAssign.PushBackEffect` | include/barq_native/managed_list.hpp:274-295 | pushing an object appends its row, and keeps the tables well formed |
| `LinkAssign.PushBackFrame` | include/barq_native/managed_list.hpp:274-295 | pushing leaves any such set of rows as it is |
| `LinkAssign.PushRowEffect` | include/barq_native/managed_list.hpp:296-313 | pushing a managed object or another link appends one row and changes nothing else; refused for embedded classes |
| `LinkAssign.PushedLinkLeads` | include/barq_native/managed_list.hpp:305-313 | pushing another link appends the row it leads to iff it leads to the row with the key of its own holder |
| `LinkAssign.DeletedRefuses` | include/barq_native/link.hpp:108-143 | on a deleted row no assignment and no `push_back` succeeds, and no other row changes |
| `PointerGraph.EndsIffRanked` | include/barq_native/accessors.hpp:454-481 | the recursion over pointers ends on every object iff the graph is acyclic |
| `PointerGraph.VisitStep` | include/barq_native/accessors.hpp:323-342 | an object is visited completely iff all it points to are, one level up |
| `Database.Db.InsertItem` | src/barq_native/internal/bridge/obj.cpp:318-324 | inserting one value at an index of a stored list |
| `Database.Db.AddItems` | src/barq_native/internal/bridge/obj.cpp:259-266 | the loop of the `bool` overload appends all values |
| `Database.Db.InsertItems` | src/barq_native/internal/bridge/obj.cpp:338-348 | the insert-at-i loops put the values in front of the old list |
| `Database.Db.SetItems` | src/barq_native/internal/bridge/obj.cpp:252-403 | how the list overloads write |
| `Database.Db.SetElems` | include/barq_native/accessors.hpp:349-360 | the loop over a set merges it into the stored one |
| `Database.Db.SetEntries` | include/barq_native/accessors.hpp:391-423 | the loop over a map merges it into the stored one |
| `Database.Db.SetVal` | include/barq_native/accessors.hpp:454-481 | the accessor of each property kind does what the specification function says |
| `Database.Db.SetProps` | include/barq_native/accessors.hpp:475-479 | the accessors of all properties run in declaration order, up to the first exception |
| `Database.Db.SetLinks` | include/barq_native/accessors.hpp:316-348 | the loop over a vector of pointers, skipping null elements |
| `Database.Db.SetElem` | include/barq_native/accessors.hpp:328-345 | one element: row, properties, then the list |
| `Database.Db.AddObject` | include/barq_native/db.hpp:122-141 | `add` changes the tables as specified and returns the row |
| `Database.Db.AssignLink` | include/barq_native/link.hpp:108-143 | link assignment changes the tables as specified |
| `Database.Db.PushToList` | include/barq_native/managed_list.hpp:274-295 | `push_back` changes the tables as specified |
| `Database.Db.PushRowToList` | include/barq_native/managed_list.hpp:296-313 | `push_back` of a managed object or another link changes the tables as specified |
| `Database.Db.Detach` | include/barq_native/macros.hpp:509-519 | `detach` of a row, read as any class, terminates wherever it can and returns the graph |
| `Database.Db.DetachVal` | include/barq_native/link.hpp:34-45 | the value of one property, links followed, null links to their holder |
| `Database.Db.DetachLinks` | include/barq_native/managed_list.hpp:179-200 | the loop over a stored list of links |
| `InvocationQueue.Queue.Push` | src/barq_native/schedulers/default_scheduler.cpp:47-51 | a pushed function is last in the queue |
| `InvocationQueue.Queue.InvokeAll` | src/barq_native/schedulers/default_scheduler.cpp:53-63 | runs what was queued once and in order; what these functions post is queued for a later call, function by function; everything ever pushed has run or is queued, in the order of the pushes |
| `InvocationQueue.PostedJoined` | src/barq_native/schedulers/default_scheduler.cpp:53-63 | the posts of one batch after another are those of the batches together |
| `Scheduler.CallbackInvokesAll` | src/barq_native/schedulers/default_scheduler.cpp:53-82 | the loop's callback, step by step, does with the queue what `InvokeAll` does |
| `Scheduler.RunKeepsInv` | src/barq_native/schedulers/default_scheduler.cpp:47-113 | in every interleaving: executed ++ rest of batch ++ queue are the pushes in lock order, later batches for later pushes, no lost wake-up, the close protocol |
| `Scheduler.Reachable` | src/barq_native/schedulers/default_scheduler.cpp:65-122 | this holds in every state reachable from a new scheduler |
| `Scheduler.InvokeNeverWaits` | src/barq_native/schedulers/default_scheduler.cpp:88-113 | other threads push and send whatever the loop does; the loop thread pushes when its own code runs |
| `Scheduler.LoopIsOneThread` | src/barq_native/schedulers/default_scheduler.cpp:53-82 | none of the loop thread's own code runs while the callback works on the queue |
| `Scheduler.NothingStartsAfterClose` | src/barq_native/schedulers/default_scheduler.cpp:74-78 | once a callback has seen the close request no function starts, `uv_close` is not called again, memory is freed once and not touched afterwards |
| `Scheduler.FreedIsUntouched` | src/barq_native/schedulers/default_scheduler.cpp:74-95 | after the close callback nothing that uses the data or the handle can happen |
| `Scheduler.OwedStepsEnd` | src/barq_native/schedulers/default_scheduler.cpp:53-82 | every step the threads owe reduces the work left |
| `Scheduler.Drains` | src/barq_native/schedulers/default_scheduler.cpp:69-113 | without new calls every run ends, with every pushed function run, or after the destructor with everything freed |
| `Scheduler.RunsInTime` | src/barq_native/schedulers/default_scheduler.cpp:47-63 | whatever is pushed meanwhile, even by running functions, a pushed function has run after a bounded number of steps of the loop |
| `Scheduler.NeverStuck` | src/barq_native/schedulers/default_scheduler.cpp:53-82 | while it has not, the loop can take a step, or a send already begun lets it |
| `VectorIndexes.AddVectorIndexFacts` | include/barq_native/db.hpp:201-206 | adding an index is refused iff it differs in identity; else it is in force, with its identity kept and no other index changed |
| `VectorIndexes.MissingFacts` | include/barq_native/db.hpp:185-218 | collecting throws iff an index differs in identity, and yields exactly the declarations not in force |
| `VectorIndexes.AddAllSucceeds` | include/barq_native/db.hpp:238-242 | writing the collected entries cannot throw, puts each in force, and changes nothing else |
| `VectorIndexes.ReconcileTypeFacts` | include/barq_native/db.hpp:220-243 | one type: fails before any transaction iff it conflicts; else all its declarations are in force, with a transaction iff there was work |
| `VectorIndexes.ReconcileAllFacts` | include/barq_native/db.hpp:173-178 | all types: succeeds iff no present type conflicts, and then all declarations are in force, after one transaction for each type that had one missing; rows and identities never change |
| `VectorIndexes.ReconcileTwice` | include/barq_native/db.hpp:168-178 | a second reconciliation opens no transaction and changes nothing |
| `VectorIndexes.ReconcileFails` | include/barq_native/db.hpp:201-216 | on failure the types before the first conflicting one keep their indexes, all others are untouched |
| `DbSession.Registry.Register` | include/barq_native/macros.hpp:595-605 | a type is registered once, with its reconciler |
| `DbSession.Registry.RegisterAll` | include/barq_native/macros.hpp:595-606 | after any registrations the reconcilers are the schemas, one to one |
| `DbSession.FirstOccurrencesFacts` | src/barq_native/internal/bridge/object_schema.cpp:133-135 | the schema list holds, for each declared name, the first declaration that has it, once |
| `DbSession.FirstOccurrencesOrder` | include/barq_native/macros.hpp:595-606 | the registered types stand in the order of these declarations |
| `DbSession.Session.Write` | include/barq_native/db.hpp:102-121 | a write block is committed whole, each table with the rows set last, or rolled back whole if it or the commit throws; no transaction stays open |
| `DbSession.Session.CollectMissing` | include/barq_native/db.hpp:185-218 | the loop over the properties of a type |
| `DbSession.Session.ReconcileOne` | include/barq_native/db.hpp:220-243 | reconciling one type, never leaving a transaction open |
| `DbSession.Session.Reconcile` | include/barq_native/db.hpp:173-178 | reconciling all types, up to the first exception; nothing on a frozen database |
| `DbSession.Open` | include/barq_native/db.hpp:77-90 | an immutable, read-only or frozen open writes nothing; any other succeeds iff nothing conflicts, and then everything declared is in force |
| `DbSession.IdleOpensDoNothing` | include/barq_native/db.hpp:86-89 | immutable, read-only and frozen opens can be left out of any run |
| `DbSession.AfterClientReset` | include/barq_native/internal/bridge/barq.hpp:211-224 | the remote database is handed over iff nothing conflicts, and then fully indexed with its rows unchanged |
| `DbSession.RunsKeepIdentity` | include/barq_native/db.hpp:201-216 | over any run of opens, row writes and client resets an index keeps everything but `ef_search` since the last reset |
| `DbSession.RunsKeepRows` | include/barq_native/internal/bridge/barq.hpp:211-224 | over any such run the tables and rows are those of the writes and resets alone |
| `DbSession.RunsEndInForce` | include/barq_native/internal/bridge/barq.hpp:211-224 | after a writable open or a reset that reconciles everything declared is in force, and stays so until the next reset |
| `DbSession.ConflictsStay` | include/barq_native/db.hpp:86-89 | until a reset a conflicting type conflicts on every later open; one with all its indexes never will |
| `Observation.ValueForNameFinds` | include/barq_native/schema.hpp:254-289 | the lookup by name finds the value iff no collection is declared at or before the property |
| `Observation.ValueForUnknownName` | include/barq_native/schema.hpp:265-275 | any other name yields nothing |
| `Observation.ChangedNamesFacts` | include/barq_native/observation.hpp:85-96 | exactly the changed properties are named, each once, in schema order |
| `Observation.Observer.PopulateProperties` | include/barq_native/observation.hpp:73-97 | when the names and the deletion flag are set |
| `Observation.Observer.ReadValues` | include/barq_native/observation.hpp:99-115 | one value for each name, none without names |
| `Observation.Observer.Before` | include/barq_native/observation.hpp:117-119 | the old values, in step with the names, for calls in any order |
| `Observation.Observer.After` | include/barq_native/observation.hpp:121-134 | what is delivered, and that names and values are reset |
| `Observation.Observer.ForwardChanges` | include/barq_native/observation.hpp:156-172 | one change for each name, old and new values indexed in bounds |
| `Observation.Observer.Round` | include/barq_native/observation.hpp:117-134 | one change set: a deletion, nothing, or the changed properties with old and new values |
| `Observation.Observe` | include/barq_native/observation.hpp:117-138 | over every run of changes and errors nothing carries over but the deletion flag |
| `Observation.DeletedForGood` | include/barq_native/observation.hpp:121-126 | once a deletion was seen, every later change delivers a deletion |
| `Observation.DeliveredValues` | include/barq_native/observation.hpp:109-114 | exactly the changed properties are delivered, in schema order, each with what was read of it before and after: its value, an accessor for a link, nothing at or behind a collection |
| `Observation.NothingDelivered` | include/barq_native/observation.hpp:73-134 | an empty change set, or one without a changed property, delivers nothing; a deletion delivers itself |
| `Observation.OldValueSeen` | include/barq_native/schema.hpp:273-284 | the block finds the old value of a property iff no collection stands at or before it, and it is no to-one link or its link did not change |
| `Observation.ChangedLinkLosesOldValue` | include/barq_native/notifications.hpp:91-97 | of a link that changed the block finds the new target as the old value |
| `Ipv4.ReadSegments` | src/barq_native/internal/networking/network_transport.cpp:87-93 | what the `getline` loop yields: a last empty segment is dropped |
| `Ipv4.IsValidIpv4` | src/barq_native/internal/networking/network_transport.cpp:86-108 | accepts exactly four octets of one to three digits up to 255, separated by dots, with at most one more dot behind |
| `Ipv4.SegmentsAreAddress` | src/barq_native/internal/networking/network_transport.cpp:94-107 | the checks on the segments describe exactly that language |
| `Ipv4.PrintedAccepted` | src/barq_native/internal/networking/network_transport.cpp:86-108 | the printed form of any four octets is accepted |
| `Ipv4.PrintedOctets` | src/barq_native/internal/networking/network_transport.cpp:96-105 | of the octets accepted, those without leading zeros are the printed ones, the `dec-octet` of section 3.2.2 of RFC 3986 |
| `Ipv4.TrailingDot` | src/barq_native/internal/networking/network_transport.cpp:91-94 | a trailing dot makes no difference |
| `SchemaNames.ClassSchema.constructor` | include/barq_native/schema.hpp:155-174 | the names in order, and the last property marked as primary key |
| `SchemaNames.PrimaryKey` | include/barq_native/schema.hpp:194-209 | the first property marked as primary key |
| `SchemaNames.SameKey` | include/barq_native/schema.hpp:211-233 | both are one property iff at most one is marked |

## Left out

- QueryExact.CompiledMeaning: the direction from meaning to guard is for predicates in which no comparison occurs twice, because otherwise a condition on the text cannot be exact (`a || !a` is right however it is compiled); QueryExact.ShapeMeaning, for all predicates of a shape, and QueryExact.CompiledSelects have no such restriction.
- QueryExact.AgreementIsSafe: has the same restriction, for the same reason.
- DirectMode.DirectMeaning: has the same restriction, for the same reason; DirectMode.DirectShapeMeaning has not.
- Values kept by user code and used twice in a predicate; mixing plain Booleans into a query.
- `contains` and the other string operators, which take the same path as the fresh comparisons; links through dictionaries.
- What a mixed comparison behind a link chain means: it is recorded and uses up the chain like any other, but core compares the end of the chain through column expressions that are not shown.
- AddDetach.AddThenDetach: a graph that has two different objects under one key, or keys that are in the tables already, is covered by the upsert results only.
- DbSession.Session.ReconcileOne: a commit that throws is part of `Write` but not of reconciliation.
- `set<T*>` and `map<string, T*>` properties, `remove`, `insert` of several objects.
- How a core stores rows: keys of embedded and plain rows are numbers handed out in order, and primary keys are rows' own addresses.
- Destroying the scheduler on another thread than the loop's, or while a call to `invoke` is under way.
- The `modifications_new` and move sets of a change set; collection and results notifications.
- Results, sorting, `knn`, sync, subscriptions, networking other than the address test, and JSON output.
