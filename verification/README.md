# Models of the hub kernel

The hub kernel runs typed data graphs: people edit a graph on a canvas, the kernel estimates and executes it, and
durable background work (fan-out over partitions, distribution reports, calls to external providers) survives crashes
and competing workers. This project models the parts of `kernel/hub` whose correctness is not visible in any one
function, and proves for every input, run or reachable state what those parts are meant to keep.

`dafny verify dfyconfig.toml` checks the project. Each module names the part of the program it follows:

- **Bounded fan-out** (`Partition`, `FanoutModel`, `FanoutLinks`, `FanoutSafety`, `FanoutRuns`, `FanoutProgress`,
  `FanoutAudit`, `FanoutContent`, `FanoutStore`). Plans, units, attempts, four global slots, artifacts and references
  are one value. Every transaction is a function on it that either commits or raises and changes nothing; steps of any
  number of workers interleave, and between them the rest of the system may do whatever it is allowed to do
  (`Environment`). `FanoutStore` is the same protocol as a class over mutable tables; each method is proved equal to
  its function.
- **Budgeted examples** (`Json`, `Renderings`, `PreflightModel`, `PreflightCost`, `PreflightReader`). What a JSON text
  costs, what the preflight charges for an Arrow value, what the conversion spends, and why the first covers the second,
  down to the texts of floats, decimals, times and UUIDs.
- **Graphs** (`Graphs`, `Dfs`, `Layout`): upstream reachability, the explicit-stack search and column layout.
- **Static analyses** (`Operators`, `Grain`, `Estimate`): what the engine's operators may produce from relations, and
  whether inferred keys and estimated sizes are true of it.
- **Checker and editor** (`Checker`, `Editor`, `EditorRuns`).
- **Histograms** (`Buckets`): temporal and numeric buckets, their counts, and the filters that drill into them.
- **Login limiter** (`Limiter`, `LimiterRuns`, `LimiterClass`).
- **Report life cycle** (`Reports`, `ReportStore`).
- **Permits** (`ProviderPermits`, `ExternalWait`, `ExternalWaitStore`).

## Where the code differs from what is promised

Each of these is a theorem, with the exact condition under which the promise holds:

- `restore_audit` counts every reference on a committed artifact, reader leases included. It passes exactly when nobody
  but the units holds a reference there (`FanoutAudit.AuditExactly`); the lease a gather takes while it reads a child
  makes it raise (`FanoutAudit.ReaderLeaseBreaksAudit`), at the end of some run from any start with a checkpoint to fan
  out (`FanoutAudit.SomeRunBreaksAudit`).
- An inferred grain is sound for a node exactly when the node's configuration is read as the engine reads it
  (`Grain.StepIsSoundExactly`). It is not for a select written under `expr`, a group list written under `group`, a
  library transform in another mode, or a bypassed re-keying node.
- A node's size estimate is right, for all its output ports and in every run on rightly estimated inputs, exactly when
  the node is counted alike (`Estimate.NodeIsRightExactly`). These are not: a negative sample; a chart that counts an
  empty input; as an exact count, a sample without a number; a bypassed section or plugin node, which the engine runs
  all the same (`kernel/hub/executors/engine.py:1337-1361`); a bypassed join whose first stored edge is not on port `a`
  (`Estimate.BypassedJoinMisleads`); and a node of several output ports that was counted, because counts are kept by
  node and not by port. An assertion's count of violations is given to the port that passes every row
  (`Estimate.MeasuredAssertMisleads`), and the profile of one port of a section to all its ports
  (`Estimate.MeasuredSectionMisleads`).
- Known bytes are rows times width exactly when nothing is unknown that enters the product, or there are no rows, or the
  node is as wide as the node that its estimate was taken over from (`Estimate.BytesAreRowsTimesWidth`). A bypassed
  union of a narrow and a wide input is not (`Estimate.TakenOverBytesFallShort`).
- A limiter forgets attempts unless its entries live at least as long as a full refill takes
  (`LimiterRuns.NeverForgetsExactly`).
- A window is bounded by the capacity and the refill exactly under the same condition
  (`LimiterRuns.WindowsBoundedExactly`). The constructor accepts any positive time to live; with a shorter one, two
  whole bursts a time to live apart are all allowed (`LimiterRuns.TwoBurstsExceed`).
- A retry hint is tight until the entry expires, and from then on it is not (`LimiterRuns.RetryHintIsTight`).
- Repeating a report completion returns the same envelope exactly when no cancellation had been requested
  (`Reports.ReplayReturnsTheSame`).
- `layout` says that a cyclic graph degrades to one column; it does exactly when no edge joins two different nodes
  (`Layout.OneColumnExactly`). Two nodes that feed each other land in columns 1 and 2 (`Layout.LoopSpreads`).
- A node or an edge added under an id that is already taken may be accepted by the editor and is reported by the
  checker. An accepted edit leaves nothing but unwired joins to report exactly when the id is fresh
  (`EditorRuns.AcceptedEditExactly`).
- A claim that raises in the external-wait recovery pass strands its permit for good (`ExternalWait.StrandedForGood`).
  After a run the permits can all come back exactly when no claim has raised (`ExternalWait.PermitsComeBackExactly`).
- A submit that queues its work and then raises has the provider permit released by the caller and by the worker.
  Permits are conserved all along exactly when no read releases a second time while another read's permit is
  outstanding (`ProviderPermits.PermitsAreConserved`); with two reads one such release is enough to admit a ninth
  (`ProviderPermits.QueuedFailureOverReleases`), and with one read the semaphore's bound refuses it
  (`ProviderPermits.LoneDoubleReleaseIsRefused`).

## Model

| member | source | states |
|---|---|---|
| Partition.ComputeRanges | kernel/hub/bounded_fanout.py:93-105 | the loop refuses exactly the negative row counts, and otherwise computes the closed-form ranges |
| Partition.RangesTile | kernel/hub/bounded_fanout.py:93-105 | the ranges tile all rows without gap or overlap, there are one to four, and their sizes differ by at most one |
| Partition.SlicesGlue | kernel/hub/bounded_fanout_tasks.py:194-230 | slices of tiling ranges, concatenated in order, are the covered stretch of the checkpoint |
| FanoutModel.FirstFree | kernel/hub/bounded_fanout.py:285-291 | the slot found is the lowest-numbered one that is free or whose lease is over; none is found only when every slot is held by a running lease |
| FanoutLinks.Bijection | kernel/hub/bounded_fanout.py:172-187 | held slots, running attempts and active units correspond one to one, with equal tokens and leases; a unit is claimed exactly when it is active |
| FanoutLinks.AtMostFourRun | kernel/hub/bounded_fanout.py:81-92 | at most four attempts run over all plans, and no unit has two |
| FanoutLinks.EvictKeepsLinks | kernel/hub/bounded_fanout.py:292-301 | taking over an expired slot keeps the correspondence of slots, attempts and units |
| FanoutLinks.ClaimKeepsLinks | kernel/hub/bounded_fanout.py:273-318 | a claim, through fencing, eviction and occupation, keeps the correspondence |
| FanoutLinks.RetryKeepsLinks | kernel/hub/bounded_fanout.py:439-443 | fencing the active attempt in a retry keeps the correspondence |
| FanoutSafety.CommitEffect | kernel/hub/bounded_fanout.py:373-427 | what a commit had checked (live claim, expected rows and schema, children done, sole current writer) and the only rows it changes |
| FanoutSafety.ApplyKeeps | kernel/hub/bounded_fanout.py:188-497 | every transaction, and every step of the rest of the system, keeps the invariant and undoes no done unit, no ended attempt and no expiry |
| FanoutSafety.PurgeKeeps | kernel/hub/bounded_fanout.py:458-497 | purging any set of parents keeps the invariant for the others |
| FanoutRuns.SlotDiscipline | kernel/hub/bounded_fanout.py:253-372 | in every state of every run the slot correspondence holds and at most four attempts run |
| FanoutRuns.DoneIsFinal | kernel/hub/bounded_fanout.py:265-457 | a done unit keeps its row, evidence included, until its parent is purged |
| FanoutRuns.FencedForever | kernel/hub/bounded_fanout.py:319-356 | an attempt that left running keeps its status, and an expired lease is never revived |
| FanoutRuns.StaleIsPowerless | kernel/hub/bounded_fanout.py:319-372 | an attempt once fenced, ended or expired can never again commit, end or extend anything, whatever tokens it shows |
| FanoutRuns.CommitNeverReplays | kernel/hub/bounded_fanout.py:383-404 | the replay branch of commit is unreachable: a commit that finishes wrote new evidence on a claimed unit |
| FanoutRuns.OneCommitPerUnit | kernel/hub/bounded_fanout.py:383-427 | at most one attempt per unit is ever done, and no attempt of a done unit runs |
| FanoutProgress.FreeSlotExactly | kernel/hub/bounded_fanout.py:285-291 | a slot can be had exactly when fewer than four attempts hold leases that still run |
| FanoutProgress.ClaimBlockedExactly | kernel/hub/bounded_fanout.py:253-318 | in every reachable state a permitted claim fails exactly when another owner's live attempt holds the unit, or four others are live; an expired attempt never blocks its unit or any other |
| FanoutProgress.LiveClaimEnds | kernel/hub/bounded_fanout.py:361-427 | in every reachable state giving up a live claim is never refused, and committing is refused exactly for wrong rows, schema or artifact; the second look at a gather's children cannot fail |
| FanoutAudit.AuditExactly | kernel/hub/bounded_fanout.py:498-542 | in every reachable state the audit passes exactly when no outside reference is on a committed fan-out artifact |
| FanoutAudit.UnitSetComplete | kernel/hub/bounded_fanout.py:510-515 | every plan has one gather and one child per range |
| FanoutAudit.AuditNeverRaises | kernel/hub/bounded_fanout.py:498-542 | while nobody else takes a reference on a committed fan-out artifact, no run makes the audit raise |
| FanoutAudit.ReaderLeaseBreaksAudit | kernel/hub/metadb.py:17790-17809 | a read lease on a committed artifact, an allowed step, makes the audit raise |
| FanoutAudit.SomeRunBreaksAudit | kernel/hub/bounded_fanout.py:498-542 | from any start with a committed checkpoint: planned, claimed, written and committed, the first child passes the audit; leased to a reader, it makes the audit raise |
| FanoutContent.WorkerKeeps | kernel/hub/bounded_fanout_tasks.py:129-243 | a worker's own step touches no table, and what it has read or projected so far is its part of the checkpoint |
| FanoutContent.GatherDeliversCheckpoint | kernel/hub/bounded_fanout_tasks.py:194-243 | in every run with any interleaving, once the gather is done all children are, ranges tile, counts add up, and both the child results in order and the gathered artifact are the checkpoint's rows |
| FanoutStore.Store.ReleaseSlot | kernel/hub/bounded_fanout.py:179-187 | clears the slot only if it still belongs to this attempt and token |
| FanoutStore.Store.EndAttempt | kernel/hub/bounded_fanout.py:361-372 | the status and then the slot, as the model ends an attempt |
| FanoutStore.Store.CreateOrReopenPlan | kernel/hub/bounded_fanout.py:188-238 | the tables and the result are those of the model's transaction, raised or committed |
| FanoutStore.Store.AddUnits | kernel/hub/bounded_fanout.py:228-236 | the loop adds one pending child per range, then the gather |
| FanoutStore.Store.SetPaused | kernel/hub/bounded_fanout.py:243-252 | pausing and resuming, as the model's transaction |
| FanoutStore.Store.ClaimUnit | kernel/hub/bounded_fanout.py:253-318 | claiming, in place, as the model's transaction; a raise leaves every table as it was |
| FanoutStore.Store.OpenAttempt | kernel/hub/bounded_fanout.py:285-318 | the second half of a claim: free slot, eviction, new attempt |
| FanoutStore.Store.FindFree | kernel/hub/bounded_fanout.py:285-291 | the scan finds the first slot in slot order that is free or expired |
| FanoutStore.Store.Evict | kernel/hub/bounded_fanout.py:292-301 | fences the stale holder, frees its slot and returns its unit to pending |
| FanoutStore.Store.Occupy | kernel/hub/bounded_fanout.py:305-316 | attempt, slot and unit point at one another, with one token and one lease |
| FanoutStore.Store.HeartbeatAttempt | kernel/hub/bounded_fanout.py:319-337 | extends attempt and slot together, or reports a lost claim and changes nothing |
| FanoutStore.Store.Finish | kernel/hub/bounded_fanout.py:361-372 | failing and cancelling a live claim, as the model's transaction |
| FanoutStore.Store.CommitUnitEvidence | kernel/hub/bounded_fanout.py:373-427 | committing evidence in place, as the model's transaction |
| FanoutStore.Store.RetryUnit | kernel/hub/bounded_fanout.py:428-457 | retrying in place, as the model's transaction |
| FanoutStore.Store.PurgeForDelete | kernel/hub/bounded_fanout.py:458-497 | the loops over attempts and units give the model's purge |
| FanoutStore.Store.ReleaseAll | kernel/hub/bounded_fanout.py:465-472 | every attempt of the purged parents gives its slot back, and no other attempt's slot is touched |
| FanoutStore.Store.DropReferences | kernel/hub/bounded_fanout.py:473-486 | exactly the owner references of committed units of the purged parents are dropped |
| FanoutStore.Store.AuditPlan | kernel/hub/bounded_fanout.py:502-540 | one plan of the audit passes exactly when the declarative audit of that plan holds |
| FanoutStore.Store.RestoreAudit | kernel/hub/bounded_fanout.py:498-542 | reports exactly when the audit holds, with each plan's number of done units |
| Json.EscapedJsonStringSize | kernel/hub/distribution_report_insights.py:583-592 | the one-pass size is the length of the JSON string that RFC 8259 section 7 requires |
| Json.EscapeRoundTrip | kernel/hub/distribution_report_insights.py:583-592 | the text that is sized is legal between quotes and reads back as the same bytes |
| Json.IntTextBound | kernel/hub/distribution_report_insights.py:651-653 | every 64-bit integer, signed or not, fits the fixed charge of an integer |
| Renderings.FloatTextBound | kernel/hub/distribution_report_insights.py:654-656 | the text of a double is at most twenty-four characters, eight less than its charge |
| Renderings.DecimalStrBound | kernel/hub/distribution_report_insights.py:657-662 | the text of a decimal, with a point or an exponent, is no longer than its precision, its scale and sixteen |
| Renderings.IsoText | kernel/hub/distribution_report_insights.py:663-667 | a date, time or both, with nanoseconds and an offset, fits sixty-four characters that need no escape |
| Renderings.UuidText | kernel/hub/distribution_report_insights.py:668-672 | a UUID is thirty-six characters that need no escape |
| PreflightCost.RenderedFits | kernel/hub/distribution_report_insights.py:651-672 | whatever the leaf, its text is no longer than its fixed charge |
| PreflightCost.SizeIsExact | kernel/hub/distribution_report_insights.py:865-878 | the size in a value's cost is the length of its encoded text |
| PreflightCost.ConversionIsExact | kernel/hub/distribution_report_insights.py:779-817 | a conversion succeeds exactly when the value is not too deep and its nodes and text fit, and then spends exactly its cost |
| PreflightCost.PreflightIsExact | kernel/hub/distribution_report_insights.py:630-741 | a preflight that succeeds has charged exactly the value's price, left nodes and response non-negative, and admitted its depth |
| PreflightCost.PriceCovers | kernel/hub/distribution_report_insights.py:630-741 | the price of an admitted value covers nodes and encoded bytes of whatever it materialises to |
| PreflightCost.RowConverts | kernel/hub/distribution_report_insights.py:744-817 | an admitted row that materialises always converts, within the nodes and the response that were charged |
| PreflightCost.UnchargedText | kernel/hub/distribution_report_insights.py:779-817 | a non-finite float spends text for which the preflight charged none; only the response charge covers it |
| PreflightReader.ExampleBudget.Text | kernel/hub/distribution_report_insights.py:510-530 | spending text decrements the field or raises, as the model's step |
| PreflightReader.PreflightBudget.constructor | kernel/hub/distribution_report_insights.py:533-541 | the probe starts from the example budget and the remaining response and material bytes |
| PreflightReader.PreflightBudget.Node | kernel/hub/distribution_report_insights.py:533-560 | entering a node charges it, or refuses when too deep or out of nodes |
| PreflightReader.PreflightBudget.Text | kernel/hub/distribution_report_insights.py:533-560 | charging text decrements its field or raises |
| PreflightReader.PreflightBudget.Response | kernel/hub/distribution_report_insights.py:533-560 | charging response bytes decrements its field or raises |
| PreflightReader.PreflightBudget.Material | kernel/hub/distribution_report_insights.py:533-560 | charging materialised bytes decrements its field or raises |
| PreflightReader.PreflightText | kernel/hub/distribution_report_insights.py:595-610 | the three charges of a text |
| PreflightReader.PreflightBinary | kernel/hub/distribution_report_insights.py:613-627 | the charges of a binary value |
| PreflightReader.PreflightScalar | kernel/hub/distribution_report_insights.py:595-663 | the charges for a leaf, in the order in which the code makes them |
| PreflightReader.PreflightValue | kernel/hub/distribution_report_insights.py:630-741 | the recursive walk over lists, structs and maps charges as the model does, and stops at the same refusal |
| PreflightReader.PreflightRow | kernel/hub/distribution_report_insights.py:744-762 | a row is charged from a fresh probe, leaving the example budget alone |
| PreflightReader.JsonSafeScalar | kernel/hub/distribution_report_insights.py:779-817 | what converting a leaf returns and spends |
| PreflightReader.JsonSafeExample | kernel/hub/distribution_report_insights.py:779-817 | the recursive conversion spends and returns what the model does |
| PreflightReader.ReadKeepsBounds | kernel/hub/distribution_report_insights.py:843-879 | reading a row keeps the text spent within the size so far less 1024, and a kept row always fits the response |
| PreflightReader.ReadRow | kernel/hub/distribution_report_insights.py:850-878 | one turn of the loop never takes the budget-exceeded or the oversize return |
| PreflightReader.BoundedArrowRows | kernel/hub/distribution_report_insights.py:843-879 | the loop keeps every row that is admitted and materialises, and skips those whose text, names or times do not; both early returns are unreachable; the answer fits |
| Graphs.Incoming | kernel/hub/graph.py:213-214 | exactly the edges into a node |
| Graphs.Lookup | kernel/hub/graph.py:41-42 | a node is found exactly when its id is listed, and is one of that id |
| Graphs.UpstreamIsEarlier | kernel/hub/graph.py:272-292 | in a parents-first order whatever is upstream of a node is listed no later, and strictly upstream strictly earlier |
| Graphs.NoCycleAboveListed | kernel/hub/graph.py:272-292 | no node of a parents-first order has a cycle upstream |
| Dfs.Visit | kernel/hub/graph.py:272-292 | the explicit-stack search ends, reports a cycle exactly when one is upstream of the root, and otherwise appends exactly the unlisted upstream nodes, parents first, the root last |
| Dfs.Explore | kernel/hub/graph.py:278-290 | one turn keeps the search consistent, or has found a cycle upstream of the root |
| Dfs.PushParents | kernel/hub/graph.py:285-290 | pushes the unmet parents in order, and stops at a grey one |
| Dfs.Resolve | kernel/hub/graph.py:295-303 | turns ids into nodes, or reports an id that is no node |
| Dfs.UpstreamChain | kernel/hub/graph.py:295-303 | the chain is the target and everything upstream of it, each once, parents first, target last; a cycle is raised exactly when there is one upstream |
| Dfs.TopoOrder | kernel/hub/graph.py:362-368 | the order lists everything that feeds a node, parents first; a cycle is raised exactly when there is one |
| Dfs.TopoIsPermutation | kernel/hub/graph.py:362-368 | with distinct ids and no dangling edge the order is a permutation of the nodes |
| Dfs.IsAcyclic | kernel/hub/graph.py:371-376 | without dangling edges, true exactly when no node is strictly upstream of itself |
| Layout.Score | kernel/hub/graph.py:30-32 | the loop scores nodes one after the other, each from the scores so far |
| Layout.ScoresAreFinal | kernel/hub/graph.py:26-32 | parents first, each node is one column right of its deepest parent in the final layout |
| Layout.Stack | kernel/hub/graph.py:33-38 | the loop with a counter per column gives every node its column and its row |
| Layout.Place | kernel/hub/graph.py:19-38 | every node is placed at its column and below the earlier nodes of that column; a cyclic graph is scored in list order; only a dangling edge raises |
| Layout.PlacesAreDistinct | kernel/hub/graph.py:33-38 | no two nodes share a position |
| Layout.EdgesGoRight | kernel/hub/graph.py:30-32 | an edge between nodes goes at least one column to the right |
| Layout.NoLongerPath | kernel/hub/graph.py:19-32 | no path upstream of a node is longer than its column |
| Layout.PathOfThatLength | kernel/hub/graph.py:19-32 | and a path from a root is exactly that long |
| Layout.ScoredLast | kernel/hub/graph.py:30-32 | scored in any order, a node lands in column 0 exactly when it has no parent but itself |
| Layout.OneColumnExactly | kernel/hub/graph.py:22-32 | scored in list order, all nodes land in one column exactly when no edge joins two different nodes |
| Layout.LoopSpreads | kernel/hub/graph.py:22-32 | two nodes that feed each other are a cycle, and are scored 1 and 2 |
| Operators.DrawingKeepsKey | kernel/hub/executors/engine.py:1380-1440 | rows drawn from a relation, in any order, keep its keys |
| Operators.DrawingNeverGrows | kernel/hub/executors/engine.py:1363-1440 | and are no more than its rows |
| Grain.ProjectionKeepsKey | kernel/hub/grain.py:36-47 | a projection that keeps every key column bare and unshadowed keeps the key |
| Grain.ScoringKeepsKey | kernel/hub/grain.py:65-66 | vector search, which drops rows and appends a score, keeps the key |
| Grain.FaithfulStep | kernel/hub/grain.py:58-83 | where the configuration is read as in the engine, a node's grain holds of every output it may produce from an input of which the parent's grain holds |
| Grain.UnfaithfulSelect | kernel/hub/grain.py:67-70 | a select whose claimed column the engine's list loses or shadows is unsound: some input refutes it |
| Grain.UnfaithfulTransform | kernel/hub/grain.py:71-72 | a row filter by its own mode whose library version does something else is unsound |
| Grain.UnfaithfulGroup | kernel/hub/grain.py:78-81 | a group column that only the engine sees makes the aggregate's grain unsound |
| Grain.UnfaithfulBypass | kernel/hub/grain.py:73-81 | a bypassed aggregate or keyed dedup is unsound |
| Grain.StepIsSoundExactly | kernel/hub/grain.py:58-83 | a node's grain is sound over all inputs if and only if its configuration is read as the engine reads it |
| Grain.GrainIsSound | kernel/hub/grain.py:50-98 | with true source keys, a delivered output is distinct on its node's grain whenever the nodes that hand that grain down, along first parents, are read as in the engine |
| Grain.FillGrains | kernel/hub/grain.py:50-55 | the loop enters every node of the chain once, from its first parent |
| Grain.Best | kernel/hub/grain.py:95-96 | the chosen key is one of the table and no key ranks before it |
| Grain.GrainOf | kernel/hub/grain.py:50-55 | the loop's answer is the target's propagated grain, and is sound on every run with true source keys when the nodes with a part in it are read as in the engine |
| Estimate.StepIsRightExactly | kernel/hub/estimate.py:461-567 | an operator with no measured count, over all inputs in the order of the stored edges: the estimate is right (bounds never below, exact counts equal) if and only if the operator is counted alike |
| Estimate.NodeIsRightExactly | kernel/hub/estimate.py:442-567 | a node of any graph without a cycle above it, with any true counts and actuals: its entry is right on every output port in every run on right inputs if and only if the node is counted alike; bypassed joins, sections of any number of ports, and counts of one port among several included |
| Estimate.JoinIsRight | kernel/hub/estimate.py:461-464 | a join's estimate is right, bypassed ones included when the engine's first edge and the estimate's are from one node |
| Estimate.SizesAreRight | kernel/hub/estimate.py:442-567 | over a whole graph and every run, for every node above which all are counted alike: bounded rows are never below the output, exact rows equal it |
| Estimate.BypassedJoinMisleads | kernel/hub/estimate.py:461-464 | a bypassed join with its edges stored in the other order is estimated exactly one row and delivers five |
| Estimate.MeasuredAssertMisleads | kernel/hub/estimate.py:454-456 | when no violations were counted, a write fed by the passing port is estimated at exactly no rows, and delivers every input row |
| Estimate.MeasuredSectionMisleads | kernel/hub/estimate.py:454-456 | a section counted on its first port: a write fed by its second port is estimated at exactly that count, whatever number of rows it delivers |
| Estimate.ConeAgrees | kernel/hub/estimate.py:355-364 | a node's entry is the same whether the pass covers the graph or only what feeds a target |
| Estimate.UnknownMeansNoCount | kernel/hub/estimate.py:442-567 | confidence is unknown exactly when there is no row count |
| Estimate.WidthNeverShrinks | kernel/hub/estimate.py:371-440 | along every path of bypassed and pass-through nodes the width at the end is unknown or at least the one at the start |
| Estimate.BytesAreRowsTimesWidth | kernel/hub/estimate.py:314-324 | for every node: known bytes are rows times width if and only if rows or a width are unknown, or there are no rows, or the node is as wide as the node its estimate originates from |
| Estimate.TakenOverAsItStands | kernel/hub/estimate.py:461-506 | a bypassed node, or a sample of no stated number, takes over its first input's size unchanged, though it may be wider |
| Estimate.TakenOverBytesFallShort | kernel/hub/estimate.py:411-464 | a graph in which a bypassed union of a narrow and a wide source is as wide as the wide one with the bytes of the narrow one |
| Estimate.EstimateSizes | kernel/hub/estimate.py:345-569 | nothing for a cyclic graph; otherwise an entry for exactly the nodes, or those feeding the target, each made from its inputs' entries |
| Estimate.FillEntries | kernel/hub/estimate.py:383-567 | the loop enters every node of the order once, from the entries before it |
| Checker.Duplicates | kernel/hub/graph.py:544-571 | each id that occurs more than once is reported once, and no other |
| Checker.OutputErrors | kernel/hub/graph.py:555-563 | no error exactly when every known node has a usable set of outputs |
| Checker.EdgeErrors | kernel/hub/graph.py:577-616 | no error exactly when an edge joins two nodes and names or implies a port of each |
| Checker.OccupancyErrors | kernel/hub/graph.py:576-625 | no error exactly when no two edges land on one single-edge input |
| Checker.JoinErrors | kernel/hub/graph.py:220-248 | no error exactly when both join ports have one edge each; only unwired errors exactly when neither is crowded or misnamed |
| Checker.StructuralErrors | kernel/hub/graph.py:536-629 | no error exactly when the graph is well formed, and only unwired join inputs exactly when it is well formed but for those |
| Editor.BuiltIsNearlyWellFormed | kernel/hub/graph_ops.py:43-197 | what the editor keeps suffices for the checker, but for unwired joins |
| EditorRuns.AddKeeps | kernel/hub/graph_ops.py:43-67 | adding a node under a fresh id keeps it |
| EditorRuns.ConnectKeeps | kernel/hub/graph_ops.py:70-136 | connecting under a fresh edge id keeps it, ports and occupancy included |
| EditorRuns.ConfigKeeps | kernel/hub/graph_ops.py:139-186 | a configuration patch keeps it, also when it changes a section's outputs and edges are rewired or dropped |
| EditorRuns.RemoveKeeps | kernel/hub/graph_ops.py:189-197 | removing a node keeps it |
| EditorRuns.EditorAgreesWithChecker | kernel/hub/graph_ops.py:43-197 | from the empty graph, any run of edits with fresh ids leaves the checker nothing but unwired join inputs to report |
| EditorRuns.AcceptedEditExactly | kernel/hub/graph_ops.py:43-197 | an accepted edit of a built graph leaves the checker nothing but unwired joins to report if and only if the id it adds is fresh |
| EditorRuns.StaleIdsDisagree | kernel/hub/graph_ops.py:43-136 | a node or an edge accepted under a taken id is reported by the checker, whatever the graph was |
| EditorRuns.RemoveUndoesAdd | kernel/hub/graph_ops.py:189-197 | removing a node undoes adding it under a fresh id |
| EditorRuns.WorkingGraph.AddNode | kernel/hub/graph_ops.py:43-67 | appends the node in place or refuses, as the model's edit |
| EditorRuns.WorkingGraph.ConnectNodes | kernel/hub/graph_ops.py:70-136 | appends the edge in place or refuses, as the model's edit |
| EditorRuns.WorkingGraph.SetConfig | kernel/hub/graph_ops.py:139-186 | patches and rewires in place, and reports how many edges it dropped |
| EditorRuns.WorkingGraph.RemoveNode | kernel/hub/graph_ops.py:189-197 | removes the node and its edges, and reports how many |
| EditorRuns.WorkingGraph.FreshId | kernel/hub/graph_ops.py:200-207 | the search ends with the first numbered name that neither a node nor an edge has |
| Limiter.ConsumeKeeps | kernel/hub/auth_admission.py:111-133 | tokens stay within the capacity and entries within the cap, even if the clock goes back |
| Limiter.ConsumeKeepsOrder | kernel/hub/auth_admission.py:111-133 | with a clock in order, entries stay ordered by when they were last seen |
| Limiter.ExpiresAllIdle | kernel/hub/auth_admission.py:144-150 | stopping at the first live entry still drops every idle one, and no other |
| LimiterRuns.KeyRefines | kernel/hub/auth_admission.py:111-150 | where entries outlive a refill, a key that is not evicted gets, attempt by attempt, the decisions of a map that never forgets |
| LimiterRuns.LimiterRefines | kernel/hub/auth_admission.py:111-150 | where entries outlive a refill, every run of attempts and resets without evictions is decided as by the map that never forgets |
| LimiterRuns.NeverForgetsExactly | kernel/hub/auth_admission.py:88-109 | and that is so for all runs if and only if entries live as long as a full refill takes |
| LimiterRuns.ShortLivedEntriesForget | kernel/hub/auth_admission.py:144-150 | otherwise a burst, the time to live and a second burst are all allowed, which the unbounded map refuses |
| LimiterRuns.PasswordLimitsNeverForget | kernel/hub/auth_admission.py:88-109 | a limiter of five attempts a minute with entries kept ten minutes does not forget |
| LimiterRuns.WindowBoundedByCapacity | kernel/hub/auth_admission.py:111-133 | where entries outlive a refill, over any window without reset or eviction of a key, its allowed attempts are at most the capacity plus the refill |
| LimiterRuns.WindowsBoundedExactly | kernel/hub/auth_admission.py:88-133 | that bound holds for all tables in order, runs and keys if and only if entries outlive a refill |
| LimiterRuns.TwoBurstsExceed | kernel/hub/auth_admission.py:144-150 | otherwise two whole bursts, a time to live apart, are all allowed and exceed it |
| LimiterRuns.RetryHintIsSufficient | kernel/hub/auth_admission.py:116-133 | after a refusal the key is allowed at the hinted time, unless it was in between, whatever else is attempted, expires or is evicted |
| LimiterRuns.RetryHintIsTight | kernel/hub/auth_admission.py:116-133 | at every earlier whole second it is allowed if and only if its entry has expired by then |
| LimiterClass.AttemptLimiter.constructor | kernel/hub/auth_admission.py:88-109 | an empty table; entries outlive a refill exactly when the refill period is at most the time to live |
| LimiterClass.AttemptLimiter.PopFirst | kernel/hub/auth_admission.py:119 | drops the entry seen longest ago |
| LimiterClass.AttemptLimiter.ExpireIdle | kernel/hub/auth_admission.py:144-150 | the loop pops from the front as the model's expiry does |
| LimiterClass.AttemptLimiter.Touch | kernel/hub/auth_admission.py:116-126 | finds and refills the bucket, or makes room for a full one; the key comes last |
| LimiterClass.AttemptLimiter.Take | kernel/hub/auth_admission.py:127-133 | takes one token in place, or leaves the bucket and gives the model's hint |
| LimiterClass.AttemptLimiter.Consume | kernel/hub/auth_admission.py:111-133 | decides and updates the ordered table in place as the model's step does |
| LimiterClass.AttemptLimiter.Reset | kernel/hub/auth_admission.py:135-138 | forgets exactly this key |
| LimiterClass.AttemptLimiter.Length | kernel/hub/auth_admission.py:140-142 | never more entries than the cap |
| Buckets.LayoutCovers | kernel/hub/distribution_report_tasks.py:150-154 | one to twenty buckets of at least a microsecond cover the span, and the last one is needed |
| Buckets.ClampIsIdle | kernel/hub/distribution_report_tasks.py:115-118 | the clamp changes the index of no value in the measured range |
| Buckets.IndexIsBucket | kernel/hub/distribution_report_tasks.py:325-344 | a value has a bucket's index exactly when it lies within the bucket's published bounds |
| Buckets.BucketsAreOrdered | kernel/hub/distribution_report_tasks.py:325-344 | no bucket is reversed, the inclusive last one included |
| Buckets.CountsReconcile | kernel/hub/distribution_reports.py:269-282 | any indexing of rows counts every indexed row once |
| Buckets.TemporalReconciles | kernel/hub/distribution_reports.py:280-282 | bucket counts and nulls add up to the measured rows, as the document validator demands |
| Buckets.BuildBuckets | kernel/hub/distribution_report_tasks.py:325-344 | the loop makes one bucket per position, empty ones included, with true bounds and counts |
| Buckets.MeasureTemporal | kernel/hub/distribution_report_tasks.py:306-349 | the section has the layout's buckets with their true bounds and counts, and reconciles; the refusals are exactly non-finite and empty columns |
| Buckets.FilterTemporal | kernel/hub/distribution_report_insights.py:475-499 | an id is accepted exactly when the section has it and as many buckets as its bounds imply |
| Buckets.TemporalDrillDownAgrees | kernel/hub/distribution_report_insights.py:475-499 | the rows the filter selects for a bucket are the rows in its bounds, and as many as were counted |
| Buckets.OneBranch | kernel/hub/distribution_report_tasks.py:126-147 | strictly increasing edges give every value in the range exactly one CASE branch |
| Buckets.NoBranch | kernel/hub/distribution_report_tasks.py:126-147 | and a value outside the range none |
| Buckets.ValidNumericLayout | kernel/hub/distribution_report_insights.py:416-437 | the validator accepts exactly the histograms that partition the range |
| Buckets.OneBucketEach | kernel/hub/distribution_report_insights.py:416-437 | in an accepted histogram every value of the range lies in exactly one bucket |
| Buckets.BuildHistogram | kernel/hub/distribution_report_tasks.py:243-264 | the counted buckets partition the range and add up to the finite values |
| Buckets.MeasureNumeric | kernel/hub/distribution_report_tasks.py:183-270 | the histogram is refused exactly when the span is too wide or the edges do not rise; otherwise it is one the validator accepts, its buckets lie between consecutive edges, and its counts are true and reconcile |
| Buckets.FilterNumeric | kernel/hub/distribution_report_insights.py:447-467 | an id is accepted exactly when the section has it and its whole histogram partitions the range; the answer is that bucket's bounds and count |
| Buckets.NumericDrillDownAgrees | kernel/hub/distribution_report_insights.py:447-467 | from measuring to drilling down: an id has a filter exactly when the measured section has that bucket, and the filter selects exactly the rows that the CASE put into the bucket, as many as were published |
| Reports.StepKeeps | kernel/hub/distribution_reports.py:602-891 | every call by anyone keeps envelope, attempts and inbox consistent |
| Reports.TerminalIsFinal | kernel/hub/distribution_reports.py:755-834 | no call but a retry changes the outcome of a terminal report |
| Reports.DoneIsFinal | kernel/hub/distribution_reports.py:874-891 | a done report cannot even be retried |
| Reports.StepEmits | kernel/hub/metadb.py:8631-8687 | a call emits one inbox item exactly when it settles the report, and none otherwise |
| Reports.TruthIsWrittenOnce | kernel/hub/distribution_reports.py:662-834 | over any run: one item per settling, one more settling than reopenings exactly when terminal, a document exactly when done |
| Reports.ReopeningsAreBounded | kernel/hub/metadb.py:10746-10818 | a report is reopened fewer times than it has permitted attempts |
| Reports.StaleOwnerIsPowerless | kernel/hub/distribution_reports.py:743-834 | in any run from admission, once an attempt has stopped running or its lease is over, no later call in its name ever changes anything, retries and fencing in between included; it is told at most the outcome its attempt already has, when it asks for that outcome again |
| Reports.OverForGood | kernel/hub/distribution_reports.py:743-834 | an attempt that has stopped running or whose lease is over stays so in every later state |
| Reports.ReplayReturnsTheSame | kernel/hub/distribution_reports.py:755-834 | repeating a finish that took effect changes nothing, and returns the same envelope if and only if no cancellation was requested |
| Reports.ReplayAfterOthers | kernel/hub/distribution_reports.py:755-834 | however many other calls come in between, up to a retry: nothing changes, and the reply is the same envelope while admission and hold are intact |
| ReportStore.ReportRows.Terminate | kernel/hub/distribution_reports.py:662-700 | the field writes that turn attempt, task and row terminal together, with their inbox item |
| ReportStore.ReportRows.EmitInboxItem | kernel/hub/metadb.py:8631-8687 | inserts at most one item per attempt, and refuses a different outcome |
| ReportStore.ReportRows.FinishReport | kernel/hub/distribution_reports.py:755-834 | finishing in place, as the model's call; a raise rolls back |
| ReportStore.ReportRows.RequestReportCancel | kernel/hub/distribution_reports.py:859-871 | requesting cancellation in place, as the model's call |
| ReportStore.ReportRows.ReadReport | kernel/hub/distribution_reports.py:602-627 | reading, which may write a corrupt report off, as the model's call |
| ProviderPermits.PermitsAreConserved | kernel/hub/catalog_provider.py:289-328 | over every interleaving, submits that queue and then raise included: free plus outstanding permits are eight all along if and only if no read releases a second time while another read's permit is outstanding |
| ProviderPermits.NoDoubleReleaseConserves | kernel/hub/catalog_provider.py:289-328 | permits are conserved all along in every run in which no read is released by both the caller and its worker |
| ProviderPermits.ReleasesAreAccounted | kernel/hub/catalog_provider.py:289-328 | in every state of every run a read has released as often as its phase says: twice only when its submit had queued the work and raised, and both sides are through |
| ProviderPermits.NoOverRelease | kernel/hub/catalog_provider.py:289-328 | a release that takes effect gives back the read's own permit, or else it is a second release that gives back another's |
| ProviderPermits.HolderCanMove | kernel/hub/catalog_provider.py:289-328 | a read that holds a permit always has a step that brings it nearer to releasing it |
| ProviderPermits.QueuedFailureOverReleases | kernel/hub/catalog_provider.py:307-328 | a run from the start with two reads, of which one submit queues its work and raises: all eight permits are free while the other read still holds one |
| ProviderPermits.LoneDoubleReleaseIsRefused | kernel/hub/catalog_provider.py:26 | the same with one read only: the semaphore's bound refuses the second release, and permits are conserved |
| ExternalWait.RunIsSound | kernel/hub/external_wait_tasks.py:438-493 | in every interleaving of recovery passes and workers, permits, counts and queue agree with the calls under way |
| ExternalWait.TakenPermitsAreCounted | kernel/hub/external_wait_tasks.py:472-493 | taken permits are the in-flight counts plus the calls between count and semaphore |
| ExternalWait.QueueNeverOverflows | kernel/hub/external_wait_tasks.py:25-31 | queued items never exceed taken permits, and a put without waiting always finds a place |
| ExternalWait.StrandedForGood | kernel/hub/external_wait_tasks.py:483-485 | a claim that raises keeps its permit and its count in every later run |
| ExternalWait.CallCanMove | kernel/hub/external_wait_tasks.py:438-493 | a call that is not stranded has an enabled step that moves it, or the head of the queue before it |
| ExternalWait.PermitsComeBack | kernel/hub/external_wait_tasks.py:438-493 | from every sound state some run gives back every permit but those of stranded calls |
| ExternalWait.PermitsComeBackExactly | kernel/hub/external_wait_tasks.py:472-493 | after any run the permits can all come back if and only if no claim has raised |
| ExternalWait.CapacityHolds | kernel/hub/external_wait_tasks.py:472-493 | in every run no task exceeds two calls and the accounts agree, stranded permits included |
| ExternalWaitStore.CallTable.TryAcquire | kernel/hub/external_wait_tasks.py:477-478 | takes a permit exactly when one is free |
| ExternalWaitStore.CallTable.AdmitCall | kernel/hub/external_wait_tasks.py:479-483 | under the lock a third call of a task is turned away, and any other counted |
| ExternalWaitStore.CallTable.Withdraw | kernel/hub/external_wait_tasks.py:486-490 | with nothing to claim the count is there to be lowered, and is |
| ExternalWaitStore.CallTable.ReleasePermit | kernel/hub/external_wait_tasks.py:491 | gives a permit back, never beyond eight |
| ExternalWaitStore.CallTable.PutNowait | kernel/hub/external_wait_tasks.py:493 | never finds the eight places full |
| ExternalWaitStore.CallTable.Get | kernel/hub/external_wait_tasks.py:448-450 | hands out the oldest item |
| ExternalWaitStore.CallTable.ReleaseCall | kernel/hub/external_wait_tasks.py:438-445 | uncounts the call and gives one permit back, never more than eight |

## Left out

Contracts that are conditional or weaker than one might expect:

- Grain.GrainIsSound: claims nothing when a node that hands the grain down is not read here as in the engine; `Grain.StepIsSoundExactly` shows that each such kind of node can be wrong.
- Grain.StepIsSoundExactly: for sources soundness is the truth of the catalog's declared and verified keys, which is assumed of the data and not proved.
- Estimate.SizesAreRight: requires every node that feeds this one to be counted alike, and the evidence to be true of the run; `Estimate.NodeIsRightExactly` shows that a node that is not can be wrong, so nothing is claimed downstream of one.
- Estimate.NodeIsRightExactly: actuals are assumed to be the rows of some output port, which the recorder does not ensure: a run keeps an assertion's number of violations and stores it for the steps after it too (`kernel/hub/plugins/runner.py:782`, `kernel/hub/plugins/runner.py:891-904`), and `latest_actuals` takes those entries over.
- PreflightCost.PriceCovers: leaves are texts as Python renders them (`PreflightModel.Rendered`): a double by at most seventeen digits, a decimal that equals a float by no more digits than its precision; that such digits exist is a fact about floating point and not proved.
- PreflightCost.RowConverts: over leaves rendered in that way.
- PreflightReader.BoundedArrowRows: over leaves rendered in that way.
- LimiterRuns.LimiterRefines: over real numbers and a clock in order; the source rounds to binary floating point and reads the clock before it takes the lock.
- LimiterRuns.RetryHintIsSufficient: over real numbers; the ceiling in the source is taken of a rounded quotient.
- Buckets.MeasureNumeric: edges are any twenty-one reals from the minimum to the maximum, checked to rise as the source checks them, and the widest span is a parameter; how floating point computes the edges, and spans that overflow it, are not modelled, nor the refusals of decimal and wide integer columns.
- FanoutAudit.AuditNeverRaises: only while nobody takes a reference on a committed fan-out artifact; `FanoutAudit.AuditExactly` is the condition.
- EditorRuns.EditorAgreesWithChecker: ids are fresh, as `fresh_id` supplies them; `EditorRuns.StaleIdsDisagree` shows what happens otherwise.
- Checker.StructuralErrors: fixes when errors occur and whether they are only unwired join inputs, not their order or wording; for nodes that share an id it may repeat an error that the source reports once.
- Reports.ReplayAfterOthers: up to the next retry, which reopens the report on purpose; the same reply is promised while admission and hold are intact.
- ProviderPermits.PermitsAreConserved: the executor is not shut down with queued reads, which would cancel futures whose permits nobody releases.
- Layout.Place: positions are exact multiples of the spacing, with the default origin and spacing.

Not modelled:

- Fan-out: timestamps, attempt numbers, diagnostics and file evidence (Parquet bytes, descriptors, inodes, locks on files); digests and unit ids are injective; each session body is one atomic step.
- Fan-out: a parent with a plan is assumed to disappear only through the purge, as the foreign key from plan to task demands; the default SQLite database does not enforce that key, and `kernel/hub/metadb.py:17566-17614` deletes the task there.
- Fan-out: prompt draining after a cancellation, which does not hold: a paused or cancelled plan refuses `fail_attempt` and `cancel_attempt`, so a running attempt ends by takeover, retry or purge.
- Fan-out: the publication phase and the order of phases in `_worker`; the model lets the phases' transactions occur in any order.
- Preflight: value buffers and offsets of Arrow arrays, which are values here; other Arrow types are refused by both passes.
- Graphs: sections and the nodes inside them, parameters, source bindings, publications, wire types and join conditions.
- Grain: disabled nodes, select and group lists before they are split, and identifiers that differ in case only.
- Estimate: disabled nodes, which fail a run; adapter probing, caches, pinned revisions and schema-derived widths, which appear as given evidence; blocking and expansion flags.
- Engine: builds without the nodes' declarations, which do not compare outputs with them; values computed by expressions, the rows of joins, SQL and plugins, and preview limits; the operators are constrained to what their semantics promise about rows and columns.
- Editor: positions (`layout_new`, `_place_auto_target`), catalog lookups, join hints and suggestions.
- Limiter: `PasswordWorkGate`, a bounded semaphore used as is, and key derivation.
- Reports: quantiles, means, deviations, categorical sections, comparisons and deltas between reports, and the SQL that counts.
- Reports: the identities in an envelope are folded into one flag (`intact`) and the revision hold into another (`held`); admission, listing, and the lease monitor's timing.
- External waits: provider calls, downloads, publication and deadlines; only permits, counts and the queue.
- `handoff.py`, `durable_tasks.py`, `execution_manifest.py`, `canvas_copy.py`, agents, authentication, configuration, command line, destinations and the web client: their transitions live elsewhere or their claims would be easy members.
