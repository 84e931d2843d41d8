# A model of the kxen client state layer and workspace registry

The project models the parts of kxen whose correctness depends on interleavings, on merging, or on two computations
that have to agree: the reconnecting RPC and subscription client, the three-way timeline merge, the branch forest of
sessions, the trajectory list with its virtual window, the two read models of the message log, delta batching, the
session-intent protocol, the durable mutation controller, reorder with compensation, and the workspace runtime registry.

## How it is built

Each component has a specification made of values and functions, theorems about the specification, and imperative code
that is proved to compute it.

- A component that waits for events is a state machine: `State`, `Event`, `Enabled`, `Step`, `Run`. `Enabled` says which
  events may come next, so a theorem about every reachable state or every legal run covers every interleaving. A class
  with the fields of the original (`ClientObject.Client`, `DeltaBatcher.SessionPage`, `SessionState.Sessions`,
  `RetryController.Controller`, `McpGate.Gate`) has one method per continuation, and each method is proved to take
  exactly that step: `Abs() == Step(old(Abs()), event)`. `Registry.RuntimeRegistry` holds only the shared map and the
  generation, not the threads, so it has no such `Abs()`: its methods are the critical sections, and their contracts are
  stated with `Hit`, the look-up that the steps of the machine use.
- An algorithm that loops over arrays and maps is a method with loops and invariants, proved equal to a recursive
  definition; the properties are lemmas about that definition.

| files | what they model |
|---|---|
| `ClientModel`, `ClientInvariant`, `ClientSteps`, `ClientTheorems`, `ClientDepartures`, `ClientTimers`, `ClientObject` | `src/lib/client.ts`, `src/lib/client-subscriptions.ts` |
| `Timeline`, `MergeSpec`, `MergeTheorems`, `MergeTakeover`, `SessionLoader` | `src/lib/session-loader.ts` |
| `Sessions`, `Branches`, `BranchTheorems`, `BranchShape`, `BranchRoots`, `BranchOrder`, `BranchBuilder`, `BranchDisagreements` | `src/lib/session-branches.ts`, `src/lib/order.ts` |
| `Forks`, `ForkLines` | `crates/kxen-core/src/core/session/fork.rs`, and what it does to the branches |
| `Records`, `VirtualList`, `Paging`, `PageContents` | `src/lib/trajectory-virtual.ts`, the grouping of `src/lib/trajectory.ts` |
| `Messages`, `Items`, `ItemsBuilder`, `TrajectoryModel` | `src/lib/items.ts`, `src/lib/trajectory.ts` |
| `ReadModels`, `TurnFolding`, `ThoughtFolding`, `Collecting`, `ItemReadings`, `ItemContents`, `BubbleOrigins`, `ContextMarks`, `TextForms`, `RecordContents` | what both read models show of the log: `src/lib/items.ts`, `src/lib/trajectory.ts` |
| `Deltas`, `DeltaTheorems`, `DeltaContents`, `DeltaBatcher` | `src/lib/delta-batch.ts`, `src/lib/session-events.ts`, `src/pages/Session.tsx` |
| `Intent`, `IntentTheorems`, `SessionState` | `src/lib/state.ts` |
| `Retry`, `RetryStretches`, `RetryController` | `src/lib/async-guard.ts` |
| `Reorder` | `src/lib/session-reorder.ts` |
| `Registry`, `RegistryLookups`, `McpGate` | `crates/kxen-core/src/workspace_runtime.rs` |

## What the code does not promise

Eight statements one would like to make are false of the code as it stands. Each has its exact condition, and a lemma at
a concrete input on which it fails.

- A subscription can be stranded: a subscribe reply whose `stream_id` is empty or missing is stored as the remote stream
  of a generation that is never asked again (client.ts:274-277). No other cause exists
  (`ClientTheorems.SelfHealing`), and a grant that nothing would repeat strands its subscription exactly when its id is
  empty (`StrandsExactly`, with a run in `StrandedRun`).
- The merge keeps the order of the live list exactly when snapshot and live list agree on the order of the items they
  share (`MergeTheorems.LiveOrderExactly`, with two lists in `CrossedBreaksOrder`).
- Without a stored root, the downward and the upward walk name the same branch root exactly when the chain of parents
  ends or, among the sorted sessions whose chains do not, no ancestor stands before the session
  (`BranchRoots.RootsAgreeExactly`); on a cycle the upward walk answers with the session itself
  (`BranchDisagreements.CycleDisagrees`).
- With a stored root and a chain of parents that ends, they agree exactly when the stored root is where the chain ends
  (`BranchRoots.StoredRootAgrees`). Creating and forking sessions keep that so (`Forks.FamiliesAreBlocks`); deleting one
  does exactly when nobody was forked from it (`Forks.DeletionExactly`). The forks of a deleted session are still one
  family, but separate trees (`BranchDisagreements.OrphansDisagree`).
- When the scroll anchor is the head of a turn, rows loaded into that turn push the entries below it down by 24 px
  each; with any other anchor nothing moves (`Paging.ViewportKept`, `Paging.BelowAnchorKept`, with a page in
  `HeadAnchorShifts`).
- Starting or stopping a stream discards the buffers: the text is lost exactly when a flush timer is running
  (`DeltaTheorems.ResetExactly`, with a run in `InterruptedRun`).
- `ensureActiveSession` can return a created session that is shown but is no longer the intent right after the draft:
  exactly when that session has been set directly, by `setActiveSessionId`, while its activation was under way
  (`IntentTheorems.CreatedAdmission`). After such a set, a switch to another session makes the returned one unwanted
  (`DirectSetRun`). The application itself sets a session directly only to leave for a draft (state.ts:171), so there the
  returned session is always shown, wanted and current (`CreatedInApplication`).
- A trust change during an MCP load is overwritten by the end of that load: the flag is stale exactly when a change came
  in between (`McpGate.StaleExactly`, with a run in `StaleRun`).

## Model

| member | source | states |
|---|---|---|
| ClientTheorems.SelfHealing | src/lib/client.ts:120-201 | in every reachable state a subscription that is neither live nor about to be opened by an activation, a retry timer, a reconnect timer or a recovery has been granted an empty stream id |
| ClientDepartures.LeavesOnly | src/lib/client.ts:281-304 | over every legal run, a subscription leaves the table only because the user closes it, or after a frame has answered its subscribe call with error -32601 or -32602 |
| ClientDepartures.RefusalRemoves | src/lib/client.ts:281-297 | after such a frame the subscription is out of the table as soon as no continuation is runnable |
| ClientDepartures.GoneForGood | src/lib/client.ts:322-331 | a subscription that has left the table never comes back |
| ClientTimers.HeartbeatExactly | src/lib/client.ts:110-118 | at most one heartbeat waits in every reachable state, and a tick of the active connection sends one if and only if none waits |
| ClientTimers.RecoveryResyncs | src/lib/client.ts:154-167 | a recovery that still has its connection at its end calls the resync handlers |
| ClientTimers.CountersExact | src/lib/client.ts:120-201 | in every step the retry counter of a subscription grows by one for a timer that is armed, is zero after a grant or the loss of the connection, and is kept otherwise; the resync handlers are called exactly when a recovery succeeds, and a recovery that fails arms a reconnect |
| ClientTheorems.StrandsExactly | src/lib/client.ts:253-297 | a grant that nothing would repeat strands its subscription two microtasks later if and only if its stream id is empty |
| ClientTheorems.StrandedRun | src/lib/client.ts:264-278 | a run from the initial state that meets that case |
| ClientTheorems.NeverStuck | src/lib/client.ts:147-201 | whenever a subscription has no stream, a microtask, a timer or the outcome of a dial is due: nothing has to come from the user or the server |
| ClientTheorems.AllLiveAtRest | src/lib/client.ts:41-297 | when no timer, dial, call or continuation is outstanding, every subscription is live, unless the server has granted it an empty stream id |
| ClientTheorems.SilenceDetected | src/lib/client.ts:110-145 | a connection that lets a heartbeat go unanswered is given up: no call and no stream is left behind, and a reconnect is due |
| ClientTheorems.StreamOwnership | src/lib/client.ts:264-282 | a remote stream belongs to the active connection, and every accepted grant is the stream of exactly one subscription, has been answered by an unsubscribe, or is about to be taken |
| ClientTheorems.OneRequest | src/lib/client.ts:253-284 | at most one subscribe request per subscription is in flight, and it belongs to the active connection |
| ClientTheorems.GrantRecorded | src/lib/client.ts:264-277 | every nonempty grant of the active connection enters the ledger that ownership speaks about |
| ClientTheorems.CallConservation | src/lib/client.ts:211-251 | call ids are distinct, every call given an id is either pending or settled, and pending calls belong to the active connection |
| ClientTheorems.StepAdvances | src/lib/client.ts:86-145 | in one step a call leaves the table only by its own reply, its own timeout or the loss of the connection, and its outcome is recorded at that moment |
| ClientTheorems.SettledForever | src/lib/client.ts:86-145 | over every run a settled call keeps its one outcome and is never pending again |
| ClientTheorems.ForeignFrame | src/lib/client.ts:86-108 | a frame of any other connection, or for a call that is not pending, changes nothing |
| ClientTheorems.ReachableInv | src/lib/client.ts:17-297 | the tables, the suspended continuations and the ledger stay consistent over every run |
| ClientSteps.StepKeeps | src/lib/client.ts:41-342 | every event that may happen keeps that consistency |
| ClientObject.Client.Handle | src/lib/client.ts:41-342 | the object, event by event, is the state machine the theorems are about |
| ClientObject.Client.RejectPending | src/lib/client.ts:133-138 | the loop over the pending table rejects exactly the calls of the lost connection and makes whoever awaits them runnable |
| ClientObject.Client.ForgetStreams | src/lib/client.ts:139-144 | every retry is reset, and only the streams of the lost generation are forgotten |
| ClientObject.Client.Drop | src/lib/client.ts:120-145 | losing the active connection rejects its calls, forgets its streams and arms a reconnect; losing another one changes nothing |
| ClientObject.Client.SendCall | src/lib/client.ts:211-251 | a call goes out under a new id, or fails without a trace on a dead connection, or fails and drops the connection when sending throws |
| ClientObject.Client.ScheduleSubscriptionRetry | src/lib/client.ts:179-201 | a retry is armed only for a subscription in the table, on the active connection, that has no timer, no stream and no opening |
| ClientObject.Client.Stream | src/lib/client.ts:322-342 | a new subscription enters the table and starts an activation |
| ClientObject.Client.CloseSubscription | src/lib/client.ts:299-315 | a closed subscription leaves the table, and a live stream is handed back |
| ClientObject.Client.HandleMessage | src/lib/client.ts:86-108 | a reply settles its own pending call and nothing else |
| ClientObject.Client.CallTimeout | src/lib/client.ts:220-225 | a timeout takes the call out of the table and rejects it |
| ClientObject.Client.BeatHeart | src/lib/client.ts:110-118 | at most one heartbeat waits, on the active connection only |
| ClientObject.Client.HeartbeatFailed | src/lib/client.ts:113-114 | a rejected heartbeat drops its connection |
| ClientObject.Client.ConnectionOpened | src/lib/client.ts:41-84 | a connection gets a new generation and wakes everyone who awaited it |
| ClientObject.Client.DialFailed | src/lib/client.ts:46-56 | a failed dial rejects everyone who awaited it |
| ClientObject.Client.ReconnectDue | src/lib/client.ts:147-153 | the reconnect timer clears itself and starts a recovery |
| ClientObject.Client.Call | src/lib/client.ts:203-209 | a request first awaits a connection |
| ClientObject.Client.SendRequest | src/lib/client.ts:203-209 | with its connection the request goes out, or fails if the connection has gone |
| ClientObject.Client.RetryDue | src/lib/client.ts:192-199 | a retry timer clears itself and activates only on the connection it was armed for |
| ClientObject.Client.ActivateSubscription | src/lib/client.ts:253-284 | an activation ends at once, joins the opening in flight, or owns a new one |
| ClientObject.Client.SubscribeReplied | src/lib/client.ts:264-283 | a grant is kept, handed back because its subscription has gone, or let go with its connection |
| ClientObject.Client.PromiseSettled | src/lib/client.ts:285-297 | the opening is cleared, and a permanent refusal removes the subscription |
| ClientObject.Client.ActivationFailed | src/lib/client.ts:332-338 | a failed activation arms a retry or a reconnect, or fails the recovery it belongs to, depending on who started it |
| ClientObject.Client.RestoreSubscriptions | src/lib/client-subscriptions.ts:3-21 | recovery starts one activation for every subscription in the table |
| ClientObject.Client.Recover | src/lib/client.ts:155-167 | recovery restores, then announces a resync, or arms another reconnect when anything failed or the connection changed |
| MergeSpec.KeysDistinct | src/lib/session-loader.ts:35-44 | no two items of a list get the same occurrence key |
| MergeTheorems.ThreeWayMerge | src/lib/session-loader.ts:86-105 | on keyed items the merge is the pointwise three-way merge of snapshot, baseline and live, and every key appears at most once |
| MergeTheorems.SnapshotOrder | src/lib/session-loader.ts:157-162 | every snapshot position has a line of its own in the result, in snapshot order, whatever the live list looks like |
| MergeTheorems.LiveOrder | src/lib/session-loader.ts:59-71 | with shared keys in the same relative order, the surviving live items keep live order |
| MergeTheorems.LiveOrderExactly | src/lib/session-loader.ts:59-71 | live order is kept if and only if the two lists agree on the order of what they share |
| MergeTheorems.CrossedBreaksOrder | src/lib/session-loader.ts:157-162 | two messages in opposite order in snapshot and live list: the merge does not keep live order |
| MergeTheorems.PlanFacts | src/lib/session-loader.ts:137-162 | the lines of the result are exactly the snapshot positions and the candidates, each once, sorted by place |
| MergeTheorems.MergedSize | src/lib/session-loader.ts:157-162 | the result is as long as the snapshot plus the candidates |
| MergeTheorems.CandidatesFacts | src/lib/session-loader.ts:86-135 | the candidates are exactly the live items the three-way rule and the accounting rule leave over, in live order |
| MergeTheorems.MissingAccounted | src/lib/session-loader.ts:107-133 | every unkeyed live item that is not shown is accounted for by a snapshot item of its own: an equal unkeyed item, or a new stored message between its anchors that subsumes it |
| MergeTheorems.TakenIs | src/lib/session-loader.ts:79-133 | a stored message is spoken for exactly when it was known before, is shared with an earlier live item or has been taken over by one |
| MergeTakeover.AssistantShown | src/lib/session-loader.ts:18-33 | a streamed assistant bubble is not shown if and only if, between its anchors, a stored message that nothing speaks for has the same role and images, and content and reasoning that start with those of the bubble |
| MergeTakeover.UserShown | src/lib/session-loader.ts:18-26 | the same for a sent user bubble: equal reasoning and images, and equal content or, when the bubble quotes references, its content and a line break in front |
| MergeTakeover.AlwaysShown | src/lib/session-loader.ts:107-134 | failed sends, assistant bubbles without content and reasoning, and items that are no bubbles are shown unless the snapshot has an unused copy |
| MergeTakeover.GapIs | src/lib/session-loader.ts:113-126 | the place of a stored message between the anchors of a live item, told by shared items alone: behind the last one before it and before the next one |
| MergeTakeover.KeysAre | src/lib/session-loader.ts:8-44 | messages and approvals with an id have a key and nothing else has, and two keys are equal exactly for the same occurrence of the same id |
| MergeTheorems.ShownOnlyIfUnclaimed | src/lib/session-loader.ts:119-133 | an optimistic item is shown only if no unclaimed stored message subsumes it between its anchors, and otherwise the latest such message accounts for it |
| MergeTheorems.TakeoverIsNew | src/lib/session-loader.ts:119-128 | with aligned lists, a stored message that takes over an optimistic item is new to the live list |
| MergeTheorems.HugsAnchor | src/lib/session-loader.ts:143-151 | a new live item stands right before its next anchor, or right behind the last one, with nothing but other new items between |
| MergeTheorems.BeforeApprovals | src/lib/session-loader.ts:140-154 | when the lists share nothing, new items stand before the first approval of the snapshot, or at the end if there is none |
| MergeTheorems.MergeOfItself | src/lib/session-loader.ts:46-163 | merging a snapshot with an equal live list gives the snapshot, for every baseline |
| SessionLoader.OccurrenceKeys | src/lib/session-loader.ts:35-44 | the counting loop gives every item its key |
| SessionLoader.PreviousAnchors | src/lib/session-loader.ts:59-64 | the forward loop finds the nearest shared item before each live item |
| SessionLoader.NextAnchors | src/lib/session-loader.ts:65-71 | the backward loop finds the nearest shared item behind each live item |
| SessionLoader.StoredMessages | src/lib/session-loader.ts:73-84 | the loop lists the stored messages with the known ones consumed, and counts the copies of every unkeyed item |
| SessionLoader.FindLastClaim | src/lib/session-loader.ts:119-128 | the backward search finds the last unclaimed stored message that subsumes the item between its anchors |
| SessionLoader.ReconcileKeyed | src/lib/session-loader.ts:88-105 | one keyed live item is overlaid, dropped or made a candidate as the three-way rule says |
| SessionLoader.ReconcileUnkeyed | src/lib/session-loader.ts:107-135 | one unkeyed live item is matched, taken over or made a candidate as the accounting rule says |
| SessionLoader.ReconcileLive | src/lib/session-loader.ts:86-135 | the loop over the live list computes the overlaid snapshot and the candidates |
| SessionLoader.PlaceCandidates | src/lib/session-loader.ts:137-155 | every candidate is filed before or behind the anchor it belongs to, or in the tail |
| SessionLoader.Assemble | src/lib/session-loader.ts:157-162 | flattening the filed candidates around the snapshot gives the specified result |
| SessionLoader.MergeSnapshotWithLive | src/lib/session-loader.ts:46-163 | the whole in-place algorithm computes the merge the theorems are about |
| Sessions.SortGroupSorts | src/lib/order.ts:5-14 | sorting loses nothing and yields pinned sessions newest first, then positions ascending, then the rest newest first |
| Sessions.SortGroupStable | src/lib/order.ts:5-14 | sessions of equal section and rank keep their order |
| BranchTheorems.RowsArePermutation | src/lib/session-branches.ts:41-70 | for distinct ids and any parent relation, the rows are a permutation of the sessions |
| BranchTheorems.RowsTrees | src/lib/session-branches.ts:52-68 | the rows are whole trees one behind the other, each subtree right behind its root |
| BranchShape.Preorder | src/lib/session-branches.ts:52-68 | at every row: the count is the length of the maximal following run of deeper rows, a deeper row stands under the nearest earlier row one level up, which is its parent, and a parent is missing exactly on a top row with a parent id |
| BranchShape.VisibleIsPrefix | src/lib/session-branches.ts:72-82 | the collapsed list is a prefix of the rows made of whole trees: the first `maxRoots`, all when there are fewer, and all but the last `-maxRoots` for a negative number |
| BranchOrder.RowsInGroupOrder | src/lib/session-branches.ts:57-68 | siblings come in the order of the group, and so do the roots of either phase |
| BranchRoots.RootsAgree | src/lib/session-branches.ts:17-32 | downward and upward walk find the same root for a session without a stored root whose parents end |
| BranchRoots.RootsAgreeExactly | src/lib/session-branches.ts:17-70 | without a stored root they agree if and only if the parents end or no ancestor stands before the session among the sorted sessions that are left |
| BranchRoots.LeftoverEndless | src/lib/session-branches.ts:62-68 | the sessions left after the roots are exactly those whose parents never end |
| BranchRoots.EndlessOnTop | src/lib/session-branches.ts:52-68 | such a session is shown at the top if and only if none of its ancestors stands before it in the sorted list of the sessions left |
| BranchRoots.StoredRootAgrees | src/lib/session-branches.ts:17-32 | when the parents end, the walks agree if and only if no root is stored or the stored one is the session they end at |
| BranchRoots.RowsAgreeExactly | src/lib/session-branches.ts:17-70 | where all parents of a directory end, the walks agree on all its rows if and only if every stored root is the session its parents end at |
| BranchRoots.FamilyIsBlock | src/lib/session-branches.ts:34-38 | wherever the walks agree on the rows of a directory, stored roots included, a family is exactly the row block of its root, one larger than its descendant count |
| BranchRoots.WellRootedFamily | src/lib/session-branches.ts:34-38 | so it is wherever all parents end and every stored root is right |
| Forks.BranchRootIdForFork | crates/kxen-core/src/core/session/fork.rs:8-24 | the backend's loop computes the root a fork is stored with |
| Forks.ForkRootIs | crates/kxen-core/src/core/session/fork.rs:8-24 | in a catalog in which every parent is there, that root is the session the source's parents end at |
| ForkLines.ForkRootEnds | crates/kxen-core/src/core/session/fork.rs:8-24 | in any catalog a fork is stored with the root stored at its source, or with the end of the line of its source: the last session before a missing or repeated parent id, or the missing parent itself |
| Forks.ChangeKeepsWhole | crates/kxen-core/src/core/session/fork.rs:27-51 | creating, forking and deleting what nobody was forked from keep every parent in place, every chain ending and every stored root right |
| Forks.FamiliesAreBlocks | src/lib/session-branches.ts:34-70 | in every catalog made that way both walks agree on every row, and every family is the row block of its root |
| Forks.DeletionExactly | src/lib/session-branches.ts:17-70 | deleting a session whose forks carry stored roots keeps the walks in agreement if and only if it has no fork |
| BranchDisagreements.CycleDisagrees | src/lib/session-branches.ts:25-67 | two sessions that are each other's parent share one tree, and the upward walk names each its own root |
| BranchDisagreements.OrphansDisagree | src/lib/session-branches.test.ts:45-55 | two forks of a deleted session are one family and two trees |
| BranchRoots.ClimbCycles | src/lib/session-branches.ts:22-31 | on a parent chain that never ends the upward walk terminates and answers with the session itself |
| BranchBuilder.GroupSessions | src/lib/session-branches.ts:42-49 | the loop splits the sessions into roots and children by parent, within one directory |
| BranchBuilder.Builder.Append | src/lib/session-branches.ts:52-61 | the recursive append adds the rows of a subtree and fills its count in afterwards |
| BranchBuilder.Builder.AppendKids | src/lib/session-branches.ts:57-59 | the loop over the sorted children appends their subtrees in order |
| BranchBuilder.BuildSessionBranchRows | src/lib/session-branches.ts:41-70 | both phases together compute the rows the theorems are about |
| BranchBuilder.SessionBranchRootId | src/lib/session-branches.ts:17-32 | the loop over the parents computes the upward root |
| Records.GroupTrajectoryTurns | src/lib/trajectory.ts:222-241 | the loop computes the turns |
| Records.GroupingPartitions | src/lib/trajectory.ts:222-241 | turns laid end to end are the records, each turn starts at a user record or is the first, contains no other, and counts its steps and tool calls |
| VirtualList.FlattenTurns | src/lib/trajectory-virtual.ts:21-39 | the loop computes the entries of a list of turns |
| VirtualList.EntryTop | src/lib/trajectory-virtual.ts:46-51 | the loop adds the heights above an entry |
| VirtualList.VirtualWindow | src/lib/trajectory-virtual.ts:66-90 | the two scans compute the rendered window |
| VirtualList.WindowCovers | src/lib/trajectory-virtual.ts:66-90 | each spacer is as high as what it stands for; every entry that intersects the viewport is rendered, and so is every one at most `overscan` entries from it; the number rendered is bounded by the viewport; without a viewport everything is rendered |
| VirtualList.TopAnchor | src/lib/trajectory-virtual.ts:93-105 | the scan computes the anchor |
| PageContents.PageShows | src/components/TrajectoryView.tsx:87-95 | without collapsing, the rows of a page are exactly the newest `limit` records, in order; with it, each turn that has one of them has a line of its own and only expanded turns show rows; the heights add up to 24 for a row or folded turn, 18 for a head and 9 between turns |
| Paging.ViewKeys | src/lib/trajectory-virtual.ts:21-39 | for records with increasing indices, the entries of every page have distinct keys |
| Paging.KeysKept | src/components/TrajectoryView.tsx:87-94 | the keys of a page are a subsequence of those of every larger page |
| Paging.ViewportKept | src/components/TrajectoryList.tsx:125-146 | after loading earlier records and restoring the anchor, the anchor keeps its place on screen, and entries below it move only by the rows put under an anchor that heads a turn |
| Paging.BelowAnchorKept | src/components/TrajectoryList.tsx:125-146 | for any two pages of records with increasing indices: when the anchor is not a turn head, every entry of the smaller page from the anchor on is on the larger one, at the same place on screen |
| Paging.HeadAnchorShifts | src/lib/trajectory-virtual.ts:93-111 | a page whose anchor is a turn head: one earlier record pushes the record below it down by 24 px |
| ItemsBuilder.Builder.FlushTurn | src/lib/items.ts:154-167 | an open turn is closed with one bubble, unless there is nothing to show |
| ItemsBuilder.Builder.AbsorbTurnParts | src/lib/items.ts:170-183 | the loop collects texts, reasoning and images into the turn and puts cards out in order |
| ItemsBuilder.Builder.AttachReasoning | src/lib/items.ts:298-320 | the backward scan hangs reasoning on the last assistant bubble of the message, or on a new one |
| ItemsBuilder.Builder.AppendMessageItems | src/lib/items.ts:222-321 | a single message is laid out part by part |
| ItemsBuilder.MessagesToItems | src/lib/items.ts:185-219 | the loop with its turn accumulator computes the chat read model |
| TrajectoryModel.ToTrajectoryRecords | src/lib/trajectory.ts:82-209 | the nested loops compute the trajectory read model |
| ReadModels.ToolCallsAgree | src/lib/items.ts:107-122 | for distinct message ids the tool cards of the chat and the tool-call records of the trajectory are the same calls in the same order |
| ReadModels.CardFindsRecord | src/lib/trajectory.ts:170-206 | the first record at the place of a tool card is the record of that call |
| ReadModels.RecordsNumbered | src/lib/trajectory.ts:84-96 | records are numbered by their place, so their indices increase |
| TurnFolding.TextsKept | src/lib/items.ts:154-321 | no text of a user or an assistant is dropped, shown twice, reordered or put into a bubble of another role, and a user's text stands in a bubble of its own message |
| ItemContents.ImagesKept | src/lib/items.ts:154-297 | the bubbles show exactly the images of the log, in order, and those of a user in bubbles of their own message |
| ItemContents.SourcesKept | src/lib/items.ts:247-273 | the user bubbles quote exactly the references of the log, in order, and each in a bubble of its own message |
| ItemContents.ApprovalsKept | src/lib/items.ts:61-67 | every approval of the log has a settled card with its command and reason, in order: allowed for allow, denied for deny, timeout for timeout, cancelled for cancel, expired for anything else |
| ContextMarks.MarkedExactly | src/lib/items.ts:247-273 | the bubble of a user message is marked as having context without references if and only if context is injected behind what opens it and the message quotes no reference |
| BubbleOrigins.BubblesOwned | src/lib/items.ts:136-219 | a user bubble carries the id of one user message and no model; an assistant bubble carries the id of the last message of one turn and the last model the turn names |
| TextForms.SenderIs | src/lib/items.ts:69-75 | a text names a sender if and only if it begins with a teammate mark around a nonempty name, or with the mark of a background job |
| TextForms.FirstLineIs | src/lib/items.ts:82-86 | a summary is the text up to its first line break, cut behind 120 characters |
| TextForms.StreamIs | src/lib/items.ts:136-138 | an id names an iteration of a stream if and only if it is the id of the stream, ":t" and a number |
| RecordContents.TextsRecorded | src/lib/trajectory.ts:97-149 | the records with a text are exactly the nonempty texts of the log and the context texts of users, in order, of kind system, user, message, compacted or context, with summary, source, model, statistics, place and time |
| RecordContents.TurnsOpened | src/lib/trajectory.ts:127-241 | a user record stands exactly for a text or an image of a user, and the turns with a head start exactly there |
| RecordContents.PartsRecorded | src/lib/trajectory.ts:150-194 | the records with images, references and tools are exactly the image, reference, tool and approval parts of the log, in order, with what these hold |
| RecordContents.ThoughtsRecorded | src/lib/trajectory.ts:110-206 | the records of messages show exactly the reasoning of the assistant, in order, which is the reasoning the chat shows |
| RecordContents.LoneThoughts | src/lib/trajectory.ts:196-206 | a record with nothing but reasoning stands exactly for an assistant message whose reasoning no text follows |
| ThoughtFolding.ThoughtsKept | src/lib/items.ts:154-321 | the bubbles show exactly the reasoning of the log, in order |
| DeltaTheorems.BatchingTransparent | src/lib/delta-batch.ts:4-39 | for every run of deltas, model changes, tool events and timers, the items after a final flush are those of appending every delta at once with the model of its arrival, and without a timer the buffers are empty |
| DeltaContents.DeltasShown | src/lib/session-events.ts:10-99 | told from the events alone: after a final flush the items are, in order and nothing else, the deltas, calls, approvals, phases and compactions of the session; a bubble holds deltas of one model, and two bubbles of one model never stand side by side |
| DeltaContents.DeltasJoined | src/lib/session-events.ts:10-35 | the contents of the streamed bubbles, joined, are the content deltas of the session in order, and the same for reasoning |
| DeltaContents.EarlierBubblesKept | src/lib/session-events.ts:16-35 | from any page with empty buffers, streaming changes no bubble of a user, none with a message id and none that something stands behind |
| DeltaContents.OutcomesShown | src/lib/session-events.ts:62-68 | an approval card shows the first outcome that the events report for it: timeout for a timeout, else cancelled |
| DeltaTheorems.StepRelated | src/pages/Session.tsx:99-130 | every event keeps the batched page a delayed copy of the page that appends at once |
| DeltaTheorems.FlushCommutes | src/lib/session-events.ts:9-35 | a delta that joins the buffers has the effect of one appended after them |
| DeltaTheorems.ResetExactly | src/pages/Session.tsx:114-118 | discarding the batch in the middle of a session is transparent if and only if no timer is running |
| DeltaTheorems.InterruptedRun | src/pages/Session.tsx:114-118 | a run in which a stream is stopped with its text in the buffers, and the text is never shown |
| DeltaTheorems.TimerMeansText | src/lib/delta-batch.ts:22-37 | over every run, a running timer means that text is waiting |
| DeltaTheorems.ResultClosesLatest | src/lib/session-events.ts:48-61 | a result closes the latest open call of its name and changes nothing else |
| DeltaBatcher.SessionPage.Flush | src/lib/delta-batch.ts:11-20 | both buffers are emptied into the items, content first |
| DeltaBatcher.SessionPage.Push | src/lib/delta-batch.ts:23-26 | the text joins its buffer and the timer runs |
| DeltaBatcher.SessionPage.AppendAssistant | src/pages/Session.tsx:119-129 | a delta is filed under the session and the model it arrived with |
| DeltaBatcher.SessionPage.CloseCall | src/lib/session-events.ts:49-61 | the backward scan finds the call a result belongs to |
| DeltaBatcher.SessionPage.ToolEventArrived | src/pages/Session.tsx:190-195 | earlier text is shown before a tool event |
| DeltaBatcher.SessionPage.SwitchTo | src/pages/Session.tsx:134-155 | leaving a session discards its pending text, its model and its items |
| IntentTheorems.IntentAgrees | src/lib/state.ts:232-256 | wanted and shown session differ only while the newest switch, to the wanted one, is under way, so they agree when nothing is |
| IntentTheorems.CommitIsLatest | src/lib/state.ts:240-250 | only the newest intent moves the shown session, and at that instant it is the backend's latest activation |
| IntentTheorems.ExistingAdmission | src/lib/state.ts:182-199 | for an existing session the returned id is shown and wanted and no intent has come between |
| IntentTheorems.ExistingAdmitted | src/lib/state.ts:182-199 | for an existing session, the end of the model check returns its id if the check has succeeded and no intent has been made since the call, refuses the call otherwise, and changes nothing else |
| IntentTheorems.CreatedAdmission | src/lib/state.ts:200-228 | for a created session the returned id is shown; it is the current intent, right after the draft, if and only if that id was not set directly while its activation was under way; it is wanted if and only if the newest intent is not a switch to another session |
| IntentTheorems.CreatedAdmitted | src/lib/state.ts:215-227 | when the activation of a created session is over, its id is returned if activation and model write have succeeded and it is shown, the call is refused otherwise, and the creation is no longer shared |
| IntentTheorems.ModelWritten | src/lib/state.ts:187-226 | over every legal run, no call returns a session whose model write has not succeeded |
| IntentTheorems.CreatedInApplication | src/lib/state.ts:168-228 | as long as sessions are set directly only to leave for a draft, the returned created id is shown, wanted and current |
| IntentTheorems.DirectSetRun | src/lib/state.ts:19-23 | a run from the start in which the created session is set directly, another one is switched to, and the returned id is no longer wanted |
| IntentTheorems.OneCreation | src/lib/state.ts:178-200 | concurrent first sends of one draft share one creation |
| SessionState.Sessions.SetActiveSessionId | src/lib/state.ts:19-23 | setting the session is a new intent, wanted and shown at once |
| SessionState.Sessions.SwitchSession | src/lib/state.ts:232-239 | a switch is a new intent whose activation is queued behind the earlier ones |
| SessionState.Sessions.SwitchResumed | src/lib/state.ts:240-256 | the newest intent is committed or withdrawn, an older one is ignored |
| SessionState.Sessions.EnsureActiveSession | src/lib/state.ts:182-200 | a send is refused during a switch, checks an existing session, or creates one or shares a creation |
| SessionState.Sessions.RefreshSettled | src/lib/state.ts:208-217 | a created session is activated only if the draft has not been left |
| SessionState.Sessions.ActivationReturned | src/lib/state.ts:216-226 | the created id is returned only if its switch succeeded, it is shown and its model was applied |
| Retry.NoOverlap | src/lib/async-guard.ts:80-131 | the bodies of two runs never overlap |
| Retry.OneToken | src/lib/async-guard.ts:82-92 | two executions carry the same token if and only if they belong to the same key with no confirmation or reset between them |
| Retry.AtMostOneEffect | src/lib/async-guard.ts:77-132 | against a server that deduplicates by token, all executions of a key between two confirmations or resets have at most one effect together, and exactly one once one of them is reported applied |
| Retry.OneStretch | src/lib/async-guard.ts:82-92 | every effect and every report belongs to exactly one such stretch of one key |
| RetryStretches.ExecutesExactly | src/lib/async-guard.ts:77-101 | a call of `run` executes if and only if no run is under way and it has a token, a prepared one or the one already used since the last boundary of its key; otherwise nothing happens |
| RetryStretches.StretchEnds | src/lib/async-guard.ts:107-134 | a token is given up exactly by a reset, by the refresh after a success, or by a refresh that finds the effect applied |
| RetryController.Controller.RunStarts | src/lib/async-guard.ts:77-97 | a run is refused while another is pending, and otherwise remembers its token before it executes |
| RetryController.Controller.RefreshSettled | src/lib/async-guard.ts:107-131 | the token is forgotten exactly when the mutation succeeded or is confirmed applied |
| Reorder.ReorderOutcome | src/lib/session-reorder.ts:10-43 | under every failure schedule: no result means no write; after an error every session whose stored order is not the old one is listed, pinned ones are untouched, and the listed sessions are exactly those whose rollback write failed; on success the group shows the pinned sessions, then the source at the target's place and the rest in their old order |
| Reorder.FailuresAre | src/lib/session-reorder.ts:20-43 | the result names an error exactly when a write fails, and lists exactly the sessions whose rollback write failed |
| Reorder.CompensationComplete | src/lib/session-reorder.ts:34-42 | after a failed save the rollback restores or lists every session |
| Reorder.NewOrderShown | src/lib/session-reorder.ts:20-32 | after a successful save the sorted group is the pinned section followed by the moved list |
| Reorder.SaveOrders | src/lib/session-reorder.ts:23-31 | the apply loop writes positions in order and stops at the first failure |
| Reorder.RollBack | src/lib/session-reorder.ts:34-41 | the rollback loop writes every old order back and collects the failures |
| Reorder.ReorderSessionGroup | src/lib/session-reorder.ts:10-43 | the whole call leaves the specified orders and returns the specified result |
| Registry.RuntimeUnique | crates/kxen-core/src/workspace_runtime.rs:168-217 | in every interleaving with unchanged directory identity all successful calls return one runtime, it is inserted at most once, and the generation counts the insertions |
| Registry.GenerationOnce | crates/kxen-core/src/workspace_runtime.rs:210-216 | calls for one unchanged directory, under any of its names, raise the generation at most once |
| Registry.RuntimeMatches | crates/kxen-core/src/workspace_runtime.rs:174-216 | a returned runtime was built for the directory that is there |
| RegistryLookups.KnownRoot | crates/kxen-core/src/workspace_runtime.rs:168-180 | a call for a registered root returns its runtime at the first look, builds nothing and leaves the registry as it is |
| RegistryLookups.KnownAlias | crates/kxen-core/src/workspace_runtime.rs:181-190 | a call for a registered directory under another name does so at the second look |
| Registry.RuntimeRegistry.Lookup | crates/kxen-core/src/workspace_runtime.rs:174-192 | a look under the lock finds the runtime only if its identity matches |
| Registry.RuntimeRegistry.InsertOrGet | crates/kxen-core/src/workspace_runtime.rs:205-217 | the double check and the insertion are one atomic action that raises the generation only on insertion |
| McpGate.LoadsBounded | crates/kxen-core/src/workspace_runtime.rs:95-106 | successful first loads exceed trust changes by at most one, so without trust changes there is at most one |
| McpGate.OkAfterLoad | crates/kxen-core/src/workspace_runtime.rs:95-106 | a call returns Ok only after a load has succeeded |
| McpGate.OneLoader | crates/kxen-core/src/workspace_runtime.rs:99-117 | two loads never run at the same time |
| McpGate.StaleExactly | crates/kxen-core/src/workspace_runtime.rs:99-124 | a load leaves a stale flag if and only if trust changes between its start and its end |
| McpGate.StaleRun | crates/kxen-core/src/workspace_runtime.rs:99-124 | a run that leaves a stale flag |
| McpGate.Gate.CheckAgain | crates/kxen-core/src/workspace_runtime.rs:99-102 | the check under the lock returns without a load if one has succeeded meanwhile |
| McpGate.Gate.LoadReturns | crates/kxen-core/src/workspace_runtime.rs:103-105 | the flag is set only by a successful load, and the lock is released either way |

## Left out

How the model is cut:

- Subscriptions are values in a map keyed by local id, which is never reused; the object identity test of the code is the test for the key.
- Promise continuations are jobs that become runnable; runnable jobs run in any order, and timers and socket events wait until none is runnable. The order the JavaScript runtime would choose is one of them. Runs that show a failure use that order.
- Call ids are numbers. The wall-clock prefix of the id, delays, backoff times and time limits are not modelled; a timer may fire whenever it is armed.
- Stream chunks, resync handlers, the topic filter of `createSubChunkHandler` and `TopicStream` are not modelled.
- A grant that arrives after its subscribe call has timed out is outside stream ownership: the client has forgotten the call.
- Fingerprints are structural equality and occurrence keys are pairs of identity and count; the text forms are not modelled.
- Optional texts and names that are absent or empty are the same empty text where the code treats them the same.
- `createSessionLoader` with its request guards is not modelled, nor are writes of loader and converge to the items while deltas are pending.
- Scroll positions and viewports are real numbers. Rounding by the browser, following the tail and search or range filters are not modelled.
- `firstLine` cuts at characters, not at UTF-16 code units.
- Statistics, formatting, the overview bars and the record search of the trajectory are not modelled.
- Agents, navigation, draft migration and the first-send mark of `state.ts` are not modelled, nor is `deleteSession`, to which the intent invariant does not extend as written.
- User events and replies to activations wait until the continuations of an activation, the commit and the return to `ensureActiveSession`, have run; the other continuations of the session protocol run in any order.
- A failed `session.activate` takes effect before it fails or never; an effect after its failure has been reported is not modelled.
- DeltaBatcher.SessionPage.SwitchTo: the change of the active id and the reset of the page are one step; in the program a reactive effect does the reset after the change.
- ClientObject.Client.ConnectionOpened: `connecting` is cleared in the step that makes the connection active; the `finally` that clears it is the first continuation to run after that.
- The server of the retry controller deduplicates by token and may apply a request late; the `applied` check is sound and `prepare` makes a fresh token. Exceptions of `onApplied` and `onChanged` are not modelled.
- Errors of the reorder writes are truthy, as those of the client are; the texts in `rollbackFailures` are reduced to the session ids.
- Session ids are nonempty, and an absent and an empty parent or stored root are the same. Of forking, only ids, directories, parents and stored roots are modelled; editing other fields of a session is not.
- Canonicalization of paths is idempotent. Construction failures end a call without an effect; the configuration gate, configuration reload and the non-Unix variant of the registry are not modelled.
- The wrappers around RPC methods, the Solid components and the modules behind goals, schedules, queues and doctor are not modelled.
