# OBS-MCP: verified models of custody

OBS-MCP lets several agents drive one OBS Studio. This project models the parts of it that must not
lose, repeat or misreport an effect, and proves what they promise for all inputs and all runs. It
models the code as it stands; where the code and its promise differ, a lemma names the input and the
exact condition.

| part | files |
|---|---|
| restricted demo: write-ahead journal, preparation, recovery | `PreparationJournal`, `Publication`, `DemoJournal`, `DemoService` |
| Apply Scene: planner, transport check, convergence, two-stage owner | `SceneValues`, `ApplyPlan`, `ApplyChecks`, `SceneWorld`, `SceneCreation`, `SceneConvergence`, `SceneOrdering`, `PlanFacts`, `BatchReplies`, `ApplyReceipts`, `ApplyOwner` |
| JavaScript strings and bounded JSON | `JsonTree`, `JsString`, `SourceJson`, `JsonQuoting` |
| tool visibility | `Toolsets` |
| bounded ownership | `Sums`, `Continuations`, `Ingress`, `ResponseSink`, `ResourceStreams` |
| calendar, control lease, WebSocket client | `Calendar`, `ControlLease`, `ObsClient` |

How the demo model is built: `Service` holds OBS, the journal directory and, as ghosts, every write
ever handed to the socket. At every await another client may change OBS and bump the revision; a
publication lands, fails or stays in doubt; a reply may be lost; the process may die anywhere and
restart with any outcome of the publications in doubt. `quiet` says that no other client changes the
capture, `calm` that moreover nothing fails from now on. The provenance types follow
`native/src/preparation_journal.rs`.

What turned out to differ from what one would expect:

- Loading a journal with an attempt that has no steps panics instead of refusing it, exactly when
  `PanicsOnLoad` holds (`PreparationJournal.Validate`, `PreparationJournal.EmptyStepsPanic`).
- The store accepts a restoration that overtakes a later field whose preparation is undecided, which
  the service's own transition refuses; it accepts nothing else beyond the transitions
  (`Publication.StoreAcceptsExactly`, `Publication.GapIsReachable`).
- The comparisons are not transitive, so recovery's "still shows the new value" is two comparisons
  away from the value found at the write (`SceneValues.SameIsNotTransitive`, `DemoJournal.Justified`).
- A field that has used up its 64 recovery attempts can never be recovered; below that bound, recovery
  of a journal that is not uncertain succeeds whenever nothing fails (`Publication.ExhaustedIsForever`,
  `DemoService.Service.Recover`).
- The planner emits a scene creation that OBS refuses when the scene's name is that of an input
  (`SceneCreation.CreationsSucceedExactly`).
- With a listed source more than once in the scene, applying an error-free plan in order can leave a
  scene that the next plan still wants to change. Whether it settles is decided by the scene before the
  call (`Settleable`, `SceneOrdering.ConvergesExactly`). Where a move is needed and other items are kept,
  or only one item of each of the n sources is left, moving always puts the sources in order
  (`SceneOrdering.MovingToTheTopOrders`). Where the others are removed and more than n but fewer than 2n
  items are left, it never does (`SceneOrdering.FewCopiesDefeatMoving`). With 2n or more it does
  exactly when the copies that end above the moved items are in order already, all of them or all
  but one of the first source (`SceneOrdering.ManyCopiesOrderExactly`). A copy that ends below the moved
  items becomes the first of its source, so it must be as described already
  (`SceneOrdering.FirstAfterMoving`).
- In a session the last mask that the client tried to tell OBS is always the union of the unreleased
  shares. If such a send throws, the client believes in a mask that OBS was never told, until a change
  goes through or leads back to the mask OBS knows; if none throws OBS always knows the union
  (`ObsClient.Client.WireIsUnion`, `ObsClient.Client.Run`, `ObsClient.MissedSubscription`).

## Model

| member | source | states |
|---|---|---|
| PreparationJournal.Validate | native/src/preparation_journal.rs:134-216 | a stored journal is accepted exactly when it is valid, and loading panics exactly when an attempt without steps is reached before any other fault |
| PreparationJournal.ScanField | native/src/preparation_journal.rs:151-206 | one field is accepted exactly when it is well formed and agrees with whether an earlier field stopped preparation or recovery |
| PreparationJournal.EmptyStepsPanic | native/src/preparation_journal.rs:38-41 | a journal with one attempt without steps on which loading panics |
| Publication.CheckSuccessor | native/src/preparation_journal.rs:418-491 | the loop over candidates decides the relation `Follows` in both directions |
| Publication.TransitionsArePublishable | native/src/preparation_journal.rs:217-350 | every transition the service can take from a valid journal yields a valid journal that the store accepts as its successor |
| Publication.StoreAcceptsExactly | native/src/preparation_journal.rs:418-505 | what the store accepts is the unchanged journal, the result of one transition, or the one overtaking gap, and nothing else |
| Publication.OvertakingIsPublishable | native/src/preparation_journal.rs:253-279 | the gap is accepted by the store in every journal where it arises |
| Publication.OvertakenIsLater | native/src/preparation_journal.rs:253-279 | the dispatch that the gap overtakes is the undecided preparation of a later field |
| Publication.GapIsReachable | native/src/preparation_journal.rs:253-279 | a concrete valid journal on which the store accepts and the service refuses |
| Publication.UnknownIsForever | native/src/preparation_journal.rs:418-491 | over any history of publications a preparation with unknown outcome is never rewritten and the journal never completes |
| Publication.ExhaustedIsForever | native/src/preparation_journal.rs:253-279 | over any history a field that has used up its 64 recovery attempts stays unrestored and its journal never completes |
| Publication.CompletedIsFinal | native/src/preparation_journal.rs:418-450 | over any history a completed journal is only ever replaced by itself |
| SceneValues.SameReflexive | native/src/scene_plan.rs:208-223 | the tolerant comparison of nested values accepts equal values |
| SceneValues.SameSymmetric | native/src/scene_plan.rs:208-223 | the tolerant comparison does not depend on the order of its arguments, objects included |
| SceneValues.SameTransformTolerant | native/src/scene_plan.rs:187-207 | the comparison of transform fields, with half pixels and single precision, is reflexive and symmetric |
| SceneValues.HalfPixelIsNearest | native/src/scene_plan.rs:196-207 | positions are compared by their nearest half pixel, a quarter of a pixel away at most, ties upwards |
| SceneValues.SameIsNotTransitive | native/src/scene_plan.rs:208-223 | three values on which a chain of comparisons misleads |
| DemoJournal.FieldCompareIsTolerance | native/src/demo.rs:1631-1682 | the demo's comparison of fields is a tolerance, so every result below holds for it |
| DemoJournal.ChangesSpec | native/src/demo.rs:1692-1715 | the planned changes are exactly the fields that differ from what is wanted, each once, with the sampled value as `before` |
| DemoJournal.ChangesInOrder | native/src/demo.rs:1692-1715 | the mute comes first, then the tracks, then the transform field by field in the source's order |
| DemoJournal.PreparedExactly | native/src/demo.rs:1644-1655 | the final check holds exactly when the capture is muted, all six tracks are off and every transform field is that of a capture which fills the canvas, in literal values and tolerances |
| DemoJournal.NewJournal | native/src/demo.rs:1304-1321 | a first journal is valid and accounts for the sampled state |
| DemoJournal.MarksStay | native/src/preparation_journal.rs:418-491 | no accepted publication ever removes a write-ahead mark |
| DemoJournal.PublishKeepsConsistent | native/src/demo.rs:1958-2097 | a publication, durable or in doubt, keeps every write ever sent marked in whatever a restart may find |
| DemoJournal.SendKeeps | native/src/demo.rs:1349-1378 | the log gains exactly the write to this field of this attempt with the value found, and stays free of repeats; the account of OBS stays right whether or not the write lands |
| DemoJournal.NeverRepeatedMeansDistinct | native/src/demo.rs:1325-1378 | the counting form of "no write twice" is the statement that no two writes have the same operation, field and attempt |
| DemoJournal.UnmarkedIsUnsent | native/src/demo.rs:1325-1378 | an attempt that the stored journal does not mark has not been handed over |
| DemoJournal.NothingToChange | native/src/demo.rs:1223-1234 | no field differs exactly when the final check would pass |
| DemoJournal.RestartKeeps | native/src/demo.rs:1856-1957 | whichever publications in doubt turn out visible after a crash, all writes stay marked and justified |
| DemoJournal.RestoredMeansBefore | native/src/demo.rs:1575-1583 | a journal with every field restored accounts only for the state before preparation |
| DemoJournal.MovedIsPrepared | native/src/demo.rs:1379-1387 | the state a complete preparation leads to passes its own final check |
| DemoJournal.QuietHasNoConflict | native/src/demo.rs:1448-1474 | without other writers a journal that is not uncertain never conflicts with OBS |
| DemoService.Service.CheckPublication | native/src/demo.rs:1958-2020 | the store refuses exactly the journals that are distrusted, invalid, or neither new nor a successor |
| DemoService.Service.Persist | native/src/demo.rs:802-808 | three outcomes: durable, not published, or in doubt; each keeps the write-ahead and explanation invariants |
| DemoService.Service.Read | native/src/demo.rs:829-1096 | with other clients acting between any two requests, an unchanged revision means that the fields read one by one are one state OBS was in, and is in at the end |
| DemoService.Service.ReadAfterAccepted | native/src/demo.rs:1097-1122 | a sample that is returned is the state of OBS at the fence returned with it |
| DemoService.Service.Mutate | native/src/demo_transport.rs:497-593 | the log gains nothing or exactly this write, with the sampled value as the one it meets, because a write leaves only while the revision of its sample holds; without other writers OBS changes only by a logged write |
| DemoService.Service.Announce | native/src/demo.rs:1334-1348 | on success intent and possible dispatch are durable, the attempt is unsent, and nothing has been sent |
| DemoService.Service.DispatchField | native/src/demo.rs:1334-1378 | at most one write is logged, it is a write to this field of this operation, and without `attempted` there is none; on success the delivery is durably accepted and only its field changed |
| DemoService.Service.AdmitPreparation | native/src/demo.rs:1197-1234 | preparation goes on only with changes to make and no open journal; every other report leaves OBS alone |
| DemoService.Service.OpenJournal | native/src/demo.rs:1235-1322 | the first journal is durable before any write, and describes the sampled state |
| DemoService.Service.PrepareField | native/src/demo.rs:1325-1378 | field `index` begins with all earlier fields durably accepted and all later ones untouched, and ends with `index + 1` of them accepted |
| DemoService.Service.PrepareFields | native/src/demo.rs:1323-1378 | on success every field is durably accepted and OBS shows every new value; if nothing fails it succeeds |
| DemoService.Service.Prepare | native/src/demo.rs:1159-1394 | only `partial` and `prepared` may have sent anything; `prepared` means durably accepted, and `prepared` and `already prepared` mean that OBS shows the capture muted, on no track and filling the canvas; if nothing fails a needed preparation is `prepared` |
| DemoService.Service.ClearIntent | native/src/demo.rs:1504-1514 | an intent left by an interrupted recovery is closed without claiming a delivery |
| DemoService.Service.BringBack | native/src/demo.rs:1515-1573 | a field is written back, or observed, only when the initial sample justifies it; on success it is durably restored |
| DemoService.Service.RecoverFields | native/src/demo.rs:1498-1574 | on success every field is durably restored, in order |
| DemoService.Service.Conclude | native/src/demo.rs:1575-1589 | the journal is closed only after OBS was seen with every old value; without other writers the capture is exactly as before |
| DemoService.Service.JudgeSample | native/src/demo.rs:1426-1493 | conflicts, completed journals and plans are told apart without sending; without other writers an open journal never conflicts |
| DemoService.Service.AdmitRecovery | native/src/demo.rs:1416-1493 | an uncertain journal is only ever answered with `unknown`, a missing or distrusted one with a failure |
| DemoService.Service.Recover | native/src/demo.rs:1395-1590 | completed, uncertain, absent and distrusted journals send nothing; `recovered` means closed and restored; with attempts and revisions left and no failures a journal that is not uncertain is `recovered` |
| DemoService.Service.Restart | native/src/demo.rs:1856-1957 | a restart finds only journals that were stored or in doubt, and every invariant holds again |
| DemoService.Service.Run | native/src/demo.rs:1159-1590 | over any run of calls and crashes: every write was marked before it left, none was repeated, each was justified, and without other writers each `recovered` report leaves the capture as it was before an earlier preparation of that operation |
| ApplyPlan.SourceJudgeIsReflexive | native/src/scene_plan.rs:187-223 | the planner's comparisons are reflexive, as convergence requires |
| ApplyPlan.BuildPlan | native/src/apply_scene.rs:568-906 | the planner's loops compute `PlanFor`, which `NothingForSource`, `ProblemsAreExact`, `AdmittedExactly` and `ConvergesExactly` characterise |
| ApplyPlan.CheckNames | native/src/apply_scene.rs:583-593 | the set of names seen reports exactly repeated names and names of scenes, in order |
| ApplyPlan.PlanSources | native/src/apply_scene.rs:594-831 | sources with errors contribute no actions and the others contribute theirs in order |
| ApplyPlan.PlanRemovals | native/src/apply_scene.rs:832-853 | exactly the unlisted items are removed, in order |
| ApplyPlan.PlanMoves | native/src/apply_scene.rs:881-902 | every listed source is moved to the same index, in the order listed |
| PlanFacts.StackedIsStableSort | native/src/apply_scene.rs:862-868 | items are looked at by index, and those at one index in the order reported |
| PlanFacts.ProblemsAreExact | native/src/apply_scene.rs:583-652 | each problem is reported exactly when a name is listed twice, is a scene's, has another kind, or is missing without a kind |
| PlanFacts.WaitingChanges | native/src/apply_scene.rs:773-830 | while a source has no item, its lock and its transform are listed as changes without effect, and its visibility is not |
| PlanFacts.AdmittedExactly | native/src/apply_scene_transport.rs:168-204 | the transport's check admits an effect exactly when some scene makes an error-free plan ask for it, except that it does not ask whether settings are empty or where an item is moved |
| PlanFacts.FillsCanvasExactly | native/src/apply_scene.rs:788-830 | with the service's comparisons a fitted item fills the canvas exactly when its seven fields are the literal ones up to half pixels and single precision |
| ApplyChecks.ErrorFree | native/src/apply_scene.rs:583-652 | a plan has no errors exactly when names are distinct, no source is a scene, kinds agree and missing sources have a kind |
| ApplyChecks.PlannerAndTransportAgree | native/src/apply_scene_transport.rs:168-204 | with the canvas known, every effect of an error-free plan passes the independent check and is a creation exactly when its action is in the creation phase, and creations always have effects |
| ApplyChecks.PlanStages | native/src/apply_scene.rs:559-565 | the two batches of an error-free plan are the creations source by source and then the changes, removals and moves |
| ApplyChecks.AdmitCreations | native/src/apply_scene_transport.rs:285-347 | a creation batch is admitted exactly when it is `Admissible`: valid creations only, at most one more than the sources, no subject twice |
| ApplyChecks.NoSubjectTwice | native/src/apply_scene_transport.rs:330-347 | the loop with a set and a flag finds exactly a second scene or a second creation of one input |
| ApplyChecks.PlannedCreationsAreAdmissible | native/src/apply_scene_transport.rs:285-347 | the transport admits the creation batch of every error-free plan |
| ApplyChecks.PlannedChangesAreValid | native/src/apply_scene_transport.rs:244-283 | every effect of the change batch passes the check and none is a creation |
| SceneWorld.MovingInTurnOrders | native/src/apply_scene.rs:881-902 | moving items to the last index in turn leaves them on top in that order and the others below in the order they had |
| SceneCreation.CreationsSucceed | native/src/apply_scene_workflow.rs:237-261 | OBS accepts the whole creation batch, and then every listed source exists in the scene with the kind and settings asked for, the missing ones on top in the order listed and shown unless they are to be hidden, and the items that were there are unchanged |
| SceneCreation.CreationsSucceedExactly | native/src/apply_scene.rs:568-676 | OBS accepts the creation batch of an error-free plan exactly when it offers the kinds of the missing sources and a missing scene does not have the name of an input |
| SceneConvergence.SecondPlan | native/src/apply_scene.rs:1060-1094 | once everything exists, a plan has no errors, no creations and no action without effect |
| SceneConvergence.NothingForSource | native/src/apply_scene.rs:594-831 | the planner asks for nothing about a source exactly when every setting given is there and equal, mute and the six tracks are as given, the volume is within a tenth of a decibel, and the first item has the visibility, lock, transform and canvas fit described |
| SceneConvergence.InputSettledExactly | native/src/apply_scene.rs:625-753 | the planner's four tests of an input say together that its values are as described |
| SceneConvergence.TransformSettled | native/src/apply_scene.rs:788-830 | no transform is planned exactly when every field described is shown, and the seven fields of the canvas fit where nothing else is described |
| SceneConvergence.RunInputChanges | native/src/apply_scene.rs:625-753 | the changes planned for an input bring it into line and touch nothing else |
| SceneConvergence.RunItemChanges | native/src/apply_scene.rs:754-830 | the changes planned for an item bring it into line and touch nothing else |
| SceneConvergence.KeptInOrder | native/src/apply_scene.rs:854-880 | sources that pass the top-slice test still pass it after the others are removed |
| SceneConvergence.NothingLeft | native/src/apply_scene.rs:568-906 | once everything exists, a plan is empty exactly when the scene is as described: values, nothing unlisted if so wanted, and order if so wanted |
| SceneConvergence.ChangesSettle | native/src/apply_scene_workflow.rs:276-339 | the changes of the second plan all succeed, inputs are then as described and others removed, and the scene is as described exactly when the stack they lead to is in order and its first items are in line |
| SceneOrdering.MovingInTurnParts | native/src/apply_scene.rs:881-902 | moving items in turn to any index leaves them together around the last one, which is at the index; the rest is parted into a lower and an upper half that keep their order, and the first item ends on top of the moved ones exactly when the second came from above |
| SceneOrdering.MovingToTheTopOrders | native/src/apply_scene.rs:854-903 | where nothing else is removed, or one item of each source is left, the moves put the listed sources on top in order, duplicates or not |
| SceneOrdering.FewCopiesDefeatMoving | native/src/apply_scene.rs:854-903 | with more items of the n listed sources than n but fewer than 2n left, the moves never order them |
| SceneOrdering.ManyCopiesOrderExactly | native/src/apply_scene.rs:854-903 | with 2n or more, the moves order them exactly when the copies above the parting place of the stack are in order, all of them or all but the first source's |
| SceneOrdering.MovingOrdersExactly | native/src/apply_scene.rs:854-903 | in every case the moves order the stack exactly when a condition on the stack before them holds |
| SceneOrdering.FirstAfterMoving | native/src/apply_scene.rs:832-903 | after the moves the first item of a source is its lowest copy below the parting place, or else the one that was moved |
| SceneOrdering.AllCopiesSink | native/src/apply_scene.rs:854-903 | where the moves go to the top, every other copy ends below the moved items |
| SceneOrdering.SettleableExactly | native/src/apply_scene_workflow.rs:276-339 | what the changes lead to is settled exactly when the scene was settleable before them |
| SceneOrdering.SettleableBefore | native/src/apply_scene_workflow.rs:216-275 | a scene is settleable after the creations exactly when it was before them |
| SceneOrdering.UnambiguousIsSettleable | native/src/apply_scene.rs:854-903 | a scene in which no listed source is twice is settleable |
| SceneOrdering.ConvergesExactly | native/src/apply_scene_workflow.rs:216-343 | plan, create, plan, change: both batches succeed, the second plan creates nothing and nothing in it waits; the third plan is empty exactly when the scene then is as described, which is exactly when the scene before the call is settleable; inputs are as described and others removed in any case |
| SceneOrdering.Converges | native/src/apply_scene_workflow.rs:216-343 | from any scene in which no ambiguous source has to be moved, the scene ends as described and the third plan is empty |
| SceneOrdering.TwiceInTheSceneDefeatsOrdering | native/src/apply_scene.rs:854-903 | every request for two sources in order without others has a scene whose error-free plan succeeds and leaves a third plan that is not empty |
| ApplyReceipts.AcceptedExactlyWhenLegal | native/src/operation_store.rs:2006-2143 | an update of a stored receipt is accepted exactly in its phase, with counts that add up (all creations succeed or one fails, every change is attempted), and with time not running back |
| ApplyReceipts.SuccessfulMeansAll | native/src/operation_store.rs:1957-2005 | in a stored receipt the creations count as successful exactly when there were none or every one succeeded |
| ApplyReceipts.UpdateAdvances | native/src/operation_store.rs:2075-2143 | every update moves to a later phase and never revises what became of the creations |
| ApplyReceipts.EveryPhaseAtMostOnce | native/src/operation_store.rs:1957-2143 | over any history: at most five receipts, no phase twice, and changes only after creations that all succeeded |
| BatchReplies.BatchResponse | native/src/session.rs:1779-1876 | the session lets through exactly the replies that each name one request of the batch with its type, and stop at a first failure where the batch halts; the outcomes are then in the order of the requests |
| BatchReplies.AllowedCounts | native/src/session.rs:1867-1874 | an outcome let through has at most one failure where the batch halts, none only if everything was answered, and otherwise answers everything |
| ApplyOwner.OutcomeFacts | native/src/apply_scene_transport.rs:446-467 | every outcome that the session lets through is accepted by the receipt unless time has run back behind its start, and is recorded with counts that account for the batch |
| ApplyOwner.Receive | native/src/session.rs:1712-1725 | replies that do not fit the batch end the session, so their outcome counts as unknown |
| ApplyOwner.TypesTellEffectsApart | native/src/apply_scene.rs:398-413 | no two kinds of effects have the same request type, so a reply cannot be taken for one to another kind |
| ApplyOwner.Owner.Publish | native/src/apply_scene_transport.rs:366-378 | an update is published exactly when the store works and the receipt allows it; otherwise the owner is poisoned and the stored receipt stays true |
| ApplyOwner.Owner.Begin | native/src/apply_scene_transport.rs:285-365 | a workflow starts exactly on an unused, trusted owner with an admissible batch that no other check refuses and a store that works; the receipt is durable before the batch is kept |
| ApplyOwner.Owner.BeginChanges | native/src/apply_scene_transport.rs:381-397 | changes start exactly in the continuation phase, with effects the request asks for, nothing pending, no refusal and a store that works |
| ApplyOwner.Owner.Dispatch | native/src/apply_scene_transport.rs:398-445 | a batch is kept exactly behind a durable announcement; without it the owner is poisoned and nothing is kept |
| ApplyOwner.Owner.Finish | native/src/apply_scene_transport.rs:446-482 | the kept batch is sent at most once, and its outcome goes unrecorded only if the store fails or the clock has run back behind the start |
| ApplyOwner.Owner.End | native/src/apply_scene_transport.rs:483-509 | a workflow is closed exactly in the continuation phase and aborted exactly there or before the creations, with nothing pending and a store that works; a failing store poisons |
| ApplyOwner.Owner.AbortIdle | native/src/apply_scene_workflow.rs:147-161 | what has not been dispatched is aborted, after which the store may leave unless a batch is pending |
| ApplyOwner.Owner.HandBack | native/src/apply_scene_workflow.rs:185-203 | from every owner the loop ends after one pass if a batch is pending and none otherwise, with a final or distrusted receipt |
| ApplyOwner.Owner.Drive | native/src/apply_scene_transport.rs:285-528 | over any sequence of calls at any times: one creation batch and one change batch at most, changes only after successful creations, nothing after poisoning, and a stored receipt that never denies a sent batch |
| JsString.EmitIsJsText | native/src/generic_requests.rs:1932-1995 | the text written piece by piece is the recursive conversion, and writing completes exactly when that is defined |
| JsString.WithinIsJsText | native/src/custom_mutations.rs:519-547 | the conversion with a depth limit of 128 is the unlimited one exactly on values nested within the limit, and undefined on the others |
| JsString.AppendJsString | native/src/generic_requests.rs:1932-1995 | succeeds exactly when the recursive conversion is defined and the result fits, then appends it; every failure restores the prefix; the capacity error arises exactly when what is written up to the first failure does not fit |
| JsString.Project | native/src/generic_requests.rs:1938-1990 | the explicit stack of iterators refines the recursion and terminates |
| SourceJson.NodesWithinLength | native/src/js_json.rs:47-51 | no tree has more nodes than encoded bytes |
| SourceJson.EmitTo | native/src/js_json.rs:90-117 | the one encoder puts the same bytes into a counter and into a buffer, those of `Encode`, which `DecodesToNormal` characterises |
| SourceJson.Check | native/src/js_json.rs:38-72 | the walk accepts exactly the trees within depth and budget whose numbers are finite, and names a true reason otherwise |
| SourceJson.Prepare | native/src/js_json.rs:134-146 | a value is admitted exactly when depth, numbers and encoded length allow it, so the node budget refuses nothing more; the length counted is that of the encoding |
| SourceJson.EncodeSourceJson | native/src/js_json.rs:155-175 | what is admitted is written in full, and what is written decodes to the normal form of the value |
| SourceJson.DecodesToNormal | native/src/js_json.rs:90-117 | a reader of the JSON grammar gets the value back from its encoding, with numbers in normal form, whatever quoting is free of prefixes and whatever printed numbers look like numbers |
| SourceJson.EncodingIsInjective | native/src/js_json.rs:90-117 | values that are written alike are the same up to the form of numbers |
| JsonQuoting.QuotedIsLexical | native/src/js_json.rs:110-116 | the escaping of the service's JSON library is free of prefixes, so the reader's assumption about texts holds for it |
| SourceJson.NormalKeepsEncoding | native/src/js_json.rs:187-212 | normalising numbers does not change the encoding |
| SourceJson.NormalIsStable | native/src/js_json.rs:187-212 | normalising is idempotent and keeps depth and finiteness |
| SourceJson.NormalIsInterchangeable | native/src/js_json.rs:179-215 | a normalised value is admitted exactly when the original is |
| SourceJson.NormalizeWithLimits | native/src/js_json.rs:182-215 | normalises exactly the admitted values and leaves a refused value as it was |
| SourceJson.Visit | native/src/js_json.rs:187-212 | the walk in place yields the normal form |
| Toolsets.Fresh | native/src/dynamic_visibility.rs:281-380 | a session starts exactly when every name in the settings and in the availability is known and some tool is registered; then every tool starts as the settings say, enabled tools are registered and registered ones available |
| Toolsets.SelectGroups | native/src/dynamic_visibility.rs:303-335 | the loop over names finds exactly the groups selected and refuses exactly unknown names |
| Toolsets.SelectionMeans | native/src/dynamic_visibility.rs:303-363 | what `all`, `core`, a group, a tool and empty lists select, and that a read-only session shows no tool that changes something |
| Toolsets.SetGroups | native/src/dynamic_visibility.rs:473-523 | switches exactly the registered tools of the named groups, refuses exactly empty or unknown names, and reports the changes in registry order |
| Toolsets.FlippedExactly | native/src/dynamic_visibility.rs:486-502 | the reported effects are exactly the tools that changed, with their new state, none twice |
| Toolsets.CompactionIsExact | native/src/dynamic_tools.rs:205-217 | one last override per group gives the same tool states as folding the whole history |
| Toolsets.FoldStaysNested | native/src/dynamic_visibility.rs:347-363 | after any history enabled tools are registered, registered ones available, and registration never changes |
| Toolsets.DynamicTools.Preview | native/src/dynamic_tools.rs:205-217 | replaying the overrides over the initial states gives the visible states |
| Toolsets.DynamicTools.Remember | native/src/dynamic_tools.rs:257-264 | after the update the overrides are the last switch of every group in the longer history |
| Toolsets.DynamicTools.Call | native/src/dynamic_tools.rs:197-271 | a refused call changes nothing; otherwise the states are those of the whole history and the effects are the flipped tools |
| Continuations.Continuations.Issue | native/src/confirmation.rs:85-135 | a call is kept exactly while keys, entries, bytes and time allow it and its request has none yet, under a key never pending or honoured before, with exactly the entry asked for |
| Continuations.Continuations.Remove | native/src/confirmation.rs:136-143 | the retained bytes stay the sum over the pending entries |
| Continuations.Continuations.TakeModern | native/src/confirmation.rs:144-161 | a token is honoured exactly with its binding and before its deadline, and never twice; a wrong binding consumes nothing |
| Continuations.Continuations.TakeLegacy | native/src/confirmation.rs:168-210 | a response is honoured exactly when it is well formed, known, owned and in time; any other frame consumes nothing; an unusable answer counts as a cancellation |
| Continuations.Continuations.Expire | native/src/confirmation.rs:214-228 | exactly the entries past their deadline go |
| Continuations.Continuations.Cancel | native/src/confirmation.rs:229-243 | nothing of the request is left, and at most one entry goes |
| Continuations.Continuations.Run | native/src/confirmation.rs:85-243 | over any run each key is honoured at most once and never pending afterwards, and the bytes balance within the bound |
| Ingress.SetKeepsBalance | native/src/http_ingress.rs:73-233 | a call that gives back what it held keeps available plus held credits equal to every capacity |
| Ingress.EmergencyRoom | native/src/http_ingress.rs:58-70 | an emergency connection without a reader always finds a whole body left in its pool |
| Ingress.Gate.AdmitFirst | native/src/http_ingress.rs:73-76 | a call starts only while the gate is open |
| Ingress.Gate.AdmitAcquire | native/src/http_ingress.rs:77-87 | an emergency permit is taken only when no ordinary one is left |
| Ingress.Gate.AdmitSecond | native/src/http_ingress.rs:88-102 | a connection is returned exactly while the gate is not closing, hence never after a completed drain |
| Ingress.Gate.DrainEnd | native/src/http_ingress.rs:109-129 | a drain completes exactly with all permits of both kinds, hence only when no connection, reader or body is live; a drain dropped while it waits gives everything back |
| Ingress.Gate.OpenReader | native/src/http_ingress.rs:188-233 | a reader is opened exactly before the deadline, for a live connection without one, within the limit of its kind, with bytes left for an ordinary one and once for an emergency one, which never lacks bytes; it draws on its own pool, refusals take nothing and name the first cause |
| Ingress.Gate.DropReader | native/src/http_ingress.rs:240-247 | a body that outlives its connection keeps the permit until it is dropped |
| Ingress.Gate.DropHandle | native/src/http_ingress.rs:235-239 | dropping a connection frees its permit only when nothing reads from it |
| Ingress.Gate.Run | native/src/http_ingress.rs:73-247 | over any interleaving of any number of calls and drains no connection is returned after a drain has completed, and idle pools are full |
| Ingress.Collect | native/src/http_ingress.rs:248-307 | a body is complete exactly when nothing fails or stops it, it fits its reservation and it meets a declared length; otherwise the first cause is reported |
| ResponseSink.NoLiveLease | native/src/http_sink.rs:65-84 | a stop class has a free slot exactly when no exchange of the class is left, and then all its body credits |
| ResponseSink.Sinks.OpenChannel | native/src/http_sink.rs:207-251 | an ordinary channel draws on the shared pool only |
| ResponseSink.Sinks.ReserveStop | native/src/http_sink.rs:65-84 | a stop class is reserved exactly when its body fits and no exchange of the class is left, and ordinary credits are not touched |
| ResponseSink.Sinks.OpenReserved | native/src/http_sink.rs:214-251 | the channel of an exchange draws on the output pool of its own class |
| ResponseSink.Sinks.Reserve | native/src/http_sink.rs:275-323 | the shared, local and item credits of a packet are taken together or not at all, from the pool of its sender |
| ResponseSink.Sinks.Commit | native/src/http_sink.rs:195-204 | nothing is queued on a failed or departed sender, and the credits of a refused packet return |
| ResponseSink.Sinks.Drop | native/src/http_sink.rs:25-33 | the end of a packet returns its credits, and with the last reference the class becomes free |
| ResponseSink.Sinks.TakeNext | native/src/http_sink.rs:145-152 | packets leave in order and keep their credits |
| ResponseSink.Sinks.Fail | native/src/http_sink.rs:260-274 | from a failure on, the queue is a suffix of what it was |
| ResponseSink.Sinks.Run | native/src/http_sink.rs:65-323 | over any interleaving available plus held credits equal every pool, a stop class has at most one live exchange, and nothing joins the queue of a sender that had failed |
| ResponseSink.Sinks.DropSender | native/src/http_sink.rs:86-95 | a lease outlives its sender in the packets still in use |
| ResourceStreams.Resources.Install | native/src/http_resources.rs:61-147 | a registered listener's stream begins with its acknowledgement; a refusal registers nothing |
| ResourceStreams.Resources.Cancel | native/src/http_resources.rs:148-156 | the listener is forgotten, its bytes return and its stream fails |
| ResourceStreams.Resources.Publish | native/src/http_resources.rs:204-218 | exactly the stream of a registered listener gains the item, or fails and is forgotten |
| ResourceStreams.Resources.Deliver | native/src/http_resources.rs:196-222 | each listener receives exactly its events, in order, up to the first that its stream refuses, which is when it is forgotten; a closed registry delivers nothing |
| ResourceStreams.Resources.Heartbeat | native/src/http_resources.rs:157-179 | exactly the listeners whose stream accepts the item get it and stay |
| ResourceStreams.Resources.Run | native/src/http_resources.rs:61-223 | over any interleaving every stream begins with its acknowledgement and the retained identity bytes are those of the listeners, within the limit |
| ResourceStreams.Resources.Close | native/src/http_resources.rs:180-189 | every listener's stream fails and the accounts are empty, for good |
| Calendar.FromEpoch | native/src/clock.rs:18-68 | refuses exactly the times after the year 9999 and otherwise yields the valid date with the same day count |
| Calendar.GuardIsYear9999 | native/src/clock.rs:21-23 | the guard is the last day of 9999, so the later check of the year is never reached |
| Calendar.YearStartClosed | native/src/clock.rs:12-32 | counting years by the leap rule agrees with the closed form over 4, 100 and 400 years |
| Calendar.MonthStartClosed | native/src/clock.rs:33-54 | counting months agrees with the closed form of the Gregorian calendar |
| Calendar.StampReadsBack | native/src/clock.rs:55-68 | a timestamp has 24 characters with the marks in their places, and its digits read back to the date, the time and the milliseconds |
| Calendar.DaysAreOrdered | native/src/clock.rs:24-54 | dates are ordered as their day counts, so no two dates share one |
| Calendar.LaterSortsLater | native/src/clock.rs:55-68 | timestamps sort as text exactly as their moments do, and equal moments have equal timestamps |
| ControlLease.ControlDomain.DoClaim | native/src/control.rs:194-226 | succeeds exactly for an identified caller, in bounds, with no other holder; renewal keeps the start |
| ControlLease.ControlDomain.DoRelease | native/src/control.rs:228-237 | only the holder of an active lease releases it |
| ControlLease.ControlDomain.Evaluate | native/src/control.rs:266-279 | refuses exactly calls that are not read-only, are none of the eight that claim, release or stop, and come from anyone but the holder of an active lease |
| ControlLease.ControlDomain.Run | native/src/control.rs:182-279 | whatever calls interleave, until the holder releases or its latest expiry passes every mutating call of another or unidentified caller is refused and the lease keeps its start |
| ObsClient.Client.ReidentifyIfChanged | src/client.ts:336-346 | one attempt exactly if the mask changed in a session; after the call OBS knows the wanted mask exactly when that went through or OBS had been told the same mask before |
| ObsClient.Client.SubscribeHighVolume | src/client.ts:320-334 | a share is counted and its event wanted; the wire changes exactly if the event is new and the send goes through |
| ObsClient.Client.Release | src/client.ts:320-334 | a share is given back once; the last one turns the event off |
| ObsClient.Client.OnHello | src/client.ts:688-753 | the first greeting of a socket is answered with the mask wanted then, and no other greeting is |
| ObsClient.Client.OnIdentified | src/client.ts:619-636 | a new session gets a new generation and catches up: OBS knows the wanted mask exactly when the send went through or nothing had changed since the greeting |
| ObsClient.Client.OnResponse | src/client.ts:661-681 | a reply settles only a request that waits on the same, current socket |
| ObsClient.Client.SendForGeneration | src/client.ts:399-409 | a generation-bound request is sent exactly on the open socket of that generation, or not at all |
| ObsClient.Client.SendTracked | src/client.ts:379-397 | a request gets an identity never used before and goes to the socket chosen for it, even if the session has changed since |
| ObsClient.Client.RejectPendingForSocket | src/client.ts:781-788 | everything that waits on the socket is settled and nothing else |
| ObsClient.Client.OnTimeout | src/client.ts:467-499 | a timeout settles a request that still waits, and only once |
| ObsClient.Client.WireIsUnion | src/client.ts:309-346 | on an open identified socket the last mask attempted is the union of the unreleased shares; OBS knows it exactly when that attempt went through or was for the mask it had been told before, and always if every attempt on the socket went through |
| ObsClient.MissedSubscription | src/client.ts:336-346 | a session in which the one send that would announce a subscription throws, and OBS is left with another mask |
| ObsClient.Client.Run | src/client.ts:309-346 | over any run of events every request settles at most once and is never both waiting and settled; the last mask attempted in a session is the union of the shares, no mask is attempted twice in a row, OBS knows the union exactly when the last attempt was effective and always if no send has thrown; bound messages went to their generation |

## Left out

- Version-1 demo journals and their import, `extra` fields, and the `attempted` counter derived from the provenance.
- Several endpoints' captures at once: the demo model has one selected capture; other endpoints' journals are in the directory but their captures are not modelled.
- Digests: the endpoint and subject hashes of a seal are stood for by the texts they are taken of, that is, as free of collisions.
- The capture's settings inside its identity are compared exactly, not with the tolerance of `native/src/demo.rs:1638-1643`.
- DemoService.Service.Read: a change of the capture and its announcement are one step, and requests about outputs, scenes and membership, whose answers only refuse, are one nondeterministic refusal.
- A write whose outcome is unknown either has taken effect when the service goes on or never does; an effect that arrives later is not modelled.
- DemoService.Service.Recover: with other writers it promises the old values only up to the tolerance of the comparison, because that is all the final sample shows.
- DemoService.Service.Mutate: the value found at a recovery write is two comparisons away from the recorded new value, because the comparison is not transitive.
- File-system publication of journals and receipts, metadata identity and permissions: replaced by the three outcomes of a publication.
- SourceJson.DecodesToNormal: how doubles are printed is a parameter, of which it is assumed that the text has the characters of JSON numbers and reads back to the double.
- Floating point: numbers are reals, rounding to single precision and printing of doubles are parameters, and the conversion between volume multiplier and decibels is not modelled.
- Action labels, message texts and argument parsing.
- Inputs that cannot be muted or have no audio, OBS destroying inputs without items, and groups: the OBS model accepts every setting of an existing input.
- SceneOrdering.Converges: assumes that OBS knows the kinds of missing sources, that a missing scene does not have the name of an input, and that no source that is in the scene more than once has to be moved; `ConvergesExactly` has no such assumption about the stack.
- ApplyOwner.Owner.Begin: the binding, deadline, policy, cancellation and capability checks are one refusal, given as a parameter.
- Continuations.Continuations.TakeLegacy: frames are reduced to whether their fields are in order, the id and the result.
- Ingress: the weak reference to a dropped gate, and the joining of driver tasks.
- ResponseSink: waking of readers, encoding of events, and departures that do not go through `fail` are a parameter of each call.
- ResourceStreams.Resources.Install: the owner's subscription plan and the reservation are parameters, and listener keys are fresh numbers.
- ObsClient: capabilities, batches' result order, authentication and the timing of connection attempts.
- ObsClient.Client.OnIdentified: OBS identifies a socket only after it was sent an identification on it, as its protocol says.
- Capture windows, custody of recordings, the HTTP drivers and the TypeScript server: the same discipline with fewer steps, or plumbing.
