/**
 The durable receipt of one Apply Scene workflow (operation_store.rs): its phases, what a stored
 receipt must look like, and how it may be updated.
 */
module ApplyReceipts {
  import opened Common

  const MAX_SAFE_INTEGER: nat := 9_007_199_254_740_991
  const U64: nat := 0x1_0000_0000_0000_0000

  datatype Phase = Prepared | DispatchingCreations | Continuation | DispatchingChanges | Closed | Aborted | Unknown

  datatype StagePhase = NotNeeded | Ready | Dispatching | Acknowledged | NotDispatched | Lost

  datatype Counts = Counts(successful: nat, failed: nat, skipped: nat)

  datatype StageRecord = StageRecord(
    count: nat,
    phase: StagePhase,
    dispatched: Option<bool>,
    acknowledged: Option<bool>,
    counts: Option<Counts>,
    notAttempted: Option<nat>)

  datatype Receipt = Receipt(created: nat, updated: nat, phase: Phase, creations: StageRecord, changes: Option<StageRecord>)

  datatype Update =
    | Proceed
    | DispatchCreations
    | CreationsAcknowledged(counts: Counts)
    | CreationsNotDispatched
    | CreationsUnknown
    | DispatchChanges(count: nat)
    | ChangesAcknowledged(counts: Counts)
    | ChangesNotDispatched
    | ChangesUnknown
    | Close
    | Abort

  function NewStage(count: nat): StageRecord {
    StageRecord(count, if count == 0 then NotNeeded else Ready, Some(false), None, None, if count == 0 then Some(0) else None)
  }

  function SetStage(s: StageRecord, phase: StagePhase, counts: Option<Counts>): StageRecord {
    match phase
    case NotNeeded | NotDispatched => StageRecord(s.count, phase, Some(false), None, counts, Some(s.count))
    case Ready => StageRecord(s.count, phase, Some(false), None, counts, None)
    case Dispatching | Lost => StageRecord(s.count, phase, None, None, counts, None)
    case Acknowledged => StageRecord(s.count, phase, Some(true), Some(true), counts, None)
  }

  /** The counts account for every request; a halting batch stops at its first failure. */
  predicate CountsFit(c: Counts, count: nat, halt: bool) {
    && c.successful + c.failed + c.skipped < U64
    && c.successful + c.failed + c.skipped == count
    && if halt then c.failed <= 1 && (c.failed != 0 || c.skipped == 0) else c.skipped == 0
  }

  predicate StageValid(s: StageRecord, halt: bool) {
    && s.count <= MAX_SAFE_INTEGER
    && (s.count == 0 <==> s.phase == NotNeeded)
    && match s.phase
       case NotNeeded | NotDispatched => s == StageRecord(s.count, s.phase, Some(false), None, None, Some(s.count))
       case Ready => s == StageRecord(s.count, s.phase, Some(false), None, None, None)
       case Dispatching | Lost => s == StageRecord(s.count, s.phase, None, None, None, None)
       case Acknowledged =>
         s == StageRecord(s.count, s.phase, Some(true), Some(true), s.counts, None) && s.counts.Some? && CountsFit(s.counts.value, s.count, halt)
  }

  predicate SuccessfulCreations(r: Receipt) {
    || r.creations.phase == NotNeeded
    || (r.creations.phase == Acknowledged && r.creations.counts.Some? && r.creations.counts.value.failed == 0 && r.creations.counts.value.skipped == 0)
  }

  /** There were no creations, or every one of them succeeded. */
  predicate AllCreated(r: Receipt) {
    r.creations.count == 0 || r.creations.counts == Some(Counts(r.creations.count, 0, 0))
  }

  lemma SuccessfulMeansAll(r: Receipt)
    requires Checked(r)
    ensures SuccessfulCreations(r) <==> AllCreated(r)
  {
  }

  predicate Layout(r: Receipt) {
    match r.phase
    case Prepared => r.creations.phase in {Ready, NotNeeded} && r.changes.None?
    case DispatchingCreations => r.creations.phase == Dispatching && r.changes.None?
    case Continuation => SuccessfulCreations(r) && r.changes.None?
    case DispatchingChanges => SuccessfulCreations(r) && r.changes.Some? && r.changes.value.phase == Dispatching
    case Closed => SuccessfulCreations(r) && r.changes.Some? && r.changes.value.phase in {Acknowledged, NotNeeded}
    case Aborted =>
      if r.changes.None? then r.creations.phase in {Acknowledged, NotDispatched, NotNeeded}
      else SuccessfulCreations(r) && r.changes.value.phase == NotDispatched
    case Unknown =>
      || (r.creations.phase == Lost && r.changes.None?)
      || (SuccessfulCreations(r) && r.changes.Some? && r.changes.value.phase == Lost)
  }

  predicate Checked(r: Receipt) {
    && r.created <= r.updated
    && StageValid(r.creations, true)
    && (r.changes.Some? ==> StageValid(r.changes.value, false))
    && Layout(r)
  }

  function Prepare(count: nat, now: nat): Option<Receipt> {
    var r := Receipt(now, now, Prepared, NewStage(count), None);
    if Checked(r) then Some(r) else None
  }

  function Next(r: Receipt, update: Update): Option<Receipt> {
    match (r.phase, update)
    case (Prepared, Proceed) =>
      if r.creations.phase == NotNeeded then Some(r.(phase := Continuation)) else None
    case (Prepared, DispatchCreations) =>
      if r.creations.count > 0 then Some(r.(phase := DispatchingCreations, creations := SetStage(r.creations, Dispatching, None))) else None
    case (DispatchingCreations, CreationsAcknowledged(c)) =>
      Some(r.(phase := if c.failed == 0 && c.skipped == 0 then Continuation else Aborted,
              creations := SetStage(r.creations, Acknowledged, Some(c))))
    case (DispatchingCreations, CreationsNotDispatched) =>
      Some(r.(phase := Aborted, creations := SetStage(r.creations, NotDispatched, None)))
    case (DispatchingCreations, CreationsUnknown) =>
      Some(r.(phase := Unknown, creations := SetStage(r.creations, Lost, None)))
    case (Continuation, DispatchChanges(count)) =>
      if count > 0 then Some(r.(phase := DispatchingChanges, changes := Some(SetStage(NewStage(count), Dispatching, None)))) else None
    case (DispatchingChanges, ChangesAcknowledged(c)) =>
      if r.changes.None? then None else Some(r.(phase := Closed, changes := Some(SetStage(r.changes.value, Acknowledged, Some(c)))))
    case (DispatchingChanges, ChangesNotDispatched) =>
      if r.changes.None? then None else Some(r.(phase := Aborted, changes := Some(SetStage(r.changes.value, NotDispatched, None))))
    case (DispatchingChanges, ChangesUnknown) =>
      if r.changes.None? then None else Some(r.(phase := Unknown, changes := Some(SetStage(r.changes.value, Lost, None))))
    case (Continuation, Close) => Some(r.(phase := Closed, changes := Some(NewStage(0))))
    case (Prepared, Abort) =>
      Some(r.(phase := Aborted,
              creations := if r.creations.phase == Ready then SetStage(r.creations, NotDispatched, None) else r.creations))
    case (Continuation, Abort) => Some(r.(phase := Aborted))
    case _ => None
  }

  function Updated(r: Receipt, update: Update, now: nat): Option<Receipt> {
    var next := Next(r, update);
    if next.Some? && Checked(next.value.(updated := now)) then Some(next.value.(updated := now)) else None
  }

  /**
   The updates that a phase allows, with the counts that they must carry: all creations succeed or
   one fails and stops the rest, and every change is attempted.
   */
  predicate Legal(r: Receipt, update: Update) {
    match update
    case Proceed => r.phase == Prepared && r.creations.count == 0
    case DispatchCreations => r.phase == Prepared && r.creations.count > 0
    case CreationsAcknowledged(c) =>
      && r.phase == DispatchingCreations && c.successful + c.failed + c.skipped == r.creations.count
      && (c.successful == r.creations.count || c.failed == 1)
    case CreationsNotDispatched | CreationsUnknown => r.phase == DispatchingCreations
    case DispatchChanges(count) => r.phase == Continuation && 0 < count <= 9_007_199_254_740_991
    case ChangesAcknowledged(c) => r.phase == DispatchingChanges && r.changes.Some? && c.successful + c.failed == r.changes.value.count && c.skipped == 0
    case ChangesNotDispatched | ChangesUnknown => r.phase == DispatchingChanges
    case Close => r.phase == Continuation
    case Abort => r.phase in {Prepared, Continuation}
  }

  /** From a stored receipt, an update is accepted exactly when it is legal and time has not run back. */
  lemma AcceptedExactlyWhenLegal(r: Receipt, update: Update, now: nat)
    requires Checked(r)
    ensures Updated(r, update, now).Some? <==> Legal(r, update) && r.created <= now
  {
  }

  // ----- Histories -----

  function Rank(phase: Phase): nat {
    match phase
    case Prepared => 0
    case DispatchingCreations => 1
    case Continuation => 2
    case DispatchingChanges => 3
    case Closed | Aborted | Unknown => 4
  }

  /** Consecutive receipts of one workflow, each an update of the one before it. */
  ghost predicate History(run: seq<Receipt>) {
    && (forall i | 0 <= i < |run| :: Checked(run[i]))
    && (forall i | 0 < i < |run| :: Succeeds(run[i - 1], run[i]))
  }

  ghost predicate Succeeds(r: Receipt, q: Receipt) {
    exists update :: Updated(r, update, q.updated) == Some(q)
  }

  lemma UpdateAdvances(r: Receipt, update: Update, now: nat, q: Receipt)
    requires Checked(r) && Updated(r, update, now) == Some(q)
    ensures Rank(r.phase) < Rank(q.phase)
    ensures r.creations.phase in {NotNeeded, Acknowledged, NotDispatched, Lost} ==> q.creations == r.creations
    ensures q.created == r.created && q.creations.count == r.creations.count
  {
  }

  lemma {:induction false} HistoryAdvances(run: seq<Receipt>, i: nat, j: nat)
    requires History(run) && i < j < |run|
    ensures Rank(run[i].phase) < Rank(run[j].phase)
    ensures run[i].creations.phase in {NotNeeded, Acknowledged, NotDispatched, Lost} ==> run[j].creations == run[i].creations
  {
    hide Updated, Checked, Rank;
    assert Succeeds(run[j - 1], run[j]);
    var update :| Updated(run[j - 1], update, run[j].updated) == Some(run[j]);
    UpdateAdvances(run[j - 1], update, run[j].updated, run[j]);
    if i < j - 1 {
      HistoryAdvances(run, i, j - 1);
    }
  }

  /**
   No workflow has more than five receipts, enters a phase twice, dispatches changes before its
   creations all succeeded, or revises what became of its creations.
   */
  lemma EveryPhaseAtMostOnce(run: seq<Receipt>)
    requires History(run)
    ensures |run| <= 5
    ensures forall i, j | 0 <= i < j < |run| :: run[i].phase != run[j].phase
    ensures forall i, j | 0 <= i <= j < |run| && run[i].phase == DispatchingChanges ::
              SuccessfulCreations(run[j]) && AllCreated(run[j]) && run[j].creations == run[i].creations
  {
    forall i, j | 0 <= i < j < |run| ensures run[i].phase != run[j].phase {
      HistoryAdvances(run, i, j);
    }
    forall i, j | 0 <= i <= j < |run| && run[i].phase == DispatchingChanges
      ensures SuccessfulCreations(run[j]) && AllCreated(run[j]) && run[j].creations == run[i].creations
    {
      assert Checked(run[i]) && Checked(run[j]);
      if i < j {
        HistoryAdvances(run, i, j);
      }
    }
    if |run| > 5 {
      HistoryAdvances(run, 0, 1);
      HistoryAdvances(run, 1, 2);
      HistoryAdvances(run, 2, 3);
      HistoryAdvances(run, 3, 4);
      HistoryAdvances(run, 4, 5);
    }
  }
}
