/**
 The durable provenance of one preparation journal (preparation_journal.rs).

 A journal records, field by field, how far the preparation of that field and the later
 attempts to restore it have been delivered. The module defines the transitions the service
 may take (`Apply`), what a stored journal must look like (`Valid`, checked by `Validate`) and
 what one publication may change (`Follows`, checked by `CheckSuccessor`), and relates the three.
 */
module PreparationJournal {
  import opened Common

  const MAX_RECOVERY_ATTEMPTS: nat := 64
  const MAX_REVISION: nat := 9_007_199_254_740_991

  datatype Step =
    | Intent
    | PossibleDispatch
    | Accepted
    | NotDispatched
    | Rejected
    | Unknown
    | ObservedBefore

  datatype Fence = Fence(generation: nat, revision: nat) {
    predicate Valid() {
      generation <= MAX_REVISION && revision <= MAX_REVISION
    }
  }

  datatype Attempt = Attempt(fence: Fence, steps: seq<Step>) {
    /** None stands for an attempt without any step, on which the service panics. */
    function Status(): Option<Step> {
      if steps == [] then None else Some(steps[|steps| - 1])
    }

    predicate Valid(recovery: bool) {
      fence.Valid() && (Shaped(steps) || (recovery && steps == [ObservedBefore]))
    }

    /** The write-ahead mark: the mutation may have been handed to the socket. */
    predicate MayHaveBeenSent() {
      PossibleDispatch in steps
    }
  }

  predicate Shaped(steps: seq<Step>) {
    || steps == [Intent]
    || steps == [Intent, PossibleDispatch]
    || steps == [Intent, NotDispatched]
    || (|steps| == 3 && steps[0] == Intent && steps[1] == PossibleDispatch && Terminal(steps[2]))
  }

  predicate Terminal(step: Step) {
    step in {Accepted, NotDispatched, Rejected, Unknown}
  }

  /** A settled attempt leaves the field as it was, so that another attempt may follow. */
  predicate Settled(status: Option<Step>) {
    status.Some? && status.value in {NotDispatched, Rejected}
  }

  predicate Undecided(status: Option<Step>) {
    status.Some? && status.value in {PossibleDispatch, Unknown}
  }

  datatype Field = Field(preparation: Option<Attempt>, recovery: seq<Attempt>) {
    function PreparationStatus(): Option<Step> {
      if preparation.Some? then preparation.value.Status() else None
    }

    function RecoveryStatus(): Option<Step> {
      if recovery == [] then None else recovery[|recovery| - 1].Status()
    }

    predicate OwnsRestore() {
      PreparationStatus() == Some(Accepted)
    }

    predicate Restored() {
      RecoveryStatus() in {Some(Accepted), Some(ObservedBefore)}
    }

    predicate Uncertain() {
      Undecided(PreparationStatus()) || Undecided(RecoveryStatus())
    }

    predicate Valid() {
      && (Undecided(PreparationStatus()) ==> recovery == [])
      && (preparation.Some? ==> preparation.value.Valid(false))
      && |recovery| <= MAX_RECOVERY_ATTEMPTS
      && (forall k | 0 <= k < |recovery| :: recovery[k].Valid(true))
      && (forall k | 0 <= k < |recovery| - 1 :: Settled(recovery[k].Status()))
      && (!OwnsRestore() ==> forall k | 0 <= k < |recovery| :: recovery[k].steps == [ObservedBefore])
    }
  }

  function StepCount(attempts: seq<Attempt>): nat {
    if attempts == [] then 0
    else StepCount(attempts[..|attempts| - 1]) + |attempts[|attempts| - 1].steps|
  }

  function FieldEvents(field: Field): nat {
    (if field.preparation.Some? then |field.preparation.value.steps| else 0) + StepCount(field.recovery)
  }

  function Events(fields: seq<Field>): nat {
    if fields == [] then 0 else Events(fields[..|fields| - 1]) + FieldEvents(fields[|fields| - 1])
  }

  /** The codec name and the endpoint and subject digests that bind a journal to its operation. */
  datatype Seal = Seal(codec: string, endpointHash: string, subjectHash: string)

  datatype Provenance = Provenance(seal: Seal, revision: nat, completed: bool, fields: seq<Field>) {
    predicate Uncertain() {
      exists i | 0 <= i < |fields| :: fields[i].Uncertain()
    }

    predicate AllRestored() {
      RestoredBefore(fields, |fields|)
    }

    predicate AllPreparationAccepted() {
      !completed && OwnedBefore(fields, |fields|)
    }

    function EventCount(): nat {
      (if completed then 1 else 0) + Events(fields)
    }
  }

  function New(seal: Seal, count: nat): Provenance {
    Provenance(seal, 0, false, seq(count, _ => Field(None, [])))
  }

  predicate OwnedBefore(fields: seq<Field>, index: nat) {
    forall i | 0 <= i < index && i < |fields| :: fields[i].OwnsRestore()
  }

  predicate RestoredBefore(fields: seq<Field>, index: nat) {
    forall i | 0 <= i < index && i < |fields| :: fields[i].Restored()
  }

  predicate NoRecovery(fields: seq<Field>) {
    forall i | 0 <= i < |fields| :: fields[i].recovery == []
  }

  // ----- Transitions -----

  datatype TransitionError = Transition | Limit

  function Bump(p: Provenance): Result<Provenance, TransitionError> {
    if p.completed then Err(Transition)
    else if p.revision + 1 > MAX_REVISION then Err(Limit)
    else Ok(p.(revision := p.revision + 1))
  }

  function WithField(p: Provenance, index: nat, field: Field): Result<Provenance, TransitionError>
    requires index < |p.fields|
  {
    var bumped := Bump(p);
    if bumped.Err? then bumped else Ok(bumped.value.(fields := p.fields[index := field]))
  }

  function BeginPreparation(p: Provenance, index: nat, fence: Fence): Result<Provenance, TransitionError> {
    if !fence.Valid() || !NoRecovery(p.fields) || !OwnedBefore(p.fields, index) then Err(Transition)
    else if index >= |p.fields| || p.fields[index].preparation.Some? then Err(Transition)
    else WithField(p, index, p.fields[index].(preparation := Some(Attempt(fence, [Intent]))))
  }

  function BeginRecovery(p: Provenance, index: nat, fence: Fence): Result<Provenance, TransitionError> {
    if p.Uncertain() || !fence.Valid() || !RestoredBefore(p.fields, index) || index >= |p.fields| then Err(Transition)
    else
      var field := p.fields[index];
      if !field.OwnsRestore() || !MayAttemptRecovery(field) then Err(Transition)
      else WithField(p, index, field.(recovery := field.recovery + [Attempt(fence, [Intent])]))
  }

  predicate MayAttemptRecovery(field: Field) {
    |field.recovery| < MAX_RECOVERY_ATTEMPTS && (field.recovery != [] ==> Settled(field.RecoveryStatus()))
  }

  function ObserveBefore(p: Provenance, index: nat, fence: Fence): Result<Provenance, TransitionError> {
    if !fence.Valid() || !RestoredBefore(p.fields, index) || index >= |p.fields| then Err(Transition)
    else
      var field := p.fields[index];
      if Undecided(field.PreparationStatus()) || !MayAttemptRecovery(field) then Err(Transition)
      else WithField(p, index, field.(recovery := field.recovery + [Attempt(fence, [ObservedBefore])]))
  }

  predicate MayFollow(status: Option<Step>, next: Step) {
    || (status == Some(Intent) && next in {PossibleDispatch, NotDispatched})
    || (status == Some(PossibleDispatch) && Terminal(next))
  }

  function Advance(p: Provenance, index: nat, recovery: bool, next: Step): Result<Provenance, TransitionError> {
    if (!recovery && !NoRecovery(p.fields)) || index >= |p.fields| then Err(Transition)
    else
      var field := p.fields[index];
      var status := if recovery then field.RecoveryStatus() else field.PreparationStatus();
      if !MayFollow(status, next) then Err(Transition)
      else WithField(p, index, if recovery then AdvanceRecovery(field, next) else AdvancePreparation(field, next))
  }

  function Extend(attempt: Attempt, next: Step): Attempt {
    attempt.(steps := attempt.steps + [next])
  }

  function AdvancePreparation(field: Field, next: Step): Field
    requires field.preparation.Some?
  {
    field.(preparation := Some(Extend(field.preparation.value, next)))
  }

  function AdvanceRecovery(field: Field, next: Step): Field
    requires field.recovery != []
  {
    var last := |field.recovery| - 1;
    field.(recovery := field.recovery[last := Extend(field.recovery[last], next)])
  }

  function Complete(p: Provenance): Result<Provenance, TransitionError> {
    if p.Uncertain() || !p.AllRestored() then Err(Transition)
    else
      var bumped := Bump(p);
      if bumped.Err? then bumped else Ok(bumped.value.(completed := true))
  }

  datatype Op =
    | OpPrepare(index: nat, fence: Fence)
    | OpRecover(index: nat, fence: Fence)
    | OpObserve(index: nat, fence: Fence)
    | OpAdvance(index: nat, recovery: bool, next: Step)
    | OpComplete

  function Apply(p: Provenance, op: Op): Result<Provenance, TransitionError> {
    match op
    case OpPrepare(index, fence) => BeginPreparation(p, index, fence)
    case OpRecover(index, fence) => BeginRecovery(p, index, fence)
    case OpObserve(index, fence) => ObserveBefore(p, index, fence)
    case OpAdvance(index, recovery, next) => Advance(p, index, recovery, next)
    case OpComplete => Complete(p)
  }

  // ----- What a stored journal must satisfy -----

  predicate HeaderOk(p: Provenance, seal: Seal, count: nat) {
    p.seal == seal && p.revision <= MAX_REVISION && |p.fields| == count
  }

  /** Field `index` agrees with the fields before it and is itself well formed. */
  predicate FieldAccepted(fields: seq<Field>, index: nat)
    requires index < |fields|
  {
    && (fields[index].preparation.Some? ==> OwnedBefore(fields, index))
    && (fields[index].recovery != [] ==> RestoredBefore(fields, index))
    && fields[index].Valid()
  }

  ghost predicate Valid(p: Provenance, seal: Seal, count: nat) {
    && HeaderOk(p, seal, count)
    && (forall i | 0 <= i < |p.fields| :: FieldAccepted(p.fields, i))
    && p.EventCount() == p.revision
    && (p.completed ==> p.AllRestored() && !p.Uncertain())
  }

  /** Reading the status of field `index` hits an attempt that has no steps. */
  predicate EmptyStatus(fields: seq<Field>, index: nat)
    requires index < |fields|
  {
    var field := fields[index];
    && (field.preparation.Some? ==> OwnedBefore(fields, index))
    && (|| (field.preparation.Some? && field.preparation.value.steps == [])
        || (field.recovery != [] && RestoredBefore(fields, index) && field.recovery[|field.recovery| - 1].steps == []))
  }

  ghost predicate PanicsOnLoad(p: Provenance, seal: Seal, count: nat) {
    && HeaderOk(p, seal, count)
    && exists i | 0 <= i < |p.fields| ::
         EmptyStatus(p.fields, i) && forall j | 0 <= j < i :: FieldAccepted(p.fields, j)
  }

  /** A journal whose one attempt has no steps makes the service panic instead of being refused. */
  lemma EmptyStepsPanic(seal: Seal, fence: Fence)
    ensures var p := Provenance(seal, 0, false, [Field(Some(Attempt(fence, [])), [])]);
            PanicsOnLoad(p, seal, 1) && !Valid(p, seal, 1)
  {
    var p := Provenance(seal, 0, false, [Field(Some(Attempt(fence, [])), [])]);
    assert EmptyStatus(p.fields, 0) && !FieldAccepted(p.fields, 0);
  }

  lemma AcceptedHasStatus(fields: seq<Field>, index: nat)
    requires index <= |fields|
    requires forall j | 0 <= j < index :: FieldAccepted(fields, j)
    ensures forall j | 0 <= j < index :: !EmptyStatus(fields, j)
  {
    forall j | 0 <= j < index ensures !EmptyStatus(fields, j) {
      assert FieldAccepted(fields, j);
    }
  }

  /** The first field that is not accepted decides between refusal and panic. */
  lemma FirstFaultDecides(p: Provenance, seal: Seal, count: nat, index: nat)
    requires HeaderOk(p, seal, count) && index < |p.fields|
    requires forall j | 0 <= j < index :: FieldAccepted(p.fields, j)
    requires !FieldAccepted(p.fields, index) || EmptyStatus(p.fields, index)
    ensures !Valid(p, seal, count)
    ensures PanicsOnLoad(p, seal, count) <==> EmptyStatus(p.fields, index)
  {
    AcceptedHasStatus(p.fields, index);
    assert !FieldAccepted(p.fields, index);
  }

  /** A scan without a fault leaves the event count and the completion mark to decide. */
  lemma CleanScanDecides(p: Provenance, seal: Seal, count: nat)
    requires HeaderOk(p, seal, count)
    requires forall j | 0 <= j < |p.fields| :: FieldAccepted(p.fields, j)
    ensures !PanicsOnLoad(p, seal, count)
    ensures Valid(p, seal, count) <==>
            p.EventCount() == p.revision && (p.completed ==> p.AllRestored() && !p.Uncertain())
  {
    AcceptedHasStatus(p.fields, |p.fields|);
  }

  lemma BeforeNext(fields: seq<Field>, i: nat)
    requires i < |fields|
    ensures OwnedBefore(fields, i + 1) <==> OwnedBefore(fields, i) && fields[i].OwnsRestore()
    ensures RestoredBefore(fields, i + 1) <==> RestoredBefore(fields, i) && fields[i].Restored()
  {
  }

  lemma EventsOfPrefix(fields: seq<Field>, i: nat)
    requires i < |fields|
    ensures Events(fields[..i + 1]) == Events(fields[..i]) + FieldEvents(fields[i])
  {
    assert fields[..i + 1][..i] == fields[..i];
  }

  datatype Verdict = Sound | Invalid | Panicked

  /** Checks field `index`, given whether an earlier field stopped preparation or recovery. */
  method ScanField(fields: seq<Field>, index: nat, preparationStopped: bool, recoveryStopped: bool) returns (verdict: Verdict)
    requires index < |fields|
    requires preparationStopped == !OwnedBefore(fields, index) && recoveryStopped == !RestoredBefore(fields, index)
    ensures verdict == Sound <==> FieldAccepted(fields, index)
    ensures verdict == Panicked <==> EmptyStatus(fields, index)
  {
    var field := fields[index];
    if preparationStopped && field.preparation.Some? {
      return Invalid;
    }
    if field.preparation.Some? && field.preparation.value.steps == [] {
      return Panicked;
    }
    if recoveryStopped && field.recovery != [] {
      return Invalid;
    }
    if field.recovery != [] && field.recovery[|field.recovery| - 1].steps == [] {
      return Panicked;
    }
    verdict := if field.Valid() then Sound else Invalid;
  }

  /**
   Accepts exactly the valid journals. A journal that is not valid is refused, except that an
   attempt with an empty step list reached before any other fault makes the service panic.
   */
  method Validate(p: Provenance, seal: Seal, count: nat) returns (verdict: Verdict)
    ensures verdict == Sound <==> Valid(p, seal, count)
    ensures verdict == Panicked <==> PanicsOnLoad(p, seal, count)
  {
    if p.seal != seal || p.revision > MAX_REVISION || |p.fields| != count {
      return Invalid;
    }
    hide Valid, PanicsOnLoad, FieldAccepted, EmptyStatus, Events, FieldEvents;
    hide OwnedBefore, RestoredBefore, Field.OwnsRestore, Field.Restored;
    EventsOfNone(p.fields);
    var events: nat := if p.completed then 1 else 0;
    var preparationStopped, recoveryStopped := false, false;
    for i := 0 to |p.fields|
      invariant preparationStopped == !OwnedBefore(p.fields, i)
      invariant recoveryStopped == !RestoredBefore(p.fields, i)
      invariant events == (if p.completed then 1 else 0) + Events(p.fields[..i])
      invariant forall j | 0 <= j < i :: FieldAccepted(p.fields, j)
    {
      verdict := ScanField(p.fields, i, preparationStopped, recoveryStopped);
      if verdict != Sound {
        FirstFaultDecides(p, seal, count, i);
        return;
      }
      BeforeNext(p.fields, i);
      EventsOfPrefix(p.fields, i);
      preparationStopped := preparationStopped || !p.fields[i].OwnsRestore();
      recoveryStopped := recoveryStopped || !p.fields[i].Restored();
      events := events + FieldEvents(p.fields[i]);
    }
    assert p.fields[..|p.fields|] == p.fields;
    CleanScanDecides(p, seal, count);
    verdict := if events != p.revision || (p.completed && (!p.AllRestored() || p.Uncertain())) then Invalid else Sound;
  }

  lemma EventsOfNone(fields: seq<Field>)
    ensures Events(fields[..0]) == 0 && OwnedBefore(fields, 0) && RestoredBefore(fields, 0)
  {
  }
}
