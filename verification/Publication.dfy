/**
 One publication of a journal (preparation_journal.rs, `successor`) against the transitions the
 service takes in memory: which replacements of a stored journal does the store let through?
 */
module Publication {
  import opened Common
  import opened PreparationJournal

  predicate AttemptExtends(was: Option<Attempt>, now: Option<Attempt>) {
    match (was, now)
    case (None, None) => true
    case (None, Some(n)) => n.steps == [Intent] || n.steps == [ObservedBefore]
    case (Some(o), Some(n)) =>
      o == n || (o.fence == n.fence && |n.steps| == |o.steps| + 1 && o.steps <= n.steps)
    case (Some(_), None) => false
  }

  predicate FieldExtends(was: Field, now: Field, recoveryStarted: bool) {
    && (was.preparation != now.preparation ==> !recoveryStarted)
    && AttemptExtends(was.preparation, now.preparation)
    && |was.recovery| <= |now.recovery| <= |was.recovery| + 1
    && (forall k | 0 <= k < |was.recovery| :: AttemptExtends(Some(was.recovery[k]), Some(now.recovery[k])))
    && (|now.recovery| == |was.recovery| + 1 ==> now.recovery[|was.recovery|].Valid(true))
  }

  ghost predicate Grows(p: Provenance, q: Provenance) {
    && !p.completed
    && p.seal == q.seal
    && |p.fields| == |q.fields|
    && q.revision == p.revision + 1
    && (forall i | 0 <= i < |p.fields| && p.fields[i] != q.fields[i] ::
          FieldExtends(p.fields[i], q.fields[i], !NoRecovery(p.fields)))
    && if q.completed
       then p.fields == q.fields && q.AllRestored() && !q.Uncertain()
       else exists i :: ChangesOnly(p.fields, q.fields, i)
  }

  predicate ChangesOnly(was: seq<Field>, now: seq<Field>, i: nat) {
    && |was| == |now|
    && i < |was|
    && was[i] != now[i]
    && forall j | 0 <= j < |was| && j != i :: was[j] == now[j]
  }

  /** What the store demands of a replacement of `p` by `q`. */
  ghost predicate Follows(p: Provenance, q: Provenance) {
    p.EventCount() == p.revision && q.EventCount() == q.revision && (p == q || Grows(p, q))
  }

  method CheckSuccessor(p: Provenance, q: Provenance) returns (accepted: bool)
    ensures accepted <==> Follows(p, q)
  {
    if p.EventCount() != p.revision || q.EventCount() != q.revision {
      return false;
    }
    if p == q {
      return true;
    }
    if p.completed || p.seal != q.seal || |p.fields| != |q.fields| || q.revision != p.revision + 1 {
      return false;
    }
    var candidates: seq<nat> := [];
    for i := 0 to |p.fields|
      invariant forall a | 0 <= a < |candidates| :: candidates[a] < i && p.fields[candidates[a]] != q.fields[candidates[a]]
      invariant forall j: nat | j < i && p.fields[j] != q.fields[j] :: j in candidates
      invariant forall a, b | 0 <= a < b < |candidates| :: candidates[a] < candidates[b]
      invariant forall j | 0 <= j < i && p.fields[j] != q.fields[j] ::
                  FieldExtends(p.fields[j], q.fields[j], !NoRecovery(p.fields))
    {
      if p.fields[i] != q.fields[i] {
        if !FieldExtends(p.fields[i], q.fields[i], !NoRecovery(p.fields)) {
          return false;
        }
        candidates := candidates + [i];
      }
    }
    if q.completed {
      assert candidates == [] <==> p.fields == q.fields by {
        if candidates != [] {
          assert candidates[0] in candidates;
        }
      }
      accepted := candidates == [] && q.AllRestored() && !q.Uncertain();
    } else {
      accepted := |candidates| == 1;
      SingleCandidate(p.fields, q.fields, candidates);
    }
  }

  lemma SingleCandidate(was: seq<Field>, now: seq<Field>, candidates: seq<nat>)
    requires |was| == |now|
    requires forall a | 0 <= a < |candidates| :: candidates[a] < |was| && was[candidates[a]] != now[candidates[a]]
    requires forall j: nat | j < |was| && was[j] != now[j] :: j in candidates
    requires forall a, b | 0 <= a < b < |candidates| :: candidates[a] < candidates[b]
    ensures |candidates| == 1 <==> exists i :: ChangesOnly(was, now, i)
  {
    if |candidates| == 1 {
      assert ChangesOnly(was, now, candidates[0]);
    }
    if i: nat :| ChangesOnly(was, now, i) {
      assert i in candidates;
      assert |candidates| > 1 ==> candidates[0] < candidates[1];
    }
  }

  // ----- Counting lemmas -----

  lemma {:induction false} EventsOfUpdate(fields: seq<Field>, i: nat, g: Field)
    requires i < |fields|
    ensures Events(fields[i := g]) == Events(fields) - FieldEvents(fields[i]) + FieldEvents(g)
  {
    var last := |fields| - 1;
    if i < last {
      EventsOfUpdate(fields[..last], i, g);
      assert fields[i := g][..last] == fields[..last][i := g];
    } else {
      assert fields[i := g][..last] == fields[..last];
    }
  }

  lemma StepCountAtLast(attempts: seq<Attempt>, a: Attempt)
    requires attempts != []
    ensures StepCount(attempts[|attempts| - 1 := a]) ==
            StepCount(attempts) - |attempts[|attempts| - 1].steps| + |a.steps|
  {
    var last := |attempts| - 1;
    assert attempts[last := a][..last] == attempts[..last];
  }

  lemma StepCountAppend(attempts: seq<Attempt>, a: Attempt)
    ensures StepCount(attempts + [a]) == StepCount(attempts) + |a.steps|
  {
    assert (attempts + [a])[..|attempts|] == attempts;
  }

  // ----- Every transition is accepted by the store -----

  /** A change of one field that keeps the field well formed and adds one event. */
  lemma OneFieldChange(p: Provenance, index: nat, g: Field, seal: Seal, count: nat)
    requires Valid(p, seal, count) && !p.completed && p.revision < MAX_REVISION && index < |p.fields|
    requires FieldEvents(g) == FieldEvents(p.fields[index]) + 1
    requires FieldExtends(p.fields[index], g, !NoRecovery(p.fields))
    requires FieldAccepted(p.fields[index := g], index)
    requires p.fields[index].OwnsRestore() ==> g.OwnsRestore()
    requires p.fields[index].Restored() ==> g.Restored()
    ensures var q := p.(revision := p.revision + 1, fields := p.fields[index := g]);
            Valid(q, seal, count) && Follows(p, q) && q != p
  {
    var q := p.(revision := p.revision + 1, fields := p.fields[index := g]);
    EventsOfUpdate(p.fields, index, g);
    assert ChangesOnly(p.fields, q.fields, index);
    forall i | 0 <= i < |q.fields| ensures FieldAccepted(q.fields, i) {
      assert FieldAccepted(p.fields, i);
    }
  }

  lemma ExtendedAttempt(a: Attempt, recovery: bool, next: Step)
    requires a.Valid(recovery) && MayFollow(a.Status(), next)
    ensures var b := Extend(a, next); b.Valid(false) && b.Valid(true) && b.Status() == Some(next)
    ensures AttemptExtends(Some(a), Some(Extend(a, next)))
    ensures a.steps != [ObservedBefore]
  {
  }

  lemma AdvancedPreparation(f: Field, next: Step)
    requires f.Valid() && f.recovery == [] && MayFollow(f.PreparationStatus(), next)
    ensures var g := AdvancePreparation(f, next);
            g.Valid() && FieldEvents(g) == FieldEvents(f) + 1 && FieldExtends(f, g, false)
    ensures !f.OwnsRestore() && !f.Restored()
  {
    ExtendedAttempt(f.preparation.value, false, next);
  }

  lemma AdvancedRecovery(f: Field, next: Step)
    requires f.Valid() && MayFollow(f.RecoveryStatus(), next)
    ensures var g := AdvanceRecovery(f, next);
            g.Valid() && FieldEvents(g) == FieldEvents(f) + 1 && FieldExtends(f, g, true)
    ensures !f.Restored()
  {
    var last := |f.recovery| - 1;
    var a := f.recovery[last];
    assert a.Valid(true);
    ExtendedAttempt(a, true, next);
    StepCountAtLast(f.recovery, Extend(a, next));
    assert f.OwnsRestore();
  }

  lemma RecoveryBegunField(f: Field, a: Attempt)
    requires f.Valid() && MayAttemptRecovery(f) && a.Valid(true)
    requires a.steps == [ObservedBefore] || (a.steps == [Intent] && f.OwnsRestore())
    requires !Undecided(f.PreparationStatus())
    ensures var g := f.(recovery := f.recovery + [a]);
            g.Valid() && FieldEvents(g) == FieldEvents(f) + 1 && FieldExtends(f, g, true) && !f.Restored()
  {
    StepCountAppend(f.recovery, a);
  }

  /** What a transition does to the field it concerns. */
  lemma TransitionField(p: Provenance, op: Op, q: Provenance, seal: Seal, count: nat)
    requires Valid(p, seal, count) && !op.OpComplete? && Apply(p, op) == Ok(q)
    ensures op.index < |p.fields| && WithField(p, op.index, q.fields[op.index]) == Ok(q)
    ensures var f, g := p.fields[op.index], q.fields[op.index];
            && g.Valid() && FieldEvents(g) == FieldEvents(f) + 1
            && FieldExtends(f, g, !NoRecovery(p.fields))
            && (f.OwnsRestore() ==> g.OwnsRestore()) && !f.Restored()
    ensures q.fields[op.index].preparation.Some? ==> OwnedBefore(p.fields, op.index)
    ensures q.fields[op.index].recovery != [] ==> RestoredBefore(p.fields, op.index)
  {
    hide Events;
    hide StepCount;
    hide Shaped;
    assert FieldAccepted(p.fields, op.index);
    var f := p.fields[op.index];
    match op {
      case OpPrepare(index, fence) =>
        assert Shaped([Intent]) by { IntentIsShaped(); }
      case OpRecover(index, fence) =>
        assert !f.Uncertain();
        IntentIsShaped();
        RecoveryBegunField(f, Attempt(fence, [Intent]));
      case OpObserve(index, fence) =>
        RecoveryBegunField(f, Attempt(fence, [ObservedBefore]));
      case OpAdvance(index, recovery, next) =>
        if recovery {
          AdvancedRecovery(f, next);
        } else {
          AdvancedPreparation(f, next);
        }
    }
  }

  lemma IntentIsShaped()
    ensures Shaped([Intent])
  {
  }

  /** Whatever the service does to a valid journal, the store accepts the result. */
  lemma TransitionsArePublishable(p: Provenance, op: Op, q: Provenance, seal: Seal, count: nat)
    requires Valid(p, seal, count)
    requires Apply(p, op) == Ok(q)
    ensures Valid(q, seal, count) && Follows(p, q) && q != p
  {
    hide FieldExtends;
    hide FieldEvents;
    hide Field.Valid;
    if !op.OpComplete? {
      TransitionField(p, op, q, seal, count);
      OneFieldChange(p, op.index, q.fields[op.index], seal, count);
    }
  }

  // ----- The store accepts nothing else, but for one case -----

  /** A publication that starts restoring field `index` although a dispatch is still undecided. */
  ghost predicate Overtakes(p: Provenance, q: Provenance, index: nat, fence: Fence) {
    && index < |p.fields|
    && fence.Valid()
    && p.Uncertain()
    && RestoredBefore(p.fields, index)
    && p.fields[index].OwnsRestore()
    && MayAttemptRecovery(p.fields[index])
    && WithField(p, index, RecoveryBegun(p.fields[index], fence)) == Ok(q)
  }

  function RecoveryBegun(field: Field, fence: Fence): Field {
    field.(recovery := field.recovery + [Attempt(fence, [Intent])])
  }

  lemma SettledIsFrozen(a: Attempt, b: Attempt)
    requires a.Valid(true) && b.Valid(true) && Settled(a.Status())
    requires AttemptExtends(Some(a), Some(b))
    ensures a == b
  {
  }

  /** Only the last of the recovery attempts on record can still grow. */
  lemma EarlierAttemptsFrozen(f: Field, g: Field, started: bool)
    requires f.Valid() && g.Valid() && FieldExtends(f, g, started) && f.recovery != []
    ensures var last := |f.recovery| - 1;
            g.recovery[..|f.recovery|] == f.recovery[last := g.recovery[last]]
  {
    forall k | 0 <= k < |f.recovery| - 1 ensures f.recovery[k] == g.recovery[k] {
      SettledIsFrozen(f.recovery[k], g.recovery[k]);
    }
  }

  /** How the attempts that were on record before have grown. */
  lemma KeptAttempts(f: Field, g: Field, started: bool)
    requires f.Valid() && g.Valid() && FieldExtends(f, g, started)
    ensures var kept := g.recovery[..|f.recovery|];
            || kept == f.recovery
            || (exists next :: f.recovery != [] && kept == AdvanceRecovery(f, next).recovery
                               && StepCount(kept) == StepCount(f.recovery) + 1)
  {
    if f.recovery != [] {
      var last := |f.recovery| - 1;
      var a, b := f.recovery[last], g.recovery[last];
      EarlierAttemptsFrozen(f, g, started);
      if a != b {
        var next := b.steps[|b.steps| - 1];
        assert b == Extend(a, next);
        StepCountAtLast(f.recovery, b);
        assert g.recovery[..|f.recovery|] == AdvanceRecovery(f, next).recovery;
      }
    }
  }

  /** The recovery attempts of a field either keep their number or gain one at the end. */
  lemma RecoveryGrowth(f: Field, g: Field, started: bool)
    requires f.Valid() && g.Valid() && FieldExtends(f, g, started)
    ensures StepCount(g.recovery) >= StepCount(f.recovery)
    ensures StepCount(g.recovery) == StepCount(f.recovery) ==> f.recovery == g.recovery
    ensures StepCount(g.recovery) == StepCount(f.recovery) + 1 && |g.recovery| == |f.recovery| ==>
              exists next :: f.recovery != [] && g.recovery == AdvanceRecovery(f, next).recovery
    ensures StepCount(g.recovery) == StepCount(f.recovery) + 1 && |g.recovery| == |f.recovery| + 1 ==>
              g.recovery[..|f.recovery|] == f.recovery && |g.recovery[|f.recovery|].steps| == 1
  {
    hide AttemptExtends;
    hide Settled;
    hide Undecided;
    var n := |f.recovery|;
    KeptAttempts(f, g, started);
    if |g.recovery| == n {
      assert g.recovery[..n] == g.recovery;
    } else {
      assert g.recovery[n].Valid(true);
      StepCountAppend(g.recovery[..n], g.recovery[n]);
      assert g.recovery == g.recovery[..n] + [g.recovery[n]];
    }
  }

  /** The five ways in which a field grows by one event. */
  ghost predicate GrewBy(f: Field, g: Field, started: bool, op: Op) {
    match op
    case OpPrepare(_, fence) =>
      !started && fence.Valid() && f.preparation.None? && g == f.(preparation := Some(Attempt(fence, [Intent])))
    case OpRecover(_, fence) => fence.Valid() && MayAttemptRecovery(f) && g == RecoveryBegun(f, fence)
    case OpObserve(_, fence) =>
      && fence.Valid() && MayAttemptRecovery(f) && !Undecided(f.PreparationStatus())
      && g == f.(recovery := f.recovery + [Attempt(fence, [ObservedBefore])])
    case OpAdvance(_, recovery, next) =>
      && (recovery || !started)
      && MayFollow(if recovery then f.RecoveryStatus() else f.PreparationStatus(), next)
      && g == (if recovery then AdvanceRecovery(f, next) else AdvancePreparation(f, next))
    case OpComplete => false
  }

  lemma PreparationStep(f: Field, g: Field, index: nat) returns (op: Op)
    requires f.Valid() && g.Valid() && FieldExtends(f, g, false)
    requires f.preparation != g.preparation && f.recovery == g.recovery
    ensures GrewBy(f, g, false, op) && !op.OpComplete? && op.index == index
  {
    var a := g.preparation.value;
    if f.preparation.None? {
      op := OpPrepare(index, a.fence);
    } else {
      var next := a.steps[|a.steps| - 1];
      assert a == Extend(f.preparation.value, next);
      op := OpAdvance(index, false, next);
    }
  }

  lemma RecoveryAdvanceStep(f: Field, g: Field, started: bool, next: Step)
    requires f.Valid() && g.Valid() && f.recovery != [] && g == AdvanceRecovery(f, next)
    ensures MayFollow(f.RecoveryStatus(), next)
  {
    var last := |f.recovery| - 1;
    var a, b := f.recovery[last], g.recovery[last];
    assert a.Valid(true) && b.Valid(true) && b.steps == a.steps + [next];
    assert b.steps[0] == a.steps[0] && b.steps[|a.steps|] == next && (|a.steps| == 2 ==> b.steps[1] == a.steps[1]);
  }

  lemma RecoveryBeginStep(f: Field, g: Field, a: Attempt)
    requires f.Valid() && g.Valid() && g == f.(recovery := f.recovery + [a]) && |a.steps| == 1
    ensures a.fence.Valid() && MayAttemptRecovery(f) && !Undecided(f.PreparationStatus())
    ensures a.steps == [Intent] || a.steps == [ObservedBefore]
  {
    var n := |f.recovery|;
    assert g.recovery[n] == a && a.Valid(true);
    if n > 0 {
      assert g.recovery[n - 1] == f.recovery[n - 1] && Settled(g.recovery[n - 1].Status());
    }
  }

  lemma RecoveryStep(f: Field, g: Field, started: bool, index: nat) returns (op: Op)
    requires f.Valid() && g.Valid() && FieldExtends(f, g, started) && f.preparation == g.preparation
    requires StepCount(g.recovery) == StepCount(f.recovery) + 1
    ensures GrewBy(f, g, started, op) && !op.OpComplete? && op.index == index
  {
    hide StepCount;
    hide Shaped;
    hide Field.Valid;
    RecoveryGrowth(f, g, started);
    var n := |f.recovery|;
    if |g.recovery| == n {
      var next :| f.recovery != [] && g.recovery == AdvanceRecovery(f, next).recovery;
      RecoveryAdvanceStep(f, g, started, next);
      op := OpAdvance(index, true, next);
      assert GrewBy(f, g, started, op);
    } else {
      var a := g.recovery[n];
      assert g.recovery == f.recovery + [a];
      RecoveryBeginStep(f, g, a);
      op := if a.steps == [Intent] then OpRecover(index, a.fence) else OpObserve(index, a.fence);
      assert a == Attempt(a.fence, a.steps);
      assert GrewBy(f, g, started, op);
    }
  }

  lemma FieldStep(f: Field, g: Field, started: bool, index: nat) returns (op: Op)
    requires f.Valid() && g.Valid() && FieldExtends(f, g, started)
    requires FieldEvents(g) == FieldEvents(f) + 1
    ensures GrewBy(f, g, started, op) && !op.OpComplete? && op.index == index
  {
    RecoveryGrowth(f, g, started);
    if f.preparation != g.preparation {
      op := PreparationStep(f, g, index);
    } else {
      op := RecoveryStep(f, g, started, index);
    }
  }

  /** An accepted publication that does not complete the journal changed one field, by one event. */
  lemma ChangedField(p: Provenance, q: Provenance, seal: Seal, count: nat) returns (i: nat, op: Op)
    requires Valid(p, seal, count) && Valid(q, seal, count) && Grows(p, q) && !q.completed
    ensures i < |p.fields| && !op.OpComplete? && op.index == i
    ensures WithField(p, i, q.fields[i]) == Ok(q)
    ensures FieldAccepted(p.fields, i) && FieldAccepted(q.fields, i)
    ensures GrewBy(p.fields[i], q.fields[i], !NoRecovery(p.fields), op)
  {
    hide FieldExtends;
    hide FieldEvents;
    hide Field.Valid;
    hide GrewBy;
    i :| ChangesOnly(p.fields, q.fields, i);
    assert q.fields == p.fields[i := q.fields[i]];
    assert FieldAccepted(p.fields, i) && FieldAccepted(q.fields, i);
    EventsOfUpdate(p.fields, i, q.fields[i]);
    op := FieldStep(p.fields[i], q.fields[i], !NoRecovery(p.fields), i);
  }

  lemma PublicationIsTransition(p: Provenance, q: Provenance, seal: Seal, count: nat)
    requires Valid(p, seal, count) && Valid(q, seal, count) && Grows(p, q)
    ensures (exists op :: Apply(p, op) == Ok(q)) || (exists i, fence :: Overtakes(p, q, i, fence))
  {
    if q.completed {
      assert Apply(p, OpComplete) == Ok(q);
    } else {
      var i, op := ChangedField(p, q, seal, count);
      assert OwnedBefore(q.fields, i) ==> OwnedBefore(p.fields, i);
      assert RestoredBefore(q.fields, i) ==> RestoredBefore(p.fields, i);
      if op.OpRecover? {
        assert q.fields[i].recovery[|q.fields[i].recovery| - 1].steps == [Intent];
        assert p.fields[i].OwnsRestore();
        if p.Uncertain() {
          assert Overtakes(p, q, i, op.fence);
        }
      }
      assert (op.OpRecover? && p.Uncertain()) || Apply(p, op) == Ok(q);
    }
  }

  /** The undecided dispatch that is overtaken is the preparation of a later field. */
  lemma OvertakenIsLater(p: Provenance, q: Provenance, index: nat, fence: Fence, seal: Seal, count: nat)
    requires Valid(p, seal, count) && Overtakes(p, q, index, fence)
    ensures exists j :: index < j < |p.fields| && Undecided(p.fields[j].PreparationStatus())
  {
    var j :| 0 <= j < |p.fields| && p.fields[j].Uncertain();
    assert FieldAccepted(p.fields, j);
    assert j < index ==> p.fields[j].Restored();
    assert index < j && Undecided(p.fields[j].PreparationStatus());
  }

  lemma OvertakingIsPublishable(p: Provenance, q: Provenance, index: nat, fence: Fence, seal: Seal, count: nat)
    requires Valid(p, seal, count) && Overtakes(p, q, index, fence)
    ensures Valid(q, seal, count) && Follows(p, q) && q != p
  {
    assert FieldAccepted(p.fields, index);
    RecoveryBegunField(p.fields[index], Attempt(fence, [Intent]));
    OneFieldChange(p, index, q.fields[index], seal, count);
  }

  /**
   The store's check is exact up to one gap: it accepts the unchanged journal, the result of one
   transition of the service, and also the start of a restoration that overtakes a later field
   whose preparation is undecided, which the service itself refuses.
   */
  lemma StoreAcceptsExactly(p: Provenance, q: Provenance, seal: Seal, count: nat)
    requires Valid(p, seal, count)
    ensures Valid(q, seal, count) && Follows(p, q) <==>
            || q == p
            || (exists op :: Apply(p, op) == Ok(q))
            || (exists i, fence :: Overtakes(p, q, i, fence))
  {
    if Valid(q, seal, count) && Follows(p, q) && q != p {
      PublicationIsTransition(p, q, seal, count);
    }
    if op :| Apply(p, op) == Ok(q) {
      TransitionsArePublishable(p, op, q, seal, count);
    }
    if i, fence :| Overtakes(p, q, i, fence) {
      OvertakingIsPublishable(p, q, i, fence, seal, count);
    }
  }

  /** A journal on which the store accepts a restoration that the service refuses. */
  lemma GapIsReachable(seal: Seal)
    ensures exists p, q, fence ::
              Valid(p, seal, 2) && Overtakes(p, q, 0, fence) && BeginRecovery(p, 0, fence) == Err(Transition)
  {
    var fence := Fence(0, 0);
    var done := Attempt(fence, [Intent, PossibleDispatch, Accepted]);
    var lost := Attempt(fence, [Intent, PossibleDispatch, Unknown]);
    var fields := [Field(Some(done), []), Field(Some(lost), [])];
    var p := Provenance(seal, 6, false, fields);
    var q := p.(revision := 7, fields := fields[0 := RecoveryBegun(fields[0], fence)]);
    assert Events(fields) == 6 by {
      assert fields[..1] == [fields[0]] && fields[..1][..0] == [];
      assert Events(fields[..1]) == 3;
    }
    assert p.fields[1].Uncertain();
    assert forall i | 0 <= i < 2 :: FieldAccepted(fields, i);
    assert Valid(p, seal, 2) && Overtakes(p, q, 0, fence);
  }

  // ----- Whole histories of a stored journal -----

  ghost predicate History(run: seq<Provenance>, seal: Seal, count: nat) {
    && (forall k | 0 <= k < |run| :: Valid(run[k], seal, count))
    && (forall k | 0 < k < |run| :: Follows(run[k - 1], run[k]))
  }

  lemma UnknownIsFrozen(f: Field, g: Field, started: bool)
    requires f.Valid() && g.Valid() && FieldExtends(f, g, started)
    requires f.PreparationStatus() == Some(Unknown)
    ensures f == g
  {
  }

  /** A delivery whose outcome is unknown stays on record in every later publication. */
  lemma {:induction false} UnknownIsForever(run: seq<Provenance>, seal: Seal, count: nat, i: nat, k: nat)
    requires History(run, seal, count) && k < |run| && i < count
    requires run[0].fields[i].PreparationStatus() == Some(Unknown)
    ensures run[k].fields[i] == run[0].fields[i]
    ensures !run[k].completed
  {
    if k > 0 {
      UnknownIsForever(run, seal, count, i, k - 1);
      var p, q := run[k - 1], run[k];
      assert Valid(p, seal, count) && Valid(q, seal, count) && Follows(p, q);
      assert FieldAccepted(p.fields, i) && FieldAccepted(q.fields, i);
      if FieldExtends(p.fields[i], q.fields[i], !NoRecovery(p.fields)) {
        UnknownIsFrozen(p.fields[i], q.fields[i], !NoRecovery(p.fields));
      }
    }
    assert Valid(run[k], seal, count) && run[k].fields[i].Uncertain();
  }

  /** A completed journal is never replaced by anything but itself. */
  lemma {:induction false} CompletedIsFinal(run: seq<Provenance>, seal: Seal, count: nat, k: nat)
    requires History(run, seal, count) && k < |run| && run[0].completed
    ensures run[k] == run[0]
  {
    if k > 0 {
      CompletedIsFinal(run, seal, count, k - 1);
      assert Follows(run[k - 1], run[k]);
    }
  }

  lemma ExhaustedIsFrozen(f: Field, g: Field, started: bool)
    requires f.Valid() && g.Valid() && FieldExtends(f, g, started) && started
    requires |f.recovery| == MAX_RECOVERY_ATTEMPTS && Settled(f.RecoveryStatus())
    ensures f == g
  {
    EarlierAttemptsFrozen(f, g, started);
    var last := |f.recovery| - 1;
    SettledIsFrozen(f.recovery[last], g.recovery[last]);
    assert g.recovery[..|f.recovery|] == g.recovery;
  }

  /** A field that has used up its attempts without being restored stays so, and its journal never completes. */
  lemma {:induction false} ExhaustedIsForever(run: seq<Provenance>, seal: Seal, count: nat, i: nat, k: nat)
    requires History(run, seal, count) && k < |run| && i < count
    requires |run[0].fields[i].recovery| == 64 && Settled(run[0].fields[i].RecoveryStatus())
    ensures run[k].fields[i] == run[0].fields[i]
    ensures !run[k].completed
  {
    if k > 0 {
      ExhaustedIsForever(run, seal, count, i, k - 1);
      var p, q := run[k - 1], run[k];
      assert Valid(p, seal, count) && Valid(q, seal, count) && Follows(p, q);
      assert FieldAccepted(p.fields, i) && FieldAccepted(q.fields, i);
      assert p.fields[i].recovery != [];
      if FieldExtends(p.fields[i], q.fields[i], !NoRecovery(p.fields)) {
        ExhaustedIsFrozen(p.fields[i], q.fields[i], !NoRecovery(p.fields));
      }
    }
    assert Valid(run[k], seal, count) && !run[k].fields[i].Restored();
  }
}
