/**
 Preparation and recovery of a restricted demo (demo.rs, demo_transport.rs) around one OBS and
 one journal directory. Other clients may change OBS at any await point, publications may fail or
 stay in doubt, replies may be lost, and the process may die between any two steps.
 */
module DemoService {
  import opened Common
  import opened PreparationJournal
  import opened Publication
  import opened SceneValues
  import opened DemoJournal

  datatype Failure =
    | Evidence
    | RevisionChanged
    | StorageUncertain
    | StorageUnavailable
    | JournalTransition
    | Missing
    | Crashed

  datatype Sample = Sample(state: State, desired: map<FitKey, Value>, fence: Fence)

  /** The three failed deliveries of the adapter, and a process that dies before learning any. */
  datatype Delivery = Delivered | NotSent | Refused | Lost | Cut

  datatype Report =
    | PreparedReport
    | AlreadyPrepared
    | Planned
    | Conflict
    | UnknownReport
    | Recovered
    | AlreadyRecovered
    | Partial(cause: Failure)
    | Failed(cause: Failure)

  datatype Admission =
    | Admit(state: State, desired: map<FitKey, Value>)
    | Decline(report: Report)
    | Fault(cause: Failure)

  datatype RecoveryAdmission =
    | Undo(journal: Journal, state: State, fence: Fence)
    | Refuse(report: Report)
    | Stop(cause: Failure)

  datatype Action = DoPrepare(id: string, apply: bool) | DoRecover(id: string, apply: bool) | DoRestart

  /** `state` is the one in which some earlier action began to prepare operation `id`. */
  ghost predicate Traced(script: seq<Action>, states: seq<State>, id: string, state: State) {
    exists a :: 0 <= a < |script| && a < |states| && script[a].DoPrepare? && script[a].id == id && states[a] == state
  }

  /** Action `n` left the capture as it was before an earlier preparation of its operation. */
  ghost predicate RoundTrip(script: seq<Action>, states: seq<State>, n: nat)
    requires n < |script| && script[n].DoRecover? && n + 1 < |states|
  {
    exists a :: 0 <= a < n && script[a].DoPrepare? && script[a].id == script[n].id
                && forall k :: states[n + 1].At(k) == states[a].At(k)
  }

  lemma TracedLater(script: seq<Action>, states: seq<State>, n: nat, id: string, state: State)
    requires n < |script| && n < |states|
    requires Traced(script[..n], states[..n], id, state) || (script[n].DoPrepare? && script[n].id == id && states[n] == state)
    ensures Traced(script[..n + 1], states[..n + 1], id, state)
  {
    var a :| 0 <= a <= n && script[a].DoPrepare? && script[a].id == id && states[a] == state;
    assert script[..n + 1][a] == script[a] && states[..n + 1][a] == states[a];
  }

  lemma RoundTripKept(script: seq<Action>, states: seq<State>, n: nat, last: State)
    requires n < |script| && script[n].DoRecover? && n + 1 < |states| && RoundTrip(script, states, n)
    ensures RoundTrip(script, states + [last], n)
  {
    var a :| 0 <= a < n && script[a].DoPrepare? && script[a].id == script[n].id
             && forall k :: states[n + 1].At(k) == states[a].At(k);
    assert (states + [last])[a] == states[a] && (states + [last])[n + 1] == states[n + 1];
  }

  lemma RoundTripNow(script: seq<Action>, states: seq<State>, n: nat, origin: State)
    requires n < |script| && script[n].DoRecover? && n + 1 < |states|
    requires Traced(script[..n + 1], states[..n + 1], script[n].id, origin)
    requires forall k :: states[n + 1].At(k) == origin.At(k)
    ensures RoundTrip(script, states, n)
  {
    var a :| 0 <= a <= n && script[..n + 1][a].DoPrepare? && script[..n + 1][a].id == script[n].id && states[..n + 1][a] == origin;
    assert script[a] == script[..n + 1][a] && states[a] == origin;
  }

  class Service {
    const endpoint: string
    const same: Compare
    const generation: nat
    /** No other client changes the selected capture. */
    const quiet: bool
    /** Nothing fails, nothing is lost and nobody else is active. */
    var calm: bool

    var live: State
    /** The size of the base canvas, to which the capture is to be fitted. */
    var canvas: Canvas
    var revision: nat
    var disk: Disk
    /** Every write handed to the socket, by any process. */
    ghost var sends: seq<Send>
    /** The state of the capture when each operation was admitted. */
    ghost var begun: map<string, State>

    ghost predicate Inv()
      reads this
    {
      && Tolerance(same)
      && (calm ==> quiet)
      && Consistent(same, disk, sends)
      && Originals(disk, begun)
      && (quiet ==> DiskExplains(disk, endpoint, live))
    }

    constructor (endpoint: string, same: Compare, generation: nat, quiet: bool, live: State, canvas: Canvas)
      requires Tolerance(same)
      ensures Inv() && this.live == live && this.canvas == canvas && sends == [] && disk == Disk(map[], map[])
      ensures this.endpoint == endpoint && this.same == same && this.quiet == quiet && !calm
    {
      this.endpoint, this.same, this.generation, this.quiet := endpoint, same, generation, quiet;
      calm, this.live, this.canvas, revision := false, live, canvas, 0;
      disk, sends, begun := Disk(map[], map[]), [], map[];
      assert OnlyOpen(Disk(map[], map[]), endpoint, "");
    }

    /** What may happen to OBS while the service waits: every change of the capture is announced. */
    method Interfere()
      modifies this`live, this`canvas, this`revision
      ensures revision >= old(revision)
      ensures live != old(live) ==> !quiet && revision > old(revision)
      ensures canvas != old(canvas) ==> revision > old(revision)
      ensures calm ==> revision == old(revision) && canvas == old(canvas)
    {
      var turn: nat := *;
      if !quiet && !calm && turn == 0 {
        live := *;
        canvas := *;
        revision := revision + 1;
      } else if !calm && turn == 1 {
        revision := revision + 1;
      }
    }

    /**
     Reads the capture field by field. Other clients may act between any two requests; if the revision
     is the same at the end as at the start, what was put together is the state OBS is in.
     */
    method Read() returns (r: Result<Sample, Failure>)
      modifies this`live, this`canvas, this`revision
      ensures revision >= old(revision)
      ensures live != old(live) ==> !quiet && revision > old(revision)
      ensures r.Ok? ==> r.value == Sample(live, FitTo(canvas), Fence(generation, revision))
      ensures calm ==> r.Ok? && revision == old(revision) && canvas == old(canvas)
    {
      Interfere();
      var turn: nat := *;
      if !calm && turn < 2 {
        return Err(if turn == 0 then Evidence else Crashed);
      }
      var initial := revision;
      ghost var start, goal := live, canvas;
      Interfere();
      var identity := live.identity;
      var values: map<Key, Value> := map[];
      for i := 0 to |KEYS|
        invariant revision >= initial && (live != start ==> !quiet && revision > initial)
        invariant revision == initial ==> live == start && canvas == goal && identity == live.identity
        invariant revision == initial ==> ReadSoFar(live, values, i)
        invariant calm ==> revision == initial
      {
        Interfere();
        if KEYS[i] in live.values {
          values := values[KEYS[i] := live.values[KEYS[i]]];
        }
      }
      Interfere();
      var wanted := FitTo(canvas);
      if revision != initial {
        return Err(RevisionChanged);
      }
      ReadAll(live, values);
      r := Ok(Sample(State(identity, values), wanted, Fence(generation, revision)));
    }

    /** One fresh sample is allowed after an accepted write, if nothing else moved. */
    method ReadAfterAccepted(expected: State, mayResample: bool) returns (r: Result<Sample, Failure>)
      modifies this`live, this`canvas, this`revision
      ensures revision >= old(revision)
      ensures live != old(live) ==> !quiet && revision > old(revision)
      ensures r.Ok? ==> r.value == Sample(live, FitTo(canvas), Fence(generation, revision))
      ensures calm ==> r.Ok? && revision == old(revision) && canvas == old(canvas)
    {
      r := Read();
      if mayResample && r == Err(RevisionChanged) {
        r := Read();
        if r.Ok? && (r.value.state.identity != expected.identity || !Unchanged(same, r.value.state, expected)) {
          r := Err(Evidence);
        }
      }
    }

    /** What the store examines before it publishes. */
    method CheckPublication(journal: Journal) returns (refusal: Option<Failure>)
      ensures refusal.None? <==> Acceptable(disk, journal)
    {
      if journal.id in disk.doubt {
        return Some(StorageUncertain);
      }
      var verdict := Validate(journal.provenance, SealOf(journal.id, journal.endpoint), |journal.changes|);
      if verdict != Sound {
        return Some(JournalTransition);
      }
      if journal.id in disk.store {
        var follows := CheckSuccessor(disk.store[journal.id].provenance, journal.provenance);
        if !disk.store[journal.id].SameSubject(journal) || !follows {
          return Some(JournalTransition);
        }
      } else if journal.provenance != New(SealOf(journal.id, journal.endpoint), |journal.changes|) {
        return Some(JournalTransition);
      }
      refusal := None;
    }

    /**
     Publishes a journal: durably, not at all, or possibly (then this process no longer trusts the
     entry). A crash leaves the entry as it was or in doubt.
     */
    method Persist(journal: Journal) returns (r: Result<(), Failure>)
      requires Inv()
      requires journal.Valid() ==> journal.WellFormed(same)
      requires quiet && journal.Open() && journal.endpoint == endpoint ==>
                 Explains(journal, live) && OnlyOpen(disk, endpoint, journal.id)
      requires Absent(disk, journal.id) ==> journal.id in begun && begun[journal.id] == journal.state
      modifies this`disk
      ensures Inv()
      ensures r.Ok? ==> Acceptable(old(disk), journal) && disk == old(disk).Published(journal)
      ensures r.Err? ==> disk == old(disk) || (Acceptable(old(disk), journal) && disk == old(disk).Doubted(journal))
      ensures calm && Acceptable(old(disk), journal) ==> r.Ok?
    {
      hide DiskExplains, Tolerance, WriteAhead, AllJustified, DiskSound;
      var refusal := CheckPublication(journal);
      if refusal.Some? {
        return Err(refusal.value);
      }
      var turn: nat := *;
      if calm || turn == 0 {
        PublishKeepsConsistent(same, disk, journal, sends, false);
        PublishKeepsOriginals(disk, journal, begun, false);
        if quiet {
          PublishKeepsExplains(disk, journal, endpoint, live, false);
        }
        disk := disk.Published(journal);
        return Ok(());
      } else if turn < 3 {
        PublishKeepsConsistent(same, disk, journal, sends, true);
        PublishKeepsOriginals(disk, journal, begun, true);
        if quiet {
          PublishKeepsExplains(disk, journal, endpoint, live, true);
        }
        disk := disk.Doubted(journal);
        return Err(if turn == 1 then StorageUncertain else Crashed);
      } else {
        return Err(if turn == 3 then StorageUnavailable else Crashed);
      }
    }

    /**
     Hands one write to OBS. The guard compares the revision of the sample immediately before the
     send, so a write that leaves the process meets the very state that was sampled.
     */
    method Mutate(journal: Journal, index: nat, recovery: bool, fence: Fence, ghost sample: State)
      returns (delivery: Delivery)
      requires Inv() && journal.endpoint == endpoint && Sendable(same, disk, sends, journal, index, recovery, sample)
      requires fence.revision <= revision && (revision == fence.revision ==> live == sample)
      modifies this`live, this`canvas, this`revision, this`sends
      ensures Inv()
      ensures || sends == old(sends)
              || sends == old(sends) + [WriteOf(journal, index, recovery, sample.At(journal.changes[index].key))]
      ensures delivery in {Delivered, Refused} || (quiet && live != old(live)) ==> sends != old(sends)
      ensures delivery == NotSent ==> sends == old(sends)
      ensures quiet ==> TookEffect(delivery, old(live), journal.changes[index].key, Written(journal, index, recovery))
      ensures calm && fence == Fence(generation, old(revision)) ==> delivery == Delivered && revision == old(revision) + 1
    {
      hide Consistent, Originals, DiskExplains, Tolerance, Permitted;
      Interfere();
      var turn: nat := *;
      if !calm && turn == 0 {
        return Cut;
      }
      if fence != Fence(generation, revision) || (!calm && turn == 1) {
        return NotSent;
      }
      if !calm && turn > 6 {
        return Lost; // the deadline passed before the request left
      }
      assert live == sample;
      ghost var send := SendKeeps(same, disk, sends, journal, index, recovery, live);
      sends := sends + [send];
      if calm || turn <= 4 {
        live := live.With(journal.changes[index].key, Written(journal, index, recovery));
        revision := revision + 1;
        delivery := if calm || turn == 2 then Delivered else if turn == 3 then Lost else Cut;
      } else {
        delivery := if turn == 5 then Refused else Lost;
      }
    }

    /** What a delivery says about the state before it and the state now. */
    ghost predicate TookEffect(delivery: Delivery, was: State, key: Key, value: Value)
      reads this
    {
      match delivery
      case Delivered => live == was.With(key, value)
      case NotSent | Refused => live == was
      case Lost | Cut => live == was || live == was.With(key, value)
    }

    /** `journal` is what the store holds, and this process trusts the entry. */
    ghost predicate Current(journal: Journal)
      reads this
    {
      Holds(disk, journal) && journal.endpoint == endpoint
    }

    /** Takes one transition that concerns field `index` and publishes the journal. */
    method Record(journal: Journal, op: Op, index: nat) returns (r: Result<Journal, Failure>)
      requires Inv() && Current(journal) && !op.OpComplete? && op.index == index < |journal.changes|
      requires quiet && Apply(journal.provenance, op).Ok? ==>
                 FieldExplains(journal.provenance.fields[index], journal.changes[index], live.At(journal.changes[index].key)) ==>
                 FieldExplains(Apply(journal.provenance, op).value.fields[index], journal.changes[index], live.At(journal.changes[index].key))
      modifies this`disk
      ensures Inv()
      ensures r.Ok? ==>
                && r.value == journal.(provenance := r.value.provenance) && Current(r.value)
                && Apply(journal.provenance, op) == Ok(r.value.provenance)
                && disk == old(disk).Published(r.value)
      ensures calm && Apply(journal.provenance, op).Ok? ==> r.Ok?
    {
      hide Tolerance, DiskExplains, WriteAhead, AllJustified, Originals;
      var p := Apply(journal.provenance, op);
      if p.Err? {
        return Err(JournalTransition);
      }
      assert disk.MayHold(journal);
      TransitionsArePublishable(journal.provenance, op, p.value, SealOf(journal.id, journal.endpoint), |journal.changes|);
      if quiet {
        OpenIsOnly(disk, endpoint, live, journal);
        StepKeepsExplains(journal, p.value, index, live);
      }
      var published := Persist(journal.(provenance := p.value));
      r := if published.Err? then Err(published.error) else Ok(journal.(provenance := p.value));
    }

    /** Makes the intent to deliver one field durable. */
    method RecordIntent(journal: Journal, index: nat, recovery: bool, fence: Fence) returns (r: Result<Journal, Failure>)
      requires Inv() && Current(journal) && index < |journal.changes|
      modifies this`disk
      ensures Inv()
      ensures r.Ok? ==>
                && Current(r.value) && Advanced(journal, r.value, index, 1)
                && disk == old(disk).Published(r.value)
                && InFlight(r.value.provenance, index, recovery, Intent)
                && Unsent(r.value, index, recovery)
                && (quiet ==> live.At(journal.changes[index].key) == Written(journal, index, !recovery))
      ensures calm && Apply(journal.provenance, BeginOp(index, recovery, fence)).Ok? ==> r.Ok?
    {
      hide Tolerance, Originals;
      var p := Apply(journal.provenance, BeginOp(index, recovery, fence));
      if p.Err? {
        return Err(JournalTransition);
      }
      BeginFacts(journal.provenance, index, recovery, fence, p.value);
      r := Record(journal, BeginOp(index, recovery, fence), index);
      if r.Ok? {
        UnmarkedIsUnsent(disk, sends, journal.id, index, AttemptOf(p.value.fields[index], recovery));
        if quiet {
          IntendedValue(disk, endpoint, live, r.value, index, recovery);
        }
      }
    }

    /** Makes the possible dispatch of an intended delivery durable. */
    method RecordMark(journal: Journal, index: nat, recovery: bool) returns (r: Result<Journal, Failure>)
      requires Inv() && Current(journal) && index < |journal.changes|
      requires InFlight(journal.provenance, index, recovery, Intent) && Unsent(journal, index, recovery)
      modifies this`disk
      ensures Inv()
      ensures r.Ok? ==>
                && Current(r.value) && Advanced(journal, r.value, index, 1)
                && disk == old(disk).Published(r.value)
                && InFlight(r.value.provenance, index, recovery, PossibleDispatch)
                && Marked(r.value.provenance, index, AttemptOf(r.value.provenance.fields[index], recovery))
                && Unsent(r.value, index, recovery)
      ensures calm && journal.Open() && journal.provenance.revision < MAX_REVISION ==> r.Ok?
    {
      hide Consistent, Originals, DiskExplains;
      var op := OpAdvance(index, recovery, PossibleDispatch);
      var p := Apply(journal.provenance, op);
      if p.Err? {
        return Err(JournalTransition);
      }
      MarkFacts(journal.provenance, index, recovery, p.value);
      r := Record(journal, op, index);
    }

    ghost predicate Unsent(journal: Journal, index: nat, recovery: bool)
      reads this
    {
      && index < |journal.provenance.fields|
      && (journal.id, index, AttemptOf(journal.provenance.fields[index], recovery)) !in Targets(sends)
    }

    /** Records how an announced delivery ended. */
    method RecordTerminal(journal: Journal, index: nat, recovery: bool, terminal: Step) returns (r: Result<Journal, Failure>)
      requires Inv() && Current(journal) && index < |journal.changes|
      requires InFlight(journal.provenance, index, recovery, PossibleDispatch) && Terminal(terminal)
      requires quiet ==> (if terminal == Unknown then live.At(journal.changes[index].key) in {journal.changes[index].before, journal.changes[index].after}
                          else live.At(journal.changes[index].key) == Written(journal, index, recovery == (terminal == Accepted)))
      modifies this`disk
      ensures Inv()
      ensures r.Ok? ==>
                && Current(r.value) && Advanced(journal, r.value, index, 1)
                && disk == old(disk).Published(r.value)
                && (terminal == Accepted ==> DeliveredField(r.value.provenance.fields[index], recovery))
      ensures calm && journal.Open() && journal.provenance.revision < MAX_REVISION ==> r.Ok?
    {
      hide Consistent, Originals, DiskExplains;
      var op := OpAdvance(index, recovery, terminal);
      var p := Apply(journal.provenance, op);
      if p.Err? {
        return Err(JournalTransition);
      }
      TerminalFacts(journal.provenance, index, recovery, terminal, p.value);
      r := Record(journal, op, index);
    }

    /** Hands the announced write over and records how it ended. */
    method Settle(journal: Journal, index: nat, recovery: bool, fence: Fence, ghost sample: State)
      returns (r: Result<Journal, Failure>)
      requires Inv() && Current(journal) && Sendable(same, disk, sends, journal, index, recovery, sample)
      requires quiet ==> live.At(journal.changes[index].key) == Written(journal, index, !recovery)
      requires fence.revision <= revision && (revision == fence.revision ==> live == sample)
      modifies this`live, this`canvas, this`revision, this`disk, this`sends
      ensures Inv()
      ensures || sends == old(sends)
              || sends == old(sends) + [WriteOf(journal, index, recovery, sample.At(journal.changes[index].key))]
      ensures r.Ok? ==>
                && sends != old(sends)
                && Current(r.value) && Advanced(journal, r.value, index, 1)
                && disk == old(disk).Published(r.value)
                && DeliveredField(r.value.provenance.fields[index], recovery)
                && (quiet ==> live == old(live).With(journal.changes[index].key, Written(journal, index, recovery)))
      ensures (calm && fence == Fence(generation, old(revision)) && journal.provenance.revision < MAX_REVISION) ==>
                r.Ok? && revision == old(revision) + 1
    {
      hide Consistent, Originals, DiskExplains, Permitted;
      var delivery := Mutate(journal, index, recovery, fence, sample);
      if delivery == Cut {
        return Err(Crashed);
      }
      var terminal := match delivery
        case Delivered => Accepted
        case NotSent => NotDispatched
        case Refused => Rejected
        case Lost | Cut => Unknown;
      r := RecordTerminal(journal, index, recovery, terminal);
      if r.Ok? && delivery != Delivered {
        r := Err(Evidence);
      }
    }

    /** Makes the intent and then the possible dispatch of one field durable. */
    method Announce(journal: Journal, index: nat, recovery: bool, fence: Fence, ghost sample: State)
      returns (r: Result<Journal, Failure>)
      requires Inv() && Current(journal) && index < |journal.changes|
      requires Permitted(same, journal, index, recovery, sample)
      modifies this`disk
      ensures Inv()
      ensures r.Ok? ==>
                && Current(r.value) && Advanced(journal, r.value, index, 2)
                && disk == old(disk).Published(r.value)
                && Sendable(same, disk, sends, r.value, index, recovery, sample)
                && (quiet ==> live.At(journal.changes[index].key) == Written(journal, index, !recovery))
      ensures (calm && Apply(journal.provenance, BeginOp(index, recovery, fence)).Ok?
               && journal.provenance.revision + 2 <= MAX_REVISION) ==> r.Ok?
    {
      hide Consistent, Originals, DiskExplains;
      r := RecordIntent(journal, index, recovery, fence);
      if r.Err? {
        return;
      }
      var intended := r.value;
      r := RecordMark(intended, index, recovery);
      if r.Ok? {
        AdvancedFurther(old(disk), journal, intended, r.value, index, 1, 1);
      }
    }

    /**
     Delivers one field: the intent and then the possible dispatch are durable before the write is
     handed over, and the outcome is recorded after it.
     */
    method DispatchField(journal: Journal, index: nat, recovery: bool, fence: Fence, ghost sample: State)
      returns (r: Result<Journal, Failure>, attempted: bool)
      requires Inv() && Current(journal) && index < |journal.changes|
      requires Permitted(same, journal, index, recovery, sample)
      requires fence.revision <= revision && (revision == fence.revision ==> live == sample)
      modifies this`live, this`canvas, this`revision, this`disk, this`sends
      ensures Inv() && old(sends) <= sends
      ensures || sends == old(sends)
              || (|sends| == |old(sends)| + 1 && IsWriteOf(sends[|old(sends)|], journal, index, recovery, sample))
      ensures r.Ok? ==> sends != old(sends)
      ensures !attempted ==> sends == old(sends) && live == old(live) && r.Err?
      ensures r.Ok? ==>
                && Current(r.value) && Advanced(journal, r.value, index, 3)
                && disk == old(disk).Published(r.value)
                && DeliveredField(r.value.provenance.fields[index], recovery)
                && (quiet ==> live == old(live).With(journal.changes[index].key, Written(journal, index, recovery)))
      ensures (calm && fence == Fence(generation, old(revision)) && Apply(journal.provenance, BeginOp(index, recovery, fence)).Ok?
               && journal.provenance.revision + 3 <= MAX_REVISION) ==> r.Ok? && revision == old(revision) + 1
    {
      attempted := false;
      hide Consistent, Originals, Sendable, DiskExplains;
      r := Announce(journal, index, recovery, fence, sample);
      if r.Err? {
        return;
      }
      var sending := r.value;
      attempted := true;
      r := Settle(sending, index, recovery, fence, sample);
      if r.Ok? {
        AdvancedFurther(old(disk), journal, sending, r.value, index, 2, 1);
      }
    }

    /** The process dies or restarts: every publication in doubt turns out visible or not. */
    method Restart()
      requires Inv()
      modifies this`disk
      ensures Inv() && disk.doubt == map[]
      ensures forall j | disk.MayHold(j) :: old(disk).MayHold(j)
      ensures disk.store.Keys == old(disk.store.Keys) + (disk.store.Keys * old(disk.doubt.Keys))
    {
      hide DiskExplains, Tolerance, WriteAhead, AllJustified, DiskSound;
      var landed: set<string> :| landed <= disk.doubt.Keys;
      var found := Disk(disk.store + (map id | id in landed :: disk.doubt[id]), map[]);
      RestartKeeps(same, disk, found, sends);
      if quiet {
        RestartExplains(disk, found, endpoint, live);
      }
      disk := found;
    }

    // ----- Preparation -----

    /** An open journal of this endpoint, whose preparation is complete and in line with OBS or is not. */
    ghost predicate Pending(id: string, settled: bool)
      reads this
    {
      && id in disk.store && disk.store[id].Open() && disk.store[id].endpoint == endpoint
      && (settled <==>
            && (forall i | 0 <= i < |disk.store[id].provenance.fields| :: disk.store[id].provenance.fields[i].OwnsRestore())
            && live.identity == disk.store[id].state.identity
            && (forall i | 0 <= i < |disk.store[id].changes| ::
                  same(disk.store[id].changes[i].key, live.At(disk.store[id].changes[i].key), disk.store[id].changes[i].after))
            && Prepared(same, live, FitTo(canvas)))
    }

    /** Reads OBS and the journal directory and decides whether preparation may go on. */
    method AdmitPreparation(apply: bool) returns (a: Admission)
      requires Inv()
      modifies this`live, this`canvas, this`revision
      ensures Inv() && revision >= old(revision)
      ensures quiet ==> live == old(live)
      ensures a.Admit? ==>
                && apply && a.desired == FitTo(canvas) && Changes(same, a.state, a.desired, KEYS) != []
                && (quiet ==> a.state == live && NoneOpen(disk, endpoint))
      ensures a.Decline? ==> a.report in {AlreadyPrepared, Planned, Conflict}
      ensures a == Decline(AlreadyPrepared) ==> Prepared(same, live, FitTo(canvas))
      ensures calm ==> canvas == old(canvas)
      ensures a == Decline(AlreadyPrepared) ==> NoneOpen(disk, endpoint) || exists id :: Pending(id, true)
      ensures a == Decline(Conflict) ==> exists id :: Pending(id, false)
      ensures a == Decline(Planned) ==> !apply && Changes(same, live, FitTo(canvas), KEYS) != []
      ensures a == Decline(Conflict) ==> !NoneOpen(disk, endpoint)
      ensures (calm && apply && disk.doubt == map[] && NoneOpen(disk, endpoint)
               && Changes(same, old(live), FitTo(old(canvas)), KEYS) != []) ==>
                a == Admit(old(live), FitTo(old(canvas))) && revision == old(revision)
    {
      hide Originals, DiskExplains, Tolerance, Changes, WriteAhead, AllJustified, DiskSound;
      var sample := Read();
      if sample.Err? {
        return Fault(sample.error);
      }
      var state, wanted := sample.value.state, sample.value.desired;
      if disk.doubt != map[] {
        return Fault(StorageUncertain);
      }
      var open := set id | id in disk.store && disk.store[id].Open() && disk.store[id].endpoint == endpoint;
      if open != {} {
        var id :| id in open;
        var existing := disk.store[id];
        assert disk.MayHold(existing);
        hide Prepared, State.At;
        var settled := existing.provenance.AllPreparationAccepted() && state.identity == existing.state.identity
          && Matches(same, state, existing.changes, true) && Prepared(same, state, wanted);
        assert Pending(id, settled);
        return Decline(if settled then AlreadyPrepared else Conflict);
      }
      assert forall j | disk.MayHold(j) && j.Open() && j.endpoint == endpoint :: j.id in open;
      var changes := Changes(same, state, wanted, KEYS);
      NothingToChange(same, state, wanted);
      a := if changes == [] then Decline(AlreadyPrepared) else if !apply then Decline(Planned) else Admit(state, wanted);
    }

    /** Reads the capture once more for the snapshot, which must agree with the sample. */
    method TakeSnapshot(state: State) returns (r: Result<(), Failure>)
      modifies this`live, this`canvas, this`revision
      ensures revision >= old(revision) && (live != old(live) ==> !quiet && revision > old(revision))
      ensures r.Ok? ==> StillShows(same, live, state)
      ensures calm && Tolerance(same) && old(live) == state ==> r.Ok? && revision == old(revision)
    {
      var snapshot := Read();
      if snapshot.Err? {
        return Err(snapshot.error);
      }
      var videoOnly: bool := *;
      if !SnapshotAgrees(same, videoOnly, snapshot.value.state, state) {
        return Err(Evidence);
      }
      SnapshotMeans(same, videoOnly, live, state);
      r := Ok(());
    }

    /** Takes the snapshot and publishes the first journal. */
    method OpenJournal(id: string, state: State, wanted: map<FitKey, Value>) returns (r: Result<Journal, Failure>)
      requires Inv()
      requires quiet ==> state == live && NoneOpen(disk, endpoint)
      modifies this`live, this`canvas, this`revision, this`disk, this`begun
      ensures Inv() && revision >= old(revision)
      ensures begun == old(begun) || (Absent(old(disk), id) && begun == old(begun)[id := state])
      ensures disk != old(disk) && Absent(old(disk), id) ==> id in begun && begun[id] == state
      ensures quiet ==> live == old(live)
      ensures r.Ok? ==> Current(r.value) && r.value == FirstJournal(same, id, endpoint, state, wanted)
      ensures r.Ok? || disk != old(disk) ==> StillShows(same, live, state)
      ensures calm && id !in old(disk).store && id !in old(disk).doubt ==> r.Ok? && revision == old(revision)
    {
      hide Consistent, DiskExplains, Changes, StillShows, Tolerance;
      var snapshot := TakeSnapshot(state);
      if snapshot.Err? {
        return Err(snapshot.error);
      }
      var journal := FirstJournal(same, id, endpoint, state, wanted);
      NewJournal(same, id, endpoint, state, wanted);
      if Absent(disk, id) {
        begun := begun[id := state];
      }
      var published := Persist(journal);
      r := if published.Err? then Err(published.error) else Ok(journal);
    }

    /** Samples OBS again and delivers the next field of a preparation. */
    method PrepareField(journal: Journal, index: nat, expected: State, mayResample: bool)
      returns (r: Result<Journal, Failure>, attempted: bool)
      requires Inv() && Current(journal) && index < |journal.changes|
      requires Preparing(journal.provenance, index)
      requires expected.At(journal.changes[index].key) == journal.changes[index].before
      requires expected.identity == journal.state.identity
      requires quiet ==> live == expected
      modifies this`live, this`canvas, this`revision, this`disk, this`sends
      ensures Inv() && old(sends) <= sends
      ensures !attempted ==> sends == old(sends) && (quiet ==> live == old(live)) && r.Err?
      ensures r.Ok? ==>
                && Current(r.value) && r.value == journal.(provenance := r.value.provenance)
                && Preparing(r.value.provenance, index + 1)
                && (quiet ==> live == Moved(expected, journal.changes[index], true))
      ensures (calm && generation <= MAX_REVISION && old(revision) <= MAX_REVISION
               && 3 * index + 3 <= MAX_REVISION) ==> r.Ok? && revision == old(revision) + 1
    {
      hide Consistent, Originals, DiskExplains, Tolerance, Preparing;
      attempted := false;
      var sample := ReadAfterAccepted(expected, mayResample);
      if sample.Err? {
        return Err(sample.error), attempted;
      }
      var now, fence := sample.value.state, sample.value.fence;
      if now.identity != journal.state.identity || !Unchanged(same, now, expected) {
        UnchangedReflexive(same);
        return Err(Evidence), attempted;
      }
      UnchangedAt(same, now, expected, journal.changes[index].key);
      assert Permitted(same, journal, index, false, now);
      if fence.Valid() && 3 * index < MAX_REVISION {
        assert |journal.provenance.fields| == |journal.changes| by { HeldIsWellFormed(same, disk, sends, journal); }
        PreparingMayBegin(journal.provenance, index, fence);
      }
      r, attempted := DispatchField(journal, index, false, fence, now);
      if r.Ok? {
        PreparingNext(journal, r.value, index);
      }
    }

    /** Delivers every field of a fresh journal, in order. */
    method PrepareFields(journal: Journal) returns (r: Result<Journal, Failure>, attempted: bool)
      requires Inv() && Current(journal) && journal.WellFormed(same)
      requires Preparing(journal.provenance, 0)
      requires quiet ==> live == journal.state
      modifies this`live, this`canvas, this`revision, this`disk, this`sends
      ensures Inv() && old(sends) <= sends
      ensures !attempted ==> sends == old(sends) && (quiet ==> live == old(live))
      ensures r.Ok? ==>
                && Current(r.value) && r.value == journal.(provenance := r.value.provenance)
                && Preparing(r.value.provenance, |journal.changes|)
                && (quiet ==> live == MovedAll(journal.state, journal.changes, true))
      ensures (calm && generation <= MAX_REVISION
               && old(revision) + |journal.changes| <= MAX_REVISION && 3 * |journal.changes| <= MAX_REVISION) ==> r.Ok?
    {
      hide Consistent, Originals, DiskExplains, Tolerance, Preparing, MovedAll, Journal.WellFormed;
      attempted := false;
      var saved, expected, accepted := journal, journal.state, false;
      assert MovedAll(journal.state, journal.changes[..0], true) == journal.state by { NothingMoved(journal.state, true); }
      for index := 0 to |journal.changes|
        invariant Inv() && Current(saved) && saved == journal.(provenance := saved.provenance)
        invariant Preparing(saved.provenance, index)
        invariant expected == MovedAll(journal.state, journal.changes[..index], true)
        invariant quiet ==> live == expected
        invariant old(sends) <= sends
        invariant !attempted ==> sends == old(sends) && (quiet ==> live == old(live))
        invariant index > 0 ==> attempted
        invariant (calm && generation <= MAX_REVISION
                   && old(revision) + |journal.changes| <= MAX_REVISION && 3 * |journal.changes| <= MAX_REVISION) ==>
                    revision == old(revision) + index
      {
        MovedAllNext(same, journal, index);
        var next, tried := PrepareField(saved, index, expected, accepted);
        attempted := attempted || tried;
        if next.Err? {
          return Err(next.error), attempted;
        }
        saved, expected, accepted := next.value, Moved(expected, journal.changes[index], true), true;
      }
      assert journal.changes[..|journal.changes|] == journal.changes;
      r := Ok(saved);
    }

    /** Reads the state once more and compares it with what preparation was to reach. */
    method ConfirmPrepared(journal: Journal, wanted: map<FitKey, Value>) returns (r: Result<Report, Failure>)
      requires Inv()
      requires quiet ==> live == MovedAll(journal.state, journal.changes, true)
      modifies this`live, this`canvas, this`revision
      ensures Inv() && (quiet ==> live == old(live))
      ensures r.Ok? ==> r.value == PreparedReport && Prepared(same, live, wanted)
      ensures calm && journal.changes == Changes(same, journal.state, wanted, KEYS) ==> r.Ok?
    {
      var expected := MovedAll(journal.state, journal.changes, true);
      var mayResample := journal.changes != [];
      var sample := ReadAfterAccepted(expected, mayResample);
      if sample.Err? {
        return Err(sample.error);
      }
      var now := sample.value.state;
      if now.identity != journal.state.identity || !Matches(same, now, journal.changes, true) || !Prepared(same, now, wanted) {
        MovedIsPrepared(same, journal.state, wanted);
        return Err(Evidence);
      }
      r := Ok(PreparedReport);
    }

    /** Preparation, once admitted. `attempted` tells whether a write may have left the process. */
    method PrepareAdmitted(id: string, state: State, wanted: map<FitKey, Value>, ghost seen: Canvas)
      returns (r: Result<Report, Failure>, attempted: bool)
      requires Inv() && wanted == FitTo(seen)
      requires quiet ==> state == live && NoneOpen(disk, endpoint)
      modifies this`live, this`canvas, this`revision, this`disk, this`sends, this`begun
      ensures Inv() && old(sends) <= sends
      ensures begun == old(begun) || (Absent(old(disk), id) && begun == old(begun)[id := state])
      ensures disk != old(disk) && Absent(old(disk), id) ==> id in begun && begun[id] == state
      ensures !attempted ==> sends == old(sends) && (quiet ==> live == old(live))
      ensures r.Ok? ==> r.value == PreparedReport && PreparedDurably(id, state, seen)
      ensures (calm && old(disk).doubt == map[] && id !in old(disk).store
               && generation <= MAX_REVISION && old(revision) + |KEYS| <= MAX_REVISION) ==> r.Ok?
    {
      hide Consistent, Originals, DiskExplains, Tolerance, MovedAll, Changes, Explains, Prepared, Journal.WellFormed, ShowsRestricted, FitTo, StillShows;
      attempted := false;
      var first := OpenJournal(id, state, wanted);
      if first.Err? {
        return Err(first.error), attempted;
      }
      NewJournal(same, id, endpoint, state, wanted);
      FewChanges(same, state, wanted, KEYS);
      var fields;
      fields, attempted := PrepareFields(first.value);
      if fields.Err? {
        return Err(fields.error), attempted;
      }
      HeldIsWellFormed(same, disk, sends, fields.value);
      r := ConfirmPrepared(fields.value, wanted);
      if r.Ok? {
        PreparedShowsRestricted(same, live, seen);
      }
    }

    /** The store holds a journal of `state` whose every field is accepted, and OBS shows the demo restricted to the canvas. */
    ghost predicate PreparedDurably(id: string, state: State, seen: Canvas)
      reads this
    {
      && id in disk.store && id !in disk.doubt
      && disk.store[id] == FirstJournal(same, id, endpoint, state, FitTo(seen)).(provenance := disk.store[id].provenance)
      && disk.store[id].provenance.AllPreparationAccepted()
      && NoRecovery(disk.store[id].provenance.fields)
      && ShowsRestricted(same, live, seen)
      && (quiet ==> live == MovedAll(state, disk.store[id].changes, true))
    }

    /**
     Restricts the demo. A report other than `partial` or `prepared` promises that nothing was
     sent; `prepared` promises that every field is durably recorded as accepted.
     */
    method Prepare(id: string, apply: bool) returns (report: Report)
      requires Inv()
      modifies this`live, this`canvas, this`revision, this`disk, this`sends, this`begun
      ensures Inv() && old(sends) <= sends
      ensures || begun == old(begun)
              || (Absent(old(disk), id) && id in begun && begun == old(begun)[id := begun[id]] && (quiet ==> begun[id] == old(live)))
      ensures disk != old(disk) && Absent(old(disk), id) ==> id in begun && (quiet ==> begun[id] == old(live))
      ensures report.Failed? || report in {AlreadyPrepared, Planned, Conflict} ==>
                sends == old(sends) && (quiet ==> live == old(live))
      ensures report.Partial? || report.Failed? || report in {AlreadyPrepared, Planned, Conflict, PreparedReport}
      ensures report == AlreadyPrepared ==> ShowsRestricted(same, live, canvas)
      ensures report == PreparedReport ==>
                exists state, seen :: PreparedDurably(id, state, seen) && (quiet ==> state == old(live)) && (calm ==> seen == old(canvas))
      ensures (calm && apply && old(disk).doubt == map[] && id !in old(disk).store
               && NoneOpen(old(disk), endpoint) && Changes(same, old(live), FitTo(old(canvas)), KEYS) != []
               && generation <= MAX_REVISION && old(revision) + |KEYS| <= MAX_REVISION) ==> report == PreparedReport
    {
      hide Consistent, Originals, DiskExplains, Tolerance, MovedAll, Changes, Explains, Prepared, PreparedDurably, ShowsRestricted, FitTo;
      var a := AdmitPreparation(apply);
      match a
      case Fault(cause) => report := Failed(cause);
      case Decline(declined) =>
        report := declined;
        if report == AlreadyPrepared {
          PreparedShowsRestricted(same, live, canvas);
        }
      case Admit(state, wanted) =>
        ghost var seen := canvas;
        var r, attempted := PrepareAdmitted(id, state, wanted, seen);
        report := if r.Ok? then r.value else if attempted then Partial(r.error) else Failed(r.error);
    }

    // ----- Recovery -----

    /** An intent that an earlier process left behind was never handed over. */
    method ClearIntent(journal: Journal, index: nat) returns (r: Result<Journal, Failure>)
      requires Inv() && Current(journal) && journal.Open() && index < |journal.changes| == |journal.provenance.fields|
      requires !journal.provenance.fields[index].Restored() && !journal.provenance.fields[index].Uncertain()
      modifies this`disk
      ensures Inv()
      ensures r.Ok? ==> Current(r.value) && Cleared(journal, r.value, index)
      ensures calm && journal.provenance.revision < MAX_REVISION ==> r.Ok?
    {
      hide Consistent, Originals, DiskExplains;
      HeldIsWellFormed(same, disk, sends, journal);
      StatusOfRest(journal.provenance.fields, index);
      if journal.provenance.fields[index].RecoveryStatus() != Some(Intent) {
        return Ok(journal);
      }
      var op := OpAdvance(index, true, NotDispatched);
      var p := Apply(journal.provenance, op);
      if p.Err? {
        return Err(JournalTransition);
      }
      ClearFacts(journal.provenance, index, p.value);
      r := Record(journal, op, index);
    }

    /** Records that the field already shows its old value. */
    method ObserveField(journal: Journal, index: nat, fence: Fence) returns (r: Result<Journal, Failure>)
      requires Inv() && Current(journal) && journal.Open() && index < |journal.changes| == |journal.provenance.fields|
      requires quiet ==> live.At(journal.changes[index].key) == journal.changes[index].before
      modifies this`disk
      ensures Inv()
      ensures r.Ok? ==>
                && Current(r.value) && Advanced(journal, r.value, index, 1)
                && RestoredField(r.value.provenance.fields[index])
      ensures (calm && Idle(journal.provenance.fields[index]) && !journal.provenance.fields[index].Uncertain() && |journal.provenance.fields[index].recovery| < MAX_RECOVERY_ATTEMPTS
               && RestoredBefore(journal.provenance.fields, index) && fence.Valid() && journal.provenance.revision < MAX_REVISION) ==> r.Ok?
    {
      hide Consistent, Originals, DiskExplains;
      var op := OpObserve(index, fence);
      var p := Apply(journal.provenance, op);
      if p.Err? {
        return Err(JournalTransition);
      }
      ObserveFacts(journal.provenance, index, fence, p.value);
      r := Record(journal, op, index);
    }

    /** Samples OBS again and writes the old value of one field back. */
    method RestoreField(journal: Journal, index: nat, expected: State, mayResample: bool)
      returns (r: Result<Journal, Failure>, attempted: bool)
      requires Inv() && Current(journal) && journal.Open() && index < |journal.changes| == |journal.provenance.fields|
      requires same(journal.changes[index].key, expected.At(journal.changes[index].key), journal.changes[index].after)
      requires quiet ==> live == expected
      modifies this`live, this`canvas, this`revision, this`disk, this`sends
      ensures Inv() && old(sends) <= sends
      ensures !attempted ==> sends == old(sends) && (quiet ==> live == old(live)) && r.Err?
      ensures r.Ok? ==>
                && Current(r.value) && Advanced(journal, r.value, index, 3)
                && RestoredField(r.value.provenance.fields[index])
                && (quiet ==> live == Moved(expected, journal.changes[index], false))
      ensures (calm && expected.identity == journal.state.identity
               && (forall fence: Fence | fence.Valid() :: Apply(journal.provenance, BeginOp(index, true, fence)).Ok?)
               && generation <= MAX_REVISION && old(revision) <= MAX_REVISION && journal.provenance.revision + 3 <= MAX_REVISION) ==>
                r.Ok? && revision == old(revision) + 1
    {
      hide Consistent, Originals, DiskExplains, Apply;
      attempted := false;
      var sample := ReadAfterAccepted(expected, mayResample);
      if sample.Err? {
        return Err(sample.error), attempted;
      }
      var now, fence := sample.value.state, sample.value.fence;
      if now.identity != journal.state.identity || !ChangesUnmoved(same, journal.changes, now, expected) {
        return Err(Evidence), attempted;
      }
      r, attempted := DispatchField(journal, index, true, fence, now);
    }

    /** What the loop over the fields knows about the sample that recovery started from. */
    ghost predicate Restorable(journal: Journal, index: nat, initial: State, expected: State)
      reads this
    {
      && journal.endpoint == endpoint
      && index < |journal.changes| == |journal.provenance.fields|
      && FieldUndisputed(same, journal.provenance.fields[index], journal.changes[index], initial)
      && expected.At(journal.changes[index].key) == initial.At(journal.changes[index].key)
      && (quiet ==> live == expected)
    }

    /** Brings an idle field back, or records that it already shows its old value. */
    method BringBack(start: Journal, journal: Journal, index: nat, initial: State, first: Fence, expected: State, mayResample: bool)
      returns (r: Result<Journal, Failure>, after: State, attempted: bool)
      requires Inv() && Current(journal) && Restorable(journal, index, initial, expected)
      requires Ready(start.provenance, journal.provenance, index)
      modifies this`live, this`canvas, this`revision, this`disk, this`sends
      ensures Inv() && old(sends) <= sends
      ensures !attempted ==> sends == old(sends) && (quiet ==> live == old(live))
      ensures r.Ok? ==>
                && Current(r.value) && r.value == journal.(provenance := r.value.provenance)
                && Recovering(start.provenance, r.value.provenance, index + 1)
                && after in {expected, Moved(expected, journal.changes[index], false)}
                && (quiet ==> live == after)
      ensures (calm && Room(journal.provenance.fields[index]) && first.Valid() && expected.identity == journal.state.identity
               && generation <= MAX_REVISION && old(revision) <= MAX_REVISION && journal.provenance.revision + 3 <= MAX_REVISION) ==>
                r.Ok? && revision <= old(revision) + 1
    {
      hide Consistent, Originals, DiskExplains, Apply, Recovering, RestoredBefore, Field.Restored, Field.OwnsRestore, Field.Uncertain;
      after, attempted := expected, false;
      var change := journal.changes[index];
      ReadyFacts(start.provenance, journal.provenance, index);
      if same(change.key, initial.At(change.key), change.before) {
        if quiet {
          HeldIsWellFormed(same, disk, sends, journal);
          OpenIsOnly(disk, endpoint, live, journal);
          ObservedBeforeIsExact(same, journal, live, index);
        }
        r := ObserveField(journal, index, first);
        if r.Ok? {
          ReadyNext(start.provenance, journal, r.value, index, 1);
        }
      } else {
        r, attempted := RestoreField(journal, index, expected, mayResample);
        after := Moved(expected, change, false);
        if r.Ok? {
          ReadyNext(start.provenance, journal, r.value, index, 3);
        }
      }
    }

    /** One field of a recovery: skipped when it is back already. */
    method RecoverField(start: Journal, journal: Journal, index: nat, initial: State, first: Fence, expected: State, mayResample: bool)
      returns (r: Result<Journal, Failure>, after: State, attempted: bool)
      requires Inv() && Current(journal) && Restorable(journal, index, initial, expected)
      requires Recovering(start.provenance, journal.provenance, index)
      modifies this`live, this`canvas, this`revision, this`disk, this`sends
      ensures Inv() && old(sends) <= sends
      ensures !attempted ==> sends == old(sends) && (quiet ==> live == old(live))
      ensures r.Ok? ==>
                && Current(r.value) && r.value == journal.(provenance := r.value.provenance)
                && Recovering(start.provenance, r.value.provenance, index + 1)
                && after in {expected, Moved(expected, journal.changes[index], false)}
                && (quiet ==> live == after)
      ensures (calm && Room(journal.provenance.fields[index]) && first.Valid() && expected.identity == journal.state.identity
               && generation <= MAX_REVISION && old(revision) <= MAX_REVISION && journal.provenance.revision + 4 <= MAX_REVISION) ==>
                r.Ok? && revision <= old(revision) + 1
    {
      hide Consistent, Originals, DiskExplains, Recovering, Ready, Field.Restored, Field.OwnsRestore, Field.Uncertain;
      after, attempted := expected, false;
      RecoveringFacts(start.provenance, journal.provenance, index);
      if journal.provenance.fields[index].Restored() {
        return Ok(journal), after, attempted;
      }
      r := ClearIntent(journal, index);
      if r.Err? {
        return;
      }
      ClearedIsReady(start.provenance, journal, r.value, index);
      ClearedIsUndisputed(same, journal, r.value, index, initial);
      r, after, attempted := BringBack(start, r.value, index, initial, first, expected, mayResample);
    }

    /** Brings every field back, in order. */
    method RecoverFields(journal: Journal, initial: State, first: Fence)
      returns (r: Result<Journal, Failure>, expected: State, attempted: bool)
      requires Inv() && Current(journal) && journal.WellFormed(same) && NoConflict(same, journal, initial)
      requires Recovering(journal.provenance, journal.provenance, 0)
      requires quiet ==> live == initial
      modifies this`live, this`canvas, this`revision, this`disk, this`sends
      ensures Inv() && old(sends) <= sends
      ensures !attempted ==> sends == old(sends) && (quiet ==> live == old(live))
      ensures r.Ok? ==>
                && Current(r.value) && r.value == journal.(provenance := r.value.provenance)
                && Recovering(journal.provenance, r.value.provenance, |journal.changes|)
                && expected.identity == initial.identity
                && (quiet ==> live == expected)
      ensures RecoverySpace(old(revision), journal) && initial.identity == journal.state.identity && first.Valid() ==> r.Ok?
    {
      hide Consistent, Originals, DiskExplains, Tolerance, Recovering, Journal.WellFormed, Room;
      expected, attempted := initial, false;
      var saved, accepted := journal, false;
      for index := 0 to |journal.changes|
        invariant Inv() && Current(saved) && saved == journal.(provenance := saved.provenance)
        invariant Recovering(journal.provenance, saved.provenance, index)
        invariant expected.identity == initial.identity
        invariant forall i | index <= i < |journal.changes| ::
                    expected.At(journal.changes[i].key) == initial.At(journal.changes[i].key)
        invariant quiet ==> live == expected
        invariant old(sends) <= sends
        invariant !attempted ==> sends == old(sends) && (quiet ==> live == old(live))
        invariant RecoverySpace(old(revision), journal) && initial.identity == journal.state.identity && first.Valid() ==>
                    revision <= old(revision) + index
      {
        RecoveringField(same, journal, saved, index, initial);
        var next, after, tried := RecoverField(journal, saved, index, initial, first, expected, accepted);
        attempted := attempted || tried;
        if next.Err? {
          return Err(next.error), expected, attempted;
        }
        OtherKeys(same, journal, index);
        saved, expected, accepted := next.value, after, accepted || tried;
      }
      r := Ok(saved);
    }

    /** Nothing fails, and neither the counters nor the attempts of the journal run out. */
    ghost predicate RecoverySpace(revision: nat, journal: Journal)
      reads this
    {
      && calm
      && generation <= MAX_REVISION
      && revision + |journal.changes| <= MAX_REVISION
      && journal.provenance.revision + 4 * |journal.changes| + 1 <= MAX_REVISION
      && (forall i | 0 <= i < |journal.provenance.fields| :: Room(journal.provenance.fields[i]))
    }

    /** Reads the state once more and closes the journal. */
    method Conclude(journal: Journal, expected: State, mayResample: bool) returns (r: Result<Report, Failure>)
      requires Inv() && Current(journal) && journal.Open() && !journal.provenance.Uncertain() && journal.provenance.AllRestored()
      requires quiet ==> live == expected
      modifies this`live, this`canvas, this`revision, this`disk
      ensures Inv() && (quiet ==> live == old(live))
      ensures r.Ok? ==> r.value == Recovered && RecoveredDurably(journal)
      ensures calm && journal.provenance.revision < MAX_REVISION ==> r.Ok?
    {
      hide Consistent, Originals, DiskExplains;
      HeldIsWellFormed(same, disk, sends, journal);
      if quiet {
        OpenIsOnly(disk, endpoint, live, journal);
        RestoredMeansBefore(same, journal, live);
      }
      var sample := ReadAfterAccepted(expected, mayResample);
      if sample.Err? {
        return Err(sample.error);
      }
      var now := sample.value.state;
      if now.identity != journal.state.identity || !Matches(same, now, journal.changes, false) {
        return Err(Evidence);
      }
      var p := Complete(journal.provenance);
      if p.Err? {
        return Err(JournalTransition);
      }
      TransitionsArePublishable(journal.provenance, OpComplete, p.value, SealOf(journal.id, journal.endpoint), |journal.changes|);
      var published := Persist(journal.(provenance := p.value));
      r := if published.Err? then Err(published.error) else Ok(Recovered);
    }

    /** The store holds the closed journal, and OBS shows every old value. */
    ghost predicate RecoveredDurably(journal: Journal)
      reads this
    {
      && journal.id in disk.store && journal.id !in disk.doubt
      && disk.store[journal.id].SameSubject(journal)
      && disk.store[journal.id].provenance.completed
      && live.identity == journal.state.identity
      && Matches(same, live, journal.changes, false)
      && (quiet ==> forall k :: live.At(k) == journal.state.At(k))
    }

    /** The journal that the store holds under `id` can be loaded, is open and of this endpoint. */
    ghost predicate Loadable(id: string)
      reads this
    {
      id in disk.store && id !in disk.doubt && disk.store[id].endpoint == endpoint && disk.store[id].Open()
    }

    /** Loads the journal, reads OBS and decides whether recovery may go on. */
    method AdmitRecovery(id: string, apply: bool) returns (a: RecoveryAdmission)
      requires Inv()
      modifies this`live, this`canvas, this`revision
      ensures Inv() && (quiet ==> live == old(live))
      ensures a.Undo? ==>
                && apply && Loadable(id) && a.journal == disk.store[id] && !a.journal.provenance.Uncertain()
                && a.state.identity == a.journal.state.identity && NoConflict(same, a.journal, a.state)
                && (quiet ==> a.state == live)
      ensures a.Refuse? ==> a.report in {UnknownReport, Conflict, AlreadyRecovered, Planned} && id in disk.store
      ensures a == Refuse(UnknownReport) ==> Loadable(id) && disk.store[id].provenance.Uncertain()
      ensures a == Refuse(AlreadyRecovered) ==> !disk.store[id].Open() && Matches(same, live, disk.store[id].changes, false)
      ensures quiet && Loadable(id) ==> a != Refuse(Conflict)
      ensures calm && Loadable(id) && disk.store[id].provenance.Uncertain() ==> a == Refuse(UnknownReport)
      ensures calm && apply && Loadable(id) && !disk.store[id].provenance.Uncertain() ==>
                a == Undo(disk.store[id], live, Fence(generation, old(revision))) && revision == old(revision)
    {
      hide Originals, WriteAhead, AllJustified, DiskSound;
      var turn: nat := *;
      if id in disk.doubt {
        return Stop(StorageUncertain);
      }
      if id !in disk.store || (!calm && turn == 0) {
        return Stop(if id !in disk.store then Missing else StorageUnavailable);
      }
      var journal := disk.store[id];
      if journal.endpoint != endpoint {
        return Stop(Evidence);
      }
      if journal.Open() && journal.provenance.Uncertain() {
        return Refuse(UnknownReport);
      }
      a := JudgeSample(journal, apply);
    }

    /** Compares a fresh sample with the journal. */
    method JudgeSample(journal: Journal, apply: bool) returns (a: RecoveryAdmission)
      requires Inv() && Current(journal) && (journal.Open() ==> !journal.provenance.Uncertain())
      modifies this`live, this`canvas, this`revision
      ensures Inv() && (quiet ==> live == old(live))
      ensures a.Undo? ==>
                && apply && journal.Open() && a.journal == journal
                && a.state.identity == journal.state.identity && NoConflict(same, journal, a.state)
                && (quiet ==> a.state == live)
      ensures a.Refuse? ==> a.report in {Conflict, AlreadyRecovered, Planned}
      ensures a == Refuse(AlreadyRecovered) ==> !journal.Open() && Matches(same, live, journal.changes, false)
      ensures quiet && journal.Open() ==> a != Refuse(Conflict)
      ensures a == Refuse(Conflict) ==>
                live.identity != journal.state.identity
                || (if journal.Open() then !NoConflict(same, journal, live) else !Matches(same, live, journal.changes, false))
      ensures a == Refuse(Planned) ==> !apply && journal.Open() && NoConflict(same, journal, live)
      ensures calm && apply && journal.Open() ==>
                a == Undo(journal, live, Fence(generation, old(revision))) && revision == old(revision)
    {
      hide Consistent, Originals, DiskExplains, Tolerance, NoConflict, Explains;
      if quiet && journal.Open() {
        OpenIsOnly(disk, endpoint, live, journal);
        QuietHasNoConflict(same, journal, live);
      }
      var sample := Read();
      if sample.Err? {
        return Stop(sample.error);
      }
      var state := sample.value.state;
      if state.identity != journal.state.identity {
        return Refuse(Conflict);
      }
      if !journal.Open() {
        return Refuse(if Matches(same, state, journal.changes, false) then AlreadyRecovered else Conflict);
      }
      if !NoConflict(same, journal, state) {
        return Refuse(Conflict);
      }
      a := if apply then Undo(journal, state, sample.value.fence) else Refuse(Planned);
    }

    /**
     Undoes a preparation. Only `recovered` and `partial` may have sent anything; `recovered`
     promises that the capture is back in its old state.
     */
    method Recover(id: string, apply: bool) returns (report: Report)
      requires Inv()
      modifies this`live, this`canvas, this`revision, this`disk, this`sends
      ensures Inv() && old(sends) <= sends
      ensures report.Partial? || report.Failed? || report in {UnknownReport, Conflict, AlreadyRecovered, Planned, Recovered}
      ensures report !in {Recovered} && !report.Partial? ==> sends == old(sends) && (quiet ==> live == old(live))
      ensures report in {UnknownReport, Conflict, AlreadyRecovered, Planned} ==> disk == old(disk)
      ensures (Absent(old(disk), id) || id in old(disk).doubt || !old(disk).store[id].Open()
               || old(disk).store[id].provenance.Uncertain()) ==>
                sends == old(sends) && disk == old(disk) && report != Recovered
      ensures quiet && old(Loadable(id)) ==> report != Conflict
      ensures report == Recovered ==> id in old(disk).store && RecoveredDurably(old(disk).store[id])
      ensures (old(Loadable(id)) && !old(disk).store[id].provenance.Uncertain() && apply
               && RecoverySpace(old(revision), old(disk).store[id])) ==> report == Recovered
    {
      hide Originals, WriteAhead, AllJustified, DiskSound, DiskExplains, Tolerance, RecoveredDurably, NoConflict, Room;
      var a := AdmitRecovery(id, apply);
      match a
      case Stop(cause) => report := Failed(cause);
      case Refuse(refusal) => report := refusal;
      case Undo(journal, state, fence) =>
        var r, attempted := RecoverAdmitted(journal, state, fence);
        report := if r.Ok? then r.value else if attempted then Partial(r.error) else Failed(r.error);
    }

    /** Recovery, once admitted. */
    method RecoverAdmitted(journal: Journal, state: State, fence: Fence) returns (r: Result<Report, Failure>, attempted: bool)
      requires Inv() && Current(journal) && journal.Open() && !journal.provenance.Uncertain()
      requires state.identity == journal.state.identity && NoConflict(same, journal, state)
      requires quiet ==> live == state
      modifies this`live, this`canvas, this`revision, this`disk, this`sends
      ensures Inv() && old(sends) <= sends
      ensures !attempted ==> sends == old(sends) && (quiet ==> live == old(live))
      ensures r.Ok? ==> r.value == Recovered && RecoveredDurably(journal)
      ensures RecoverySpace(old(revision), journal) && fence == Fence(generation, old(revision)) ==> r.Ok?
    {
      hide Consistent, Originals, DiskExplains, Tolerance, NoConflict, Matches, Journal.WellFormed;
      HeldIsWellFormed(same, disk, sends, journal);
      var fields, expected;
      fields, expected, attempted := RecoverFields(journal, state, fence);
      if fields.Err? {
        return Err(fields.error), attempted;
      }
      r := Conclude(fields.value, expected, attempted);
    }

    // ----- Whole runs -----

    /** One call of a client, or a restart. */
    method Do(action: Action) returns (report: Option<Report>)
      requires Inv()
      modifies this`live, this`canvas, this`revision, this`disk, this`sends, this`begun
      ensures Inv() && old(sends) <= sends
      ensures quiet ==>
                || begun == old(begun)
                || (action.DoPrepare? && begun == old(begun)[action.id := old(live)])
      ensures quiet && action.DoRecover? && report == Some(Recovered) ==>
                action.id in begun && forall k :: live.At(k) == begun[action.id].At(k)
    {
      hide WriteAhead, AllJustified, DiskSound, DiskExplains, Tolerance, Changes, Prepared, RecoverySpace;
      match action
      case DoPrepare(id, apply) =>
        var r := Prepare(id, apply);
        report := Some(r);
      case DoRecover(id, apply) =>
        assert id in disk.store ==> disk.MayHold(disk.store[id]);
        var r := Recover(id, apply);
        report := Some(r);
      case DoRestart =>
        Restart();
        report := None;
    }

    /**
     Any sequence of calls and restarts, with failures anywhere. Whenever a recovery reports
     success and nobody else wrote, the capture shows what it showed when the operation began.
     */
    method Run(script: seq<Action>) returns (reports: seq<Option<Report>>, ghost states: seq<State>)
      requires Inv() && begun == map[]
      modifies this`live, this`canvas, this`revision, this`disk, this`sends, this`begun
      ensures Inv() && old(sends) <= sends
      ensures WriteAhead(disk, sends) && NeverRepeated(sends) && AllJustified(same, sends)
      ensures |reports| == |script| && |states| == |script| + 1
      ensures quiet ==> forall n | 0 <= n < |script| && script[n].DoRecover? && reports[n] == Some(Recovered) ::
                RoundTrip(script, states, n)
    {
      hide Originals, DiskExplains, Tolerance, Traced, WriteAhead, NeverRepeated, AllJustified, DiskSound, DiskKeyed;
      reports, states := [], [live];
      for n := 0 to |script|
        invariant Inv() && old(sends) <= sends
        invariant |reports| == n && |states| == n + 1 && states[n] == live
        invariant quiet ==> forall id | id in begun :: Traced(script[..n], states[..n], id, begun[id])
        invariant quiet ==> forall m | 0 <= m < n && script[m].DoRecover? && reports[m] == Some(Recovered) ::
                    RoundTrip(script, states, m)
      {
        ghost var was, before := begun, states;
        var report := Do(script[n]);
        reports, states := reports + [report], states + [live];
        assert states[..n] == before[..n];
        forall id | quiet && id in begun ensures Traced(script[..n + 1], states[..n + 1], id, begun[id]) {
          TracedLater(script, states, n, id, begun[id]);
        }
        forall m | quiet && 0 <= m <= n && script[m].DoRecover? && reports[m] == Some(Recovered)
          ensures RoundTrip(script, states, m)
        {
          if m < n {
            RoundTripKept(script, before, m, live);
          } else {
            RoundTripNow(script, states, n, begun[script[n].id]);
          }
        }
      }
    }
  }
}
