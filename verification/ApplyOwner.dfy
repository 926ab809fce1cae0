/**
 The owner of one Apply Scene workflow (apply_scene_transport.rs, apply_scene_workflow.rs): two
 batches at most, each announced by a durable receipt, and a store that is handed back only when
 the receipt is final or no longer trusted.
 */
module ApplyOwner {
  import opened Common
  import opened ApplyPlan
  import opened ApplyChecks
  import opened BatchReplies
  import Receipts = ApplyReceipts

  datatype Stage = Creations | Changes

  /** One batch handed to the session. */
  datatype Batch = Batch(stage: Stage, effects: seq<Effect>)

  datatype BeginError = Busy | Refused | Empty | InvalidEffect | ReceiptFailed | Uncertain | WrongPhase

  /** What comes back from OBS: replies of any shape, a refusal before the batch left, or nothing. */
  datatype Answer = Answered(replies: seq<Reply>) | NotDispatched | Silence(left: bool)

  /** How the session reports a batch: outcomes in order, refused before it was sent, or nobody knows. */
  datatype Transport = Replies(oks: seq<bool>) | BeforeDispatch | Vanished

  /** Whether the store publishes: it does, it does not, or it does but reports a failure. */
  datatype Store = Works | Fails | Doubtful

  function Count(sent: seq<Batch>, stage: Stage): nat {
    if sent == [] then 0
    else Count(sent[..|sent| - 1], stage) + if sent[|sent| - 1].stage == stage then 1 else 0
  }

  lemma CountAppend(sent: seq<Batch>, batch: Batch)
    ensures forall stage :: Count(sent + [batch], stage) == Count(sent, stage) + if batch.stage == stage then 1 else 0
  {
    assert (sent + [batch])[..|sent|] == sent;
  }

  function DispatchingPhase(stage: Stage): Receipts.Phase {
    if stage == Creations then Receipts.DispatchingCreations else Receipts.DispatchingChanges
  }

  predicate Dispatching(phase: Receipts.Phase) {
    phase in {Receipts.DispatchingCreations, Receipts.DispatchingChanges}
  }

  predicate Live(phase: Receipts.Phase) {
    phase in {Receipts.Prepared, Receipts.DispatchingCreations, Receipts.Continuation, Receipts.DispatchingChanges}
  }

  /** A stage whose record denies a dispatch was never sent; one that reports replies was. */
  predicate StageTruthful(phase: Receipts.StagePhase, count: nat) {
    && (phase in {Receipts.NotNeeded, Receipts.Ready, Receipts.NotDispatched} ==> count == 0)
    && (phase == Receipts.Acknowledged ==> count == 1)
  }

  function StagePhaseOf(r: Receipts.Receipt, stage: Stage): Receipts.StagePhase {
    if stage == Creations then r.creations.phase else if r.changes.Some? then r.changes.value.phase else Receipts.NotNeeded
  }

  predicate Truthful(r: Receipts.Receipt, sent: seq<Batch>) {
    forall stage :: StageTruthful(StagePhaseOf(r, stage), Count(sent, stage))
  }

  /** Every effect of the batch is asked for by the request and belongs to its stage. */
  ghost predicate BatchValid(request: Request, batch: Batch) {
    forall i | 0 <= i < |batch.effects| ::
      ValidEffect(batch.effects[i], request) && (IsCreation(batch.effects[i]) <==> batch.stage == Creations)
  }

  /** Creations halt on the first failure; changes do not. */
  predicate Halts(stage: Stage) {
    stage == Creations
  }

  function RequestType(effect: Effect): string {
    match effect
    case CreateScene(_) => "CreateScene"
    case CreateInput(_, _, _, _, _) => "CreateInput"
    case CreateItem(_, _, _) => "CreateSceneItem"
    case SettingsOverlay(_, _) => "SetInputSettings"
    case Mute(_, _) => "SetInputMute"
    case VolumeDb(_, _) => "SetInputVolume"
    case AudioTracks(_, _) => "SetInputAudioTracks"
    case Enabled(_, _, _) => "SetSceneItemEnabled"
    case Locked(_, _, _) => "SetSceneItemLocked"
    case Transform(_, _, _) => "SetSceneItemTransform"
    case RemoveItem(_, _) => "RemoveSceneItem"
    case Index(_, _, _) => "SetSceneItemIndex"
  }

  /** The kinds of effects, numbered. */
  function KindOf(effect: Effect): nat {
    match effect
    case CreateScene(_) => 0
    case CreateInput(_, _, _, _, _) => 1
    case CreateItem(_, _, _) => 2
    case SettingsOverlay(_, _) => 3
    case Mute(_, _) => 4
    case VolumeDb(_, _) => 5
    case AudioTracks(_, _) => 6
    case Enabled(_, _, _) => 7
    case Locked(_, _, _) => 8
    case Transform(_, _, _) => 9
    case RemoveItem(_, _) => 10
    case Index(_, _, _) => 11
  }

  lemma TypeLength(effect: Effect)
    ensures |RequestType(effect)| == [11, 11, 15, 16, 12, 14, 19, 19, 18, 21, 15, 17][KindOf(effect)]
    ensures KindOf(effect) == 0 ==> RequestType(effect)[6] == 'S'
    ensures KindOf(effect) == 1 ==> RequestType(effect)[6] == 'I'
    ensures KindOf(effect) == 2 ==> RequestType(effect)[0] == 'C'
    ensures KindOf(effect) == 10 ==> RequestType(effect)[0] == 'R'
    ensures KindOf(effect) == 6 ==> RequestType(effect)[3] == 'I'
    ensures KindOf(effect) == 7 ==> RequestType(effect)[3] == 'S'
  {
  }

  /** A reply that names the type of a request cannot be taken for one to another kind of effect. */
  lemma TypesTellEffectsApart(a: Effect, b: Effect)
    requires RequestType(a) == RequestType(b)
    ensures KindOf(a) == KindOf(b)
  {
    hide RequestType;
    TypeLength(a);
    TypeLength(b);
  }

  function RequestTypes(effects: seq<Effect>): seq<string> {
    seq(|effects|, i requires 0 <= i < |effects| => RequestType(effects[i]))
  }

  /** What the session makes of an answer: replies that do not fit the batch end the session. */
  method Receive(batch: Batch, answer: Answer) returns (transport: Transport)
    ensures transport.Replies? <==> answer.Answered? && WellAnswered(answer.replies, RequestTypes(batch.effects), Halts(batch.stage))
    ensures transport.Replies? ==> Arranged(answer.replies, transport.oks)
    ensures transport == BeforeDispatch <==> answer == NotDispatched
    ensures Credible(batch, transport)
  {
    match answer
    case Answered(replies) =>
      var r := BatchResponse(replies, RequestTypes(batch.effects), Halts(batch.stage));
      transport := if r.Some? then Replies(r.value) else Vanished;
    case NotDispatched => transport := BeforeDispatch;
    case Silence(_) => transport := Vanished;
  }

  /** The session lets no other outcomes through. */
  predicate Credible(batch: Batch, transport: Transport) {
    transport.Replies? ==> Allowed(transport.oks, |batch.effects|, Halts(batch.stage))
  }

  function Tally(oks: seq<bool>, count: nat): Receipts.Counts
    requires Successes(oks) <= |oks| <= count
  {
    Receipts.Counts(Successes(oks), |oks| - Successes(oks), count - |oks|)
  }

  function Outcome(batch: Batch, transport: Transport): Receipts.Update
    requires Credible(batch, transport)
  {
    match transport
    case Replies(oks) =>
      AllowedCounts(oks, |batch.effects|, Halts(batch.stage));
      if batch.stage == Creations then Receipts.CreationsAcknowledged(Tally(oks, |batch.effects|))
      else Receipts.ChangesAcknowledged(Tally(oks, |batch.effects|))
    case BeforeDispatch => if batch.stage == Creations then Receipts.CreationsNotDispatched else Receipts.ChangesNotDispatched
    case Vanished => if batch.stage == Creations then Receipts.CreationsUnknown else Receipts.ChangesUnknown
  }

  lemma {:induction false} CountTotal(sent: seq<Batch>)
    ensures Count(sent, Creations) + Count(sent, Changes) == |sent|
  {
    if sent != [] {
      CountTotal(sent[..|sent| - 1]);
    }
  }

  datatype Call =
    | CallBegin(request: Request, creations: seq<Effect>, refused: bool, prepared: Store)
    | CallChanges(effects: seq<Effect>, refused: bool)
    | CallFinish(answer: Answer)
    | CallEnd(close: bool)

  /** A call with the time it is made at and the behaviour of the store. */
  datatype Turn = Turn(call: Call, now: nat, store: Store)

  class Owner {
    /** What the store holds for this operation. */
    var durable: Option<Receipts.Receipt>
    var receipt: Option<Receipts.Receipt>
    var request: Option<Request>
    var pending: Option<Batch>
    var poisoned: bool
    ghost var sent: seq<Batch>

    /** The books agree, and an announced batch is kept until its end is recorded or distrusted. */
    ghost predicate Inv()
      reads this
    {
      Books() && (!poisoned && receipt.Some? && Dispatching(receipt.value.phase) ==> pending.Some?)
    }

    ghost predicate Books()
      reads this
    {
      && (receipt.Some? ==> Receipts.Checked(receipt.value) && Truthful(receipt.value, sent))
      && (durable.Some? ==> Receipts.Checked(durable.value) && Truthful(durable.value, sent))
      && (!poisoned ==> durable == receipt)
      && (poisoned ==> pending.None?)
      && (receipt.None? ==> pending.None? && sent == [])
      && (pending.Some? || sent != [] ==> request.Some?)
      && (pending.Some? ==> Announced(pending.value))
      && (forall stage :: Count(sent, stage) <= 1)
      && (forall b | b in sent :: BatchValid(request.value, b))
    }

    /** The durable receipt says that the batch may have been sent, and it has not been. */
    ghost predicate Announced(batch: Batch)
      reads this
    {
      && request.Some? && BatchValid(request.value, batch)
      && receipt.Some? && receipt.value.phase == DispatchingPhase(batch.stage)
      && Count(sent, batch.stage) == 0
      && |batch.effects| == AnnouncedCount(receipt.value, batch.stage)
    }

    constructor ()
      ensures Inv() && receipt.None? && pending.None? && !poisoned && sent == []
    {
      durable, receipt, request, pending, poisoned, sent := None, None, None, None, false, [];
    }

    /** Publishes one update; a store that fails leaves the receipt in doubt and poisons the owner. */
    method Publish(update: Receipts.Update, now: nat, store: Store) returns (ok: bool)
      requires Books() && receipt.Some? && !poisoned && pending.None?
      requires var next := Receipts.Updated(receipt.value, update, now);
               next.Some? ==> Truthful(next.value, sent)
      modifies this`durable, this`receipt, this`poisoned
      ensures Books()
      ensures ok <==> store == Works && Receipts.Updated(old(receipt).value, update, now).Some?
      ensures ok ==> !poisoned && receipt.Some? && Receipts.Updated(old(receipt).value, update, now) == receipt
      ensures !ok ==> poisoned && receipt == old(receipt)
    {
      var next := Receipts.Updated(receipt.value, update, now);
      if next.None? || store == Fails {
        poisoned := true;
        return false;
      }
      Receipts.AcceptedExactlyWhenLegal(receipt.value, update, now);
      durable := next;
      if store == Doubtful {
        poisoned := true;
        return false;
      }
      receipt := next;
      return true;
    }

    /**
     Starts the workflow: the receipt is durable before anything else happens. `refused` stands for the
     checks of deadline, policy, cancellation and capabilities.
     */
    method Begin(wanted: Request, creations: seq<Effect>, refused: bool, now: nat, prepared: Store, store: Store) returns (error: Option<BeginError>)
      requires Inv()
      modifies this
      ensures Inv() && sent == old(sent)
      ensures error.None? ==>
                && old(receipt).None? && !poisoned && Admissible(wanted, creations) && request == Some(wanted)
                && (if creations == [] then pending.None? && receipt.Some? && receipt.value.phase == Receipts.Continuation
                    else pending == Some(Batch(Creations, creations)))
      ensures error.None? <==>
                && old(pending).None? && old(receipt).None? && !old(poisoned) && !refused && Admissible(wanted, creations)
                && |creations| <= Receipts.MAX_SAFE_INTEGER && prepared == Works && store == Works
      ensures error.Some? ==> pending == old(pending)
      ensures old(poisoned) ==> poisoned && error.Some?
    {
      hide Receipts.Checked, Truthful, Admissible, BatchValid;
      if pending.Some? || receipt.Some? {
        return Some(Busy);
      }
      if poisoned || refused {
        return Some(if poisoned then Uncertain else Refused);
      }
      var admitted := AdmitCreations(wanted, creations);
      if !admitted {
        return Some(InvalidEffect);
      }
      var made := PrepareReceipt(|creations|, now, prepared);
      if !made {
        return Some(ReceiptFailed);
      }
      request := Some(wanted);
      if creations == [] {
        ProceedIsTruthful(receipt.value, sent, now);
        Receipts.AcceptedExactlyWhenLegal(receipt.value, Receipts.Proceed, now);
        var ok := Publish(Receipts.Proceed, now, store);
        error := if ok then None else Some(ReceiptFailed);
      } else {
        AdmissibleIsValid(wanted, creations);
        error := Dispatch(Batch(Creations, creations), now, store);
      }
    }

    method PrepareReceipt(count: nat, now: nat, store: Store) returns (ok: bool)
      requires Inv() && receipt.None? && !poisoned
      modifies this`durable, this`receipt, this`poisoned
      ensures ok <==> store == Works && count <= Receipts.MAX_SAFE_INTEGER
      ensures ok ==> Inv() && !poisoned && receipt.Some? && Receipts.Prepare(count, now) == receipt
      ensures !ok ==> Inv() && poisoned && receipt.None?
    {
      var made := Receipts.Prepare(count, now);
      if made.None? || store == Fails {
        poisoned := true;
        return false;
      }
      durable := made;
      if store == Doubtful {
        poisoned := true;
        return false;
      }
      receipt := made;
      return true;
    }

    /** Announces a batch and keeps it for the session; without the announcement nothing is kept. */
    method Dispatch(batch: Batch, now: nat, store: Store) returns (error: Option<BeginError>)
      requires Inv() && receipt.Some? && !poisoned && pending.None? && request.Some?
      requires BatchValid(request.value, batch) && batch.effects != []
      requires if batch.stage == Creations then receipt.value.phase == Receipts.Prepared && receipt.value.creations.count == |batch.effects|
               else receipt.value.phase == Receipts.Continuation
      modifies this`durable, this`receipt, this`poisoned, this`pending
      ensures Inv()
      ensures error.None? <==>
                && store == Works && old(receipt).value.created <= now
                && (batch.stage == Changes ==> |batch.effects| <= Receipts.MAX_SAFE_INTEGER)
      ensures error.None? ==> pending == Some(batch) && !poisoned
      ensures error.Some? ==> pending.None? && poisoned
    {
      hide BatchValid;
      var update := if batch.stage == Creations then Receipts.DispatchCreations else Receipts.DispatchChanges(|batch.effects|);
      var ok := Publish(update, now, store);
      if !ok {
        return Some(ReceiptFailed);
      }
      pending := Some(batch);
      error := None;
    }

    /** The change batch: only from the continuation phase, and only effects that the request asks for. */
    method BeginChanges(effects: seq<Effect>, refused: bool, now: nat, store: Store) returns (error: Option<BeginError>)
      requires Inv()
      modifies this`durable, this`receipt, this`poisoned, this`pending
      ensures Inv()
      ensures error.None? ==>
                && pending == Some(Batch(Changes, effects)) && !poisoned && effects != []
                && old(receipt).Some? && old(receipt).value.phase == Receipts.Continuation
                && Receipts.AllCreated(old(receipt).value)
      ensures error.None? <==>
                && old(pending).None? && !old(poisoned) && !refused && request.Some?
                && old(receipt).Some? && old(receipt).value.phase == Receipts.Continuation && old(receipt).value.created <= now
                && 0 < |effects| <= Receipts.MAX_SAFE_INTEGER && BatchValid(request.value, Batch(Changes, effects)) && store == Works
      ensures error.Some? ==> pending == old(pending)
      ensures old(poisoned) ==> poisoned && error.Some?
    {
      hide Truthful;
      if pending.Some? {
        return Some(Busy);
      }
      if receipt.None? || receipt.value.phase != Receipts.Continuation {
        return Some(WrongPhase);
      }
      if effects == [] {
        return Some(Empty);
      }
      if poisoned || refused || request.None? {
        return Some(if poisoned then Uncertain else Refused);
      }
      if exists i | 0 <= i < |effects| :: IsCreation(effects[i]) || !ValidEffect(effects[i], request.value) {
        return Some(InvalidEffect);
      }
      error := Dispatch(Batch(Changes, effects), now, store);
    }

    /**
     Hands the announced batch to the session and records how it ended. Only a store that fails, or a
     clock that has run back behind the start, keeps the outcome from being recorded.
     */
    method Finish(answer: Answer, now: nat, store: Store) returns (transport: Option<Transport>)
      requires Inv()
      modifies this`durable, this`receipt, this`poisoned, this`pending, this`sent
      ensures Inv() && pending.None?
      ensures transport.Some? <==> old(pending).Some?
      ensures transport.None? ==> sent == old(sent) && poisoned == old(poisoned) && receipt == old(receipt) && durable == old(durable)
      ensures transport.Some? ==>
                && sent == old(sent) + (if answer.Answered? || (answer.Silence? && answer.left) then [old(pending).value] else [])
                && (transport.value.Replies? <==>
                      answer.Answered? && WellAnswered(answer.replies, RequestTypes(old(pending).value.effects), Halts(old(pending).value.stage)))
                && (transport.value == BeforeDispatch <==> answer == NotDispatched)
                && (!poisoned <==> store == Works && old(receipt).value.created <= now)
                && (!poisoned ==> Recorded(receipt, old(pending).value, transport.value))
    {
      hide Receipts.Checked, Receipts.Updated, Outcome, Count, BatchValid, Truthful, WellAnswered, Recorded;
      if pending.None? {
        return None;
      }
      var batch := pending.value;
      var reported := Receive(batch, answer);
      pending := None;
      ghost var was := sent;
      if answer.Answered? || (answer.Silence? && answer.left) {
        CountAppend(sent, batch);
        sent := sent + [batch];
      }
      OutcomeFacts(receipt.value, batch, reported, now);
      SendingIsTruthful(receipt.value, batch, was, sent, reported, now);
      var ok := Publish(Outcome(batch, reported), now, store);
      return Some(reported);
    }

    /** Ends a workflow whose last batch has settled. */
    method End(update: Receipts.Update, now: nat, store: Store) returns (error: Option<BeginError>)
      requires Inv() && update in {Receipts.Close, Receipts.Abort}
      modifies this`durable, this`receipt, this`poisoned
      ensures Inv()
      ensures error.None? ==> !poisoned && receipt.Some? && receipt.value.phase == (if update.Close? then Receipts.Closed else Receipts.Aborted)
      ensures error == Some(ReceiptFailed) ==> poisoned
      ensures old(poisoned) ==> poisoned
      ensures error.Some? && error != Some(ReceiptFailed) ==> receipt == old(receipt) && poisoned == old(poisoned)
      ensures error.None? <==>
                && pending.None? && !old(poisoned) && old(receipt).Some?
                && (old(receipt).value.phase == Receipts.Continuation || (old(receipt).value.phase == Receipts.Prepared && update.Abort?))
                && store == Works && old(receipt).value.created <= now
      ensures error == Some(ReceiptFailed) <==>
                && pending.None? && !old(poisoned) && old(receipt).Some?
                && (old(receipt).value.phase == Receipts.Continuation || (old(receipt).value.phase == Receipts.Prepared && update.Abort?))
                && (store != Works || now < old(receipt).value.created)
    {
      if pending.Some? {
        return Some(Busy);
      }
      if poisoned {
        return Some(Uncertain);
      }
      if receipt.None? {
        return Some(WrongPhase);
      }
      var phase := receipt.value.phase;
      if !(phase == Receipts.Continuation || (phase == Receipts.Prepared && update.Abort?)) {
        return Some(WrongPhase);
      }
      var ok := Publish(update, now, store);
      error := if ok then None else Some(ReceiptFailed);
    }

    /** The store may leave: nothing is pending and the receipt is final, absent or not trusted. */
    predicate Releasable()
      reads this
    {
      pending.None? && (poisoned || receipt.None? || !Live(receipt.value.phase))
    }

    /** The workflow's attempt to abort what has not been dispatched. */
    method AbortIdle(now: nat, store: Store)
      requires Inv()
      modifies this`durable, this`receipt, this`poisoned
      ensures Inv()
      ensures pending.None? ==> Releasable()
      ensures pending.Some? ==> receipt == old(receipt) && durable == old(durable) && poisoned == old(poisoned)
    {
      if pending.Some? {
        return;
      }
      if receipt.Some? && receipt.value.phase in {Receipts.Prepared, Receipts.Continuation} {
        var error := End(Receipts.Abort, now, store);
      }
    }

    /**
     The hand-back loop of the workflow. From every owner one pass through it is enough, however the
     last batch ends and whatever the store does, and the store leaves with a final or distrusted receipt.
     */
    method HandBack(answer: Answer, now: nat, store: Store) returns (passes: nat)
      requires Inv()
      modifies this`durable, this`receipt, this`poisoned, this`pending, this`sent
      ensures Inv() && Releasable()
      ensures passes == if old(pending).Some? then 1 else 0
      ensures old(pending).None? ==> sent == old(sent)
    {
      AbortIdle(now, store);
      passes := 0;
      while !Releasable()
        invariant Inv()
        invariant passes == 0 ==> pending == old(pending) && (old(pending).None? ==> Releasable() && sent == old(sent))
        invariant passes > 0 ==> passes == 1 && Releasable() && old(pending).Some?
        decreases 1 - passes
      {
        var transport := Finish(answer, now, store);
        AbortIdle(now, store);
        passes := passes + 1;
      }
    }

    /**
     Any sequence of calls at any times. At most one batch per stage is ever sent, the change batch
     only after creations that all succeeded, and nothing once the receipt is distrusted.
     */
    method Drive(turns: seq<Turn>)
      requires Inv()
      modifies this
      ensures Inv() && old(sent) <= sent
      ensures Count(sent, Creations) <= 1 && Count(sent, Changes) <= 1 && |sent| <= 2
      ensures Count(sent, Changes) == 1 ==> receipt.Some? && Receipts.AllCreated(receipt.value)
      ensures durable.Some? ==> Truthful(durable.value, sent)
      ensures old(poisoned) ==> poisoned && sent == old(sent)
    {
      for n := 0 to |turns|
        invariant Inv() && old(sent) <= sent
        invariant old(poisoned) ==> poisoned && sent == old(sent)
      {
        hide Truthful, Receipts.Checked, Announced, BatchValid, Count, Recorded, WellAnswered;
        Take(turns[n]);
      }
      CountTotal(sent);
    }

    method Take(turn: Turn)
      requires Inv()
      modifies this
      ensures Inv() && old(sent) <= sent
      ensures old(poisoned) ==> poisoned && sent == old(sent)
    {
      hide Truthful, Receipts.Checked, Announced, BatchValid, Count, Recorded, WellAnswered;
      match turn.call
      case CallBegin(wanted, creations, refused, prepared) =>
        var error := Begin(wanted, creations, refused, turn.now, prepared, turn.store);
      case CallChanges(effects, refused) =>
        var error := BeginChanges(effects, refused, turn.now, turn.store);
      case CallFinish(answer) =>
        var transport := Finish(answer, turn.now, turn.store);
      case CallEnd(close) =>
        var error := End(if close then Receipts.Close else Receipts.Abort, turn.now, turn.store);
    }
  }

  lemma ProceedIsTruthful(r: Receipts.Receipt, sent: seq<Batch>, now: nat)
    requires Truthful(r, sent)
    ensures var next := Receipts.Updated(r, Receipts.Proceed, now); next.Some? ==> Truthful(next.value, sent)
  {
  }

  lemma AdmissibleIsValid(request: Request, creations: seq<Effect>)
    requires Admissible(request, creations)
    ensures BatchValid(request, Batch(Creations, creations))
  {
    hide ValidEffect;
  }

  /** The receipt tells of the stage what the session reported, with counts that account for the batch. */
  predicate Recorded(receipt: Option<Receipts.Receipt>, batch: Batch, transport: Transport) {
    && receipt.Some?
    && match transport
       case Replies(oks) =>
         && StagePhaseOf(receipt.value, batch.stage) == Receipts.Acknowledged
         && Successes(oks) <= |oks| <= |batch.effects|
         && StageCounts(receipt.value, batch.stage) == Some(Tally(oks, |batch.effects|))
         && (batch.stage == Creations ==> (receipt.value.phase == Receipts.Continuation <==> Successes(oks) == |batch.effects|))
       case BeforeDispatch => StagePhaseOf(receipt.value, batch.stage) == Receipts.NotDispatched
       case Vanished => StagePhaseOf(receipt.value, batch.stage) == Receipts.Lost
  }

  function StageCounts(r: Receipts.Receipt, stage: Stage): Option<Receipts.Counts> {
    if stage == Creations then r.creations.counts else if r.changes.Some? then r.changes.value.counts else None
  }

  /**
   Whatever the session lets through fits the receipt: the update for it is accepted unless time has
   run back behind the receipt's start, and then tells what the session reported.
   */
  lemma OutcomeFacts(r: Receipts.Receipt, batch: Batch, transport: Transport, now: nat)
    requires Receipts.Checked(r) && r.phase == DispatchingPhase(batch.stage) && Credible(batch, transport)
    requires |batch.effects| == AnnouncedCount(r, batch.stage)
    ensures StagePhaseOf(r, batch.stage) == Receipts.Dispatching
    ensures var next := Receipts.Updated(r, Outcome(batch, transport), now);
            && (next.Some? <==> r.created <= now)
            && (next.Some? ==>
                  && next.value.phase in {Receipts.Continuation, Receipts.Closed, Receipts.Aborted, Receipts.Unknown}
                  && (forall stage | stage != batch.stage :: StagePhaseOf(next.value, stage) == StagePhaseOf(r, stage))
                  && Recorded(next, batch, transport))
  {
    Receipts.AcceptedExactlyWhenLegal(r, Outcome(batch, transport), now);
    if transport.Replies? {
      AllowedCounts(transport.oks, |batch.effects|, Halts(batch.stage));
    }
  }

  /** The record of a batch is true of what has been sent by then. */
  lemma SendingIsTruthful(r: Receipts.Receipt, batch: Batch, was: seq<Batch>, sent: seq<Batch>, transport: Transport, now: nat)
    requires Receipts.Checked(r) && r.phase == DispatchingPhase(batch.stage) && Credible(batch, transport)
    requires |batch.effects| == AnnouncedCount(r, batch.stage)
    requires Truthful(r, was) && Count(was, batch.stage) == 0
    requires forall stage | stage != batch.stage :: Count(sent, stage) == Count(was, stage)
    requires Count(sent, batch.stage) <= 1
    requires transport.Replies? ==> Count(sent, batch.stage) == 1
    requires transport == BeforeDispatch ==> Count(sent, batch.stage) == 0
    ensures Truthful(r, sent)
    ensures var next := Receipts.Updated(r, Outcome(batch, transport), now); next.Some? ==> Truthful(next.value, sent)
  {
    hide Receipts.Checked, Receipts.Updated, Outcome, Count;
    OutcomeFacts(r, batch, transport, now);
  }

  function AnnouncedCount(r: Receipts.Receipt, stage: Stage): nat {
    if stage == Creations then r.creations.count else if r.changes.Some? then r.changes.value.count else 0
  }
}
