/**
 Admission of HTTP connections and custody of their bodies (http_ingress.rs). The methods of `Gate`
 are the atomic steps that calls of different tasks interleave in.
 */
module Ingress {
  import opened Common
  import opened Sums

  const ORDINARY_CONNECTIONS: nat := 32
  const EMERGENCY_CONNECTIONS: nat := 2
  const ORDINARY_BODY_BYTES: nat := 33_554_432
  const EMERGENCY_BODY_BYTES: nat := 16_384
  const MAX_BODY_BYTES: nat := 4_194_304

  datatype Kind = Ordinary | Emergency

  /**
   One call of `admit` and what became of it: it has passed the first check, holds a permit, has
   returned a connection, or holds nothing any more. A connection's permit is kept until its
   handle and its reader or body are all dropped.
   */
  datatype Call =
    | Passed
    | Holding(kind: Kind)
    | Open(kind: Kind, handle: bool, reader: Option<nat>, used: bool)
    | Gone

  /** A call of `drained`: how many permits of each kind it has collected so far, until it returns or is dropped. */
  datatype Drain = Gathering(ordinary: nat, emergency: nat) | Over

  datatype Failure = Closed | Capacity | TooLarge | Cancelled | Deadline | EmergencyUsed | Transport | LengthMismatch

  function Permits(kind: Kind): Call -> nat {
    (call: Call) => if (call.Holding? || call.Open?) && call.kind == kind then 1 else 0
  }

  function Bytes(kind: Kind): Call -> nat {
    (call: Call) => if call.Open? && call.kind == kind && call.reader.Some? then call.reader.value else 0
  }

  function MaxBody(kind: Kind): nat {
    if kind == Ordinary then MAX_BODY_BYTES else EMERGENCY_BODY_BYTES
  }

  function Gathered(kind: Kind): Drain -> nat {
    (drain: Drain) => if drain.Over? then 0 else if kind == Ordinary then drain.ordinary else drain.emergency
  }

  /** What holds of every connection: something keeps it, and an emergency reader is its first. */
  predicate Kept(call: Call) {
    call.Open? ==>
      && (call.handle || call.reader.Some?)
      && (call.reader.Some? ==> call.reader.value <= MaxBody(call.kind) && (call.kind == Emergency ==> call.used))
  }

  /** The permits and bytes that nobody holds. */
  datatype Pools = Pools(ordinary: nat, emergency: nat, ordinaryBody: nat, emergencyBody: nat) {
    function Refunded(kind: Kind): Pools {
      if kind == Ordinary then this.(ordinary := ordinary + 1) else this.(emergency := emergency + 1)
    }

    function Returned(kind: Kind, bytes: nat): Pools {
      if kind == Ordinary then this.(ordinaryBody := ordinaryBody + bytes) else this.(emergencyBody := emergencyBody + bytes)
    }
  }

  /** Available and held credits make up the capacity of every pool. */
  ghost predicate Balanced(p: Pools, calls: seq<Call>, drains: seq<Drain>) {
    && p.ordinary + Sum(Permits(Ordinary), calls) + Sum(Gathered(Ordinary), drains) == ORDINARY_CONNECTIONS
    && p.emergency + Sum(Permits(Emergency), calls) + Sum(Gathered(Emergency), drains) == EMERGENCY_CONNECTIONS
    && p.ordinaryBody + Sum(Bytes(Ordinary), calls) == ORDINARY_BODY_BYTES
    && p.emergencyBody + Sum(Bytes(Emergency), calls) == EMERGENCY_CONNECTIONS * EMERGENCY_BODY_BYTES
  }

  /** A call that takes and gives back what its own holdings change by keeps every account balanced. */
  lemma SetKeepsBalance(p: Pools, q: Pools, calls: seq<Call>, i: nat, call: Call, drains: seq<Drain>)
    requires Balanced(p, calls, drains) && i < |calls|
    requires q.ordinary + Permits(Ordinary)(call) == p.ordinary + Permits(Ordinary)(calls[i])
    requires q.emergency + Permits(Emergency)(call) == p.emergency + Permits(Emergency)(calls[i])
    requires q.ordinaryBody + Bytes(Ordinary)(call) == p.ordinaryBody + Bytes(Ordinary)(calls[i])
    requires q.emergencyBody + Bytes(Emergency)(call) == p.emergencyBody + Bytes(Emergency)(calls[i])
    ensures Balanced(q, calls[i := call], drains)
  {
    SumUpdate(Permits(Ordinary), calls, i, call);
    SumUpdate(Permits(Emergency), calls, i, call);
    SumUpdate(Bytes(Ordinary), calls, i, call);
    SumUpdate(Bytes(Emergency), calls, i, call);
  }

  lemma DrainKeepsBalance(p: Pools, q: Pools, calls: seq<Call>, drains: seq<Drain>, d: nat, drain: Drain)
    requires Balanced(p, calls, drains) && d < |drains|
    requires q == p.(ordinary := q.ordinary, emergency := q.emergency)
    requires q.ordinary + Gathered(Ordinary)(drain) == p.ordinary + Gathered(Ordinary)(drains[d])
    requires q.emergency + Gathered(Emergency)(drain) == p.emergency + Gathered(Emergency)(drains[d])
    ensures Balanced(q, calls, drains[d := drain])
  {
    SumUpdate(Gathered(Ordinary), drains, d, drain);
    SumUpdate(Gathered(Emergency), drains, d, drain);
  }

  /** A drain that has every permit leaves none to anybody else. */
  lemma DrainedMeansIdle(p: Pools, calls: seq<Call>, drains: seq<Drain>, d: nat)
    requires Balanced(p, calls, drains) && d < |drains| && drains[d] == Gathering(ORDINARY_CONNECTIONS, EMERGENCY_CONNECTIONS)
    ensures forall i | 0 <= i < |calls| :: calls[i].Passed? || calls[i].Gone?
  {
    SumAtLeast(Gathered(Ordinary), drains, d);
    SumAtLeast(Gathered(Emergency), drains, d);
    forall i | 0 <= i < |calls| ensures calls[i].Passed? || calls[i].Gone? {
      SumAtLeast(Permits(Ordinary), calls, i);
      SumAtLeast(Permits(Emergency), calls, i);
    }
  }

  class Gate {
    var pools: Pools
    var closing: bool
    var shutdown: bool
    var calls: seq<Call>
    var drains: seq<Drain>
    /** A call of `drained` has returned. */
    var drained: bool

    ghost predicate Inv()
      reads this
    {
      && Balanced(pools, calls, drains)
      && (forall i | 0 <= i < |calls| :: Kept(calls[i]))
      && (shutdown || drains != [] || drained ==> closing)
      && (forall d | 0 <= d < |drains| && drains[d].Gathering? ::
            drains[d].ordinary <= ORDINARY_CONNECTIONS && (drains[d].emergency > 0 ==> drains[d].ordinary == ORDINARY_CONNECTIONS))
      && (drained ==> forall i | 0 <= i < |calls| :: !calls[i].Open?)
    }

    constructor ()
      ensures Inv() && !closing && !drained && calls == [] && pools == Pools(32, 2, 33_554_432, 32_768)
    {
      pools := Pools(ORDINARY_CONNECTIONS, EMERGENCY_CONNECTIONS, ORDINARY_BODY_BYTES, EMERGENCY_CONNECTIONS * EMERGENCY_BODY_BYTES);
      closing, shutdown, calls, drains, drained := false, false, [], [], false;
    }

    /** `admit`: the first look at the closing flag. */
    method AdmitFirst() returns (r: Result<nat, Failure>)
      requires Inv()
      modifies this`calls
      ensures Inv()
      ensures r.Ok? <==> !closing
      ensures r.Ok? ==> r.value == |old(calls)| && calls == old(calls) + [Passed]
      ensures r.Err? ==> calls == old(calls)
    {
      if closing {
        return Err(Closed);
      }
      SumAppend(Permits(Ordinary), calls, Passed);
      SumAppend(Permits(Emergency), calls, Passed);
      SumAppend(Bytes(Ordinary), calls, Passed);
      SumAppend(Bytes(Emergency), calls, Passed);
      r := Ok(|calls|);
      calls := calls + [Passed];
    }

    /** `admit`: an ordinary permit, or else an emergency one. */
    method AdmitAcquire(i: nat) returns (r: Result<Kind, Failure>)
      requires Inv() && i < |calls| && calls[i] == Passed
      modifies this`calls, this`pools
      ensures Inv() && |calls| == |old(calls)|
      ensures r == Ok(Ordinary) <==> old(pools).ordinary > 0
      ensures r == Ok(Emergency) <==> old(pools).ordinary == 0 && old(pools).emergency > 0
      ensures calls == old(calls)[i := if r.Ok? then Holding(r.value) else Gone]
    {
      hide Balanced;
      var left := pools;
      r := Err(Capacity);
      if pools.ordinary > 0 {
        left, r := pools.(ordinary := pools.ordinary - 1), Ok(Ordinary);
      } else if pools.emergency > 0 {
        left, r := pools.(emergency := pools.emergency - 1), Ok(Emergency);
      }
      var call := if r.Ok? then Holding(r.value) else Gone;
      SetKeepsBalance(pools, left, calls, i, call, drains);
      pools, calls := left, calls[i := call];
    }

    /** `admit`: the second look; only now is a connection returned. */
    method AdmitSecond(i: nat) returns (r: Result<Kind, Failure>)
      requires Inv() && i < |calls| && calls[i].Holding?
      modifies this`calls, this`pools
      ensures Inv()
      ensures r.Ok? <==> !closing
      ensures r.Ok? ==> r.value == old(calls[i]).kind && calls == old(calls)[i := Open(r.value, true, None, false)]
      ensures r.Err? ==> calls == old(calls)[i := Gone]
      ensures drained ==> r.Err?
    {
      hide Balanced;
      var kind := calls[i].kind;
      if closing {
        SetKeepsBalance(pools, pools.Refunded(kind), calls, i, Gone, drains);
        pools, calls := pools.Refunded(kind), calls[i := Gone];
        return Err(Closed);
      }
      SetKeepsBalance(pools, pools, calls, i, Open(kind, true, None, false), drains);
      calls := calls[i := Open(kind, true, None, false)];
      r := Ok(kind);
    }

    method Close()
      requires Inv()
      modifies this`closing
      ensures Inv() && closing
    {
      closing := true;
    }

    method Shutdown()
      requires Inv() && closing
      modifies this`shutdown
      ensures Inv() && shutdown
    {
      shutdown := true;
    }

    /** `drained` refuses unless the gate is closing; several calls may wait at once. */
    method DrainStart() returns (d: Option<nat>)
      requires Inv()
      modifies this`drains
      ensures Inv() && (d.Some? <==> closing)
      ensures if d.Some? then d.value == |old(drains)| && drains == old(drains) + [Gathering(0, 0)] else drains == old(drains)
    {
      if !closing {
        return None;
      }
      SumAppend(Gathered(Ordinary), drains, Gathering(0, 0));
      SumAppend(Gathered(Emergency), drains, Gathering(0, 0));
      d := Some(|drains|);
      drains := drains + [Gathering(0, 0)];
    }

    /** `drained` waits: one more free permit is set aside for it, ordinary ones first. */
    method DrainGather(d: nat) returns (gathered: bool)
      requires Inv() && d < |drains| && drains[d].Gathering?
      modifies this`drains, this`pools
      ensures Inv()
      ensures gathered <==> (if old(drains[d]).ordinary < ORDINARY_CONNECTIONS then old(pools).ordinary > 0
                             else old(drains[d]).emergency < EMERGENCY_CONNECTIONS && old(pools).emergency > 0)
      ensures drains == (if !gathered then old(drains)
                         else if old(drains[d]).ordinary < ORDINARY_CONNECTIONS then old(drains)[d := old(drains[d]).(ordinary := old(drains[d]).ordinary + 1)]
                         else old(drains)[d := old(drains[d]).(emergency := old(drains[d]).emergency + 1)])
    {
      hide Balanced;
      var drain := drains[d];
      var next, left := drain, pools;
      if drain.ordinary < ORDINARY_CONNECTIONS {
        if pools.ordinary > 0 {
          left, next := pools.(ordinary := pools.ordinary - 1), drain.(ordinary := drain.ordinary + 1);
        }
      } else if drain.emergency < EMERGENCY_CONNECTIONS && pools.emergency > 0 {
        left, next := pools.(emergency := pools.emergency - 1), drain.(emergency := drain.emergency + 1);
      }
      gathered := next != drain;
      DrainKeepsBalance(pools, left, calls, drains, d, next);
      assert next == drain ==> drains[d := next] == drains;
      pools, drains := left, drains[d := next];
    }

    /** What a drain has collected returns, because it has returned itself or was dropped while it waited. */
    method DrainEnd(d: nat) returns (finished: bool)
      requires Inv() && d < |drains| && drains[d].Gathering?
      modifies this`drains, this`pools, this`drained
      ensures Inv() && drains == old(drains)[d := Over]
      ensures drained == (old(drained) || finished)
      ensures finished <==> old(drains[d]) == Gathering(ORDINARY_CONNECTIONS, EMERGENCY_CONNECTIONS)
      ensures finished ==> forall i | 0 <= i < |calls| :: calls[i].Passed? || calls[i].Gone?
      ensures (exists i | 0 <= i < |calls| :: calls[i].Open? || calls[i].Holding?) ==> !finished
    {
      hide Balanced;
      var drain := drains[d];
      finished := drain == Gathering(ORDINARY_CONNECTIONS, EMERGENCY_CONNECTIONS);
      if finished {
        DrainedMeansIdle(pools, calls, drains, d);
      }
      var left := pools.(ordinary := pools.ordinary + drain.ordinary, emergency := pools.emergency + drain.emergency);
      DrainKeepsBalance(pools, left, calls, drains, d, Over);
      pools, drains, drained := left, drains[d := Over], drained || finished;
    }

    /** `reader`: reserves the bytes of one body before its deadline. An emergency connection gets one reader ever. */
    method OpenReader(i: nat, length: Option<nat>, late: bool) returns (r: Result<nat, Failure>)
      requires Inv() && i < |calls| && calls[i].Open?
      modifies this`calls, this`pools
      ensures Inv()
      ensures var call, capacity := old(calls[i]), if length.Some? then length.value else if old(calls[i]).kind == Ordinary then 4_194_304 else 16_384;
              && (r.Ok? <==>
                    && !shutdown && !late && call.handle && call.reader.None? && capacity <= (if call.kind == Ordinary then 4_194_304 else 16_384)
                    && (call.kind == Ordinary ==> capacity <= old(pools).ordinaryBody)
                    && (call.kind == Emergency ==> !call.used))
              && (r.Ok? ==>
                    && r.value == capacity && calls == old(calls)[i := call.(reader := Some(capacity), used := true)]
                    && pools == old(pools).(ordinaryBody := pools.ordinaryBody, emergencyBody := pools.emergencyBody)
                    && pools.ordinaryBody + (if call.kind == Ordinary then capacity else 0) == old(pools).ordinaryBody
                    && pools.emergencyBody + (if call.kind == Emergency then capacity else 0) == old(pools).emergencyBody)
              && (r == Err(Closed) <==> shutdown)
              && (r == Err(Cancelled) <==> !shutdown && !call.handle)
              && (r == Err(Deadline) <==> !shutdown && call.handle && late)
              && (r == Err(TooLarge) <==> !shutdown && call.handle && !late && capacity > MaxBody(call.kind))
              && (r == Err(EmergencyUsed) <==>
                    && !shutdown && call.handle && !late && capacity <= MaxBody(call.kind) && call.reader.None?
                    && call.kind == Emergency && call.used)
              && (r.Err? ==> r.error in {Closed, Cancelled, Deadline, TooLarge, EmergencyUsed, Capacity})
      ensures r.Err? ==> calls == old(calls) && pools == old(pools)
    {
      hide Balanced;
      var call, kind := calls[i], calls[i].kind;
      var capacity := if length.Some? then length.value else MaxBody(kind);
      var refusal := ReaderRefusal(call, capacity, late);
      if refusal.Some? {
        return Err(refusal.value);
      }
      if kind == Emergency {
        EmergencyRoom(pools, calls, drains, i);
      }
      if (if kind == Ordinary then pools.ordinaryBody else pools.emergencyBody) < capacity {
        return Err(Capacity);
      }
      if kind == Emergency && call.used {
        return Err(EmergencyUsed);
      }
      var left := if kind == Ordinary then pools.(ordinaryBody := pools.ordinaryBody - capacity)
                  else pools.(emergencyBody := pools.emergencyBody - capacity);
      var reading := call.(reader := Some(capacity), used := true);
      SetKeepsBalance(pools, left, calls, i, reading, drains);
      pools, calls := left, calls[i := reading];
      r := Ok(capacity);
    }

    function ReaderRefusal(call: Call, capacity: nat, late: bool): Option<Failure>
      reads this`shutdown
      requires call.Open?
    {
      if shutdown then Some(Closed)
      else if !call.handle then Some(Cancelled)
      else if late then Some(Deadline)
      else if capacity > MaxBody(call.kind) then Some(TooLarge)
      else if call.reader.Some? then Some(Capacity)
      else None
    }

    /** The reader, or the body it became, is dropped. */
    method DropReader(i: nat)
      requires Inv() && i < |calls| && calls[i].Open? && calls[i].reader.Some?
      modifies this`calls, this`pools
      ensures Inv()
      ensures calls == old(calls)[i := if old(calls[i]).handle then old(calls[i]).(reader := None) else Gone]
    {
      hide Balanced;
      var call := calls[i];
      var left := pools.Returned(call.kind, call.reader.value);
      if !call.handle {
        left := left.Refunded(call.kind);
      }
      var next := if call.handle then call.(reader := None) else Gone;
      SetKeepsBalance(pools, left, calls, i, next, drains);
      pools, calls := left, calls[i := next];
    }

    /** The connection itself is dropped; a body that is still in use keeps its permit. */
    method DropHandle(i: nat)
      requires Inv() && i < |calls| && calls[i].Open? && calls[i].handle
      modifies this`calls, this`pools
      ensures Inv()
      ensures calls == old(calls)[i := if old(calls[i]).reader.Some? then old(calls[i]).(handle := false) else Gone]
    {
      hide Balanced;
      var call := calls[i];
      var next := if call.reader.Some? then call.(handle := false) else Gone;
      var left := if call.reader.Some? then pools else pools.Refunded(call.kind);
      SetKeepsBalance(pools, left, calls, i, next, drains);
      pools, calls := left, calls[i := next];
    }

    /**
     Any interleaving of the steps of any number of calls. No connection is returned after a call of
     `drained` has, and none is open when it does; whenever all connections are gone the pools are full.
     */
    method Run(script: seq<Move>) returns (late: bool)
      requires Inv()
      modifies this
      ensures Inv() && !late
      ensures old(drained) ==> drained
      ensures drained ==> forall i | 0 <= i < |calls| :: !calls[i].Open?
      ensures ((forall d | 0 <= d < |drains| :: drains[d].Over?) && (forall i | 0 <= i < |calls| :: calls[i].Passed? || calls[i].Gone?)) ==>
                pools == Pools(32, 2, 33_554_432, 32_768)
    {
      late := false;
      for n := 0 to |script|
        invariant Inv() && !late && (old(drained) ==> drained)
      {
        hide Balanced;
        var i := script[n].number;
        if script[n].step == CheckFirst {
          var r := AdmitFirst();
        } else if script[n].step == DoClose {
          Close();
        } else if script[n].step == DoShutdown && closing {
          Shutdown();
        } else if script[n].step == StartDrain {
          var r := DrainStart();
        } else if script[n].step == Gather && i < |drains| && drains[i].Gathering? {
          var r := DrainGather(i);
        } else if script[n].step == EndDrain && i < |drains| && drains[i].Gathering? {
          var r := DrainEnd(i);
        } else if i < |calls| {
          var returned := Advance(i, script[n].step);
          late := late || (returned && drained);
        }
      }
      EmptyPools(pools, calls, drains);
    }

    /** One step of one call; tells whether it returned a connection. */
    method Advance(i: nat, step: StepName) returns (returned: bool)
      requires Inv() && i < |calls|
      modifies this`calls, this`pools
      ensures Inv() && (returned ==> !drained)
    {
      returned := false;
      if step == Acquire && calls[i].Passed? {
        var r := AdmitAcquire(i);
      } else if step == CheckSecond && calls[i].Holding? {
        var r := AdmitSecond(i);
        returned := r.Ok?;
      } else if step.Read? && calls[i].Open? {
        var r := OpenReader(i, step.length, step.late);
      } else if step == EndRead && calls[i].Open? && calls[i].reader.Some? {
        DropReader(i);
      } else if step == Depart && calls[i].Open? && calls[i].handle {
        DropHandle(i);
      }
    }
  }

  datatype StepName =
    | CheckFirst | Acquire | CheckSecond | Read(length: Option<nat>, late: bool) | EndRead | Depart
    | DoClose | DoShutdown | StartDrain | Gather | EndDrain

  /** A step of the numbered call or drain. */
  datatype Move = Move(number: nat, step: StepName)

  lemma EmptyPools(p: Pools, calls: seq<Call>, drains: seq<Drain>)
    requires Balanced(p, calls, drains)
    ensures ((forall d | 0 <= d < |drains| :: drains[d].Over?) && (forall i | 0 <= i < |calls| :: calls[i].Passed? || calls[i].Gone?)) ==>
              p == Pools(ORDINARY_CONNECTIONS, EMERGENCY_CONNECTIONS, ORDINARY_BODY_BYTES, EMERGENCY_CONNECTIONS * EMERGENCY_BODY_BYTES)
  {
    if (forall d | 0 <= d < |drains| :: drains[d].Over?) && (forall i | 0 <= i < |calls| :: calls[i].Passed? || calls[i].Gone?) {
      SumOfNothing(Permits(Ordinary), calls);
      SumOfNothing(Permits(Emergency), calls);
      SumOfNothing(Bytes(Ordinary), calls);
      SumOfNothing(Bytes(Emergency), calls);
      SumOfNothing(Gathered(Ordinary), drains);
      SumOfNothing(Gathered(Emergency), drains);
    }
  }

  // ----- Collecting a body -----

  /** What the reader meets next: a chunk, an error of the decoder, or the end of its own permission. */
  datatype Arrival = Chunk(bytes: seq<nat>) | Broken | Stopped(reason: Failure)

  function Content(arrivals: seq<Arrival>): seq<nat> {
    if arrivals == [] then []
    else Content(arrivals[..|arrivals| - 1]) + if arrivals[|arrivals| - 1].Chunk? then arrivals[|arrivals| - 1].bytes else []
  }

  lemma {:induction false} ContentGrows(arrivals: seq<Arrival>, i: nat)
    requires i <= |arrivals|
    ensures |Content(arrivals[..i])| <= |Content(arrivals)|
  {
    if i < |arrivals| {
      ContentGrows(arrivals[..|arrivals| - 1], i);
      assert arrivals[..|arrivals| - 1][..i] == arrivals[..i];
    } else {
      assert arrivals[..i] == arrivals;
    }
  }

  /**
   Collects a body. It succeeds exactly when nothing fails or stops it, the bytes fit the reserved
   capacity, and a declared length is met; then nothing is lost. Otherwise the first cause is reported.
   */
  method Collect(capacity: nat, length: Option<nat>, arrivals: seq<Arrival>) returns (r: Result<seq<nat>, Failure>)
    ensures r.Ok? <==>
            && (forall i | 0 <= i < |arrivals| :: arrivals[i].Chunk?)
            && |Content(arrivals)| <= capacity
            && (length.Some? ==> |Content(arrivals)| == length.value)
    ensures r.Ok? ==> r.value == Content(arrivals)
    ensures r.Err? ==> r.error == FirstCause(capacity, arrivals, 0)
  {
    var bytes: seq<nat> := [];
    for i := 0 to |arrivals|
      invariant bytes == Content(arrivals[..i]) && |bytes| <= capacity
      invariant forall j | 0 <= j < i :: arrivals[j].Chunk?
      invariant FirstCause(capacity, arrivals, 0) == FirstCause(capacity, arrivals, i)
    {
      assert arrivals[..i + 1][..i] == arrivals[..i];
      match arrivals[i]
      case Stopped(reason) => return Err(reason);
      case Broken => return Err(Transport);
      case Chunk(chunk) =>
        ContentGrows(arrivals, i + 1);
        if |bytes| + |chunk| > capacity {
          return Err(TooLarge);
        }
        bytes := bytes + chunk;
    }
    assert arrivals[..|arrivals|] == arrivals;
    if length.Some? && length.value != |bytes| {
      return Err(LengthMismatch);
    }
    r := Ok(bytes);
  }

  /** The first thing at or after place `i` that keeps the body from being complete. */
  function FirstCause(capacity: nat, arrivals: seq<Arrival>, i: nat): Failure
    requires i <= |arrivals|
    decreases |arrivals| - i
  {
    if i == |arrivals| then LengthMismatch
    else match arrivals[i]
      case Stopped(reason) => reason
      case Broken => Transport
      case Chunk(_) => if |Content(arrivals[..i + 1])| > capacity then TooLarge else FirstCause(capacity, arrivals, i + 1)
  }

  /** The emergency pool has a whole body left for a connection that holds none. */
  lemma EmergencyRoom(p: Pools, calls: seq<Call>, drains: seq<Drain>, i: nat)
    requires Balanced(p, calls, drains)
    requires i < |calls| && calls[i].Open? && calls[i].kind == Emergency && calls[i].reader.None?
    requires forall j | 0 <= j < |calls| :: Kept(calls[j])
    ensures p.emergencyBody >= EMERGENCY_BODY_BYTES
  {
    var others := calls[i := Gone];
    SumUpdate(Permits(Emergency), calls, i, Gone);
    SumUpdate(Bytes(Emergency), calls, i, Gone);
    forall j | 0 <= j < |others| ensures Bytes(Emergency)(others[j]) <= EMERGENCY_BODY_BYTES * Permits(Emergency)(others[j]) {
      assert Kept(calls[j]);
    }
    SumScaled(Bytes(Emergency), Permits(Emergency), EMERGENCY_BODY_BYTES, others);
  }
}
