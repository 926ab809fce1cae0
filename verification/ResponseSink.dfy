/**
 Bounded ownership of responses and events (http_sink.rs). A packet keeps its credits from its
 reservation until its bytes are dropped; emergency stops have pools of their own.
 */
module ResponseSink {
  import opened Common
  import opened Sums

  const GLOBAL_BYTES: nat := 33_554_432
  const STREAM_BYTES: nat := 1_048_576
  const STREAM_ITEMS: nat := 16
  const RESPONSE_ITEMS: nat := 128
  const STOP_BODY_BYTES: nat := 16_384
  const STOP_OUTPUT_BYTES: nat := 65_536

  datatype Stop = TakeStop | SafetyStop

  datatype Pool = Shared | Output(stop: Stop)

  datatype Failure = Closed | Capacity

  function PoolSize(pool: Pool): nat {
    if pool.Shared? then GLOBAL_BYTES else STOP_OUTPUT_BYTES
  }

  /** Credits that nobody holds, by pool and by stop class. */
  datatype Free = Free(shared: nat, takeOutput: nat, safetyOutput: nat, takeSlot: nat, safetySlot: nat, takeBody: nat, safetyBody: nat) {
    function Bytes(pool: Pool): nat {
      match pool
      case Shared => shared
      case Output(TakeStop) => takeOutput
      case Output(SafetyStop) => safetyOutput
    }

    function WithBytes(pool: Pool, n: nat): Free {
      match pool
      case Shared => this.(shared := n)
      case Output(TakeStop) => this.(takeOutput := n)
      case Output(SafetyStop) => this.(safetyOutput := n)
    }

    function Slot(stop: Stop): nat {
      if stop == TakeStop then takeSlot else safetySlot
    }

    function Body(stop: Stop): nat {
      if stop == TakeStop then takeBody else safetyBody
    }

    function WithStop(stop: Stop, slot: nat, body: nat): Free {
      if stop == TakeStop then this.(takeSlot := slot, takeBody := body) else this.(safetySlot := slot, safetyBody := body)
    }
  }

  /** The custody of one emergency exchange; it lives as long as anything refers to it. `handle` is the exchange itself. */
  datatype Lease = Lease(stop: Stop, body: nat, refs: nat, handle: bool)

  /** `queue` holds packet numbers; `last` is the queue as it was when the sender failed. */
  datatype Sender = Sender(max: nat, cap: nat, local: nat, items: nat, lease: Option<nat>, pool: Pool, alive: bool, queue: seq<nat>, last: Option<seq<nat>>)

  datatype Stage = Reserved | Queued | Taken | Dropped

  datatype Packet = Packet(sender: nat, bytes: nat, pool: Pool, lease: Option<nat>, stage: Stage)

  function Drawn(pool: Pool): Packet -> nat {
    (p: Packet) => if p.stage != Dropped && p.pool == pool then p.bytes else 0
  }

  function BytesOf(sender: nat): Packet -> nat {
    (p: Packet) => if p.stage != Dropped && p.sender == sender then p.bytes else 0
  }

  function ItemsOf(sender: nat): Packet -> nat {
    (p: Packet) => if p.stage != Dropped && p.sender == sender then 1 else 0
  }

  function PacketsWith(lease: nat): Packet -> nat {
    (p: Packet) => if p.stage != Dropped && p.lease == Some(lease) then 1 else 0
  }

  function SendersWith(lease: nat): Sender -> nat {
    (s: Sender) => if s.alive && s.lease == Some(lease) then 1 else 0
  }

  function SlotOf(stop: Stop): Lease -> nat {
    (l: Lease) => if l.refs > 0 && l.stop == stop then 1 else 0
  }

  function BodyOf(stop: Stop): Lease -> nat {
    (l: Lease) => if l.refs > 0 && l.stop == stop then l.body else 0
  }

  // ----- The accounts -----

  ghost predicate PoolsBalance(free: Free, packets: seq<Packet>) {
    forall pool :: free.Bytes(pool) + Sum(Drawn(pool), packets) == PoolSize(pool)
  }

  ghost predicate SendersBalance(senders: seq<Sender>, packets: seq<Packet>) {
    forall s | 0 <= s < |senders| ::
      && senders[s].local + Sum(BytesOf(s), packets) == senders[s].max
      && senders[s].items + Sum(ItemsOf(s), packets) == senders[s].cap
  }

  ghost predicate StopsBalance(free: Free, leases: seq<Lease>) {
    forall stop ::
      && free.Slot(stop) + Sum(SlotOf(stop), leases) == 1
      && free.Body(stop) + Sum(BodyOf(stop), leases) == STOP_BODY_BYTES
  }

  ghost predicate RefsBalance(leases: seq<Lease>, senders: seq<Sender>, packets: seq<Packet>) {
    forall l | 0 <= l < |leases| ::
      leases[l].refs == (if leases[l].handle then 1 else 0) + Sum(SendersWith(l), senders) + Sum(PacketsWith(l), packets)
  }

  /** Packets belong to senders, and a sender's pool is that of its lease. */
  ghost predicate Linked(leases: seq<Lease>, senders: seq<Sender>, packets: seq<Packet>) {
    && (forall s | 0 <= s < |senders| ::
          if senders[s].lease.None? then senders[s].pool == Shared
          else senders[s].lease.value < |leases| && senders[s].pool == Output(leases[senders[s].lease.value].stop))
    && (forall p | 0 <= p < |packets| ::
          && packets[p].sender < |senders|
          && packets[p].pool == senders[packets[p].sender].pool && packets[p].lease == senders[packets[p].sender].lease)
  }

  /** After a failure the queue only loses packets from its front. */
  predicate QueueFrozen(s: Sender) {
    s.last.Some? ==> |s.queue| <= |s.last.value| && s.queue == s.last.value[|s.last.value| - |s.queue|..]
  }

  /** The queue of sender `s` holds packets of its own that are queued, none twice. */
  ghost predicate QueueOk(sender: Sender, s: nat, packets: seq<Packet>) {
    && QueueFrozen(sender)
    && (forall i | 0 <= i < |sender.queue| ::
          sender.queue[i] < |packets| && packets[sender.queue[i]].sender == s && packets[sender.queue[i]].stage == Queued)
    && (forall i, j | 0 <= i < j < |sender.queue| :: sender.queue[i] != sender.queue[j])
  }

  /** A sender that had failed stays so, and its queue is a suffix of what it was. */
  predicate Later(was: Sender, now: Sender) {
    was.last.Some? ==> now.last == was.last && |now.queue| <= |was.queue| && now.queue == was.queue[|was.queue| - |now.queue|..]
  }

  ghost predicate Onward(was: seq<Sender>, now: seq<Sender>) {
    |was| <= |now| && forall s | 0 <= s < |was| :: Later(was[s], now[s])
  }

  lemma OnwardTwice(a: seq<Sender>, b: seq<Sender>, c: seq<Sender>)
    requires Onward(a, b) && Onward(b, c)
    ensures Onward(a, c)
  {
    forall s | 0 <= s < |a| ensures Later(a[s], c[s]) {
      assert Later(a[s], b[s]) && Later(b[s], c[s]);
    }
  }

  ghost predicate QueuesOk(senders: seq<Sender>, packets: seq<Packet>) {
    forall s | 0 <= s < |senders| :: QueueOk(senders[s], s, packets)
  }

  // ----- How one change moves the accounts -----

  /** A new packet weighs in everywhere it counts. */
  lemma PacketAdded(packets: seq<Packet>, p: Packet)
    ensures forall pool :: Sum(Drawn(pool), packets + [p]) == Sum(Drawn(pool), packets) + Drawn(pool)(p)
    ensures forall s :: Sum(BytesOf(s), packets + [p]) == Sum(BytesOf(s), packets) + BytesOf(s)(p)
    ensures forall s :: Sum(ItemsOf(s), packets + [p]) == Sum(ItemsOf(s), packets) + ItemsOf(s)(p)
    ensures forall l :: Sum(PacketsWith(l), packets + [p]) == Sum(PacketsWith(l), packets) + PacketsWith(l)(p)
  {
    forall pool ensures Sum(Drawn(pool), packets + [p]) == Sum(Drawn(pool), packets) + Drawn(pool)(p) {
      SumAppend(Drawn(pool), packets, p);
    }
    forall n: nat
      ensures Sum(BytesOf(n), packets + [p]) == Sum(BytesOf(n), packets) + BytesOf(n)(p)
      ensures Sum(ItemsOf(n), packets + [p]) == Sum(ItemsOf(n), packets) + ItemsOf(n)(p)
      ensures Sum(PacketsWith(n), packets + [p]) == Sum(PacketsWith(n), packets) + PacketsWith(n)(p)
    {
      SumAppend(BytesOf(n), packets, p);
      SumAppend(ItemsOf(n), packets, p);
      SumAppend(PacketsWith(n), packets, p);
    }
  }

  /** A packet that changes its stage. */
  lemma PacketMoved(packets: seq<Packet>, i: nat, stage: Stage)
    requires i < |packets|
    ensures var p, q := packets[i], packets[i].(stage := stage);
            && (forall pool :: Sum(Drawn(pool), packets[i := q]) + Drawn(pool)(p) == Sum(Drawn(pool), packets) + Drawn(pool)(q))
            && (forall s :: Sum(BytesOf(s), packets[i := q]) + BytesOf(s)(p) == Sum(BytesOf(s), packets) + BytesOf(s)(q))
            && (forall s :: Sum(ItemsOf(s), packets[i := q]) + ItemsOf(s)(p) == Sum(ItemsOf(s), packets) + ItemsOf(s)(q))
            && (forall l :: Sum(PacketsWith(l), packets[i := q]) + PacketsWith(l)(p) == Sum(PacketsWith(l), packets) + PacketsWith(l)(q))
  {
    var p, q := packets[i], packets[i].(stage := stage);
    forall pool ensures Sum(Drawn(pool), packets[i := q]) + Drawn(pool)(p) == Sum(Drawn(pool), packets) + Drawn(pool)(q) {
      SumUpdate(Drawn(pool), packets, i, q);
    }
    forall n: nat
      ensures Sum(BytesOf(n), packets[i := q]) + BytesOf(n)(p) == Sum(BytesOf(n), packets) + BytesOf(n)(q)
      ensures Sum(ItemsOf(n), packets[i := q]) + ItemsOf(n)(p) == Sum(ItemsOf(n), packets) + ItemsOf(n)(q)
      ensures Sum(PacketsWith(n), packets[i := q]) + PacketsWith(n)(p) == Sum(PacketsWith(n), packets) + PacketsWith(n)(q)
    {
      SumUpdate(BytesOf(n), packets, i, q);
      SumUpdate(ItemsOf(n), packets, i, q);
      SumUpdate(PacketsWith(n), packets, i, q);
    }
  }

  lemma SenderChanged(senders: seq<Sender>, i: nat, s: Sender)
    requires i < |senders|
    ensures forall l :: Sum(SendersWith(l), senders[i := s]) + SendersWith(l)(senders[i]) == Sum(SendersWith(l), senders) + SendersWith(l)(s)
  {
    forall l: nat ensures Sum(SendersWith(l), senders[i := s]) + SendersWith(l)(senders[i]) == Sum(SendersWith(l), senders) + SendersWith(l)(s) {
      SumUpdate(SendersWith(l), senders, i, s);
    }
  }

  lemma SenderAdded(senders: seq<Sender>, s: Sender)
    ensures forall l :: Sum(SendersWith(l), senders + [s]) == Sum(SendersWith(l), senders) + SendersWith(l)(s)
  {
    forall l: nat ensures Sum(SendersWith(l), senders + [s]) == Sum(SendersWith(l), senders) + SendersWith(l)(s) {
      SumAppend(SendersWith(l), senders, s);
    }
  }

  lemma LeaseChanged(leases: seq<Lease>, i: nat, lease: Lease)
    requires i < |leases|
    ensures forall stop :: Sum(SlotOf(stop), leases[i := lease]) + SlotOf(stop)(leases[i]) == Sum(SlotOf(stop), leases) + SlotOf(stop)(lease)
    ensures forall stop :: Sum(BodyOf(stop), leases[i := lease]) + BodyOf(stop)(leases[i]) == Sum(BodyOf(stop), leases) + BodyOf(stop)(lease)
  {
    forall stop: Stop
      ensures Sum(SlotOf(stop), leases[i := lease]) + SlotOf(stop)(leases[i]) == Sum(SlotOf(stop), leases) + SlotOf(stop)(lease)
      ensures Sum(BodyOf(stop), leases[i := lease]) + BodyOf(stop)(leases[i]) == Sum(BodyOf(stop), leases) + BodyOf(stop)(lease)
    {
      SumUpdate(SlotOf(stop), leases, i, lease);
      SumUpdate(BodyOf(stop), leases, i, lease);
    }
  }

  // ----- Taking and giving back references to a lease -----

  function Referred(leases: seq<Lease>, lease: Option<nat>): seq<Lease> {
    if lease.Some? && lease.value < |leases| then leases[lease.value := leases[lease.value].(refs := leases[lease.value].refs + 1)] else leases
  }

  /** One reference less; with the last one the slot and the body credits return. */
  function Unreferred(leases: seq<Lease>, lease: Option<nat>): seq<Lease> {
    if lease.Some? && lease.value < |leases| && leases[lease.value].refs > 0
    then leases[lease.value := leases[lease.value].(refs := leases[lease.value].refs - 1)] else leases
  }

  function FreedBy(free: Free, leases: seq<Lease>, lease: Option<nat>): Free {
    if lease.Some? && lease.value < |leases| && leases[lease.value].refs == 1
    then
      var l := leases[lease.value];
      free.WithStop(l.stop, free.Slot(l.stop) + 1, free.Body(l.stop) + l.body)
    else free
  }

  lemma ReferenceKeepsStops(free: Free, leases: seq<Lease>, lease: Option<nat>)
    requires StopsBalance(free, leases) && (lease.Some? ==> lease.value < |leases| && leases[lease.value].refs > 0)
    ensures StopsBalance(free, Referred(leases, lease))
  {
    if lease.Some? {
      LeaseChanged(leases, lease.value, leases[lease.value].(refs := leases[lease.value].refs + 1));
    }
  }

  lemma UnreferenceKeepsStops(free: Free, leases: seq<Lease>, lease: Option<nat>)
    requires StopsBalance(free, leases) && (lease.Some? ==> lease.value < |leases| && leases[lease.value].refs > 0)
    ensures StopsBalance(FreedBy(free, leases, lease), Unreferred(leases, lease))
  {
    if lease.Some? {
      LeaseChanged(leases, lease.value, leases[lease.value].(refs := leases[lease.value].refs - 1));
    }
  }

  /** Everything that holds of a sink at rest. */
  ghost predicate Sound(free: Free, leases: seq<Lease>, senders: seq<Sender>, packets: seq<Packet>) {
    && PoolsBalance(free, packets)
    && SendersBalance(senders, packets)
    && StopsBalance(free, leases)
    && RefsBalance(leases, senders, packets)
    && Linked(leases, senders, packets)
    && QueuesOk(senders, packets)
  }

  /** A lease that a living sender or packet refers to is live. */
  lemma Referenced(free: Free, leases: seq<Lease>, senders: seq<Sender>, packets: seq<Packet>, s: nat)
    requires Sound(free, leases, senders, packets) && s < |senders| && senders[s].alive && senders[s].lease.Some?
    ensures senders[s].lease.value < |leases| && leases[senders[s].lease.value].refs > 0
  {
    SumAtLeast(SendersWith(senders[s].lease.value), senders, s);
  }

  lemma ReferencedByPacket(free: Free, leases: seq<Lease>, senders: seq<Sender>, packets: seq<Packet>, p: nat)
    requires Sound(free, leases, senders, packets) && p < |packets| && packets[p].stage != Dropped && packets[p].lease.Some?
    ensures packets[p].lease.value < |leases| && leases[packets[p].lease.value].refs > 0
  {
    SumAtLeast(PacketsWith(packets[p].lease.value), packets, p);
  }

  // ----- Reservation -----

  function Charged(s: Sender, bytes: nat): Sender
    requires bytes <= s.local && s.items > 0
  {
    s.(local := s.local - bytes, items := s.items - 1)
  }

  lemma ChargeKeepsPools(free: Free, packets: seq<Packet>, p: Packet)
    requires PoolsBalance(free, packets) && p.stage == Reserved && p.bytes <= free.Bytes(p.pool)
    ensures PoolsBalance(free.WithBytes(p.pool, free.Bytes(p.pool) - p.bytes), packets + [p])
  {
    PacketAdded(packets, p);
  }

  lemma ChargeKeepsSenders(senders: seq<Sender>, packets: seq<Packet>, p: Packet)
    requires SendersBalance(senders, packets) && p.stage == Reserved && p.sender < |senders|
    requires p.bytes <= senders[p.sender].local && senders[p.sender].items > 0
    ensures SendersBalance(senders[p.sender := Charged(senders[p.sender], p.bytes)], packets + [p])
  {
    PacketAdded(packets, p);
  }

  lemma ChargeKeepsRefs(leases: seq<Lease>, senders: seq<Sender>, packets: seq<Packet>, p: Packet)
    requires RefsBalance(leases, senders, packets) && p.stage == Reserved && p.sender < |senders|
    requires p.bytes <= senders[p.sender].local && senders[p.sender].items > 0
    ensures RefsBalance(Referred(leases, p.lease), senders[p.sender := Charged(senders[p.sender], p.bytes)], packets + [p])
  {
    PacketAdded(packets, p);
    SenderChanged(senders, p.sender, Charged(senders[p.sender], p.bytes));
  }

  lemma ChargeKeepsLinks(leases: seq<Lease>, senders: seq<Sender>, packets: seq<Packet>, p: Packet)
    requires Linked(leases, senders, packets) && QueuesOk(senders, packets) && p.stage == Reserved && p.sender < |senders|
    requires p.pool == senders[p.sender].pool && p.lease == senders[p.sender].lease
    requires p.bytes <= senders[p.sender].local && senders[p.sender].items > 0
    ensures Linked(Referred(leases, p.lease), senders[p.sender := Charged(senders[p.sender], p.bytes)], packets + [p])
    ensures QueuesOk(senders[p.sender := Charged(senders[p.sender], p.bytes)], packets + [p])
  {
  }

  // ----- The end of a packet -----

  function Credited(s: Sender, bytes: nat): Sender {
    s.(local := s.local + bytes, items := s.items + 1)
  }

  lemma DropKeepsPools(free: Free, packets: seq<Packet>, i: nat)
    requires PoolsBalance(free, packets) && i < |packets| && packets[i].stage != Dropped
    ensures PoolsBalance(free.WithBytes(packets[i].pool, free.Bytes(packets[i].pool) + packets[i].bytes), packets[i := packets[i].(stage := Dropped)])
  {
    PacketMoved(packets, i, Dropped);
  }

  lemma DropKeepsSenders(senders: seq<Sender>, packets: seq<Packet>, i: nat)
    requires SendersBalance(senders, packets) && i < |packets| && packets[i].stage != Dropped && packets[i].sender < |senders|
    ensures SendersBalance(senders[packets[i].sender := Credited(senders[packets[i].sender], packets[i].bytes)], packets[i := packets[i].(stage := Dropped)])
  {
    PacketMoved(packets, i, Dropped);
  }

  lemma DropKeepsRefs(leases: seq<Lease>, senders: seq<Sender>, packets: seq<Packet>, i: nat)
    requires RefsBalance(leases, senders, packets) && i < |packets| && packets[i].stage != Dropped && packets[i].sender < |senders|
    requires packets[i].lease.Some? ==> packets[i].lease.value < |leases| && leases[packets[i].lease.value].refs > 0
    ensures RefsBalance(Unreferred(leases, packets[i].lease),
                        senders[packets[i].sender := Credited(senders[packets[i].sender], packets[i].bytes)], packets[i := packets[i].(stage := Dropped)])
  {
    PacketMoved(packets, i, Dropped);
    SenderChanged(senders, packets[i].sender, Credited(senders[packets[i].sender], packets[i].bytes));
  }

  lemma DropKeepsLinks(leases: seq<Lease>, senders: seq<Sender>, packets: seq<Packet>, i: nat)
    requires Linked(leases, senders, packets) && QueuesOk(senders, packets) && i < |packets|
    requires packets[i].stage in {Reserved, Taken}
    ensures Linked(Unreferred(leases, packets[i].lease),
                   senders[packets[i].sender := Credited(senders[packets[i].sender], packets[i].bytes)], packets[i := packets[i].(stage := Dropped)])
    ensures QueuesOk(senders[packets[i].sender := Credited(senders[packets[i].sender], packets[i].bytes)], packets[i := packets[i].(stage := Dropped)])
  {
    var now := senders[packets[i].sender := Credited(senders[packets[i].sender], packets[i].bytes)];
    forall t | 0 <= t < |now| ensures QueueOk(now[t], t, packets[i := packets[i].(stage := Dropped)]) {
      assert QueueOk(senders[t], t, packets);
    }
  }

  // ----- Between reservation and end -----

  /** A change of a packet's stage and of its sender's queue draws and returns no credits. */
  lemma MoveKeepsBytes(free: Free, senders: seq<Sender>, packets: seq<Packet>, i: nat, stage: Stage, queue: seq<nat>)
    requires PoolsBalance(free, packets) && SendersBalance(senders, packets)
    requires i < |packets| && packets[i].stage != Dropped && stage != Dropped && packets[i].sender < |senders|
    ensures PoolsBalance(free, packets[i := packets[i].(stage := stage)])
    ensures SendersBalance(senders[packets[i].sender := senders[packets[i].sender].(queue := queue)], packets[i := packets[i].(stage := stage)])
  {
    PacketMoved(packets, i, stage);
  }

  lemma MoveKeepsRefs(leases: seq<Lease>, senders: seq<Sender>, packets: seq<Packet>, i: nat, stage: Stage, queue: seq<nat>)
    requires RefsBalance(leases, senders, packets) && Linked(leases, senders, packets)
    requires i < |packets| && packets[i].stage != Dropped && stage != Dropped
    ensures RefsBalance(leases, senders[packets[i].sender := senders[packets[i].sender].(queue := queue)], packets[i := packets[i].(stage := stage)])
    ensures Linked(leases, senders[packets[i].sender := senders[packets[i].sender].(queue := queue)], packets[i := packets[i].(stage := stage)])
  {
    var s := packets[i].sender;
    PacketMoved(packets, i, stage);
    SenderChanged(senders, s, senders[s].(queue := queue));
  }

  lemma QueueKeepsOrder(senders: seq<Sender>, packets: seq<Packet>, i: nat)
    requires QueuesOk(senders, packets) && i < |packets| && packets[i].stage == Reserved && packets[i].sender < |senders|
    requires senders[packets[i].sender].last.None?
    ensures var s := senders[packets[i].sender];
            QueuesOk(senders[packets[i].sender := s.(queue := s.queue + [i])], packets[i := packets[i].(stage := Queued)])
  {
    var next := packets[i := packets[i].(stage := Queued)];
    forall s | 0 <= s < |senders|
      ensures QueueOk(if s == packets[i].sender then senders[s].(queue := senders[s].queue + [i]) else senders[s], s, next)
    {
      assert QueueOk(senders[s], s, packets);
    }
  }

  lemma TakenFromFront(sender: Sender, s: nat, packets: seq<Packet>)
    requires QueueOk(sender, s, packets) && sender.queue != []
    ensures var i := sender.queue[0];
            i < |packets| && packets[i].stage == Queued && packets[i].sender == s
            && QueueOk(sender.(queue := sender.queue[1..]), s, packets[i := packets[i].(stage := Taken)])
  {
    var rest := sender.queue[1..];
    assert forall k | 0 <= k < |rest| :: rest[k] == sender.queue[k + 1];
  }

  lemma TakeKeepsOrder(senders: seq<Sender>, packets: seq<Packet>, s: nat)
    requires QueuesOk(senders, packets) && s < |senders| && senders[s].queue != []
    ensures var i := senders[s].queue[0];
            i < |packets| && packets[i].stage == Queued && packets[i].sender == s
            && QueuesOk(senders[s := senders[s].(queue := senders[s].queue[1..])], packets[i := packets[i].(stage := Taken)])
  {
    hide QueueFrozen;
    var i := senders[s].queue[0];
    assert QueueOk(senders[s], s, packets);
    TakenFromFront(senders[s], s, packets);
    forall t | 0 <= t < |senders| && t != s ensures QueueOk(senders[t], t, packets[i := packets[i].(stage := Taken)]) {
      assert QueueOk(senders[t], t, packets);
    }
  }

  lemma {:induction false} NoPackets(packets: seq<Packet>, s: nat)
    requires forall p | 0 <= p < |packets| :: packets[p].sender < s
    ensures Sum(BytesOf(s), packets) == 0 && Sum(ItemsOf(s), packets) == 0
  {
    if packets != [] {
      NoPackets(packets[..|packets| - 1], s);
    }
  }

  /** A channel without a lease joins the accounts with everything free. */
  lemma NewSenderBalances(leases: seq<Lease>, senders: seq<Sender>, packets: seq<Packet>, sender: Sender)
    requires SendersBalance(senders, packets) && RefsBalance(leases, senders, packets) && Linked(leases, senders, packets) && QueuesOk(senders, packets)
    requires sender.lease.None? && sender.pool == Shared && sender.queue == [] && sender.last.None? && sender.local == sender.max && sender.items == sender.cap
    ensures SendersBalance(senders + [sender], packets) && RefsBalance(leases, senders + [sender], packets)
    ensures Linked(leases, senders + [sender], packets) && QueuesOk(senders + [sender], packets)
  {
    NoPackets(packets, |senders|);
    SenderAdded(senders, sender);
  }

  /** Leases that nobody refers to yet. */
  lemma {:induction false} NoReferences(senders: seq<Sender>, packets: seq<Packet>, l: nat)
    requires forall s | 0 <= s < |senders| :: senders[s].lease != Some(l)
    requires forall p | 0 <= p < |packets| :: packets[p].lease != Some(l)
    ensures Sum(SendersWith(l), senders) == 0 && Sum(PacketsWith(l), packets) == 0
  {
    if senders != [] {
      NoReferences(senders[..|senders| - 1], packets, l);
    } else if packets != [] {
      NoReferences(senders, packets[..|packets| - 1], l);
    }
  }

  lemma NewStopBalances(free: Free, leases: seq<Lease>, lease: Lease)
    requires StopsBalance(free, leases) && lease.refs == 1 && free.Slot(lease.stop) == 1 && lease.body <= free.Body(lease.stop)
    ensures StopsBalance(free.WithStop(lease.stop, 0, free.Body(lease.stop) - lease.body), leases + [lease])
  {
    forall stop: Stop
      ensures Sum(SlotOf(stop), leases + [lease]) == Sum(SlotOf(stop), leases) + SlotOf(stop)(lease)
      ensures Sum(BodyOf(stop), leases + [lease]) == Sum(BodyOf(stop), leases) + BodyOf(stop)(lease)
    {
      SumAppend(SlotOf(stop), leases, lease);
      SumAppend(BodyOf(stop), leases, lease);
    }
  }

  /** A new lease is referred to by its handle only. */
  lemma NewLeaseRefs(leases: seq<Lease>, senders: seq<Sender>, packets: seq<Packet>, lease: Lease)
    requires RefsBalance(leases, senders, packets) && Linked(leases, senders, packets) && lease.refs == 1 && lease.handle
    ensures RefsBalance(leases + [lease], senders, packets) && Linked(leases + [lease], senders, packets)
  {
    NoReferences(senders, packets, |leases|);
  }

  /** The channel of a lease takes over the reference of its handle. */
  lemma ReservedRefs(leases: seq<Lease>, senders: seq<Sender>, packets: seq<Packet>, l: nat, sender: Sender)
    requires RefsBalance(leases, senders, packets) && Linked(leases, senders, packets)
    requires l < |leases| && leases[l].handle && sender.lease == Some(l) && sender.pool == Output(leases[l].stop) && sender.alive
    ensures RefsBalance(leases[l := leases[l].(handle := false)], senders + [sender], packets)
    ensures Linked(leases[l := leases[l].(handle := false)], senders + [sender], packets)
  {
    SenderAdded(senders, sender);
  }

  lemma ReservedSender(senders: seq<Sender>, packets: seq<Packet>, leases: seq<Lease>, sender: Sender)
    requires SendersBalance(senders, packets) && QueuesOk(senders, packets) && Linked(leases, senders, packets)
    requires sender.queue == [] && sender.last.None? && sender.local == sender.max && sender.items == sender.cap
    ensures SendersBalance(senders + [sender], packets) && QueuesOk(senders + [sender], packets)
  {
    hide QueuesOk;
    NoPackets(packets, |senders|);
    EmptyQueueJoins(senders, packets, sender);
  }

  /** Giving up a handle is one reference less. */
  lemma HandleDropped(leases: seq<Lease>, senders: seq<Sender>, packets: seq<Packet>, l: nat)
    requires RefsBalance(leases, senders, packets) && Linked(leases, senders, packets) && l < |leases| && leases[l].handle
    ensures leases[l].refs > 0
    ensures var now := leases[l := leases[l].(refs := leases[l].refs - 1, handle := false)];
            RefsBalance(now, senders, packets) && Linked(now, senders, packets)
  {
  }

  /** The handle of a lease does not matter to the credits of its class. */
  lemma HandleKeepsStops(free: Free, leases: seq<Lease>, l: nat, handle: bool)
    requires StopsBalance(free, leases) && l < |leases|
    ensures StopsBalance(free, leases[l := leases[l].(handle := handle)])
  {
    LeaseChanged(leases, l, leases[l].(handle := handle));
  }

  lemma EmptyQueueJoins(senders: seq<Sender>, packets: seq<Packet>, sender: Sender)
    requires QueuesOk(senders, packets) && sender.queue == [] && sender.last.None?
    ensures QueuesOk(senders + [sender], packets)
  {
  }

  /** A free slot means that no exchange of the class is left, and the other way round. */
  lemma NoLiveLease(free: Free, leases: seq<Lease>, stop: Stop)
    requires StopsBalance(free, leases)
    ensures free.Slot(stop) <= 1
    ensures free.Slot(stop) == 1 ==> free.Body(stop) == STOP_BODY_BYTES
    ensures free.Slot(stop) == 0 ==> exists l | 0 <= l < |leases| :: leases[l].stop == stop && leases[l].refs > 0
    ensures free.Slot(stop) == 1 ==> forall l | 0 <= l < |leases| && leases[l].stop == stop :: leases[l].refs == 0
    ensures (exists l | 0 <= l < |leases| :: leases[l].stop == stop && leases[l].refs > 0) ==> free.Slot(stop) == 0
  {
    forall l | 0 <= l < |leases| && leases[l].stop == stop && leases[l].refs > 0 ensures free.Slot(stop) == 0 {
      SumAtLeast(SlotOf(stop), leases, l);
    }
    if forall l | 0 <= l < |leases| && leases[l].stop == stop :: leases[l].refs == 0 {
      SumOfNothing(SlotOf(stop), leases);
      SumOfNothing(BodyOf(stop), leases);
    }
  }

  lemma SamePools(free: Free, left: Free, packets: seq<Packet>)
    requires PoolsBalance(free, packets) && forall pool :: left.Bytes(pool) == free.Bytes(pool)
    ensures PoolsBalance(left, packets)
  {
  }

  /** The sender of a dropped packet has its bytes and its place back. */
  ghost predicate GivenBack(was: seq<Sender>, now: seq<Sender>, packet: Packet) {
    && packet.sender < |was|
    && now == was[packet.sender := was[packet.sender].(local := was[packet.sender].local + packet.bytes, items := was[packet.sender].items + 1)]
  }

  class Sinks {
    var free: Free
    var leases: seq<Lease>
    var senders: seq<Sender>
    var packets: seq<Packet>

    ghost predicate Inv()
      reads this
    {
      Sound(free, leases, senders, packets)
    }

    constructor ()
      ensures Inv() && senders == [] && packets == [] && leases == []
      ensures free == Free(33_554_432, 65_536, 65_536, 1, 1, 16_384, 16_384)
    {
      free := Free(GLOBAL_BYTES, STOP_OUTPUT_BYTES, STOP_OUTPUT_BYTES, 1, 1, STOP_BODY_BYTES, STOP_BODY_BYTES);
      leases, senders, packets := [], [], [];
    }

    /** A channel for ordinary responses or for a stream of events. */
    method OpenChannel(stream: bool) returns (s: nat)
      requires Inv()
      modifies this`senders
      ensures Onward(old(senders), senders)
      ensures Inv() && s == |old(senders)|
      ensures var max, cap := if stream then 1_048_576 else 33_554_432, if stream then 16 else 128;
              senders == old(senders) + [Sender(max, cap, max, cap, None, Shared, true, [], None)]
    {
      hide StopsBalance, PoolsBalance;
      var max, cap := if stream then STREAM_BYTES else GLOBAL_BYTES, if stream then STREAM_ITEMS else RESPONSE_ITEMS;
      var sender := Sender(max, cap, max, cap, None, Shared, true, [], None);
      SenderAdded(senders, sender);
      NewSenderBalances(leases, senders, packets, sender);
      s := |senders|;
      senders := senders + [sender];
    }

    /** Reserves the credits of one stop class for an exchange; a class has one exchange at a time. */
    method ReserveStop(stop: Stop, bytes: nat) returns (r: Result<nat, Failure>)
      requires Inv()
      modifies this`leases, this`free
      ensures Inv()
      ensures r.Ok? <==> bytes <= 16_384 && forall l | 0 <= l < |old(leases)| && old(leases)[l].stop == stop :: old(leases)[l].refs == 0
      ensures r.Ok? ==> r.value == |old(leases)| && leases == old(leases) + [Lease(stop, bytes, 1, true)] && free.shared == old(free).shared
      ensures r.Err? ==> leases == old(leases) && free == old(free)
    {
      hide QueuesOk, PoolsBalance, SendersBalance, StopsBalance, RefsBalance, Linked;
      NoLiveLease(free, leases, stop);
      if bytes > STOP_BODY_BYTES || free.Slot(stop) == 0 || free.Body(stop) < bytes {
        return Err(Capacity);
      }
      var lease := Lease(stop, bytes, 1, true);
      var left := free.WithStop(stop, free.Slot(stop) - 1, free.Body(stop) - bytes);
      NewStopBalances(free, leases, lease);
      NewLeaseRefs(leases, senders, packets, lease);
      SamePools(free, left, packets);
      r := Ok(|leases|);
      free, leases := left, leases + [lease];
    }

    /** The channel of an emergency exchange, on its own output pool. */
    method OpenReserved(l: nat) returns (s: nat)
      requires Inv() && l < |leases| && leases[l].handle
      modifies this`senders, this`leases
      ensures Onward(old(senders), senders)
      ensures Inv() && s == |old(senders)|
      ensures leases == old(leases)[l := old(leases[l]).(handle := false)]
      ensures senders == old(senders) + [Sender(65_536, 1, 65_536, 1, Some(l), Output(old(leases[l]).stop), true, [], None)]
    {
      hide QueuesOk, PoolsBalance, SendersBalance, StopsBalance, RefsBalance, Linked;
      var sender := Sender(STOP_OUTPUT_BYTES, 1, STOP_OUTPUT_BYTES, 1, Some(l), Output(leases[l].stop), true, [], None);
      ReservedSender(senders, packets, leases, sender);
      ReservedRefs(leases, senders, packets, l, sender);
      HandleKeepsStops(free, leases, l, false);
      s := |senders|;
      leases, senders := leases[l := leases[l].(handle := false)], senders + [sender];
    }

    /** An exchange that never opened its channel gives its credits back. */
    method DropLease(l: nat)
      requires Inv() && l < |leases| && leases[l].handle
      modifies this`leases, this`free
      ensures Inv() && leases == old(leases)[l := old(leases[l]).(refs := old(leases[l]).refs - 1, handle := false)]
    {
      hide QueuesOk, PoolsBalance, SendersBalance, StopsBalance, RefsBalance, Linked;
      HandleDropped(leases, senders, packets, l);
      UnreferenceKeepsStops(free, leases, Some(l));
      HandleKeepsStops(FreedBy(free, leases, Some(l)), Unreferred(leases, Some(l)), l, false);
      SamePools(free, FreedBy(free, leases, Some(l)), packets);
      assert Unreferred(leases, Some(l))[l := Unreferred(leases, Some(l))[l].(handle := false)] ==
             leases[l := leases[l].(refs := leases[l].refs - 1, handle := false)];
      free, leases := FreedBy(free, leases, Some(l)), leases[l := leases[l].(refs := leases[l].refs - 1, handle := false)];
    }

    /** Reserves the credits of one packet, all of them or none. */
    method Reserve(s: nat, bytes: nat, departed: bool) returns (r: Result<nat, Failure>)
      requires Inv() && s < |senders| && senders[s].alive
      modifies this`free, this`leases, this`senders, this`packets
      ensures Onward(old(senders), senders)
      ensures Inv()
      ensures r.Ok? <==> bytes <= old(senders[s]).max && !departed && old(senders[s]).last.None?
                         && bytes <= old(free).Bytes(old(senders[s]).pool) && bytes <= old(senders[s]).local && old(senders[s]).items > 0
      ensures r.Ok? ==>
                && r.value == |old(packets)| && packets == old(packets) + [Packet(s, bytes, old(senders[s]).pool, old(senders[s]).lease, Reserved)]
                && free == old(free).WithBytes(old(senders[s]).pool, old(free).Bytes(old(senders[s]).pool) - bytes)
                && senders == old(senders)[s := old(senders[s]).(local := old(senders[s]).local - bytes, items := old(senders[s]).items - 1)]
      ensures r.Err? ==> free == old(free) && leases == old(leases) && senders == old(senders) && packets == old(packets)
    {
      hide QueuesOk, PoolsBalance, SendersBalance, StopsBalance, RefsBalance, Linked;
      var sender := senders[s];
      if bytes > sender.max || departed || sender.last.Some? {
        return Err(if bytes > sender.max then Capacity else Closed);
      }
      if bytes > free.Bytes(sender.pool) || bytes > sender.local || sender.items == 0 {
        return Err(Capacity);
      }
      var p := Packet(s, bytes, sender.pool, sender.lease, Reserved);
      if sender.lease.Some? {
        Referenced(free, leases, senders, packets, s);
      }
      var left := free.WithBytes(p.pool, free.Bytes(p.pool) - bytes);
      ChargeKeepsPools(free, packets, p);
      ChargeKeepsSenders(senders, packets, p);
      ReferenceKeepsStops(free, leases, p.lease);
      SameStops(free, left, Referred(leases, p.lease));
      ChargeKeepsRefs(leases, senders, packets, p);
      ChargeKeepsLinks(leases, senders, packets, p);
      r := Ok(|packets|);
      free, leases, senders, packets := left, Referred(leases, p.lease), senders[s := Charged(sender, bytes)], packets + [p];
    }

    /** Queues a reserved packet unless its sender has failed or departed; then it is dropped. */
    method Commit(i: nat, departed: bool) returns (r: Result<(), Failure>)
      requires Inv() && i < |packets| && packets[i].stage == Reserved
      modifies this`free, this`leases, this`senders, this`packets
      ensures Onward(old(senders), senders)
      ensures Inv() && old(packets[i]).sender < |old(senders)|
      ensures r.Ok? <==> !departed && old(senders)[old(packets[i]).sender].last.None?
      ensures packets == old(packets)[i := old(packets[i]).(stage := if r.Ok? then Queued else Dropped)]
      ensures r.Ok? ==> var s := old(packets[i]).sender; senders == old(senders)[s := old(senders)[s].(queue := old(senders)[s].queue + [i])]
      ensures r.Err? ==> GivenBack(old(senders), senders, old(packets[i]))
    {
      hide QueuesOk, PoolsBalance, SendersBalance, StopsBalance, RefsBalance;
      var s := packets[i].sender;
      if departed || senders[s].last.Some? {
        Drop(i);
        return Err(Closed);
      }
      var queue := senders[s].queue + [i];
      MoveKeepsBytes(free, senders, packets, i, Queued, queue);
      MoveKeepsRefs(leases, senders, packets, i, Queued, queue);
      QueueKeepsOrder(senders, packets, i);
      packets, senders := packets[i := packets[i].(stage := Queued)], senders[s := senders[s].(queue := queue)];
      r := Ok(());
    }

    /** The bytes of a packet are no longer needed by anyone. */
    method Drop(i: nat)
      requires Inv() && i < |packets| && packets[i].stage in {Reserved, Taken}
      modifies this`free, this`leases, this`senders, this`packets
      ensures Onward(old(senders), senders)
      ensures Inv() && packets == old(packets)[i := old(packets[i]).(stage := Dropped)]
      ensures GivenBack(old(senders), senders, old(packets[i]))
      ensures free.Bytes(packets[i].pool) == old(free).Bytes(packets[i].pool) + packets[i].bytes
    {
      hide QueuesOk, PoolsBalance, SendersBalance, StopsBalance, RefsBalance;
      var p := packets[i];
      if p.lease.Some? {
        ReferencedByPacket(free, leases, senders, packets, i);
      }
      var paid := free.WithBytes(p.pool, free.Bytes(p.pool) + p.bytes);
      var left := FreedBy(paid, leases, p.lease);
      DropKeepsPools(free, packets, i);
      SamePools(paid, left, packets[i := p.(stage := Dropped)]);
      SameStops(free, paid, leases);
      UnreferenceKeepsStops(paid, leases, p.lease);
      DropKeepsSenders(senders, packets, i);
      DropKeepsRefs(leases, senders, packets, i);
      DropKeepsLinks(leases, senders, packets, i);
      free, leases := left, Unreferred(leases, p.lease);
      senders, packets := senders[p.sender := Credited(senders[p.sender], p.bytes)], packets[i := p.(stage := Dropped)];
    }

    /** The transport takes the first packet of the queue; its credits stay with it. */
    method TakeNext(s: nat) returns (r: Option<nat>)
      requires Inv() && s < |senders|
      modifies this`senders, this`packets
      ensures Onward(old(senders), senders)
      ensures Inv()
      ensures r == if old(senders[s]).queue == [] then None else Some(old(senders[s]).queue[0])
      ensures senders == if r.Some? then old(senders)[s := old(senders[s]).(queue := old(senders[s]).queue[1..])] else old(senders)
      ensures if r.Some? then r.value < |old(packets)| && packets == old(packets)[r.value := old(packets)[r.value].(stage := Taken)]
              else packets == old(packets)
    {
      hide QueuesOk, PoolsBalance, SendersBalance, StopsBalance, RefsBalance;
      if senders[s].queue == [] {
        return None;
      }
      var i, queue := senders[s].queue[0], senders[s].queue[1..];
      TakeKeepsOrder(senders, packets, s);
      MoveKeepsBytes(free, senders, packets, i, Taken, queue);
      MoveKeepsRefs(leases, senders, packets, i, Taken, queue);
      packets, senders := packets[i := packets[i].(stage := Taken)], senders[s := senders[s].(queue := queue)];
      r := Some(i);
    }

    /** From now on nothing is queued on this sender. */
    method Fail(s: nat)
      requires Inv() && s < |senders|
      modifies this`senders
      ensures Onward(old(senders), senders)
      ensures Inv()
      ensures senders == if old(senders[s]).last.Some? then old(senders)
                         else old(senders)[s := old(senders[s]).(last := Some(old(senders[s]).queue))]
    {
      hide PoolsBalance, StopsBalance;
      if senders[s].last.None? {
        var failed := senders[s].(last := Some(senders[s].queue));
        FailKeeps(leases, senders, packets, s);
        senders := senders[s := failed];
      }
    }

    /** The last handle of a sender goes; a lease survives in the packets that are still in use. */
    method DropSender(s: nat)
      requires Inv() && s < |senders| && senders[s].alive
      modifies this`senders, this`leases, this`free
      ensures Onward(old(senders), senders)
      ensures Inv() && senders == old(senders)[s := old(senders[s]).(alive := false)]
    {
      hide QueuesOk, PoolsBalance, SendersBalance, StopsBalance, RefsBalance, Linked;
      var sender := senders[s];
      if sender.lease.Some? {
        Referenced(free, leases, senders, packets, s);
      }
      UnreferenceKeepsStops(free, leases, sender.lease);
      SamePools(free, FreedBy(free, leases, sender.lease), packets);
      DropSenderKeeps(leases, senders, packets, s);
      free, leases, senders := FreedBy(free, leases, sender.lease), Unreferred(leases, sender.lease), senders[s := sender.(alive := false)];
    }

    /**
     Any interleaving of steps: every pool balances, a stop class has at most one live exchange, and
     nothing joins the queue of a sender that had failed.
     */
    method Run(script: seq<SinkStep>)
      requires Inv()
      modifies this
      ensures Inv() && Onward(old(senders), senders)
      ensures forall pool :: free.Bytes(pool) + Sum(Drawn(pool), packets) == PoolSize(pool)
      ensures forall stop :: Sum(SlotOf(stop), leases) <= 1
    {
      for n := 0 to |script|
        invariant Inv() && Onward(old(senders), senders)
      {
        hide Sound, Onward;
        ghost var mid := senders;
        Take(script[n]);
        OnwardTwice(old(senders), mid, senders);
      }
      assert forall stop :: free.Slot(stop) + Sum(SlotOf(stop), leases) == 1;
    }

    method Take(step: SinkStep)
      requires Inv()
      modifies this
      ensures Inv() && Onward(old(senders), senders)
    {
      hide Sound;
      match step
      case StepChannel(stream) => var s := OpenChannel(stream);
      case StepStop(stop, bytes) => var r := ReserveStop(stop, bytes);
      case StepOpen(l) =>
        if l < |leases| && leases[l].handle {
          var s := OpenReserved(l);
        }
      case StepForgo(l) =>
        if l < |leases| && leases[l].handle {
          DropLease(l);
        }
      case StepReserve(s, bytes, departed) =>
        if s < |senders| && senders[s].alive {
          var r := Reserve(s, bytes, departed);
        }
      case StepCommit(p, departed) =>
        if p < |packets| && packets[p].stage == Reserved {
          var r := Commit(p, departed);
        }
      case StepTake(s) =>
        if s < |senders| {
          var r := TakeNext(s);
        }
      case StepDrop(p) =>
        if p < |packets| && packets[p].stage in {Reserved, Taken} {
          Drop(p);
        }
      case StepFail(s) =>
        if s < |senders| {
          Fail(s);
        }
      case StepLeave(s) =>
        if s < |senders| && senders[s].alive {
          DropSender(s);
        }
    }
  }

  datatype SinkStep =
    | StepChannel(stream: bool)
    | StepStop(stop: Stop, bytes: nat)
    | StepOpen(l: nat)
    | StepForgo(l: nat)
    | StepReserve(s: nat, bytes: nat, departed: bool)
    | StepCommit(p: nat, departed: bool)
    | StepTake(s: nat)
    | StepDrop(p: nat)
    | StepFail(s: nat)
    | StepLeave(s: nat)

  lemma SameStops(free: Free, left: Free, leases: seq<Lease>)
    requires StopsBalance(free, leases) && forall stop :: left.Slot(stop) == free.Slot(stop) && left.Body(stop) == free.Body(stop)
    ensures StopsBalance(left, leases)
  {
  }

  lemma FailKeeps(leases: seq<Lease>, senders: seq<Sender>, packets: seq<Packet>, s: nat)
    requires SendersBalance(senders, packets) && RefsBalance(leases, senders, packets) && Linked(leases, senders, packets) && QueuesOk(senders, packets)
    requires s < |senders|
    ensures var now := senders[s := senders[s].(last := Some(senders[s].queue))];
            SendersBalance(now, packets) && RefsBalance(leases, now, packets) && Linked(leases, now, packets) && QueuesOk(now, packets)
  {
    SenderChanged(senders, s, senders[s].(last := Some(senders[s].queue)));
    var now := senders[s := senders[s].(last := Some(senders[s].queue))];
    forall t | 0 <= t < |now| ensures QueueOk(now[t], t, packets) {
      assert QueueOk(senders[t], t, packets);
    }
  }

  lemma DropSenderKeeps(leases: seq<Lease>, senders: seq<Sender>, packets: seq<Packet>, s: nat)
    requires SendersBalance(senders, packets) && RefsBalance(leases, senders, packets) && Linked(leases, senders, packets) && QueuesOk(senders, packets)
    requires s < |senders| && senders[s].alive
    requires senders[s].lease.Some? ==> senders[s].lease.value < |leases| && leases[senders[s].lease.value].refs > 0
    ensures var now := senders[s := senders[s].(alive := false)];
            && SendersBalance(now, packets) && RefsBalance(Unreferred(leases, senders[s].lease), now, packets)
            && Linked(Unreferred(leases, senders[s].lease), now, packets) && QueuesOk(now, packets)
  {
    hide QueuesOk;
    SenderChanged(senders, s, senders[s].(alive := false));
    SameQueues(senders, senders[s := senders[s].(alive := false)], packets);
  }

  lemma SameQueues(senders: seq<Sender>, now: seq<Sender>, packets: seq<Packet>)
    requires QueuesOk(senders, packets) && |now| == |senders|
    requires forall t | 0 <= t < |now| :: now[t].queue == senders[t].queue && now[t].last == senders[t].last
    ensures QueuesOk(now, packets)
  {
    forall t | 0 <= t < |now| ensures QueueOk(now[t], t, packets) {
      assert QueueOk(senders[t], t, packets);
    }
  }
}
