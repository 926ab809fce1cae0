/**
 The control lease of one OBS (control.rs): while a client holds it, calls of others that would
 change OBS are refused.
 */
module ControlLease {
  import opened Common

  const UNIDENTIFIED: string := "an unidentified client"
  const U64: nat := 0x1_0000_0000_0000_0000

  const ALWAYS_ALLOWED: set<string> := {
    "obs-claim-control", "obs-release-control", "obs-stop-record", "obs-stop-stream",
    "obs-take-stop", "obs-stop-virtual-cam", "obs-stop-replay-buffer", "obs-stop-output"}

  datatype Lease = Lease(holder: string, reason: string, since: nat, expiresAt: nat)

  /** What a client asks, and when. `otherwise` is what the rest of the policy answers. */
  datatype Ask =
    | Claim(caller: string, minutes: nat, reason: string, now: nat)
    | Release(caller: string, now: nat)
    | Use(caller: string, tool: string, readOnly: bool, otherwise: Answer, now: nat)

  datatype Answer =
    | Claimed(lease: Lease)
    | Unidentified
    | HeldBy(lease: Lease)
    | BadClaim
    | Released
    | NoLease
    | RefusedByLease
    | Allowed
    | OtherRefusal

  predicate Identified(name: string) {
    name != UNIDENTIFIED
  }

  /** The lease unless it has expired. */
  function Active(lease: Option<Lease>, now: nat): Option<Lease> {
    if lease.Some? && lease.value.expiresAt <= now then None else lease
  }

  predicate ClaimInOrder(minutes: nat, reason: string) {
    1 <= minutes <= 240 && |reason| <= 200
  }

  predicate Mutates(ask: Ask) {
    ask.Use? && !ask.readOnly && ask.tool !in ALWAYS_ALLOWED
  }

  /** The calls that give control up or stop something, which no lease refuses. */
  predicate Exempt(tool: string) {
    || tool == "obs-claim-control"
    || tool == "obs-release-control"
    || tool == "obs-stop-record"
    || tool == "obs-stop-stream"
    || tool == "obs-take-stop"
    || tool == "obs-stop-virtual-cam"
    || tool == "obs-stop-replay-buffer"
    || tool == "obs-stop-output"
  }

  class ControlDomain {
    var lease: Option<Lease>

    constructor ()
      ensures lease.None?
    {
      lease := None;
    }

    method ActiveLease(now: nat) returns (active: Option<Lease>)
      modifies this`lease
      ensures active == lease == Active(old(lease), now)
    {
      if lease.Some? && lease.value.expiresAt <= now {
        lease := None;
      }
      active := lease;
    }

    /** Takes the lease unless another client holds it; a holder that claims again keeps its start. */
    method DoClaim(holder: string, minutes: nat, reason: string, now: nat) returns (answer: Answer)
      modifies this`lease
      ensures answer.Claimed? <==>
              && 1 <= minutes <= 240 && |reason| <= 200 && holder != "an unidentified client" && now + minutes * 60_000 < 0x1_0000_0000_0000_0000
              && (Active(old(lease), now).Some? ==> Active(old(lease), now).value.holder == holder)
      ensures answer.Claimed? ==>
                && lease == Some(answer.lease) && answer.lease.holder == holder && answer.lease.expiresAt == now + minutes * 60_000
                && answer.lease.since == (if Active(old(lease), now).Some? then Active(old(lease), now).value.since else now)
      ensures !answer.Claimed? ==> lease == old(lease) || lease == Active(old(lease), now)
      ensures answer.HeldBy? ==> Some(answer.lease) == Active(old(lease), now) && answer.lease.holder != holder
    {
      if !ClaimInOrder(minutes, reason) {
        return BadClaim;
      }
      if !Identified(holder) {
        return Unidentified;
      }
      var current := ActiveLease(now);
      if current.Some? && current.value.holder != holder {
        return HeldBy(current.value);
      }
      var since := if current.Some? then current.value.since else now;
      if now + minutes * 60_000 >= U64 {
        return BadClaim;
      }
      lease := Some(Lease(holder, reason, since, now + minutes * 60_000));
      answer := Claimed(lease.value);
    }

    /** Only the holder gives the lease up. */
    method DoRelease(holder: string, now: nat) returns (answer: Answer)
      modifies this`lease
      ensures answer == Released <==> Active(old(lease), now).Some? && Active(old(lease), now).value.holder == holder
      ensures lease == if answer == Released then None else Active(old(lease), now)
      ensures !answer.RefusedByLease? && !answer.Claimed?
    {
      var active := ActiveLease(now);
      if active.None? {
        return NoLease;
      }
      if active.value.holder != holder {
        return HeldBy(active.value);
      }
      lease := None;
      answer := Released;
    }

    method Evaluate(ask: Ask) returns (answer: Answer)
      requires ask.Use?
      modifies this`lease
      ensures lease == old(lease) || lease == Active(old(lease), ask.now)
      ensures answer == if (!ask.readOnly && !Exempt(ask.tool) && old(lease).Some? && ask.now < old(lease).value.expiresAt
                            && (ask.caller == "an unidentified client" || ask.caller != old(lease).value.holder))
                        then RefusedByLease else ask.otherwise
    {
      if Mutates(ask) {
        var active := ActiveLease(ask.now);
        if active.Some? && (!Identified(ask.caller) || ask.caller != active.value.holder) {
          return RefusedByLease;
        }
      }
      answer := ask.otherwise;
    }

    method Serve(ask: Ask) returns (answer: Answer)
      modifies this`lease
      ensures forall holder, since, expiry :: Holds(old(lease), holder, since, expiry) && ask.now < expiry ==>
                && (Ended(ask, holder) || Holds(lease, holder, since, Renewed(ask, holder, expiry)))
                && (ask.Use? && !ask.readOnly && !Exempt(ask.tool) && ask.caller != holder ==> answer == RefusedByLease)
    {
      match ask
      case Claim(caller, minutes, reason, now) => answer := DoClaim(caller, minutes, reason, now);
      case Release(caller, now) => answer := DoRelease(caller, now);
      case Use(_, _, _, _, _) => answer := Evaluate(ask);
    }

    /**
     Any run of calls. From the moment a client holds the lease until it
     releases it or its latest expiry passes, every mutating call of another client is refused,
     and the lease keeps its start.
     */
    method Run(script: seq<Ask>, holder: string, since: nat, expiry: nat) returns (answers: seq<Answer>)
      requires Holds(lease, holder, since, expiry) && Identified(holder)
      modifies this`lease
      ensures |answers| == |script|
      ensures forall n | 0 <= n < |script| && script[n].Use? && !script[n].readOnly && !Exempt(script[n].tool) && script[n].caller != holder
                         && HeldUntil(script, holder, expiry, n).Some? && script[n].now < HeldUntil(script, holder, expiry, n).value ::
                answers[n] == RefusedByLease
      ensures var last := HeldUntil(script, holder, expiry, |script|);
              last.Some? ==> Holds(lease, holder, since, last.value)
    {
      answers := [];
      for n := 0 to |script|
        invariant |answers| == n
        invariant var held := HeldUntil(script, holder, expiry, n); held.Some? ==> Holds(lease, holder, since, held.value)
        invariant forall m | 0 <= m < n && script[m].Use? && !script[m].readOnly && !Exempt(script[m].tool) && script[m].caller != holder
                             && HeldUntil(script, holder, expiry, m).Some? && script[m].now < HeldUntil(script, holder, expiry, m).value ::
                    answers[m] == RefusedByLease
      {
        var answer := Serve(script[n]);
        answers := answers + [answer];
      }
    }
  }

  ghost predicate Holds(lease: Option<Lease>, holder: string, since: nat, expiry: nat) {
    lease.Some? && lease.value.holder == holder && lease.value.since == since && lease.value.expiresAt == expiry && Identified(holder)
  }

  /** The holder gives the lease up. */
  predicate Ended(ask: Ask, holder: string) {
    ask.Release? && ask.caller == holder
  }

  /** The expiry after a call that the lease survives; only the holder's own claim moves it. */
  function Renewed(ask: Ask, holder: string, expiry: nat): nat {
    if ask.Claim? && ask.caller == holder && ClaimInOrder(ask.minutes, ask.reason) && ask.now + ask.minutes * 60_000 < U64
    then ask.now + ask.minutes * 60_000 else expiry
  }

  /** The latest expiry before call `n`, unless the lease ended earlier. */
  function HeldUntil(script: seq<Ask>, holder: string, expiry: nat, n: nat): Option<nat>
    requires n <= |script|
  {
    if n == 0 then Some(expiry)
    else
      var before := HeldUntil(script, holder, expiry, n - 1);
      if before.None? || before.value <= script[n - 1].now || Ended(script[n - 1], holder) then None
      else Some(Renewed(script[n - 1], holder, before.value))
  }
}
