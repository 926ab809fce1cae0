/**
 Calls that wait for a confirmation (confirmation.rs): each is held under a key that is never used
 again, and is handed out at most once.
 */
module Continuations {
  import opened Common
  import opened Sums

  const MAX_ID: nat := 9_007_199_254_740_991
  const USIZE: nat := 0x1_0000_0000_0000_0000

  datatype Bounds = Bounds(items: nat, bytes: nat, lifetime: nat)

  /** The key of an entry is its sequence number; its text adds a nonce of the process. */
  datatype Challenge = Modern(sequence: nat) | Legacy(sequence: nat)

  datatype Pending<T> = Pending(original: string, binding: string, challenge: Challenge, deadline: nat, bytes: nat, call: T)

  datatype Refusal = Identity | Capacity | InvalidState | Expired

  /** A response frame: whether its fields are in order, its id, and its result unless it is an error. */
  datatype Frame = Frame(wellFormed: bool, id: Option<nat>, result: Option<string>)

  function BytesOf<T>(): Pending<T> -> nat {
    (p: Pending<T>) => p.bytes
  }

  /** The books are balanced and bounded, and no key is pending or honoured twice. */
  ghost predicate Sound<T>(bounds: Bounds, frontier: nat, bytes: nat, pending: map<nat, Pending<T>>, honoured: seq<nat>) {
    && frontier <= MAX_ID + 1
    && bytes == Total(BytesOf(), pending, frontier)
    && bytes <= bounds.bytes && |pending| <= bounds.items
    && (forall k | k in pending :: k < frontier && pending[k].challenge.sequence == k)
    && (forall j, k | j in pending && k in pending && j != k :: pending[j].original != pending[k].original)
    && (forall i | 0 <= i < |honoured| :: honoured[i] < frontier && honoured[i] !in pending)
    && (forall i, j | 0 <= i < j < |honoured| :: honoured[i] != honoured[j])
  }

  lemma IssueKeepsSound<T>(bounds: Bounds, frontier: nat, bytes: nat, pending: map<nat, Pending<T>>, honoured: seq<nat>, entry: Pending<T>)
    requires Sound(bounds, frontier, bytes, pending, honoured)
    requires frontier <= MAX_ID && bytes + entry.bytes <= bounds.bytes && |pending| < bounds.items && entry.challenge.sequence == frontier
    requires forall k | k in pending :: pending[k].original != entry.original
    ensures Sound(bounds, frontier + 1, bytes + entry.bytes, pending[frontier := entry], honoured)
    ensures frontier !in pending && frontier !in honoured
  {
    TotalWith(BytesOf(), pending, frontier, entry, frontier + 1);
  }

  lemma RemoveKeepsSound<T>(bounds: Bounds, frontier: nat, bytes: nat, pending: map<nat, Pending<T>>, honoured: seq<nat>, key: nat)
    requires Sound(bounds, frontier, bytes, pending, honoured) && key in pending
    ensures pending[key].bytes <= bytes && Sound(bounds, frontier, bytes - pending[key].bytes, pending - {key}, honoured)
    ensures key !in honoured && Sound(bounds, frontier, bytes - pending[key].bytes, pending - {key}, honoured + [key])
  {
    hide Total;
    TotalWithout(BytesOf(), pending, key, frontier);
    Fewer(pending, key);
  }

  lemma Fewer<T>(pending: map<nat, Pending<T>>, key: nat)
    requires key in pending
    ensures |pending - {key}| < |pending|
  {
    assert pending.Keys == (pending - {key}).Keys + {key};
  }

  lemma OneOriginal<T>(bounds: Bounds, frontier: nat, bytes: nat, pending: map<nat, Pending<T>>, honoured: seq<nat>)
    requires Sound(bounds, frontier, bytes, pending, honoured)
    ensures forall j, k | j in pending && k in pending && pending[j].original == pending[k].original :: j == k
  {
  }

  class Continuations<T(==)> {
    const bounds: Bounds
    /** The length of a key's text, the size of an entry, and the last instant of the clock. */
    const keyLength: nat -> nat
    const overhead: nat
    const horizon: nat

    var next: Option<nat>
    var bytes: nat
    var pending: map<nat, Pending<T>>
    /** The keys whose calls have been handed out, in order. */
    ghost var honoured: seq<nat>

    /** Keys from here on have never been issued. */
    function Frontier(): nat
      reads this`next
    {
      if next.Some? then next.value else MAX_ID + 1
    }

    ghost predicate Inv()
      reads this
    {
      Sound(bounds, Frontier(), bytes, pending, honoured) && (next.Some? ==> next.value <= MAX_ID)
    }

    constructor (bounds: Bounds, keyLength: nat -> nat, overhead: nat, horizon: nat)
      ensures Inv() && pending == map[] && honoured == []
    {
      this.bounds, this.keyLength, this.overhead, this.horizon := bounds, keyLength, overhead, horizon;
      next, bytes, pending, honoured := Some(0), 0, map[], [];
    }

    predicate ContainsOriginal(id: string)
      reads this`pending
    {
      exists k | k in pending :: pending[k].original == id
    }

    /** What an entry weighs: what it retains, the text of its key and the entry itself. */
    function SizeOf(sequence: nat, retained: nat): nat {
      retained + keyLength(sequence) + overhead
    }

    /** Keeps a call under a new key. */
    method Issue(original: string, binding: string, call: T, retained: nat, legacy: bool, now: nat)
      returns (r: Result<Challenge, Refusal>)
      requires Inv()
      modifies this`next, this`bytes, this`pending
      ensures Inv()
      ensures r.Err? ==> next == old(next) && bytes == old(bytes) && pending == old(pending)
      ensures r.Ok? <==>
              && old(next).Some? && !old(ContainsOriginal(original)) && |old(pending)| < bounds.items
              && old(bytes) + SizeOf(old(next).value, retained) <= bounds.bytes && old(bytes) + SizeOf(old(next).value, retained) < USIZE
              && now + bounds.lifetime <= horizon
      ensures r == Err(Capacity) <==>
              && old(next).Some?
              && (|| old(ContainsOriginal(original)) || |old(pending)| >= bounds.items
                  || old(bytes) + SizeOf(old(next).value, retained) > bounds.bytes || old(bytes) + SizeOf(old(next).value, retained) >= USIZE)
      ensures r.Err? ==> r.error in {Identity, Capacity}
      ensures r.Ok? ==>
                && old(next) == Some(r.value.sequence) && r.value.Legacy? == legacy
                && next == (if r.value.sequence < 9_007_199_254_740_991 then Some(r.value.sequence + 1) else None)
                && r.value.sequence !in old(pending) && r.value.sequence !in honoured
                && bytes == old(bytes) + retained + keyLength(r.value.sequence) + overhead
                && pending == old(pending)[r.value.sequence :=
                     Pending(original, binding, r.value, now + bounds.lifetime, SizeOf(r.value.sequence, retained), call)]
    {
      hide Sound;
      if next.None? {
        return Err(Identity);
      }
      var sequence := next.value;
      var size := SizeOf(sequence, retained);
      if bytes + size >= USIZE || |pending| >= bounds.items || bytes + size > bounds.bytes || ContainsOriginal(original) {
        return Err(Capacity);
      }
      if now + bounds.lifetime > horizon {
        return Err(Identity);
      }
      var challenge := if legacy then Legacy(sequence) else Modern(sequence);
      var entry := Pending(original, binding, challenge, now + bounds.lifetime, size, call);
      IssueKeepsSound(bounds, sequence, bytes, pending, honoured, entry);
      next := if sequence + 1 <= MAX_ID then Some(sequence + 1) else None;
      pending, bytes := pending[sequence := entry], bytes + size;
      r := Ok(challenge);
    }

    /** Takes an entry out and gives its bytes back. */
    method Remove(key: nat) returns (entry: Pending<T>)
      requires Inv() && key in pending
      modifies this`bytes, this`pending
      ensures Inv() && entry == old(pending)[key] && pending == old(pending) - {key}
      ensures key !in honoured && Sound(bounds, Frontier(), bytes, pending, honoured + [key])
    {
      hide Sound;
      RemoveKeepsSound(bounds, Frontier(), bytes, pending, honoured, key);
      entry := pending[key];
      bytes, pending := bytes - entry.bytes, pending - {key};
    }

    /** Honours a token that comes back with its binding before its deadline, once. */
    method TakeModern(state: nat, binding: string, now: nat) returns (r: Result<T, Refusal>)
      requires Inv()
      modifies this`bytes, this`pending, this`honoured
      ensures Inv()
      ensures r.Ok? <==>
              && state in old(pending) && old(pending)[state].deadline > now
              && old(pending)[state].binding == binding && old(pending)[state].challenge.Modern?
      ensures r.Ok? ==>
                && r.value == old(pending)[state].call && state !in old(honoured) && honoured == old(honoured) + [state]
                && pending == old(pending) - {state}
      ensures r == Err(Expired) ==> pending == old(pending) - {state} && honoured == old(honoured)
      ensures r == Err(InvalidState) ==> pending == old(pending) && honoured == old(honoured)
      ensures r.Err? ==> r.error in {Expired, InvalidState}
    {
      hide Sound;
      if state !in pending {
        return Err(InvalidState);
      }
      if pending[state].deadline <= now {
        var dropped := Remove(state);
        return Err(Expired);
      }
      if pending[state].binding != binding || !pending[state].challenge.Modern? {
        return Err(InvalidState);
      }
      var entry := Remove(state);
      honoured := honoured + [state];
      r := Ok(entry.call);
    }

    /** Honours a response to a server request; a missing or unusable answer closes it as cancelled. */
    method TakeLegacy(frame: Frame, now: nat, owns: T -> bool, understood: string -> bool) returns (r: Option<(T, Option<string>)>)
      requires Inv()
      modifies this`bytes, this`pending, this`honoured
      ensures Inv()
      ensures r.Some? <==>
              && frame.wellFormed && frame.id.Some? && frame.id.value in old(pending)
              && old(pending)[frame.id.value].challenge.Legacy? && owns(old(pending)[frame.id.value].call)
              && old(pending)[frame.id.value].deadline > now
      ensures r.None? ==> pending == old(pending) && honoured == old(honoured)
      ensures r.Some? ==>
                && r.value.0 == old(pending)[frame.id.value].call && frame.id.value !in old(honoured)
                && honoured == old(honoured) + [frame.id.value] && pending == old(pending) - {frame.id.value}
                && r.value.1 == (if frame.result.Some? && understood(frame.result.value) then frame.result else None)
    {
      hide Sound;
      if !frame.wellFormed || frame.id.None? {
        return None;
      }
      var key := frame.id.value;
      if key !in pending || !pending[key].challenge.Legacy? || !owns(pending[key].call) {
        return None;
      }
      if pending[key].deadline <= now {
        return None;
      }
      var entry := Remove(key);
      honoured := honoured + [key];
      r := Some((entry.call, if frame.result.Some? && understood(frame.result.value) then frame.result else None));
    }

    /** Drops the entries for which `drop` holds. */
    method Drop(drop: Pending<T> -> bool) returns (removed: set<nat>)
      requires Inv()
      modifies this`bytes, this`pending
      ensures Inv()
      ensures removed == set k | k in old(pending) && drop(old(pending)[k])
      ensures pending == old(pending) - removed
    {
      hide Sound;
      removed := set k | k in pending && drop(pending[k]);
      var left := removed;
      while left != {}
        invariant Inv() && left <= removed && pending == old(pending) - (removed - left)
        decreases |left|
      {
        var k :| k in left;
        var entry := Remove(k);
        left := left - {k};
      }
    }

    method Expire(now: nat) returns (removed: set<nat>)
      requires Inv()
      modifies this`bytes, this`pending
      ensures Inv()
      ensures forall k | k in pending :: pending[k].deadline > now
      ensures forall k | k in old(pending) && old(pending)[k].deadline > now :: k in pending && pending[k] == old(pending)[k]
    {
      removed := Drop((p: Pending<T>) => p.deadline <= now);
    }

    /** Drops what waits for one request; there is at most one such entry. */
    method Cancel(original: string) returns (removed: set<nat>)
      requires Inv()
      modifies this`bytes, this`pending
      ensures Inv() && !ContainsOriginal(original)
      ensures removed == set k | k in old(pending) && old(pending)[k].original == original
      ensures forall j, k | j in removed && k in removed :: j == k
      ensures pending == old(pending) - removed
    {
      OneOriginal(bounds, Frontier(), bytes, pending, honoured);
      hide Sound;
      var drop := (p: Pending<T>) => p.original == original;
      removed := Drop(drop);
      assert forall k | k in old(pending) :: drop(old(pending)[k]) <==> old(pending)[k].original == original;
    }

    /**
     Any sequence of calls: no key is honoured twice, and what was honoured before stays honoured
     and is never pending again.
     */
    method Run(script: seq<Ask<T>>)
      requires Inv()
      modifies this`next, this`bytes, this`pending, this`honoured
      ensures Inv() && old(honoured) <= honoured
      ensures forall i, j | 0 <= i < j < |honoured| :: honoured[i] != honoured[j]
      ensures forall i | 0 <= i < |honoured| :: honoured[i] !in pending
      ensures bytes == Total(BytesOf(), pending, Frontier()) <= bounds.bytes
    {
      for n := 0 to |script|
        invariant Inv() && old(honoured) <= honoured
      {
        hide Sound;
        match script[n]
        case AskIssue(original, binding, call, retained, legacy, now) =>
          var r := Issue(original, binding, call, retained, legacy, now);
        case AskModern(state, binding, now) =>
          var r := TakeModern(state, binding, now);
        case AskLegacy(frame, now, owns) =>
          var r := TakeLegacy(frame, now, owns, s => s != "");
        case AskExpire(now) =>
          var r := Expire(now);
        case AskCancel(original) =>
          var r := Cancel(original);
      }
    }
  }

  datatype Ask<!T> =
    | AskIssue(original: string, binding: string, call: T, retained: nat, legacy: bool, now: nat)
    | AskModern(state: nat, binding: string, now: nat)
    | AskLegacy(frame: Frame, now: nat, owns: T -> bool)
    | AskExpire(now: nat)
    | AskCancel(original: string)
}
