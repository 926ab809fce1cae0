/**
 The replies to a request batch, as the session lets them through (session.rs): every reply names
 one request of the batch, and a batch that halts on failure stops at its first failure.
 */
module BatchReplies {
  import opened Common
  import opened Sums

  /** One result of a batch; `index` is None where the identity is missing or not canonical. */
  datatype Reply = Reply(index: Option<nat>, requestType: string, ok: bool)

  /** Each reply names one of the first requests, with its type, and no two name the same. */
  predicate Identified(replies: seq<Reply>, types: seq<string>) {
    && |replies| <= |types|
    && (forall i | 0 <= i < |replies| ::
          && replies[i].index.Some? && replies[i].index.value < |replies|
          && replies[i].requestType == types[replies[i].index.value])
    && (forall i, j | 0 <= i < j < |replies| :: replies[i].index != replies[j].index)
  }

  /** What the session demands of the replies to a batch. */
  predicate WellAnswered(replies: seq<Reply>, types: seq<string>, halt: bool) {
    && replies != [] && Identified(replies, types)
    && (!halt ==> |replies| == |types|)
    && (halt ==> forall i | 0 <= i < |replies| && !replies[i].ok :: replies[i].index == Some(|replies| - 1))
    && (halt && (forall i | 0 <= i < |replies| :: replies[i].ok) ==> |replies| == |types|)
  }

  /** What the outcomes of a batch of `count` requests look like once they are in order. */
  predicate Allowed(oks: seq<bool>, count: nat, halt: bool) {
    && oks != [] && |oks| <= count
    && (!halt ==> |oks| == count)
    && (halt ==> (forall i | 0 <= i < |oks| - 1 :: oks[i]) && (oks[|oks| - 1] ==> |oks| == count))
  }

  /** `oks` holds the outcome of every reply at the place that the reply names. */
  predicate Arranged(replies: seq<Reply>, oks: seq<bool>) {
    && |oks| == |replies|
    && (forall i | 0 <= i < |replies| ::
          replies[i].index.Some? && replies[i].index.value < |oks| && oks[replies[i].index.value] == replies[i].ok)
  }

  /** The first `n` replies are identified, and `ordered` holds exactly their outcomes. */
  ghost predicate Placed(replies: seq<Reply>, types: seq<string>, n: nat, ordered: seq<Option<bool>>)
    requires n <= |replies| <= |types|
  {
    && |ordered| == |replies|
    && (forall i | 0 <= i < n ::
          && replies[i].index.Some? && replies[i].index.value < |replies|
          && replies[i].requestType == types[replies[i].index.value]
          && ordered[replies[i].index.value] == Some(replies[i].ok))
    && (forall i, j | 0 <= i < j < n :: replies[i].index != replies[j].index)
    && (forall k | 0 <= k < |ordered| && ordered[k].Some? :: exists i | 0 <= i < n :: replies[i].index == Some(k))
  }

  lemma PlaceNext(replies: seq<Reply>, types: seq<string>, n: nat, ordered: seq<Option<bool>>)
    requires n < |replies| <= |types| && Placed(replies, types, n, ordered)
    requires replies[n].index.Some? && replies[n].index.value < |ordered|
    requires replies[n].requestType == types[replies[n].index.value] && ordered[replies[n].index.value].None?
    ensures Placed(replies, types, n + 1, ordered[replies[n].index.value := Some(replies[n].ok)])
  {
    var place := replies[n].index.value;
    var next := ordered[place := Some(replies[n].ok)];
    forall k | 0 <= k < |next| && next[k].Some? ensures exists i | 0 <= i < n + 1 :: replies[i].index == Some(k) {
      if k == place {
        assert replies[n].index == Some(k);
      } else {
        var i :| 0 <= i < n && replies[i].index == Some(k);
      }
    }
  }

  lemma AllPlaced(replies: seq<Reply>, types: seq<string>, ordered: seq<Option<bool>>)
    requires |replies| <= |types| && Placed(replies, types, |replies|, ordered)
    ensures Identified(replies, types) && forall k | 0 <= k < |ordered| :: ordered[k].Some?
  {
    forall k | 0 <= k < |ordered| ensures ordered[k].Some? {
      EveryPlaceIsTaken(replies, types, k);
    }
  }

  /** Puts every outcome at the place that its reply names. */
  method OrderReplies(replies: seq<Reply>, types: seq<string>) returns (r: Option<seq<bool>>)
    requires |replies| <= |types|
    ensures r.Some? <==> Identified(replies, types)
    ensures r.Some? ==> Arranged(replies, r.value)
  {
    hide Placed;
    var ordered: seq<Option<bool>> := seq(|replies|, _ => None);
    assert Placed(replies, types, 0, ordered) by { NothingPlaced(replies, types); }
    for n := 0 to |replies|
      invariant Placed(replies, types, n, ordered) && |ordered| == |replies|
    {
      var reply := replies[n];
      if reply.index.None? || reply.index.value >= |ordered| {
        return None;
      }
      if reply.requestType != types[reply.index.value] {
        return None;
      }
      if ordered[reply.index.value].Some? {
        TakenTwice(replies, types, n, ordered);
        return None;
      }
      PlaceNext(replies, types, n, ordered);
      ordered := ordered[reply.index.value := Some(reply.ok)];
    }
    AllPlaced(replies, types, ordered);
    r := Some(seq(|ordered|, k requires 0 <= k < |ordered| => ordered[k].value));
    PlacedArranged(replies, types, ordered, r.value);
  }

  lemma NothingPlaced(replies: seq<Reply>, types: seq<string>)
    requires |replies| <= |types|
    ensures Placed(replies, types, 0, seq(|replies|, _ => None))
  {
  }

  lemma TakenTwice(replies: seq<Reply>, types: seq<string>, n: nat, ordered: seq<Option<bool>>)
    requires n < |replies| <= |types| && Placed(replies, types, n, ordered)
    requires replies[n].index.Some? && replies[n].index.value < |ordered| && ordered[replies[n].index.value].Some?
    ensures !Identified(replies, types)
  {
    var i :| 0 <= i < n && replies[i].index == Some(replies[n].index.value);
    assert replies[i].index == replies[n].index;
  }

  lemma PlacedArranged(replies: seq<Reply>, types: seq<string>, ordered: seq<Option<bool>>, oks: seq<bool>)
    requires |replies| <= |types| && Placed(replies, types, |replies|, ordered)
    requires |oks| == |ordered| && forall k | 0 <= k < |oks| :: ordered[k] == Some(oks[k])
    ensures Arranged(replies, oks)
  {
  }

  /** Checks the replies to a batch; None is a session that is no longer trusted. */
  method BatchResponse(replies: seq<Reply>, types: seq<string>, halt: bool) returns (r: Option<seq<bool>>)
    ensures r.Some? <==> WellAnswered(replies, types, halt)
    ensures r.Some? ==> Arranged(replies, r.value) && Allowed(r.value, |types|, halt)
  {
    hide Identified, Arranged;
    if replies == [] || |replies| > |types| || (!halt && |replies| != |types|) {
      assert Identified(replies, types) ==> |replies| <= |types| by { NoMoreThanAsked(replies, types); }
      return None;
    }
    r := OrderReplies(replies, types);
    if r.None? {
      return;
    }
    var oks := r.value;
    HaltingArranged(replies, types, oks);
    if halt && ((exists k | 0 <= k < |oks| - 1 :: !oks[k]) || (oks[|oks| - 1] && |oks| != |types|)) {
      r := None;
    }
  }

  lemma NoMoreThanAsked(replies: seq<Reply>, types: seq<string>)
    ensures Identified(replies, types) ==> |replies| <= |types|
  {
  }

  lemma EveryPlaceIsTaken(replies: seq<Reply>, types: seq<string>, k: nat)
    requires Identified(replies, types) && k < |replies|
    ensures exists i | 0 <= i < |replies| :: replies[i].index == Some(k)
  {
    var places := seq(|replies|, i requires 0 <= i < |replies| => replies[i].index.value);
    assert forall i, j | 0 <= i < j < |places| :: places[i] != places[j];
    DistinctCover(places, k);
    var i :| 0 <= i < |places| && places[i] == k;
    assert replies[i].index == Some(k);
  }

  /** The rule of halting batches means the same before and after ordering. */
  lemma HaltingArranged(replies: seq<Reply>, types: seq<string>, oks: seq<bool>)
    requires Identified(replies, types) && Arranged(replies, oks) && replies != []
    ensures (forall i | 0 <= i < |replies| && !replies[i].ok :: replies[i].index == Some(|replies| - 1)) <==>
            (forall k | 0 <= k < |oks| - 1 :: oks[k])
    ensures (forall i | 0 <= i < |replies| :: replies[i].ok) <==> forall k | 0 <= k < |oks| :: oks[k]
    ensures |oks| == |replies|
  {
    forall k | 0 <= k < |oks| ensures exists i | 0 <= i < |replies| :: replies[i].index == Some(k) && replies[i].ok == oks[k] {
      EveryPlaceIsTaken(replies, types, k);
      var i :| 0 <= i < |replies| && replies[i].index == Some(k);
    }
  }

  function Successes(oks: seq<bool>): nat {
    if oks == [] then 0 else Successes(oks[..|oks| - 1]) + if oks[|oks| - 1] then 1 else 0
  }

  lemma {:induction false} AllSucceed(oks: seq<bool>)
    ensures Successes(oks) <= |oks|
    ensures (forall i | 0 <= i < |oks| :: oks[i]) <==> Successes(oks) == |oks|
  {
    if oks != [] {
      AllSucceed(oks[..|oks| - 1]);
    }
  }

  /** An allowed outcome of a halting batch has at most one failure, and none only if all was answered. */
  lemma AllowedCounts(oks: seq<bool>, count: nat, halt: bool)
    requires Allowed(oks, count, halt)
    ensures Successes(oks) <= |oks| <= count
    ensures halt ==> |oks| - Successes(oks) <= 1 && (Successes(oks) == |oks| ==> |oks| == count)
    ensures !halt ==> |oks| == count
  {
    AllSucceed(oks);
    AllSucceed(oks[..|oks| - 1]);
  }
}
