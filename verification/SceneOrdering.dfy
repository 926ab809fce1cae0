/**
 Apply Scene converges: after the creations of the first plan and the changes of the second, a third
 plan asks for nothing. Where a listed source is in the scene more than once this can fail; the
 condition for it is exact, and one on the scene before the call.
 */
module SceneOrdering {
  import opened Common
  import opened SceneValues
  import opened ApplyPlan
  import opened ApplyChecks
  import opened SceneWorld
  import opened SceneCreation
  import opened SceneConvergence

  // ----- Moving items to an index that need not be the last -----

  /** An item from above comes to lie on the items below the index. */
  lemma MovedDown(below: seq<Entry>, above: seq<Entry>, entry: Entry)
    requires DistinctIds(below + above) && entry in above
    ensures Moved(below + above, entry, |below|) == below + [entry] + Without(above, {entry.id})
    ensures Without(below, {entry.id}) == below
  {
    hide Without;
    var stack := below + above;
    var i :| 0 <= i < |above| && above[i] == entry;
    forall j | 0 <= j < |below| ensures below[j].id != entry.id {
      assert stack[j] == below[j] && stack[|below| + i] == entry;
    }
    WithoutConcat(below, above, {entry.id});
    WithoutNone(below, {entry.id});
  }

  /** An item from below comes to lie on the others, which fill its place. */
  lemma MovedUp(below: seq<Entry>, above: seq<Entry>, entry: Entry)
    requires DistinctIds(below + above) && entry in below
    ensures Moved(below + above, entry, |below| - 1) == Without(below, {entry.id}) + [entry] + above
    ensures |Without(below, {entry.id})| == |below| - 1 && Without(above, {entry.id}) == above
  {
    hide Without;
    var stack := below + above;
    var i :| 0 <= i < |below| && below[i] == entry;
    assert stack[i] == entry;
    forall j | 0 <= j < |above| ensures above[j].id != entry.id {
      assert stack[|below| + j] == above[j];
    }
    assert forall j | 0 <= j < |below| :: below[j] == stack[j];
    WithoutConcat(below, above, {entry.id});
    WithoutNone(above, {entry.id});
    WithoutOne(below, i);
  }

  /** The items from this place on that are not moved end above the moved ones, the others below. */
  function Parting(stack: seq<Entry>, entries: seq<Entry>, index: nat): (place: nat)
    requires entries != []
    ensures place <= |stack|
  {
    if |stack| <= index then |stack| else if entries[0] in stack[index..] then index else index + 1
  }

  /**
   The moved items lie together: some below the one moved last, which has reached the index, and some
   above it. The first of them ends on top of the others exactly when the second one came from above.
   */
  ghost predicate Parted(stack: seq<Entry>, entries: seq<Entry>, index: nat, low: seq<Entry>, high: seq<Entry>)
    requires entries != []
  {
    var place := Parting(stack, entries, index);
    var sunk, raised := Without(stack[..place], Ids(entries)), Without(stack[place..], Ids(entries));
    && MovedInTurn(stack, entries, index) == sunk + low + [entries[|entries| - 1]] + (high + raised)
    && |sunk| + |low| == index
    && Sided(entries, stack[place..], low, high)
  }

  ghost predicate Sided(entries: seq<Entry>, above: seq<Entry>, low: seq<Entry>, high: seq<Entry>)
    requires entries != []
  {
    && (forall e | e in low || e in high :: e in entries[..|entries| - 1])
    && (|entries| > 1 ==> if entries[1] in above then high != [] && high[|high| - 1] == entries[0] else entries[0] !in high)
  }

  lemma NextSides(entries: seq<Entry>, above: seq<Entry>, low: seq<Entry>, high: seq<Entry>)
    requires |entries| > 1 && DistinctIds(entries) && Sided(entries[..|entries| - 1], above, low, high)
    ensures var prev := entries[|entries| - 2];
            if entries[|entries| - 1] in above then Sided(entries, above, low, [prev] + high) else Sided(entries, above, low + [prev], high)
  {
    var most := entries[..|entries| - 1];
    assert forall i | 0 <= i < |most| :: most[i] == entries[i];
    assert most[|most| - 1] == entries[|entries| - 2] && forall e | e in most[..|most| - 1] :: e in most;
    assert |most| == 1 ==> most[..0] == [];
    assert forall i | 0 <= i < |high| :: high[i] in high;
  }

  /** Moving items in turn to one index parts the others: a lower part, the moved items, an upper part. */
  lemma {:induction false} MovingInTurnParts(stack: seq<Entry>, entries: seq<Entry>, index: nat) returns (low: seq<Entry>, high: seq<Entry>)
    requires DistinctIds(stack) && DistinctIds(entries) && entries != [] && index < |stack|
    requires forall i | 0 <= i < |entries| :: entries[i] in stack
    ensures Parted(stack, entries, index, low, high)
  {
    if |entries| == 1 {
      FirstMoveParts(stack, entries, index);
      low, high := [], [];
    } else {
      var most, last := entries[..|entries| - 1], entries[|entries| - 1];
      assert forall i | 0 <= i < |most| :: most[i] == entries[i];
      low, high := MovingInTurnParts(stack, most, index);
      low, high := NextMoveParts(stack, entries, index, low, high);
    }
  }

  lemma FirstMoveParts(stack: seq<Entry>, entries: seq<Entry>, index: nat)
    requires DistinctIds(stack) && |entries| == 1 && entries[0] in stack && index < |stack|
    ensures Parted(stack, entries, index, [], [])
  {
    hide Without, Moved, DistinctIds;
    var entry, place := entries[0], Parting(stack, entries, index);
    var below, above := stack[..place], stack[place..];
    assert stack == below + above && Ids(entries) == {entry.id};
    assert entries[..0] == [] && MovedInTurn(stack, entries, index) == Moved(stack, entry, index);
    if place == index {
      MovedDown(below, above, entry);
    } else {
      assert stack == stack[..index] + stack[index..] && forall e | e in stack[..index] :: e in below;
      MovedUp(below, above, entry);
    }
  }

  /** What one more moved item leaves of some items. */
  lemma WithoutNext(part: seq<Entry>, entries: seq<Entry>)
    requires entries != []
    ensures Without(part, Ids(entries)) == Without(Without(part, Ids(entries[..|entries| - 1])), {entries[|entries| - 1].id})
  {
    hide Without;
    var most, last := entries[..|entries| - 1], entries[|entries| - 1];
    WithoutTwice(part, Ids(most), {last.id});
    assert Ids(entries) == Ids(most) + {last.id};
  }

  /** One more moved item is taken from the part of the stack where it was, and from no other. */
  lemma NextRest(stack: seq<Entry>, place: nat, entries: seq<Entry>)
    requires DistinctIds(stack) && place <= |stack| && entries != [] && DistinctIds(entries) && entries[|entries| - 1] in stack
    ensures var below, above, most, last := stack[..place], stack[place..], entries[..|entries| - 1], entries[|entries| - 1];
            var sunk, raised := Without(below, Ids(most)), Without(above, Ids(most));
            && Without(below, Ids(entries)) == Without(sunk, {last.id})
            && Without(above, Ids(entries)) == Without(raised, {last.id})
            && if last in above then last in raised && Without(sunk, {last.id}) == sunk
               else last in sunk && Without(raised, {last.id}) == raised
  {
    hide Without;
    var below, above, most, last := stack[..place], stack[place..], entries[..|entries| - 1], entries[|entries| - 1];
    WithoutNext(below, entries);
    WithoutNext(above, entries);
    WithoutKeeps(below, Ids(most));
    WithoutKeeps(above, Ids(most));
    assert stack == below + above;
    assert last.id !in Ids(most);
    Elsewhere(below, above, last);
    hide DistinctIds, Ids;
    if last in above {
      WithoutNone(Without(below, Ids(most)), {last.id});
    } else {
      WithoutNone(Without(above, Ids(most)), {last.id});
    }
  }

  /** No item is both below and above. */
  lemma Elsewhere(below: seq<Entry>, above: seq<Entry>, entry: Entry)
    requires DistinctIds(below + above)
    ensures entry in above ==> forall e | e in below :: e.id != entry.id
    ensures entry in below ==> forall e | e in above :: e.id != entry.id
  {
    forall i, j | 0 <= i < |below| && 0 <= j < |above| ensures below[i].id != above[j].id {
      assert (below + above)[i] == below[i] && (below + above)[|below| + j] == above[j];
    }
  }

  lemma MovedRaised(below: seq<Entry>, prev: Entry, high: seq<Entry>, raised: seq<Entry>, entry: Entry)
    requires DistinctIds(below + [prev] + (high + raised)) && entry in raised
    requires prev.id != entry.id && forall e | e in high :: e.id != entry.id
    ensures Moved(below + [prev] + (high + raised), entry, |below|) == below + [entry] + ([prev] + high + Without(raised, {entry.id}))
  {
    hide Without, Moved, DistinctIds;
    var held := [prev] + high;
    assert below + [prev] + (high + raised) == below + (held + raised);
    MovedDown(below, held + raised, entry);
    WithoutNone(held, {entry.id});
    WithoutConcat(held, raised, {entry.id});
  }

  lemma MovedSunk(sunk: seq<Entry>, low: seq<Entry>, prev: Entry, above: seq<Entry>, entry: Entry)
    requires DistinctIds(sunk + low + [prev] + above) && entry in sunk
    requires prev.id != entry.id && forall e | e in low :: e.id != entry.id
    ensures Moved(sunk + low + [prev] + above, entry, |sunk| + |low|) == Without(sunk, {entry.id}) + (low + [prev]) + [entry] + above
    ensures |Without(sunk, {entry.id})| == |sunk| - 1
  {
    hide Without, Moved, DistinctIds;
    var held := low + [prev];
    assert sunk + low + [prev] == sunk + held;
    MovedUp(sunk + held, above, entry);
    WithoutNone(held, {entry.id});
    WithoutConcat(sunk, held, {entry.id});
  }

  lemma MovedDiffer(entries: seq<Entry>, low: seq<Entry>, high: seq<Entry>)
    requires |entries| > 1 && DistinctIds(entries)
    requires forall e | e in low || e in high :: e in entries[..|entries| - 1][..|entries| - 2]
    ensures forall e | e in low || e in high || e == entries[|entries| - 2] :: e.id != entries[|entries| - 1].id
  {
    var most := entries[..|entries| - 1];
    assert forall i | 0 <= i < |most| :: most[i] == entries[i];
    assert forall e | e in most[..|most| - 1] :: e in most;
  }

  lemma NextMoveParts(stack: seq<Entry>, entries: seq<Entry>, index: nat, low: seq<Entry>, high: seq<Entry>) returns (lower: seq<Entry>, higher: seq<Entry>)
    requires DistinctIds(stack) && DistinctIds(entries) && |entries| > 1 && index < |stack|
    requires forall i | 0 <= i < |entries| :: entries[i] in stack
    requires Parted(stack, entries[..|entries| - 1], index, low, high)
    ensures Parted(stack, entries, index, lower, higher)
  {
    hide Without, Moved, MovedInTurn;
    var most, last := entries[..|entries| - 1], entries[|entries| - 1];
    var place, prev := Parting(stack, entries, index), most[|most| - 1];
    var sunk, raised := Without(stack[..place], Ids(most)), Without(stack[place..], Ids(most));
    assert forall i | 0 <= i < |most| :: most[i] == entries[i];
    OneMoreMove(stack, entries, index);
    MovedInTurnKeeps(stack, most, index);
    NextRest(stack, place, entries);
    NextSides(entries, stack[place..], low, high);
    MovedDiffer(entries, low, high);
    assert Parting(stack, most, index) == place;
    hide DistinctIds, Ids, Sided, Parting;
    if last in stack[place..] {
      lower, higher := low, [prev] + high;
      MovedRaised(sunk + low, prev, high, raised, last);
    } else {
      lower, higher := low + [prev], high;
      MovedSunk(sunk, low, prev, high + raised, last);
    }
  }

  // ----- What moving does to a scene -----

  /** The stack with every listed source moved in turn, after the removals. */
  function Arranged(stack: seq<Entry>, request: Request): seq<Entry> {
    MovedInTurn(Kept(stack, request), Listed(stack, request.sources), LastIndex(stack, request))
  }

  function PartingOf(stack: seq<Entry>, request: Request): (place: nat)
    requires request.sources != []
    ensures place <= |Kept(stack, request)|
  {
    Parting(Kept(stack, request), Listed(stack, request.sources), LastIndex(stack, request))
  }

  /** The other copies, besides the first item of each source, that end below the moved items. */
  function Sunk(stack: seq<Entry>, request: Request): seq<Entry>
    requires request.sources != []
  {
    Without(Kept(stack, request)[..PartingOf(stack, request)], Ids(Listed(stack, request.sources)))
  }

  /** The other copies that end above the moved items. */
  function Raised(stack: seq<Entry>, request: Request): seq<Entry>
    requires request.sources != []
  {
    Without(Kept(stack, request)[PartingOf(stack, request)..], Ids(Listed(stack, request.sources)))
  }

  /**
   Whether moving puts the listed sources on top in order. It always does if nothing else is removed or
   nothing but one item of each is left, and never with fewer than as many copies again. With more, the
   copies above the moved items must be in order: all of them, or all but the first source, whose
   moved item then comes next.
   */
  predicate Orders(stack: seq<Entry>, request: Request)
    requires request.sources != []
  {
    var n, kept := |request.sources|, Kept(stack, request);
    if !request.removeOthers || |kept| == n then true
    else if |kept| < 2 * n then false
    else
      var raised := Raised(stack, request);
      || StackInOrder(raised, request.sources)
      || (1 < n == |raised| + 1 && StackInOrder(raised, request.sources[1..])
          && Listed(stack, request.sources)[1] in kept[PartingOf(stack, request)..])
  }

  lemma SameLength(a: seq<Entry>, b: seq<Entry>)
    requires DistinctIds(a) && DistinctIds(b) && forall e :: e in a <==> e in b
    ensures |a| == |b|
  {
    FewerIds(a, b);
    FewerIds(b, a);
  }

  lemma ArrangedFacts(w: World, request: Request)
    requires Complete(w, request) && request.sources != []
    ensures var kept, listed, now := Kept(w.stack, request), Listed(w.stack, request.sources), Arranged(w.stack, request);
            && DistinctIds(kept) && DistinctIds(listed) && DistinctIds(now)
            && |now| == |kept| >= |request.sources| && LastIndex(w.stack, request) < |kept|
            && (forall e | e in listed :: e in kept) && (forall e :: e in now <==> e in kept)
  {
    hide Complete, Kept, Listed, MovedInTurn, Rearranged, DistinctIds;
    var kept, listed, index := Kept(w.stack, request), Listed(w.stack, request.sources), LastIndex(w.stack, request);
    KeptFacts(w, request);
    ListedFacts(w, request);
    RearrangedFacts(w.stack, kept, request);
    assert forall i | 0 <= i < |listed| :: listed[i] in listed;
    FewerIds(listed, kept);
    assert |listed| == |request.sources| by { ListedLength(w.stack, request.sources); }
    SomeItem(w, request);
    if !request.removeOthers {
      NothingRemoved(w.stack, request);
    }
    MovedInTurnKeeps(kept, listed, index);
    SameLength(kept, MovedInTurn(kept, listed, index));
  }

  lemma ListedLength(stack: seq<Entry>, sources: seq<Spec>)
    ensures |Listed(stack, sources)| == |sources|
  {
  }

  lemma ArrangedParts(w: World, request: Request) returns (low: seq<Entry>, high: seq<Entry>)
    requires Complete(w, request) && request.sources != []
    ensures |Listed(w.stack, request.sources)| == |request.sources|
    ensures Parted(Kept(w.stack, request), Listed(w.stack, request.sources), LastIndex(w.stack, request), low, high)
  {
    hide Complete, Kept, Arranged, Parted, DistinctIds, LastIndex;
    var kept, listed, index := Kept(w.stack, request), Listed(w.stack, request.sources), LastIndex(w.stack, request);
    ArrangedFacts(w, request);
    assert forall i | 0 <= i < |listed| :: listed[i] in listed;
    low, high := MovingInTurnParts(kept, listed, index);
  }

  /** Where the last index is the top, moving leaves the listed sources on top in order, whatever is there twice. */
  lemma MovingToTheTopOrders(w: World, request: Request)
    requires Complete(w, request) && request.sources != []
    requires !request.removeOthers || |Kept(w.stack, request)| == |request.sources|
    ensures var listed := Listed(w.stack, request.sources);
            Arranged(w.stack, request) == Without(Kept(w.stack, request), Ids(listed)) + listed
    ensures StackInOrder(Arranged(w.stack, request), request.sources)
  {
    hide Complete, Without, IdOf, MovedInTurn, Kept, StackInOrder, Listed, DistinctIds;
    var kept, listed, index := Kept(w.stack, request), Listed(w.stack, request.sources), LastIndex(w.stack, request);
    ArrangedFacts(w, request);
    if !request.removeOthers {
      NothingRemoved(w.stack, request);
    }
    assert forall i | 0 <= i < |listed| :: listed[i] in listed;
    MovingInTurnOrders(kept, listed, index);
    OnTop(Without(kept, Ids(listed)), w.stack, request.sources);
  }

  /** With some copies left, but fewer than one for each source, moving never orders them: the last source is stuck among the others. */
  lemma FewCopiesDefeatMoving(w: World, request: Request)
    requires Complete(w, request) && request.removeOthers
    requires |request.sources| < |Kept(w.stack, request)| < 2 * |request.sources|
    ensures !StackInOrder(Arranged(w.stack, request), request.sources)
  {
    hide Complete, Without, IdOf, MovedInTurn, Kept, DistinctIds;
    var n, m, now := |request.sources|, |Kept(w.stack, request)|, Arranged(w.stack, request);
    ArrangedFacts(w, request);
    var low, high := ArrangedParts(w, request);
    assert now[n - 1].source == request.sources[n - 1].name;
    var i := 2 * n - 1 - m;
    assert now[|now| - n + i] == now[n - 1];
    DistinctSources(w, request, i, n - 1);
  }

  lemma DistinctSources(w: World, request: Request, i: nat, j: nat)
    requires Complete(w, request) && i < |request.sources| && j < |request.sources| && i != j
    ensures request.sources[i].name != request.sources[j].name
  {
  }

  lemma OrderOfTop(below: seq<Entry>, above: seq<Entry>, sources: seq<Spec>)
    requires |sources| <= |above|
    ensures StackInOrder(below + above, sources) <==> StackInOrder(above, sources)
  {
    var from := |above| - |sources|;
    assert (below + above)[|below| + from..] == above[from..];
    assert forall i | 0 <= i < |sources| :: above[from..][i] == above[from + i] && (below + above)[|below| + from..][i] == (below + above)[|below| + from + i];
  }

  /** `listed` has an item for each of the sources, which have different names. */
  ghost predicate Naming(listed: seq<Entry>, sources: seq<Spec>) {
    && |listed| == |sources|
    && (forall i | 0 <= i < |listed| :: listed[i].source == sources[i].name)
    && (forall i, j | 0 <= i < j < |sources| :: sources[i].name != sources[j].name)
  }

  lemma FirstBelowCopies(low: seq<Entry>, high: seq<Entry>, raised: seq<Entry>, listed: seq<Entry>, sources: seq<Spec>, above: seq<Entry>)
    requires Naming(listed, sources) && listed != [] && DistinctIds(high) && Sided(listed, above, low, high)
    requires |raised| < |sources| <= |high + raised| && StackInOrder(high + raised, sources)
    ensures 1 < |sources| == |raised| + 1 && listed[1] in above
  {
    hide StackInOrder;
    var j := |high + raised| - |sources|;
    assert high[j].source == sources[0].name by { LowestOfTop(high, raised, sources); }
    assert high[j] in high;
    var i :| 0 <= i < |listed| - 1 && listed[i] == high[j];
    assert i == 0;
    assert listed[0] in high && high[|high| - 1] == listed[0];
  }

  lemma LowestOfTop(high: seq<Entry>, raised: seq<Entry>, sources: seq<Spec>)
    requires |raised| < |sources| <= |high + raised| && StackInOrder(high + raised, sources)
    ensures high[|high + raised| - |sources|].source == sources[0].name
  {
    var j := |high + raised| - |sources|;
    assert (high + raised)[j] == high[j] && (high + raised)[j + 0].source == sources[0].name;
  }

  lemma FirstThenCopies(high: seq<Entry>, raised: seq<Entry>, sources: seq<Spec>)
    requires |sources| == |raised| + 1 && high != [] && high[|high| - 1].source == sources[0].name
    ensures StackInOrder(high + raised, sources) <==> StackInOrder(raised, sources[1..])
  {
    var stack, from := high + raised, |high| - 1;
    assert |stack| - |sources| == from && |sources[1..]| == |raised| && stack[from] == high[from];
    if StackInOrder(stack, sources) {
      forall t | 0 <= t < |raised| ensures raised[t].source == sources[1..][t].name {
        assert stack[from + (t + 1)].source == sources[t + 1].name;
      }
    }
    if StackInOrder(raised, sources[1..]) {
      forall i | 0 <= i < |sources| ensures stack[from + i].source == sources[i].name {
        if i > 0 {
          assert raised[0 + (i - 1)].source == sources[1..][i - 1].name;
        }
      }
    }
  }

  lemma CopiesInOrder(low: seq<Entry>, high: seq<Entry>, raised: seq<Entry>, listed: seq<Entry>, sources: seq<Spec>, above: seq<Entry>)
    requires Naming(listed, sources) && listed != [] && DistinctIds(high) && Sided(listed, above, low, high) && |sources| <= |high + raised|
    ensures StackInOrder(high + raised, sources) <==>
            || StackInOrder(raised, sources)
            || (1 < |sources| == |raised| + 1 && StackInOrder(raised, sources[1..]) && listed[1] in above)
  {
    if |sources| <= |raised| {
      OrderOfTop(high, raised, sources);
    } else {
      if StackInOrder(high + raised, sources) {
        FirstBelowCopies(low, high, raised, listed, sources, above);
      }
      if 1 < |sources| == |raised| + 1 && listed[1] in above {
        FirstThenCopies(high, raised, sources);
      }
    }
  }

  lemma ListedNaming(w: World, request: Request)
    requires Complete(w, request)
    ensures Naming(Listed(w.stack, request.sources), request.sources)
  {
    hide IdOf;
  }

  /** With a copy for each source or more, moving orders them exactly when the copies that end above are in order. */
  lemma ManyCopiesOrderExactly(w: World, request: Request)
    requires Complete(w, request) && request.removeOthers && request.sources != []
    requires |Kept(w.stack, request)| >= 2 * |request.sources|
    ensures StackInOrder(Arranged(w.stack, request), request.sources) <==> Orders(w.stack, request)
  {
    hide Complete, Without, IdOf, MovedInTurn, Kept, DistinctIds, Sided, StackInOrder, Naming, Listed, Parting;
    var sources, listed, raised := request.sources, Listed(w.stack, request.sources), Raised(w.stack, request);
    ArrangedFacts(w, request);
    var low, high := ArrangedParts(w, request);
    ListedNaming(w, request);
    var below, now := Sunk(w.stack, request) + low + [listed[|listed| - 1]], Arranged(w.stack, request);
    assert now == below + (high + raised) && |below| == |sources|;
    DistinctPart(below, high, raised);
    OrderOfTop(below, high + raised, sources);
    CopiesInOrder(low, high, raised, listed, sources, Kept(w.stack, request)[PartingOf(w.stack, request)..]);
  }

  lemma DistinctPart(a: seq<Entry>, b: seq<Entry>, c: seq<Entry>)
    requires DistinctIds(a + (b + c))
    ensures DistinctIds(b)
  {
    assert forall i | 0 <= i < |b| :: (a + (b + c))[|a| + i] == b[i];
  }

  /** Moving orders the listed sources exactly when the stack, before anything is moved, allows it. */
  lemma MovingOrdersExactly(w: World, request: Request)
    requires Complete(w, request) && request.sources != []
    ensures StackInOrder(Arranged(w.stack, request), request.sources) <==> Orders(w.stack, request)
  {
    hide Complete, Arranged, Kept, StackInOrder, Raised, Listed, DistinctIds, LastIndex;
    var n, m := |request.sources|, |Kept(w.stack, request)|;
    ArrangedFacts(w, request);
    if !request.removeOthers || m == n {
      MovingToTheTopOrders(w, request);
    } else if m < 2 * n {
      FewCopiesDefeatMoving(w, request);
    } else {
      ManyCopiesOrderExactly(w, request);
    }
  }

  // ----- Which item of a source comes first -----

  lemma OnlyOneNamed(stack: seq<Entry>, entry: Entry)
    requires entry in stack && forall e | e in stack && e.source == entry.source :: e == entry
    ensures EntryNamed(stack, entry.source) == Some(entry)
  {
    var i :| 0 <= i < |stack| && stack[i] == entry;
    var first := FirstOf(stack, entry.source, i);
    EntryNamedAt(stack, entry.source, first);
    assert stack[first] in stack;
  }

  /** After the moves, a copy that has sunk comes first; without one the moved item does. */
  lemma FirstAfterMoving(w: World, request: Request, k: nat)
    requires Complete(w, request) && k < |request.sources|
    ensures var name, sunk := request.sources[k].name, EntryNamed(Sunk(w.stack, request), request.sources[k].name);
            EntryNamed(Arranged(w.stack, request), name) == if sunk.Some? then sunk else Some(Entry(IdOf(w.stack, name), name))
  {
    hide Complete, Without, IdOf, MovedInTurn, Kept, DistinctIds, StackInOrder, LastIndex, EntryNamed, Parting;
    var name, listed, sunk, raised := request.sources[k].name, Listed(w.stack, request.sources), Sunk(w.stack, request), Raised(w.stack, request);
    var entry, now := listed[k], Arranged(w.stack, request);
    ArrangedFacts(w, request);
    var low, high := ArrangedParts(w, request);
    var moved := low + [listed[|listed| - 1]] + high;
    assert now == sunk + (moved + raised);
    EntryNamedConcat(sunk, moved + raised, name);
    EntryNamedConcat(moved, raised, name);
    assert forall e | e in moved :: e in listed;
    assert entry in moved by {
      assert entry in listed && entry.id in Ids(listed);
      NotLeft(w, request, entry);
    }
    ListedNaming(w, request);
    OnlyOneNamed(moved, entry);
  }

  /** A moved item is not among those left alone. */
  lemma NotLeft(w: World, request: Request, entry: Entry)
    requires Complete(w, request) && request.sources != [] && entry.id in Ids(Listed(w.stack, request.sources))
    ensures entry !in Sunk(w.stack, request) && entry !in Raised(w.stack, request)
  {
    hide Complete, Without, IdOf, Kept, LastIndex, Parting, Listed, Ids, Arranged;
    ArrangedFacts(w, request);
    var kept, place, ids := Kept(w.stack, request), PartingOf(w.stack, request), Ids(Listed(w.stack, request.sources));
    WithoutKeeps(kept[..place], ids);
    WithoutKeeps(kept[place..], ids);
  }

  /** Where the last index is the top, all other copies end below the moved items. */
  lemma AllCopiesSink(w: World, request: Request)
    requires Complete(w, request) && request.sources != []
    requires !request.removeOthers || |Kept(w.stack, request)| == |request.sources|
    ensures Sunk(w.stack, request) == Without(Kept(w.stack, request), Ids(Listed(w.stack, request.sources)))
  {
    hide Complete, Without, IdOf, Kept, DistinctIds, Arranged;
    var kept, listed, place := Kept(w.stack, request), Listed(w.stack, request.sources), PartingOf(w.stack, request);
    ArrangedFacts(w, request);
    if !request.removeOthers {
      NothingRemoved(w.stack, request);
    }
    WithoutConcat(kept[..place], kept[place..], Ids(listed));
    assert kept == kept[..place] + kept[place..];
    if place < |kept| {
      assert kept[place..] == [listed[0]] && listed[0].id in Ids(listed);
      WithoutSingle(listed[0], Ids(listed));
    } else {
      assert kept[place..] == [];
      WithoutNone([], Ids(listed));
    }
  }

  // ----- Convergence -----

  /**
   What the scene must be like before the call for the changes to settle it. Unless no ordering is
   asked for or the stack will be in order once the missing sources are created, moving must order it,
   and a copy that ends below the moved items must already be as described.
   */
  ghost predicate Settleable(judge: Judge, w: World, request: Request) {
    var stack := FilledTo(w, request.sources);
    request.order && request.sources != [] && !StackInOrder(stack, request.sources) ==>
      && Orders(stack, request)
      && forall k | 0 <= k < |request.sources| :: SunkIsSettled(judge, w, stack, request, request.sources[k])
  }

  ghost predicate SunkIsSettled(judge: Judge, w: World, stack: seq<Entry>, request: Request, spec: Spec)
    requires request.sources != []
  {
    var sunk := EntryNamed(Sunk(stack, request), spec.name);
    sunk.Some? ==> PropsSettled(judge, spec, Observe(w, request).video, PropsAt(w, sunk.value.id))
  }

  lemma {:induction false} NothingMissing(w: World, sources: seq<Spec>)
    requires forall k | 0 <= k < |sources| :: Present(w.stack, sources[k].name)
    ensures Missing(w.stack, sources) == [] && FilledTo(w, sources) == w.stack
  {
    if sources != [] {
      NothingMissing(w, sources[..|sources| - 1]);
    }
  }

  lemma CompleteIsFilled(w: World, request: Request)
    requires Complete(w, request)
    ensures FilledTo(w, request.sources) == w.stack
  {
    forall k | 0 <= k < |request.sources| ensures Present(w.stack, request.sources[k].name) {
      assert Exists(w, request.sources[k]);
    }
    NothingMissing(w, request.sources);
  }

  lemma {:induction false} NamedIsIn(stack: seq<Entry>, name: string)
    ensures EntryNamed(stack, name).Some? ==> EntryNamed(stack, name).value in stack && EntryNamed(stack, name).value.source == name
  {
    if stack != [] && stack[0].source != name {
      NamedIsIn(stack[1..], name);
    }
  }

  lemma FirstIsSettledExactly(judge: Judge, w: World, request: Request, k: nat)
    requires Complete(w, request) && k < |request.sources|
    ensures FirstIsSettled(judge, w, Arranged(w.stack, request), request, request.sources[k]) <==>
            SunkIsSettled(judge, w, w.stack, request, request.sources[k])
  {
    hide Complete, PropsSettled, Arranged, Sunk, EntryNamed, Observe;
    var name := request.sources[k].name;
    FirstAfterMoving(w, request, k);
    NamedIsIn(Sunk(w.stack, request), name);
    var sunk, listed := EntryNamed(Sunk(w.stack, request), name), Listed(w.stack, request.sources);
    assert listed[k].id in Ids(listed) && listed[k].id == IdOf(w.stack, name);
    if sunk.Some? {
      if sunk.value.id == IdOf(w.stack, name) {
        NotLeft(w, request, sunk.value);
        assert false;
      }
    }
  }

  /** The changes of one plan settle a scene in which everything exists exactly when it is settleable. */
  lemma SettleableExactly(judge: Judge, w: World, request: Request)
    requires Complete(w, request)
    ensures EndsSettled(judge, w, request) <==> Settleable(judge, w, request)
  {
    hide Complete, Kept, MovedInTurn, StackInOrder, FirstIsSettled, SunkIsSettled, Orders, IdOf, Listed, LastIndex;
    CompleteIsFilled(w, request);
    if request.order && request.sources != [] && !StackInOrder(w.stack, request.sources) {
      MovingOrdersExactly(w, request);
      forall k | 0 <= k < |request.sources|
        ensures FirstIsSettled(judge, w, Arranged(w.stack, request), request, request.sources[k]) <==>
                SunkIsSettled(judge, w, w.stack, request, request.sources[k])
      {
        FirstIsSettledExactly(judge, w, request, k);
      }
    } else {
      KeptEndsSettled(judge, w, request);
    }
  }

  lemma KeptEndsSettled(judge: Judge, w: World, request: Request)
    requires Complete(w, request) && (request.order && request.sources != [] ==> StackInOrder(w.stack, request.sources))
    ensures EndsSettled(judge, w, request)
  {
    hide Complete, IdOf, Kept, MovedInTurn, PropsSettled, StackInOrder;
    forall k | 0 <= k < |request.sources| ensures IdOf(Kept(w.stack, request), request.sources[k].name) == IdOf(w.stack, request.sources[k].name) {
      KeptSource(w, request, k);
    }
    if request.order && request.sources != [] {
      if request.removeOthers {
        KeptInOrder(w, request);
      } else {
        NothingRemoved(w.stack, request);
      }
    }
  }

  /** A copy that sinks was in the scene before the creations, with the values that it still has. */
  lemma SunkIsOld(w: World, made: World, request: Request, k: nat)
    requires Created(w, made, request, |request.sources|) && Complete(made, request) && k < |request.sources|
    ensures var sunk := EntryNamed(Sunk(made.stack, request), request.sources[k].name);
            sunk.Some? ==> PropsAt(made, sunk.value.id) == PropsAt(w, sunk.value.id)
  {
    hide Complete, Sunk, Kept, IdOf, Exists, WorldOk, PropsAt, DistinctIds;
    var name, stack := request.sources[k].name, made.stack;
    var sunk := EntryNamed(Sunk(stack, request), name);
    NamedIsIn(Sunk(stack, request), name);
    assert request.sources[..|request.sources|] == request.sources;
    if sunk.Some? && sunk.value !in w.stack {
      SunkIsThere(made, request, sunk.value);
      NewIsOnce(w, request, sunk.value);
      assert Once(stack, name);
      var i := IdOfSource(made, request, k);
      var j :| 0 <= j < |stack| && stack[j] == sunk.value;
      assert stack[i] == sunk.value;
      var listed := Listed(stack, request.sources);
      assert listed[k] == stack[i] && listed[k].id in Ids(listed);
      NotLeft(made, request, sunk.value);
      assert false;
    }
  }

  lemma SunkIsThere(w: World, request: Request, entry: Entry)
    requires Complete(w, request) && request.sources != [] && entry in Sunk(w.stack, request)
    ensures entry in w.stack
  {
    hide Complete, Without, IdOf, Kept, LastIndex, Parting, Listed, Ids, Arranged, Rearranged;
    ArrangedFacts(w, request);
    WithoutKeeps(Kept(w.stack, request)[..PartingOf(w.stack, request)], Ids(Listed(w.stack, request.sources)));
    KeptFacts(w, request);
    assert forall e | e in Kept(w.stack, request) :: e in w.stack by { RearrangedWas(w.stack, Kept(w.stack, request), request); }
  }

  lemma RearrangedWas(was: seq<Entry>, stack: seq<Entry>, request: Request)
    requires Rearranged(was, stack, request)
    ensures forall e | e in stack :: e in was
  {
  }

  lemma {:induction false} MissingIsAbsent(stack: seq<Entry>, sources: seq<Spec>)
    ensures forall i | 0 <= i < |Missing(stack, sources)| :: !Present(stack, Missing(stack, sources)[i])
  {
    if sources != [] {
      MissingIsAbsent(stack, sources[..|sources| - 1]);
    }
  }

  /** A source of an item that is created has no item before. */
  lemma NewIsOnce(w: World, request: Request, entry: Entry)
    requires entry in FilledTo(w, request.sources) && entry !in w.stack
    ensures !Present(w.stack, entry.source) && Once(w.stack, entry.source)
  {
    var names := Missing(w.stack, request.sources);
    MissingIsAbsent(w.stack, request.sources);
    var i :| 0 <= i < |NewItems(names, w.nextId)| && NewItems(names, w.nextId)[i] == entry;
    assert entry.source == names[i];
  }

  /** The creations do not change whether a scene is settleable. */
  lemma SettleableBefore(judge: Judge, w: World, made: World, request: Request)
    requires Created(w, made, request, |request.sources|) && Complete(made, request)
    ensures Settleable(judge, w, request) <==> Settleable(judge, made, request)
  {
    hide Complete, WorldOk, Exists, Sunk, PropsAt, PropsSettled, Orders, StackInOrder, EntryNamed, Once;
    var stack := made.stack;
    CompleteIsFilled(made, request);
    assert request.sources[..|request.sources|] == request.sources;
    assert FilledTo(w, request.sources) == stack;
    assert Observe(made, request).video == Observe(w, request).video;
    forall k | 0 <= k < |request.sources|
      ensures SunkIsSettled(judge, w, stack, request, request.sources[k]) <==> SunkIsSettled(judge, made, stack, request, request.sources[k])
    {
      SunkIsOld(w, made, request, k);
    }
  }

  /**
   With no other writer, applying an error-free plan: the creations succeed, the second plan has nothing
   to create and nothing that must wait, its changes succeed, and the third plan is empty exactly when
   the scene then is as described, that is, when it was settleable before the call.
   */
  lemma ConvergesExactly(judge: Judge, defaults: Defaults, w: World, request: Request) returns (made: World, done: World)
    requires judge.Reflexive() && WorldOk(w, request) && Creatable(w, request)
    requires PlanFor(judge, request, Observe(w, request)).errors == []
    ensures Run(defaults, request.sceneName, w, Effects(PlanFor(judge, request, Observe(w, request)).actions, Create)) == Some(made)
    ensures Created(w, made, request, |request.sources|) && Complete(made, request)
    ensures var second := PlanFor(judge, request, Observe(made, request));
            && second.errors == [] && Effects(second.actions, Create) == [] && AllEffective(second.actions)
            && Run(defaults, request.sceneName, made, Effects(second.actions, Change)) == Some(done)
    ensures PlanFor(judge, request, Observe(done, request)) == Plan([], []) <==> AsDescribed(judge, done, request)
    ensures AsDescribed(judge, done, request) <==> Settleable(judge, w, request)
    ensures MostlyAsDescribed(judge, done, request)
  {
    hide PlanFor, Effects, Run, Complete, WorldOk, Creatable, Created, Undisputed, Judge.Reflexive, Settleable, EndsSettled, AsDescribed, MostlyAsDescribed;
    made := CreationsSucceed(judge, defaults, w, request);
    UndisputedIffErrorFree(judge, w, request);
    CreatedIsComplete(w, made, request);
    SecondPlan(judge, made, request);
    done := ChangesSettle(judge, defaults, made, request);
    SettleableExactly(judge, made, request);
    SettleableBefore(judge, w, made, request);
  }

  /**
   No ordering is asked for, the listed sources will be in order with the missing ones put on top, or
   each of them is in the scene at most once.
   */
  ghost predicate Unproblematic(w: World, request: Request) {
    request.order && request.sources != [] ==>
      StackInOrder(FilledTo(w, request.sources), request.sources) || Unambiguous(w.stack, request.sources)
  }

  lemma UnambiguousIsSettleable(judge: Judge, w: World, request: Request)
    requires Complete(w, request) && Unambiguous(w.stack, request.sources)
    ensures Settleable(judge, w, request)
  {
    hide Complete, Kept, StackInOrder, PropsSettled, Sunk, Listed, Arranged, Raised, Unambiguous, IdOf, DistinctIds;
    CompleteIsFilled(w, request);
    if request.sources != [] {
      ArrangedFacts(w, request);
      if request.removeOthers {
        KeptIsShort(w, request);
      }
      forall k | 0 <= k < |request.sources| ensures SunkIsSettled(judge, w, w.stack, request, request.sources[k]) {
        var sunk := EntryNamed(Sunk(w.stack, request), request.sources[k].name);
        NamedIsIn(Sunk(w.stack, request), request.sources[k].name);
        if sunk.Some? {
          SunkIsThere(w, request, sunk.value);
          ListedAreAll(w, request);
          assert request.sources[k].name in request.Names();
          assert sunk.value in Listed(w.stack, request.sources);
          NotLeft(w, request, sunk.value);
          assert false;
        }
      }
    }
  }

  lemma UnproblematicIsSettleable(judge: Judge, w: World, made: World, request: Request)
    requires Unproblematic(w, request) && Created(w, made, request, |request.sources|) && Complete(made, request)
    ensures Settleable(judge, w, request)
  {
    hide Complete, WorldOk, Once, StackInOrder, Orders, SunkIsSettled, Exists, Present;
    if request.order && request.sources != [] && !StackInOrder(FilledTo(w, request.sources), request.sources) {
      UnambiguousIsSettleable(judge, made, request);
      SettleableBefore(judge, w, made, request);
    }
  }

  /** Without ambiguous sources to move, applying an error-free plan always makes the scene match. */
  lemma Converges(judge: Judge, defaults: Defaults, w: World, request: Request) returns (made: World, done: World)
    requires judge.Reflexive() && WorldOk(w, request) && Creatable(w, request) && Unproblematic(w, request)
    requires PlanFor(judge, request, Observe(w, request)).errors == []
    ensures Run(defaults, request.sceneName, w, Effects(PlanFor(judge, request, Observe(w, request)).actions, Create)) == Some(made)
    ensures var second := PlanFor(judge, request, Observe(made, request));
            && second.errors == [] && Effects(second.actions, Create) == [] && AllEffective(second.actions)
            && Run(defaults, request.sceneName, made, Effects(second.actions, Change)) == Some(done)
    ensures PlanFor(judge, request, Observe(done, request)) == Plan([], []) && AsDescribed(judge, done, request)
  {
    hide PlanFor, Effects, Run, Complete, WorldOk, Creatable, Created, Judge.Reflexive, Settleable, Unproblematic, AsDescribed, MostlyAsDescribed;
    made, done := ConvergesExactly(judge, defaults, w, request);
    UnproblematicIsSettleable(judge, w, made, request);
  }

  /** A scene with the second source at the bottom and the first one twice above it. */
  function TwiceInTheScene(request: Request): World
    requires |request.sources| == 2
  {
    var a, b := request.sources[0], request.sources[1];
    var kind := (spec: Spec) => if spec.Kind().Some? then spec.Kind().value else "";
    var input := (spec: Spec) => Input(kind(spec), map[], None, None, {});
    var props := Props(true, false, map[]);
    World({request.sceneName}, map[a.name := input(a), b.name := input(b)], {},
          [Entry(1, b.name), Entry(2, a.name), Entry(3, a.name)], map[1 := props, 2 := props, 3 := props], 4, Canvas(1.0, 1.0))
  }

  lemma TwiceIsComplete(request: Request)
    requires |request.sources| == 2 && request.Distinct()
    ensures Complete(TwiceInTheScene(request), request)
    ensures Listed(TwiceInTheScene(request).stack, request.sources) == [Entry(2, request.sources[0].name), Entry(1, request.sources[1].name)]
  {
    var w, a, b := TwiceInTheScene(request), request.sources[0].name, request.sources[1].name;
    assert w.stack[0].source == b && w.stack[1].source == a;
    EntryNamedAt(w.stack, a, 1);
    EntryNamedAt(w.stack, b, 0);
    assert request.sources == [request.sources[0], request.sources[1]];
    assert forall k | 0 <= k < 2 :: Exists(w, request.sources[k]);
  }

  /**
   Every request for two sources in order and without others meets a scene in which they all exist and
   which applying an error-free plan does not settle: the second batch succeeds, and the next plan is not empty.
   */
  lemma TwiceInTheSceneDefeatsOrdering(judge: Judge, defaults: Defaults, request: Request) returns (w: World, done: World)
    requires judge.Reflexive() && |request.sources| == 2 && request.Distinct() && request.order && request.removeOthers
    ensures w == TwiceInTheScene(request) && WorldOk(w, request) && Creatable(w, request)
    ensures var plan := PlanFor(judge, request, Observe(w, request));
            && plan.errors == [] && Effects(plan.actions, Create) == []
            && Run(defaults, request.sceneName, w, Effects(plan.actions, Change)) == Some(done)
    ensures PlanFor(judge, request, Observe(done, request)) != Plan([], []) && !AsDescribed(judge, done, request)
  {
    hide AsDescribed, MostlyAsDescribed, PlanFor, Effects, Run, Without, Judge.Reflexive, SunkIsSettled, EndsSettled, Raised, Listed, PartingOf;
    w := TwiceInTheScene(request);
    TwiceIsComplete(request);
    CompleteIsFilled(w, request);
    assert request.sources[0].name in request.Names() && request.sources[1].name in request.Names();
    assert UnlistedIds(w.stack, request.Names()) == {};
    WithoutNone(w.stack, {});
    assert |Kept(w.stack, request)| == 3;
    SecondPlan(judge, w, request);
    done := ChangesSettle(judge, defaults, w, request);
    SettleableExactly(judge, w, request);
  }
}
