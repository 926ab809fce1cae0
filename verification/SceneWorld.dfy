/**
 The part of OBS that Apply Scene reads and changes: the sources, and the stack of one scene.
 */
module SceneWorld {
  import opened Common
  import opened SceneValues
  import opened ApplyPlan

  datatype Entry = Entry(id: nat, source: string)

  datatype Props = Props(enabled: bool, locked: bool, transform: map<string, Value>)

  /** `stack` lists the items of the requested scene from bottom to top. */
  datatype World = World(
    scenes: set<string>,
    inputs: map<string, Input>,
    kinds: set<string>,
    stack: seq<Entry>,
    props: map<nat, Props>,
    nextId: nat,
    canvas: Canvas)

  /** What OBS chooses for a new input of a kind and for a new item. */
  datatype Defaults = Defaults(input: string -> Input, transform: map<string, Value>)

  function PropsAt(w: World, id: nat): Props {
    if id in w.props then w.props[id] else Props(true, false, map[])
  }

  function ItemAt(w: World, i: nat): Item
    requires i < |w.stack|
  {
    var p := PropsAt(w, w.stack[i].id);
    Item(w.stack[i].id, w.stack[i].source, i as real, p.enabled, p.locked, p.transform)
  }

  function Items(w: World): seq<Item> {
    seq(|w.stack|, i requires 0 <= i < |w.stack| => ItemAt(w, i))
  }

  /** What the service reads before it plans. */
  function Observe(w: World, request: Request): Current {
    Current(
      request.sceneName in w.scenes,
      w.scenes,
      map name | name in w.inputs :: w.inputs[name].kind,
      Items(w),
      map name | name in w.inputs && name in request.Names() :: w.inputs[name],
      if request.NeedsCanvas() then Some(w.canvas) else None)
  }

  function Without(stack: seq<Entry>, ids: set<nat>): seq<Entry> {
    if stack == [] then []
    else Without(stack[..|stack| - 1], ids) + if stack[|stack| - 1].id in ids then [] else [stack[|stack| - 1]]
  }

  function EntryOf(stack: seq<Entry>, id: nat): Option<Entry> {
    if stack == [] then None
    else if stack[0].id == id then Some(stack[0])
    else EntryOf(stack[1..], id)
  }

  /** Moves an item to an index counted from the bottom. */
  function Moved(stack: seq<Entry>, entry: Entry, index: nat): seq<Entry> {
    var rest := Without(stack, {entry.id});
    var at := if index < |rest| then index else |rest|;
    rest[..at] + [entry] + rest[at..]
  }

  function Placed(w: World, defaults: Defaults, name: string, enabled: bool): World {
    w.(stack := w.stack + [Entry(w.nextId, name)],
       props := w.props[w.nextId := Props(enabled, false, defaults.transform)],
       nextId := w.nextId + 1)
  }

  /** One request to OBS; None is a refusal. */
  function Step(defaults: Defaults, scene: string, w: World, effect: Effect): Option<World> {
    match effect
    case CreateScene(name) =>
      if name != scene || name in w.scenes || name in w.inputs then None
      else Some(w.(scenes := w.scenes + {name}))
    case CreateInput(name, input, kind, settings, enabled) =>
      if name != scene || name !in w.scenes || input in w.inputs || input in w.scenes || kind !in w.kinds then None
      else
        var made := defaults.input(kind);
        Some(Placed(w, defaults, input, enabled).(inputs := w.inputs[input := made.(kind := kind, settings := made.settings + settings)]))
    case CreateItem(name, input, enabled) =>
      if name != scene || name !in w.scenes || input !in w.inputs then None
      else Some(Placed(w, defaults, input, enabled))
    case SettingsOverlay(input, settings) =>
      if input !in w.inputs then None
      else Some(w.(inputs := w.inputs[input := w.inputs[input].(settings := w.inputs[input].settings + settings)]))
    case Mute(input, muted) =>
      if input !in w.inputs then None
      else Some(w.(inputs := w.inputs[input := w.inputs[input].(muted := Some(muted))]))
    case VolumeDb(input, db) =>
      if input !in w.inputs then None
      else Some(w.(inputs := w.inputs[input := w.inputs[input].(volumeDb := Some(db))]))
    case AudioTracks(input, tracks) =>
      if input !in w.inputs then None
      else Some(w.(inputs := w.inputs[input := w.inputs[input].(tracks := tracks)]))
    case Enabled(name, id, enabled) =>
      if name != scene || EntryOf(w.stack, id).None? then None
      else Some(w.(props := w.props[id := PropsAt(w, id).(enabled := enabled)]))
    case Locked(name, id, locked) =>
      if name != scene || EntryOf(w.stack, id).None? then None
      else Some(w.(props := w.props[id := PropsAt(w, id).(locked := locked)]))
    case Transform(name, id, transform) =>
      if name != scene || EntryOf(w.stack, id).None? then None
      else Some(w.(props := w.props[id := PropsAt(w, id).(transform := PropsAt(w, id).transform + transform)]))
    case RemoveItem(name, id) =>
      if name != scene || EntryOf(w.stack, id).None? then None
      else Some(w.(stack := Without(w.stack, {id})))
    case Index(name, id, index) =>
      var entry := EntryOf(w.stack, id);
      if name != scene || entry.None? then None
      else Some(w.(stack := Moved(w.stack, entry.value, index)))
  }

  /** A batch that stops at the first refusal. */
  function Run(defaults: Defaults, scene: string, w: World, effects: seq<Effect>): Option<World> {
    if effects == [] then Some(w)
    else
      var before := Run(defaults, scene, w, effects[..|effects| - 1]);
      if before.None? then None else Step(defaults, scene, before.value, effects[|effects| - 1])
  }

  lemma {:induction false} RunConcat(defaults: Defaults, scene: string, w: World, a: seq<Effect>, b: seq<Effect>)
    ensures Run(defaults, scene, w, a + b) ==
            if Run(defaults, scene, w, a).None? then None else Run(defaults, scene, Run(defaults, scene, w, a).value, b)
  {
    if b == [] {
      assert a + b == a;
    } else {
      RunConcat(defaults, scene, w, a, b[..|b| - 1]);
      assert (a + b)[..|a + b| - 1] == a + b[..|b| - 1];
    }
  }

  lemma RunOne(defaults: Defaults, scene: string, w: World, effect: Effect)
    ensures Run(defaults, scene, w, [effect]) == Step(defaults, scene, w, effect)
  {
    assert [effect][..0] == [];
  }

  // ----- The stack -----

  ghost predicate DistinctIds(stack: seq<Entry>) {
    forall i, j | 0 <= i < j < |stack| :: stack[i].id != stack[j].id
  }

  lemma {:induction false} EntryFound(stack: seq<Entry>, i: nat)
    requires DistinctIds(stack) && i < |stack|
    ensures EntryOf(stack, stack[i].id) == Some(stack[i])
  {
    if i > 0 {
      EntryFound(stack[1..], i - 1);
    }
  }

  lemma {:induction false} WithoutConcat(a: seq<Entry>, b: seq<Entry>, ids: set<nat>)
    ensures Without(a + b, ids) == Without(a, ids) + Without(b, ids)
  {
    if b == [] {
      assert a + b == a;
    } else {
      WithoutConcat(a, b[..|b| - 1], ids);
      assert (a + b)[..|a + b| - 1] == a + b[..|b| - 1];
    }
  }

  lemma {:induction false} WithoutTwice(stack: seq<Entry>, a: set<nat>, b: set<nat>)
    ensures Without(Without(stack, a), b) == Without(stack, a + b)
  {
    if stack != [] {
      var most, last := stack[..|stack| - 1], stack[|stack| - 1];
      WithoutTwice(most, a, b);
      if last.id in a {
        assert Without(stack, a) == Without(most, a);
      } else {
        WithoutConcat(Without(most, a), [last], b);
        assert [last][..0] == [];
      }
    }
  }

  lemma {:induction false} WithoutNone(stack: seq<Entry>, ids: set<nat>)
    requires forall i | 0 <= i < |stack| :: stack[i].id !in ids
    ensures Without(stack, ids) == stack
  {
    if stack != [] {
      WithoutNone(stack[..|stack| - 1], ids);
    }
  }

  /** What is left, and that the order of what is left is kept. */
  lemma {:induction false} WithoutKeeps(stack: seq<Entry>, ids: set<nat>)
    requires DistinctIds(stack)
    ensures DistinctIds(Without(stack, ids))
    ensures forall e :: e in Without(stack, ids) <==> e in stack && e.id !in ids
  {
    if stack != [] {
      WithoutKeeps(stack[..|stack| - 1], ids);
      assert stack == stack[..|stack| - 1] + [stack[|stack| - 1]];
    }
  }

  lemma MovedToTop(stack: seq<Entry>, entry: Entry, index: nat)
    requires |Without(stack, {entry.id})| <= index
    ensures Moved(stack, entry, index) == Without(stack, {entry.id}) + [entry]
  {
  }

  /** `entry` brought to the top for each of `entries` in turn. */
  function MovedInTurn(stack: seq<Entry>, entries: seq<Entry>, index: nat): seq<Entry> {
    if entries == [] then stack
    else Moved(MovedInTurn(stack, entries[..|entries| - 1], index), entries[|entries| - 1], index)
  }

  function Ids(entries: seq<Entry>): set<nat> {
    set i | 0 <= i < |entries| :: entries[i].id
  }

  /**
   Moving each of some items to the last index, in turn, leaves them on top in that order and the
   others below them in the order they had.
   */
  lemma {:induction false} MovingInTurnOrders(stack: seq<Entry>, entries: seq<Entry>, index: nat)
    requires DistinctIds(stack) && DistinctIds(entries)
    requires forall i | 0 <= i < |entries| :: entries[i] in stack
    requires |stack| <= index + 1
    ensures MovedInTurn(stack, entries, index) == Without(stack, Ids(entries)) + entries
    ensures |Without(stack, Ids(entries)) + entries| == |stack|
  {
    hide Without, Moved;
    if entries == [] {
      assert Ids(entries) == {};
      WithoutNone(stack, {});
    } else {
      var most, last := entries[..|entries| - 1], entries[|entries| - 1];
      MovingInTurnOrders(stack, most, index);
      MovingOneMore(stack, most, last, index);
      assert Ids(entries) == Ids(most) + {last.id};
      assert entries == most + [last];
    }
  }

  lemma MovingOneMore(stack: seq<Entry>, most: seq<Entry>, last: Entry, index: nat)
    requires DistinctIds(stack) && last in stack && forall i | 0 <= i < |most| :: most[i].id != last.id
    requires |Without(stack, Ids(most)) + most| == |stack| <= index + 1
    ensures Moved(Without(stack, Ids(most)) + most, last, index) == Without(stack, Ids(most) + {last.id}) + (most + [last])
    ensures |Without(stack, Ids(most) + {last.id})| == |stack| - |most| - 1
  {
    hide Without, Moved, DistinctIds;
    var below := Without(stack, Ids(most));
    WithoutKeeps(stack, Ids(most));
    WithoutTwice(stack, Ids(most), {last.id});
    var i :| 0 <= i < |below| && below[i] == last;
    WithoutOne(below, i);
    WithoutConcat(below, most, {last.id});
    WithoutNone(most, {last.id});
    MovedToTop(below + most, last, index);
  }

  lemma WithoutSingle(entry: Entry, ids: set<nat>)
    ensures Without([entry], ids) == if entry.id in ids then [] else [entry]
  {
    assert [entry][..0] == [];
  }

  lemma {:induction false} WithoutOne(stack: seq<Entry>, i: nat)
    requires DistinctIds(stack) && i < |stack|
    ensures |Without(stack, {stack[i].id})| == |stack| - 1
  {
    hide Without;
    var id := stack[i].id;
    WithoutConcat(stack[..i], stack[i..], {id});
    WithoutConcat([stack[i]], stack[i + 1..], {id});
    assert stack == stack[..i] + stack[i..] && stack[i..] == [stack[i]] + stack[i + 1..];
    WithoutNone(stack[..i], {id});
    WithoutNone(stack[i + 1..], {id});
    WithoutSingle(stack[i], {id});
  }
}
