/**
 The recovery journal of a restricted demo (demo.rs): the fields it owns, what one publication
 of it means on disk, and what the disk says about OBS.
 */
module DemoJournal {
  import opened Common
  import opened PreparationJournal
  import opened Publication
  import opened SceneValues

  datatype FitKey =
    | BoundsType
    | BoundsWidth
    | BoundsHeight
    | BoundsAlignment
    | Alignment
    | PositionX
    | PositionY
    | Rotation

  datatype Key = Muted | Tracks | Transform(fit: FitKey)

  const KEYS: seq<Key> := [
    Muted, Tracks,
    Transform(BoundsType), Transform(BoundsWidth), Transform(BoundsHeight), Transform(BoundsAlignment),
    Transform(Alignment), Transform(PositionX), Transform(PositionY), Transform(Rotation)
  ]

  /** The selected capture: the objects it consists of and the values of its fields. */
  datatype State = State(identity: string, values: map<Key, Value>) {
    function At(key: Key): Value {
      if key in values then values[key] else Null
    }

    function With(key: Key, value: Value): State {
      State(identity, values[key := value])
    }
  }

  datatype Change = Change(key: Key, before: Value, after: Value)

  /** Comparison of two values of a field, with the tolerance that the field calls for. */
  type Compare = (Key, Value, Value) -> bool

  ghost predicate Tolerance(same: Compare) {
    && (forall k, v :: same(k, v, v))
    && (forall k, v, w :: same(k, v, w) ==> same(k, w, v))
  }

  /** The comparison that demo.rs uses. */
  function FieldCompare(single: Rounding): Compare {
    (key: Key, a: Value, b: Value) =>
      match key
      case Transform(fit) => SameTransform(single, FitName(fit), a, b)
      case _ => Same(a, b)
  }

  function FitName(fit: FitKey): string {
    match fit
    case BoundsType => "boundsType"
    case BoundsWidth => "boundsWidth"
    case BoundsHeight => "boundsHeight"
    case BoundsAlignment => "boundsAlignment"
    case Alignment => "alignment"
    case PositionX => "positionX"
    case PositionY => "positionY"
    case Rotation => "rotation"
  }

  lemma FieldCompareIsTolerance(single: Rounding)
    ensures Tolerance(FieldCompare(single))
  {
    forall k: Key, v, w
      ensures FieldCompare(single)(k, v, v)
      ensures FieldCompare(single)(k, v, w) ==> FieldCompare(single)(k, w, v)
    {
      SameReflexive(v);
      if k.Transform? {
        SameTransformTolerant(single, FitName(k.fit), v, w);
      } else if Same(v, w) {
        SameSymmetric(v, w);
      }
    }
  }

  /** What a capture that fills the canvas looks like. */
  function FitTo(canvas: Canvas): map<FitKey, Value> {
    map[
      BoundsType := Text("OBS_BOUNDS_SCALE_INNER"),
      BoundsWidth := Number(canvas.width),
      BoundsHeight := Number(canvas.height),
      BoundsAlignment := Number(0.0),
      Alignment := Number(5.0),
      PositionX := Number(0.0),
      PositionY := Number(0.0),
      Rotation := Number(0.0)]
  }

  function Target(desired: map<FitKey, Value>, key: Key): Value {
    match key
    case Muted => Bool(true)
    case Tracks => Object(map[
      "1" := Bool(false), "2" := Bool(false), "3" := Bool(false),
      "4" := Bool(false), "5" := Bool(false), "6" := Bool(false)])
    case Transform(fit) => if fit in desired then desired[fit] else Null
  }

  /** The fields that preparation has to change, in the order in which it changes them. */
  function Changes(same: Compare, state: State, desired: map<FitKey, Value>, keys: seq<Key>): seq<Change> {
    if keys == [] then []
    else
      var key := keys[0];
      var rest := Changes(same, state, desired, keys[1..]);
      if same(key, state.At(key), Target(desired, key)) then rest
      else [Change(key, state.At(key), Target(desired, key))] + rest
  }

  predicate Unchanged(same: Compare, now: State, expected: State) {
    forall i | 0 <= i < |KEYS| :: same(KEYS[i], now.At(KEYS[i]), expected.At(KEYS[i]))
  }

  predicate Matches(same: Compare, state: State, changes: seq<Change>, after: bool) {
    forall i | 0 <= i < |changes| ::
      same(changes[i].key, state.At(changes[i].key), if after then changes[i].after else changes[i].before)
  }

  predicate Prepared(same: Compare, state: State, desired: map<FitKey, Value>) {
    forall i | 0 <= i < |KEYS| :: same(KEYS[i], state.At(KEYS[i]), Target(desired, KEYS[i]))
  }

  /** All six tracks are off. */
  predicate Silent(value: Value) {
    value.Object? && value.members.Keys == {"1", "2", "3", "4", "5", "6"} && forall track | track in value.members :: value.members[track] == Bool(false)
  }

  /** The value of a transform field is that of a capture which fills the canvas. */
  predicate FieldFits(single: Rounding, canvas: Canvas, fit: FitKey, value: Value) {
    match fit
    case BoundsType => value == Text("OBS_BOUNDS_SCALE_INNER")
    case BoundsWidth => About(single, value, canvas.width)
    case BoundsHeight => About(single, value, canvas.height)
    case BoundsAlignment | Rotation => About(single, value, 0.0)
    case Alignment => About(single, value, 5.0)
    case PositionX | PositionY => AtOrigin(value)
  }

  /** What a restricted demo is: muted, on no track, and fitted to the canvas. */
  ghost predicate Restricted(single: Rounding, state: State, canvas: Canvas) {
    && state.At(Muted) == Bool(true)
    && Silent(state.At(Tracks))
    && forall fit: FitKey :: FieldFits(single, canvas, fit, state.At(Transform(fit)))
  }

  lemma SilentExactly(value: Value)
    ensures Same(value, Target(map[], Tracks)) <==> Silent(value)
  {
    var off := Target(map[], Tracks);
    assert off.members.Keys == {"1", "2", "3", "4", "5", "6"};
    assert |off.members| == |off.members.Keys|;
    if value.Object? {
      assert |value.members| == |value.members.Keys|;
      if Same(value, off) {
        KeysAgree(value.members, off.members);
        forall track | track in value.members ensures value.members[track] == Bool(false) {
          assert Same(value.members[track], off.members[track]);
        }
      }
    }
  }

  lemma Positions(fit: FitKey)
    ensures FitName(fit) in {"positionX", "positionY"} <==> fit in {PositionX, PositionY}
  {
    assert "positionX"[0] == "positionY"[0] == 'p';
    assert "boundsType"[0] == "boundsWidth"[0] == "boundsHeight"[0] == "boundsAlignment"[0] == 'b';
    assert "alignment"[0] == 'a' && "rotation"[0] == 'r';
  }

  lemma AboutExactly(single: Rounding, fit: FitKey, value: Value, number: real)
    requires fit !in {PositionX, PositionY}
    ensures FieldCompare(single)(Transform(fit), value, Number(number)) <==> About(single, value, number)
  {
    hide FitName;
    Positions(fit);
    NumberMeans(single, FitName(fit), value, number);
  }

  lemma AtOriginExactly(single: Rounding, fit: FitKey, value: Value)
    requires fit in {PositionX, PositionY}
    ensures FieldCompare(single)(Transform(fit), value, Number(0.0)) <==> AtOrigin(value)
  {
    hide FitName;
    Positions(fit);
    OriginMeans(single, FitName(fit), value);
  }

  /** The final check looks at every field, in whatever order. */
  lemma PreparedMeansAll(same: Compare, state: State, desired: map<FitKey, Value>)
    ensures Prepared(same, state, desired) <==> forall k :: same(k, state.At(k), Target(desired, k))
  {
    hide Target, State.At;
    if Prepared(same, state, desired) {
      forall k ensures same(k, state.At(k), Target(desired, k)) {
        KnownKey(k);
        var i :| 0 <= i < |KEYS| && KEYS[i] == k;
        assert same(KEYS[i], state.At(KEYS[i]), Target(desired, KEYS[i]));
      }
    }
  }

  lemma KnownKey(k: Key)
    ensures k in KEYS
  {
    var i := match k
      case Muted => 0
      case Tracks => 1
      case Transform(BoundsType) => 2
      case Transform(BoundsWidth) => 3
      case Transform(BoundsHeight) => 4
      case Transform(BoundsAlignment) => 5
      case Transform(Alignment) => 6
      case Transform(PositionX) => 7
      case Transform(PositionY) => 8
      case Transform(Rotation) => 9;
    assert KEYS[i] == k;
  }

  lemma BoundsTypeExactly(single: Rounding, value: Value)
    ensures FieldCompare(single)(Transform(BoundsType), value, Text("OBS_BOUNDS_SCALE_INNER")) <==> value == Text("OBS_BOUNDS_SCALE_INNER")
  {
    hide FitName;
  }

  lemma FitFieldExactly(single: Rounding, canvas: Canvas, fit: FitKey, value: Value)
    ensures FieldCompare(single)(Transform(fit), value, Target(FitTo(canvas), Transform(fit))) <==> FieldFits(single, canvas, fit, value)
  {
    hide About, AtOrigin, FieldCompare;
    match fit
    case BoundsType => BoundsTypeExactly(single, value);
    case BoundsWidth => AboutExactly(single, fit, value, canvas.width);
    case BoundsHeight => AboutExactly(single, fit, value, canvas.height);
    case BoundsAlignment | Rotation => AboutExactly(single, fit, value, 0.0);
    case Alignment => AboutExactly(single, fit, value, 5.0);
    case PositionX | PositionY => AtOriginExactly(single, fit, value);
  }

  /** The final check of a preparation decides whether the capture is restricted. */
  lemma PreparedExactly(single: Rounding, state: State, canvas: Canvas)
    ensures Prepared(FieldCompare(single), state, FitTo(canvas)) <==> Restricted(single, state, canvas)
  {
    hide Silent, FieldFits, State.At, Prepared, Target, FieldCompare;
    var same, desired := FieldCompare(single), FitTo(canvas);
    PreparedMeansAll(same, state, desired);
    OtherFieldsExactly(single, state, desired);
    forall fit: FitKey
      ensures same(Transform(fit), state.At(Transform(fit)), Target(desired, Transform(fit))) <==>
              FieldFits(single, canvas, fit, state.At(Transform(fit)))
    {
      FitFieldExactly(single, canvas, fit, state.At(Transform(fit)));
    }
    forall k: Key ensures Restricted(single, state, canvas) ==> same(k, state.At(k), Target(desired, k)) {
      if k.Transform? {
        assert k == Transform(k.fit);
      }
    }
    assert forall fit: FitKey :: Transform(fit).Transform?;
  }

  lemma MutedExactly(value: Value)
    ensures Same(value, Bool(true)) <==> value == Bool(true)
  {
  }

  /** With the comparison of demo.rs, the capture is restricted. */
  ghost predicate ShowsRestricted(same: Compare, state: State, canvas: Canvas) {
    forall single: Rounding | same == FieldCompare(single) :: Restricted(single, state, canvas)
  }

  lemma PreparedShowsRestricted(same: Compare, state: State, canvas: Canvas)
    requires Prepared(same, state, FitTo(canvas))
    ensures ShowsRestricted(same, state, canvas)
  {
    hide Prepared, Restricted;
    forall single: Rounding | same == FieldCompare(single) ensures Restricted(single, state, canvas) {
      PreparedExactly(single, state, canvas);
    }
  }

  lemma OtherFieldsExactly(single: Rounding, state: State, desired: map<FitKey, Value>)
    ensures FieldCompare(single)(Muted, state.At(Muted), Target(desired, Muted)) <==> state.At(Muted) == Bool(true)
    ensures FieldCompare(single)(Tracks, state.At(Tracks), Target(desired, Tracks)) <==> Silent(state.At(Tracks))
  {
    SilentExactly(state.At(Tracks));
    MutedExactly(state.At(Muted));
    hide Silent, Same, State.At;
  }

  /** The digests of a seal are stood for by the texts they are taken of. */
  function SealOf(id: string, endpoint: string): Seal {
    Seal("obs-mcp-preparation-v2", endpoint, id)
  }

  datatype Journal = Journal(id: string, endpoint: string, state: State, changes: seq<Change>, provenance: Provenance) {
    predicate Open() {
      !provenance.completed
    }

    ghost predicate Valid() {
      PreparationJournal.Valid(provenance, SealOf(id, endpoint), |changes|)
    }

    ghost predicate WellFormed(same: Compare) {
      && Valid()
      && (forall i, j | 0 <= i < j < |changes| :: changes[i].key != changes[j].key)
      && (forall i | 0 <= i < |changes| ::
            && changes[i].before == state.At(changes[i].key)
            && !same(changes[i].key, changes[i].before, changes[i].after))
    }

    predicate SameSubject(other: Journal) {
      id == other.id && endpoint == other.endpoint && state == other.state && changes == other.changes
    }
  }

  /** `now` is `was` after `count` further steps of one field. */
  predicate Advanced(was: Journal, now: Journal, index: nat, count: nat) {
    && now == was.(provenance := now.provenance)
    && now.Open()
    && index < |was.provenance.fields| == |now.provenance.fields|
    && now.provenance == was.provenance.(revision := was.provenance.revision + count,
                                         fields := was.provenance.fields[index := now.provenance.fields[index]])
  }

  lemma AdvancedFurther(disk: Disk, a: Journal, b: Journal, c: Journal, index: nat, m: nat, n: nat)
    requires Advanced(a, b, index, m) && Advanced(b, c, index, n)
    ensures Advanced(a, c, index, m + n)
    ensures disk.Published(b).Published(c) == disk.Published(c)
  {
  }

  /** Some changes are those of exactly the fields that differ from what is wanted, each once. */
  ghost predicate Planning(same: Compare, state: State, desired: map<FitKey, Value>, keys: seq<Key>, changes: seq<Change>) {
    && (forall i | 0 <= i < |changes| :: PlannedChange(same, state, desired, keys, changes[i]))
    && (forall i, j | 0 <= i < j < |changes| :: changes[i].key != changes[j].key)
    && (forall k | k in keys && !same(k, state.At(k), Target(desired, k)) ::
          exists i :: 0 <= i < |changes| && changes[i].key == k)
  }

  ghost predicate PlannedChange(same: Compare, state: State, desired: map<FitKey, Value>, keys: seq<Key>, change: Change) {
    && change.key in keys
    && change.before == state.At(change.key) && change.after == Target(desired, change.key)
    && !same(change.key, change.before, change.after)
  }

  lemma {:induction false} ChangesSpec(same: Compare, state: State, desired: map<FitKey, Value>, keys: seq<Key>)
    requires forall i, j | 0 <= i < j < |keys| :: keys[i] != keys[j]
    ensures Planning(same, state, desired, keys, Changes(same, state, desired, keys))
  {
    hide Target, State.At;
    if keys != [] {
      ChangesSpec(same, state, desired, keys[1..]);
      var cs, rest := Changes(same, state, desired, keys), Changes(same, state, desired, keys[1..]);
      if same(keys[0], state.At(keys[0]), Target(desired, keys[0])) {
        WiderPlan(same, state, desired, keys, rest);
      } else {
        LongerPlan(same, state, desired, keys, rest);
      }
    }
  }

  lemma WiderPlan(same: Compare, state: State, desired: map<FitKey, Value>, keys: seq<Key>, rest: seq<Change>)
    requires keys != [] && same(keys[0], state.At(keys[0]), Target(desired, keys[0])) && Planning(same, state, desired, keys[1..], rest)
    ensures Planning(same, state, desired, keys, rest)
  {
    hide Target, State.At;
    assert forall k | k in keys :: k == keys[0] || k in keys[1..];
    forall i | 0 <= i < |rest| ensures PlannedChange(same, state, desired, keys, rest[i]) {
      assert PlannedChange(same, state, desired, keys[1..], rest[i]);
    }
  }

  lemma LongerPlan(same: Compare, state: State, desired: map<FitKey, Value>, keys: seq<Key>, rest: seq<Change>)
    requires keys != [] && !same(keys[0], state.At(keys[0]), Target(desired, keys[0])) && Planning(same, state, desired, keys[1..], rest)
    requires keys[0] !in keys[1..]
    ensures Planning(same, state, desired, keys, [Change(keys[0], state.At(keys[0]), Target(desired, keys[0]))] + rest)
  {
    hide Target, State.At;
    var cs := [Change(keys[0], state.At(keys[0]), Target(desired, keys[0]))] + rest;
    forall i | 0 <= i < |cs| ensures PlannedChange(same, state, desired, keys, cs[i]) {
      if i > 0 {
        assert PlannedChange(same, state, desired, keys[1..], rest[i - 1]);
      }
    }
    forall i | 0 < i < |cs| ensures cs[i].key != keys[0] {
      assert PlannedChange(same, state, desired, keys[1..], rest[i - 1]);
    }
    forall k | k in keys && !same(k, state.At(k), Target(desired, k)) ensures exists i :: 0 <= i < |cs| && cs[i].key == k {
      if k == keys[0] {
        assert cs[0].key == k;
      } else {
        var i :| 0 <= i < |rest| && rest[i].key == k;
        assert cs[i + 1].key == k;
      }
    }
  }

  /** Nothing has to change exactly when the final check would pass already. */
  lemma NothingToChange(same: Compare, state: State, desired: map<FitKey, Value>)
    ensures Changes(same, state, desired, KEYS) == [] <==> Prepared(same, state, desired)
  {
    hide Changes, Target, Prepared;
    ChangesSpec(same, state, desired, KEYS);
    PreparedMeansAll(same, state, desired);
    var changes := Changes(same, state, desired, KEYS);
    forall k ensures changes == [] ==> same(k, state.At(k), Target(desired, k)) {
      KnownKey(k);
    }
    if changes != [] {
      assert PlannedChange(same, state, desired, KEYS, changes[0]);
    }
  }

  /** The place of a field in a preparation: sound first, then the fields of the transform. */
  ghost function Place(key: Key): nat {
    match key
    case Muted => 0
    case Tracks => 1
    case Transform(BoundsType) => 2
    case Transform(BoundsWidth) => 3
    case Transform(BoundsHeight) => 4
    case Transform(BoundsAlignment) => 5
    case Transform(Alignment) => 6
    case Transform(PositionX) => 7
    case Transform(PositionY) => 8
    case Transform(Rotation) => 9
  }

  ghost predicate InPlace(changes: seq<Change>) {
    forall i, j | 0 <= i < j < |changes| :: Place(changes[i].key) < Place(changes[j].key)
  }

  lemma {:induction false} ChangesKeepOrder(same: Compare, state: State, desired: map<FitKey, Value>, keys: seq<Key>)
    requires forall i, j | 0 <= i < j < |keys| :: Place(keys[i]) < Place(keys[j])
    ensures InPlace(Changes(same, state, desired, keys))
  {
    hide Target, State.At, Place;
    if keys != [] {
      ChangesKeepOrder(same, state, desired, keys[1..]);
      ChangesSpec(same, state, desired, keys[1..]);
      var rest := Changes(same, state, desired, keys[1..]);
      forall i | 0 <= i < |rest| ensures Place(keys[0]) < Place(rest[i].key) {
        assert PlannedChange(same, state, desired, keys[1..], rest[i]);
      }
    }
  }

  /** A capture is silenced before it is fitted, and fitted field by field. */
  lemma ChangesInOrder(same: Compare, state: State, desired: map<FitKey, Value>)
    ensures InPlace(Changes(same, state, desired, KEYS))
  {
    forall i | 0 <= i < |KEYS| ensures Place(KEYS[i]) == i {
    }
    hide Place;
    ChangesKeepOrder(same, state, desired, KEYS);
  }

  lemma {:induction false} FewChanges(same: Compare, state: State, desired: map<FitKey, Value>, keys: seq<Key>)
    ensures |Changes(same, state, desired, keys)| <= |keys|
  {
    if keys != [] {
      FewChanges(same, state, desired, keys[1..]);
    }
  }

  // ----- The disk -----

  /** `doubt` holds the publications of this process that may or may not be visible. */
  datatype Disk = Disk(store: map<string, Journal>, doubt: map<string, Journal>) {
    predicate MayHold(journal: Journal) {
      || (journal.id in store && store[journal.id] == journal)
      || (journal.id in doubt && doubt[journal.id] == journal)
    }

    function Published(journal: Journal): Disk {
      Disk(store[journal.id := journal], doubt)
    }

    function Doubted(journal: Journal): Disk {
      Disk(store, doubt[journal.id := journal])
    }
  }

  /** What the store demands before it publishes `journal`. */
  ghost predicate Acceptable(disk: Disk, journal: Journal) {
    && journal.id !in disk.doubt
    && journal.Valid()
    && if journal.id in disk.store
       then disk.store[journal.id].SameSubject(journal) && Follows(disk.store[journal.id].provenance, journal.provenance)
       else journal.provenance == New(SealOf(journal.id, journal.endpoint), |journal.changes|)
  }

  ghost predicate DiskSound(same: Compare, disk: Disk) {
    forall j | disk.MayHold(j) :: j.WellFormed(same)
  }

  ghost predicate DiskKeyed(disk: Disk) {
    && (forall id | id in disk.store :: disk.store[id].id == id)
    && (forall id | id in disk.doubt :: disk.doubt[id].id == id)
  }

  // ----- Writes handed to OBS -----

  /** One write handed to the socket; `attempt` is None for preparation and counts recoveries. */
  datatype Send = Send(journal: Journal, index: nat, attempt: Option<nat>, found: Value, value: Value) {
    function Target(): (string, nat, Option<nat>) {
      (journal.id, index, attempt)
    }
  }

  /** The write is covered by a write-ahead mark in `p`. */
  predicate Marked(p: Provenance, index: nat, attempt: Option<nat>) {
    && index < |p.fields|
    && match attempt
       case None => p.fields[index].preparation.Some? && p.fields[index].preparation.value.MayHaveBeenSent()
       case Some(k) => k < |p.fields[index].recovery| && p.fields[index].recovery[k].MayHaveBeenSent()
  }

  /** Whatever a restart finds on disk, the write is marked there. */
  predicate Covered(disk: Disk, send: Send) {
    && send.journal.id in disk.store
    && Marked(disk.store[send.journal.id].provenance, send.index, send.attempt)
    && (send.journal.id in disk.doubt ==> Marked(disk.doubt[send.journal.id].provenance, send.index, send.attempt))
  }

  ghost predicate WriteAhead(disk: Disk, sends: seq<Send>) {
    forall n | 0 <= n < |sends| :: Covered(disk, sends[n])
  }

  ghost function Targets(sends: seq<Send>): set<(string, nat, Option<nat>)> {
    set n | 0 <= n < |sends| :: sends[n].Target()
  }

  /** No two writes have the same target. */
  ghost predicate NeverRepeated(sends: seq<Send>) {
    |Targets(sends)| == |sends|
  }

  lemma {:induction false} NeverRepeatedMeansDistinct(sends: seq<Send>)
    ensures |Targets(sends)| <= |sends|
    ensures NeverRepeated(sends) <==> forall a, b | 0 <= a < b < |sends| :: sends[a].Target() != sends[b].Target()
  {
    if sends != [] {
      var last := |sends| - 1;
      NeverRepeatedMeansDistinct(sends[..last]);
      assert Targets(sends) == Targets(sends[..last]) + {sends[last].Target()};
    }
  }

  lemma NewTarget(sends: seq<Send>, send: Send)
    requires NeverRepeated(sends) && send.Target() !in Targets(sends)
    ensures NeverRepeated(sends + [send])
  {
    var more := sends + [send];
    assert more[|sends|] == send && forall n | 0 <= n < |sends| :: more[n] == sends[n];
    assert Targets(more) == Targets(sends) + {send.Target()};
  }

  /** The reason a write was allowed, read off the journal that was durable when it left. */
  ghost predicate Justified(same: Compare, send: Send) {
    var p, changes := send.journal.provenance, send.journal.changes;
    && send.index < |p.fields| == |changes|
    && var field, change := p.fields[send.index], changes[send.index];
       match send.attempt
       case None =>
         && send.value == change.after
         && field.PreparationStatus() == Some(PossibleDispatch)
         && OwnedBefore(p.fields, send.index)
         && (forall i | send.index < i < |p.fields| :: p.fields[i] == Field(None, []))
         && same(change.key, send.found, change.before)
       case Some(k) =>
         && send.value == change.before
         && field.OwnsRestore()
         && k + 1 == |field.recovery|
         && field.RecoveryStatus() == Some(PossibleDispatch)
         && (forall a | 0 <= a < k :: Settled(field.recovery[a].Status()))
         && RestoredBefore(p.fields, send.index)
         && (exists seen :: same(change.key, send.found, seen) && same(change.key, seen, change.after))
  }

  /** Publication only ever adds marks. */
  lemma MarksStay(p: Provenance, q: Provenance, index: nat, attempt: Option<nat>)
    requires Follows(p, q) && Marked(p, index, attempt)
    ensures Marked(q, index, attempt)
  {
    assert p.fields[index] != q.fields[index] ==>
        FieldExtends(p.fields[index], q.fields[index], !NoRecovery(p.fields));
  }

  lemma PublishKeepsWriteAhead(disk: Disk, journal: Journal, sends: seq<Send>, doubted: bool)
    requires DiskKeyed(disk) && WriteAhead(disk, sends) && Acceptable(disk, journal)
    ensures WriteAhead(if doubted then disk.Doubted(journal) else disk.Published(journal), sends)
  {
    forall n | 0 <= n < |sends| && sends[n].journal.id == journal.id
      ensures Marked(journal.provenance, sends[n].index, sends[n].attempt)
    {
      var kept := disk.store[journal.id];
      assert Covered(disk, sends[n]);
      MarksStay(kept.provenance, journal.provenance, sends[n].index, sends[n].attempt);
    }
  }

  /** The disk and the writes ever handed over agree. */
  ghost predicate Consistent(same: Compare, disk: Disk, sends: seq<Send>) {
    && DiskKeyed(disk)
    && DiskSound(same, disk)
    && WriteAhead(disk, sends)
    && NeverRepeated(sends)
    && AllJustified(same, sends)
  }

  ghost predicate AllJustified(same: Compare, sends: seq<Send>) {
    forall n | 0 <= n < |sends| :: Justified(same, sends[n])
  }

  lemma PublishKeepsConsistent(same: Compare, disk: Disk, journal: Journal, sends: seq<Send>, doubted: bool)
    requires Consistent(same, disk, sends) && Acceptable(disk, journal) && journal.WellFormed(same)
    ensures Consistent(same, if doubted then disk.Doubted(journal) else disk.Published(journal), sends)
  {
    PublishKeepsWriteAhead(disk, journal, sends, doubted);
  }

  lemma SendKeepsConsistent(same: Compare, disk: Disk, sends: seq<Send>, send: Send)
    requires Consistent(same, disk, sends)
    requires Covered(disk, send) && Justified(same, send) && send.Target() !in Targets(sends)
    ensures Consistent(same, disk, sends + [send])
  {
    NewTarget(sends, send);
  }

  /** An attempt that the stored journal does not mark has not been sent. */
  lemma UnmarkedIsUnsent(disk: Disk, sends: seq<Send>, id: string, index: nat, attempt: Option<nat>)
    requires WriteAhead(disk, sends) && id in disk.store
    requires !Marked(disk.store[id].provenance, index, attempt)
    ensures (id, index, attempt) !in Targets(sends)
  {
  }

  // ----- What the disk says about OBS when nobody else writes -----

  predicate FieldExplains(field: Field, change: Change, value: Value) {
    if field.Restored() then value == change.before
    else if field.Uncertain() then value == change.before || value == change.after
    else if field.OwnsRestore() then value == change.after
    else value == change.before
  }

  /** `live` is the state before preparation, up to what the journal records. */
  ghost predicate Explains(journal: Journal, live: State) {
    && |journal.provenance.fields| == |journal.changes|
    && live.identity == journal.state.identity
    && (forall i | 0 <= i < |journal.changes| ::
          FieldExplains(journal.provenance.fields[i], journal.changes[i], live.At(journal.changes[i].key)))
    && (forall k | k !in ChangedKeys(journal.changes) :: live.At(k) == journal.state.At(k))
  }

  function ChangedKeys(changes: seq<Change>): set<Key> {
    set i | 0 <= i < |changes| :: changes[i].key
  }

  ghost predicate OnlyOpen(disk: Disk, endpoint: string, id: string) {
    forall j | disk.MayHold(j) && j.Open() && j.endpoint == endpoint :: j.id == id
  }

  ghost predicate NoneOpen(disk: Disk, endpoint: string) {
    forall j | disk.MayHold(j) && j.Open() :: j.endpoint != endpoint
  }

  ghost predicate DiskExplains(disk: Disk, endpoint: string, live: State) {
    && (forall j | disk.MayHold(j) && j.Open() && j.endpoint == endpoint :: Explains(j, live))
    && (exists id :: OnlyOpen(disk, endpoint, id))
  }

  /** Recording a step of one field keeps the account, if the field's own value is accounted for. */
  lemma StepKeepsExplains(journal: Journal, p: Provenance, index: nat, live: State)
    requires Explains(journal, live) && index < |journal.changes| && |p.fields| == |journal.changes|
    requires forall i | 0 <= i < |p.fields| && i != index :: p.fields[i] == journal.provenance.fields[i]
    requires FieldExplains(p.fields[index], journal.changes[index], live.At(journal.changes[index].key))
    ensures Explains(journal.(provenance := p), live)
  {
  }

  lemma PublishKeepsExplains(disk: Disk, journal: Journal, endpoint: string, live: State, doubted: bool)
    requires DiskExplains(disk, endpoint, live)
    requires journal.Open() && journal.endpoint == endpoint ==>
               Explains(journal, live) && OnlyOpen(disk, endpoint, journal.id)
    ensures DiskExplains(if doubted then disk.Doubted(journal) else disk.Published(journal), endpoint, live)
  {
    var next := if doubted then disk.Doubted(journal) else disk.Published(journal);
    assert forall l | next.MayHold(l) :: l == journal || disk.MayHold(l);
    if journal.Open() && journal.endpoint == endpoint {
      assert OnlyOpen(next, endpoint, journal.id);
    } else {
      var id :| OnlyOpen(disk, endpoint, id);
      assert OnlyOpen(next, endpoint, id);
    }
  }

  /** An open journal on disk is the only one. */
  lemma OpenIsOnly(disk: Disk, endpoint: string, live: State, journal: Journal)
    requires DiskExplains(disk, endpoint, live) && disk.MayHold(journal) && journal.Open() && journal.endpoint == endpoint
    ensures Explains(journal, live) && OnlyOpen(disk, endpoint, journal.id)
  {
  }

  /** A write to a field whose delivery is marked as possible stays accounted for. */
  lemma WriteKeepsExplains(disk: Disk, journal: Journal, endpoint: string, live: State, index: nat, value: Value)
    requires DiskKeyed(disk) && DiskExplains(disk, endpoint, live)
    requires journal.id in disk.store && disk.store[journal.id] == journal && journal.id !in disk.doubt
    requires journal.Open() && journal.endpoint == endpoint && index < |journal.changes|
    requires forall i, j | 0 <= i < j < |journal.changes| :: journal.changes[i].key != journal.changes[j].key
    requires |journal.provenance.fields| == |journal.changes|
    requires journal.provenance.fields[index].Uncertain() && !journal.provenance.fields[index].Restored()
    requires value in {journal.changes[index].before, journal.changes[index].after}
    ensures DiskExplains(disk, endpoint, live.With(journal.changes[index].key, value))
  {
    assert disk.MayHold(journal);
    OpenIsOnly(disk, endpoint, live, journal);
    forall j | disk.MayHold(j) && j.Open() && j.endpoint == endpoint
      ensures Explains(j, live.With(journal.changes[index].key, value))
    {
      assert j == journal;
      assert Explains(journal, live);
    }
  }

  /** Once every field is restored, OBS is back in the state before preparation. */
  lemma RestoredMeansBefore(same: Compare, journal: Journal, live: State)
    requires journal.WellFormed(same) && Explains(journal, live) && journal.provenance.AllRestored()
    ensures live.identity == journal.state.identity
    ensures forall k :: live.At(k) == journal.state.At(k)
  {
    forall k ensures live.At(k) == journal.state.At(k) {
      if i :| 0 <= i < |journal.changes| && journal.changes[i].key == k {
        assert FieldExplains(journal.provenance.fields[i], journal.changes[i], live.At(k));
      }
    }
  }

  // ----- Delivering one field: intent, mark, terminal step -----

  function BeginOp(index: nat, recovery: bool, fence: Fence): Op {
    if recovery then OpRecover(index, fence) else OpPrepare(index, fence)
  }

  /** The attempt that a delivery of field `index` is about. */
  function AttemptOf(field: Field, recovery: bool): Option<nat> {
    if recovery && field.recovery != [] then Some(|field.recovery| - 1) else None
  }

  function StatusOf(field: Field, recovery: bool): Option<Step> {
    if recovery then field.RecoveryStatus() else field.PreparationStatus()
  }

  /** The field under delivery, at the given step of its attempt. */
  ghost predicate InFlight(p: Provenance, index: nat, recovery: bool, step: Step) {
    && index < |p.fields|
    && StatusOf(p.fields[index], recovery) == Some(step)
    && (if recovery
        then p.fields[index].OwnsRestore() && RestoredBefore(p.fields, index) && p.fields[index].recovery != []
        else NoRecovery(p.fields) && OwnedBefore(p.fields, index))
  }

  /** `q` is `p` after one transition that concerns field `index`. */
  ghost predicate Stepped(p: Provenance, q: Provenance, index: nat) {
    && index < |p.fields| == |q.fields|
    && q == p.(revision := p.revision + 1, fields := p.fields[index := q.fields[index]])
    && !p.completed
  }

  lemma BeginFacts(p: Provenance, index: nat, recovery: bool, fence: Fence, q: Provenance)
    requires Apply(p, BeginOp(index, recovery, fence)) == Ok(q)
    ensures Stepped(p, q, index)
    ensures InFlight(q, index, recovery, Intent)
    ensures !Marked(q, index, AttemptOf(q.fields[index], recovery))
    ensures forall c, v :: FieldExplains(p.fields[index], c, v) ==> FieldExplains(q.fields[index], c, v)
  {
  }

  lemma MarkFacts(p: Provenance, index: nat, recovery: bool, q: Provenance)
    requires InFlight(p, index, recovery, Intent)
    requires Apply(p, OpAdvance(index, recovery, PossibleDispatch)) == Ok(q)
    ensures Stepped(p, q, index)
    ensures InFlight(q, index, recovery, PossibleDispatch)
    ensures AttemptOf(q.fields[index], recovery) == AttemptOf(p.fields[index], recovery)
    ensures Marked(q, index, AttemptOf(q.fields[index], recovery))
    ensures forall c, v :: FieldExplains(p.fields[index], c, v) ==> FieldExplains(q.fields[index], c, v)
  {
  }

  lemma TerminalFacts(p: Provenance, index: nat, recovery: bool, terminal: Step, q: Provenance)
    requires InFlight(p, index, recovery, PossibleDispatch)
    requires Apply(p, OpAdvance(index, recovery, terminal)) == Ok(q)
    ensures Stepped(p, q, index)
    ensures terminal == Accepted ==> DeliveredField(q.fields[index], recovery)
    ensures forall c, v :: FieldExplains(q.fields[index], c, v) <==>
                           if terminal == Unknown then v in {c.before, c.after}
                           else v == if recovery == (terminal == Accepted) then c.before else c.after
  {
  }

  /** The field records an accepted delivery. */
  predicate DeliveredField(field: Field, recovery: bool) {
    if recovery then RestoredField(field) else field.OwnsRestore() && field.recovery == []
  }

  /** The condition under which `index` may be delivered, as seen in the latest sample. */
  ghost predicate Permitted(same: Compare, journal: Journal, index: nat, recovery: bool, sample: State)
    requires index < |journal.changes|
  {
    var change := journal.changes[index];
    if recovery
    then exists seen :: same(change.key, sample.At(change.key), seen) && same(change.key, seen, change.after)
    else same(change.key, sample.At(change.key), change.before)
  }

  lemma MarkedIsJustified(same: Compare, journal: Journal, index: nat, recovery: bool, sample: State)
    requires journal.Valid() && InFlight(journal.provenance, index, recovery, PossibleDispatch)
    requires Permitted(same, journal, index, recovery, sample)
    ensures var change, field := journal.changes[index], journal.provenance.fields[index];
            && Justified(same, Send(journal, index, AttemptOf(field, recovery), sample.At(change.key),
                                    if recovery then change.before else change.after))
            && field.Uncertain() && !field.Restored()
  {
    var fields := journal.provenance.fields;
    assert FieldAccepted(fields, index);
    forall i | index < i < |fields| && !recovery ensures fields[i] == Field(None, []) {
      assert FieldAccepted(fields, i);
      assert !fields[index].OwnsRestore();
    }
  }

  function Written(journal: Journal, index: nat, recovery: bool): Value
    requires index < |journal.changes|
  {
    if recovery then journal.changes[index].before else journal.changes[index].after
  }

  /** The store holds `journal`, and this process trusts the entry. */
  predicate Holds(disk: Disk, journal: Journal) {
    journal.id in disk.store && disk.store[journal.id] == journal && journal.id !in disk.doubt
  }

  lemma HeldIsWellFormed(same: Compare, disk: Disk, sends: seq<Send>, journal: Journal)
    requires Consistent(same, disk, sends) && Holds(disk, journal)
    ensures journal.WellFormed(same) && |journal.provenance.fields| == |journal.changes|
  {
    assert disk.MayHold(journal);
  }

  /** The durable journal marks this attempt, nothing was sent for it yet, and it is justified. */
  ghost predicate Sendable(same: Compare, disk: Disk, sends: seq<Send>, journal: Journal, index: nat, recovery: bool, sample: State) {
    && Holds(disk, journal)
    && journal.Open()
    && index < |journal.changes|
    && InFlight(journal.provenance, index, recovery, PossibleDispatch)
    && (journal.id, index, AttemptOf(journal.provenance.fields[index], recovery)) !in Targets(sends)
    && Permitted(same, journal, index, recovery, sample)
  }

  /** The log entry of the write that a delivery of field `index` hands over. */
  function WriteOf(journal: Journal, index: nat, recovery: bool, found: Value): Send
    requires index < |journal.changes| && index < |journal.provenance.fields|
  {
    Send(journal, index, AttemptOf(journal.provenance.fields[index], recovery), found, Written(journal, index, recovery))
  }

  /** The entry is a write to field `index` of the operation, with the sampled value as the one found. */
  predicate IsWriteOf(send: Send, journal: Journal, index: nat, recovery: bool, sample: State)
    requires index < |journal.changes|
  {
    && send.journal.SameSubject(journal) && send.index == index
    && send.found == sample.At(journal.changes[index].key) && send.value == Written(journal, index, recovery)
  }

  /** Handing the write over keeps the disk and the log consistent, whether or not it takes effect. */
  lemma SendKeeps(same: Compare, disk: Disk, sends: seq<Send>, journal: Journal, index: nat, recovery: bool, sample: State)
    returns (send: Send)
    requires Consistent(same, disk, sends) && Sendable(same, disk, sends, journal, index, recovery, sample)
    ensures send == WriteOf(journal, index, recovery, sample.At(journal.changes[index].key))
    ensures Consistent(same, disk, sends + [send])
    ensures forall live: State :: DiskExplains(disk, journal.endpoint, live) ==>
              DiskExplains(disk, journal.endpoint, live.With(journal.changes[index].key, Written(journal, index, recovery)))
  {
    var key, value, field := journal.changes[index].key, Written(journal, index, recovery), journal.provenance.fields[index];
    assert disk.MayHold(journal);
    MarkedIsJustified(same, journal, index, recovery, sample);
    send := Send(journal, index, AttemptOf(field, recovery), sample.At(key), value);
    SendKeepsConsistent(same, disk, sends, send);
    forall live: State | DiskExplains(disk, journal.endpoint, live)
      ensures DiskExplains(disk, journal.endpoint, live.With(key, value))
    {
      WriteKeepsExplains(disk, journal, journal.endpoint, live, index, value);
    }
  }

  /** While only the intent is recorded, the field still has the value that the write replaces. */
  lemma IntendedValue(disk: Disk, endpoint: string, live: State, journal: Journal, index: nat, recovery: bool)
    requires DiskExplains(disk, endpoint, live) && Holds(disk, journal) && journal.Open() && journal.endpoint == endpoint
    requires index < |journal.changes| && InFlight(journal.provenance, index, recovery, Intent)
    ensures live.At(journal.changes[index].key) == Written(journal, index, !recovery)
  {
    OpenIsOnly(disk, endpoint, live, journal);
    assert FieldExplains(journal.provenance.fields[index], journal.changes[index], live.At(journal.changes[index].key));
  }

  /** Every journal holds the state of the capture when its preparation began. */
  ghost predicate Originals(disk: Disk, begun: map<string, State>) {
    forall j | disk.MayHold(j) :: j.id in begun && begun[j.id] == j.state
  }

  /** No publication under this identity exists. */
  predicate Absent(disk: Disk, id: string) {
    id !in disk.store && id !in disk.doubt
  }

  lemma PublishKeepsOriginals(disk: Disk, journal: Journal, begun: map<string, State>, doubted: bool)
    requires DiskKeyed(disk) && Originals(disk, begun) && Acceptable(disk, journal)
    requires Absent(disk, journal.id) ==> journal.id in begun && begun[journal.id] == journal.state
    ensures Originals(if doubted then disk.Doubted(journal) else disk.Published(journal), begun)
  {
    assert journal.id in disk.store ==> disk.MayHold(disk.store[journal.id]);
  }

  /** `found` is one of the directories a restart may find. */
  ghost predicate MayBecome(disk: Disk, found: Disk) {
    && found.doubt == map[]
    && disk.store.Keys <= found.store.Keys <= disk.store.Keys + disk.doubt.Keys
    && DiskKeyed(found)
    && (forall j | found.MayHold(j) :: disk.MayHold(j))
  }

  lemma RestartKeeps(same: Compare, disk: Disk, found: Disk, sends: seq<Send>)
    requires Consistent(same, disk, sends) && MayBecome(disk, found)
    ensures Consistent(same, found, sends)
  {
    forall n | 0 <= n < |sends| ensures Covered(found, sends[n]) {
      var id := sends[n].journal.id;
      assert found.MayHold(found.store[id]);
    }
  }

  lemma RestartExplains(disk: Disk, found: Disk, endpoint: string, live: State)
    requires MayBecome(disk, found) && DiskExplains(disk, endpoint, live)
    ensures DiskExplains(found, endpoint, live)
  {
    var id :| OnlyOpen(disk, endpoint, id);
    assert OnlyOpen(found, endpoint, id);
  }

  // ----- What the samples of the two workflows establish -----

  lemma EveryKey(key: Key) returns (i: nat)
    ensures i < |KEYS| && KEYS[i] == key
  {
    match key
    case Muted => i := 0;
    case Tracks => i := 1;
    case Transform(fit) =>
      match fit
      case BoundsType => i := 2;
      case BoundsWidth => i := 3;
      case BoundsHeight => i := 4;
      case BoundsAlignment => i := 5;
      case Alignment => i := 6;
      case PositionX => i := 7;
      case PositionY => i := 8;
      case Rotation => i := 9;
  }

  /** The first `count` fields of a state have been read. */
  ghost predicate ReadSoFar(state: State, values: map<Key, Value>, count: nat)
    requires count <= |KEYS|
  {
    && (forall k | k in values :: k in state.values && values[k] == state.values[k])
    && (forall i | 0 <= i < count && KEYS[i] in state.values :: KEYS[i] in values)
  }

  lemma ReadAll(state: State, values: map<Key, Value>)
    requires ReadSoFar(state, values, |KEYS|)
    ensures values == state.values
  {
    forall k | k in state.values ensures k in values {
      var i := EveryKey(k);
    }
  }

  lemma UnchangedAt(same: Compare, now: State, expected: State, key: Key)
    requires Unchanged(same, now, expected)
    ensures same(key, now.At(key), expected.At(key))
  {
    var i := EveryKey(key);
  }

  /** The snapshot confirms the sample; a capture without audio has no audio fields to compare. */
  predicate SnapshotAgrees(same: Compare, videoOnly: bool, taken: State, state: State) {
    && taken.identity == state.identity
    && (videoOnly || (taken.At(Muted) == state.At(Muted) && taken.At(Tracks) == state.At(Tracks)))
    && forall i | 2 <= i < |KEYS| :: same(KEYS[i], taken.At(KEYS[i]), state.At(KEYS[i]))
  }

  /** The capture still shows the identity and the transform of `state`. */
  ghost predicate StillShows(same: Compare, now: State, state: State) {
    now.identity == state.identity && forall fit: FitKey :: same(Transform(fit), now.At(Transform(fit)), state.At(Transform(fit)))
  }

  lemma SnapshotMeans(same: Compare, videoOnly: bool, taken: State, state: State)
    requires SnapshotAgrees(same, videoOnly, taken, state)
    ensures StillShows(same, taken, state)
    ensures !videoOnly ==> taken.At(Muted) == state.At(Muted) && taken.At(Tracks) == state.At(Tracks)
  {
    hide State.At;
    forall fit: FitKey ensures same(Transform(fit), taken.At(Transform(fit)), state.At(Transform(fit))) {
      KnownKey(Transform(fit));
      var i :| 0 <= i < |KEYS| && KEYS[i] == Transform(fit);
      assert i >= 2;
    }
  }

  function FirstJournal(same: Compare, id: string, endpoint: string, state: State, desired: map<FitKey, Value>): Journal {
    var changes := Changes(same, state, desired, KEYS);
    Journal(id, endpoint, state, changes, New(SealOf(id, endpoint), |changes|))
  }

  /** A first journal of a preparation is well formed and describes the sampled state. */
  lemma NewJournal(same: Compare, id: string, endpoint: string, state: State, desired: map<FitKey, Value>)
    ensures var journal := FirstJournal(same, id, endpoint, state, desired);
            journal.WellFormed(same) && journal.Open() && Explains(journal, state)
  {
    ChangesSpec(same, state, desired, KEYS);
    NoEvents(FirstJournal(same, id, endpoint, state, desired).provenance.fields);
  }

  lemma {:induction false} NoEvents(fields: seq<Field>)
    requires forall i | 0 <= i < |fields| :: fields[i] == Field(None, [])
    ensures Events(fields) == 0
  {
    if fields != [] {
      NoEvents(fields[..|fields| - 1]);
    }
  }

  lemma UnchangedReflexive(same: Compare)
    requires Tolerance(same)
    ensures forall state :: Unchanged(same, state, state)
  {
  }

  /** The state expected after `change` has been made or undone. */
  function Moved(state: State, change: Change, after: bool): State {
    state.With(change.key, if after then change.after else change.before)
  }

  function MovedAll(state: State, changes: seq<Change>, after: bool): State {
    if changes == [] then state
    else Moved(MovedAll(state, changes[..|changes| - 1], after), changes[|changes| - 1], after)
  }

  lemma NothingMoved(state: State, after: bool)
    ensures MovedAll(state, [], after) == state
  {
  }

  lemma {:induction false} MovedAllAt(state: State, changes: seq<Change>, after: bool)
    requires forall i, j | 0 <= i < j < |changes| :: changes[i].key != changes[j].key
    ensures MovedAll(state, changes, after).identity == state.identity
    ensures forall i | 0 <= i < |changes| ::
              MovedAll(state, changes, after).At(changes[i].key) == if after then changes[i].after else changes[i].before
    ensures forall k | k !in ChangedKeys(changes) :: MovedAll(state, changes, after).At(k) == state.At(k)
  {
    if changes != [] {
      var most := changes[..|changes| - 1];
      MovedAllAt(state, most, after);
      assert forall i | 0 <= i < |most| :: changes[i] == most[i];
      assert forall k | k !in ChangedKeys(changes) :: k !in ChangedKeys(most);
    }
  }

  /** The state expected before field `index` is prepared, and the one expected after it. */
  lemma MovedAllNext(same: Compare, journal: Journal, index: nat)
    requires journal.WellFormed(same) && index < |journal.changes|
    ensures var expected := MovedAll(journal.state, journal.changes[..index], true);
            && expected.identity == journal.state.identity
            && expected.At(journal.changes[index].key) == journal.changes[index].before
            && Moved(expected, journal.changes[index], true) == MovedAll(journal.state, journal.changes[..index + 1], true)
  {
    var done := journal.changes[..index];
    MovedAllAt(journal.state, done, true);
    assert journal.changes[..index + 1][..index] == done;
  }

  /** A state reached by a complete preparation passes its final check. */
  lemma MovedIsPrepared(same: Compare, state: State, desired: map<FitKey, Value>)
    requires Tolerance(same)
    ensures var changes := Changes(same, state, desired, KEYS);
            var reached := MovedAll(state, changes, true);
            && reached.identity == state.identity
            && Matches(same, reached, changes, true)
            && Prepared(same, reached, desired)
  {
    var changes := Changes(same, state, desired, KEYS);
    var reached := MovedAll(state, changes, true);
    ChangesSpec(same, state, desired, KEYS);
    MovedAllAt(state, changes, true);
    forall i | 0 <= i < |KEYS| ensures same(KEYS[i], reached.At(KEYS[i]), Target(desired, KEYS[i])) {
      if k :| 0 <= k < |changes| && changes[k].key == KEYS[i] {
        assert reached.At(KEYS[i]) == changes[k].after;
      } else {
        assert KEYS[i] !in ChangedKeys(changes);
      }
    }
  }

  /** The fields before `index` are durably prepared and the others are untouched. */
  ghost predicate Preparing(p: Provenance, index: nat) {
    && index <= |p.fields|
    && !p.completed
    && p.revision == 3 * index
    && (forall i | 0 <= i < index :: DeliveredField(p.fields[i], false))
    && (forall i | index <= i < |p.fields| :: p.fields[i] == Field(None, []))
  }

  lemma PreparingNext(was: Journal, now: Journal, index: nat)
    requires Preparing(was.provenance, index) && Advanced(was, now, index, 3)
    requires DeliveredField(now.provenance.fields[index], false)
    ensures Preparing(now.provenance, index + 1)
  {
  }

  lemma PreparingMayBegin(p: Provenance, index: nat, fence: Fence)
    requires Preparing(p, index) && index < |p.fields| && fence.Valid() && 3 * index < MAX_REVISION
    ensures Apply(p, BeginOp(index, false, fence)).Ok? && p.revision == 3 * index
  {
  }

  /** Every owned field shows the expected value. */
  predicate ChangesUnmoved(same: Compare, changes: seq<Change>, now: State, expected: State) {
    forall i | 0 <= i < |changes| :: same(changes[i].key, now.At(changes[i].key), expected.At(changes[i].key))
  }

  /** No attempt to restore the field is under way. */
  predicate Idle(field: Field) {
    field.recovery != [] ==> Settled(field.RecoveryStatus())
  }

  predicate RestoredField(field: Field) {
    field.Restored() && !field.Uncertain()
  }

  /** `now` is `was` without the intent that an interrupted recovery of field `index` left. */
  ghost predicate Cleared(was: Journal, now: Journal, index: nat) {
    && index < |was.provenance.fields| == |now.provenance.fields|
    && (now == was || Advanced(was, now, index, 1))
    && var f, g := was.provenance.fields[index], now.provenance.fields[index];
       && g.preparation == f.preparation
       && |g.recovery| == |f.recovery|
       && Idle(g) && !g.Restored() && !g.Uncertain()
  }

  lemma StatusOfRest(fields: seq<Field>, index: nat)
    requires index < |fields| && FieldAccepted(fields, index)
    requires !fields[index].Restored() && !fields[index].Uncertain()
    ensures fields[index].RecoveryStatus() == Some(Intent) || Idle(fields[index])
  {
  }

  lemma ClearFacts(p: Provenance, index: nat, q: Provenance)
    requires index < |p.fields| && p.fields[index].RecoveryStatus() == Some(Intent) && !p.fields[index].Uncertain()
    requires Apply(p, OpAdvance(index, true, NotDispatched)) == Ok(q)
    ensures Stepped(p, q, index)
    ensures var f, g := p.fields[index], q.fields[index];
            && g.preparation == f.preparation && |g.recovery| == |f.recovery|
            && Idle(g) && !g.Restored() && !g.Uncertain()
    ensures forall c, v :: FieldExplains(p.fields[index], c, v) ==> FieldExplains(q.fields[index], c, v)
  {
  }

  lemma ObserveFacts(p: Provenance, index: nat, fence: Fence, q: Provenance)
    requires Apply(p, OpObserve(index, fence)) == Ok(q)
    ensures Stepped(p, q, index)
    ensures RestoredField(q.fields[index])
    ensures forall c: Change :: FieldExplains(q.fields[index], c, c.before)
  {
  }

  /** The field can take another attempt to restore it. */
  predicate Room(field: Field) {
    field.Restored() || |field.recovery| < 64
  }

  /** The fields before `index` are back, the others are as recovery found them. */
  ghost predicate Recovering(start: Provenance, p: Provenance, index: nat) {
    && index <= |p.fields| == |start.fields|
    && !p.completed && !p.Uncertain()
    && p.revision <= start.revision + 4 * index
    && RestoredBefore(p.fields, index)
    && (forall i | index <= i < |p.fields| :: p.fields[i] == start.fields[i])
  }

  /** As `Recovering`, with field `index` ready for another attempt. */
  ghost predicate Ready(start: Provenance, p: Provenance, index: nat) {
    && index < |p.fields| == |start.fields|
    && !p.completed && !p.Uncertain()
    && p.revision <= start.revision + 4 * index + 1
    && RestoredBefore(p.fields, index)
    && Idle(p.fields[index]) && !p.fields[index].Restored()
    && (forall i | index < i < |p.fields| :: p.fields[i] == start.fields[i])
  }

  lemma RecoveringFacts(start: Provenance, p: Provenance, index: nat)
    requires Recovering(start, p, index) && index < |p.fields|
    ensures !p.completed && !p.fields[index].Uncertain()
    ensures p.fields[index].Restored() ==> Recovering(start, p, index + 1)
  {
  }

  lemma ClearedIsReady(start: Provenance, was: Journal, now: Journal, index: nat)
    requires Recovering(start, was.provenance, index) && Cleared(was, now, index)
    ensures Ready(start, now.provenance, index)
  {
  }

  lemma ReadyFacts(start: Provenance, p: Provenance, index: nat)
    requires Ready(start, p, index)
    ensures !p.completed && RestoredBefore(p.fields, index) && !p.fields[index].Uncertain() && !p.fields[index].Restored()
    ensures p.revision < MAX_REVISION && p.fields[index].OwnsRestore() && Room(p.fields[index]) ==>
              forall fence: Fence | fence.Valid() :: Apply(p, BeginOp(index, true, fence)).Ok?
  {
  }

  lemma ReadyNext(start: Provenance, was: Journal, now: Journal, index: nat, count: nat)
    requires Ready(start, was.provenance, index) && Advanced(was, now, index, count)
    requires count <= 3 && RestoredField(now.provenance.fields[index])
    ensures Recovering(start, now.provenance, index + 1)
  {
  }

  /** No field shows a value that the journal cannot account for. */
  predicate NoConflict(same: Compare, journal: Journal, state: State) {
    && |journal.provenance.fields| == |journal.changes|
    && forall i | 0 <= i < |journal.changes| :: FieldUndisputed(same, journal.provenance.fields[i], journal.changes[i], state)
  }

  predicate FieldUndisputed(same: Compare, field: Field, change: Change, state: State) {
    || same(change.key, state.At(change.key), change.before)
    || (!field.Restored() && field.OwnsRestore() && same(change.key, state.At(change.key), change.after))
  }

  lemma RecoveringField(same: Compare, start: Journal, now: Journal, index: nat, state: State)
    requires Recovering(start.provenance, now.provenance, index) && now.changes == start.changes
    requires NoConflict(same, start, state) && index < |start.changes|
    ensures index < |now.provenance.fields| == |now.changes|
    ensures now.provenance.fields[index] == start.provenance.fields[index]
    ensures FieldUndisputed(same, now.provenance.fields[index], now.changes[index], state)
    ensures now.provenance.revision <= start.provenance.revision + 4 * index
  {
  }

  lemma OtherKeys(same: Compare, journal: Journal, index: nat)
    requires journal.WellFormed(same) && index < |journal.changes|
    ensures forall i | index < i < |journal.changes| :: journal.changes[i].key != journal.changes[index].key
  {
  }

  lemma ClearedIsUndisputed(same: Compare, was: Journal, now: Journal, index: nat, state: State)
    requires Cleared(was, now, index) && index < |was.changes|
    requires FieldUndisputed(same, was.provenance.fields[index], was.changes[index], state)
    ensures now.changes == was.changes
    ensures FieldUndisputed(same, now.provenance.fields[index], now.changes[index], state)
  {
  }

  /** Without other writers, a journal that is not uncertain is never in conflict with OBS. */
  lemma QuietHasNoConflict(same: Compare, journal: Journal, live: State)
    requires Tolerance(same) && Explains(journal, live) && !journal.provenance.Uncertain()
    ensures NoConflict(same, journal, live)
  {
  }

  /** Without other writers, a field that shows its old value was never changed. */
  lemma ObservedBeforeIsExact(same: Compare, journal: Journal, live: State, index: nat)
    requires Tolerance(same) && journal.WellFormed(same) && Explains(journal, live) && index < |journal.changes|
    requires !journal.provenance.fields[index].Uncertain()
    requires same(journal.changes[index].key, live.At(journal.changes[index].key), journal.changes[index].before)
    ensures live.At(journal.changes[index].key) == journal.changes[index].before
  {
    assert FieldExplains(journal.provenance.fields[index], journal.changes[index], live.At(journal.changes[index].key));
  }
}
