/**
 The Apply Scene planner (apply_scene.rs): what has to be done so that a scene shows the listed
 sources as described. `Plan` states the result, `BuildPlan` computes it the way the service does.
 */
module ApplyPlan {
  import opened Common
  import opened SceneValues

  datatype Spec = Spec(
    name: string,
    kind: Option<string>,
    settings: Option<map<string, Value>>,
    visible: Option<bool>,
    locked: Option<bool>,
    muted: Option<bool>,
    volumeDb: Option<real>,
    tracks: Option<set<nat>>,
    fit: bool,
    transform: map<string, Value>)
  {
    /** An empty kind counts as none. */
    function Kind(): Option<string> {
      if kind == Some("") then None else kind
    }

    function Visible(): bool {
      visible.None? || visible.value
    }

    function Settings(): map<string, Value> {
      if settings.Some? then settings.value else map[]
    }
  }

  datatype Request = Request(sceneName: string, sources: seq<Spec>, order: bool, removeOthers: bool, apply: bool) {
    predicate NeedsCanvas() {
      exists i | 0 <= i < |sources| :: sources[i].fit
    }

    function Names(): set<string> {
      set i | 0 <= i < |sources| :: sources[i].name
    }

    /** What parsing promises of the values. */
    predicate Parsed() {
      && 1 <= |sources| <= 50
      && sceneName != ""
      && forall i | 0 <= i < |sources| :: sources[i].name != "" && ParsedTransform(sources[i].transform)
    }

    /** Each source is listed once, and none is the scene itself. */
    predicate Distinct() {
      && (forall i, j | 0 <= i < j < |sources| :: sources[i].name != sources[j].name)
      && (forall i | 0 <= i < |sources| :: sources[i].name != sceneName)
    }
  }

  /** Every transform field but the bounds type is a number. */
  predicate ParsedTransform(transform: map<string, Value>) {
    forall k | k in transform :: if k == "boundsType" then transform[k].Text? else transform[k].Number?
  }

  /** An input as OBS reports it. `volumeDb` is the level that the reported multiplier amounts to. */
  datatype Input = Input(kind: string, settings: map<string, Value>, muted: Option<bool>, volumeDb: Option<real>, tracks: set<nat>)

  datatype Item = Item(id: nat, source: string, index: real, enabled: bool, locked: bool, transform: map<string, Value>)

  datatype Current = Current(
    sceneExists: bool,
    sceneNames: set<string>,
    kinds: map<string, string>,
    items: seq<Item>,
    inputs: map<string, Input>,
    video: Option<Canvas>)

  datatype Effect =
    | CreateScene(scene: string)
    | CreateInput(scene: string, input: string, kind: string, settings: map<string, Value>, enabled: bool)
    | CreateItem(scene: string, input: string, enabled: bool)
    | SettingsOverlay(input: string, settings: map<string, Value>)
    | Mute(input: string, muted: bool)
    | VolumeDb(input: string, db: real)
    | AudioTracks(input: string, tracks: set<nat>)
    | Enabled(scene: string, id: nat, enabled: bool)
    | Locked(scene: string, id: nat, locked: bool)
    | Transform(scene: string, id: nat, transform: map<string, Value>)
    | RemoveItem(scene: string, id: nat)
    | Index(scene: string, id: nat, index: nat)

  datatype Phase = Create | Change

  /** `effect` is None for a change that has to wait until its item exists. */
  datatype Action = Action(target: string, phase: Phase, effect: Option<Effect>)

  datatype Problem = Repeated(name: string) | IsScene(name: string) | WrongKind(name: string) | NoKind(name: string)

  datatype Plan = Plan(actions: seq<Action>, errors: seq<Problem>)

  /** The comparisons of settings and of transform fields. */
  datatype Judge = Judge(setting: (Value, Value) -> bool, transform: (string, Value, Value) -> bool) {
    ghost predicate Reflexive() {
      && (forall v :: setting(v, v))
      && (forall k, v :: transform(k, v, v))
    }
  }

  function SourceJudge(single: Rounding): Judge {
    Judge((a, b) => Same(a, b), (k, a, b) => SameTransform(single, k, a, b))
  }

  lemma SourceJudgeIsReflexive(single: Rounding)
    ensures SourceJudge(single).Reflexive()
  {
    var judge := SourceJudge(single);
    forall v ensures judge.setting(v, v) {
      SameReflexive(v);
    }
    forall k, v ensures judge.transform(k, v, v) {
      SameTransformTolerant(single, k, v, v);
    }
  }

  // ----- One source -----

  function FindItem(items: seq<Item>, name: string): Option<Item> {
    if items == [] then None
    else if items[0].source == name then Some(items[0])
    else FindItem(items[1..], name)
  }

  function InputOf(current: Current, name: string): Option<Input> {
    if name in current.inputs then Some(current.inputs[name]) else None
  }

  function When(needed: bool, name: string, effect: Effect): seq<Action> {
    if needed then [Action(name, Change, Some(effect))] else []
  }

  function WhenItem(needed: bool, name: string, effect: Option<Effect>): seq<Action> {
    if needed then [Action(name, Change, effect)] else []
  }

  function ListedMore(sources: seq<Spec>, scenes: set<string>, scene: string, index: nat): seq<Problem>
    requires index < |sources|
  {
    (if exists j | 0 <= j < index :: sources[j].name == sources[index].name then [Repeated(sources[index].name)] else [])
    + (if sources[index].name in scenes || sources[index].name == scene then [IsScene(sources[index].name)] else [])
  }

  function NameErrors(sources: seq<Spec>, scenes: set<string>, scene: string, count: nat): seq<Problem>
    requires count <= |sources|
  {
    if count == 0 then []
    else NameErrors(sources, scenes, scene, count - 1) + ListedMore(sources, scenes, scene, count - 1)
  }

  function SourceError(current: Current, spec: Spec): Option<Problem> {
    if spec.name in current.kinds then
      if spec.Kind().Some? && spec.Kind().value != current.kinds[spec.name] then Some(WrongKind(spec.name)) else None
    else if spec.Kind().None? then Some(NoKind(spec.name))
    else None
  }

  predicate SettingsDiffer(judge: Judge, wanted: map<string, Value>, found: map<string, Value>) {
    exists k | k in wanted :: !(k in found && judge.setting(wanted[k], found[k]))
  }

  predicate VolumeDiffers(wanted: real, found: Option<real>) {
    Distance(if found.Some? then found.value else 0.0, wanted) > 0.1
  }

  /** Only the six tracks of OBS are compared. */
  predicate TracksDiffer(wanted: set<nat>, found: set<nat>) {
    exists track: nat | 1 <= track <= 6 :: (track in wanted) != (track in found)
  }

  function TrackFlags(wanted: set<nat>): set<nat> {
    set track: nat | 1 <= track <= 6 && track in wanted
  }

  function FitTransform(canvas: Canvas): map<string, Value> {
    map[
      "boundsType" := Text("OBS_BOUNDS_SCALE_INNER"),
      "boundsWidth" := Number(canvas.width),
      "boundsHeight" := Number(canvas.height),
      "boundsAlignment" := Number(0.0),
      "alignment" := Number(5.0),
      "positionX" := Number(0.0),
      "positionY" := Number(0.0)]
  }

  function WantedTransform(spec: Spec, video: Option<Canvas>): map<string, Value> {
    (if spec.fit && video.Some? then FitTransform(video.value) else map[]) + spec.transform
  }

  predicate TransformDiffers(judge: Judge, wanted: map<string, Value>, item: Option<Item>) {
    exists k | k in wanted :: !(item.Some? && k in item.value.transform && judge.transform(k, wanted[k], item.value.transform[k]))
  }

  /** Making the source exist in the scene. */
  function Creation(scene: string, current: Current, spec: Spec): seq<Action> {
    if spec.name !in current.kinds then
      if spec.Kind().None? then []
      else [Action(spec.name, Create, Some(CreateInput(scene, spec.name, spec.Kind().value, spec.Settings(), spec.Visible())))]
    else if FindItem(current.items, spec.name).None? then
      [Action(spec.name, Create, Some(CreateItem(scene, spec.name, spec.Visible())))]
    else []
  }

  function SettingsChange(judge: Judge, known: bool, spec: Spec, input: Option<Input>): seq<Action> {
    When(known && spec.settings.Some? && input.Some? && SettingsDiffer(judge, spec.Settings(), input.value.settings),
         spec.name, SettingsOverlay(spec.name, spec.Settings()))
  }

  function MuteChange(spec: Spec, input: Option<Input>): seq<Action> {
    if spec.muted.None? then []
    else When(input.None? || input.value.muted != spec.muted, spec.name, Mute(spec.name, spec.muted.value))
  }

  function VolumeChange(spec: Spec, input: Option<Input>): seq<Action> {
    if spec.volumeDb.None? then []
    else When(input.None? || VolumeDiffers(spec.volumeDb.value, input.value.volumeDb), spec.name, VolumeDb(spec.name, spec.volumeDb.value))
  }

  function TracksChange(spec: Spec, input: Option<Input>): seq<Action> {
    if spec.tracks.None? then []
    else When(input.None? || TracksDiffer(spec.tracks.value, input.value.tracks), spec.name, AudioTracks(spec.name, TrackFlags(spec.tracks.value)))
  }

  function InputChanges(judge: Judge, current: Current, spec: Spec): seq<Action> {
    var input := InputOf(current, spec.name);
    SettingsChange(judge, spec.name in current.kinds, spec, input) + MuteChange(spec, input) + VolumeChange(spec, input) + TracksChange(spec, input)
  }

  function VisibleChange(scene: string, spec: Spec, item: Option<Item>): seq<Action> {
    if spec.visible.None? || item.None? then []
    else When(item.value.enabled != spec.visible.value, spec.name, Enabled(scene, item.value.id, spec.visible.value))
  }

  function LockChange(scene: string, spec: Spec, item: Option<Item>): seq<Action> {
    if spec.locked.None? then []
    else WhenItem(item.None? || item.value.locked != spec.locked.value, spec.name,
                  if item.None? then None else Some(Locked(scene, item.value.id, spec.locked.value)))
  }

  function TransformChange(judge: Judge, scene: string, spec: Spec, wanted: map<string, Value>, item: Option<Item>): seq<Action> {
    WhenItem(TransformDiffers(judge, wanted, item), spec.name,
             if item.None? then None else Some(Transform(scene, item.value.id, wanted)))
  }

  function ItemChanges(judge: Judge, scene: string, current: Current, spec: Spec): seq<Action> {
    var item := FindItem(current.items, spec.name);
    VisibleChange(scene, spec, item) + LockChange(scene, spec, item)
    + TransformChange(judge, scene, spec, WantedTransform(spec, current.video), item)
  }

  function SourceActions(judge: Judge, scene: string, current: Current, spec: Spec): seq<Action> {
    if SourceError(current, spec).Some? then []
    else Creation(scene, current, spec) + InputChanges(judge, current, spec) + ItemChanges(judge, scene, current, spec)
  }

  function AllSourceActions(judge: Judge, scene: string, current: Current, sources: seq<Spec>): seq<Action> {
    if sources == [] then []
    else AllSourceActions(judge, scene, current, sources[..|sources| - 1])
         + SourceActions(judge, scene, current, sources[|sources| - 1])
  }

  function AllSourceErrors(current: Current, sources: seq<Spec>): seq<Problem> {
    if sources == [] then []
    else
      var last := SourceError(current, sources[|sources| - 1]);
      AllSourceErrors(current, sources[..|sources| - 1]) + if last.Some? then [last.value] else []
  }

  // ----- The scene as a whole -----

  function Removals(scene: string, items: seq<Item>, wanted: set<string>): seq<Action> {
    if items == [] then []
    else
      var last := items[|items| - 1];
      Removals(scene, items[..|items| - 1], wanted)
      + if last.source in wanted then [] else [Action(last.source, Change, Some(RemoveItem(scene, last.id)))]
  }

  /** Bottom to top: the items by index, equal ones in the order reported. */
  function Stacked(items: seq<Item>): seq<Item> {
    if items == [] then [] else Insert(Stacked(items[..|items| - 1]), items[|items| - 1])
  }

  function Insert(stack: seq<Item>, item: Item): seq<Item> {
    if stack == [] || stack[|stack| - 1].index <= item.index then stack + [item]
    else Insert(stack[..|stack| - 1], item) + [stack[|stack| - 1]]
  }

  function Top(stack: seq<Item>, count: nat): seq<Item> {
    if |stack| < count then stack else stack[|stack| - count..]
  }

  predicate AllExist(items: seq<Item>, sources: seq<Spec>) {
    forall i | 0 <= i < |sources| :: FindItem(items, sources[i].name).Some?
  }

  predicate InOrder(top: seq<Item>, sources: seq<Spec>) {
    forall i | 0 <= i < |sources| :: i < |top| && top[i].source == sources[i].name
  }

  function Moves(scene: string, items: seq<Item>, sources: seq<Spec>, index: nat): seq<Action>
    requires AllExist(items, sources)
  {
    if sources == [] then []
    else
      var last := |sources| - 1;
      var item := FindItem(items, sources[last].name);
      Moves(scene, items, sources[..last], index)
      + [Action(sources[last].name, Change, Some(Index(scene, item.value.id, index)))]
  }

  function Ordering(request: Request, items: seq<Item>): seq<Action>
  {
    if !request.order then []
    else if !AllExist(items, request.sources) then [Action(request.sceneName, Change, None)]
    else if request.sources == [] || InOrder(Top(Stacked(items), |request.sources|), request.sources) then []
    else
      assert FindItem(items, request.sources[0].name).Some?;
      Moves(request.sceneName, items, request.sources, (if request.removeOthers then |request.sources| else |items|) - 1)
  }

  function PlanFor(judge: Judge, request: Request, current: Current): Plan {
    Plan(
      (if current.sceneExists then [] else [Action(request.sceneName, Create, Some(CreateScene(request.sceneName)))])
      + AllSourceActions(judge, request.sceneName, current, request.sources)
      + (if request.removeOthers then Removals(request.sceneName, current.items, request.Names()) else [])
      + Ordering(request, current.items),
      NameErrors(request.sources, current.sceneNames, request.sceneName, |request.sources|)
      + AllSourceErrors(current, request.sources))
  }

  // ----- The planner as the service runs it -----

  method CheckNames(request: Request, scenes: set<string>) returns (errors: seq<Problem>)
    ensures errors == NameErrors(request.sources, scenes, request.sceneName, |request.sources|)
  {
    errors := [];
    var seen: set<string> := {};
    for i := 0 to |request.sources|
      invariant errors == NameErrors(request.sources, scenes, request.sceneName, i)
      invariant forall name :: name in seen <==> exists j | 0 <= j < i :: request.sources[j].name == name
    {
      var name := request.sources[i].name;
      if name in seen {
        errors := errors + [Repeated(name)];
      }
      seen := seen + {name};
      if name in scenes || name == request.sceneName {
        errors := errors + [IsScene(name)];
      }
    }
  }

  method PlanSources(judge: Judge, request: Request, current: Current) returns (actions: seq<Action>, errors: seq<Problem>)
    ensures actions == AllSourceActions(judge, request.sceneName, current, request.sources)
    ensures errors == AllSourceErrors(current, request.sources)
  {
    hide InputChanges, ItemChanges, Creation, Spec.Kind;
    var scene := request.sceneName;
    actions, errors := [], [];
    for i := 0 to |request.sources|
      invariant actions == AllSourceActions(judge, scene, current, request.sources[..i])
      invariant errors == AllSourceErrors(current, request.sources[..i])
    {
      var spec := request.sources[i];
      assert request.sources[..i + 1][..i] == request.sources[..i];
      if spec.name in current.kinds && spec.Kind().Some? && spec.Kind().value != current.kinds[spec.name] {
        errors := errors + [WrongKind(spec.name)];
        continue;
      }
      if spec.name !in current.kinds && spec.Kind().None? {
        errors := errors + [NoKind(spec.name)];
        continue;
      }
      actions := actions + (Creation(scene, current, spec) + InputChanges(judge, current, spec) + ItemChanges(judge, scene, current, spec));
    }
    assert request.sources[..|request.sources|] == request.sources;
  }

  method PlanRemovals(scene: string, items: seq<Item>, wanted: set<string>) returns (actions: seq<Action>)
    ensures actions == Removals(scene, items, wanted)
  {
    actions := [];
    for i := 0 to |items|
      invariant actions == Removals(scene, items[..i], wanted)
    {
      assert items[..i + 1][..i] == items[..i];
      if items[i].source !in wanted {
        actions := actions + [Action(items[i].source, Change, Some(RemoveItem(scene, items[i].id)))];
      }
    }
    assert items[..|items|] == items;
  }

  method PlanMoves(scene: string, items: seq<Item>, sources: seq<Spec>, index: nat) returns (actions: seq<Action>)
    requires AllExist(items, sources)
    ensures actions == Moves(scene, items, sources, index)
  {
    actions := [];
    for i := 0 to |sources|
      invariant actions == Moves(scene, items, sources[..i], index)
    {
      assert sources[..i + 1][..i] == sources[..i];
      var item := FindItem(items, sources[i].name).value;
      actions := actions + [Action(sources[i].name, Change, Some(Index(scene, item.id, index)))];
    }
    assert sources[..|sources|] == sources;
  }

  method BuildPlan(judge: Judge, request: Request, current: Current) returns (plan: Plan)
    ensures plan == PlanFor(judge, request, current)
  {
    hide NameErrors, AllSourceActions, AllSourceErrors, Removals, Moves, Stacked;
    var scene := request.sceneName;
    var actions: seq<Action> := [];
    if !current.sceneExists {
      actions := [Action(scene, Create, Some(CreateScene(scene)))];
    }
    var errors := CheckNames(request, current.sceneNames);
    var more, problems := PlanSources(judge, request, current);
    actions, errors := actions + more, errors + problems;
    if request.removeOthers {
      var removals := PlanRemovals(scene, current.items, request.Names());
      actions := actions + removals;
    }
    if request.order {
      if !AllExist(current.items, request.sources) {
        actions := actions + [Action(scene, Change, None)];
      } else if request.sources != [] && !InOrder(Top(Stacked(current.items), |request.sources|), request.sources) {
        assert FindItem(current.items, request.sources[0].name).Some?;
        var index := (if request.removeOthers then |request.sources| else |current.items|) - 1;
        var moves := PlanMoves(scene, current.items, request.sources, index);
        actions := actions + moves;
      }
    }
    plan := Plan(actions, errors);
  }
}
