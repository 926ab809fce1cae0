/**
 The changes of the second plan of Apply Scene, when everything exists: they all succeed, they bring
 every source into line, and what they leave for a third plan depends on the order of the stack alone.
 */
module SceneConvergence {
  import opened Common
  import opened SceneValues
  import opened ApplyPlan
  import opened ApplyChecks
  import opened SceneWorld
  import opened SceneCreation

  /** Everything exists; only values and order can still differ. */
  ghost predicate Complete(w: World, request: Request) {
    && WorldOk(w, request)
    && request.sceneName in w.scenes
    && Undisputed(w, request)
    && (forall k | 0 <= k < |request.sources| :: Exists(w, request.sources[k]))
  }

  lemma CreatedIsComplete(w: World, made: World, request: Request)
    requires Undisputed(w, request) && Created(w, made, request, |request.sources|)
    ensures Complete(made, request)
  {
    forall k | 0 <= k < |request.sources| ensures Exists(made, request.sources[k]) {
    }
  }

  // ----- The second plan -----

  function EntryNamed(stack: seq<Entry>, name: string): Option<Entry> {
    if stack == [] then None
    else if stack[0].source == name then Some(stack[0])
    else EntryNamed(stack[1..], name)
  }

  lemma {:induction false} EntryNamedAt(stack: seq<Entry>, name: string, i: nat)
    requires First(stack, name, i)
    ensures EntryNamed(stack, name) == Some(stack[i])
  {
    if i > 0 {
      assert stack[0].source != name;
      EntryNamedAt(stack[1..], name, i - 1);
    }
  }

  lemma {:induction false} FirstOf(stack: seq<Entry>, name: string, i: nat) returns (first: nat)
    requires i < |stack| && stack[i].source == name
    ensures First(stack, name, first) && first <= i
  {
    if j :| 0 <= j < i && stack[j].source == name {
      first := FirstOf(stack, name, j);
    } else {
      first := i;
    }
  }

  /** The first item of a listed source, and what the planner sees of it. */
  lemma ItemOfSource(w: World, request: Request, k: nat) returns (i: nat)
    requires Complete(w, request) && k < |request.sources|
    ensures First(w.stack, request.sources[k].name, i)
    ensures FindItem(Items(w), request.sources[k].name) == Some(ItemAt(w, i))
    ensures EntryNamed(w.stack, request.sources[k].name) == Some(w.stack[i])
  {
    hide DistinctIds;
    var name := request.sources[k].name;
    assert Exists(w, request.sources[k]);
    var some :| 0 <= some < |w.stack| && w.stack[some].source == name;
    i := FirstOf(w.stack, name, some);
    FindAt(w, name, i);
    EntryNamedAt(w.stack, name, i);
  }

  lemma AllItemsExist(w: World, request: Request)
    requires Complete(w, request)
    ensures AllExist(Items(w), request.sources)
  {
    hide Complete;
    forall k | 0 <= k < |request.sources| ensures FindItem(Items(w), request.sources[k].name).Some? {
      var i := ItemOfSource(w, request, k);
    }
  }

  lemma NothingToCreate(w: World, request: Request, k: nat)
    requires Complete(w, request) && k < |request.sources|
    ensures CreationEffects(request.sceneName, Observe(w, request), request.sources[k]) == []
    ensures Creation(request.sceneName, Observe(w, request), request.sources[k]) == []
  {
    var i := ItemOfSource(w, request, k);
    assert Exists(w, request.sources[k]);
    EffectsOfOther([], Create);
  }

  lemma {:induction false} NothingToCreateAtAll(w: World, request: Request, count: nat)
    requires Complete(w, request) && count <= |request.sources|
    ensures AllCreationEffects(request.sceneName, Observe(w, request), request.sources[..count]) == []
  {
    hide Complete, CreationEffects;
    if count > 0 {
      NothingToCreateAtAll(w, request, count - 1);
      NothingToCreate(w, request, count - 1);
      assert request.sources[..count][..count - 1] == request.sources[..count - 1];
    }
  }

  ghost predicate AllEffective(actions: seq<Action>) {
    forall i | 0 <= i < |actions| :: actions[i].effect.Some?
  }

  lemma SourceIsEffective(judge: Judge, w: World, request: Request, k: nat)
    requires Complete(w, request) && k < |request.sources|
    ensures AllEffective(SourceActions(judge, request.sceneName, Observe(w, request), request.sources[k]))
  {
    hide Complete, SettingsDiffer, VolumeDiffers, TracksDiffer, TrackFlags, TransformDiffers, WantedTransform, FindItem;
    var i := ItemOfSource(w, request, k);
    var spec, current := request.sources[k], Observe(w, request);
    NothingToCreate(w, request, k);
    assert AllEffective(InputChanges(judge, current, spec));
    assert AllEffective(ItemChanges(judge, request.sceneName, current, spec));
  }

  lemma {:induction false} SourcesAreEffective(judge: Judge, w: World, request: Request, count: nat)
    requires Complete(w, request) && count <= |request.sources|
    ensures AllEffective(AllSourceActions(judge, request.sceneName, Observe(w, request), request.sources[..count]))
  {
    hide Complete, SourceActions;
    if count > 0 {
      SourcesAreEffective(judge, w, request, count - 1);
      SourceIsEffective(judge, w, request, count - 1);
      assert request.sources[..count][..count - 1] == request.sources[..count - 1];
    }
  }

  lemma {:induction false} RemovalsAreEffective(scene: string, items: seq<Item>, wanted: set<string>)
    ensures AllEffective(Removals(scene, items, wanted))
  {
    if items != [] {
      RemovalsAreEffective(scene, items[..|items| - 1], wanted);
    }
  }

  lemma {:induction false} MovesAreEffective(scene: string, items: seq<Item>, sources: seq<Spec>, index: nat)
    requires AllExist(items, sources)
    ensures AllEffective(Moves(scene, items, sources, index))
  {
    if sources != [] {
      MovesAreEffective(scene, items, sources[..|sources| - 1], index);
    }
  }

  lemma OrderingIsEffective(request: Request, items: seq<Item>)
    requires AllExist(items, request.sources)
    ensures AllEffective(Ordering(request, items))
  {
    hide Moves, Stacked, AllEffective;
    assert AllEffective([]) by { RemovalsAreEffective("", [], {}); }
    if request.order && request.sources != [] {
      assert FindItem(items, request.sources[0].name).Some?;
      MovesAreEffective(request.sceneName, items, request.sources, (if request.removeOthers then |request.sources| else |items|) - 1);
    }
  }

  /** The second plan creates nothing, and nothing in it has to wait. */
  lemma SecondPlan(judge: Judge, w: World, request: Request)
    requires Complete(w, request)
    ensures var plan := PlanFor(judge, request, Observe(w, request));
            && plan.errors == []
            && Effects(plan.actions, Create) == []
            && AllEffective(plan.actions)
  {
    hide Complete, Effects, AllCreationEffects, AllSourceActions, Removals, Ordering, PlanFor, Items;
    var current := Observe(w, request);
    assert Undisputed(w, request) && current.sceneExists by { CompleteFacts(w, request); }
    UndisputedIffErrorFree(judge, w, request);
    PlanStages(judge, request, current);
    NothingToCreateAtAll(w, request, |request.sources|);
    SourcesAreEffective(judge, w, request, |request.sources|);
    assert request.sources[..|request.sources|] == request.sources;
    RemovalsAreEffective(request.sceneName, current.items, request.Names());
    AllItemsExist(w, request);
    OrderingIsEffective(request, current.items);
    PlanParts(judge, request, current);
  }

  lemma CompleteFacts(w: World, request: Request)
    requires Complete(w, request)
    ensures Undisputed(w, request) && request.sceneName in w.scenes && DistinctIds(w.stack)
  {
  }

  // ----- Bringing the values of one source into line -----

  /** The values of an input are as described, whatever is not mentioned. */
  ghost predicate InputSettled(judge: Judge, spec: Spec, input: Input) {
    && (spec.settings.Some? ==>
          forall k | k in spec.settings.value :: k in input.settings && judge.setting(spec.settings.value[k], input.settings[k]))
    && (spec.muted.Some? ==> input.muted == spec.muted)
    && (spec.volumeDb.Some? ==>
          var level := if input.volumeDb.Some? then input.volumeDb.value else 0.0;
          spec.volumeDb.value - 0.1 <= level <= spec.volumeDb.value + 0.1)
    && (spec.tracks.Some? ==> forall track: nat | 1 <= track <= 6 :: track in input.tracks <==> track in spec.tracks.value)
  }

  /** The item is as described. What is said about its transform goes before what fitting to the canvas calls for. */
  ghost predicate PropsSettled(judge: Judge, spec: Spec, video: Option<Canvas>, props: Props) {
    && (spec.visible.Some? ==> props.enabled == spec.visible.value)
    && (spec.locked.Some? ==> props.locked == spec.locked.value)
    && (forall k | k in spec.transform :: Shows(judge, props.transform, k, spec.transform[k]))
    && (spec.fit && video.Some? ==> FillsCanvas(judge, spec, video.value, props.transform))
  }

  predicate Shows(judge: Judge, transform: map<string, Value>, field: string, value: Value) {
    field in transform && judge.transform(field, value, transform[field])
  }

  predicate FillsCanvas(judge: Judge, spec: Spec, canvas: Canvas, transform: map<string, Value>) {
    && ("boundsType" in spec.transform || Shows(judge, transform, "boundsType", Text("OBS_BOUNDS_SCALE_INNER")))
    && ("boundsWidth" in spec.transform || Shows(judge, transform, "boundsWidth", Number(canvas.width)))
    && ("boundsHeight" in spec.transform || Shows(judge, transform, "boundsHeight", Number(canvas.height)))
    && ("boundsAlignment" in spec.transform || Shows(judge, transform, "boundsAlignment", Number(0.0)))
    && ("alignment" in spec.transform || Shows(judge, transform, "alignment", Number(5.0)))
    && ("positionX" in spec.transform || Shows(judge, transform, "positionX", Number(0.0)))
    && ("positionY" in spec.transform || Shows(judge, transform, "positionY", Number(0.0)))
  }

  predicate TransformOff(judge: Judge, wanted: map<string, Value>, found: map<string, Value>) {
    exists k | k in wanted :: !(k in found && judge.transform(k, wanted[k], found[k]))
  }

  /** The planner asks for no transform exactly when the item shows what is described. */
  lemma TransformSettled(judge: Judge, spec: Spec, video: Option<Canvas>, transform: map<string, Value>)
    ensures !TransformOff(judge, WantedTransform(spec, video), transform) <==>
            && (forall k | k in spec.transform :: Shows(judge, transform, k, spec.transform[k]))
            && (spec.fit && video.Some? ==> FillsCanvas(judge, spec, video.value, transform))
  {
    var wanted := WantedTransform(spec, video);
    assert forall k | k in spec.transform :: k in wanted && wanted[k] == spec.transform[k];
    if spec.fit && video.Some? {
      FitFields(judge, spec, video.value, transform);
    } else {
      assert wanted == spec.transform;
    }
  }

  lemma FitFields(judge: Judge, spec: Spec, canvas: Canvas, transform: map<string, Value>)
    ensures FillsCanvas(judge, spec, canvas, transform) <==>
            forall k | k in FitTransform(canvas) && k !in spec.transform :: Shows(judge, transform, k, FitTransform(canvas)[k])
  {
    var fit := FitTransform(canvas);
    assert fit.Keys == {"boundsType", "boundsWidth", "boundsHeight", "boundsAlignment", "alignment", "positionX", "positionY"};
    hide Shows;
    assert fit["boundsType"] == Text("OBS_BOUNDS_SCALE_INNER");
    assert fit["boundsWidth"] == Number(canvas.width) && fit["boundsHeight"] == Number(canvas.height);
    assert fit["boundsAlignment"] == Number(0.0) && fit["alignment"] == Number(5.0);
    assert fit["positionX"] == Number(0.0) && fit["positionY"] == Number(0.0);
    hide FitTransform;
  }

  function TunedInput(judge: Judge, spec: Spec, input: Input): Input {
    Input(
      input.kind,
      if spec.settings.Some? && SettingsDiffer(judge, spec.Settings(), input.settings) then input.settings + spec.Settings() else input.settings,
      if spec.muted.Some? then spec.muted else input.muted,
      if spec.volumeDb.Some? && VolumeDiffers(spec.volumeDb.value, input.volumeDb) then spec.volumeDb else input.volumeDb,
      if spec.tracks.Some? && TracksDiffer(spec.tracks.value, input.tracks) then TrackFlags(spec.tracks.value) else input.tracks)
  }

  function TunedProps(judge: Judge, spec: Spec, video: Option<Canvas>, props: Props): Props {
    var wanted := WantedTransform(spec, video);
    Props(
      if spec.visible.Some? then spec.visible.value else props.enabled,
      if spec.locked.Some? then spec.locked.value else props.locked,
      if TransformOff(judge, wanted, props.transform) then props.transform + wanted else props.transform)
  }

  lemma TunedInputIsSettled(judge: Judge, spec: Spec, input: Input)
    requires judge.Reflexive()
    ensures InputSettled(judge, spec, TunedInput(judge, spec, input))
  {
    var tuned := TunedInput(judge, spec, input);
    InputSettledExactly(judge, spec, tuned);
    assert spec.settings.Some? ==> !SettingsDiffer(judge, spec.Settings(), tuned.settings);
    assert spec.tracks.Some? ==> !TracksDiffer(spec.tracks.value, tuned.tracks);
  }

  /** The planner asks for no change of an input exactly when it is as described. */
  lemma InputSettledExactly(judge: Judge, spec: Spec, input: Input)
    ensures InputSettled(judge, spec, input) <==>
            && (spec.settings.Some? ==> !SettingsDiffer(judge, spec.Settings(), input.settings))
            && (spec.muted.Some? ==> input.muted == spec.muted)
            && (spec.volumeDb.Some? ==> !VolumeDiffers(spec.volumeDb.value, input.volumeDb))
            && (spec.tracks.Some? ==> !TracksDiffer(spec.tracks.value, input.tracks))
  {
  }

  lemma TunedPropsAreSettled(judge: Judge, spec: Spec, video: Option<Canvas>, props: Props)
    requires judge.Reflexive()
    ensures PropsSettled(judge, spec, video, TunedProps(judge, spec, video, props))
  {
    hide WantedTransform, FillsCanvas;
    var wanted, tuned := WantedTransform(spec, video), TunedProps(judge, spec, video, props);
    TransformSettled(judge, spec, video, tuned.transform);
    assert !TransformOff(judge, wanted, tuned.transform);
  }

  /** A part of a batch that is empty or holds one effect. */
  lemma RunPart(defaults: Defaults, scene: string, w: World, part: seq<Action>, next: World)
    requires if part == [] then next == w
             else |part| == 1 && part[0].phase == Change && part[0].effect.Some? && Step(defaults, scene, w, part[0].effect.value) == Some(next)
    ensures Run(defaults, scene, w, Effects(part, Change)) == Some(next)
  {
    hide Step;
    if part != [] {
      EffectsOfOne(part[0]);
      assert part == [part[0]];
      RunOne(defaults, scene, w, part[0].effect.value);
    }
  }

  lemma RunNext(defaults: Defaults, scene: string, w: World, a: seq<Action>, b: seq<Action>)
    requires Run(defaults, scene, w, Effects(a, Change)).Some?
    ensures Run(defaults, scene, w, Effects(a + b, Change)) ==
            Run(defaults, scene, Run(defaults, scene, w, Effects(a, Change)).value, Effects(b, Change))
  {
    EffectsConcat(a, b, Change);
    RunConcat(defaults, scene, w, Effects(a, Change), Effects(b, Change));
  }

  function WithInput(w: World, name: string, input: Input): World {
    w.(inputs := w.inputs[name := input])
  }

  function WithProps(w: World, id: nat, props: Props): World {
    w.(props := w.props[id := props])
  }

  /** What an effect on an input makes of it. */
  function InputAfter(effect: Effect, input: Input): Input {
    match effect
    case SettingsOverlay(_, settings) => input.(settings := input.settings + settings)
    case Mute(_, muted) => input.(muted := Some(muted))
    case VolumeDb(_, db) => input.(volumeDb := Some(db))
    case AudioTracks(_, tracks) => input.(tracks := tracks)
    case _ => input
  }

  function PropsAfter(effect: Effect, props: Props): Props {
    match effect
    case Enabled(_, _, enabled) => props.(enabled := enabled)
    case Locked(_, _, locked) => props.(locked := locked)
    case Transform(_, _, transform) => props.(transform := props.transform + transform)
    case _ => props
  }

  predicate OnInput(effect: Effect, name: string) {
    (effect.SettingsOverlay? || effect.Mute? || effect.VolumeDb? || effect.AudioTracks?) && effect.input == name
  }

  predicate OnItem(effect: Effect, scene: string, id: nat) {
    (effect.Enabled? || effect.Locked? || effect.Transform?) && effect.scene == scene && effect.id == id
  }

  lemma RunInputPart(defaults: Defaults, scene: string, w: World, name: string, input: Input, part: seq<Action>, tuned: Input)
    requires if part == [] then tuned == input
             else |part| == 1 && part[0].phase == Change && part[0].effect.Some?
                  && OnInput(part[0].effect.value, name) && tuned == InputAfter(part[0].effect.value, input)
    ensures Run(defaults, scene, WithInput(w, name, input), Effects(part, Change)) == Some(WithInput(w, name, tuned))
  {
    hide Run, Effects;
    if part != [] {
      var effect := part[0].effect.value;
      assert w.inputs[name := input][name := tuned] == w.inputs[name := tuned];
      assert Step(defaults, scene, WithInput(w, name, input), effect) == Some(WithInput(w, name, tuned));
    }
    RunPart(defaults, scene, WithInput(w, name, input), part, WithInput(w, name, tuned));
  }

  lemma RunItemPart(defaults: Defaults, scene: string, w: World, id: nat, props: Props, part: seq<Action>, tuned: Props)
    requires EntryOf(w.stack, id).Some?
    requires if part == [] then tuned == props
             else |part| == 1 && part[0].phase == Change && part[0].effect.Some?
                  && OnItem(part[0].effect.value, scene, id) && tuned == PropsAfter(part[0].effect.value, props)
    ensures Run(defaults, scene, WithProps(w, id, props), Effects(part, Change)) == Some(WithProps(w, id, tuned))
  {
    hide Run, Effects, EntryOf;
    if part != [] {
      var effect := part[0].effect.value;
      assert w.props[id := props][id := tuned] == w.props[id := tuned];
      assert Step(defaults, scene, WithProps(w, id, props), effect) == Some(WithProps(w, id, tuned));
    }
    RunPart(defaults, scene, WithProps(w, id, props), part, WithProps(w, id, tuned));
  }

  /** The four changes of an input, one after the other. */
  lemma RunSettingsAndMute(judge: Judge, defaults: Defaults, scene: string, w: World, spec: Spec, input: Input)
    ensures var tuned := TunedInput(judge, spec, input);
            Run(defaults, scene, WithInput(w, spec.name, input),
                Effects(SettingsChange(judge, true, spec, Some(input)) + MuteChange(spec, Some(input)), Change)) ==
            Some(WithInput(w, spec.name, input.(settings := tuned.settings, muted := tuned.muted)))
  {
    hide SettingsDiffer, VolumeDiffers, TracksDiffer, TrackFlags, Effects, Run, WithInput;
    var tuned := TunedInput(judge, spec, input);
    var a, b := SettingsChange(judge, true, spec, Some(input)), MuteChange(spec, Some(input));
    RunInputPart(defaults, scene, w, spec.name, input, a, input.(settings := tuned.settings));
    RunInputPart(defaults, scene, w, spec.name, input.(settings := tuned.settings), b, input.(settings := tuned.settings, muted := tuned.muted));
    RunNext(defaults, scene, WithInput(w, spec.name, input), a, b);
  }

  lemma RunVolumeAndTracks(judge: Judge, defaults: Defaults, scene: string, w: World, spec: Spec, input: Input)
    ensures var tuned := TunedInput(judge, spec, input);
            Run(defaults, scene, WithInput(w, spec.name, input.(settings := tuned.settings, muted := tuned.muted)),
                Effects(VolumeChange(spec, Some(input)) + TracksChange(spec, Some(input)), Change)) ==
            Some(WithInput(w, spec.name, tuned))
  {
    hide SettingsDiffer, VolumeDiffers, TracksDiffer, TrackFlags, Effects, Run, WithInput;
    var tuned := TunedInput(judge, spec, input);
    var half := input.(settings := tuned.settings, muted := tuned.muted);
    var a, b := VolumeChange(spec, Some(input)), TracksChange(spec, Some(input));
    RunInputPart(defaults, scene, w, spec.name, half, a, half.(volumeDb := tuned.volumeDb));
    RunInputPart(defaults, scene, w, spec.name, half.(volumeDb := tuned.volumeDb), b, tuned);
    RunNext(defaults, scene, WithInput(w, spec.name, half), a, b);
  }

  /** The changes of an input make it `TunedInput` and touch nothing else. */
  lemma RunInputChanges(judge: Judge, defaults: Defaults, w: World, now: World, request: Request, spec: Spec)
    requires spec.name in w.inputs && spec.name in now.inputs && now.inputs[spec.name] == w.inputs[spec.name]
    requires spec.name in request.Names()
    ensures Run(defaults, request.sceneName, now, Effects(InputChanges(judge, Observe(w, request), spec), Change)) ==
            Some(WithInput(now, spec.name, TunedInput(judge, spec, w.inputs[spec.name])))
  {
    hide SettingsChange, MuteChange, VolumeChange, TracksChange, TunedInput, Effects, Run, Items, Step;
    var scene, name, current, input := request.sceneName, spec.name, Observe(w, request), w.inputs[spec.name];
    assert InputOf(current, name) == Some(input);
    var a := SettingsChange(judge, true, spec, Some(input)) + MuteChange(spec, Some(input));
    var b := VolumeChange(spec, Some(input)) + TracksChange(spec, Some(input));
    assert InputChanges(judge, current, spec) == a + b;
    assert WithInput(now, name, input) == now;
    RunSettingsAndMute(judge, defaults, scene, now, spec, input);
    RunVolumeAndTracks(judge, defaults, scene, now, spec, input);
    RunNext(defaults, scene, now, a, b);
  }

  lemma RunVisibleAndLock(judge: Judge, defaults: Defaults, scene: string, w: World, spec: Spec, item: Item, tuned: Props)
    requires EntryOf(w.stack, item.id).Some?
    requires tuned.enabled == (if spec.visible.Some? then spec.visible.value else item.enabled)
    requires tuned.locked == (if spec.locked.Some? then spec.locked.value else item.locked)
    ensures var props := Props(item.enabled, item.locked, item.transform);
            Run(defaults, scene, WithProps(w, item.id, props),
                Effects(VisibleChange(scene, spec, Some(item)) + LockChange(scene, spec, Some(item)), Change)) ==
            Some(WithProps(w, item.id, props.(enabled := tuned.enabled, locked := tuned.locked)))
  {
    hide Effects, Run, WithProps, EntryOf;
    var props := Props(item.enabled, item.locked, item.transform);
    var a, b := VisibleChange(scene, spec, Some(item)), LockChange(scene, spec, Some(item));
    RunItemPart(defaults, scene, w, item.id, props, a, props.(enabled := tuned.enabled));
    RunItemPart(defaults, scene, w, item.id, props.(enabled := tuned.enabled), b, props.(enabled := tuned.enabled, locked := tuned.locked));
    RunNext(defaults, scene, WithProps(w, item.id, props), a, b);
  }

  lemma RunTransform(judge: Judge, defaults: Defaults, scene: string, w: World, spec: Spec, item: Item, wanted: map<string, Value>, half: Props)
    requires EntryOf(w.stack, item.id).Some? && half.transform == item.transform
    ensures Run(defaults, scene, WithProps(w, item.id, half), Effects(TransformChange(judge, scene, spec, wanted, Some(item)), Change)) ==
            Some(WithProps(w, item.id, half.(transform := if TransformOff(judge, wanted, item.transform) then item.transform + wanted else item.transform)))
  {
    hide Effects, Run, WithProps, EntryOf;
    assert TransformDiffers(judge, wanted, Some(item)) <==> TransformOff(judge, wanted, item.transform);
    var a := TransformChange(judge, scene, spec, wanted, Some(item));
    RunItemPart(defaults, scene, w, item.id, half, a,
                half.(transform := if TransformOff(judge, wanted, item.transform) then item.transform + wanted else item.transform));
  }

  /** The changes of an item make it `TunedProps` and touch nothing else. */
  lemma RunItemChanges(judge: Judge, defaults: Defaults, w: World, now: World, request: Request, spec: Spec, i: nat)
    requires i < |w.stack| && FindItem(Items(w), spec.name) == Some(ItemAt(w, i))
    requires w.stack[i].id in now.props && now.props[w.stack[i].id] == PropsAt(w, w.stack[i].id)
    requires EntryOf(now.stack, w.stack[i].id).Some?
    ensures Run(defaults, request.sceneName, now, Effects(ItemChanges(judge, request.sceneName, Observe(w, request), spec), Change)) ==
            Some(WithProps(now, w.stack[i].id, TunedProps(judge, spec, Observe(w, request).video, PropsAt(w, w.stack[i].id))))
  {
    hide FindItem, WantedTransform, Effects, Run, Items, Step, PropsAt, EntryOf, VisibleChange, LockChange, TransformChange, TransformOff;
    var scene, current, id := request.sceneName, Observe(w, request), w.stack[i].id;
    var item, props := ItemAt(w, i), PropsAt(w, id);
    var wanted := WantedTransform(spec, current.video);
    var tuned := TunedProps(judge, spec, current.video, props);
    var half := props.(enabled := tuned.enabled, locked := tuned.locked);
    var a, b := VisibleChange(scene, spec, Some(item)) + LockChange(scene, spec, Some(item)), TransformChange(judge, scene, spec, wanted, Some(item));
    assert ItemChanges(judge, scene, current, spec) == a + b;
    assert WithProps(now, id, props) == now;
    RunVisibleAndLock(judge, defaults, scene, now, spec, item, tuned);
    RunTransform(judge, defaults, scene, now, spec, item, wanted, half);
    RunNext(defaults, scene, now, a, b);
  }

  // ----- Bringing all sources into line -----

  function IdOf(stack: seq<Entry>, name: string): nat {
    var entry := EntryNamed(stack, name);
    if entry.Some? then entry.value.id else 0
  }

  /** What `ItemOfSource` says in terms of the item's id. */
  lemma IdOfSource(w: World, request: Request, k: nat) returns (i: nat)
    requires Complete(w, request) && k < |request.sources|
    ensures i < |w.stack| && w.stack[i] == Entry(IdOf(w.stack, request.sources[k].name), request.sources[k].name)
    ensures FindItem(Items(w), request.sources[k].name) == Some(ItemAt(w, i))
    ensures EntryOf(w.stack, w.stack[i].id).Some? && w.stack[i].id in w.props
  {
    hide FindItem, Items;
    i := ItemOfSource(w, request, k);
    EntryFound(w.stack, i);
  }

  lemma IdsDiffer(w: World, request: Request, j: nat, k: nat)
    requires Complete(w, request) && j < |request.sources| && k < |request.sources| && j != k
    ensures IdOf(w.stack, request.sources[j].name) != IdOf(w.stack, request.sources[k].name)
  {
    hide FindItem, Items, IdOf, EntryOf;
    var a := IdOfSource(w, request, j);
    var b := IdOfSource(w, request, k);
    assert w.stack[a].source != w.stack[b].source;
  }

  /** Source `k` needs no further change of its values. */
  ghost predicate Settled(judge: Judge, w: World, request: Request, spec: Spec) {
    && spec.name in w.inputs && InputSettled(judge, spec, w.inputs[spec.name])
    && PropsSettled(judge, spec, Observe(w, request).video, PropsAt(w, IdOf(w.stack, spec.name)))
  }

  /** `now` is `w` with the values of the first `count` sources in line. */
  ghost predicate Settling(judge: Judge, w: World, now: World, request: Request, count: nat) {
    && now == w.(inputs := now.inputs, props := now.props)
    && now.inputs.Keys == w.inputs.Keys && now.props.Keys == w.props.Keys
    && (forall name | name in w.inputs :: now.inputs[name].kind == w.inputs[name].kind)
    && (forall k | 0 <= k < count && k < |request.sources| :: Settled(judge, now, request, request.sources[k]))
    && (forall k | count <= k < |request.sources| :: Untouched(w, now, request.sources[k].name))
    && Spared(w, now, request.sources)
  }

  /** Items that the planner does not find are left alone. */
  ghost predicate Spared(w: World, now: World, sources: seq<Spec>) {
    forall id | id !in ListedIds(w.stack, sources) :: PropsAt(now, id) == PropsAt(w, id)
  }

  lemma SparedNext(judge: Judge, w: World, now: World, request: Request, k: nat)
    requires Spared(w, now, request.sources) && k < |request.sources| && request.sources[k].name in w.inputs
    ensures Spared(w, Tuned(judge, w, now, request, request.sources[k]), request.sources)
  {
    hide IdOf, TunedInput, TunedProps;
    assert IdOf(w.stack, request.sources[k].name) in ListedIds(w.stack, request.sources);
  }

  /** The items that the planner changes. */
  function ListedIds(stack: seq<Entry>, sources: seq<Spec>): set<nat> {
    set k | 0 <= k < |sources| :: IdOf(stack, sources[k].name)
  }

  ghost predicate Untouched(w: World, now: World, name: string) {
    && name in w.inputs && name in now.inputs && now.inputs[name] == w.inputs[name]
    && PropsAt(now, IdOf(w.stack, name)) == PropsAt(w, IdOf(w.stack, name))
  }

  /** What the changes of one source turn `now` into. */
  function Tuned(judge: Judge, w: World, now: World, request: Request, spec: Spec): World
    requires spec.name in w.inputs
  {
    var id := IdOf(w.stack, spec.name);
    WithProps(WithInput(now, spec.name, TunedInput(judge, spec, w.inputs[spec.name])), id,
              TunedProps(judge, spec, Observe(w, request).video, PropsAt(w, id)))
  }

  lemma TunedSettles(judge: Judge, w: World, now: World, request: Request, k: nat)
    requires judge.Reflexive() && Complete(w, request) && Settling(judge, w, now, request, k) && k < |request.sources|
    ensures request.sources[k].name in w.inputs
    ensures Settling(judge, w, Tuned(judge, w, now, request, request.sources[k]), request, k + 1)
  {
    hide InputSettled, PropsSettled, TunedInput, TunedProps, IdOf, FindItem, EntryOf, DistinctIds, Present, First, Items, Spared;
    var spec := request.sources[k];
    assert Untouched(w, now, spec.name);
    var next, id, input := Tuned(judge, w, now, request, spec), IdOf(w.stack, spec.name), w.inputs[spec.name];
    var i := IdOfSource(w, request, k);
    TunedInputIsSettled(judge, spec, input);
    TunedPropsAreSettled(judge, spec, Observe(w, request).video, PropsAt(w, id));
    TunedKeepsKind(judge, spec, input);
    forall j | 0 <= j < |request.sources| && j != k
      ensures request.sources[j].name != spec.name && IdOf(w.stack, request.sources[j].name) != id
    {
      IdsDiffer(w, request, j, k);
    }
    assert next.inputs.Keys == w.inputs.Keys && next.props.Keys == w.props.Keys;
    SparedNext(judge, w, now, request, k);
    forall j | 0 <= j < k ensures Settled(judge, next, request, request.sources[j]) {
      assert Settled(judge, now, request, request.sources[j]);
    }
    forall j | k < j < |request.sources| ensures Untouched(w, next, request.sources[j].name) {
      assert Untouched(w, now, request.sources[j].name);
    }
  }

  lemma TunedKeepsKind(judge: Judge, spec: Spec, input: Input)
    ensures TunedInput(judge, spec, input).kind == input.kind
  {
  }

  lemma SettleNext(judge: Judge, defaults: Defaults, w: World, now: World, request: Request, k: nat)
    requires Complete(w, request) && Settling(judge, w, now, request, k) && k < |request.sources|
    requires request.sources[k].name in w.inputs
    ensures var scene, current, spec := request.sceneName, Observe(w, request), request.sources[k];
            Run(defaults, scene, now, Effects(InputChanges(judge, current, spec), Change) + Effects(ItemChanges(judge, scene, current, spec), Change)) ==
            Some(Tuned(judge, w, now, request, spec))
  {
    hide TunedInput, TunedProps, IdOf, FindItem, EntryOf, Effects, Run, InputChanges, ItemChanges, Items, Complete, Settled;
    var scene, current, spec := request.sceneName, Observe(w, request), request.sources[k];
    var id, half := IdOf(w.stack, spec.name), WithInput(now, spec.name, TunedInput(judge, spec, w.inputs[spec.name]));
    var i := IdOfSource(w, request, k);
    assert Untouched(w, now, spec.name);
    RunInputChanges(judge, defaults, w, now, request, spec);
    RunItemChanges(judge, defaults, w, half, request, spec, i);
    RunConcat(defaults, scene, now, Effects(InputChanges(judge, current, spec), Change), Effects(ItemChanges(judge, scene, current, spec), Change));
  }

  lemma {:induction false} SettleFirst(judge: Judge, defaults: Defaults, w: World, request: Request, count: nat) returns (now: World)
    requires judge.Reflexive() && Complete(w, request) && count <= |request.sources|
    ensures Run(defaults, request.sceneName, w, AllChangeEffects(judge, request.sceneName, Observe(w, request), request.sources[..count])) == Some(now)
    ensures Settling(judge, w, now, request, count)
    decreases count, 1
  {
    if count == 0 {
      now := w;
      forall k | 0 <= k < |request.sources| ensures Untouched(w, w, request.sources[k].name) {
        assert Exists(w, request.sources[k]);
      }
    } else {
      now := SettleMore(judge, defaults, w, request, count);
    }
  }

  lemma {:induction false} SettleMore(judge: Judge, defaults: Defaults, w: World, request: Request, count: nat) returns (now: World)
    requires judge.Reflexive() && Complete(w, request) && 0 < count <= |request.sources|
    ensures Run(defaults, request.sceneName, w, AllChangeEffects(judge, request.sceneName, Observe(w, request), request.sources[..count])) == Some(now)
    ensures Settling(judge, w, now, request, count)
    decreases count, 0
  {
    hide Complete, Settling, Tuned, InputChanges, ItemChanges, Effects, Run, Observe;
    var before := SettleFirst(judge, defaults, w, request, count - 1);
    var scene, current, spec := request.sceneName, Observe(w, request), request.sources[count - 1];
    TunedSettles(judge, w, before, request, count - 1);
    SettleNext(judge, defaults, w, before, request, count - 1);
    now := Tuned(judge, w, before, request, spec);
    assert request.sources[..count][..count - 1] == request.sources[..count - 1];
    RunConcat(defaults, scene, w, AllChangeEffects(judge, scene, current, request.sources[..count - 1]),
              Effects(InputChanges(judge, current, spec), Change) + Effects(ItemChanges(judge, scene, current, spec), Change));
  }

  // ----- Removing and ordering -----

  function UnlistedIds(stack: seq<Entry>, wanted: set<string>): set<nat> {
    set i | 0 <= i < |stack| && stack[i].source !in wanted :: stack[i].id
  }

  lemma RunRemoval(defaults: Defaults, scene: string, w: World, ids: set<nat>, i: nat)
    requires DistinctIds(w.stack) && i < |w.stack| && w.stack[i].id !in ids
    ensures Step(defaults, scene, w.(stack := Without(w.stack, ids)), RemoveItem(scene, w.stack[i].id)) ==
            Some(w.(stack := Without(w.stack, ids + {w.stack[i].id})))
  {
    hide Without, DistinctIds;
    var kept := Without(w.stack, ids);
    WithoutKeeps(w.stack, ids);
    assert w.stack[i] in kept;
    var at :| 0 <= at < |kept| && kept[at] == w.stack[i];
    EntryFound(kept, at);
    WithoutTwice(w.stack, ids, {w.stack[i].id});
  }

  lemma {:induction false} RunRemovals(defaults: Defaults, w: World, now: World, request: Request, count: nat)
    requires now.stack == w.stack && DistinctIds(w.stack) && count <= |w.stack|
    ensures Run(defaults, request.sceneName, now, Effects(Removals(request.sceneName, Items(w)[..count], request.Names()), Change)) ==
            Some(now.(stack := Without(now.stack, UnlistedIds(w.stack[..count], request.Names()))))
  {
    hide Without, Step, Run, Effects;
    var scene, names := request.sceneName, request.Names();
    if count == 0 {
      EffectsOfOther([], Change);
      var same := RunNone(defaults, scene, now);
      assert UnlistedIds(w.stack[..0], names) == {};
      WithoutNone(now.stack, {});
      assert now.(stack := now.stack) == now;
    } else {
      var items, last := Items(w)[..count], w.stack[count - 1];
      RunRemovals(defaults, w, now, request, count - 1);
      assert items[..count - 1] == Items(w)[..count - 1] && items[count - 1] == ItemAt(w, count - 1);
      var before := Removals(scene, items[..count - 1], names);
      UnlistedNext(w.stack, names, count - 1);
      if last.source !in names {
        var action := Action(last.source, Change, Some(RemoveItem(scene, last.id)));
        EffectsConcat(before, [action], Change);
        EffectsOfOne(action);
        RunConcat(defaults, scene, now, Effects(before, Change), [RemoveItem(scene, last.id)]);
        var mid := now.(stack := Without(now.stack, UnlistedIds(w.stack[..count - 1], names)));
        RunOne(defaults, scene, mid, RemoveItem(scene, last.id));
        RunRemoval(defaults, scene, now, UnlistedIds(w.stack[..count - 1], names), count - 1);
        assert Removals(scene, items, names) == before + [action];
      } else {
        assert Removals(scene, items, names) == before;
        assert UnlistedIds(w.stack[..count], names) == UnlistedIds(w.stack[..count - 1], names);
      }
    }
  }

  lemma UnlistedNext(stack: seq<Entry>, wanted: set<string>, i: nat)
    requires i < |stack| && DistinctIds(stack)
    ensures UnlistedIds(stack[..i + 1], wanted) ==
            UnlistedIds(stack[..i], wanted) + if stack[i].source in wanted then {} else {stack[i].id}
    ensures stack[i].id !in UnlistedIds(stack[..i], wanted)
  {
    var before, after := stack[..i], stack[..i + 1];
    assert forall j | 0 <= j < i :: before[j] == stack[j] && after[j] == stack[j];
    assert after[i] == stack[i];
  }

  /** The items of the listed sources, in the order listed. */
  function Listed(stack: seq<Entry>, sources: seq<Spec>): seq<Entry> {
    seq(|sources|, i requires 0 <= i < |sources| => Entry(IdOf(stack, sources[i].name), sources[i].name))
  }

  lemma {:induction false} RunMoves(defaults: Defaults, w: World, now: World, request: Request, count: nat, index: nat)
    requires Complete(w, request) && count <= |request.sources| && AllExist(Items(w), request.sources[..count])
    requires DistinctIds(now.stack)
    requires forall e | e in Listed(w.stack, request.sources) :: e in now.stack
    ensures Run(defaults, request.sceneName, now, Effects(Moves(request.sceneName, Items(w), request.sources[..count], index), Change)) ==
            Some(now.(stack := MovedInTurn(now.stack, Listed(w.stack, request.sources)[..count], index)))
  {
    hide Complete, Step, Run, Effects, IdOf, FindItem, EntryOf, Without;
    var scene, sources, listed := request.sceneName, request.sources[..count], Listed(w.stack, request.sources);
    if count == 0 {
      EffectsOfOther([], Change);
      var same := RunNone(defaults, scene, now);
      assert now.(stack := now.stack) == now;
    } else {
      var most, last := request.sources[..count - 1], request.sources[count - 1];
      assert sources[..count - 1] == most;
      assert AllExist(Items(w), most) by {
        forall i | 0 <= i < |most| ensures FindItem(Items(w), most[i].name).Some? {
          assert most[i] == sources[i];
        }
      }
      RunMoves(defaults, w, now, request, count - 1, index);
      var before, id := Moves(scene, Items(w), most, index), IdOf(w.stack, last.name);
      var i := IdOfSource(w, request, count - 1);
      var action := Action(last.name, Change, Some(Index(scene, id, index)));
      assert Moves(scene, Items(w), sources, index) == before + [action];
      EffectsConcat(before, [action], Change);
      EffectsOfOne(action);
      RunConcat(defaults, scene, now, Effects(before, Change), [Index(scene, id, index)]);
      var mid := now.(stack := MovedInTurn(now.stack, listed[..count - 1], index));
      RunOne(defaults, scene, mid, Index(scene, id, index));
      RunMove(defaults, scene, now, listed, count, index);
    }
  }

  lemma RunMove(defaults: Defaults, scene: string, w: World, listed: seq<Entry>, count: nat, index: nat)
    requires DistinctIds(w.stack) && 0 < count <= |listed|
    requires forall e | e in listed :: e in w.stack
    ensures Step(defaults, scene, w.(stack := MovedInTurn(w.stack, listed[..count - 1], index)), Index(scene, listed[count - 1].id, index)) ==
            Some(w.(stack := MovedInTurn(w.stack, listed[..count], index)))
  {
    hide Moved, DistinctIds, EntryOf, MovedInTurn;
    var most, last := listed[..count - 1], listed[count - 1];
    var moved := MovedInTurn(w.stack, most, index);
    assert listed[..count][..count - 1] == most && last in listed && forall i | 0 <= i < |most| :: most[i] in listed;
    MovedInTurnKeeps(w.stack, most, index);
    var at :| 0 <= at < |moved| && moved[at] == last;
    EntryFound(moved, at);
    assert MovedInTurn(w.stack, listed[..count], index) == Moved(moved, last, index) by { OneMoreMove(w.stack, listed[..count], index); }
  }

  lemma OneMoreMove(stack: seq<Entry>, entries: seq<Entry>, index: nat)
    requires entries != []
    ensures MovedInTurn(stack, entries, index) == Moved(MovedInTurn(stack, entries[..|entries| - 1], index), entries[|entries| - 1], index)
  {
  }

  /** Moving an item neither adds nor loses one. */
  lemma MovedKeeps(stack: seq<Entry>, entry: Entry, index: nat)
    requires DistinctIds(stack) && entry in stack
    ensures DistinctIds(Moved(stack, entry, index))
    ensures forall e :: e in Moved(stack, entry, index) <==> e in stack
  {
    hide Without;
    var rest := Without(stack, {entry.id});
    WithoutKeeps(stack, {entry.id});
    var at := if index < |rest| then index else |rest|;
    assert rest == rest[..at] + rest[at..];
    assert forall i | 0 <= i < |rest| :: rest[i] in rest;
    var s :| 0 <= s < |stack| && stack[s] == entry;
    assert forall e | e in stack && e.id == entry.id :: e == entry;
  }

  lemma {:induction false} MovedInTurnKeeps(stack: seq<Entry>, entries: seq<Entry>, index: nat)
    requires DistinctIds(stack) && forall i | 0 <= i < |entries| :: entries[i] in stack
    ensures DistinctIds(MovedInTurn(stack, entries, index))
    ensures forall e :: e in MovedInTurn(stack, entries, index) <==> e in stack
  {
    hide Moved, DistinctIds;
    if entries != [] {
      MovedInTurnKeeps(stack, entries[..|entries| - 1], index);
      MovedKeeps(MovedInTurn(stack, entries[..|entries| - 1], index), entries[|entries| - 1], index);
    }
  }

  // ----- The third plan -----

  lemma {:induction false} StackedSorted(items: seq<Item>)
    requires forall i, j | 0 <= i < j < |items| :: items[i].index <= items[j].index
    ensures Stacked(items) == items
  {
    if items != [] {
      StackedSorted(items[..|items| - 1]);
    }
  }

  /** `stack` holds the first items of the listed sources and otherwise only items that were there. */
  ghost predicate Rearranged(was: seq<Entry>, stack: seq<Entry>, request: Request) {
    && DistinctIds(stack)
    && (forall e | e in stack :: e in was)
    && (forall e | e in Listed(was, request.sources) :: e in stack)
  }

  lemma RearrangedKeeps(w: World, stack: seq<Entry>, request: Request)
    requires Complete(w, request) && Rearranged(w.stack, stack, request)
    ensures Complete(w.(stack := stack), request)
  {
    hide IdOf, EntryOf, FindItem, Items;
    forall k | 0 <= k < |request.sources| ensures Exists(w.(stack := stack), request.sources[k]) {
      assert Exists(w, request.sources[k]);
      assert Listed(w.stack, request.sources)[k] in stack;
    }
    assert forall i | 0 <= i < |stack| :: stack[i] in stack;
  }

  lemma SettlingKeepsComplete(judge: Judge, w: World, now: World, request: Request)
    requires Complete(w, request) && Settling(judge, w, now, request, |request.sources|)
    ensures Complete(now, request)
  {
    hide Settled, Present, DistinctIds;
    forall k | 0 <= k < |request.sources| ensures Exists(now, request.sources[k]) {
      assert Exists(w, request.sources[k]);
    }
  }

  lemma ListedFacts(w: World, request: Request)
    requires Complete(w, request)
    ensures DistinctIds(Listed(w.stack, request.sources))
    ensures forall e | e in Listed(w.stack, request.sources) :: e in w.stack
  {
    hide Complete, IdOf, EntryOf, FindItem, Items;
    var listed := Listed(w.stack, request.sources);
    forall k | 0 <= k < |listed| ensures listed[k] in w.stack {
      var i := IdOfSource(w, request, k);
    }
    forall j, k | 0 <= j < k < |listed| ensures listed[j].id != listed[k].id {
      IdsDiffer(w, request, j, k);
    }
  }

  /** Every listed source is in the scene at most once. */
  ghost predicate Unambiguous(stack: seq<Entry>, sources: seq<Spec>) {
    forall k | 0 <= k < |sources| :: Once(stack, sources[k].name)
  }

  lemma ListedAreAll(w: World, request: Request)
    requires Complete(w, request) && Unambiguous(w.stack, request.sources)
    ensures forall e | e in w.stack && e.source in request.Names() :: e in Listed(w.stack, request.sources)
  {
    hide Complete, IdOf, EntryOf, FindItem, Items;
    var listed := Listed(w.stack, request.sources);
    forall e | e in w.stack && e.source in request.Names() ensures e in listed {
      var k :| 0 <= k < |request.sources| && request.sources[k].name == e.source;
      var i := IdOfSource(w, request, k);
      var j :| 0 <= j < |w.stack| && w.stack[j] == e;
      assert Once(w.stack, e.source);
      assert listed[k] == e;
    }
  }

  lemma {:induction false} CountIds(stack: seq<Entry>)
    ensures |Ids(stack)| <= |stack|
    ensures DistinctIds(stack) ==> |Ids(stack)| == |stack|
  {
    if stack != [] {
      var most, last := stack[..|stack| - 1], stack[|stack| - 1];
      CountIds(most);
      assert Ids(stack) == Ids(most) + {last.id};
    }
  }

  lemma FewerIds(a: seq<Entry>, b: seq<Entry>)
    requires DistinctIds(a) && forall e | e in a :: e in b
    ensures |a| <= |b|
  {
    CountIds(a);
    CountIds(b);
    forall id | id in Ids(a) ensures id in Ids(b) {
      var i :| 0 <= i < |a| && a[i].id == id;
      assert a[i] in b;
    }
    Smaller(Ids(a), Ids(b));
  }

  lemma Smaller(a: set<nat>, b: set<nat>)
    requires a <= b
    ensures |a| <= |b|
  {
    assert b == a + (b - a);
  }

  /** The stack after the removals that the request asks for. */
  function Kept(stack: seq<Entry>, request: Request): seq<Entry> {
    if request.removeOthers then Without(stack, UnlistedIds(stack, request.Names())) else stack
  }

  lemma KeptFacts(w: World, request: Request)
    requires Complete(w, request)
    ensures Rearranged(w.stack, Kept(w.stack, request), request)
    ensures request.removeOthers ==> forall e | e in Kept(w.stack, request) :: e.source in request.Names()
  {
    hide Complete, Without, IdOf;
    CompleteFacts(w, request);
    ListedFacts(w, request);
    if request.removeOthers {
      var ids := UnlistedIds(w.stack, request.Names());
      WithoutKeeps(w.stack, ids);
      forall e | e in w.stack ensures e.id in ids <==> e.source !in request.Names() {
      }
    }
  }

  lemma KeptIsShort(w: World, request: Request)
    requires Complete(w, request) && Unambiguous(w.stack, request.sources) && request.removeOthers
    ensures |Kept(w.stack, request)| <= |request.sources|
  {
    hide Complete, Without, IdOf, Kept;
    KeptFacts(w, request);
    ListedAreAll(w, request);
    FewerIds(Kept(w.stack, request), Listed(w.stack, request.sources));
  }

  lemma {:induction false} EntryNamedConcat(a: seq<Entry>, b: seq<Entry>, name: string)
    ensures EntryNamed(a + b, name) == if EntryNamed(a, name).Some? then EntryNamed(a, name) else EntryNamed(b, name)
  {
    if a == [] {
      assert a + b == b;
    } else {
      EntryNamedConcat(a[1..], b, name);
      assert (a + b)[1..] == a[1..] + b;
    }
  }

  /** Removing other items does not change which item of a source comes first. */
  lemma {:induction false} EntryNamedWithout(stack: seq<Entry>, ids: set<nat>, name: string)
    requires forall i | 0 <= i < |stack| && stack[i].source == name :: stack[i].id !in ids
    ensures EntryNamed(Without(stack, ids), name) == EntryNamed(stack, name)
  {
    if stack != [] {
      var most, last := stack[..|stack| - 1], stack[|stack| - 1];
      EntryNamedWithout(most, ids, name);
      EntryNamedConcat(most, [last], name);
      EntryNamedConcat(Without(most, ids), [last], name);
      assert stack == most + [last] && Without(most, ids) + [] == Without(most, ids);
    }
  }

  lemma KeptSource(w: World, request: Request, k: nat)
    requires Complete(w, request) && k < |request.sources|
    ensures IdOf(Kept(w.stack, request), request.sources[k].name) == IdOf(w.stack, request.sources[k].name)
  {
    hide Complete, Without;
    CompleteFacts(w, request);
    if request.removeOthers {
      var name, ids := request.sources[k].name, UnlistedIds(w.stack, request.Names());
      assert name in request.Names();
      forall i | 0 <= i < |w.stack| && w.stack[i].source == name ensures w.stack[i].id !in ids {
        NotUnlisted(w.stack, request.Names(), i);
      }
      EntryNamedWithout(w.stack, ids, name);
    }
  }

  /** The listed sources are on top, in the order listed. */
  predicate StackInOrder(stack: seq<Entry>, sources: seq<Spec>) {
    && |sources| <= |stack|
    && forall i | 0 <= i < |sources| :: stack[|stack| - |sources| + i].source == sources[i].name
  }

  lemma InOrderIff(w: World, sources: seq<Spec>)
    ensures InOrder(Top(Stacked(Items(w)), |sources|), sources) <==> StackInOrder(w.stack, sources)
  {
    hide Stacked;
    StackedSorted(Items(w));
    var top := Top(Items(w), |sources|);
    if |w.stack| < |sources| {
      assert !(|sources| - 1 < |top|) && 0 <= |sources| - 1;
      assert sources[|sources| - 1] == sources[|sources| - 1];
    }
  }

  /** Sources that are in order stay so when the others are removed. */
  lemma KeptInOrder(w: World, request: Request)
    requires Complete(w, request) && StackInOrder(w.stack, request.sources) && request.removeOthers
    ensures StackInOrder(Kept(w.stack, request), request.sources)
  {
    hide Complete, Without;
    CompleteFacts(w, request);
    var n, stack, names := |request.sources|, w.stack, request.Names();
    var below, top, ids := stack[..|stack| - n], stack[|stack| - n..], UnlistedIds(stack, names);
    assert stack == below + top;
    WithoutConcat(below, top, ids);
    forall i | 0 <= i < |top| ensures top[i].id !in ids {
      assert top[i].source == request.sources[i].name && request.sources[i].name in names;
      NotUnlisted(stack, names, |stack| - n + i);
    }
    WithoutNone(top, ids);
  }

  lemma NotUnlisted(stack: seq<Entry>, wanted: set<string>, i: nat)
    requires DistinctIds(stack) && i < |stack| && stack[i].source in wanted
    ensures stack[i].id !in UnlistedIds(stack, wanted)
  {
  }

  /** The index that the planner moves every listed source to. */
  function LastIndex(stack: seq<Entry>, request: Request): nat {
    var count := if request.removeOthers then |request.sources| else |stack|;
    if count == 0 then 0 else count - 1
  }

  /** The stack that the removals and moves of a plan lead to. */
  function Reordered(stack: seq<Entry>, request: Request): seq<Entry> {
    if !request.order || request.sources == [] || StackInOrder(stack, request.sources) then Kept(stack, request)
    else MovedInTurn(Kept(stack, request), Listed(stack, request.sources), LastIndex(stack, request))
  }

  lemma ReorderedFacts(w: World, request: Request)
    requires Complete(w, request)
    ensures Rearranged(w.stack, Reordered(w.stack, request), request)
    ensures request.removeOthers ==> forall e | e in Reordered(w.stack, request) :: e.source in request.Names()
  {
    hide Complete, Without, IdOf, Kept, MovedInTurn, StackInOrder;
    KeptFacts(w, request);
    var listed := Listed(w.stack, request.sources);
    assert forall i | 0 <= i < |listed| :: listed[i] in listed;
    MovedInTurnKeeps(Kept(w.stack, request), listed, LastIndex(w.stack, request));
  }

  /** The removals and moves of the second plan, run after its other changes. */
  lemma RunRearrangement(defaults: Defaults, w: World, now: World, request: Request)
    requires Complete(w, request) && now.stack == w.stack
    ensures Run(defaults, request.sceneName, now,
                Effects(RemovalActions(request, Items(w)), Change) + Effects(Ordering(request, Items(w)), Change)) ==
            Some(now.(stack := Reordered(w.stack, request)))
  {
    hide Complete, Effects, Run, Removals, Ordering, Without, IdOf, StackInOrder, Kept, Rearranged, Items, Reordered;
    var kept, scene := Kept(w.stack, request), request.sceneName;
    RunKept(defaults, w, now, request);
    RunOrdering(defaults, w, now.(stack := kept), request);
    RunConcat(defaults, scene, now, Effects(RemovalActions(request, Items(w)), Change), Effects(Ordering(request, Items(w)), Change));
  }

  lemma RunKept(defaults: Defaults, w: World, now: World, request: Request)
    requires Complete(w, request) && now.stack == w.stack
    ensures Run(defaults, request.sceneName, now, Effects(RemovalActions(request, Items(w)), Change)) == Some(now.(stack := Kept(w.stack, request)))
  {
    hide Complete, Effects, Run, Removals, Without, IdOf;
    CompleteFacts(w, request);
    if request.removeOthers {
      RunRemovals(defaults, w, now, request, |w.stack|);
      assert Items(w)[..|w.stack|] == Items(w) && w.stack[..|w.stack|] == w.stack;
    } else {
      EffectsOfOther([], Change);
      var same := RunNone(defaults, request.sceneName, now);
      assert now.(stack := now.stack) == now;
    }
  }

  lemma RunOrdering(defaults: Defaults, w: World, now: World, request: Request)
    requires Complete(w, request) && now.stack == Kept(w.stack, request)
    ensures Run(defaults, request.sceneName, now, Effects(Ordering(request, Items(w)), Change)) == Some(now.(stack := Reordered(w.stack, request)))
  {
    hide Complete, Effects, Run, Moves, Without, IdOf, Stacked, Rearranged, FindItem, Kept, MovedInTurn, StackInOrder;
    AllItemsExist(w, request);
    InOrderIff(w, request.sources);
    if request.order && request.sources != [] && !StackInOrder(w.stack, request.sources) {
      assert FindItem(Items(w), request.sources[0].name).Some?;
      SomeItem(w, request);
      KeptFacts(w, request);
      assert DistinctIds(now.stack) && forall e | e in Listed(w.stack, request.sources) :: e in now.stack by { RearrangedFacts(w.stack, now.stack, request); }
      var n, listed := |request.sources|, Listed(w.stack, request.sources);
      assert request.sources[..n] == request.sources && listed[..n] == listed;
      RunMoves(defaults, w, now, request, n, LastIndex(w.stack, request));
    } else {
      EffectsOfOther([], Change);
      var same := RunNone(defaults, request.sceneName, now);
      assert now.(stack := now.stack) == now;
    }
  }

  lemma RearrangedFacts(was: seq<Entry>, stack: seq<Entry>, request: Request)
    requires Rearranged(was, stack, request)
    ensures DistinctIds(stack) && forall e | e in Listed(was, request.sources) :: e in stack
  {
  }

  lemma SomeItem(w: World, request: Request)
    requires Complete(w, request) && request.sources != []
    ensures w.stack != []
  {
    assert Exists(w, request.sources[0]);
  }

  lemma OnTop(below: seq<Entry>, stack: seq<Entry>, sources: seq<Spec>)
    ensures StackInOrder(below + Listed(stack, sources), sources)
  {
    hide IdOf;
    var listed := Listed(stack, sources);
    assert forall i | 0 <= i < |listed| :: (below + listed)[|below| + i] == listed[i];
  }

  /** The planner asks for nothing about a source exactly when its values are in line. */
  lemma NothingForSource(judge: Judge, w: World, request: Request, k: nat)
    requires Complete(w, request) && k < |request.sources|
    ensures SourceActions(judge, request.sceneName, Observe(w, request), request.sources[k]) == [] <==> Settled(judge, w, request, request.sources[k])
  {
    hide SettingsDiffer, VolumeDiffers, TracksDiffer, WantedTransform, FindItem, EntryOf, Items, Present, DistinctIds, IdOf;
    var i := IdOfSource(w, request, k);
    var spec, current := request.sources[k], Observe(w, request);
    assert Exists(w, spec) && spec.name in request.Names();
    NothingToCreate(w, request, k);
    InputSettledExactly(judge, spec, w.inputs[spec.name]);
    TransformSettled(judge, spec, current.video, PropsAt(w, w.stack[i].id).transform);
    hide FillsCanvas, Shows;
    assert InputChanges(judge, current, spec) == [] <==> InputSettled(judge, spec, w.inputs[spec.name]);
    assert TransformDiffers(judge, WantedTransform(spec, current.video), Some(ItemAt(w, i))) <==>
           TransformOff(judge, WantedTransform(spec, current.video), PropsAt(w, w.stack[i].id).transform);
    assert ItemChanges(judge, request.sceneName, current, spec) == [] <==> PropsSettled(judge, spec, current.video, PropsAt(w, w.stack[i].id));
  }

  lemma {:induction false} NothingForSources(judge: Judge, w: World, request: Request, count: nat)
    requires Complete(w, request) && count <= |request.sources|
    ensures AllSourceActions(judge, request.sceneName, Observe(w, request), request.sources[..count]) == [] <==>
            forall k | 0 <= k < count :: Settled(judge, w, request, request.sources[k])
  {
    hide Complete, Settled, SourceActions;
    if count > 0 {
      NothingForSources(judge, w, request, count - 1);
      NothingForSource(judge, w, request, count - 1);
      assert request.sources[..count][..count - 1] == request.sources[..count - 1];
    }
  }

  lemma {:induction false} NothingToRemove(scene: string, items: seq<Item>, wanted: set<string>)
    ensures Removals(scene, items, wanted) == [] <==> forall i | 0 <= i < |items| :: items[i].source in wanted
  {
    if items != [] {
      NothingToRemove(scene, items[..|items| - 1], wanted);
    }
  }

  lemma NothingToOrder(w: World, request: Request)
    requires Complete(w, request)
    ensures Ordering(request, Items(w)) == [] <==> (request.order && request.sources != [] ==> StackInOrder(w.stack, request.sources))
  {
    hide Stacked, FindItem, StackInOrder, Complete, Items;
    AllItemsExist(w, request);
    InOrderIff(w, request.sources);
    if request.order && request.sources != [] {
      assert FindItem(Items(w), request.sources[0].name).Some?;
    }
  }

  /** The scene shows what the request describes: the values, nothing else if so wanted, and the order if so wanted. */
  ghost predicate AsDescribed(judge: Judge, w: World, request: Request) {
    && (forall k | 0 <= k < |request.sources| :: Settled(judge, w, request, request.sources[k]))
    && (request.removeOthers ==> forall i | 0 <= i < |w.stack| :: w.stack[i].source in request.Names())
    && (request.order && request.sources != [] ==> StackInOrder(w.stack, request.sources))
  }

  /** What the changes bring about whatever the order: the values of the inputs, and the removal of others. */
  ghost predicate MostlyAsDescribed(judge: Judge, w: World, request: Request) {
    && (forall k | 0 <= k < |request.sources| ::
          request.sources[k].name in w.inputs && InputSettled(judge, request.sources[k], w.inputs[request.sources[k].name]))
    && (request.removeOthers ==> forall i | 0 <= i < |w.stack| :: w.stack[i].source in request.Names())
  }

  /** A scene needs no plan exactly when it is as described. */
  lemma NothingLeft(judge: Judge, w: World, request: Request)
    requires Complete(w, request)
    ensures PlanFor(judge, request, Observe(w, request)) == Plan([], []) <==> AsDescribed(judge, w, request)
  {
    hide Complete, Settled, AllSourceActions, Removals, Ordering, NameErrors, AllSourceErrors, StackInOrder;
    var current := Observe(w, request);
    CompleteFacts(w, request);
    UndisputedIffErrorFree(judge, w, request);
    NothingForSources(judge, w, request, |request.sources|);
    assert request.sources[..|request.sources|] == request.sources;
    NothingToRemove(request.sceneName, current.items, request.Names());
    assert forall i | 0 <= i < |w.stack| :: current.items[i].source == w.stack[i].source;
    NothingToOrder(w, request);
    PlanParts(judge, request, current);
  }

  /**
   The stack that the changes of one plan lead to has the listed sources in order, and the item of a
   source that comes first then is the one that the planner has changed, or needs no change.
   */
  ghost predicate EndsSettled(judge: Judge, w: World, request: Request) {
    var stack := Reordered(w.stack, request);
    && (request.order && request.sources != [] ==> StackInOrder(stack, request.sources))
    && (forall k | 0 <= k < |request.sources| :: FirstIsSettled(judge, w, stack, request, request.sources[k]))
  }

  ghost predicate FirstIsSettled(judge: Judge, w: World, stack: seq<Entry>, request: Request, spec: Spec) {
    || IdOf(stack, spec.name) == IdOf(w.stack, spec.name)
    || PropsSettled(judge, spec, Observe(w, request).video, PropsAt(w, IdOf(stack, spec.name)))
  }

  /** An item of a listed source that the planner did not find is not one that it changes. */
  lemma OtherItem(w: World, stack: seq<Entry>, request: Request, k: nat)
    requires Complete(w, request) && Rearranged(w.stack, stack, request) && k < |request.sources|
    requires IdOf(stack, request.sources[k].name) != IdOf(w.stack, request.sources[k].name)
    ensures IdOf(stack, request.sources[k].name) !in ListedIds(w.stack, request.sources)
  {
    hide FindItem, Items, EntryOf, IdOf, Rearranged;
    RearrangedKeeps(w, stack, request);
    var a := IdOfSource(w.(stack := stack), request, k);
    assert stack[a] in w.stack by { RearrangedFrom(w.stack, stack, request, a); }
    var at :| 0 <= at < |w.stack| && w.stack[at] == stack[a];
    forall j | 0 <= j < |request.sources| ensures IdOf(w.stack, request.sources[j].name) != stack[a].id {
      var b := IdOfSource(w, request, j);
      assert w.stack[b].source == request.sources[j].name && w.stack[at].source == request.sources[k].name;
    }
  }

  lemma RearrangedFrom(was: seq<Entry>, stack: seq<Entry>, request: Request, a: nat)
    requires Rearranged(was, stack, request) && a < |stack|
    ensures stack[a] in was
  {
  }

  lemma SettledAfter(judge: Judge, w: World, now: World, stack: seq<Entry>, request: Request, k: nat)
    requires Complete(w, request) && Settling(judge, w, now, request, |request.sources|) && k < |request.sources|
    requires Rearranged(w.stack, stack, request)
    ensures Settled(judge, now.(stack := stack), request, request.sources[k]) <==> FirstIsSettled(judge, w, stack, request, request.sources[k])
  {
    hide Complete, InputSettled, PropsSettled, IdOf, Rearranged, ListedIds;
    assert Settled(judge, now, request, request.sources[k]);
    if IdOf(stack, request.sources[k].name) != IdOf(w.stack, request.sources[k].name) {
      OtherItem(w, stack, request, k);
    }
  }

  /** The changes of the second plan all succeed, and the third plan is empty exactly when they end settled. */
  lemma ChangesSettle(judge: Judge, defaults: Defaults, w: World, request: Request) returns (done: World)
    requires judge.Reflexive() && Complete(w, request)
    ensures Run(defaults, request.sceneName, w, Effects(PlanFor(judge, request, Observe(w, request)).actions, Change)) == Some(done)
    ensures PlanFor(judge, request, Observe(done, request)) == Plan([], []) <==> AsDescribed(judge, done, request)
    ensures AsDescribed(judge, done, request) <==> EndsSettled(judge, w, request)
    ensures MostlyAsDescribed(judge, done, request)
  {
    hide Complete, PlanFor, Effects, Run, AllChangeEffects, Rearranged, Judge.Reflexive, RemovalActions, Ordering, StackInOrder, IdOf, Items, Reordered;
    hide Settling, Settled, FirstIsSettled, InputSettled;
    var scene, current, n := request.sceneName, Observe(w, request), |request.sources|;
    SecondPlan(judge, w, request);
    PlanStages(judge, request, current);
    var now := SettleFirst(judge, defaults, w, request, n);
    assert request.sources[..n] == request.sources;
    assert now.stack == w.stack by { SettlingFacts(judge, w, now, request, n); }
    RunRearrangement(defaults, w, now, request);
    RunConcat(defaults, scene, w, AllChangeEffects(judge, scene, current, request.sources),
              Effects(RemovalActions(request, current.items), Change) + Effects(Ordering(request, current.items), Change));
    var stack := Reordered(w.stack, request);
    done := now.(stack := stack);
    ReorderedFacts(w, request);
    SettlingKeepsComplete(judge, w, now, request);
    RearrangedKeeps(now, stack, request);
    forall k | 0 <= k < n
      ensures Settled(judge, done, request, request.sources[k]) <==> FirstIsSettled(judge, w, stack, request, request.sources[k])
      ensures request.sources[k].name in done.inputs && InputSettled(judge, request.sources[k], done.inputs[request.sources[k].name])
    {
      SettledAfter(judge, w, now, stack, request, k);
      InputIsSettled(judge, w, now, request, k);
    }
    assert forall i | 0 <= i < |stack| :: stack[i] in stack;
    NothingLeft(judge, done, request);
  }

  lemma InputIsSettled(judge: Judge, w: World, now: World, request: Request, k: nat)
    requires Settling(judge, w, now, request, |request.sources|) && k < |request.sources|
    ensures request.sources[k].name in now.inputs && InputSettled(judge, request.sources[k], now.inputs[request.sources[k].name])
  {
    assert Settled(judge, now, request, request.sources[k]);
  }

  lemma SettlingFacts(judge: Judge, w: World, now: World, request: Request, count: nat)
    requires Settling(judge, w, now, request, count)
    ensures now.stack == w.stack
  {
  }

  lemma NothingRemoved(stack: seq<Entry>, request: Request)
    requires !request.removeOthers
    ensures Kept(stack, request) == stack
  {
  }

}
