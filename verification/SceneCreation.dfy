/**
 The creation batch of an error-free plan: when OBS accepts all of it, and that afterwards every
 listed source exists in the scene.
 */
module SceneCreation {
  import opened Common
  import opened SceneValues
  import opened ApplyPlan
  import opened ApplyChecks
  import opened SceneWorld

  predicate Present(stack: seq<Entry>, name: string) {
    exists i | 0 <= i < |stack| :: stack[i].source == name
  }

  predicate Once(stack: seq<Entry>, name: string) {
    forall i, j | 0 <= i < j < |stack| :: stack[i].source == name ==> stack[j].source != name
  }

  /** Place `i` holds the first item of a source, counted from the bottom. */
  predicate First(stack: seq<Entry>, name: string, i: nat) {
    i < |stack| && stack[i].source == name && forall j | 0 <= j < i :: stack[j].source != name
  }

  /** The listed sources that have no item yet, in the order listed. */
  function Missing(stack: seq<Entry>, sources: seq<Spec>): seq<string> {
    if sources == [] then []
    else
      var last := sources[|sources| - 1];
      Missing(stack, sources[..|sources| - 1]) + if Present(stack, last.name) then [] else [last.name]
  }

  /** New items with consecutive identities. */
  function NewItems(names: seq<string>, id: nat): seq<Entry> {
    seq(|names|, i requires 0 <= i < |names| => Entry(id + i, names[i]))
  }

  /** The stack with a new item on top for each of these sources that has none. */
  function FilledTo(w: World, sources: seq<Spec>): seq<Entry> {
    w.stack + NewItems(Missing(w.stack, sources), w.nextId)
  }

  /** The scene that the request is about, in a well-formed OBS. */
  ghost predicate WorldOk(w: World, request: Request) {
    && DistinctIds(w.stack)
    && (forall i | 0 <= i < |w.stack| :: w.stack[i].id < w.nextId && w.stack[i].id in w.props)
    && (request.sceneName !in w.scenes ==> w.stack == [])
    && (forall k | 0 <= k < |request.sources| && Present(w.stack, request.sources[k].name) ::
          request.sources[k].name in w.inputs || request.sources[k].name in w.scenes)
  }

  /** OBS offers the kinds of the sources that are missing, and a missing scene does not have the name of an input. */
  ghost predicate Creatable(w: World, request: Request) {
    && (request.sceneName in w.scenes || request.sceneName !in w.inputs)
    && (forall k | 0 <= k < |request.sources| && request.sources[k].name !in w.inputs && request.sources[k].Kind().Some? ::
          request.sources[k].Kind().value in w.kinds)
  }

  lemma {:induction false} FindItemFirst(items: seq<Item>, name: string)
    ensures FindItem(items, name).None? <==> forall i | 0 <= i < |items| :: items[i].source != name
    ensures forall i | 0 <= i < |items| && items[i].source == name && (forall j | 0 <= j < i :: items[j].source != name) ::
              FindItem(items, name) == Some(items[i])
  {
    if items != [] && items[0].source != name {
      FindItemFirst(items[1..], name);
      assert forall i | 1 <= i < |items| :: items[i] == items[1..][i - 1];
    }
  }

  /** The item that the planner finds for a source is its first one in the scene. */
  lemma FindAt(w: World, name: string, i: nat)
    requires First(w.stack, name, i)
    ensures FindItem(Items(w), name) == Some(ItemAt(w, i))
  {
    FindItemFirst(Items(w), name);
    assert forall j | 0 <= j < |w.stack| :: Items(w)[j].source == w.stack[j].source;
  }

  lemma FoundIffPresent(w: World, name: string)
    ensures FindItem(Items(w), name).Some? <==> Present(w.stack, name)
  {
    FindItemFirst(Items(w), name);
    assert forall i | 0 <= i < |w.stack| :: Items(w)[i].source == w.stack[i].source;
  }

  /** Source `k` exists in the scene with the kind asked for. */
  ghost predicate Exists(w: World, spec: Spec) {
    && spec.name in w.inputs
    && Present(w.stack, spec.name)
    && (spec.Kind().Some? ==> w.inputs[spec.name].kind == spec.Kind().value)
  }

  /** A new input has the settings given for it. */
  ghost predicate SetAsAsked(spec: Spec, input: Input) {
    spec.settings.Some? ==> forall k | k in spec.settings.value :: k in input.settings && input.settings[k] == spec.settings.value[k]
  }

  /** A new item is shown unless it is to be hidden. */
  ghost predicate ShownAsAsked(w: World, entry: Entry, sources: seq<Spec>) {
    forall k | 0 <= k < |sources| && sources[k].name == entry.source :: PropsAt(w, entry.id).enabled <==> sources[k].visible != Some(false)
  }

  /** `now` is `w` after the creations of the first `count` sources. */
  ghost predicate Created(w: World, now: World, request: Request, count: nat) {
    && WorldOk(now, request)
    && now.scenes == w.scenes + {request.sceneName}
    && now.kinds == w.kinds
    && (forall k | 0 <= k < count && k < |request.sources| :: Exists(now, request.sources[k]))
    && (forall k | count <= k < |request.sources| ::
          && (request.sources[k].name in now.inputs <==> request.sources[k].name in w.inputs)
          && (Present(now.stack, request.sources[k].name) <==> Present(w.stack, request.sources[k].name)))
    && (forall name | name in w.inputs :: name in now.inputs && now.inputs[name] == w.inputs[name])
    && (forall k | 0 <= k < count && k < |request.sources| && request.sources[k].name !in w.inputs ::
          request.sources[k].name in now.inputs && SetAsAsked(request.sources[k], now.inputs[request.sources[k].name]))
    && Grown(w, now, request.sources, count)
  }

  /**
   The missing ones among the first `count` sources have been put on top, the items that were there are
   as they were, and no source has become ambiguous.
   */
  ghost predicate Grown(was: World, now: World, sources: seq<Spec>, count: nat) {
    && (count <= |sources| ==>
          now.stack == FilledTo(was, sources[..count]) && now.nextId == was.nextId + |Missing(was.stack, sources[..count])|)
    && was.nextId <= now.nextId && now.canvas == was.canvas
    && (forall i | 0 <= i < |was.stack| :: PropsAt(now, was.stack[i].id) == PropsAt(was, was.stack[i].id))
    && (forall i | |was.stack| <= i < |now.stack| :: ShownAsAsked(now, now.stack[i], sources))
    && (forall k | 0 <= k < |sources| && Once(was.stack, sources[k].name) :: Once(now.stack, sources[k].name))
  }

  /** `next` is `now`, with an item of a source that was missing. */
  ghost predicate Joined(now: World, next: World, name: string) {
    && next.stack == now.stack + [Entry(now.nextId, name)] && next.nextId == now.nextId + 1
    && next.canvas == now.canvas
    && forall id: nat | id != now.nextId :: PropsAt(next, id) == PropsAt(now, id)
  }

  lemma GrownNext(was: World, now: World, next: World, sources: seq<Spec>, k: nat)
    requires Grown(was, now, sources, k) && k < |sources|
    requires forall i | 0 <= i < |was.stack| :: was.stack[i].id < was.nextId
    requires forall i | 0 <= i < |now.stack| :: now.stack[i].id < now.nextId
    requires Present(now.stack, sources[k].name) <==> Present(was.stack, sources[k].name)
    requires if Present(was.stack, sources[k].name) then next == now
             else Joined(now, next, sources[k].name) && (PropsAt(next, now.nextId).enabled <==> sources[k].visible != Some(false))
    requires forall i, j | 0 <= i < j < |sources| :: sources[i].name != sources[j].name
    ensures Grown(was, next, sources, k + 1)
  {
    hide PropsAt;
    assert sources[..k + 1][..k] == sources[..k];
    var names, name := Missing(was.stack, sources[..k]), sources[k].name;
    assert NewItems(names + [name], was.nextId) == NewItems(names, was.nextId) + [Entry(was.nextId + |names|, name)];
    assert names + [] == names;
    OnceNext(now.stack, next.stack, sources, k);
    hide Once, Missing;
    forall i | |was.stack| <= i < |next.stack| ensures ShownAsAsked(next, next.stack[i], sources) {
      if i < |now.stack| {
        assert ShownAsAsked(now, now.stack[i], sources);
      }
    }
  }

  lemma OnceNext(stack: seq<Entry>, next: seq<Entry>, sources: seq<Spec>, k: nat)
    requires k < |sources| && (next == stack || (|next| == |stack| + 1 && next[..|stack|] == stack && next[|stack|].source == sources[k].name && !Present(stack, sources[k].name)))
    ensures forall j | 0 <= j < |sources| && Once(stack, sources[j].name) :: Once(next, sources[j].name)
  {
    forall j | 0 <= j < |sources| && Once(stack, sources[j].name) ensures Once(next, sources[j].name) {
      forall a, b | 0 <= a < b < |next| ensures next[a].source == sources[j].name ==> next[b].source != sources[j].name {
        assert a < |stack| && next[a] == stack[a];
        if b < |stack| {
          assert next[b] == stack[b];
        }
      }
    }
  }

  /** The observed world raises no error about its sources. */
  ghost predicate Undisputed(w: World, request: Request) {
    && request.Distinct()
    && (forall k | 0 <= k < |request.sources| ::
          var spec := request.sources[k];
          && spec.name !in w.scenes
          && if spec.name in w.inputs then spec.Kind().Some? ==> w.inputs[spec.name].kind == spec.Kind().value
             else spec.Kind().Some?)
  }

  lemma UndisputedIffErrorFree(judge: Judge, w: World, request: Request)
    ensures PlanFor(judge, request, Observe(w, request)).errors == [] <==> Undisputed(w, request)
  {
    hide PlanFor, Items;
    ErrorFree(judge, request, Observe(w, request));
  }

  lemma SceneCreated(defaults: Defaults, w: World, request: Request) returns (now: World)
    requires WorldOk(w, request) && Creatable(w, request) && Undisputed(w, request)
    ensures Run(defaults, request.sceneName, w, NewScene(request, Observe(w, request))) == Some(now)
    ensures Created(w, now, request, 0)
  {
    now := w.(scenes := w.scenes + {request.sceneName});
    if request.sceneName in w.scenes {
      assert now == w;
    } else {
      RunOne(defaults, request.sceneName, w, CreateScene(request.sceneName));
    }
  }

  /** The item that creation adds is the only one of its source. */
  lemma PlacedKeepsOk(defaults: Defaults, w: World, request: Request, k: nat, enabled: bool, inputs: map<string, Input>)
    requires WorldOk(w, request) && k < |request.sources| && request.Distinct()
    requires request.sceneName in w.scenes && !Present(w.stack, request.sources[k].name)
    requires request.sources[k].name in inputs && forall name | name in w.inputs :: name in inputs
    ensures var now := Placed(w, defaults, request.sources[k].name, enabled).(inputs := inputs);
            && WorldOk(now, request) && Present(now.stack, request.sources[k].name)
            && (forall j | 0 <= j < |request.sources| && j != k ::
                  Present(now.stack, request.sources[j].name) <==> Present(w.stack, request.sources[j].name))
  {
    var name := request.sources[k].name;
    var now := Placed(w, defaults, name, enabled).(inputs := inputs);
    var last := |w.stack|;
    assert now.stack[last].source == name && forall i | 0 <= i < last :: now.stack[i] == w.stack[i];
    forall j | 0 <= j < |request.sources|
      ensures j != k ==> (Present(now.stack, request.sources[j].name) <==> Present(w.stack, request.sources[j].name))
    {
      assert j != k ==> request.sources[j].name != name;
      if i :| 0 <= i < |w.stack| && w.stack[i].source == request.sources[j].name {
        assert now.stack[i].source == request.sources[j].name;
      }
    }
  }

  lemma IdsAreOld(w: World, request: Request)
    requires WorldOk(w, request)
    ensures forall i | 0 <= i < |w.stack| :: w.stack[i].id < w.nextId
  {
  }

  /** A source that was missing is there after it has been placed. */
  lemma PlacingCreates(defaults: Defaults, w: World, now: World, request: Request, k: nat, enabled: bool, inputs: map<string, Input>)
    requires WorldOk(w, request) && Created(w, now, request, k) && request.Distinct() && k < |request.sources|
    requires !Present(now.stack, request.sources[k].name)
    requires forall name | name in now.inputs :: name in inputs && inputs[name] == now.inputs[name]
    requires forall name | name in inputs :: name in now.inputs || name == request.sources[k].name
    requires request.sources[k].name in inputs
    requires request.sources[k].name !in now.inputs ==> SetAsAsked(request.sources[k], inputs[request.sources[k].name])
    requires enabled <==> request.sources[k].visible != Some(false)
    requires request.sources[k].Kind().Some? ==> inputs[request.sources[k].name].kind == request.sources[k].Kind().value
    ensures Created(w, Placed(now, defaults, request.sources[k].name, enabled).(inputs := inputs), request, k + 1)
  {
    hide Present, Once, WorldOk, DistinctIds, Grown;
    assert request.sceneName in now.scenes;
    PlacedKeepsOk(defaults, now, request, k, enabled, inputs);
    var next := Placed(now, defaults, request.sources[k].name, enabled).(inputs := inputs);
    assert Joined(now, next, request.sources[k].name);
    IdsAreOld(w, request);
    IdsAreOld(now, request);
    GrownNext(w, now, next, request.sources, k);
  }

  /** The creation of one more source. */
  lemma CreateNext(defaults: Defaults, w: World, now: World, request: Request, k: nat) returns (next: World)
    requires Creatable(w, request) && Undisputed(w, request) && Created(w, now, request, k) && k < |request.sources|
    requires WorldOk(w, request)
    ensures Run(defaults, request.sceneName, now, CreationEffects(request.sceneName, Observe(w, request), request.sources[k])) == Some(next)
    ensures Created(w, next, request, k + 1)
  {
    hide FindItem, Present, Once, DistinctIds, Effects, Run, Items, Grown;
    var spec, scene, current := request.sources[k], request.sceneName, Observe(w, request);
    FoundIffPresent(w, spec.name);
    if spec.name !in w.inputs {
      var effect := CreateInput(scene, spec.name, spec.Kind().value, spec.Settings(), spec.Visible());
      EffectsOfOne(Action(spec.name, Create, Some(effect)));
      RunOne(defaults, scene, now, effect);
      next := Step(defaults, scene, now, effect).value;
      PlacingCreates(defaults, w, now, request, k, spec.Visible(), next.inputs);
    } else if !Present(w.stack, spec.name) {
      var effect := CreateItem(scene, spec.name, spec.Visible());
      EffectsOfOne(Action(spec.name, Create, Some(effect)));
      RunOne(defaults, scene, now, effect);
      next := Step(defaults, scene, now, effect).value;
      PlacingCreates(defaults, w, now, request, k, spec.Visible(), next.inputs);
    } else {
      EffectsOfOther([], Create);
      next := RunNone(defaults, scene, now);
      IdsAreOld(now, request);
      GrownNext(w, now, now, request.sources, k);
    }
  }

  lemma RunNone(defaults: Defaults, scene: string, w: World) returns (now: World)
    ensures now == w && Run(defaults, scene, w, []) == Some(w)
  {
    now := w;
  }

  lemma {:induction false} CreateFirst(defaults: Defaults, w: World, now: World, request: Request, count: nat) returns (next: World)
    requires Creatable(w, request) && Undisputed(w, request) && Created(w, now, request, 0) && count <= |request.sources|
    requires WorldOk(w, request)
    ensures Run(defaults, request.sceneName, now, AllCreationEffects(request.sceneName, Observe(w, request), request.sources[..count])) == Some(next)
    ensures Created(w, next, request, count)
  {
    hide Created, CreationEffects, WorldOk, Creatable, Undisputed;
    if count == 0 {
      next := now;
    } else {
      var before := CreateFirst(defaults, w, now, request, count - 1);
      next := CreateNext(defaults, w, before, request, count - 1);
      var scene, current := request.sceneName, Observe(w, request);
      assert request.sources[..count][..count - 1] == request.sources[..count - 1];
      RunConcat(defaults, scene, now, AllCreationEffects(scene, current, request.sources[..count - 1]),
                CreationEffects(scene, current, request.sources[count - 1]));
    }
  }

  /** OBS accepts the whole creation batch, and then every listed source exists in the scene. */
  lemma CreationsSucceed(judge: Judge, defaults: Defaults, w: World, request: Request) returns (made: World)
    requires WorldOk(w, request) && Creatable(w, request)
    requires PlanFor(judge, request, Observe(w, request)).errors == []
    ensures Run(defaults, request.sceneName, w, Effects(PlanFor(judge, request, Observe(w, request)).actions, Create)) == Some(made)
    ensures Created(w, made, request, |request.sources|)
  {
    hide PlanFor, Effects, Created, WorldOk, Creatable, Undisputed, Observe, AllCreationEffects;
    UndisputedIffErrorFree(judge, w, request);
    PlanStages(judge, request, Observe(w, request));
    var now := SceneCreated(defaults, w, request);
    made := CreateFirst(defaults, w, now, request, |request.sources|);
    assert request.sources[..|request.sources|] == request.sources;
    RunConcat(defaults, request.sceneName, w, NewScene(request, Observe(w, request)),
              AllCreationEffects(request.sceneName, Observe(w, request), request.sources));
  }

  lemma {:induction false} RunKeepsKinds(defaults: Defaults, scene: string, w: World, effects: seq<Effect>)
    ensures Run(defaults, scene, w, effects).Some? ==> Run(defaults, scene, w, effects).value.kinds == w.kinds
  {
    if effects != [] {
      RunKeepsKinds(defaults, scene, w, effects[..|effects| - 1]);
    }
  }

  /** A batch that OBS accepts asks for known kinds only. */
  lemma {:induction false} AcceptedKinds(defaults: Defaults, w: World, now: World, request: Request, count: nat)
    requires count <= |request.sources| && now.kinds == w.kinds
    requires Run(defaults, request.sceneName, now, AllCreationEffects(request.sceneName, Observe(w, request), request.sources[..count])).Some?
    ensures forall k | 0 <= k < count && request.sources[k].name !in w.inputs && request.sources[k].Kind().Some? ::
              request.sources[k].Kind().value in w.kinds
  {
    hide Items, CreationEffects, Run;
    if count > 0 {
      var scene, current, spec := request.sceneName, Observe(w, request), request.sources[count - 1];
      var before, last := AllCreationEffects(scene, current, request.sources[..count - 1]), CreationEffects(scene, current, spec);
      assert request.sources[..count][..count - 1] == request.sources[..count - 1];
      RunConcat(defaults, scene, now, before, last);
      AcceptedKinds(defaults, w, now, request, count - 1);
      RunKeepsKinds(defaults, scene, now, before);
      if spec.name !in w.inputs && spec.Kind().Some? {
        NewInput(scene, current, spec);
        RunOne(defaults, scene, Run(defaults, scene, now, before).value, last[0]);
      }
    }
  }

  lemma NewInput(scene: string, current: Current, spec: Spec)
    requires spec.name !in current.kinds && spec.Kind().Some?
    ensures CreationEffects(scene, current, spec) == [CreateInput(scene, spec.name, spec.Kind().value, spec.Settings(), spec.Visible())]
  {
    EffectsOfOne(Action(spec.name, Create, Some(CreateInput(scene, spec.name, spec.Kind().value, spec.Settings(), spec.Visible()))));
  }

  /** OBS accepts the creation batch of an error-free plan exactly when the names and kinds allow it. */
  lemma CreationsSucceedExactly(judge: Judge, defaults: Defaults, w: World, request: Request)
    requires WorldOk(w, request) && PlanFor(judge, request, Observe(w, request)).errors == []
    ensures Run(defaults, request.sceneName, w, Effects(PlanFor(judge, request, Observe(w, request)).actions, Create)).Some? <==> Creatable(w, request)
  {
    hide PlanFor, Effects, WorldOk, Undisputed, AllCreationEffects, Run, Items;
    if Creatable(w, request) {
      var made := CreationsSucceed(judge, defaults, w, request);
    }
    var scene, current := request.sceneName, Observe(w, request);
    PlanStages(judge, request, current);
    var first, rest := NewScene(request, current), AllCreationEffects(scene, current, request.sources);
    RunConcat(defaults, scene, w, first, rest);
    if Run(defaults, scene, w, first + rest).Some? {
      RunKeepsKinds(defaults, scene, w, first);
      assert request.sources[..|request.sources|] == request.sources;
      AcceptedKinds(defaults, w, Run(defaults, scene, w, first).value, request, |request.sources|);
      if scene !in w.scenes {
        RunOne(defaults, scene, w, CreateScene(scene));
      }
    }
  }
}
