/**
 What the planner of Apply Scene asks for, said without the planner: the order it sorts items in, the
 problems it reports, and that the transport admits exactly the effects that some scene calls for.
 */
module PlanFacts {
  import opened Common
  import opened SceneValues
  import opened ApplyPlan
  import opened ApplyChecks
  import opened SceneCreation
  import opened SceneConvergence

  // ----- The order of the items -----

  ghost predicate ByIndex(items: seq<Item>) {
    forall i, j | 0 <= i < j < |items| :: items[i].index <= items[j].index
  }

  /** The items at one index, in their order. */
  function AtIndex(items: seq<Item>, index: real): seq<Item> {
    if items == [] then []
    else AtIndex(items[..|items| - 1], index) + if items[|items| - 1].index == index then [items[|items| - 1]] else []
  }

  lemma AtIndexNext(items: seq<Item>, item: Item, index: real)
    ensures AtIndex(items + [item], index) == AtIndex(items, index) + if item.index == index then [item] else []
  {
    assert (items + [item])[..|items|] == items;
  }

  lemma {:induction false} InsertSorts(stack: seq<Item>, item: Item)
    requires ByIndex(stack)
    ensures ByIndex(Insert(stack, item))
    ensures forall e | e in Insert(stack, item) :: e == item || e in stack
  {
    if stack != [] && stack[|stack| - 1].index > item.index {
      var most, top := stack[..|stack| - 1], stack[|stack| - 1];
      InsertSorts(most, item);
      var sorted := Insert(most, item);
      assert forall i | 0 <= i < |sorted| :: sorted[i] in sorted;
      assert forall e | e in sorted :: e.index <= top.index;
    }
  }

  lemma {:induction false} InsertIsStable(stack: seq<Item>, item: Item, x: real)
    ensures AtIndex(Insert(stack, item), x) == AtIndex(stack, x) + if item.index == x then [item] else []
  {
    if stack == [] || stack[|stack| - 1].index <= item.index {
      AtIndexNext(stack, item, x);
    } else {
      var most, top := stack[..|stack| - 1], stack[|stack| - 1];
      InsertIsStable(most, item, x);
      AtIndexNext(Insert(most, item), top, x);
    }
  }

  /** The planner looks at the items by index, and those at one index in the order reported. */
  lemma {:induction false} StackedIsStableSort(items: seq<Item>)
    ensures ByIndex(Stacked(items))
    ensures forall x :: AtIndex(Stacked(items), x) == AtIndex(items, x)
  {
    if items != [] {
      StackedIsStableSort(items[..|items| - 1]);
      var most, last := Stacked(items[..|items| - 1]), items[|items| - 1];
      InsertSorts(most, last);
      forall x ensures AtIndex(Stacked(items), x) == AtIndex(items, x) {
        InsertIsStable(most, last, x);
      }
    }
  }

  // ----- The problems reported -----

  /** What each problem says of the request and the scene. */
  ghost predicate Justified(request: Request, current: Current, problem: Problem) {
    match problem
    case Repeated(name) => exists i, j | 0 <= i < j < |request.sources| :: request.sources[i].name == name == request.sources[j].name
    case IsScene(name) => name in request.Names() && (name in current.sceneNames || name == request.sceneName)
    case WrongKind(name) =>
      exists i | 0 <= i < |request.sources| ::
        && request.sources[i].name == name && name in current.kinds
        && request.sources[i].kind.Some? && request.sources[i].kind.value != "" && request.sources[i].kind.value != current.kinds[name]
    case NoKind(name) =>
      exists i | 0 <= i < |request.sources| ::
        request.sources[i].name == name && name !in current.kinds && request.sources[i].kind in {None, Some("")}
  }

  ghost predicate ListedTwice(sources: seq<Spec>, name: string, count: nat)
    requires count <= |sources|
  {
    exists i, j | 0 <= i < j < count :: sources[i].name == name == sources[j].name
  }

  ghost predicate ListedOnce(sources: seq<Spec>, name: string, count: nat)
    requires count <= |sources|
  {
    exists i | 0 <= i < count :: sources[i].name == name
  }

  lemma ListedNext(sources: seq<Spec>, name: string, count: nat)
    requires 0 < count <= |sources|
    ensures ListedOnce(sources, name, count) <==> ListedOnce(sources, name, count - 1) || sources[count - 1].name == name
    ensures ListedTwice(sources, name, count) <==>
            ListedTwice(sources, name, count - 1) || (ListedOnce(sources, name, count - 1) && sources[count - 1].name == name)
  {
  }

  lemma MoreProblems(sources: seq<Spec>, scenes: set<string>, scene: string, index: nat, problem: Problem)
    requires index < |sources|
    ensures problem in ListedMore(sources, scenes, scene, index) <==>
            match problem
            case Repeated(name) => ListedOnce(sources, name, index) && sources[index].name == name
            case IsScene(name) => sources[index].name == name && (name in scenes || name == scene)
            case _ => false
  {
  }

  lemma {:induction false} NameProblems(sources: seq<Spec>, scenes: set<string>, scene: string, count: nat, problem: Problem)
    requires count <= |sources|
    ensures problem in NameErrors(sources, scenes, scene, count) <==>
            match problem
            case Repeated(name) => ListedTwice(sources, name, count)
            case IsScene(name) => ListedOnce(sources, name, count) && (name in scenes || name == scene)
            case _ => false
  {
    if count > 0 {
      NameProblems(sources, scenes, scene, count - 1, problem);
      MoreProblems(sources, scenes, scene, count - 1, problem);
      ListedNext(sources, problem.name, count);
      hide ListedTwice, ListedOnce, ListedMore;
    }
  }

  lemma {:induction false} SourceProblems(current: Current, sources: seq<Spec>, problem: Problem)
    ensures problem in AllSourceErrors(current, sources) <==> exists i | 0 <= i < |sources| :: SourceError(current, sources[i]) == Some(problem)
  {
    hide SourceError;
    if sources != [] {
      var most, last := sources[..|sources| - 1], sources[|sources| - 1];
      SourceProblems(current, most, problem);
      if i :| 0 <= i < |most| && SourceError(current, most[i]) == Some(problem) {
        assert SourceError(current, sources[i]) == Some(problem);
      }
      if SourceError(current, last) == Some(problem) {
        assert sources[|sources| - 1] == last;
      }
      if i :| 0 <= i < |sources| && SourceError(current, sources[i]) == Some(problem) {
        assert i < |most| ==> most[i] == sources[i];
      }
    }
  }

  lemma SourceProblem(current: Current, spec: Spec, problem: Problem)
    ensures SourceError(current, spec) == Some(problem) <==>
            match problem
            case WrongKind(name) =>
              && spec.name == name && name in current.kinds
              && spec.kind.Some? && spec.kind.value != "" && spec.kind.value != current.kinds[name]
            case NoKind(name) => spec.name == name && name !in current.kinds && spec.kind in {None, Some("")}
            case _ => false
  {
  }

  lemma PlanErrors(judge: Judge, request: Request, current: Current)
    ensures PlanFor(judge, request, current).errors ==
            NameErrors(request.sources, current.sceneNames, request.sceneName, |request.sources|) + AllSourceErrors(current, request.sources)
  {
    hide NameErrors, AllSourceErrors, AllSourceActions, Removals, Ordering;
  }

  /** A problem is reported exactly when there is one. */
  lemma ProblemsAreExact(judge: Judge, request: Request, current: Current, problem: Problem)
    ensures problem in PlanFor(judge, request, current).errors <==> Justified(request, current, problem)
  {
    hide NameErrors, AllSourceErrors, PlanFor, SourceError;
    var sources := request.sources;
    PlanErrors(judge, request, current);
    NameProblems(sources, current.sceneNames, request.sceneName, |sources|, problem);
    SourceProblems(current, sources, problem);
    forall i | 0 <= i < |sources| ensures problem.Repeated? || problem.IsScene? ==> SourceError(current, sources[i]) != Some(problem) {
      SourceProblem(current, sources[i], problem);
    }
    if problem.WrongKind? || problem.NoKind? {
      forall i | 0 <= i < |sources| {
        SourceProblem(current, sources[i], problem);
      }
    }
  }

  /** While a source has no item, what is to be done with the item is listed without an effect. */
  lemma WaitingChanges(judge: Judge, scene: string, current: Current, spec: Spec)
    requires FindItem(current.items, spec.name).None?
    ensures ItemChanges(judge, scene, current, spec) ==
            (if spec.locked.Some? then [Action(spec.name, Change, None)] else [])
            + (if spec.transform != map[] || (spec.fit && current.video.Some?) then [Action(spec.name, Change, None)] else [])
  {
    hide FindItem;
    var wanted := WantedTransform(spec, current.video);
    if spec.fit && current.video.Some? {
      assert "alignment" in wanted;
    } else {
      assert map[] + spec.transform == spec.transform;
      if spec.transform != map[] {
        var k :| k in spec.transform;
      }
    }
    assert TransformDiffers(judge, wanted, None) <==> wanted != map[];
  }

  // ----- What the transport admits -----

  /** A scene in which the listed sources exist, except for some, with the kinds asked for. */
  function Kinds(request: Request, absent: set<string>): map<string, string> {
    map name | name in request.Names() && name !in absent :: KindOf(FindSpec(request.sources, name))
  }

  function KindOf(spec: Option<Spec>): string {
    if spec.Some? && spec.value.Kind().Some? then spec.value.Kind().value else ""
  }

  lemma NoErrors(judge: Judge, request: Request, current: Current, absent: set<string>)
    requires request.Distinct() && current.sceneNames == {} && current.kinds == Kinds(request, absent)
    requires forall k | 0 <= k < |request.sources| && request.sources[k].name in absent :: request.sources[k].Kind().Some?
    ensures PlanFor(judge, request, current).errors == []
    ensures forall k | 0 <= k < |request.sources| :: SourceError(current, request.sources[k]).None?
  {
    hide PlanFor;
    forall k | 0 <= k < |request.sources| ensures SourceError(current, request.sources[k]).None? {
      FindSpecAt(request.sources, k);
      assert request.sources[k].name in request.Names();
    }
    ErrorFree(judge, request, current);
  }

  lemma {:induction false} EffectOf(actions: seq<Action>, action: Action)
    requires action in actions && action.effect.Some?
    ensures action.effect.value in Effects(actions, action.phase)
  {
    if action != actions[|actions| - 1] {
      EffectOf(actions[..|actions| - 1], action);
    }
  }

  lemma {:induction false} AmongAll(judge: Judge, scene: string, current: Current, sources: seq<Spec>, k: nat, action: Action)
    requires k < |sources| && action in SourceActions(judge, scene, current, sources[k])
    ensures action in AllSourceActions(judge, scene, current, sources)
  {
    hide SourceActions;
    if k < |sources| - 1 {
      AmongAll(judge, scene, current, sources[..|sources| - 1], k, action);
    }
  }

  /** What is planned for a source is part of the plan. */
  lemma PlannedFor(judge: Judge, request: Request, current: Current, k: nat, action: Action)
    requires k < |request.sources| && SourceError(current, request.sources[k]).None? && action.effect.Some?
    requires var spec := request.sources[k];
             || action in Creation(request.sceneName, current, spec)
             || action in InputChanges(judge, current, spec)
             || action in ItemChanges(judge, request.sceneName, current, spec)
    ensures action.effect.value in Effects(PlanFor(judge, request, current).actions, action.phase)
  {
    hide PlanFor, Creation, InputChanges, ItemChanges, SourceError, AllSourceActions, RemovalActions, Ordering;
    AmongAll(judge, request.sceneName, current, request.sources, k, action);
    PlanParts(judge, request, current);
    EffectOf(PlanFor(judge, request, current).actions, action);
  }

  /** The source of a request that an effect names. */
  lemma SpecOf(sources: seq<Spec>, name: string) returns (k: nat)
    requires FindSpec(sources, name).Some?
    ensures k < |sources| && sources[k].name == name && FindSpec(sources, name) == Some(sources[k])
  {
    if sources[0].name == name {
      k := 0;
    } else {
      k := SpecOf(sources[1..], name);
      k := k + 1;
    }
  }

  /** Some scene as the planner may observe it calls for the effect. */
  ghost predicate Called(judge: Judge, request: Request, current: Current, effect: Effect) {
    && PlanFor(judge, request, current).errors == []
    && (request.NeedsCanvas() ==> current.video.Some?)
    && effect in Effects(PlanFor(judge, request, current).actions, if IsCreation(effect) then Create else Change)
  }

  lemma CreationIsCalled(judge: Judge, request: Request, effect: Effect) returns (current: Current)
    requires request.Distinct() && IsCreation(effect) && ValidEffect(effect, request)
    ensures Called(judge, request, current, effect)
  {
    hide PlanFor, Effects, SourceError, Request.Distinct;
    var video, scene := Some(Canvas(0.0, 0.0)), request.sceneName;
    match effect
    case CreateScene(_) =>
      current := Current(false, {}, Kinds(request, {}), [], map[], video);
      NoErrors(judge, request, current, {});
      var action := Action(scene, Create, Some(effect));
      PlanParts(judge, request, current);
      hide AllSourceActions, RemovalActions, Ordering;
      EffectOf(PlanFor(judge, request, current).actions, action);
    case CreateInput(_, input, kind, settings, enabled) =>
      var k := SpecOf(request.sources, input);
      current := Current(true, {}, Kinds(request, {input}), [], map[], video);
      SameName(request, k, input);
      NoErrors(judge, request, current, {input});
      PlannedFor(judge, request, current, k, Action(input, Create, Some(effect)));
    case CreateItem(_, input, enabled) =>
      var k := SpecOf(request.sources, input);
      current := Current(true, {}, Kinds(request, {}), [], map[], video);
      NoErrors(judge, request, current, {});
      assert input in request.Names();
      PlannedFor(judge, request, current, k, Action(input, Create, Some(effect)));
  }

  lemma SameName(request: Request, k: nat, name: string)
    requires request.Distinct() && k < |request.sources| && request.sources[k].name == name
    ensures forall j | 0 <= j < |request.sources| && request.sources[j].name == name :: j == k
  {
  }

  lemma InputChangeIsCalled(judge: Judge, request: Request, effect: Effect) returns (current: Current)
    requires request.Distinct() && ValidEffect(effect, request)
    requires effect.SettingsOverlay? || effect.Mute? || effect.VolumeDb? || effect.AudioTracks?
    requires effect.SettingsOverlay? ==> effect.settings != map[]
    ensures Called(judge, request, current, effect)
  {
    hide PlanFor, Effects, SourceError, Request.Distinct, TrackFlags, TracksDiffer, VolumeDiffers;
    var name := effect.input;
    var k := SpecOf(request.sources, name);
    var found := if effect.SettingsOverlay? then map[name := Input("", map[], None, None, {})] else map[];
    current := Current(true, {}, Kinds(request, {}), [], found, Some(Canvas(0.0, 0.0)));
    NoErrors(judge, request, current, {});
    assert name in request.Names();
    var action, spec, input := Action(name, Change, Some(effect)), request.sources[k], InputOf(current, name);
    if effect.SettingsOverlay? {
      var key :| key in effect.settings;
      assert SettingsDiffer(judge, spec.Settings(), map[]);
      assert action in SettingsChange(judge, true, spec, input);
    } else if effect.Mute? {
      assert action in MuteChange(spec, input);
    } else if effect.VolumeDb? {
      assert action in VolumeChange(spec, input);
    } else {
      assert action in TracksChange(spec, input);
    }
    hide SettingsDiffer, SettingsChange, MuteChange, VolumeChange, TracksChange;
    assert action in InputChanges(judge, current, spec);
    PlannedFor(judge, request, current, k, action);
  }

  lemma ItemChangeIsCalled(judge: Judge, request: Request, effect: Effect) returns (current: Current)
    requires request.Distinct() && ValidEffect(effect, request) && (effect.Enabled? || effect.Locked? || effect.Transform?)
    ensures Called(judge, request, current, effect)
  {
    hide PlanFor, Effects, SourceError, Request.Distinct, TransformOf;
    var k: nat :| k < |request.sources| &&
                  if effect.Enabled? then request.sources[k].visible == Some(effect.enabled)
                  else if effect.Locked? then request.sources[k].locked == Some(effect.locked)
                  else TransformOf(request.sources[k], effect.transform);
    var spec := request.sources[k];
    var item := Item(effect.id, spec.name, 0.0, effect.Enabled? && !effect.enabled, effect.Locked? && !effect.locked, map[]);
    var canvas := if effect.Transform? then CanvasOf(effect.transform) else Canvas(0.0, 0.0);
    current := Current(true, {}, Kinds(request, {}), [item], map[], Some(canvas));
    NoErrors(judge, request, current, {});
    var action := Action(spec.name, Change, Some(effect));
    assert FindItem(current.items, spec.name) == Some(item);
    if effect.Enabled? {
      assert action in VisibleChange(request.sceneName, spec, Some(item));
    } else if effect.Locked? {
      assert action in LockChange(request.sceneName, spec, Some(item));
    } else {
      WantedIs(spec, effect.transform);
      var key :| key in effect.transform;
      assert TransformDiffers(judge, effect.transform, Some(item));
      assert action in TransformChange(judge, request.sceneName, spec, effect.transform, Some(item));
    }
    hide VisibleChange, LockChange, TransformChange, FindItem;
    assert action in ItemChanges(judge, request.sceneName, current, spec);
    PlannedFor(judge, request, current, k, action);
  }

  function CanvasOf(transform: map<string, Value>): Canvas {
    if "boundsWidth" in transform && "boundsHeight" in transform && transform["boundsWidth"].Number? && transform["boundsHeight"].Number?
    then Canvas(transform["boundsWidth"].number, transform["boundsHeight"].number) else Canvas(0.0, 0.0)
  }

  lemma WantedIs(spec: Spec, transform: map<string, Value>)
    requires TransformOf(spec, transform)
    ensures WantedTransform(spec, Some(CanvasOf(transform))) == transform
  {
    if !spec.fit {
      assert map[] + spec.transform == spec.transform;
    }
  }

  lemma RemovalIsCalled(judge: Judge, request: Request, effect: Effect) returns (current: Current)
    requires request.Distinct() && ValidEffect(effect, request) && effect.RemoveItem?
    ensures Called(judge, request, current, effect)
  {
    hide PlanFor, Effects, SourceError;
    var scene := request.sceneName;
    var item := Item(effect.id, scene, 0.0, true, false, map[]);
    current := Current(true, {}, Kinds(request, {}), [item], map[], Some(Canvas(0.0, 0.0)));
    NoErrors(judge, request, current, {});
    assert scene !in request.Names();
    var action := Action(scene, Change, Some(effect));
    assert [item][..0] == [];
    assert action in RemovalActions(request, current.items);
    PlanParts(judge, request, current);
    hide AllSourceActions, RemovalActions, Ordering;
    EffectOf(PlanFor(judge, request, current).actions, action);
  }

  // ----- Moves -----

  /** The places that the planner moves items to. */
  predicate IndexPlanned(request: Request, index: nat) {
    && request.sources != []
    && if request.removeOthers then index == |request.sources| - 1 else 1 <= index && |request.sources| - 1 <= index
  }

  /** The names of a scene that is out of order: another item or the first source is on top. */
  function Disorder(request: Request, index: nat): seq<string>
    requires IndexPlanned(request, index)
  {
    var n, scene := |request.sources|, request.sceneName;
    if n == 1 then [request.sources[0].name] + seq(if request.removeOthers then 1 else index, _ => scene)
    else seq(n - 1, i requires 0 <= i < n - 1 => request.sources[i + 1].name)
         + seq(if request.removeOthers then 0 else index + 1 - n, _ => scene) + [request.sources[0].name]
  }

  function ItemsNamed(names: seq<string>, name: string, id: nat): seq<Item> {
    seq(|names|, i requires 0 <= i < |names| => Item(if names[i] == name then id else 0, names[i], i as real, true, false, map[]))
  }

  lemma DisorderFacts(request: Request, index: nat)
    requires request.Distinct() && IndexPlanned(request, index)
    ensures var names, n := Disorder(request, index), |request.sources|;
            && n <= |names| && names[|names| - 1] != request.sources[n - 1].name
            && (!request.removeOthers ==> |names| == index + 1)
            && (forall k | 0 <= k < n :: request.sources[k].name in names)
  {
    var names, n := Disorder(request, index), |request.sources|;
    forall k | 0 <= k < n ensures request.sources[k].name in names {
      if k == 0 {
        assert names[if n == 1 then 0 else |names| - 1] == request.sources[0].name;
      } else {
        assert names[k - 1] == request.sources[k].name;
      }
    }
  }

  lemma {:induction false} FoundIsThere(items: seq<Item>, name: string)
    ensures FindItem(items, name).Some? ==> FindItem(items, name).value in items && FindItem(items, name).value.source == name
  {
    if items != [] && items[0].source != name {
      FoundIsThere(items[1..], name);
    }
  }

  lemma {:induction false} MovesHas(scene: string, items: seq<Item>, sources: seq<Spec>, index: nat, k: nat)
    requires AllExist(items, sources) && k < |sources| && FindItem(items, sources[k].name).Some?
    ensures Action(sources[k].name, Change, Some(Index(scene, FindItem(items, sources[k].name).value.id, index))) in Moves(scene, items, sources, index)
  {
    if k < |sources| - 1 {
      MovesHas(scene, items, sources[..|sources| - 1], index, k);
    }
  }

  lemma DisorderExists(request: Request, index: nat, items: seq<Item>, id: nat)
    requires request.Distinct() && IndexPlanned(request, index)
    requires items == ItemsNamed(Disorder(request, index), request.sources[0].name, id)
    ensures AllExist(items, request.sources)
  {
    hide Disorder, FindItem, Request.Distinct;
    var names, n := Disorder(request, index), |request.sources|;
    DisorderFacts(request, index);
    forall k | 0 <= k < n ensures FindItem(items, request.sources[k].name).Some? {
      var i :| 0 <= i < |names| && names[i] == request.sources[k].name;
      assert items[i].source == request.sources[k].name;
      FindItemFirst(items, request.sources[k].name);
    }
  }

  lemma DisorderIsSeen(request: Request, index: nat, items: seq<Item>, id: nat)
    requires request.Distinct() && IndexPlanned(request, index)
    requires items == ItemsNamed(Disorder(request, index), request.sources[0].name, id)
    ensures |items| >= |request.sources| && (!request.removeOthers ==> |items| == index + 1)
    ensures !InOrder(Top(Stacked(items), |request.sources|), request.sources)
  {
    hide Disorder, Stacked, Request.Distinct;
    var n := |request.sources|;
    DisorderFacts(request, index);
    StackedSorted(items);
    var top := Top(items, n);
    assert top[n - 1] == items[|items| - 1] && top[n - 1].source != request.sources[n - 1].name;
  }

  lemma DisorderIsMoved(request: Request, id: nat, index: nat, items: seq<Item>)
    requires request.Distinct() && request.order && IndexPlanned(request, index)
    requires items == ItemsNamed(Disorder(request, index), request.sources[0].name, id)
    ensures Action(request.sources[0].name, Change, Some(Index(request.sceneName, id, index))) in Ordering(request, items)
  {
    hide Disorder, FindItem, Moves, Request.Distinct, Stacked, InOrder, Top, AllExist;
    var first := request.sources[0].name;
    DisorderExists(request, index, items, id);
    DisorderIsSeen(request, index, items, id);
    assert FindItem(items, first).Some? by { OneExists(items, request.sources); }
    FoundIsThere(items, first);
    assert FindItem(items, first).value.id == id;
    MovesHas(request.sceneName, items, request.sources, index, 0);
  }

  lemma OneExists(items: seq<Item>, sources: seq<Spec>)
    requires AllExist(items, sources) && sources != []
    ensures FindItem(items, sources[0].name).Some?
  {
  }

  lemma MoveIsCalled(judge: Judge, request: Request, effect: Effect) returns (current: Current)
    requires request.Distinct() && ValidEffect(effect, request) && effect.Index? && IndexPlanned(request, effect.index)
    ensures Called(judge, request, current, effect)
  {
    hide PlanFor, Effects, SourceError, Disorder, ItemsNamed, Request.Distinct, AllSourceActions, RemovalActions, Ordering;
    var items := ItemsNamed(Disorder(request, effect.index), request.sources[0].name, effect.id);
    current := Current(true, {}, Kinds(request, {}), items, map[], Some(Canvas(0.0, 0.0)));
    NoErrors(judge, request, current, {});
    DisorderIsMoved(request, effect.id, effect.index, items);
    PlanParts(judge, request, current);
    EffectOf(PlanFor(judge, request, current).actions, Action(request.sources[0].name, Change, Some(effect)));
  }

  // ----- Both directions -----

  /** Beyond what the transport checks, the planner overlays no empty settings and knows where to move. */
  predicate Purposeful(request: Request, effect: Effect) {
    && (effect.SettingsOverlay? ==> effect.settings != map[])
    && (effect.Index? ==> IndexPlanned(request, effect.index))
  }

  ghost predicate AllPurposeful(request: Request, actions: seq<Action>) {
    forall a | a in actions && a.effect.Some? :: Purposeful(request, a.effect.value)
  }

  lemma SourceIsPurposeful(judge: Judge, request: Request, current: Current, spec: Spec)
    ensures AllPurposeful(request, SourceActions(judge, request.sceneName, current, spec))
  {
    hide FindItem, IndexPlanned, TracksDiffer, VolumeDiffers, TrackFlags, TransformDiffers, WantedTransform;
    var input := InputOf(current, spec.name);
    assert AllPurposeful(request, SettingsChange(judge, spec.name in current.kinds, spec, input));
    assert AllPurposeful(request, MuteChange(spec, input) + VolumeChange(spec, input) + TracksChange(spec, input));
    hide SettingsChange, MuteChange, VolumeChange, TracksChange;
    assert AllPurposeful(request, InputChanges(judge, current, spec));
    assert AllPurposeful(request, ItemChanges(judge, request.sceneName, current, spec));
    assert AllPurposeful(request, Creation(request.sceneName, current, spec));
  }

  lemma {:induction false} SourcesArePurposeful(judge: Judge, request: Request, current: Current, sources: seq<Spec>)
    ensures AllPurposeful(request, AllSourceActions(judge, request.sceneName, current, sources))
  {
    hide SourceActions, Purposeful;
    if sources != [] {
      SourcesArePurposeful(judge, request, current, sources[..|sources| - 1]);
      SourceIsPurposeful(judge, request, current, sources[|sources| - 1]);
    }
  }

  lemma {:induction false} RemovalsArePurposeful(request: Request, scene: string, items: seq<Item>, wanted: set<string>)
    ensures AllPurposeful(request, Removals(scene, items, wanted))
  {
    if items != [] {
      RemovalsArePurposeful(request, scene, items[..|items| - 1], wanted);
    }
  }

  lemma {:induction false} MovesArePurposeful(request: Request, items: seq<Item>, sources: seq<Spec>, index: nat)
    requires AllExist(items, sources) && IndexPlanned(request, index)
    ensures AllPurposeful(request, Moves(request.sceneName, items, sources, index))
  {
    if sources != [] {
      MovesArePurposeful(request, items, sources[..|sources| - 1], index);
    }
  }

  function SourceNames(items: seq<Item>): set<string> {
    set i | 0 <= i < |items| :: items[i].source
  }

  lemma {:induction false} FewSourceNames(items: seq<Item>)
    ensures |SourceNames(items)| <= |items|
  {
    if items != [] {
      var most, last := items[..|items| - 1], items[|items| - 1];
      FewSourceNames(most);
      assert SourceNames(items) == SourceNames(most) + {last.source};
    }
  }

  function SpecNames(sources: seq<Spec>): set<string> {
    set i | 0 <= i < |sources| :: sources[i].name
  }

  lemma {:induction false} ManySpecNames(sources: seq<Spec>)
    requires forall i, j | 0 <= i < j < |sources| :: sources[i].name != sources[j].name
    ensures |SpecNames(sources)| == |sources|
  {
    if sources != [] {
      var most, last := sources[..|sources| - 1], sources[|sources| - 1];
      ManySpecNames(most);
      assert SpecNames(sources) == SpecNames(most) + {last.name};
    }
  }

  lemma EnoughItems(request: Request, items: seq<Item>)
    requires request.Distinct() && AllExist(items, request.sources)
    ensures |request.sources| <= |items|
  {
    hide FindItem;
    FewSourceNames(items);
    ManySpecNames(request.sources);
    forall name | name in SpecNames(request.sources) ensures name in SourceNames(items) {
      var k :| 0 <= k < |request.sources| && request.sources[k].name == name;
      FoundIsThere(items, name);
      assert FindItem(items, request.sources[k].name).Some?;
      var i :| 0 <= i < |items| && items[i] == FindItem(items, name).value;
    }
    assert SpecNames(request.sources) <= SourceNames(items);
    SmallerNames(SpecNames(request.sources), SourceNames(items));
  }

  lemma SmallerNames(a: set<string>, b: set<string>)
    requires a <= b
    ensures |a| <= |b|
  {
    assert b == a + (b - a);
  }

  lemma OrderingIsPurposeful(request: Request, items: seq<Item>)
    requires request.Distinct()
    ensures AllPurposeful(request, Ordering(request, items))
  {
    hide Moves, FindItem, Request.Distinct, Stacked, Purposeful, Top, InOrder;
    if request.order && AllExist(items, request.sources) && request.sources != [] {
      EnoughItems(request, items);
      assert FindItem(items, request.sources[0].name).Some?;
      var index := (if request.removeOthers then |request.sources| else |items|) - 1;
      if !InOrder(Top(Stacked(items), |request.sources|), request.sources) {
        if |items| == 1 && !request.removeOthers {
          OneItem(request, items);
        }
        MovesArePurposeful(request, items, request.sources, index);
      }
    }
  }

  lemma OneItem(request: Request, items: seq<Item>)
    requires |items| == 1 && |request.sources| == 1 && AllExist(items, request.sources)
    ensures InOrder(Top(Stacked(items), 1), request.sources)
  {
    StackedSorted(items);
    FoundIsThere(items, request.sources[0].name);
    assert FindItem(items, request.sources[0].name).Some?;
  }

  lemma {:induction false} EffectsArePurposeful(request: Request, actions: seq<Action>, phase: Phase)
    requires AllPurposeful(request, actions)
    ensures forall e | e in Effects(actions, phase) :: Purposeful(request, e)
  {
    hide Purposeful;
    if actions != [] {
      EffectsArePurposeful(request, actions[..|actions| - 1], phase);
    }
  }

  lemma PlannedIsPurposeful(judge: Judge, request: Request, current: Current, phase: Phase)
    requires PlanFor(judge, request, current).errors == []
    ensures forall e | e in Effects(PlanFor(judge, request, current).actions, phase) :: Purposeful(request, e)
  {
    hide PlanFor, Purposeful, AllSourceActions, Removals, Ordering, Effects, Request.Distinct;
    ErrorFree(judge, request, current);
    PlanParts(judge, request, current);
    SourcesArePurposeful(judge, request, current, request.sources);
    RemovalsArePurposeful(request, request.sceneName, current.items, request.Names());
    OrderingIsPurposeful(request, current.items);
    assert !current.sceneExists ==> Purposeful(request, CreateScene(request.sceneName)) by { NewSceneIsPurposeful(request); }
    EffectsArePurposeful(request, PlanFor(judge, request, current).actions, phase);
  }

  lemma NewSceneIsPurposeful(request: Request)
    ensures Purposeful(request, CreateScene(request.sceneName))
  {
  }

  /**
   The transport admits exactly what some scene calls for, except that it does not ask whether settings
   are empty or where an item is moved to.
   */
  lemma AdmittedExactly(judge: Judge, request: Request, effect: Effect)
    requires request.Parsed() && request.Distinct()
    ensures ValidEffect(effect, request) && Purposeful(request, effect) <==> exists current :: Called(judge, request, current, effect)
  {
    hide PlanFor, Effects, ValidEffect, Request.Distinct, Request.Parsed, Request.NeedsCanvas;
    if ValidEffect(effect, request) && Purposeful(request, effect) {
      var current;
      if IsCreation(effect) {
        current := CreationIsCalled(judge, request, effect);
      } else if effect.RemoveItem? {
        current := RemovalIsCalled(judge, request, effect);
      } else if effect.Index? {
        current := MoveIsCalled(judge, request, effect);
      } else if effect.Enabled? || effect.Locked? || effect.Transform? {
        current := ItemChangeIsCalled(judge, request, effect);
      } else {
        current := InputChangeIsCalled(judge, request, effect);
      }
    }
    if current :| Called(judge, request, current, effect) {
      var phase := if IsCreation(effect) then Create else Change;
      PlannerAndTransportAgree(judge, request, current);
      EffectsAgreed(PlanFor(judge, request, current).actions, request, phase);
      PlannedIsPurposeful(judge, request, current, phase);
    }
  }

  // ----- What fitting means in numbers -----

  /** Unless the request says otherwise, the transform of an item that fills the canvas, field by field. */
  ghost predicate OnCanvas(single: Rounding, spec: Spec, canvas: Canvas, transform: map<string, Value>) {
    && ("boundsType" in spec.transform || ("boundsType" in transform && transform["boundsType"] == Text("OBS_BOUNDS_SCALE_INNER")))
    && ("boundsWidth" in spec.transform || ("boundsWidth" in transform && About(single, transform["boundsWidth"], canvas.width)))
    && ("boundsHeight" in spec.transform || ("boundsHeight" in transform && About(single, transform["boundsHeight"], canvas.height)))
    && ("boundsAlignment" in spec.transform || ("boundsAlignment" in transform && About(single, transform["boundsAlignment"], 0.0)))
    && ("alignment" in spec.transform || ("alignment" in transform && About(single, transform["alignment"], 5.0)))
    && ("positionX" in spec.transform || ("positionX" in transform && AtOrigin(transform["positionX"])))
    && ("positionY" in spec.transform || ("positionY" in transform && AtOrigin(transform["positionY"])))
  }

  lemma ShowsNumber(single: Rounding, transform: map<string, Value>, field: string, number: real)
    requires field !in {"positionX", "positionY"}
    ensures Shows(SourceJudge(single), transform, field, Number(number)) <==> field in transform && About(single, transform[field], number)
  {
    if field in transform {
      NumberMeans(single, field, transform[field], number);
    }
  }

  lemma ShowsOrigin(single: Rounding, transform: map<string, Value>, field: string)
    requires field in {"positionX", "positionY"}
    ensures Shows(SourceJudge(single), transform, field, Number(0.0)) <==> field in transform && AtOrigin(transform[field])
  {
    if field in transform {
      OriginMeans(single, field, transform[field]);
    }
  }

  lemma ShowsText(single: Rounding, transform: map<string, Value>, field: string, text: string)
    ensures Shows(SourceJudge(single), transform, field, Text(text)) <==> field in transform && transform[field] == Text(text)
  {
  }

  /** With the comparisons of the service, an item fills the canvas exactly when its numbers say so. */
  lemma FillsCanvasExactly(single: Rounding, spec: Spec, canvas: Canvas, transform: map<string, Value>)
    ensures FillsCanvas(SourceJudge(single), spec, canvas, transform) <==> OnCanvas(single, spec, canvas, transform)
  {
    hide Shows, About, AtOrigin, SourceJudge;
    assert "positionX"[0] == "positionY"[0] == 'p' && "alignment"[0] == 'a';
    assert "boundsWidth"[0] == "boundsHeight"[0] == "boundsAlignment"[0] == 'b';
    ShowsText(single, transform, "boundsType", "OBS_BOUNDS_SCALE_INNER");
    ShowsNumber(single, transform, "boundsWidth", canvas.width);
    ShowsNumber(single, transform, "boundsHeight", canvas.height);
    ShowsNumber(single, transform, "boundsAlignment", 0.0);
    ShowsNumber(single, transform, "alignment", 5.0);
    ShowsOrigin(single, transform, "positionX");
    ShowsOrigin(single, transform, "positionY");
  }
}
