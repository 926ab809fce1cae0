/**
 The transport's own judgement of effects (apply_scene_transport.rs) and its agreement with the planner.
 */
module ApplyChecks {
  import opened Common
  import opened SceneValues
  import opened ApplyPlan

  predicate IsCreation(effect: Effect) {
    effect.CreateScene? || effect.CreateInput? || effect.CreateItem?
  }

  function FindSpec(sources: seq<Spec>, name: string): Option<Spec> {
    if sources == [] then None
    else if sources[0].name == name then Some(sources[0])
    else FindSpec(sources[1..], name)
  }

  /** The transform is the one that `spec` asks for on some finite canvas. */
  predicate TransformOf(spec: Spec, transform: map<string, Value>) {
    if spec.fit then
      && "boundsWidth" in transform && transform["boundsWidth"].Number?
      && "boundsHeight" in transform && transform["boundsHeight"].Number?
      && transform == FitTransform(Canvas(transform["boundsWidth"].number, transform["boundsHeight"].number)) + spec.transform
    else transform == spec.transform
  }

  /** The effect is one that the request asks for. */
  predicate ValidEffect(effect: Effect, request: Request) {
    match effect
    case CreateScene(scene) => scene == request.sceneName
    case CreateInput(scene, input, kind, settings, enabled) =>
      var spec := FindSpec(request.sources, input);
      && scene == request.sceneName && spec.Some? && kind != "" && spec.value.kind == Some(kind)
      && settings == spec.value.Settings() && enabled == spec.value.Visible()
    case CreateItem(scene, input, enabled) =>
      var spec := FindSpec(request.sources, input);
      scene == request.sceneName && spec.Some? && enabled == spec.value.Visible()
    case SettingsOverlay(input, settings) =>
      var spec := FindSpec(request.sources, input);
      spec.Some? && spec.value.settings == Some(settings)
    case Mute(input, muted) =>
      var spec := FindSpec(request.sources, input);
      spec.Some? && spec.value.muted == Some(muted)
    case VolumeDb(input, db) =>
      var spec := FindSpec(request.sources, input);
      spec.Some? && spec.value.volumeDb == Some(db)
    case AudioTracks(input, tracks) =>
      var spec := FindSpec(request.sources, input);
      spec.Some? && spec.value.tracks.Some? && tracks == TrackFlags(spec.value.tracks.value)
    case Enabled(scene, _, enabled) =>
      scene == request.sceneName && exists i | 0 <= i < |request.sources| :: request.sources[i].visible == Some(enabled)
    case Locked(scene, _, locked) =>
      scene == request.sceneName && exists i | 0 <= i < |request.sources| :: request.sources[i].locked == Some(locked)
    case Transform(scene, _, transform) =>
      && scene == request.sceneName && transform != map[]
      && exists i | 0 <= i < |request.sources| :: TransformOf(request.sources[i], transform)
    case RemoveItem(scene, _) => scene == request.sceneName && request.removeOthers
    case Index(scene, _, _) => scene == request.sceneName && request.order
  }

  /** The action passes the transport's check in the stage that its phase belongs to. */
  predicate Agreed(action: Action, request: Request) {
    && (action.effect.Some? ==>
          && ValidEffect(action.effect.value, request)
          && (IsCreation(action.effect.value) <==> action.phase == Create))
    && (action.phase == Create ==> action.effect.Some?)
  }

  ghost predicate AllAgreed(actions: seq<Action>, request: Request) {
    forall i | 0 <= i < |actions| :: Agreed(actions[i], request)
  }

  lemma {:induction false} FindSpecAt(sources: seq<Spec>, i: nat)
    requires i < |sources| && forall j | 0 <= j < i :: sources[j].name != sources[i].name
    ensures FindSpec(sources, sources[i].name) == Some(sources[i])
  {
    if i > 0 {
      FindSpecAt(sources[1..], i - 1);
    }
  }

  lemma {:induction false} NoNameErrors(sources: seq<Spec>, scenes: set<string>, scene: string, count: nat)
    requires count <= |sources|
    ensures NameErrors(sources, scenes, scene, count) == [] <==>
            && (forall i, j | 0 <= i < j < count :: sources[i].name != sources[j].name)
            && (forall i | 0 <= i < count :: sources[i].name !in scenes && sources[i].name != scene)
  {
    if count > 0 {
      NoNameErrors(sources, scenes, scene, count - 1);
    }
  }

  lemma {:induction false} NoSourceErrors(current: Current, sources: seq<Spec>)
    ensures AllSourceErrors(current, sources) == [] <==> forall i | 0 <= i < |sources| :: SourceError(current, sources[i]).None?
  {
    if sources != [] {
      NoSourceErrors(current, sources[..|sources| - 1]);
    }
  }

  /** When a plan is free of errors. */
  lemma ErrorFree(judge: Judge, request: Request, current: Current)
    ensures PlanFor(judge, request, current).errors == [] <==>
            && request.Distinct()
            && (forall i | 0 <= i < |request.sources| ::
                  && request.sources[i].name !in current.sceneNames
                  && SourceError(current, request.sources[i]).None?)
  {
    hide NameErrors, AllSourceErrors, SourceError;
    NoNameErrors(request.sources, current.sceneNames, request.sceneName, |request.sources|);
    NoSourceErrors(current, request.sources);
    assert PlanFor(judge, request, current).errors ==
           NameErrors(request.sources, current.sceneNames, request.sceneName, |request.sources|) + AllSourceErrors(current, request.sources);
  }

  lemma TransformAgrees(judge: Judge, request: Request, current: Current, spec: Spec, item: Option<Item>)
    requires ParsedTransform(spec.transform) && (spec.fit ==> current.video.Some?)
    requires TransformDiffers(judge, WantedTransform(spec, current.video), item)
    ensures WantedTransform(spec, current.video) != map[]
    ensures TransformOf(spec, WantedTransform(spec, current.video))
  {
  }

  lemma CreationAgrees(request: Request, current: Current, spec: Spec)
    requires FindSpec(request.sources, spec.name) == Some(spec)
    ensures AllAgreed(Creation(request.sceneName, current, spec), request)
  {
    hide FindItem;
  }

  lemma ChangeAgrees(request: Request, spec: Spec, part: seq<Action>)
    requires FindSpec(request.sources, spec.name) == Some(spec)
    requires part == [] || exists e: Effect :: part == [Action(spec.name, Change, Some(e))] && ValidEffect(e, request) && !IsCreation(e)
    ensures AllAgreed(part, request)
  {
    hide ValidEffect, FindSpec;
  }

  lemma InputAgrees(judge: Judge, request: Request, current: Current, spec: Spec)
    requires FindSpec(request.sources, spec.name) == Some(spec)
    ensures AllAgreed(InputChanges(judge, current, spec), request)
  {
    hide SettingsDiffer, VolumeDiffers, TracksDiffer, TrackFlags, AllAgreed;
    var input := InputOf(current, spec.name);
    var a, b, c, d := SettingsChange(judge, spec.name in current.kinds, spec, input), MuteChange(spec, input), VolumeChange(spec, input), TracksChange(spec, input);
    ChangeAgrees(request, spec, a);
    ChangeAgrees(request, spec, b);
    ChangeAgrees(request, spec, c);
    ChangeAgrees(request, spec, d);
    AgreedTogether(a, b, request);
    AgreedTogether(a + b, c, request);
    AgreedTogether(a + b + c, d, request);
  }

  lemma AgreedTogether(a: seq<Action>, b: seq<Action>, request: Request)
    requires AllAgreed(a, request) && AllAgreed(b, request)
    ensures AllAgreed(a + b, request)
  {
    hide Agreed;
  }

  lemma ItemAgrees(judge: Judge, request: Request, current: Current, i: nat)
    requires i < |request.sources| && ParsedTransform(request.sources[i].transform)
    requires request.sources[i].fit ==> current.video.Some?
    ensures AllAgreed(ItemChanges(judge, request.sceneName, current, request.sources[i]), request)
  {
    hide TransformDiffers, WantedTransform, TransformOf, FindItem;
    var spec := request.sources[i];
    var item := FindItem(current.items, spec.name);
    if TransformDiffers(judge, WantedTransform(spec, current.video), item) {
      TransformAgrees(judge, request, current, spec, item);
    }
  }

  lemma SourceAgrees(judge: Judge, request: Request, current: Current, i: nat)
    requires i < |request.sources| && request.Distinct() && request.Parsed()
    requires request.sources[i].fit ==> current.video.Some?
    ensures AllAgreed(SourceActions(judge, request.sceneName, current, request.sources[i]), request)
  {
    hide Creation, InputChanges, ItemChanges, Agreed;
    FindSpecAt(request.sources, i);
    CreationAgrees(request, current, request.sources[i]);
    InputAgrees(judge, request, current, request.sources[i]);
    ItemAgrees(judge, request, current, i);
  }

  lemma {:induction false} SourcesAgree(judge: Judge, request: Request, current: Current, count: nat)
    requires count <= |request.sources| && request.Distinct() && request.Parsed()
    requires request.NeedsCanvas() ==> current.video.Some?
    ensures AllAgreed(AllSourceActions(judge, request.sceneName, current, request.sources[..count]), request)
  {
    hide SourceActions, Agreed;
    if count > 0 {
      SourcesAgree(judge, request, current, count - 1);
      SourceAgrees(judge, request, current, count - 1);
      assert request.sources[..count][..count - 1] == request.sources[..count - 1];
    }
  }

  lemma {:induction false} RemovalsAgree(request: Request, items: seq<Item>)
    requires request.removeOthers
    ensures AllAgreed(Removals(request.sceneName, items, request.Names()), request)
  {
    if items != [] {
      RemovalsAgree(request, items[..|items| - 1]);
    }
  }

  lemma {:induction false} MovesAgree(request: Request, items: seq<Item>, sources: seq<Spec>, index: nat)
    requires request.order && AllExist(items, sources)
    ensures AllAgreed(Moves(request.sceneName, items, sources, index), request)
  {
    if sources != [] {
      MovesAgree(request, items, sources[..|sources| - 1], index);
    }
  }

  /** Every effect of an error-free plan passes the transport's check, in the right stage. */
  lemma PlannerAndTransportAgree(judge: Judge, request: Request, current: Current)
    requires request.Parsed() && (request.NeedsCanvas() ==> current.video.Some?)
    requires PlanFor(judge, request, current).errors == []
    ensures AllAgreed(PlanFor(judge, request, current).actions, request)
  {
    hide AllSourceActions, Removals, Moves, NameErrors, AllSourceErrors, Stacked;
    ErrorFree(judge, request, current);
    SourcesAgree(judge, request, current, |request.sources|);
    assert request.sources[..|request.sources|] == request.sources;
    if request.removeOthers {
      RemovalsAgree(request, current.items);
    }
    if request.order && AllExist(current.items, request.sources) && request.sources != [] {
      assert FindItem(current.items, request.sources[0].name).Some?;
      MovesAgree(request, current.items, request.sources, (if request.removeOthers then |request.sources| else |current.items|) - 1);
    }
  }

  // ----- The effects of one stage -----

  /** The effects of the actions of one phase, in order. */
  function Effects(actions: seq<Action>, phase: Phase): seq<Effect> {
    if actions == [] then []
    else
      var last := actions[|actions| - 1];
      Effects(actions[..|actions| - 1], phase)
      + if last.phase == phase && last.effect.Some? then [last.effect.value] else []
  }

  lemma {:induction false} EffectsConcat(a: seq<Action>, b: seq<Action>, phase: Phase)
    ensures Effects(a + b, phase) == Effects(a, phase) + Effects(b, phase)
  {
    if b == [] {
      assert a + b == a;
    } else {
      EffectsConcat(a, b[..|b| - 1], phase);
      assert (a + b)[..|a + b| - 1] == a + b[..|b| - 1];
    }
  }

  lemma {:induction false} EffectsOfOther(actions: seq<Action>, phase: Phase)
    requires forall i | 0 <= i < |actions| :: actions[i].phase != phase
    ensures Effects(actions, phase) == []
  {
    if actions != [] {
      EffectsOfOther(actions[..|actions| - 1], phase);
    }
  }

  lemma EffectsOfOne(action: Action)
    ensures Effects([action], action.phase) == if action.effect.Some? then [action.effect.value] else []
  {
    assert [action][..0] == [];
  }

  /** The creation that one source needs, if any. */
  function CreationEffects(scene: string, current: Current, spec: Spec): seq<Effect> {
    Effects(Creation(scene, current, spec), Create)
  }

  function AllCreationEffects(scene: string, current: Current, sources: seq<Spec>): seq<Effect> {
    if sources == [] then []
    else AllCreationEffects(scene, current, sources[..|sources| - 1]) + CreationEffects(scene, current, sources[|sources| - 1])
  }

  lemma InputChangesArePhased(judge: Judge, current: Current, spec: Spec)
    ensures forall i | 0 <= i < |InputChanges(judge, current, spec)| :: InputChanges(judge, current, spec)[i].phase == Change
  {
    hide SettingsDiffer, VolumeDiffers, TracksDiffer, TrackFlags;
  }

  lemma ItemChangesArePhased(judge: Judge, scene: string, current: Current, spec: Spec)
    ensures forall i | 0 <= i < |ItemChanges(judge, scene, current, spec)| :: ItemChanges(judge, scene, current, spec)[i].phase == Change
  {
    hide FindItem, TransformDiffers, WantedTransform;
  }

  lemma ChangesAreChanges(judge: Judge, scene: string, current: Current, spec: Spec)
    ensures Effects(InputChanges(judge, current, spec) + ItemChanges(judge, scene, current, spec), Create) == []
    ensures Effects(Creation(scene, current, spec), Change) == []
  {
    hide Effects, InputChanges, ItemChanges;
    InputChangesArePhased(judge, current, spec);
    ItemChangesArePhased(judge, scene, current, spec);
    EffectsOfOther(InputChanges(judge, current, spec) + ItemChanges(judge, scene, current, spec), Create);
    EffectsOfOther(Creation(scene, current, spec), Change);
  }

  lemma SourceStages(judge: Judge, scene: string, current: Current, spec: Spec)
    requires SourceError(current, spec).None?
    ensures Effects(SourceActions(judge, scene, current, spec), Create) == CreationEffects(scene, current, spec)
    ensures Effects(SourceActions(judge, scene, current, spec), Change) ==
            Effects(InputChanges(judge, current, spec), Change) + Effects(ItemChanges(judge, scene, current, spec), Change)
  {
    hide Effects, Creation, InputChanges, ItemChanges;
    var creation, input, item := Creation(scene, current, spec), InputChanges(judge, current, spec), ItemChanges(judge, scene, current, spec);
    ChangesAreChanges(judge, scene, current, spec);
    assert SourceActions(judge, scene, current, spec) == creation + (input + item);
    EffectsConcat(creation, input + item, Create);
    EffectsConcat(creation, input + item, Change);
    EffectsConcat(input, item, Change);
  }

  function AllChangeEffects(judge: Judge, scene: string, current: Current, sources: seq<Spec>): seq<Effect> {
    if sources == [] then []
    else
      var last := sources[|sources| - 1];
      AllChangeEffects(judge, scene, current, sources[..|sources| - 1])
      + (Effects(InputChanges(judge, current, last), Change) + Effects(ItemChanges(judge, scene, current, last), Change))
  }

  lemma {:induction false} SourcesStages(judge: Judge, scene: string, current: Current, sources: seq<Spec>)
    requires forall i | 0 <= i < |sources| :: SourceError(current, sources[i]).None?
    ensures Effects(AllSourceActions(judge, scene, current, sources), Create) == AllCreationEffects(scene, current, sources)
    ensures Effects(AllSourceActions(judge, scene, current, sources), Change) == AllChangeEffects(judge, scene, current, sources)
  {
    hide Effects, SourceActions, SourceError, CreationEffects, InputChanges, ItemChanges;
    if sources == [] {
      EffectsOfOther([], Create);
      EffectsOfOther([], Change);
    } else {
      var most, last := sources[..|sources| - 1], sources[|sources| - 1];
      SourcesStages(judge, scene, current, most);
      SourceStages(judge, scene, current, last);
      EffectsConcat(AllSourceActions(judge, scene, current, most), SourceActions(judge, scene, current, last), Create);
      EffectsConcat(AllSourceActions(judge, scene, current, most), SourceActions(judge, scene, current, last), Change);
    }
  }

  lemma {:induction false} RemovalsAreChanges(scene: string, items: seq<Item>, wanted: set<string>)
    ensures forall i | 0 <= i < |Removals(scene, items, wanted)| :: Removals(scene, items, wanted)[i].phase == Change
  {
    if items != [] {
      RemovalsAreChanges(scene, items[..|items| - 1], wanted);
    }
  }

  lemma {:induction false} MovesAreChanges(scene: string, items: seq<Item>, sources: seq<Spec>, index: nat)
    requires AllExist(items, sources)
    ensures forall i | 0 <= i < |Moves(scene, items, sources, index)| :: Moves(scene, items, sources, index)[i].phase == Change
  {
    if sources != [] {
      MovesAreChanges(scene, items, sources[..|sources| - 1], index);
    }
  }

  lemma OrderingIsChange(request: Request, items: seq<Item>)
    ensures forall i | 0 <= i < |Ordering(request, items)| :: Ordering(request, items)[i].phase == Change
  {
    hide Moves, Stacked;
    if request.order && AllExist(items, request.sources) && request.sources != [] {
      assert FindItem(items, request.sources[0].name).Some?;
      MovesAreChanges(request.sceneName, items, request.sources, (if request.removeOthers then |request.sources| else |items|) - 1);
    }
  }

  function RemovalActions(request: Request, items: seq<Item>): seq<Action> {
    if request.removeOthers then Removals(request.sceneName, items, request.Names()) else []
  }

  lemma RemovalActionsAreChanges(request: Request, items: seq<Item>)
    ensures forall i | 0 <= i < |RemovalActions(request, items)| :: RemovalActions(request, items)[i].phase == Change
  {
    RemovalsAreChanges(request.sceneName, items, request.Names());
  }

  lemma PlanParts(judge: Judge, request: Request, current: Current)
    ensures PlanFor(judge, request, current).actions ==
            (if current.sceneExists then [] else [Action(request.sceneName, Create, Some(CreateScene(request.sceneName)))])
            + (AllSourceActions(judge, request.sceneName, current, request.sources)
               + (RemovalActions(request, current.items) + Ordering(request, current.items)))
  {
    hide AllSourceActions, Removals, Ordering, NameErrors, AllSourceErrors;
  }

  function NewScene(request: Request, current: Current): seq<Effect> {
    if current.sceneExists then [] else [CreateScene(request.sceneName)]
  }

  lemma EffectsOfThree(a: seq<Action>, b: seq<Action>, c: seq<Action>, phase: Phase)
    ensures Effects(a + (b + c), phase) == Effects(a, phase) + (Effects(b, phase) + Effects(c, phase))
  {
    EffectsConcat(a, b + c, phase);
    EffectsConcat(b, c, phase);
  }

  /** The two batches of an error-free plan. */
  lemma PlanStages(judge: Judge, request: Request, current: Current)
    requires PlanFor(judge, request, current).errors == []
    ensures Effects(PlanFor(judge, request, current).actions, Create) ==
            NewScene(request, current) + AllCreationEffects(request.sceneName, current, request.sources)
    ensures Effects(PlanFor(judge, request, current).actions, Change) ==
            AllChangeEffects(judge, request.sceneName, current, request.sources)
            + (Effects(RemovalActions(request, current.items), Change) + Effects(Ordering(request, current.items), Change))
  {
    hide Effects, AllSourceActions, RemovalActions, Removals, Ordering, NameErrors, AllSourceErrors, SourceError, AllCreationEffects, AllChangeEffects;
    var scene := request.sceneName;
    var first := if current.sceneExists then [] else [Action(scene, Create, Some(CreateScene(scene)))];
    var sources := AllSourceActions(judge, scene, current, request.sources);
    var removals, ordering := RemovalActions(request, current.items), Ordering(request, current.items);
    ErrorFree(judge, request, current);
    SourcesStages(judge, scene, current, request.sources);
    RemovalActionsAreChanges(request, current.items);
    OrderingIsChange(request, current.items);
    EffectsOfOther([], Create);
    EffectsOfOther(removals + ordering, Create);
    EffectsOfOther(first, Change);
    EffectsOfOne(Action(scene, Create, Some(CreateScene(scene))));
    PlanParts(judge, request, current);
    EffectsOfThree(first, sources, removals + ordering, Create);
    EffectsOfThree(first, sources, removals + ordering, Change);
    EffectsConcat(removals, ordering, Change);
  }

  // ----- Admission of the creation batch -----

  /** The source that a creation is about; None for the scene. */
  function Subject(effect: Effect): Option<string> {
    if effect.CreateInput? || effect.CreateItem? then Some(effect.input) else None
  }

  function Subjects(effects: seq<Effect>): set<Option<string>> {
    set i | 0 <= i < |effects| :: Subject(effects[i])
  }

  lemma SubjectsNext(effects: seq<Effect>, i: nat)
    requires i < |effects|
    ensures Subjects(effects[..i + 1]) == Subjects(effects[..i]) + {Subject(effects[i])}
    ensures Subject(effects[i]) in Subjects(effects[..i]) <==> exists j | 0 <= j < i :: Subject(effects[j]) == Subject(effects[i])
  {
    var after, before := effects[..i + 1], effects[..i];
    assert forall j | 0 <= j < i :: before[j] == effects[j] && after[j] == effects[j];
    assert after[i] == effects[i];
  }

  lemma EmptySubjects(effects: seq<Effect>)
    ensures Subjects(effects[..0]) == {}
  {
  }

  /** What a creation batch must be: no subject twice, each effect asked for by the request. */
  ghost predicate Admissible(request: Request, creations: seq<Effect>) {
    && request.apply
    && request.Distinct()
    && |creations| <= |request.sources| + 1
    && (forall i | 0 <= i < |creations| :: IsCreation(creations[i]) && ValidEffect(creations[i], request))
    && (forall i, j | 0 <= i < j < |creations| :: Subject(creations[i]) != Subject(creations[j]))
  }

  method NoSubjectTwice(creations: seq<Effect>) returns (admitted: bool)
    requires forall i | 0 <= i < |creations| :: IsCreation(creations[i])
    ensures admitted <==> forall i, j | 0 <= i < j < |creations| :: Subject(creations[i]) != Subject(creations[j])
  {
    hide Subjects;
    EmptySubjects(creations);
    var unique: set<string>, sceneSeen := {}, false;
    for i := 0 to |creations|
      invariant sceneSeen <==> None in Subjects(creations[..i])
      invariant forall name :: name in unique <==> Some(name) in Subjects(creations[..i])
      invariant forall j, k | 0 <= j < k < i :: Subject(creations[j]) != Subject(creations[k])
    {
      var effect := creations[i];
      SubjectsNext(creations, i);
      if effect.CreateScene? {
        if sceneSeen {
          return false;
        }
        sceneSeen := true;
      } else {
        if effect.input in unique {
          return false;
        }
        unique := unique + {effect.input};
      }
    }
    admitted := true;
  }

  method AdmitCreations(request: Request, creations: seq<Effect>) returns (admitted: bool)
    ensures admitted <==> Admissible(request, creations)
  {
    hide ValidEffect, Request.Distinct;
    if !request.apply || !request.Distinct() {
      return false;
    }
    if exists i | 0 <= i < |creations| :: !IsCreation(creations[i]) || !ValidEffect(creations[i], request) {
      return false;
    }
    if |creations| > |request.sources| + 1 {
      return false;
    }
    admitted := NoSubjectTwice(creations);
  }

  lemma CreationSubjects(scene: string, current: Current, spec: Spec)
    ensures |CreationEffects(scene, current, spec)| <= 1
    ensures forall e | e in CreationEffects(scene, current, spec) :: Subject(e) == Some(spec.name)
  {
    hide FindItem;
    var actions := Creation(scene, current, spec);
    if actions != [] {
      EffectsOfOne(actions[0]);
    }
  }

  lemma {:induction false} AllCreationSubjects(scene: string, current: Current, sources: seq<Spec>)
    requires forall i, j | 0 <= i < j < |sources| :: sources[i].name != sources[j].name
    ensures var effects := AllCreationEffects(scene, current, sources);
            && |effects| <= |sources|
            && (forall e | e in effects :: exists i | 0 <= i < |sources| :: Subject(e) == Some(sources[i].name))
            && (forall i, j | 0 <= i < j < |effects| :: Subject(effects[i]) != Subject(effects[j]))
  {
    hide CreationEffects;
    if sources != [] {
      var most, last := sources[..|sources| - 1], sources[|sources| - 1];
      AllCreationSubjects(scene, current, most);
      CreationSubjects(scene, current, last);
      var effects, before := AllCreationEffects(scene, current, sources), AllCreationEffects(scene, current, most);
      forall e | e in effects ensures exists i | 0 <= i < |sources| :: Subject(e) == Some(sources[i].name) {
        if e in before {
          var i :| 0 <= i < |most| && Subject(e) == Some(most[i].name);
          assert sources[i] == most[i];
        }
      }
    }
  }

  lemma {:induction false} EffectsAgreed(actions: seq<Action>, request: Request, phase: Phase)
    requires AllAgreed(actions, request)
    ensures forall e | e in Effects(actions, phase) :: ValidEffect(e, request) && (IsCreation(e) <==> phase == Create)
  {
    hide ValidEffect, IsCreation;
    if actions != [] {
      EffectsAgreed(actions[..|actions| - 1], request, phase);
      assert Agreed(actions[|actions| - 1], request);
    }
  }

  /** The transport admits the creation batch of every error-free plan that is to be applied. */
  lemma PlannedCreationsAreAdmissible(judge: Judge, request: Request, current: Current)
    requires request.apply && request.Parsed() && (request.NeedsCanvas() ==> current.video.Some?)
    requires PlanFor(judge, request, current).errors == []
    ensures Admissible(request, Effects(PlanFor(judge, request, current).actions, Create))
  {
    hide PlanFor, Effects, AllCreationEffects, ValidEffect, AllAgreed;
    var plan := PlanFor(judge, request, current);
    ErrorFree(judge, request, current);
    PlanStages(judge, request, current);
    AllCreationSubjects(request.sceneName, current, request.sources);
    PlannerAndTransportAgree(judge, request, current);
    EffectsAgreed(plan.actions, request, Create);
    var creations, rest := Effects(plan.actions, Create), AllCreationEffects(request.sceneName, current, request.sources);
    assert forall e | e in rest :: Subject(e).Some?;
    assert forall i | 0 <= i < |rest| :: Subject(rest[i]).Some?;
  }

  /** Every effect of the change batch passes the transport's check too. */
  lemma PlannedChangesAreValid(judge: Judge, request: Request, current: Current)
    requires request.Parsed() && (request.NeedsCanvas() ==> current.video.Some?)
    requires PlanFor(judge, request, current).errors == []
    ensures forall e | e in Effects(PlanFor(judge, request, current).actions, Change) :: ValidEffect(e, request) && !IsCreation(e)
  {
    hide PlanFor, Effects, ValidEffect, AllAgreed;
    PlannerAndTransportAgree(judge, request, current);
    EffectsAgreed(PlanFor(judge, request, current).actions, request, Change);
  }
}
