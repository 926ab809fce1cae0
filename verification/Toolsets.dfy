/**
 Which tools a session shows (dynamic_visibility.rs, dynamic_tools.rs). Groups of tools are switched
 on and off by calls; the session keeps one last override per group instead of the calls.
 */
module Toolsets {
  import opened Common
  import opened Sums

  datatype Tool = Tool(name: string, group: nat, readOnly: bool)

  /** `order` lists the tools in the order of the registry. */
  datatype Contract = Contract(tools: seq<Tool>, groups: seq<string>, core: set<nat>, order: seq<nat>) {
    ghost predicate Valid() {
      && (forall i, j | 0 <= i < j < |groups| :: groups[i] != groups[j])
      && (forall i | 0 <= i < |tools| :: tools[i].group < |groups|)
      && (forall i, j | 0 <= i < j < |tools| :: tools[i].name != tools[j].name)
      && (forall i | 0 <= i < |order| :: order[i] < |tools|)
      && (forall i, j | 0 <= i < j < |order| :: order[i] != order[j])
      && |order| == |tools|
      && "general" in groups
    }
  }

  datatype Settings = Settings(dynamic: bool, toolsets: seq<string>, tools: seq<string>, readOnly: bool)

  datatype State = State(available: bool, registered: bool, enabled: bool)

  datatype Effect = VisibilityChanged(name: string, enabled: bool)

  datatype Failure = BadContract | Configuration | InvalidArguments | Unreserved

  function Position(names: seq<string>, name: string): Option<nat> {
    if names == [] then None
    else if names[|names| - 1] == name && Position(names[..|names| - 1], name).None? then Some(|names| - 1)
    else Position(names[..|names| - 1], name)
  }

  lemma {:induction false} PositionFinds(names: seq<string>, name: string)
    ensures Position(names, name).Some? <==> name in names
    ensures Position(names, name).Some? ==> Position(names, name).value < |names| && names[Position(names, name).value] == name
  {
    if names != [] {
      PositionFinds(names[..|names| - 1], name);
      assert names == names[..|names| - 1] + [names[|names| - 1]];
    }
  }

  // ----- The initial states -----

  /** Whether the settings ask for every tool. */
  predicate AllSelected(settings: Settings) {
    && !(settings.dynamic && settings.toolsets == [])
    && ((settings.toolsets == [] && settings.tools == []) || "all" in settings.toolsets)
  }

  /** Whether the settings ask for a group. */
  predicate GroupSelected(contract: Contract, settings: Settings, group: nat)
    requires group < |contract.groups|
  {
    if settings.dynamic && settings.toolsets == [] then contract.groups[group] == "general"
    else ("core" in settings.toolsets && group in contract.core)
         || (contract.groups[group] in settings.toolsets && contract.groups[group] != "core")
  }

  predicate Selected(contract: Contract, settings: Settings, tool: Tool)
    requires tool.group < |contract.groups|
  {
    && (settings.readOnly ==> tool.readOnly)
    && (AllSelected(settings) || GroupSelected(contract, settings, tool.group) || tool.name in settings.tools)
  }

  function InitialState(contract: Contract, available: set<string>, settings: Settings, tool: Tool): State
    requires tool.group < |contract.groups|
  {
    var selected := Selected(contract, settings, tool);
    var registered := tool.name in available && (settings.readOnly ==> tool.readOnly) && (settings.dynamic || selected);
    State(tool.name in available, registered, registered && selected)
  }

  /** The tools that the settings may show at all. */
  predicate Offered(available: set<string>, settings: Settings, tool: Tool) {
    tool.name in available && !(settings.readOnly && !tool.readOnly)
  }

  /** What the settings mean: a read-only session never shows a tool that changes something. */
  lemma SelectionMeans(contract: Contract, available: set<string>, settings: Settings, tool: Tool)
    requires tool.group < |contract.groups|
    ensures var state, offered, group := InitialState(contract, available, settings, tool), Offered(available, settings, tool), contract.groups[tool.group];
            && (state.available <==> tool.name in available)
            && (settings.dynamic ==> (state.registered <==> offered))
            && (!settings.dynamic ==> (state.registered <==> state.enabled))
            && (state.enabled ==> offered)
            && ("all" in settings.toolsets ==> (state.enabled <==> offered))
            && (!settings.dynamic && settings.toolsets == [] && settings.tools == [] ==> (state.enabled <==> offered))
            && (!settings.dynamic && settings.toolsets == [] && settings.tools != [] ==> (state.enabled <==> offered && tool.name in settings.tools))
            && (settings.dynamic && settings.toolsets == [] ==> (state.enabled <==> offered && (group == "general" || tool.name in settings.tools)))
            && (settings.toolsets != [] && "all" !in settings.toolsets ==>
                  (state.enabled <==> offered && (tool.name in settings.tools || (group in settings.toolsets && group != "core")
                                                  || ("core" in settings.toolsets && tool.group in contract.core))))
  {
  }

  /** Enabled tools are registered, and registered ones are available. */
  predicate Nested(states: seq<State>) {
    forall i | 0 <= i < |states| :: (states[i].enabled ==> states[i].registered) && (states[i].registered ==> states[i].available)
  }

  /** Every group named is one, unless all are asked for anyway. */
  predicate GroupNamesKnown(contract: Contract, settings: Settings) {
    "all" in settings.toolsets || forall i | 0 <= i < |settings.toolsets| :: settings.toolsets[i] == "core" || settings.toolsets[i] in contract.groups
  }

  predicate NamesKnown(contract: Contract, settings: Settings) {
    && GroupNamesKnown(contract, settings)
    && (forall i | 0 <= i < |settings.tools| :: exists j | 0 <= j < |contract.tools| :: contract.tools[j].name == settings.tools[i])
  }

  /** The states that a session starts from. */
  method Fresh(contract: Contract, available: set<string>, settings: Settings) returns (r: Result<seq<State>, Failure>)
    requires contract.Valid()
    ensures r.Ok? <==>
            && NamesKnown(contract, settings)
            && (forall name | name in available :: exists i | 0 <= i < |contract.tools| :: contract.tools[i].name == name)
            && (exists i | 0 <= i < |contract.tools| :: InitialState(contract, available, settings, contract.tools[i]).registered)
    ensures r.Ok? ==>
              && |r.value| == |contract.tools| && Nested(r.value)
              && (forall i | 0 <= i < |contract.tools| :: r.value[i] == InitialState(contract, available, settings, contract.tools[i]))
              && (forall i | 0 <= i < |contract.tools| && r.value[i].registered :: Offered(available, settings, contract.tools[i]))
  {
    if exists name | name in available :: forall i | 0 <= i < |contract.tools| :: contract.tools[i].name != name {
      return Err(BadContract);
    }
    var groups, all := SelectGroups(contract, settings);
    if groups.None? {
      return Err(Configuration);
    }
    for i := 0 to |settings.tools|
      invariant forall j | 0 <= j < i :: Known(contract, settings.tools[j])
    {
      if forall j | 0 <= j < |contract.tools| :: contract.tools[j].name != settings.tools[i] {
        return Err(Configuration);
      }
    }
    var states: seq<State> := [];
    for i := 0 to |contract.tools|
      invariant |states| == i
      invariant forall j | 0 <= j < i :: states[j] == InitialState(contract, available, settings, contract.tools[j])
    {
      var tool := contract.tools[i];
      var permitted := !settings.readOnly || tool.readOnly;
      var selected := permitted && (all || tool.group in groups.value || tool.name in settings.tools);
      var registered := tool.name in available && permitted && (settings.dynamic || selected);
      states := states + [State(tool.name in available, registered, registered && selected)];
    }
    if forall i | 0 <= i < |states| :: !states[i].registered {
      return Err(Configuration);
    }
    r := Ok(states);
  }

  predicate Known(contract: Contract, name: string) {
    exists j | 0 <= j < |contract.tools| :: contract.tools[j].name == name
  }

  /** The groups that the settings name, or all of them; None for a name that stands for nothing. */
  method SelectGroups(contract: Contract, settings: Settings) returns (groups: Option<set<nat>>, all: bool)
    requires contract.Valid()
    ensures all <==> AllSelected(settings)
    ensures groups.Some? <==> GroupNamesKnown(contract, settings)
    ensures groups.Some? && !all ==> forall g | 0 <= g < |contract.groups| :: g in groups.value <==> GroupSelected(contract, settings, g)
  {
    if settings.dynamic && settings.toolsets == [] {
      PositionFinds(contract.groups, "general");
      return Some({Position(contract.groups, "general").value}), false;
    }
    if (settings.toolsets == [] && settings.tools == []) || "all" in settings.toolsets {
      return Some({}), true;
    }
    var chosen: set<nat> := {};
    for i := 0 to |settings.toolsets|
      invariant forall j | 0 <= j < i :: settings.toolsets[j] == "core" || settings.toolsets[j] in contract.groups
      invariant forall g | 0 <= g < |contract.groups| :: g in chosen <==>
                  ("core" in settings.toolsets[..i] && g in contract.core)
                  || (contract.groups[g] in settings.toolsets[..i] && contract.groups[g] != "core")
    {
      var name := settings.toolsets[i];
      assert settings.toolsets[..i + 1] == settings.toolsets[..i] + [name];
      if name == "core" {
        chosen := chosen + contract.core;
      } else {
        PositionFinds(contract.groups, name);
        var position := Position(contract.groups, name);
        if position.None? {
          return None, false;
        }
        chosen := chosen + {position.value};
      }
    }
    assert settings.toolsets[..|settings.toolsets|] == settings.toolsets;
    groups, all := Some(chosen), false;
  }

  // ----- Switching groups -----

  predicate Concerned(contract: Contract, names: seq<string>, i: nat)
    requires i < |contract.tools| && contract.tools[i].group < |contract.groups|
  {
    contract.groups[contract.tools[i].group] in names
  }

  function SwitchedState(contract: Contract, state: State, names: seq<string>, enable: bool, i: nat): State
    requires i < |contract.tools| && contract.tools[i].group < |contract.groups|
  {
    if state.registered && Concerned(contract, names, i) then state.(enabled := enable) else state
  }

  /** The states after the named groups have been switched. */
  function Switched(contract: Contract, states: seq<State>, names: seq<string>, enable: bool): seq<State>
    requires |states| == |contract.tools| && forall i | 0 <= i < |contract.tools| :: contract.tools[i].group < |contract.groups|
  {
    seq(|states|, i requires 0 <= i < |states| => SwitchedState(contract, states[i], names, enable, i))
  }

  /** The tools among the first `count` of the registry that differ, each once. */
  function Flipped(contract: Contract, was: seq<State>, now: seq<State>, count: nat): seq<Effect>
    requires count <= |contract.order| && |was| == |now| == |contract.tools|
    requires forall i | 0 <= i < |contract.order| :: contract.order[i] < |contract.tools|
  {
    if count == 0 then []
    else
      var i := contract.order[count - 1];
      Flipped(contract, was, now, count - 1)
      + if was[i].enabled != now[i].enabled then [VisibilityChanged(contract.tools[i].name, now[i].enabled)] else []
  }

  predicate ValidNames(contract: Contract, names: seq<string>) {
    names != [] && forall i | 0 <= i < |names| :: names[i] in contract.groups
  }

  /**
   Switches groups. What has changed is reported tool by tool in the order of the registry, and
   nothing else changes.
   */
  method SetGroups(contract: Contract, states: seq<State>, names: seq<string>, enable: bool)
    returns (r: Result<seq<State>, Failure>, effects: seq<Effect>)
    requires contract.Valid() && |states| == |contract.tools|
    ensures r.Ok? <==> names != [] && forall name | name in names :: name in contract.groups
    ensures r.Ok? ==> r.value == Switched(contract, states, names, enable) && effects == Flipped(contract, states, r.value, |contract.order|)
    ensures r.Err? ==> effects == []
  {
    NamesAreValid(contract, names);
    if !ValidNames(contract, names) {
      return Err(InvalidArguments), [];
    }
    hide ValidNames, Concerned;
    effects := [];
    var now := states;
    ghost var goal := Switched(contract, states, names, enable);
    assert forall i | 0 <= i < |states| :: goal[i] == SwitchedState(contract, states[i], names, enable, i);
    hide Switched;
    for k := 0 to |contract.order|
      invariant |now| == |states|
      invariant forall j | 0 <= j < k :: now[contract.order[j]] == goal[contract.order[j]]
      invariant forall j | k <= j < |contract.order| :: now[contract.order[j]] == states[contract.order[j]]
      invariant effects == Flipped(contract, states, goal, k)
    {
      var i := contract.order[k];
      if now[i].registered && Concerned(contract, names, i) && now[i].enabled != enable {
        now := now[i := now[i].(enabled := enable)];
        effects := effects + [VisibilityChanged(contract.tools[i].name, enable)];
      }
    }
    forall i | 0 <= i < |now| ensures now[i] == goal[i] {
      OrderCovers(contract, i);
    }
    assert now == goal;
    r := Ok(now);
  }

  /** Every tool is in the registry. */
  lemma OrderCovers(contract: Contract, i: nat)
    requires contract.Valid() && i < |contract.tools|
    ensures exists j | 0 <= j < |contract.order| :: contract.order[j] == i
  {
    DistinctCover(contract.order, i);
  }

  /** The reported tools are exactly those that changed, with their new state, and none twice. */
  lemma {:induction false} FlippedExactly(contract: Contract, was: seq<State>, now: seq<State>, count: nat)
    requires contract.Valid() && count <= |contract.order| && |was| == |now| == |contract.tools|
    ensures var effects := Flipped(contract, was, now, count);
            && (forall i, j | 0 <= i < j < |effects| :: effects[i].name != effects[j].name)
            && (forall name, enabled :: VisibilityChanged(name, enabled) in effects <==>
                  exists k | 0 <= k < count :: TurnedTo(contract, was, now, contract.order[k], name, enabled))
  {
    if count > 0 {
      FlippedExactly(contract, was, now, count - 1);
      var effects, before, i := Flipped(contract, was, now, count), Flipped(contract, was, now, count - 1), contract.order[count - 1];
      forall k | 0 <= k < |before| ensures before[k].name != contract.tools[i].name {
        assert before[k] == VisibilityChanged(before[k].name, before[k].enabled) && before[k] in before;
        var j :| 0 <= j < count - 1 && TurnedTo(contract, was, now, contract.order[j], before[k].name, before[k].enabled);
      }
      forall name, enabled
        ensures VisibilityChanged(name, enabled) in effects <==>
                exists k | 0 <= k < count :: TurnedTo(contract, was, now, contract.order[k], name, enabled)
      {
        assert VisibilityChanged(name, enabled) in effects <==>
               VisibilityChanged(name, enabled) in before || TurnedTo(contract, was, now, i, name, enabled);
      }
    }
  }

  predicate TurnedTo(contract: Contract, was: seq<State>, now: seq<State>, i: nat, name: string, enabled: bool) {
    && i < |contract.tools| && i < |was| && i < |now|
    && contract.tools[i].name == name && was[i].enabled != now[i].enabled && now[i].enabled == enabled
  }

  // ----- Histories and overrides -----

  /** A call that switched groups. */
  datatype Switch = Switch(names: seq<string>, enable: bool)

  /** The states after a whole history of calls. */
  ghost function Fold(contract: Contract, initial: seq<State>, history: seq<Switch>): (states: seq<State>)
    requires contract.Valid() && |initial| == |contract.tools|
    ensures |states| == |contract.tools|
  {
    if history == [] then initial
    else
      var last := history[|history| - 1];
      Switched(contract, Fold(contract, initial, history[..|history| - 1]), last.names, last.enable)
  }

  /** The direction in which a group was last switched. */
  ghost function LastFor(history: seq<Switch>, group: string): Option<bool> {
    if history == [] then None
    else if group in history[|history| - 1].names then Some(history[|history| - 1].enable)
    else LastFor(history[..|history| - 1], group)
  }

  function OverriddenState(state: State, over: Option<bool>): State {
    if state.registered && over.Some? then state.(enabled := over.value) else state
  }

  /** The initial states with one override per group. */
  function Overridden(contract: Contract, initial: seq<State>, overrides: seq<Option<bool>>): (states: seq<State>)
    requires |initial| == |contract.tools| && |overrides| == |contract.groups|
    requires forall i | 0 <= i < |contract.tools| :: contract.tools[i].group < |contract.groups|
    ensures |states| == |initial|
  {
    seq(|initial|, i requires 0 <= i < |initial| => OverriddenState(initial[i], overrides[contract.tools[i].group]))
  }

  ghost predicate Compact(contract: Contract, history: seq<Switch>, overrides: seq<Option<bool>>) {
    |overrides| == |contract.groups| && forall g | 0 <= g < |overrides| :: overrides[g] == LastFor(history, contract.groups[g])
  }

  /** One last override per group says as much about the tools as the whole history. */
  lemma {:induction false} CompactionIsExact(contract: Contract, initial: seq<State>, history: seq<Switch>, overrides: seq<Option<bool>>)
    requires contract.Valid() && |initial| == |contract.tools| && Compact(contract, history, overrides)
    ensures Fold(contract, initial, history) == Overridden(contract, initial, overrides)
  {
    if history != [] {
      var most, last := history[..|history| - 1], history[|history| - 1];
      var earlier := seq(|contract.groups|, g requires 0 <= g < |contract.groups| => LastFor(most, contract.groups[g]));
      CompactionIsExact(contract, initial, most, earlier);
      var states := Fold(contract, initial, history);
      forall i | 0 <= i < |states| ensures states[i] == OverriddenState(initial[i], overrides[contract.tools[i].group]) {
        assert states[i] == SwitchedState(contract, Fold(contract, initial, most)[i], last.names, last.enable, i);
      }
    }
  }

  /** Whatever the calls, enabled tools stay registered and registered ones available. */
  lemma {:induction false} FoldStaysNested(contract: Contract, initial: seq<State>, history: seq<Switch>)
    requires contract.Valid() && |initial| == |contract.tools| && Nested(initial)
    ensures Nested(Fold(contract, initial, history))
    ensures forall i | 0 <= i < |initial| :: Fold(contract, initial, history)[i].registered == initial[i].registered
  {
    if history != [] {
      FoldStaysNested(contract, initial, history[..|history| - 1]);
    }
  }

  class DynamicTools {
    const contract: Contract
    const initial: seq<State>
    var overrides: seq<Option<bool>>
    var states: seq<State>
    ghost var history: seq<Switch>

    ghost predicate Inv()
      reads this
    {
      && contract.Valid() && |initial| == |contract.tools| && Nested(initial)
      && Compact(contract, history, overrides)
      && states == Fold(contract, initial, history)
    }

    constructor (contract: Contract, initial: seq<State>)
      requires contract.Valid() && |initial| == |contract.tools| && Nested(initial)
      ensures Inv() && history == [] && states == initial && this.contract == contract && this.initial == initial
    {
      this.contract, this.initial := contract, initial;
      overrides := seq(|contract.groups|, g requires 0 <= g < |contract.groups| => None);
      states, history := initial, [];
    }

    /** Replays the overrides over the initial states. */
    method Preview() returns (preview: seq<State>)
      requires Inv()
      ensures preview == states
    {
      hide ValidNames;
      preview := initial;
      for g := 0 to |overrides|
        invariant |preview| == |initial|
        invariant forall i | 0 <= i < |preview| ::
                    preview[i] == OverriddenState(initial[i], if contract.tools[i].group < g then overrides[contract.tools[i].group] else None)
      {
        if overrides[g].Some? {
          assert contract.groups[g] in contract.groups;
          var r, effects := SetGroups(contract, preview, [contract.groups[g]], overrides[g].value);
          forall i | 0 <= i < |preview|
            ensures r.value[i] == OverriddenState(initial[i], if contract.tools[i].group < g + 1 then overrides[contract.tools[i].group] else None)
          {
            assert r.value[i] == SwitchedState(contract, preview[i], [contract.groups[g]], overrides[g].value, i);
          }
          preview := r.value;
        }
      }
      CompactionIsExact(contract, initial, history, overrides);
      assert preview == Overridden(contract, initial, overrides);
    }

    /** Remembers the direction of every group named. */
    method Remember(names: seq<string>, enable: bool)
      requires Inv() && ValidNames(contract, names)
      modifies this`overrides
      ensures Compact(contract, history + [Switch(names, enable)], overrides)
    {
      hide Fold, Nested, Position, LastFor, Compact;
      ghost var was := overrides;
      CompactLength(contract, history, overrides);
      for n := 0 to |names|
        invariant |overrides| == |contract.groups|
        invariant forall g | 0 <= g < |overrides| ::
                    overrides[g] == if contract.groups[g] in names[..n] then Some(enable) else was[g]
      {
        PositionFinds(contract.groups, names[n]);
        var g := Position(contract.groups, names[n]).value;
        overrides := overrides[g := Some(enable)];
        assert names[..n + 1] == names[..n] + [names[n]];
      }
      assert names[..|names|] == names;
      CompactNext(contract, history, Switch(names, enable), was, overrides);
    }

    /**
     One call. A refused call changes nothing; otherwise the visible tools are those of the whole
     history, and the effects are the tools that changed.
     */
    method Call(request: Option<Switch>, reserved: bool) returns (error: Option<Failure>, effects: seq<Effect>)
      requires Inv()
      modifies this`overrides, this`states, this`history
      ensures Inv()
      ensures error.None? <==>
              && (request.Some? ==> request.value.names != [] && forall name | name in request.value.names :: name in contract.groups)
              && reserved
      ensures error.Some? ==> overrides == old(overrides) && states == old(states) && history == old(history) && effects == []
      ensures error.None? ==>
                && history == old(history) + (if request.Some? then [request.value] else [])
                && effects == Flipped(contract, old(states), states, |contract.order|)
    {
      hide Fold, Compact, ValidNames, Flipped;
      effects := [];
      var preview := Preview();
      if request.None? {
        NothingFlipped(contract, states, |contract.order|);
        return if reserved then None else Some(Unreserved), [];
      }
      var r, changed := SetGroups(contract, preview, request.value.names, request.value.enable);
      if r.Err? || !reserved {
        return Some(if r.Err? then r.error else Unreserved), [];
      }
      NamesAreValid(contract, request.value.names);
      Remember(request.value.names, request.value.enable);
      FoldNext(contract, initial, history, request.value);
      states, effects, history := r.value, changed, history + [request.value];
      error := None;
    }
  }

  lemma CompactLength(contract: Contract, history: seq<Switch>, overrides: seq<Option<bool>>)
    requires Compact(contract, history, overrides)
    ensures |overrides| == |contract.groups|
  {
  }

  lemma CompactNext(contract: Contract, history: seq<Switch>, last: Switch, was: seq<Option<bool>>, now: seq<Option<bool>>)
    requires Compact(contract, history, was) && |now| == |contract.groups|
    requires forall g | 0 <= g < |now| :: now[g] == if contract.groups[g] in last.names then Some(last.enable) else was[g]
    ensures Compact(contract, history + [last], now)
  {
    assert (history + [last])[..|history|] == history;
  }

  lemma NamesAreValid(contract: Contract, names: seq<string>)
    ensures ValidNames(contract, names) <==> names != [] && forall name | name in names :: name in contract.groups
  {
  }

  lemma FoldNext(contract: Contract, initial: seq<State>, history: seq<Switch>, last: Switch)
    requires contract.Valid() && |initial| == |contract.tools|
    ensures Fold(contract, initial, history + [last]) == Switched(contract, Fold(contract, initial, history), last.names, last.enable)
  {
    assert (history + [last])[..|history|] == history;
  }

  lemma {:induction false} NothingFlipped(contract: Contract, states: seq<State>, count: nat)
    requires contract.Valid() && count <= |contract.order| && |states| == |contract.tools|
    ensures Flipped(contract, states, states, count) == []
  {
    if count > 0 {
      NothingFlipped(contract, states, count - 1);
    }
  }
}
