/**
 The JavaScript string of a JSON value (generic_requests.rs): an iterative projection into a bounded
 buffer, and the recursive conversion of ECMA-262 that it must agree with.
 */
module JsString {
  import opened Common
  import opened JsonTree

  datatype JsError = ToPrimitive | ByteCapacity

  /** The text of a number, or None where it has none. */
  type Render<!Num> = Num -> Option<string>

  // ----- The recursive conversion -----

  function Size<Num>(value: Option<Json<Num>>): (n: nat)
    ensures n >= 1
  {
    if value.None? then 1 else Nodes(value.value)
  }

  predicate HasToString<Num>(members: seq<Member<Num>>) {
    exists i | 0 <= i < |members| :: members[i].key == "toString"
  }

  /** `Array.prototype.join` turns null elements into the empty string. */
  function JsText<Num>(render: Render<Num>, value: Option<Json<Num>>): Option<string>
    decreases Size(value), 0
  {
    match value
    case None => Some("undefined")
    case Some(Null) => Some("null")
    case Some(Bool(on)) => Some(if on then "true" else "false")
    case Some(Number(num)) => render(num)
    case Some(Text(text)) => Some(text)
    case Some(Object(members)) => if exists i | 0 <= i < |members| :: members[i].key == "toString" then None else Some("[object Object]")
    case Some(Array(elements)) => Joined(render, elements)
  }

  function ElementText<Num>(render: Render<Num>, value: Json<Num>): Option<string>
    decreases Nodes(value), 1
  {
    if value.Null? then Some("") else JsText(render, Some(value))
  }

  function Joined<Num>(render: Render<Num>, values: seq<Json<Num>>): Option<string>
    decreases AllNodes(values), 2
  {
    if values == [] then Some("")
    else
      var first, rest := ElementText(render, values[0]), Joined(render, values[1..]);
      if first.None? || rest.None? then None
      else Some(first.value + if |values| == 1 then "" else "," + rest.value)
  }

  /** The conversion as it is written elsewhere in the service, with a limit on its depth. */
  function JsTextWithin<Num>(render: Render<Num>, value: Option<Json<Num>>, depth: nat): Option<string>
    decreases Size(value), 0
  {
    if depth > 128 then None
    else match value
      case None => Some("undefined")
      case Some(Null) => Some("null")
      case Some(Bool(on)) => Some(if on then "true" else "false")
      case Some(Number(num)) => render(num)
      case Some(Text(text)) => Some(text)
      case Some(Object(members)) => if HasToString(members) then None else Some("[object Object]")
      case Some(Array(elements)) => JoinedWithin(render, elements, depth + 1)
  }

  function JoinedWithin<Num>(render: Render<Num>, values: seq<Json<Num>>, depth: nat): Option<string>
    decreases AllNodes(values), 2
  {
    if values == [] then Some("")
    else
      var first := if values[0].Null? then Some("") else JsTextWithin(render, Some(values[0]), depth);
      var rest := JoinedWithin(render, values[1..], depth);
      if first.None? || rest.None? then None
      else Some(first.value + if |values| == 1 then "" else "," + rest.value)
  }

  /** Arrays are nested at most `room` deep; null elements are not looked into. */
  predicate NestedWithin<Num>(value: Option<Json<Num>>, room: int)
    decreases Size(value), 0
  {
    room >= 0 && (value.Some? && value.value.Array? ==> AllNestedWithin(value.value.elements, room - 1))
  }

  predicate AllNestedWithin<Num>(values: seq<Json<Num>>, room: int)
    decreases AllNodes(values), 1
  {
    values != [] ==> (values[0].Null? || NestedWithin(Some(values[0]), room)) && AllNestedWithin(values[1..], room)
  }

  /** The limit decides by nesting alone, and below it the two conversions are one. */
  lemma {:induction false} WithinIsJsText<Num>(render: Render<Num>, value: Option<Json<Num>>, depth: nat)
    ensures JsTextWithin(render, value, depth) == if NestedWithin(value, 128 - depth) then JsText(render, value) else None
    decreases Size(value), 0
  {
    if depth <= 128 && value.Some? && value.value.Array? {
      JoinedWithinIsJoined(render, value.value.elements, depth + 1);
    }
  }

  lemma {:induction false} JoinedWithinIsJoined<Num>(render: Render<Num>, values: seq<Json<Num>>, depth: nat)
    ensures JoinedWithin(render, values, depth) == if AllNestedWithin(values, 128 - depth) then Joined(render, values) else None
    decreases AllNodes(values), 1
  {
    if values != [] {
      WithinIsJsText(render, Some(values[0]), depth);
      JoinedWithinIsJoined(render, values[1..], depth);
    }
  }

  // ----- What is written before the conversion succeeds or fails -----

  /** Text written, and whether the conversion went on after it. */
  datatype Written = Written(text: string, complete: bool)

  function Then(a: Written, b: Written): Written {
    if a.complete then Written(a.text + b.text, b.complete) else a
  }

  function Emit<Num>(render: Render<Num>, value: Option<Json<Num>>, element: bool): Written
    decreases Size(value), 0
  {
    match value
    case None => Written("undefined", true)
    case Some(Null) => Written(if element then "" else "null", true)
    case Some(Bool(on)) => Written(if on then "true" else "false", true)
    case Some(Number(num)) => if render(num).Some? then Written(render(num).value, true) else Written("", false)
    case Some(Text(text)) => Written(text, true)
    case Some(Object(members)) => if HasToString(members) then Written("", false) else Written("[object Object]", true)
    case Some(Array(elements)) =>
      if elements == [] then Written("", true)
      else
        assert AllNodes(elements) == Nodes(elements[0]) + AllNodes(elements[1..]);
        Then(Emit(render, Some(elements[0]), true), EmitRest(render, elements[1..]))
  }

  /** The remaining elements of an array, each behind a comma. */
  function EmitRest<Num>(render: Render<Num>, values: seq<Json<Num>>): Written
    decreases AllNodes(values), 1
  {
    if values == [] then Written("", true)
    else Then(Written(",", true), Then(Emit(render, Some(values[0]), true), EmitRest(render, values[1..])))
  }

  /** The remaining elements of every array that is still open, innermost last. */
  function EmitStack<Num>(render: Render<Num>, parents: seq<seq<Json<Num>>>): Written {
    if parents == [] then Written("", true)
    else Then(EmitRest(render, parents[|parents| - 1]), EmitStack(render, parents[..|parents| - 1]))
  }

  function StackNodes<Num>(parents: seq<seq<Json<Num>>>): nat {
    if parents == [] then 0 else AllNodes(parents[|parents| - 1]) + StackNodes(parents[..|parents| - 1])
  }

  lemma ThenNothing(w: Written)
    ensures Then(w, Written("", true)) == w == Then(Written("", true), w)
  {
    assert w.text + "" == w.text == "" + w.text;
  }

  lemma ThenAssociative(a: Written, b: Written, c: Written)
    ensures Then(Then(a, b), c) == Then(a, Then(b, c))
  {
  }

  function AsText(w: Written): Option<string> {
    if w.complete then Some(w.text) else None
  }

  /** The writing form completes exactly when the conversion is defined, with the same text. */
  lemma {:induction false} EmitIsJsText<Num>(render: Render<Num>, value: Option<Json<Num>>, element: bool)
    ensures AsText(Emit(render, value, element)) ==
            if element && value.Some? then ElementText(render, value.value) else JsText(render, value)
    decreases Size(value), 0
  {
    if value.Some? && value.value.Array? && value.value.elements != [] {
      var elements := value.value.elements;
      assert AllNodes(elements) == Nodes(elements[0]) + AllNodes(elements[1..]);
      EmitIsJsText(render, Some(elements[0]), true);
      RestIsJoined(render, elements[1..]);
      assert Emit(render, value, element) == Then(Emit(render, Some(elements[0]), true), EmitRest(render, elements[1..]));
      var first, rest := ElementText(render, elements[0]), Joined(render, elements[1..]);
      assert first.Some? && rest.Some? ==> Joined(render, elements) == Some(first.value + if elements[1..] == [] then "" else "," + rest.value);
      assert value == Some(Array(elements)) && JsText(render, value) == Joined(render, elements);
      assert !(first.Some? && rest.Some?) ==> Joined(render, elements).None?;
    }
  }

  lemma {:induction false} RestIsJoined<Num>(render: Render<Num>, values: seq<Json<Num>>)
    ensures AsText(EmitRest(render, values)) ==
            if Joined(render, values).None? then None else Some(if values == [] then "" else "," + Joined(render, values).value)
    decreases AllNodes(values), 1
  {
    if values != [] {
      EmitIsJsText(render, Some(values[0]), true);
      RestIsJoined(render, values[1..]);
    }
  }

  // ----- The iterative projection -----

  method AppendPiece(output: string, piece: string, max: nat) returns (r: Result<string, JsError>)
    ensures r == if |output| + |piece| <= max then Ok(output + piece) else Err(ByteCapacity)
  {
    if |output| + |piece| > max {
      return Err(ByteCapacity);
    }
    r := Ok(output + piece);
  }

  /** The outcome of appending what `w` writes to `prefix`. */
  function Appended(prefix: string, w: Written, max: nat): Result<string, JsError> {
    if |prefix + w.text| > max then Err(ByteCapacity)
    else if !w.complete then Err(ToPrimitive)
    else Ok(prefix + w.text)
  }

  /** Writes a value that is not an open array; `None` stands for an array that was opened. */
  method AppendLeaf<Num>(render: Render<Num>, output: string, value: Option<Json<Num>>, element: bool, max: nat) returns (r: Result<string, JsError>)
    requires |output| <= max
    requires value.Some? && value.value.Array? ==> value.value.elements == []
    ensures r == Appended(output, Emit(render, value, element), max)
  {
    assert output + "" == output;
    match value
    case None => r := AppendPiece(output, "undefined", max);
    case Some(Null) =>
      if element {
        r := Ok(output);
      } else {
        r := AppendPiece(output, "null", max);
      }
    case Some(Bool(on)) => r := AppendPiece(output, if on then "true" else "false", max);
    case Some(Number(num)) =>
      if render(num).None? {
        return Err(ToPrimitive);
      }
      r := AppendPiece(output, render(num).value, max);
    case Some(Text(text)) => r := AppendPiece(output, text, max);
    case Some(Object(members)) =>
      if HasToString(members) {
        return Err(ToPrimitive);
      }
      r := AppendPiece(output, "[object Object]", max);
    case Some(Array(_)) => r := Ok(output);
  }

  /** A failure in a first part decides the whole. */
  lemma FailureDecides(prefix: string, a: Written, b: Written, max: nat)
    requires Appended(prefix, a, max).Err?
    ensures Appended(prefix, Then(a, b), max) == Appended(prefix, a, max)
  {
  }

  lemma SuccessContinues(prefix: string, a: Written, b: Written, max: nat)
    requires Appended(prefix, a, max).Ok?
    ensures Appended(prefix, Then(a, b), max) == Appended(prefix + a.text, b, max)
  {
    assert prefix + (a.text + b.text) == prefix + a.text + b.text;
  }

  /**
   Appends the JavaScript string of a value. It succeeds exactly when the recursive conversion is
   defined and the result fits; every failure leaves the original prefix.
   */
  method AppendJsString<Num>(render: Render<Num>, prefix: string, value: Option<Json<Num>>, max: nat)
    returns (output: string, error: Option<JsError>)
    ensures error.None? <==> JsText(render, value).Some? && |prefix| + |JsText(render, value).value| <= max
    ensures error.None? ==> output == prefix + JsText(render, value).value
    ensures error.Some? ==> output == prefix
    ensures error == Some(ToPrimitive) ==> JsText(render, value).None?
    ensures error == Some(ByteCapacity) <==> |prefix + Emit(render, value, false).text| > max
  {
    EmitIsJsText(render, value, false);
    if |prefix| > max {
      return prefix, Some(ByteCapacity);
    }
    var r := Project(render, prefix, value, max);
    if r.Err? {
      return prefix, Some(r.error);
    }
    output, error := r.value, None;
  }

  lemma OpenArray<Num>(render: Render<Num>, elements: seq<Json<Num>>, parents: seq<seq<Json<Num>>>)
    requires elements != []
    ensures forall element ::
              Then(Emit(render, Some(Array(elements)), element), EmitStack(render, parents)) ==
              Then(Emit(render, Some(elements[0]), true), EmitStack(render, parents + [elements[1..]]))
    ensures Nodes(elements[0]) + StackNodes(parents + [elements[1..]]) < Nodes(Array(elements)) + StackNodes(parents)
  {
    assert (parents + [elements[1..]])[..|parents|] == parents;
    ThenAssociative(Emit(render, Some(elements[0]), true), EmitRest(render, elements[1..]), EmitStack(render, parents));
  }

  /** An array with nothing left contributes nothing. */
  lemma PopEmpty<Num>(render: Render<Num>, parents: seq<seq<Json<Num>>>)
    requires parents != [] && parents[|parents| - 1] == []
    ensures EmitStack(render, parents) == EmitStack(render, parents[..|parents| - 1])
    ensures StackNodes(parents) == StackNodes(parents[..|parents| - 1])
  {
    ThenNothing(EmitStack(render, parents[..|parents| - 1]));
  }

  lemma NextElement<Num>(render: Render<Num>, parents: seq<seq<Json<Num>>>)
    requires parents != [] && parents[|parents| - 1] != []
    ensures var last := |parents| - 1;
            var others := parents[last := parents[last][1..]];
            && EmitStack(render, parents) == Then(Written(",", true), Then(Emit(render, Some(parents[last][0]), true), EmitStack(render, others)))
            && StackNodes(parents) == Nodes(parents[last][0]) + StackNodes(others)
  {
    var last := |parents| - 1;
    var values, others := parents[last], parents[last := parents[last][1..]];
    assert others[..last] == parents[..last];
    var comma, first, rest, stack := Written(",", true), Emit(render, Some(values[0]), true), EmitRest(render, values[1..]), EmitStack(render, parents[..last]);
    ThenAssociative(comma, Then(first, rest), stack);
    ThenAssociative(first, rest, stack);
  }

  method Project<Num>(render: Render<Num>, prefix: string, value: Option<Json<Num>>, max: nat) returns (r: Result<string, JsError>)
    requires |prefix| <= max
    ensures r == Appended(prefix, Emit(render, value, false), max)
  {
    hide Emit, EmitRest, Nodes;
    var parents: seq<seq<Json<Num>>> := [];
    var current, element, output := value, false, prefix;
    var done := false;
    ThenNothing(Emit(render, value, false));
    while !done
      invariant |output| <= max
      invariant !done ==> Appended(prefix, Emit(render, value, false), max) ==
                          Appended(output, Then(Emit(render, current, element), EmitStack(render, parents)), max)
      invariant done ==> Appended(prefix, Emit(render, value, false), max) == Ok(output)
      decreases !done, Size(current) + StackNodes(parents)
    {
      if current.Some? && current.value.Array? && current.value.elements != [] {
        var elements := current.value.elements;
        OpenArray(render, elements, parents);
        parents, current, element := parents + [elements[1..]], Some(elements[0]), true;
      } else {
        r := AppendLeaf(render, output, current, element, max);
        var leaf, rest := Emit(render, current, element), EmitStack(render, parents);
        if r.Err? {
          FailureDecides(output, leaf, rest, max);
          return;
        }
        SuccessContinues(output, leaf, rest, max);
        output := r.value;
        ghost var left := StackNodes(parents);
        while parents != [] && parents[|parents| - 1] == []
          invariant Appended(prefix, Emit(render, value, false), max) == Appended(output, EmitStack(render, parents), max)
          invariant StackNodes(parents) == left
        {
          PopEmpty(render, parents);
          parents := parents[..|parents| - 1];
        }
        if parents == [] {
          assert output + "" == output;
          done := true;
        } else {
          var last := |parents| - 1;
          var next, others := parents[last][0], parents[last][1..];
          NextElement(render, parents);
          r := AppendPiece(output, ",", max);
          ghost var comma, remains := Written(",", true), Then(Emit(render, Some(next), true), EmitStack(render, parents[last := others]));
          if r.Err? {
            FailureDecides(output, comma, remains, max);
            return;
          }
          SuccessContinues(output, comma, remains, max);
          output, parents, current, element := r.value, parents[last := others], Some(next), true;
        }
      }
    }
    r := Ok(output);
  }
}
