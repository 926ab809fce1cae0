/**
 Values that OBS reports and the tolerant comparisons on them (scene_plan.rs, snapshots.rs).
 Numbers are exact reals; rounding to single precision is a parameter.
 */
module SceneValues {

  datatype Value =
    | Null
    | Bool(on: bool)
    | Number(number: real)
    | Text(text: string)
    | Array(elements: seq<Value>)
    | Object(members: map<string, Value>)

  datatype Canvas = Canvas(width: real, height: real)

  type Rounding = real -> real

  const TOLERANCE: real := 0.000001

  function Distance(a: real, b: real): real {
    if a < b then b - a else a - b
  }

  /** Equality up to a small difference between numbers, however deeply they are nested. */
  predicate Same(a: Value, b: Value) {
    match (a, b)
    case (Number(x), Number(y)) => Distance(x, y) < TOLERANCE
    case (Array(xs), Array(ys)) => |xs| == |ys| && forall i | 0 <= i < |xs| :: Same(xs[i], ys[i])
    case (Object(xs), Object(ys)) => |xs| == |ys| && forall k | k in xs :: k in ys && Same(xs[k], ys[k])
    case _ => a == b
  }

  /** The nearest half, with ties upwards. */
  function HalfPixel(value: real): real {
    var doubled := value * 2.0;
    var floor := doubled.Floor;
    ((if doubled - floor as real >= 0.5 then floor + 1 else floor) as real) / 2.0
  }

  /** The half pixel of a value is a quarter of a pixel away at most, and a tie goes upwards. */
  lemma HalfPixelIsNearest(value: real)
    ensures HalfPixel(value) - 0.25 <= value < HalfPixel(value) + 0.25
    ensures (HalfPixel(value) * 2.0).Floor as real == HalfPixel(value) * 2.0
  {
    var doubled := value * 2.0;
    var floor := doubled.Floor;
    var nearest := if doubled - floor as real >= 0.5 then floor + 1 else floor;
    assert HalfPixel(value) == nearest as real / 2.0;
  }

  lemma HalfPixelOfOrigin(value: real)
    ensures HalfPixel(value) == HalfPixel(0.0) <==> -0.25 <= value < 0.25
  {
    hide HalfPixel;
    HalfPixelIsNearest(value);
    HalfPixelIsNearest(0.0);
    var at, origin := (HalfPixel(value) * 2.0).Floor, (HalfPixel(0.0) * 2.0).Floor;
    assert origin == 0;
    if at != 0 {
      assert at as real <= -1.0 || 1.0 <= at as real;
    }
  }

  predicate SameTransform(single: Rounding, field: string, a: Value, b: Value) {
    if a.Number? && b.Number? then
      if field in {"positionX", "positionY"} then HalfPixel(a.number) == HalfPixel(b.number)
      else single(a.number) == single(b.number) || Distance(a.number, b.number) < TOLERANCE
    else Same(a, b)
  }

  /** A number stored as the same single, or less than a millionth away. */
  predicate About(single: Rounding, value: Value, number: real) {
    && value.Number?
    && (single(value.number) == single(number) || number - 0.000001 < value.number < number + 0.000001)
  }

  /** A number that rounds to the origin in half pixels. */
  predicate AtOrigin(value: Value) {
    value.Number? && -0.25 <= value.number < 0.25
  }

  lemma NumberMeans(single: Rounding, field: string, value: Value, number: real)
    requires field !in {"positionX", "positionY"}
    ensures SameTransform(single, field, value, Number(number)) <==> About(single, value, number)
    ensures SameTransform(single, field, Number(number), value) <==> About(single, value, number)
  {
  }

  lemma OriginMeans(single: Rounding, field: string, value: Value)
    requires field in {"positionX", "positionY"}
    ensures SameTransform(single, field, value, Number(0.0)) <==> AtOrigin(value)
    ensures SameTransform(single, field, Number(0.0), value) <==> AtOrigin(value)
  {
    hide HalfPixel;
    if value.Number? {
      HalfPixelOfOrigin(value.number);
    }
  }

  lemma {:induction false} SameReflexive(a: Value)
    ensures Same(a, a)
  {
    match a
    case Array(xs) =>
      forall i | 0 <= i < |xs| ensures Same(xs[i], xs[i]) {
        SameReflexive(xs[i]);
      }
    case Object(xs) =>
      forall k | k in xs ensures Same(xs[k], xs[k]) {
        SameReflexive(xs[k]);
      }
    case _ =>
  }

  lemma KeysAgree(xs: map<string, Value>, ys: map<string, Value>)
    requires |xs| == |ys| && forall k | k in xs :: k in ys
    ensures xs.Keys == ys.Keys
  {
    assert |xs.Keys| == |xs| && |ys.Keys| == |ys|;
    assert ys.Keys == xs.Keys + (ys.Keys - xs.Keys);
  }

  lemma {:induction false} SameSymmetric(a: Value, b: Value)
    requires Same(a, b)
    ensures Same(b, a)
  {
    match (a, b)
    case (Array(xs), Array(ys)) =>
      forall i | 0 <= i < |ys| ensures Same(ys[i], xs[i]) {
        SameSymmetric(xs[i], ys[i]);
      }
    case (Object(xs), Object(ys)) =>
      KeysAgree(xs, ys);
      forall k | k in ys ensures k in xs && Same(ys[k], xs[k]) {
        assert k in xs.Keys;
        SameSymmetric(xs[k], ys[k]);
      }
    case _ =>
  }

  lemma SameTransformTolerant(single: Rounding, field: string, a: Value, b: Value)
    ensures SameTransform(single, field, a, a)
    ensures SameTransform(single, field, a, b) ==> SameTransform(single, field, b, a)
  {
    SameReflexive(a);
    if Same(a, b) {
      SameSymmetric(a, b);
    }
  }

  /** Two small steps can add up to a visible one, so a chain of comparisons proves nothing. */
  lemma SameIsNotTransitive()
    ensures exists a, b, c :: Same(a, b) && Same(b, c) && !Same(a, c)
  {
    var a, b, c := Number(0.0), Number(0.0000006), Number(0.0000012);
    assert Same(a, b) && Same(b, c) && !Same(a, c);
  }
}
