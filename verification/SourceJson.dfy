/**
 Bounded encoding and number normalisation of JSON values (js_json.rs). How a double is printed,
 how its text is parsed and how strings are escaped are parameters.
 */
module SourceJson {
  import opened Common
  import opened JsonTree

  /** A stored number: an integer, a double, or one without a finite double. */
  datatype Num = Whole(n: int) | Double(x: real) | Unavailable

  /** `show` prints a double and `read` reads one, `round` converts an integer to one, `parse` reads a 64-bit integer. */
  datatype Format = Format(
    show: real -> string,
    round: int -> real,
    parse: string -> Option<int>,
    read: string -> Option<real>,
    quote: string -> string)
  {
    function Show(x: real): string {
      show(x)
    }

    function Quote(text: string): string {
      quote(text)
    }

    function AsDouble(num: Num): Option<real> {
      match num
      case Whole(n) => Some(round(n))
      case Double(x) => Some(x)
      case Unavailable => None
    }

    function Text(num: Num): string {
      if AsDouble(num).Some? then Show(AsDouble(num).value) else "null"
    }

    /** A number is stored as an integer where its text is one. */
    function Canonical(num: Num): Num {
      if AsDouble(num).None? then num
      else
        var x := AsDouble(num).value;
        var read := parse(Show(x));
        if read.Some? then Whole(read.value) else Double(x)
    }

    /** Nothing prints as the empty text, and the integer read from a text is the number printed. */
    ghost predicate Faithful() {
      && (forall x :: |Show(x)| >= 1)
      && (forall s :: |Quote(s)| >= 2)
      && (forall x, k :: parse(Show(x)) == Some(k) ==> round(k) == x)
    }

    /** Quoted texts begin with a quote and none begins another; numbers are written as the JSON grammar says. */
    ghost predicate Lexical() {
      && (forall s :: |Quote(s)| >= 2 && Quote(s)[0] == '"')
      && (forall s, t :: Quote(s) <= Quote(t) ==> s == t)
      && (forall x :: |Show(x)| >= 1 && Show(x)[0] in "-0123456789")
      && (forall x :: forall i | 0 <= i < |Show(x)| :: Show(x)[i] in NUMERIC)
    }
  }

  /** The characters of numbers in the JSON grammar. */
  const NUMERIC: string := "0123456789+-.eE"

  type Tree = Json<Num>

  datatype Limits = Limits(maxDepth: nat, maxBytes: nat)

  datatype JsonError = Depth | EncodedBytes | NumberUnavailable

  // ----- The encoding -----

  function Encode(f: Format, value: Tree): string {
    match value
    case Null => "null"
    case Bool(on) => if on then "true" else "false"
    case Number(num) => f.Text(num)
    case Text(text) => f.Quote(text)
    case Array(elements) => "[" + EncodeElements(f, elements) + "]"
    case Object(members) => "{" + EncodeMembers(f, members) + "}"
  }

  function Comma(count: nat): string {
    if count > 1 then "," else ""
  }

  function EncodeElements(f: Format, values: seq<Tree>): string {
    if values == [] then ""
    else EncodeElements(f, values[..|values| - 1]) + (Comma(|values|) + Encode(f, values[|values| - 1]))
  }

  function EncodeMember(f: Format, member: Member<Num>): string {
    f.Quote(member.key) + ":" + Encode(f, member.value)
  }

  function EncodeMembers(f: Format, members: seq<Member<Num>>): string {
    if members == [] then ""
    else EncodeMembers(f, members[..|members| - 1]) + (Comma(|members|) + EncodeMember(f, members[|members| - 1]))
  }

  predicate AllFinite(f: Format, value: Tree) {
    match value
    case Number(num) => f.AsDouble(num).Some?
    case Array(elements) => forall i | 0 <= i < |elements| :: AllFinite(f, elements[i])
    case Object(members) => forall i | 0 <= i < |members| :: AllFinite(f, members[i].value)
    case _ => true
  }

  /** No value lies more than `room` levels below this one. */
  predicate Shallow(value: Tree, room: int) {
    && room >= 0
    && match value
       case Array(elements) => forall i | 0 <= i < |elements| :: Shallow(elements[i], room - 1)
       case Object(members) => forall i | 0 <= i < |members| :: Shallow(members[i].value, room - 1)
       case _ => true
  }

  lemma {:induction false} AllNodesNext(values: seq<Tree>)
    requires values != []
    ensures AllNodes(values) == AllNodes(values[..|values| - 1]) + Nodes(values[|values| - 1])
  {
    if |values| > 1 {
      AllNodesNext(values[1..]);
      assert values[1..][..|values| - 2] == values[..|values| - 1][1..];
    }
  }

  lemma {:induction false} MemberNodesNext(members: seq<Member<Num>>)
    requires members != []
    ensures MemberNodes(members) == MemberNodes(members[..|members| - 1]) + Nodes(members[|members| - 1].value)
  {
    if |members| > 1 {
      MemberNodesNext(members[1..]);
      assert members[1..][..|members| - 2] == members[..|members| - 1][1..];
    }
  }

  lemma NumberHasText(f: Format, num: Num)
    requires f.Faithful()
    ensures |f.Text(num)| >= 1
  {
  }

  /** Every value costs at least one byte. */
  lemma {:induction false} NodesWithinLength(f: Format, value: Tree)
    requires f.Faithful()
    ensures Nodes(value) <= |Encode(f, value)|
  {
    match value
    case Array(elements) => ElementsWithinLength(f, elements);
    case Object(members) => MembersWithinLength(f, members);
    case Number(num) => NumberHasText(f, num);
    case _ =>
  }

  lemma {:induction false} ElementsWithinLength(f: Format, values: seq<Tree>)
    requires f.Faithful()
    ensures AllNodes(values) <= |EncodeElements(f, values)|
  {
    if values != [] {
      AllNodesNext(values);
      ElementsWithinLength(f, values[..|values| - 1]);
      NodesWithinLength(f, values[|values| - 1]);
    }
  }

  lemma {:induction false} MembersWithinLength(f: Format, members: seq<Member<Num>>)
    requires f.Faithful()
    ensures MemberNodes(members) <= |EncodeMembers(f, members)|
  {
    if members != [] {
      MemberNodesNext(members);
      MembersWithinLength(f, members[..|members| - 1]);
      NodesWithinLength(f, members[|members| - 1].value);
    }
  }

  // ----- Reading an encoding -----

  datatype Reading<T> = Read(value: T, rest: string) | Unreadable

  predicate Starts(s: string, prefix: string) {
    |prefix| <= |s| && s[..|prefix|] == prefix
  }

  /** The text whose quoted form `s` starts with. */
  ghost function ReadText(f: Format, s: string): (r: Reading<string>)
    ensures r.Read? && f.Lexical() ==> |r.rest| < |s|
  {
    if exists text :: Starts(s, f.Quote(text)) then
      var text :| Starts(s, f.Quote(text));
      Read(text, s[|f.Quote(text)|..])
    else Unreadable
  }

  /** How many numeric characters `s` starts with. */
  function NumericRun(s: string): (n: nat)
    ensures n <= |s|
  {
    if s != "" && s[0] in NUMERIC then 1 + NumericRun(s[1..]) else 0
  }

  /** A number: an integer if its text is one, otherwise a double. */
  function ReadNumber(f: Format, s: string): (r: Reading<Tree>)
    ensures r.Read? ==> |r.rest| < |s|
  {
    var n := NumericRun(s);
    if n == 0 then Unreadable
    else if f.parse(s[..n]).Some? then Read(Number(Whole(f.parse(s[..n]).value)), s[n..])
    else if f.read(s[..n]).Some? then Read(Number(Double(f.read(s[..n]).value)), s[n..])
    else Unreadable
  }

  /** A value by the JSON grammar, without white space. */
  ghost function ReadValue(f: Format, s: string): (r: Reading<Tree>)
    requires f.Lexical()
    ensures r.Read? ==> |r.rest| < |s|
    decreases |s|, 1
  {
    if s == "" then Unreadable
    else if Starts(s, "null") then Read(Null, s[4..])
    else if Starts(s, "true") then Read(Bool(true), s[4..])
    else if Starts(s, "false") then Read(Bool(false), s[5..])
    else if s[0] == '"' then
      var text := ReadText(f, s);
      if text.Read? then Read(Text(text.value), text.rest) else Unreadable
    else if Starts(s, "[]") then Read(Array([]), s[2..])
    else if s[0] == '[' then
      var elements := ReadElements(f, s[1..]);
      if elements.Read? then Read(Array(elements.value), elements.rest) else Unreadable
    else if Starts(s, "{}") then Read(Object([]), s[2..])
    else if s[0] == '{' then
      var members := ReadMembers(f, s[1..]);
      if members.Read? then Read(Object(members.value), members.rest) else Unreadable
    else ReadNumber(f, s)
  }

  /** Values separated by commas, up to the closing bracket. */
  ghost function ReadElements(f: Format, s: string): (r: Reading<seq<Tree>>)
    requires f.Lexical()
    ensures r.Read? ==> |r.rest| < |s|
    decreases |s|, 2
  {
    var first := ReadValue(f, s);
    if first.Unreadable? then Unreadable
    else if Starts(first.rest, "]") then Read([first.value], first.rest[1..])
    else if Starts(first.rest, ",") then
      var more := ReadElements(f, first.rest[1..]);
      if more.Read? then Read([first.value] + more.value, more.rest) else Unreadable
    else Unreadable
  }

  ghost function ReadMember(f: Format, s: string): (r: Reading<Member<Num>>)
    requires f.Lexical()
    ensures r.Read? ==> |r.rest| < |s|
    decreases |s|, 2
  {
    var key := ReadText(f, s);
    if key.Unreadable? || !Starts(key.rest, ":") then Unreadable
    else
      var value := ReadValue(f, key.rest[1..]);
      if value.Read? then Read(Member(key.value, value.value), value.rest) else Unreadable
  }

  ghost function ReadMembers(f: Format, s: string): (r: Reading<seq<Member<Num>>>)
    requires f.Lexical()
    ensures r.Read? ==> |r.rest| < |s|
    decreases |s|, 3
  {
    var first := ReadMember(f, s);
    if first.Unreadable? then Unreadable
    else if Starts(first.rest, "}") then Read([first.value], first.rest[1..])
    else if Starts(first.rest, ",") then
      var more := ReadMembers(f, first.rest[1..]);
      if more.Read? then Read([first.value] + more.value, more.rest) else Unreadable
    else Unreadable
  }

  /** A text that is one JSON value and nothing else. */
  ghost function Decode(f: Format, s: string): Option<Tree>
    requires f.Lexical()
  {
    var r := ReadValue(f, s);
    if r.Read? && r.rest == "" then Some(r.value) else None
  }

  /** Every number is a double that reads back from its text. */
  predicate Legible(f: Format, value: Tree) {
    match value
    case Number(num) => f.AsDouble(num).Some? && f.read(f.Text(num)) == f.AsDouble(num)
    case Array(elements) => forall i | 0 <= i < |elements| :: Legible(f, elements[i])
    case Object(members) => forall i | 0 <= i < |members| :: Legible(f, members[i].value)
    case _ => true
  }

  /** What may follow a value. */
  predicate Delimited(rest: string) {
    rest == "" || rest[0] in ",]}"
  }

  lemma ReadsText(f: Format, text: string, rest: string)
    requires f.Lexical()
    ensures ReadText(f, f.Quote(text) + rest) == Read(text, rest)
  {
    var s := f.Quote(text) + rest;
    assert Starts(s, f.Quote(text));
    forall other | Starts(s, f.Quote(other)) ensures other == text {
      if |f.Quote(other)| <= |f.Quote(text)| {
        assert f.Quote(other) <= f.Quote(text);
      } else {
        assert f.Quote(text) <= f.Quote(other);
      }
    }
  }

  lemma {:induction false} NumericRunOf(text: string, rest: string)
    requires (forall i | 0 <= i < |text| :: text[i] in NUMERIC) && Delimited(rest)
    ensures NumericRun(text + rest) == |text|
  {
    if text == "" {
      assert text + rest == rest;
      assert ',' !in NUMERIC && ']' !in NUMERIC && '}' !in NUMERIC;
    } else {
      NumericRunOf(text[1..], rest);
      assert (text + rest)[1..] == text[1..] + rest;
    }
  }

  lemma ReadsNumber(f: Format, num: Num, rest: string)
    requires f.Lexical() && Legible(f, Number(num)) && Delimited(rest)
    ensures ReadNumber(f, f.Text(num) + rest) == Read(Number(f.Canonical(num)), rest)
  {
    var text := f.Text(num);
    assert text == f.Show(f.AsDouble(num).value);
    NumericRunOf(text, rest);
    assert (text + rest)[..|text|] == text && (text + rest)[|text|..] == rest;
  }

  /** The encoding of a value begins like a value, not like the end of a list. */
  lemma FirstCharacter(f: Format, value: Tree)
    requires f.Lexical()
    ensures |Encode(f, value)| >= 1 && Encode(f, value)[0] in "ntf\"[{-0123456789"
  {
    if value.Number? && f.AsDouble(value.num).Some? {
      assert f.Show(f.AsDouble(value.num).value)[0] in "-0123456789";
    }
  }

  /** The elements from the front: a value, then the others behind a comma. */
  lemma {:induction false} ElementsFromFront(f: Format, values: seq<Tree>)
    requires values != []
    ensures EncodeElements(f, values) == Encode(f, values[0]) + if |values| == 1 then "" else "," + EncodeElements(f, values[1..])
  {
    hide Encode;
    var last := |values| - 1;
    var first, end := Encode(f, values[0]), Encode(f, values[last]);
    if last > 0 {
      ElementsFromFront(f, values[..last]);
      var front, back := values[..last], values[1..];
      assert EncodeElements(f, values) == EncodeElements(f, front) + ("," + end);
      assert front[1..] == back[..last - 1] && back[last - 1] == values[last];
      var middle := EncodeElements(f, back[..last - 1]);
      if last == 1 {
        assert back[..0] == [] && EncodeElements(f, back) == end;
        assert EncodeElements(f, front) == first;
      } else {
        assert EncodeElements(f, back) == middle + ("," + end);
        hide *;
        assert first + ("," + middle) + ("," + end) == first + ("," + (middle + ("," + end)));
      }
    }
  }

  lemma {:induction false} MembersFromFront(f: Format, members: seq<Member<Num>>)
    requires members != []
    ensures EncodeMembers(f, members) == EncodeMember(f, members[0]) + if |members| == 1 then "" else "," + EncodeMembers(f, members[1..])
  {
    hide EncodeMember;
    var last := |members| - 1;
    var first, end := EncodeMember(f, members[0]), EncodeMember(f, members[last]);
    if last > 0 {
      MembersFromFront(f, members[..last]);
      var front, back := members[..last], members[1..];
      assert EncodeMembers(f, members) == EncodeMembers(f, front) + ("," + end);
      assert front[1..] == back[..last - 1] && back[last - 1] == members[last];
      var middle := EncodeMembers(f, back[..last - 1]);
      if last == 1 {
        assert back[..0] == [] && EncodeMembers(f, back) == end;
        assert EncodeMembers(f, front) == first;
      } else {
        assert EncodeMembers(f, back) == middle + ("," + end);
        hide *;
        assert first + ("," + middle) + ("," + end) == first + ("," + (middle + ("," + end)));
      }
    }
  }

  function NormalElements(f: Format, values: seq<Tree>): seq<Tree> {
    seq(|values|, i requires 0 <= i < |values| => Normal(f, values[i]))
  }

  function NormalMembers(f: Format, members: seq<Member<Num>>): seq<Member<Num>> {
    seq(|members|, i requires 0 <= i < |members| => Member(members[i].key, Normal(f, members[i].value)))
  }

  /** One step of each reader, from what its parts read. */
  lemma ReadLastElement(f: Format, s: string, value: Tree, rest: string)
    requires f.Lexical() && ReadValue(f, s) == Read(value, "]" + rest)
    ensures ReadElements(f, s) == Read([value], rest)
  {
    hide Format.Lexical, ReadValue;
    assert ("]" + rest)[1..] == rest;
  }

  lemma ReadNextElement(f: Format, s: string, value: Tree, more: string, values: seq<Tree>, rest: string)
    requires f.Lexical() && ReadValue(f, s) == Read(value, "," + more) && ReadElements(f, more) == Read(values, rest)
    ensures ReadElements(f, s) == Read([value] + values, rest)
  {
    hide Format.Lexical, ReadValue;
    assert ("," + more)[1..] == more && !Starts("," + more, "]");
  }

  lemma ReadLastMember(f: Format, s: string, member: Member<Num>, rest: string)
    requires f.Lexical() && ReadMember(f, s) == Read(member, "}" + rest)
    ensures ReadMembers(f, s) == Read([member], rest)
  {
    hide Format.Lexical, ReadMember;
    assert ("}" + rest)[1..] == rest;
  }

  lemma ReadNextMember(f: Format, s: string, member: Member<Num>, more: string, members: seq<Member<Num>>, rest: string)
    requires f.Lexical() && ReadMember(f, s) == Read(member, "," + more) && ReadMembers(f, more) == Read(members, rest)
    ensures ReadMembers(f, s) == Read([member] + members, rest)
  {
    hide Format.Lexical, ReadMember;
    assert ("," + more)[1..] == more && !Starts("," + more, "}");
  }

  lemma ReadArray(f: Format, inner: string, values: seq<Tree>, rest: string)
    requires f.Lexical() && inner != "" && inner[0] != ']' && ReadElements(f, inner) == Read(values, rest)
    ensures ReadValue(f, "[" + inner) == Read(Array(values), rest)
  {
    hide Format.Lexical, ReadElements, ReadMembers, ReadText, ReadNumber;
    var s := "[" + inner;
    assert s[0] == '[' && s[1] == inner[0] && s[1..] == inner;
  }

  lemma ReadObject(f: Format, inner: string, members: seq<Member<Num>>, rest: string)
    requires f.Lexical() && inner != "" && inner[0] != '}' && ReadMembers(f, inner) == Read(members, rest)
    ensures ReadValue(f, "{" + inner) == Read(Object(members), rest)
  {
    hide Format.Lexical, ReadElements, ReadMembers, ReadText, ReadNumber;
    var s := "{" + inner;
    assert s[0] == '{' && s[1] == inner[0] && s[1..] == inner;
  }

  lemma ReadsWord(f: Format, value: Tree, rest: string)
    requires f.Lexical() && (value.Null? || value.Bool? || value == Array([]) || value == Object([]))
    ensures ReadValue(f, Encode(f, value) + rest) == Read(value, rest)
  {
    hide Format.Lexical, ReadElements, ReadMembers, ReadText, ReadNumber;
    var text := Encode(f, value);
    var s, n := text + rest, |text|;
    assert value == Array([]) ==> text == "[" + "" + "]" == "[]";
    assert value == Object([]) ==> text == "{" + "" + "}" == "{}";
    assert text in ["null", "true", "false", "[]", "{}"];
    assert s[..n] == text && s[n..] == rest && s[0] == text[0];
  }

  lemma ReadByFirst(f: Format, s: string)
    requires f.Lexical() && s != ""
    ensures s[0] in "-0123456789" ==> ReadValue(f, s) == ReadNumber(f, s)
    ensures s[0] == '"' ==> ReadValue(f, s) == var text := ReadText(f, s); if text.Read? then Read(Text(text.value), text.rest) else Unreadable
  {
    hide Format.Lexical, ReadElements, ReadMembers, ReadText, ReadNumber;
  }

  lemma ReadsScalar(f: Format, value: Tree, rest: string)
    requires f.Lexical() && (value.Number? || value.Text?) && Legible(f, value) && Delimited(rest)
    ensures ReadValue(f, Encode(f, value) + rest) == Read(Normal(f, value), rest)
  {
    hide ReadValue, ReadText, ReadNumber, Format.Canonical;
    var s := Encode(f, value) + rest;
    if value.Number? {
      assert f.Show(f.AsDouble(value.num).value)[0] in "-0123456789";
      assert s[0] == f.Text(value.num)[0];
      hide Format.Lexical;
      ReadsNumber(f, value.num, rest);
    } else {
      assert s[0] == f.Quote(value.text)[0] == '"';
      hide Format.Lexical;
      ReadsText(f, value.text, rest);
    }
    ReadByFirst(f, s);
  }

  /** What has been written is read back, up to the form of numbers. */
  lemma {:induction false} ReadsValue(f: Format, value: Tree, rest: string)
    requires f.Lexical() && Legible(f, value) && Delimited(rest)
    ensures ReadValue(f, Encode(f, value) + rest) == Read(Normal(f, value), rest)
    decreases value, 0
  {
    hide Format.Lexical, ReadValue, Delimited;
    match value
    case Null => ReadsWord(f, value, rest);
    case Bool(on) => ReadsWord(f, value, rest);
    case Number(num) => ReadsScalar(f, value, rest);
    case Text(text) => ReadsScalar(f, value, rest);
    case Array(elements) => ReadsArray(f, elements, rest);
    case Object(members) => ReadsObject(f, members, rest);
  }

  lemma {:induction false} ReadsArray(f: Format, elements: seq<Tree>, rest: string)
    requires f.Lexical() && (forall i | 0 <= i < |elements| :: Legible(f, elements[i]))
    ensures ReadValue(f, Encode(f, Array(elements)) + rest) == Read(Array(NormalElements(f, elements)), rest)
    decreases elements, 2
  {
    hide Format.Lexical, ReadValue, ReadElements, Legible;
    var inner := EncodeElements(f, elements) + "]" + rest;
    if elements == [] {
      ReadsWord(f, Array([]), rest);
      assert NormalElements(f, elements) == [];
    } else {
      ElementsFromFront(f, elements);
      FirstCharacter(f, elements[0]);
      assert inner[0] == Encode(f, elements[0])[0];
      ReadsElements(f, elements, rest);
      ReadArray(f, inner, NormalElements(f, elements), rest);
      hide EncodeElements, NormalElements;
      assert Encode(f, Array(elements)) + rest == "[" + inner;
    }
  }

  lemma {:induction false} ReadsElements(f: Format, values: seq<Tree>, rest: string)
    requires f.Lexical() && values != [] && (forall i | 0 <= i < |values| :: Legible(f, values[i]))
    ensures ReadElements(f, EncodeElements(f, values) + "]" + rest) == Read(NormalElements(f, values), rest)
    decreases values, 1
  {
    hide Format.Lexical, ReadValue, ReadElements, Legible, Encode, EncodeElements, Normal;
    var s, first := EncodeElements(f, values) + "]" + rest, Encode(f, values[0]);
    ElementsFromFront(f, values);
    if |values| == 1 {
      assert s == first + ("]" + rest);
      ReadsValue(f, values[0], "]" + rest);
      ReadLastElement(f, s, Normal(f, values[0]), rest);
      assert [Normal(f, values[0])] == NormalElements(f, values);
    } else {
      var more := EncodeElements(f, values[1..]) + "]" + rest;
      assert s == first + ("," + more);
      ReadsValue(f, values[0], "," + more);
      ReadsElements(f, values[1..], rest);
      ReadNextElement(f, s, Normal(f, values[0]), more, NormalElements(f, values[1..]), rest);
      assert [Normal(f, values[0])] + NormalElements(f, values[1..]) == NormalElements(f, values);
    }
  }

  lemma {:induction false} ReadsMember(f: Format, member: Member<Num>, rest: string)
    requires f.Lexical() && Legible(f, member.value) && Delimited(rest)
    ensures ReadMember(f, EncodeMember(f, member) + rest) == Read(Member(member.key, Normal(f, member.value)), rest)
    decreases member, 1
  {
    hide Format.Lexical, ReadValue, Legible, Encode, Normal, ReadText;
    var value := Encode(f, member.value) + rest;
    assert EncodeMember(f, member) + rest == f.Quote(member.key) + (":" + value) && (":" + value)[1..] == value;
    ReadsText(f, member.key, ":" + value);
    ReadsValue(f, member.value, rest);
  }

  lemma {:induction false} ReadsMembers(f: Format, members: seq<Member<Num>>, rest: string)
    requires f.Lexical() && members != [] && (forall i | 0 <= i < |members| :: Legible(f, members[i].value))
    ensures ReadMembers(f, EncodeMembers(f, members) + "}" + rest) == Read(NormalMembers(f, members), rest)
    decreases members, 1
  {
    hide Format.Lexical, ReadMember, ReadMembers, Legible, EncodeMember, EncodeMembers, Normal;
    var s, first := EncodeMembers(f, members) + "}" + rest, EncodeMember(f, members[0]);
    var read := Member(members[0].key, Normal(f, members[0].value));
    MembersFromFront(f, members);
    if |members| == 1 {
      assert s == first + ("}" + rest);
      ReadsMember(f, members[0], "}" + rest);
      ReadLastMember(f, s, read, rest);
      assert [read] == NormalMembers(f, members);
    } else {
      var more := EncodeMembers(f, members[1..]) + "}" + rest;
      assert s == first + ("," + more);
      ReadsMember(f, members[0], "," + more);
      ReadsMembers(f, members[1..], rest);
      ReadNextMember(f, s, read, more, NormalMembers(f, members[1..]), rest);
      assert [read] + NormalMembers(f, members[1..]) == NormalMembers(f, members);
    }
  }

  lemma {:induction false} ReadsObject(f: Format, members: seq<Member<Num>>, rest: string)
    requires f.Lexical() && (forall i | 0 <= i < |members| :: Legible(f, members[i].value))
    ensures ReadValue(f, Encode(f, Object(members)) + rest) == Read(Object(NormalMembers(f, members)), rest)
    decreases members, 2
  {
    hide ReadValue, ReadMembers, Legible;
    var inner := EncodeMembers(f, members) + "}" + rest;
    if members == [] {
      ReadsWord(f, Object([]), rest);
      assert NormalMembers(f, members) == [];
    } else {
      MembersFromFront(f, members);
      assert inner[0] == EncodeMember(f, members[0])[0] == f.Quote(members[0].key)[0];
      hide Format.Lexical;
      ReadsMembers(f, members, rest);
      ReadObject(f, inner, NormalMembers(f, members), rest);
      hide EncodeMembers, NormalMembers;
      assert Encode(f, Object(members)) + rest == "{" + inner;
    }
  }

  /** The encoding is JSON: it decodes to the value, with numbers in their normal form. */
  lemma DecodesToNormal(f: Format, value: Tree)
    requires f.Lexical() && Legible(f, value)
    ensures Decode(f, Encode(f, value)) == Some(Normal(f, value))
  {
    ReadsValue(f, value, "");
    assert Encode(f, value) + "" == Encode(f, value);
  }

  /** Values that are written alike are the same up to the form of numbers. */
  lemma EncodingIsInjective(f: Format, a: Tree, b: Tree)
    requires f.Lexical() && Legible(f, a) && Legible(f, b) && Encode(f, a) == Encode(f, b)
    ensures Normal(f, a) == Normal(f, b)
  {
    DecodesToNormal(f, a);
    DecodesToNormal(f, b);
  }

  // ----- One encoder for counting and for writing -----

  /** Where encoded bytes go: a bounded counter or a growing buffer. */
  datatype Sink = Counter(used: nat, limit: nat) | Buffer(bytes: string)

  /** The sink after `text`; None when a counter's limit is exceeded. */
  function Put(sink: Sink, text: string): Option<Sink> {
    match sink
    case Counter(used, limit) => if used + |text| <= limit then Some(Counter(used + |text|, limit)) else None
    case Buffer(bytes) => Some(Buffer(bytes + text))
  }

  function PutMore(sink: Option<Sink>, text: string): Option<Sink> {
    if sink.None? then None else Put(sink.value, text)
  }

  lemma PutConcat(sink: Option<Sink>, a: string, b: string)
    ensures PutMore(PutMore(sink, a), b) == PutMore(sink, a + b)
  {
    if sink.Some? && sink.value.Buffer? {
      assert sink.value.bytes + a + b == sink.value.bytes + (a + b);
    }
  }

  lemma PutNothing(sink: Sink)
    requires sink.Counter? ==> sink.used <= sink.limit
    ensures Put(sink, "") == Some(sink)
  {
    if sink.Buffer? {
      assert sink.bytes + "" == sink.bytes;
    }
  }

  predicate Within(sink: Option<Sink>) {
    sink.Some? && sink.value.Counter? ==> sink.value.used <= sink.value.limit
  }

  /** Encodes a value into a sink, piece by piece. */
  method EmitTo(f: Format, sink: Option<Sink>, value: Tree) returns (r: Option<Sink>)
    requires Within(sink)
    ensures r == PutMore(sink, Encode(f, value)) && Within(r)
    decreases value, 0
  {
    match value
    case Array(elements) =>
      var open := PutMore(sink, "[");
      var inner := EmitElements(f, open, elements);
      r := PutMore(inner, "]");
      PutConcat(sink, "[", EncodeElements(f, elements));
      PutConcat(sink, "[" + EncodeElements(f, elements), "]");
    case Object(members) =>
      var open := PutMore(sink, "{");
      var inner := EmitMembers(f, open, members);
      r := PutMore(inner, "}");
      PutConcat(sink, "{", EncodeMembers(f, members));
      PutConcat(sink, "{" + EncodeMembers(f, members), "}");
    case Null => r := PutMore(sink, "null");
    case Bool(on) => r := PutMore(sink, if on then "true" else "false");
    case Number(num) => r := PutMore(sink, f.Text(num));
    case Text(text) => r := PutMore(sink, f.Quote(text));
  }

  method EmitElements(f: Format, sink: Option<Sink>, values: seq<Tree>) returns (r: Option<Sink>)
    requires Within(sink)
    ensures r == PutMore(sink, EncodeElements(f, values)) && Within(r)
    decreases values, 1
  {
    r := sink;
    if sink.Some? {
      PutNothing(sink.value);
    }
    for i := 0 to |values|
      invariant r == PutMore(sink, EncodeElements(f, values[..i])) && Within(r)
    {
      assert values[..i + 1][..i] == values[..i];
      var before, comma, text := EncodeElements(f, values[..i]), Comma(i + 1), Encode(f, values[i]);
      var separated := PutMore(r, comma);
      r := EmitTo(f, separated, values[i]);
      PutConcat(sink, before, comma);
      PutConcat(sink, before + comma, text);
      assert before + comma + text == before + (comma + text);
    }
    assert values[..|values|] == values;
  }

  method EmitMembers(f: Format, sink: Option<Sink>, members: seq<Member<Num>>) returns (r: Option<Sink>)
    requires Within(sink)
    ensures r == PutMore(sink, EncodeMembers(f, members)) && Within(r)
    decreases members, 1
  {
    r := sink;
    if sink.Some? {
      PutNothing(sink.value);
    }
    for i := 0 to |members|
      invariant r == PutMore(sink, EncodeMembers(f, members[..i])) && Within(r)
    {
      assert members[..i + 1][..i] == members[..i];
      var before, comma, member := EncodeMembers(f, members[..i]), Comma(i + 1), members[i];
      var head, text := f.Quote(member.key) + ":", Encode(f, member.value);
      var named := PutMore(PutMore(r, comma), head);
      r := EmitTo(f, named, member.value);
      PutConcat(sink, before, comma);
      PutConcat(sink, before + comma, head);
      PutConcat(sink, before + comma + head, text);
      assert before + comma + head + text == before + (comma + EncodeMember(f, member));
    }
    assert members[..|members|] == members;
  }

  // ----- Admission -----

  /** Why a value may be refused with `error`. */
  predicate Blamed(f: Format, value: Tree, room: int, nodes: nat, error: JsonError) {
    match error
    case Depth => !Shallow(value, room)
    case EncodedBytes => Nodes(value) > nodes
    case NumberUnavailable => !AllFinite(f, value)
  }

  /** Walks the tree with a budget of nodes; what is left of the budget is returned. */
  method Check(f: Format, value: Tree, depth: nat, maxDepth: nat, nodes: nat) returns (r: Result<nat, JsonError>)
    ensures r.Ok? <==> Shallow(value, maxDepth - depth) && AllFinite(f, value) && Nodes(value) <= nodes
    ensures r.Ok? ==> r.value == nodes - Nodes(value)
    ensures r.Err? ==> Blamed(f, value, maxDepth - depth, nodes, r.error)
    decreases value, 0
  {
    if depth > maxDepth {
      return Err(Depth);
    }
    if nodes == 0 {
      return Err(EncodedBytes);
    }
    match value
    case Number(num) =>
      r := if f.AsDouble(num).None? then Err(NumberUnavailable) else Ok(nodes - 1);
    case Array(elements) => r := CheckElements(f, elements, depth + 1, maxDepth, nodes - 1);
    case Object(members) => r := CheckMembers(f, members, depth + 1, maxDepth, nodes - 1);
    case _ => r := Ok(nodes - 1);
  }

  method CheckElements(f: Format, values: seq<Tree>, depth: nat, maxDepth: nat, nodes: nat) returns (r: Result<nat, JsonError>)
    ensures r.Ok? <==> && (forall i | 0 <= i < |values| :: Shallow(values[i], maxDepth - depth) && AllFinite(f, values[i]))
                       && AllNodes(values) <= nodes
    ensures r.Ok? ==> r.value == nodes - AllNodes(values)
    ensures r.Err? ==> match r.error
                       case Depth => exists i | 0 <= i < |values| :: !Shallow(values[i], maxDepth - depth)
                       case EncodedBytes => AllNodes(values) > nodes
                       case NumberUnavailable => exists i | 0 <= i < |values| :: !AllFinite(f, values[i])
    decreases values, 1
  {
    hide Shallow, AllFinite;
    var left := nodes;
    for i := 0 to |values|
      invariant AllNodes(values[..i]) <= nodes && left == nodes - AllNodes(values[..i])
      invariant forall j | 0 <= j < i :: Shallow(values[j], maxDepth - depth) && AllFinite(f, values[j])
    {
      NodesOfPrefix(values, i);
      r := Check(f, values[i], depth, maxDepth, left);
      if r.Err? {
        return;
      }
      left := r.value;
    }
    assert values[..|values|] == values;
    r := Ok(left);
  }

  lemma {:induction false} NodesOfPrefix(values: seq<Tree>, i: nat)
    requires i < |values|
    ensures AllNodes(values[..i + 1]) == AllNodes(values[..i]) + Nodes(values[i])
    ensures AllNodes(values[..i + 1]) <= AllNodes(values)
  {
    assert values[..i + 1][..i] == values[..i];
    AllNodesNext(values[..i + 1]);
    PrefixNodes(values, i + 1);
  }

  lemma {:induction false} PrefixNodes(values: seq<Tree>, i: nat)
    requires i <= |values|
    ensures AllNodes(values[..i]) <= AllNodes(values)
  {
    if i < |values| {
      AllNodesNext(values);
      PrefixNodes(values[..|values| - 1], i);
      assert values[..|values| - 1][..i] == values[..i];
    } else {
      assert values[..i] == values;
    }
  }

  function Values(members: seq<Member<Num>>): seq<Tree> {
    seq(|members|, i requires 0 <= i < |members| => members[i].value)
  }

  lemma {:induction false} NodesOfValues(members: seq<Member<Num>>)
    ensures AllNodes(Values(members)) == MemberNodes(members)
  {
    if members != [] {
      NodesOfValues(members[1..]);
      assert Values(members)[1..] == Values(members[1..]);
    }
  }

  /** The members of an object, by the same walk. */
  method CheckMembers(f: Format, members: seq<Member<Num>>, depth: nat, maxDepth: nat, nodes: nat) returns (r: Result<nat, JsonError>)
    ensures r.Ok? <==> && (forall i | 0 <= i < |members| :: Shallow(members[i].value, maxDepth - depth) && AllFinite(f, members[i].value))
                       && MemberNodes(members) <= nodes
    ensures r.Ok? ==> r.value == nodes - MemberNodes(members)
    ensures r.Err? ==> match r.error
                       case Depth => exists i | 0 <= i < |members| :: !Shallow(members[i].value, maxDepth - depth)
                       case EncodedBytes => MemberNodes(members) > nodes
                       case NumberUnavailable => exists i | 0 <= i < |members| :: !AllFinite(f, members[i].value)
    decreases members, 1
  {
    hide Shallow, AllFinite;
    var left := nodes;
    NodesOfValues(members);
    ghost var values := Values(members);
    for i := 0 to |members|
      invariant AllNodes(values[..i]) <= nodes && left == nodes - AllNodes(values[..i])
      invariant forall j | 0 <= j < i :: Shallow(members[j].value, maxDepth - depth) && AllFinite(f, members[j].value)
    {
      NodesOfPrefix(values, i);
      r := Check(f, members[i].value, depth, maxDepth, left);
      if r.Err? {
        return;
      }
      left := r.value;
    }
    assert values[..|members|] == values;
    r := Ok(left);
  }

  /** What may be encoded: depth, numbers and length decide, and nothing else. */
  predicate Encodable(f: Format, value: Tree, limits: Limits) {
    Shallow(value, limits.maxDepth) && AllFinite(f, value) && |Encode(f, value)| <= limits.maxBytes
  }

  /**
   Validates and measures a value. The budget of nodes never refuses what the byte limit admits, and
   the length counted is that of the bytes written later.
   */
  method Prepare(f: Format, value: Tree, limits: Limits) returns (r: Result<nat, JsonError>)
    requires f.Faithful()
    ensures r.Ok? <==> Encodable(f, value, limits)
    ensures r.Ok? ==> r.value == |Encode(f, value)|
    ensures r.Err? ==> match r.error
                       case Depth => !Shallow(value, limits.maxDepth)
                       case EncodedBytes => |Encode(f, value)| > limits.maxBytes
                       case NumberUnavailable => !AllFinite(f, value)
  {
    NodesWithinLength(f, value);
    var checked := Check(f, value, 0, limits.maxDepth, limits.maxBytes);
    if checked.Err? {
      return Err(checked.error);
    }
    var counted := EmitTo(f, Some(Counter(0, limits.maxBytes)), value);
    r := if counted.None? then Err(EncodedBytes) else Ok(counted.value.used);
  }

  method EncodeSourceJson(f: Format, value: Tree, limits: Limits) returns (r: Result<string, JsonError>)
    requires f.Faithful()
    ensures r.Ok? <==> Encodable(f, value, limits)
    ensures r.Ok? ==> r.value == Encode(f, value)
    ensures r.Ok? && f.Lexical() && Legible(f, value) ==> Decode(f, r.value) == Some(Normal(f, value))
  {
    var length := Prepare(f, value, limits);
    if length.Err? {
      return Err(length.error);
    }
    if f.Lexical() && Legible(f, value) {
      DecodesToNormal(f, value);
    }
    var written := EmitTo(f, Some(Buffer("")), value);
    assert "" + Encode(f, value) == Encode(f, value);
    r := Ok(written.value.bytes);
  }

  // ----- Normalisation -----

  function Normal(f: Format, value: Tree): Tree {
    match value
    case Number(num) => Number(f.Canonical(num))
    case Array(elements) => Array(seq(|elements|, i requires 0 <= i < |elements| => Normal(f, elements[i])))
    case Object(members) =>
      Object(seq(|members|, i requires 0 <= i < |members| => Member(members[i].key, Normal(f, members[i].value))))
    case _ => value
  }

  lemma CanonicalIsFaithful(f: Format, num: Num)
    requires f.Faithful()
    ensures f.AsDouble(f.Canonical(num)) == f.AsDouble(num)
    ensures f.Text(f.Canonical(num)) == f.Text(num)
    ensures f.Canonical(f.Canonical(num)) == f.Canonical(num)
  {
  }

  /** Normalisation does not change the encoding. */
  lemma {:induction false} NormalKeepsEncoding(f: Format, value: Tree)
    requires f.Faithful()
    ensures Encode(f, Normal(f, value)) == Encode(f, value)
  {
    match value
    case Number(num) => CanonicalIsFaithful(f, num);
    case Array(elements) => NormalKeepsElements(f, elements, Normal(f, value).elements);
    case Object(members) => NormalKeepsMembers(f, members, Normal(f, value).members);
    case _ =>
  }

  lemma {:induction false} NormalKeepsElements(f: Format, values: seq<Tree>, normal: seq<Tree>)
    requires f.Faithful() && |normal| == |values| && forall i | 0 <= i < |values| :: normal[i] == Normal(f, values[i])
    ensures EncodeElements(f, normal) == EncodeElements(f, values)
  {
    if values != [] {
      var last := |values| - 1;
      NormalKeepsElements(f, values[..last], normal[..last]);
      NormalKeepsEncoding(f, values[last]);
    }
  }

  lemma {:induction false} NormalKeepsMembers(f: Format, members: seq<Member<Num>>, normal: seq<Member<Num>>)
    requires f.Faithful() && |normal| == |members|
    requires forall i | 0 <= i < |members| :: normal[i] == Member(members[i].key, Normal(f, members[i].value))
    ensures EncodeMembers(f, normal) == EncodeMembers(f, members)
  {
    if members != [] {
      var last := |members| - 1;
      NormalKeepsMembers(f, members[..last], normal[..last]);
      NormalKeepsEncoding(f, members[last].value);
    }
  }

  /** Normalising twice is normalising once, and neither depth nor numbers are lost. */
  lemma {:induction false} NormalIsStable(f: Format, value: Tree)
    requires f.Faithful()
    ensures Normal(f, Normal(f, value)) == Normal(f, value)
    ensures AllFinite(f, Normal(f, value)) <==> AllFinite(f, value)
    ensures forall room :: Shallow(Normal(f, value), room) <==> Shallow(value, room)
  {
    match value
    case Number(num) => CanonicalIsFaithful(f, num);
    case Array(elements) =>
      var normal := Normal(f, value).elements;
      forall i | 0 <= i < |elements|
        ensures normal[i] == Normal(f, elements[i]) == Normal(f, normal[i])
        ensures AllFinite(f, normal[i]) <==> AllFinite(f, elements[i])
        ensures forall room :: Shallow(normal[i], room) <==> Shallow(elements[i], room)
      {
        NormalIsStable(f, elements[i]);
      }
    case Object(members) =>
      var normal := Normal(f, value).members;
      forall i | 0 <= i < |members|
        ensures normal[i].value == Normal(f, members[i].value) == Normal(f, normal[i].value) && normal[i].key == members[i].key
        ensures AllFinite(f, normal[i].value) <==> AllFinite(f, members[i].value)
        ensures forall room :: Shallow(normal[i].value, room) <==> Shallow(members[i].value, room)
      {
        NormalIsStable(f, members[i].value);
      }
    case _ =>
  }

  /** A normalised value is admitted exactly when the original is, and is written the same. */
  lemma NormalIsInterchangeable(f: Format, value: Tree, limits: Limits)
    requires f.Faithful()
    ensures Encodable(f, Normal(f, value), limits) <==> Encodable(f, value, limits)
    ensures Encode(f, Normal(f, value)) == Encode(f, value)
  {
    NormalKeepsEncoding(f, value);
    NormalIsStable(f, value);
  }

  method Visit(f: Format, value: Tree) returns (r: Tree)
    ensures r == Normal(f, value)
    decreases value
  {
    match value
    case Number(num) => r := Number(f.Canonical(num));
    case Array(elements) =>
      var visited := elements;
      for i := 0 to |elements|
        invariant |visited| == |elements|
        invariant forall j | 0 <= j < i :: visited[j] == Normal(f, elements[j])
        invariant forall j | i <= j < |elements| :: visited[j] == elements[j]
      {
        var element := Visit(f, elements[i]);
        visited := visited[i := element];
      }
      r := Array(visited);
      assert visited == Normal(f, value).elements;
    case Object(members) =>
      var visited := members;
      for i := 0 to |members|
        invariant |visited| == |members|
        invariant forall j | 0 <= j < i :: visited[j] == Member(members[j].key, Normal(f, members[j].value))
        invariant forall j | i <= j < |members| :: visited[j] == members[j]
      {
        var member := Visit(f, members[i].value);
        visited := visited[i := Member(members[i].key, member)];
      }
      r := Object(visited);
      assert visited == Normal(f, value).members;
    case _ => r := value;
  }

  /** Normalises a value, or refuses it and leaves it as it was. */
  method NormalizeWithLimits(f: Format, value: Tree, limits: Limits) returns (r: Tree, error: Option<JsonError>)
    requires f.Faithful()
    ensures error.None? <==> Encodable(f, value, limits)
    ensures error.None? ==> r == Normal(f, value) && Encodable(f, r, limits) && Encode(f, r) == Encode(f, value)
    ensures error.Some? ==> r == value
  {
    var length := Prepare(f, value, limits);
    if length.Err? {
      return value, Some(length.error);
    }
    NormalIsInterchangeable(f, value, limits);
    r := Visit(f, value);
    error := None;
  }
}
