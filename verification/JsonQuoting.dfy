/**
 The quoting of texts in JSON (section 7 of RFC 8259, as the service's encoder writes it), and that it
 is what `SourceJson` takes for granted: no quoted text begins another one.
 */
module JsonQuoting {
  import opened Common
  import opened SourceJson

  function HexDigit(d: nat): char
    requires d < 16
  {
    "0123456789abcdef"[d]
  }

  /** A quotation mark, a backslash or a control character is escaped; every other byte stands for itself. */
  function Escaped(c: char): string {
    if c == '"' then "\\\""
    else if c == '\\' then "\\\\"
    else if c as int == 8 then "\\b"
    else if c as int == 9 then "\\t"
    else if c as int == 10 then "\\n"
    else if c as int == 12 then "\\f"
    else if c as int == 13 then "\\r"
    else if c as int < 32 then "\\u00" + [HexDigit(c as int / 16), HexDigit(c as int % 16)]
    else [c]
  }

  function EscapedText(text: string): string {
    if text == "" then "" else Escaped(text[0]) + EscapedText(text[1..])
  }

  function Quoted(text: string): string {
    "\"" + (EscapedText(text) + "\"")
  }

  lemma HexDigitsDiffer(a: nat, b: nat)
    requires a < 16 && b < 16 && HexDigit(a) == HexDigit(b)
    ensures a == b
  {
  }

  /** How a control character that has no name is written. */
  predicate ByNumber(c: char) {
    c as int < 32 && c as int !in {8, 9, 10, 12, 13}
  }

  lemma EscapedShape(c: char)
    ensures |Escaped(c)| >= 1 && Escaped(c)[0] != '"'
    ensures Escaped(c)[0] == '\\' <==> c == '"' || c == '\\' || c as int < 32
    ensures Escaped(c)[0] != '\\' ==> Escaped(c) == [c]
    ensures Escaped(c)[0] == '\\' && !ByNumber(c) ==> |Escaped(c)| == 2 && Escaped(c)[1] != 'u'
    ensures ByNumber(c) ==> |Escaped(c)| == 6 && Escaped(c)[1] == 'u'
    ensures ByNumber(c) ==> Escaped(c)[4] == HexDigit(c as int / 16) && Escaped(c)[5] == HexDigit(c as int % 16)
  {
  }

  /** A short escape is told by its second character. */
  lemma NamesDiffer(c: char, d: char)
    requires Escaped(c)[0] == '\\' == Escaped(d)[0] && !ByNumber(c) && !ByNumber(d)
    requires |Escaped(c)| == 2 == |Escaped(d)| && Escaped(c)[1] == Escaped(d)[1]
    ensures c == d
  {
  }

  lemma EscapesDiffer(c: char, d: char)
    requires Escaped(c) <= Escaped(d)
    ensures c == d
  {
    EscapedShape(c);
    EscapedShape(d);
    hide Escaped, HexDigit;
    assert Escaped(c)[0] == Escaped(d)[0];
    if Escaped(c)[0] == '\\' {
      assert Escaped(c)[1] == Escaped(d)[1];
      if ByNumber(c) {
        assert Escaped(c)[4] == Escaped(d)[4] && Escaped(c)[5] == Escaped(d)[5];
        HexDigitsDiffer(c as int / 16, d as int / 16);
        HexDigitsDiffer(c as int % 16, d as int % 16);
      } else {
        NamesDiffer(c, d);
      }
    }
  }

  lemma {:induction false} EndsDiffer(s: string, t: string)
    requires EscapedText(s) + "\"" <= EscapedText(t) + "\""
    ensures s == t
  {
    hide Escaped;
    var a, b := EscapedText(s) + "\"", EscapedText(t) + "\"";
    assert a[0] == b[0];
    if s == "" || t == "" {
      if s != "" {
        EscapedShape(s[0]);
      }
      if t != "" {
        EscapedShape(t[0]);
      }
    } else {
      var c, d := Escaped(s[0]), Escaped(t[0]);
      var x, y := EscapedText(s[1..]) + "\"", EscapedText(t[1..]) + "\"";
      assert a == c + x && b == d + y;
      FirstEscapes(c, x, d, y);
      if c <= d {
        EscapesDiffer(s[0], t[0]);
      } else {
        EscapesDiffer(t[0], s[0]);
      }
      assert x == a[|c|..] && y == b[|d|..];
      EndsDiffer(s[1..], t[1..]);
      assert s == [s[0]] + s[1..] && t == [t[0]] + t[1..];
    }
  }

  /** Of two beginnings of one text, one begins the other. */
  lemma FirstEscapes(c: string, x: string, d: string, y: string)
    requires c + x <= d + y
    ensures c <= d || d <= c
  {
    var n := if |c| <= |d| then |c| else |d|;
    assert forall i | 0 <= i < n :: c[i] == (c + x)[i] == (d + y)[i] == d[i];
  }

  /** With this quoting, `SourceJson` needs nothing but numbers written as the grammar says. */
  lemma QuotedIsLexical(f: Format)
    requires f.quote == Quoted
    requires forall x :: |f.Show(x)| >= 1 && f.Show(x)[0] in "-0123456789"
    requires forall x :: forall i | 0 <= i < |f.Show(x)| :: f.Show(x)[i] in NUMERIC
    ensures f.Lexical()
  {
    hide EscapedText;
    forall s, t | f.Quote(s) <= f.Quote(t) ensures s == t {
      var a, b := EscapedText(s) + "\"", EscapedText(t) + "\"";
      assert Quoted(s)[1..] == a && Quoted(t)[1..] == b;
      EndsDiffer(s, t);
    }
  }
}
