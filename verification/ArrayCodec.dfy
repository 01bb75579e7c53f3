/**
 The text form of a PostgreSQL TEXT[] column: the printer stringArray.Value
 and the parser parsePostgresTextArray.
 */
module ArrayCodec {
  import opened Text
  import opened Model

  // ---- the forms ----

  // Backslash and double quote are escaped inside a quoted element.
  function Escaped(s: string): string {
    if s == "" then ""
    else (if s[0] == '\\' || s[0] == '"' then ['\\', s[0]] else [s[0]]) + Escaped(s[1..])
  }

  function Quoted(s: string): string {
    ['"'] + Escaped(s) + ['"']
  }

  // What the server may leave without quotes.
  ghost predicate Bare(s: string) {
    s != "" && '"' !in s && ',' !in s
  }

  // r is a way to write element s.
  ghost predicate Writes(s: string, r: string) {
    r == Quoted(s) || (Bare(s) && r == s)
  }

  ghost predicate WritesAll(xs: seq<string>, rs: seq<string>) {
    |xs| == |rs| && forall i | 0 <= i < |xs| :: Writes(xs[i], rs[i])
  }

  function Braced(rs: seq<string>): string {
    "{" + Join(rs, ',') + "}"
  }

  // ---- the parser, from any point inside the braces ----

  // cur is the element read so far, quoted whether the reader is in quotes.
  function Elements(inner: string, quoted: bool, cur: string): (r: seq<string>)
    ensures r != []
    decreases |inner|
  {
    if inner == "" then [cur]
    else
      var c, rest := inner[0], inner[1..];
      if quoted then
        if c == '\\' && rest != "" then Elements(rest[1..], true, cur + [rest[0]])
        else if c == '"' then Elements(rest, false, cur)
        else Elements(rest, true, cur + [c])
      else if c == '"' then Elements(rest, true, cur)
      else if c == ',' then [cur] + Elements(rest, false, "")
      else Elements(rest, false, cur + [c])
  }

  // strings.TrimSpace
  function Trim(s: string): string
    decreases |s|
  {
    if s != "" && IsSpace(s[0]) then Trim(s[1..])
    else if s != "" && IsSpace(s[|s| - 1]) then Trim(s[..|s| - 1])
    else s
  }

  // None is the error "invalid postgres array".
  function Parsed(text: string): Option<seq<string>> {
    var s := Trim(text);
    if |s| < 2 || s[0] != '{' || s[|s| - 1] != '}' then None
    else if |s| == 2 then Some([])
    else Some(Elements(s[1..|s| - 1], false, ""))
  }

  // ---- the code ----

  method WriteQuoted(start: string, s: string) returns (text: string)
    ensures text == start + Quoted(s)
  {
    text := start + ['"'];
    var j := 0;
    while j < |s|
      invariant 0 <= j <= |s|
      invariant text == start + ['"'] + Escaped(s[..j])
    {
      EscapedLast(s[..j + 1]);
      assert s[..j + 1][..j] == s[..j];
      if s[j] == '\\' || s[j] == '"' { text := text + ['\\']; }
      text := text + [s[j]];
      j := j + 1;
    }
    assert s[..j] == s;
    text := text + ['"'];
  }

  function QuotedAll(xs: seq<string>): (rs: seq<string>)
    ensures WritesAll(xs, rs)
  {
    seq(|xs|, i requires 0 <= i < |xs| => Quoted(xs[i]))
  }

  method Value(xs: seq<string>) returns (text: string)
    ensures text == Braced(QuotedAll(xs))
  {
    hide Quoted;
    ghost var rs := QuotedAll(xs);
    text := "{";
    var i := 0;
    while i < |xs|
      invariant 0 <= i <= |xs|
      invariant text == "{" + Join(rs[..i], ',')
    {
      JoinLast(rs[..i + 1], ',');
      assert rs[..i + 1][..i] == rs[..i];
      if i > 0 { text := text + ","; }
      text := WriteQuoted(text, xs[i]);
      i := i + 1;
    }
    assert rs[..i] == rs;
    text := text + "}";
  }

  method ParsePostgresTextArray(text: string) returns (r: Option<seq<string>>)
    ensures r == Parsed(text)
  {
    var s := Trim(text);
    if s == "{}" { return Some([]); }
    if |s| < 2 || s[0] != '{' || s[|s| - 1] != '}' { return None; }
    var inner := s[1..|s| - 1];
    if inner == "" { return Some([]); }
    var result: seq<string> := [];
    var cur, quoted, i := "", false, 0;
    assert inner[0..] == inner;
    while i < |inner|
      invariant 0 <= i <= |inner|
      invariant result + Elements(inner[i..], quoted, cur) == Elements(inner, false, "")
    {
      var c := inner[i];
      ghost var here := inner[i..];
      assert here[1..] == inner[i + 1..];
      if quoted {
        if c == '\\' && i + 1 < |inner| {
          i := i + 1;
          assert here[1..][1..] == inner[i + 1..];
          cur := cur + [inner[i]];
        } else if c == '"' {
          quoted := false;
        } else {
          cur := cur + [c];
        }
      } else if c == '"' {
        quoted := true;
      } else if c == ',' {
        result := result + [cur];
        cur := "";
      } else {
        cur := cur + [c];
      }
      i := i + 1;
    }
    assert inner[i..] == "";
    r := Some(result + [cur]);
  }

  // ---- facts about the forms ----

  lemma {:induction false} JoinLast(rs: seq<string>, glue: char)
    requires rs != []
    ensures var n := |rs| - 1;
      Join(rs, glue) == if n == 0 then rs[0] else Join(rs[..n], glue) + [glue] + rs[n]
    decreases |rs|
  {
    var n := |rs| - 1;
    if n > 1 {
      JoinLast(rs[1..], glue);
      assert rs[1..][..n - 1] == rs[..n][1..];
    } else if n == 1 {
      assert rs[..1] == [rs[0]] && rs[1..] == [rs[1]];
    }
  }

  lemma {:induction false} EscapedLast(s: string)
    requires s != ""
    ensures var c := s[|s| - 1];
      Escaped(s) == Escaped(s[..|s| - 1]) + if c == '\\' || c == '"' then ['\\', c] else [c]
    decreases |s|
  {
    if |s| > 1 {
      EscapedLast(s[1..]);
      assert s[1..][..|s| - 2] == s[..|s| - 1][1..];
    } else {
      assert s[..0] == "" && s[1..] == "";
    }
  }

  // Reading an escaped element inside quotes gives the element back.
  lemma {:induction false} ReadEscaped(s: string, rest: string, cur: string)
    ensures Elements(Escaped(s) + ['"'] + rest, true, cur) == Elements(rest, false, cur + s)
    decreases |s|
  {
    var text := Escaped(s) + ['"'] + rest;
    if s == "" {
      assert text == ['"'] + rest;
      assert cur + s == cur;
    } else {
      var tail := Escaped(s[1..]) + ['"'] + rest;
      ReadEscaped(s[1..], rest, cur + [s[0]]);
      assert cur + [s[0]] + s[1..] == cur + s;
      if s[0] == '\\' || s[0] == '"' {
        assert text == ['\\', s[0]] + tail;
        assert text[1..][1..] == tail;
      } else {
        assert text == [s[0]] + tail;
      }
    }
  }

  lemma {:induction false} ReadBare(s: string, rest: string, cur: string)
    requires '"' !in s && ',' !in s
    ensures Elements(s + rest, false, cur) == Elements(rest, false, cur + s)
    decreases |s|
  {
    if s == "" {
      assert s + rest == rest && cur + s == cur;
    } else {
      assert (s + rest)[1..] == s[1..] + rest;
      ReadBare(s[1..], rest, cur + [s[0]]);
      assert cur + [s[0]] + s[1..] == cur + s;
    }
  }

  lemma {:induction false} ReadElement(s: string, r: string, rest: string)
    requires Writes(s, r)
    ensures Elements(r + rest, false, "") == Elements(rest, false, s)
  {
    assert "" + s == s;
    if r == Quoted(s) {
      assert r + rest == ['"'] + (Escaped(s) + ['"'] + rest);
      ReadEscaped(s, rest, "");
    } else {
      ReadBare(s, rest, "");
    }
  }

  lemma {:induction false} ReadAll(xs: seq<string>, rs: seq<string>)
    requires WritesAll(xs, rs) && xs != []
    ensures Elements(Join(rs, ','), false, "") == xs
    decreases |xs|
  {
    assert Writes(xs[0], rs[0]);
    if |xs| == 1 {
      ReadElement(xs[0], rs[0], "");
      assert rs[0] + "" == rs[0];
    } else {
      var rest := [','] + Join(rs[1..], ',');
      assert Join(rs, ',') == rs[0] + rest;
      ReadElement(xs[0], rs[0], rest);
      assert rest[1..] == Join(rs[1..], ',');
      assert WritesAll(xs[1..], rs[1..]);
      ReadAll(xs[1..], rs[1..]);
      assert xs == [xs[0]] + xs[1..];
    }
  }

  lemma {:induction false} JoinedIsNotEmpty(xs: seq<string>, rs: seq<string>)
    requires WritesAll(xs, rs) && xs != []
    ensures Join(rs, ',') != ""
  {
    assert Writes(xs[0], rs[0]);
  }

  /**
   The parser inverts every rendering that quotes each element, or leaves it
   bare when it is nonempty and has no comma or double quote: the printer's
   own and the server's mixed one alike.
   */
  lemma {:induction false} ParseInvertsEveryRendering(xs: seq<string>, rs: seq<string>)
    requires WritesAll(xs, rs)
    ensures Parsed(Braced(rs)) == Some(xs)
  {
    var s := Braced(rs);
    assert Trim(s) == s;
    if xs == [] {
      assert s == "{}";
    } else {
      JoinedIsNotEmpty(xs, rs);
      assert s[1..|s| - 1] == Join(rs, ',');
      ReadAll(xs, rs);
    }
  }

  /** Printing and parsing: any list of strings comes back as it was. */
  method RoundTrip(xs: seq<string>) returns (ys: Option<seq<string>>)
    ensures ys == Some(xs)
  {
    var text := Value(xs);
    ParseInvertsEveryRendering(xs, QuotedAll(xs));
    ys := ParsePostgresTextArray(text);
  }

  // Bare is as far as it goes: an unquoted element that is empty or has a
  // comma or a double quote in it is read as something else.
  lemma {:induction false} BareIsNeeded(s: string)
    requires s != ""
    ensures Parsed(Braced([s])) == Some([s]) <==> Bare(s)
  {
    assert Trim(Braced([s])) == Braced([s]);
    assert Braced([s])[1..|s| + 1] == s;
    if Bare(s) {
      ReadElement(s, s, "");
      assert s + "" == s;
    } else {
      NotBareIsMisread(s, false, "");
      assert "" + s == s;
    }
  }

  // A separator or quote outside quotes never makes it into an element.
  lemma {:induction false} NotBareIsMisread(s: string, quoted: bool, cur: string)
    requires !quoted && ('"' in s || ',' in s)
    ensures Elements(s, quoted, cur) != [cur + s]
    decreases |s|
  {
    if s[0] != '"' && s[0] != ',' {
      NotBareIsMisread(s[1..], quoted, cur + [s[0]]);
      assert cur + [s[0]] + s[1..] == cur + s;
    } else if s[0] == '"' {
      NeverLonger(s[1..], true, cur);
    }
  }

  lemma {:induction false} NeverLonger(s: string, quoted: bool, cur: string)
    ensures forall e | e in Elements(s, quoted, cur) :: |e| <= |cur| + |s|
    decreases |s|
  {
    if s != "" {
      var c, rest := s[0], s[1..];
      if quoted && c == '\\' && rest != "" { NeverLonger(rest[1..], true, cur + [rest[0]]); }
      else if quoted && c == '"' { NeverLonger(rest, false, cur); }
      else if quoted { NeverLonger(rest, true, cur + [c]); }
      else if c == '"' { NeverLonger(rest, true, cur); }
      else if c == ',' { NeverLonger(rest, false, ""); }
      else { NeverLonger(rest, false, cur + [c]); }
    }
  }

  // ---- what the parser turns down, and what it makes of the rest ----

  ghost predicate Blank(s: string) {
    forall i | 0 <= i < |s| :: IsSpace(s[i])
  }

  // t is s without the blanks around it.
  ghost predicate Trims(s: string, a: string, t: string, b: string) {
    s == a + t + b && Blank(a) && Blank(b) && (t != "" ==> !IsSpace(t[0]) && !IsSpace(t[|t| - 1]))
  }

  lemma {:induction false} TrimTrims(s: string) returns (a: string, b: string)
    ensures Trims(s, a, Trim(s), b)
    decreases |s|
  {
    if s != "" && IsSpace(s[0]) {
      a, b := TrimTrims(s[1..]);
      assert s == [s[0]] + s[1..];
      assert [s[0]] + a + Trim(s) + b == [s[0]] + (a + Trim(s) + b);
      a := [s[0]] + a;
    } else if s != "" && IsSpace(s[|s| - 1]) {
      a, b := TrimTrims(s[..|s| - 1]);
      assert s == s[..|s| - 1] + [s[|s| - 1]];
      assert a + Trim(s) + (b + [s[|s| - 1]]) == (a + Trim(s) + b) + [s[|s| - 1]];
      b := b + [s[|s| - 1]];
    } else {
      a, b := "", "";
      assert "" + s + "" == s;
    }
  }

  lemma {:induction false} TrimsToTheSame(s: string, a: string, t: string, b: string)
    requires Trims(s, a, t, b)
    ensures Trim(s) == t
    decreases |s|
  {
    if a != "" {
      assert s[1..] == a[1..] + t + b && s[0] == a[0];
      TrimsToTheSame(s[1..], a[1..], t, b);
    } else if b != "" {
      var last := b[|b| - 1];
      assert s == "" + t + b && s[|s| - 1] == last && s[..|s| - 1] == a + t + b[..|b| - 1];
      if t != "" {
        TrimsToTheSame(s[..|s| - 1], a, t, b[..|b| - 1]);
      } else {
        assert s == b;
        BlankTrimsAway(b);
      }
    } else {
      assert s == t;
    }
  }

  lemma {:induction false} BlankTrimsAway(s: string)
    requires Blank(s)
    ensures Trim(s) == ""
    decreases |s|
  {
    if s != "" { BlankTrimsAway(s[1..]); }
  }

  // The text is `inner` in braces with blanks around them.
  ghost predicate Reads(text: string, a: string, inner: string, b: string) {
    text == a + "{" + inner + "}" + b && Blank(a) && Blank(b)
  }

  /**
   A text is turned down exactly if it is not something in braces with blanks
   around them; empty braces are the empty list, and otherwise what is between
   the braces is read from its start.
   */
  lemma {:induction false} ParsedExactly(text: string)
    ensures Parsed(text).Some? <==> exists a, inner, b :: Reads(text, a, inner, b)
    ensures forall a, inner, b | Reads(text, a, inner, b) ::
      Parsed(text) == Some(if inner == "" then [] else Elements(inner, false, ""))
  {
    forall a, inner, b | Reads(text, a, inner, b)
      ensures Parsed(text) == Some(if inner == "" then [] else Elements(inner, false, ""))
    {
      var s := "{" + inner + "}";
      assert a + s + b == text;
      TrimsToTheSame(text, a, s, b);
      assert s[1..|s| - 1] == inner;
    }
    if Parsed(text).Some? {
      var a, b := TrimTrims(text);
      var s := Trim(text);
      assert s == "{" + s[1..|s| - 1] + "}";
      assert Reads(text, a, s[1..|s| - 1], b);
    }
  }

  // Escaping goes character by character: a backslash before each backslash
  // and each double quote, and nothing else.
  lemma {:induction false} EscapedIsCharwise(a: string, b: string, c: char)
    ensures Escaped(a + b) == Escaped(a) + Escaped(b)
    ensures Escaped("") == "" && Escaped("\\") == "\\\\" && Escaped("\"") == "\\\""
    ensures c != '\\' && c != '"' ==> Escaped([c]) == [c]
    decreases |a|
  {
    if a == "" {
      assert a + b == b;
    } else {
      assert (a + b)[1..] == a[1..] + b;
      EscapedIsCharwise(a[1..], b, c);
    }
    assert Escaped("") == "";
  }

  // A quote that is not closed runs to the end, and a backslash at the very
  // end stands for itself.
  lemma {:induction false} UnclosedRunsOn(s: string, cur: string)
    ensures Elements(Escaped(s), true, cur) == [cur + s]
    ensures Elements(Escaped(s) + "\\", true, cur) == [cur + s + "\\"]
    decreases |s|
  {
    if s == "" {
      assert Escaped(s) + "\\" == "\\" && "\\"[1..] == "" && cur + s == cur;
    } else {
      var text := Escaped(s);
      UnclosedRunsOn(s[1..], cur + [s[0]]);
      assert cur + [s[0]] + s[1..] == cur + s;
      if s[0] == '\\' || s[0] == '"' {
        assert text == ['\\', s[0]] + Escaped(s[1..]) && text[1..][1..] == Escaped(s[1..]);
        assert (text + "\\")[1..][1..] == Escaped(s[1..]) + "\\";
      } else {
        assert text[1..] == Escaped(s[1..]) && (text + "\\")[1..] == Escaped(s[1..]) + "\\";
      }
    }
  }
}
