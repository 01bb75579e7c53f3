/**
 Plain text: the separators, the word splitting and the joining that the
 server uses for scope lists and region lists, and the facts about them that
 the rest of the project needs.
 */
module Text {

  // The code points unicode.IsSpace accepts.
  predicate IsSpace(c: char) {
    || c in {'\t', '\n', '\r', ' ', '\U{000B}', '\U{000C}', '\U{0085}', '\U{00A0}', '\U{1680}'}
    || c in {'\U{2028}', '\U{2029}', '\U{202F}', '\U{205F}', '\U{3000}'}
    || '\U{2000}' <= c <= '\U{200A}'
  }

  predicate IsSpaceOrComma(c: char) {
    c == ',' || IsSpace(c)
  }

  // The same code points by number.
  lemma SpacesByNumber(c: char)
    ensures IsSpace(c) <==>
      c as int in {9, 10, 11, 12, 13, 32, 0x85, 0xA0, 0x1680, 0x2028, 0x2029, 0x202F, 0x205F, 0x3000}
      || 0x2000 <= c as int <= 0x200A
  {
  }

  // A nonempty string without separators.
  ghost predicate IsWord(w: string, sep: char -> bool) {
    w != "" && forall i | 0 <= i < |w| :: !sep(w[i])
  }

  ghost predicate AreWords(ws: seq<string>, sep: char -> bool) {
    forall i | 0 <= i < |ws| :: IsWord(ws[i], sep)
  }

  // Length of the longest prefix of s without a separator.
  function WordLength(s: string, sep: char -> bool): (n: nat)
    ensures n <= |s|
    ensures forall i | 0 <= i < n :: !sep(s[i])
    ensures n < |s| ==> sep(s[n])
  {
    if s == "" || sep(s[0]) then 0 else 1 + WordLength(s[1..], sep)
  }

  // strings.FieldsFunc: the maximal separator-free runs of s, in order.
  function Fields(s: string, sep: char -> bool): (ws: seq<string>)
    decreases |s|
  {
    if s == "" then []
    else if sep(s[0]) then Fields(s[1..], sep)
    else
      var n := WordLength(s, sep);
      [s[..n]] + Fields(s[n..], sep)
  }

  // strings.Join
  function Join(ws: seq<string>, glue: char): string {
    if ws == [] then ""
    else if |ws| == 1 then ws[0]
    else ws[0] + [glue] + Join(ws[1..], glue)
  }

  lemma {:induction false} FieldsAreWords(s: string, sep: char -> bool)
    ensures AreWords(Fields(s, sep), sep)
    decreases |s|
  {
    if s == "" {
    } else if sep(s[0]) {
      FieldsAreWords(s[1..], sep);
    } else {
      FieldsAreWords(s[WordLength(s, sep)..], sep);
    }
  }

  lemma {:induction false} WordLengthOf(w: string, rest: string, sep: char -> bool)
    requires forall i | 0 <= i < |w| :: !sep(w[i])
    requires rest == "" || sep(rest[0])
    ensures WordLength(w + rest, sep) == |w|
  {
    if w == "" {
      assert w + rest == rest;
    } else {
      assert (w + rest)[1..] == w[1..] + rest;
      WordLengthOf(w[1..], rest, sep);
    }
  }

  lemma {:induction false} FirstField(w: string, rest: string, sep: char -> bool)
    requires IsWord(w, sep) && (rest == "" || sep(rest[0]))
    ensures Fields(w + rest, sep) == [w] + Fields(rest, sep)
  {
    WordLengthOf(w, rest, sep);
    assert (w + rest)[|w|..] == rest && (w + rest)[..|w|] == w;
  }

  lemma {:induction false} FieldsCutOnce(a: string, c: char, b: string, sep: char -> bool)
    requires sep(c)
    ensures Fields(a + [c] + b, sep) == Fields(a, sep) + Fields(b, sep)
    decreases |a|
  {
    if a == "" {
      assert (a + [c] + b)[1..] == b;
    } else if sep(a[0]) {
      assert (a + [c] + b)[1..] == a[1..] + [c] + b;
      FieldsCutOnce(a[1..], c, b, sep);
    } else {
      var n := WordLength(a, sep);
      var w, rest := a[..n], a[n..];
      FieldsCutOnce(rest, c, b, sep);
      assert a + [c] + b == w + (rest + [c] + b);
      assert Fields(a, sep) == [w] + Fields(rest, sep);
      FirstField(w, rest + [c] + b, sep);
      hide Fields;
    }
  }

  /**
   Splitting is fixed by three laws: nothing has no words, a word is its own
   only one, and a separator cuts the text in two.
   */
  lemma {:induction false} FieldsCut(a: string, c: char, b: string, sep: char -> bool)
    requires sep(c)
    ensures Fields("", sep) == [] && (IsWord(a, sep) ==> Fields(a, sep) == [a])
    ensures Fields(a + [c] + b, sep) == Fields(a, sep) + Fields(b, sep)
  {
    FieldsCutOnce(a, c, b, sep);
    if IsWord(a, sep) {
      FirstField(a, "", sep);
      assert a + "" == a;
    }
  }

  lemma {:induction false} FieldsOfJoinedWords(ws: seq<string>, glue: char, sep: char -> bool)
    requires AreWords(ws, sep) && sep(glue)
    ensures Fields(Join(ws, glue), sep) == ws
  {
    if ws == [] {
    } else {
      var rest := if |ws| == 1 then "" else [glue] + Join(ws[1..], glue);
      assert IsWord(ws[0], sep);
      assert Join(ws, glue) == ws[0] + rest;
      WordLengthOf(ws[0], rest, sep);
      assert (ws[0] + rest)[|ws[0]|..] == rest;
      assert (ws[0] + rest)[..|ws[0]|] == ws[0];
      FieldsOfJoinedWords(ws[1..], glue, sep);
      if |ws| > 1 {
        assert rest[1..] == Join(ws[1..], glue);
      }
      assert ws == [ws[0]] + ws[1..];
    }
  }

  // A list survives being joined and split again exactly when all its
  // elements are words.
  lemma {:induction false} JoinThenFields(ws: seq<string>, glue: char, sep: char -> bool)
    requires sep(glue)
    ensures Fields(Join(ws, glue), sep) == ws <==> AreWords(ws, sep)
  {
    FieldsAreWords(Join(ws, glue), sep);
    if AreWords(ws, sep) {
      FieldsOfJoinedWords(ws, glue, sep);
    }
  }

  // ---- strings in order (sort.Strings) ----

  predicate Below(a: string, b: string) {
    a == "" || (b != "" && (a[0] < b[0] || (a[0] == b[0] && Below(a[1..], b[1..]))))
  }

  // Up to k the two agree; there a ends or has the smaller character.
  ghost predicate FirstDifference(a: string, b: string, k: nat) {
    && k <= |a| && k <= |b| && a[..k] == b[..k]
    && (k == |a| || (k < |b| && a[k] < b[k]))
  }

  // Below is the order of a dictionary.
  lemma {:induction false} BelowIsLexicographic(a: string, b: string)
    ensures Below(a, b) <==> exists k: nat :: FirstDifference(a, b, k)
    decreases |a|
  {
    if a == "" {
      assert FirstDifference(a, b, 0);
    } else if b != "" {
      assert a[0] < b[0] ==> FirstDifference(a, b, 0);
      if a[0] == b[0] {
        BelowIsLexicographic(a[1..], b[1..]);
        if Below(a, b) {
          var k: nat :| FirstDifference(a[1..], b[1..], k);
          assert a[..k + 1] == [a[0]] + a[1..][..k] && b[..k + 1] == [b[0]] + b[1..][..k];
          assert FirstDifference(a, b, k + 1);
        }
      }
      if k: nat :| FirstDifference(a, b, k) && k > 0 {
        assert a[..k][0] == b[..k][0] && a[1..][..k - 1] == a[..k][1..] && b[1..][..k - 1] == b[..k][1..];
        assert FirstDifference(a[1..], b[1..], k - 1);
      }
    }
  }

  ghost predicate Sorted(xs: seq<string>) {
    forall i, j | 0 <= i < j < |xs| :: Below(xs[i], xs[j])
  }

  lemma {:induction false} BelowIsTotal(a: string, b: string)
    ensures Below(a, b) || Below(b, a)
    decreases |a|
  {
    if a != "" && b != "" { BelowIsTotal(a[1..], b[1..]); }
  }

  lemma {:induction false} BelowIsTransitive(a: string, b: string, c: string)
    requires Below(a, b) && Below(b, c)
    ensures Below(a, c)
    decreases |a|
  {
    if a != "" && a[0] == b[0] && b[0] == c[0] { BelowIsTransitive(a[1..], b[1..], c[1..]); }
  }

  function Insert(x: string, xs: seq<string>): (ys: seq<string>)
    ensures multiset(ys) == multiset(xs) + multiset{x}
  {
    if xs == [] then [x]
    else if Below(x, xs[0]) then [x] + xs
    else
      assert xs == [xs[0]] + xs[1..];
      [xs[0]] + Insert(x, xs[1..])
  }

  function Sort(xs: seq<string>): (ys: seq<string>)
    ensures multiset(ys) == multiset(xs)
  {
    if xs == [] then []
    else
      assert xs == [xs[0]] + xs[1..];
      Insert(xs[0], Sort(xs[1..]))
  }

  lemma {:induction false} InsertKeepsSorted(x: string, xs: seq<string>)
    requires Sorted(xs)
    ensures Sorted(Insert(x, xs))
    decreases |xs|
  {
    if xs != [] {
      if Below(x, xs[0]) {
        forall j | 0 < j <= |xs| ensures Below(x, ([x] + xs)[j]) {
          if j > 1 { BelowIsTransitive(x, xs[0], xs[j - 1]); }
        }
      } else {
        BelowIsTotal(x, xs[0]);
        var tail := Insert(x, xs[1..]);
        InsertKeepsSorted(x, xs[1..]);
        forall y | y in tail ensures Below(xs[0], y) {
          assert y in multiset(tail);
          if y != x {
            assert y in multiset(xs[1..]);
            var i :| 0 <= i < |xs| - 1 && xs[1..][i] == y;
            assert Below(xs[0], xs[i + 1]);
          }
        }
      }
    }
  }

  lemma {:induction false} SortSorts(xs: seq<string>)
    ensures Sorted(Sort(xs))
    decreases |xs|
  {
    if xs != [] {
      SortSorts(xs[1..]);
      InsertKeepsSorted(xs[0], Sort(xs[1..]));
    }
  }
}
