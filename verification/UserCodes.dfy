/** The codes people type to approve a device (web_portal_device.go). */
module UserCodes {
  import opened Model

  const ALPHABET: string := "ABCDEFGHJKLMNPQRSTUVWXYZ23456789"
  const CODE_LENGTH: nat := 8

  type Byte = b: nat | b < 256

  predicate IsSeparator(c: char) {
    c == ' ' || c == '-' || c == '\t'
  }

  function Upper(c: char): char {
    if 'a' <= c <= 'z' then c - 'a' + 'A' else c
  }

  function Normal(s: string): string {
    if s == "" then ""
    else
      var front, c := Normal(s[..|s| - 1]), s[|s| - 1];
      if IsSeparator(c) then front else front + [Upper(c)]
  }

  method NormalizeUserCode(s: string) returns (out: string)
    ensures out == Normal(s)
  {
    out := "";
    var i := 0;
    while i < |s|
      invariant 0 <= i <= |s|
      invariant out == Normal(s[..i])
    {
      assert s[..i + 1][..i] == s[..i];
      var c := s[i];
      if !(c == ' ' || c == '-' || c == '\t') {
        if 'a' <= c <= 'z' { c := c - 'a' + 'A'; }
        out := out + [c];
      }
      i := i + 1;
    }
    assert s[..i] == s;
  }

  // ---- what may be typed for a code ----

  // t is the code with separators put in and letters lower-cased anywhere.
  ghost predicate TypedAs(code: string, t: string) {
    if t == "" then code == ""
    else
      var front, c := t[..|t| - 1], t[|t| - 1];
      if c in " -\t" then TypedAs(code, front)
      else code != "" && (c == code[|code| - 1] || c == Lower(code[|code| - 1])) && TypedAs(code[..|code| - 1], front)
  }

  // No separators and no lower-case letters.
  ghost predicate IsNormal(code: string) {
    forall i | 0 <= i < |code| :: code[i] !in " -\t" && !('a' <= code[i] <= 'z')
  }

  lemma {:induction false} NormalIsNormal(s: string)
    ensures IsNormal(Normal(s)) && Normal(Normal(s)) == Normal(s)
    decreases |s|
  {
    if s != "" {
      var front, c := s[..|s| - 1], s[|s| - 1];
      NormalIsNormal(front);
      if !IsSeparator(c) { assert (Normal(front) + [Upper(c)])[..|Normal(front)|] == Normal(front); }
    }
  }

  /**
   Exactly the texts that differ from a code by spaces, tabs, hyphens and the
   case of letters have it as their normal form.
   */
  lemma {:induction false} NormalFormIsTheCode(code: string, t: string)
    requires IsNormal(code)
    ensures Normal(t) == code <==> TypedAs(code, t)
    decreases |t|
  {
    if t != "" {
      var front, c := t[..|t| - 1], t[|t| - 1];
      if c in " -\t" {
        NormalFormIsTheCode(code, front);
      } else if code != "" {
        var head, last := code[..|code| - 1], code[|code| - 1];
        NormalFormIsTheCode(head, front);
        assert code == head + [last];
        assert Normal(t) == Normal(front) + [Upper(c)];
        assert Upper(c) == last <==> c == last || c == Lower(last);
        assert (Normal(front) + [Upper(c)])[..|Normal(front)|] == Normal(front);
      }
    }
  }

  // ---- generated codes ----

  function LetterOf(b: Byte): char {
    ALPHABET[b % 32]
  }

  function LettersOf(bytes: seq<Byte>): (code: string)
    ensures |code| == |bytes| && forall i | 0 <= i < |bytes| :: code[i] == LetterOf(bytes[i])
  {
    seq(|bytes|, i requires 0 <= i < |bytes| => LetterOf(bytes[i]))
  }

  function Hyphenated(code: string): string {
    if |code| < 4 then code else code[..4] + "-" + code[4..]
  }

  lemma {:induction false} HyphenatedNext(code: string, c: char)
    ensures Hyphenated(code + [c]) == Hyphenated(code) + [c] + if |code| == 3 then "-" else ""
  {
    if |code| >= 4 {
      assert (code + [c])[..4] == code[..4] && (code + [c])[4..] == code[4..] + [c];
    } else if |code| == 3 {
      assert (code + [c])[..4] == code + [c] && (code + [c])[4..] == "";
    }
  }

  lemma NoHyphen()
    ensures Hyphenated("") == ""
  {
  }

  method GenerateUserCode(buf: seq<Byte>) returns (out: string)
    requires |buf| == CODE_LENGTH
    ensures out == Hyphenated(LettersOf(buf))
    ensures |out| == 9 && out[4] == '-'
    ensures forall i | 0 <= i < 8 ::
      out[if i < 4 then i else i + 1] == "ABCDEFGHJKLMNPQRSTUVWXYZ23456789"[buf[i] % 32]
  {
    hide Hyphenated;
    out := "";
    var i := 0;
    assert LettersOf(buf[..0]) == "" && Hyphenated("") == "" by { NoHyphen(); }
    while i < |buf|
      invariant 0 <= i <= |buf|
      invariant out == Hyphenated(LettersOf(buf[..i]))
    {
      HyphenatedNext(LettersOf(buf[..i]), LetterOf(buf[i]));
      assert LettersOf(buf[..i + 1]) == LettersOf(buf[..i]) + [LetterOf(buf[i])];
      out := out + [ALPHABET[buf[i] % |ALPHABET|]];
      if i == 3 { out := out + "-"; }
      i := i + 1;
    }
    assert buf[..i] == buf;
    ShownAs(LettersOf(buf));
  }

  lemma ShownAs(code: string)
    requires |code| == 8
    ensures var out := Hyphenated(code);
      |out| == 9 && out[4] == '-' && forall i | 0 <= i < 8 :: out[if i < 4 then i else i + 1] == code[i]
  {
  }

  // The alphabet, letter by letter: where each one stands.
  function PlaceOf(c: char): int {
    if 'A' <= c <= 'H' then c as int - 'A' as int
    else if 'J' <= c <= 'N' then c as int - 'J' as int + 8
    else if 'P' <= c <= 'Z' then c as int - 'P' as int + 13
    else if '2' <= c <= '9' then c as int - '2' as int + 24
    else -1
  }

  lemma {:induction false} PlaceOfLetter(k: nat)
    requires k < 32
    ensures |ALPHABET| == 32 && PlaceOf(ALPHABET[k]) == k
    ensures !IsSeparator(ALPHABET[k]) && !('a' <= ALPHABET[k] <= 'z')
  {
  }

  ghost predicate IsCode(code: string) {
    forall i | 0 <= i < |code| :: code[i] in ALPHABET
  }

  lemma {:induction false} CodeIsNormal(code: string)
    requires IsCode(code)
    ensures IsNormal(code)
  {
    forall i | 0 <= i < |code| ensures !IsSeparator(code[i]) && !('a' <= code[i] <= 'z') {
      var k :| 0 <= k < |ALPHABET| && ALPHABET[k] == code[i];
      PlaceOfLetter(k);
    }
  }

  lemma {:induction false} NormalOfNormal(code: string)
    requires IsNormal(code)
    ensures Normal(code) == code
    decreases |code|
  {
    if code != "" {
      NormalOfNormal(code[..|code| - 1]);
      assert code == code[..|code| - 1] + [code[|code| - 1]];
    }
  }

  lemma {:induction false} NormalOfParts(a: string, b: string)
    ensures Normal(a + b) == Normal(a) + Normal(b)
    decreases |b|
  {
    if b == "" {
      assert a + b == a;
    } else {
      assert (a + b)[..|a + b| - 1] == a + b[..|b| - 1];
      NormalOfParts(a, b[..|b| - 1]);
    }
  }

  /** The code shown, hyphen and all, normalises to the letters generated. */
  lemma {:induction false} GeneratedNormalises(bytes: seq<Byte>)
    ensures Normal(Hyphenated(LettersOf(bytes))) == LettersOf(bytes)
  {
    var code := LettersOf(bytes);
    forall i | 0 <= i < |code| ensures code[i] in ALPHABET { PlaceOfLetter(bytes[i] % 32); }
    CodeIsNormal(code);
    NormalOfNormal(code);
    if |code| >= 4 {
      NormalOfParts(code[..4] + "-", code[4..]);
      NormalOfParts(code[..4], "-");
      assert Normal("-") == "" by { assert "-"[..0] == ""; }
      NormalOfParts(code[..4], code[4..]);
      assert code[..4] + code[4..] == code;
    }
  }

  // ---- how many byte strings generate a code ----

  // The bytes that give letter c.
  function BytesFor(c: char): set<Byte> {
    set b: Byte | b < 256 && LetterOf(b) == c
  }

  // The byte strings that give the code.
  function SourcesOf(code: string): set<seq<Byte>> {
    if code == "" then {[]}
    else Product(BytesFor(code[0]), SourcesOf(code[1..]))
  }

  function Product(heads: set<Byte>, tails: set<seq<Byte>>): set<seq<Byte>> {
    set b, t | b in heads && t in tails :: [b] + t
  }

  lemma {:induction false} ProductHas(heads: set<Byte>, tails: set<seq<Byte>>)
    ensures forall x: seq<Byte> :: x in Product(heads, tails) <==> x != [] && x[0] in heads && x[1..] in tails
  {
    forall x: seq<Byte>
      ensures x in Product(heads, tails) <==> x != [] && x[0] in heads && x[1..] in tails
    {
      if x != [] && x[0] in heads && x[1..] in tails { assert x == [x[0]] + x[1..]; }
    }
  }

  lemma {:induction false} SourcesGenerate(code: string, bytes: seq<Byte>)
    ensures bytes in SourcesOf(code) <==> LettersOf(bytes) == code
    decreases |code|
  {
    if code != "" {
      hide Product;
      ProductHas(BytesFor(code[0]), SourcesOf(code[1..]));
      if bytes != [] {
        SourcesGenerate(code[1..], bytes[1..]);
        LettersCons(bytes, code);
      }
    }
  }

  lemma {:induction false} LettersCons(bytes: seq<Byte>, code: string)
    requires bytes != [] && code != ""
    ensures LettersOf(bytes) == code <==> LetterOf(bytes[0]) == code[0] && LettersOf(bytes[1..]) == code[1..]
  {
    assert LettersOf(bytes) == [LetterOf(bytes[0])] + LettersOf(bytes[1..]);
    assert code == [code[0]] + code[1..];
  }

  lemma {:induction false} ProductSplits(heads: set<Byte>, b: Byte, tails: set<seq<Byte>>)
    requires b in heads
    ensures Product(heads, tails) == Product(heads - {b}, tails) + Product({b}, tails)
    ensures Product(heads - {b}, tails) !! Product({b}, tails)
  {
    ProductHas(heads, tails);
    ProductHas(heads - {b}, tails);
    ProductHas({b}, tails);
    hide Product;
  }

  function Times(n: nat, m: nat): nat {
    if n == 0 then 0 else Times(n - 1, m) + m
  }

  lemma {:induction false} ProductSize(heads: set<Byte>, tails: set<seq<Byte>>)
    ensures |Product(heads, tails)| == Times(|heads|, |tails|)
    decreases |heads|
  {
    if heads == {} {
      NoHeads(tails);
    } else {
      hide Product;
      var b :| b in heads;
      var rest := heads - {b};
      ProductSize(rest, tails);
      OneHeadSize(b, tails);
      ProductSplits(heads, b, tails);
      var x, y := Product(rest, tails), Product({b}, tails);
      assert |x + y| == |x| + |y|;
      assert |heads| == |rest| + 1;
    }
  }

  lemma NoHeads(tails: set<seq<Byte>>)
    ensures Product({}, tails) == {}
  {
  }

  lemma ConsIs(x: seq<Byte>, b: Byte, t: seq<Byte>)
    ensures x == [b] + t <==> x != [] && x[0] == b && x[1..] == t
  {
    if x != [] { assert x == [x[0]] + x[1..]; }
  }

  lemma {:induction false} OneHeadSplits(b: Byte, tails: set<seq<Byte>>, t: seq<Byte>)
    requires t in tails
    ensures Product({b}, tails) == Product({b}, tails - {t}) + {[b] + t} && [b] + t !in Product({b}, tails - {t})
  {
    hide Product;
    ProductHas({b}, tails);
    ProductHas({b}, tails - {t});
    forall x: seq<Byte> ensures x in Product({b}, tails) <==> x in Product({b}, tails - {t}) || x == [b] + t {
      ConsIs(x, b, t);
    }
    ConsIs([b] + t, b, t);
  }

  lemma {:induction false} OneHeadSize(b: Byte, tails: set<seq<Byte>>)
    ensures |Product({b}, tails)| == |tails|
    decreases |tails|
  {
    if tails == {} {
      assert Product({b}, tails) == {};
    } else {
      hide Product;
      var t :| t in tails;
      OneHeadSize(b, tails - {t});
      OneHeadSplits(b, tails, t);
    }
  }

  // The first n bytes with remainder k.
  function Alike(k: nat, n: nat): set<Byte>
    requires k < 32 && n <= 8
  {
    if n == 0 then {} else Alike(k, n - 1) + {k + 32 * (n - 1)}
  }

  lemma OneMoreRow(b: nat, k: nat, n: nat)
    requires k < 32 && n > 0
    ensures b == k + 32 * (n - 1) <==> b % 32 == k && b / 32 == n - 1
  {
    assert b == 32 * (b / 32) + b % 32;
  }

  lemma {:induction false} AlikeHas(k: nat, n: nat)
    requires k < 32 && n <= 8
    ensures |Alike(k, n)| == n
    ensures forall b: Byte :: b in Alike(k, n) <==> b % 32 == k && b / 32 < n
    decreases n
  {
    if n > 0 {
      AlikeHas(k, n - 1);
      forall b: Byte ensures b == k + 32 * (n - 1) <==> b % 32 == k && b / 32 == n - 1 { OneMoreRow(b, k, n); }
    } else {
      assert forall b: Byte :: b / 32 >= 0;
    }
  }

  // Every letter has 256 / 32 bytes.
  lemma {:induction false} EightBytesEach(k: nat)
    requires k < 32
    ensures |BytesFor(ALPHABET[k])| == 8
  {
    AlikeHas(k, 8);
    forall b: Byte ensures b in Alike(k, 8) <==> LetterOf(b) == ALPHABET[k] {
      PlaceOfLetter(b % 32);
      PlaceOfLetter(k);
    }
    assert BytesFor(ALPHABET[k]) == Alike(k, 8);
  }

  function Power8(n: nat): nat {
    if n == 0 then 1 else 8 * Power8(n - 1)
  }

  lemma LetterHasEightBytes(c: char)
    requires c in ALPHABET
    ensures |BytesFor(c)| == 8
  {
    hide BytesFor;
    var k :| 0 <= k < |ALPHABET| && ALPHABET[k] == c;
    EightBytesEach(k);
  }

  lemma CodeTail(code: string)
    requires IsCode(code) && code != ""
    ensures code[0] in ALPHABET && IsCode(code[1..])
  {
  }

  lemma SourcesMultiply(code: string)
    requires code != "" && code[0] in ALPHABET
    ensures |SourcesOf(code)| == 8 * |SourcesOf(code[1..])|
  {
    hide Product, BytesFor, Times;
    LetterHasEightBytes(code[0]);
    ProductSize(BytesFor(code[0]), SourcesOf(code[1..]));
    TimesMultiplies(8, |SourcesOf(code[1..])|);
  }

  lemma {:induction false} SourcesSize(code: string)
    requires IsCode(code)
    ensures |SourcesOf(code)| == Power8(|code|)
    decreases |code|
  {
    if code != "" {
      hide SourcesOf, IsCode;
      CodeTail(code);
      SourcesMultiply(code);
      SourcesSize(code[1..]);
    }
  }

  lemma {:induction false} TimesMultiplies(n: nat, m: nat)
    ensures Times(n, m) == n * m
    decreases n
  {
    if n > 0 {
      TimesMultiplies(n - 1, m);
      assert n * m == (n - 1) * m + m;
    }
  }

  /** Each 8-letter code is generated by exactly 2^24 byte strings: codes are uniform. */
  lemma {:induction false} CodesAreUniform(code: string)
    requires IsCode(code) && |code| == CODE_LENGTH
    ensures |SourcesOf(code)| == 16_777_216 && forall bytes :: bytes in SourcesOf(code) <==> LettersOf(bytes) == code
  {
    SourcesSize(code);
    assert Power8(8) == 16_777_216 by {
      assert Power8(2) == 64 && Power8(4) == 64 * Power8(2) && Power8(6) == 64 * Power8(4);
    }
    forall bytes ensures bytes in SourcesOf(code) <==> LettersOf(bytes) == code { SourcesGenerate(code, bytes); }
  }
}
