/**
 AWS console regions: the server's list, a role's own list, what a tile
 offers, and which request is accepted.
 */
module Regions {
  import opened Text
  import opened Model
  import opened ArrayCodec

  // ---- names and lists ----

  predicate IsRegionChar(c: char) {
    'a' <= c <= 'z' || '0' <= c <= '9' || c == '-'
  }

  // ^[a-z0-9-]{1,20}$
  predicate IsRegionName(r: string) {
    1 <= |r| <= 20 && forall i | 0 <= i < |r| :: IsRegionChar(r[i])
  }

  function SplitRegions(list: string): seq<string> {
    Fields(list, IsSpaceOrComma)
  }

  // The first occurrences, in order.
  function Dedup(rs: seq<string>): seq<string> {
    if rs == [] then []
    else
      var front, last := Dedup(rs[..|rs| - 1]), rs[|rs| - 1];
      if last in front then front else front + [last]
  }

  ghost predicate NoRepeats(rs: seq<string>) {
    forall i, j | 0 <= i < j < |rs| :: rs[i] != rs[j]
  }

  function WithDefault(rs: seq<string>, def: string): seq<string> {
    if def == "" || def in rs then rs else rs + [def]
  }

  datatype Config = Config(regions: seq<string>, def: string)

  // None is either of the two "not a valid AWS region name" errors.
  method ParseAwsRegions(list: string, def: string) returns (r: Option<Config>)
    ensures r == Accepted(list, def)
  {
    var words := SplitRegions(list);
    var regions: seq<string> := [];
    var i := 0;
    while i < |words|
      invariant 0 <= i <= |words|
      invariant regions == Dedup(words[..i])
      invariant forall j | 0 <= j < i :: IsRegionName(words[j])
    {
      if !IsRegionName(words[i]) { return None; }
      assert words[..i + 1][..i] == words[..i];
      if words[i] !in regions { regions := regions + [words[i]]; }
      i := i + 1;
    }
    assert words[..i] == words;
    var d := Trim(def);
    if d != "" {
      if !IsRegionName(d) { return None; }
      if d !in regions { regions := regions + [d]; }
    }
    r := Some(Config(regions, d));
  }

  function Accepted(list: string, def: string): Option<Config> {
    var words, d := SplitRegions(list), Trim(def);
    if (forall i | 0 <= i < |words| :: IsRegionName(words[i])) && (d == "" || IsRegionName(d))
    then Some(Config(WithDefault(Dedup(words), d), d)) else None
  }

  // What an accepted configuration is like.
  ghost predicate WellFormed(c: Config) {
    && NoRepeats(c.regions) && (forall i | 0 <= i < |c.regions| :: IsRegionName(c.regions[i]))
    && (c.def == "" || c.def in c.regions)
  }

  lemma {:induction false} DedupIsASet(rs: seq<string>)
    ensures NoRepeats(Dedup(rs)) && forall r :: r in Dedup(rs) <==> r in rs
    decreases |rs|
  {
    if rs != [] {
      DedupIsASet(rs[..|rs| - 1]);
      assert rs == rs[..|rs| - 1] + [rs[|rs| - 1]];
    }
  }

  lemma {:induction false} DedupIsIdle(rs: seq<string>)
    requires NoRepeats(rs)
    ensures Dedup(rs) == rs
    decreases |rs|
  {
    if rs != [] {
      DedupIsIdle(rs[..|rs| - 1]);
      assert rs == rs[..|rs| - 1] + [rs[|rs| - 1]];
    }
  }

  /** The regions are the listed ones and the default, once each; all are names. */
  lemma {:induction false} AcceptedIsWellFormed(list: string, def: string)
    requires Accepted(list, def).Some?
    ensures var c := Accepted(list, def).value;
      WellFormed(c) && forall r :: r in c.regions <==> r in SplitRegions(list) || (r == c.def && r != "")
  {
    DedupIsASet(SplitRegions(list));
    var c, words := Accepted(list, def).value, SplitRegions(list);
    forall i | 0 <= i < |c.regions| ensures IsRegionName(c.regions[i]) {
      if c.regions[i] in words {
        var j :| 0 <= j < |words| && words[j] == c.regions[i];
      }
    }
  }

  // A name as AWS writes them, character by character.
  ghost predicate Named(r: string) {
    1 <= |r| <= 20 && forall c | c in r :: c in "abcdefghijklmnopqrstuvwxyz0123456789-"
  }

  lemma NamedIsRegionName(r: string)
    ensures Named(r) <==> IsRegionName(r)
  {
    assert forall c :: c in "abcdefghijklmnopqrstuvwxyz0123456789-" <==> IsRegionChar(c) by {
      forall c: char { CharacterOfAName(c); }
    }
    hide IsRegionChar;
    if Named(r) { forall i | 0 <= i < |r| ensures IsRegionChar(r[i]) { assert r[i] in r; } }
  }

  lemma CharacterOfAName(c: char)
    ensures c in "abcdefghijklmnopqrstuvwxyz0123456789-" <==> IsRegionChar(c)
  {
  }

  // Place p of rs is the first with its entry.
  ghost predicate FirstAt(rs: seq<string>, p: nat) {
    p < |rs| && rs[p] !in rs[..p]
  }

  // x is mentioned before y is.
  ghost predicate FirstMentioned(rs: seq<string>, x: string, y: string) {
    exists p: nat, q: nat :: p < q && FirstAt(rs, p) && FirstAt(rs, q) && rs[p] == x && rs[q] == y
  }

  lemma {:induction false} DedupInOrder(rs: seq<string>, i: nat, j: nat) returns (p: nat, q: nat)
    requires i < j < |Dedup(rs)|
    ensures p < q && FirstAt(rs, p) && FirstAt(rs, q) && rs[p] == Dedup(rs)[i] && rs[q] == Dedup(rs)[j]
    decreases |rs|
  {
    var front := rs[..|rs| - 1];
    if j < |Dedup(front)| {
      p, q := DedupInOrder(front, i, j);
      assert front[..p] == rs[..p] && front[..q] == rs[..q];
    } else {
      DedupIsASet(front);
      q := |rs| - 1;
      p := FirstPlace(front, Dedup(front)[i]);
      assert front[..p] == rs[..p];
    }
  }

  lemma {:induction false} FirstPlace(rs: seq<string>, r: string) returns (p: nat)
    requires r in rs
    ensures FirstAt(rs, p) && rs[p] == r
    decreases |rs|
  {
    var front := rs[..|rs| - 1];
    if r in front {
      p := FirstPlace(front, r);
      assert front[..p] == rs[..p];
    } else {
      p := |rs| - 1;
    }
  }

  /**
   A configuration is turned down exactly if something listed, or the default,
   is not a name. Otherwise it has the listed regions in the order in which
   they are first mentioned, and then the default unless it is one of them;
   the default is what is left of it without the blanks around it.
   */
  lemma {:induction false} AcceptedExactly(list: string, def: string)
    ensures var words, d := SplitRegions(list), Trim(def);
      Accepted(list, def).None? <==> (exists w :: w in words && !Named(w)) || (d != "" && !Named(d))
    ensures Accepted(list, def).Some? ==>
      var words, c := SplitRegions(list), Accepted(list, def).value;
      && c.def == Trim(def)
      && c.regions == Dedup(words) + (if c.def == "" || c.def in words then [] else [c.def])
      && (forall i, j | 0 <= i < j < |Dedup(words)| :: FirstMentioned(words, c.regions[i], c.regions[j]))
  {
    var words, d := SplitRegions(list), Trim(def);
    NamedIsRegionName(d);
    forall w ensures Named(w) <==> IsRegionName(w) { NamedIsRegionName(w); }
    DedupIsASet(words);
    hide SplitRegions, Trim, IsRegionName, Named, Dedup;
    assert forall i | 0 <= i < |words| :: words[i] in words;
    if Accepted(list, def).Some? {
      var c := Accepted(list, def).value;
      forall i, j | 0 <= i < j < |Dedup(words)|
        ensures FirstMentioned(words, c.regions[i], c.regions[j])
      {
        var p, q := DedupInOrder(words, i, j);
      }
    }
  }

  lemma {:induction false} NamesAreWords(rs: seq<string>)
    requires forall i | 0 <= i < |rs| :: IsRegionName(rs[i])
    ensures AreWords(rs, IsSpaceOrComma)
  {
    forall i | 0 <= i < |rs| ensures IsWord(rs[i], IsSpaceOrComma) {
      assert forall k | 0 <= k < |rs[i]| :: IsRegionChar(rs[i][k]);
    }
  }

  lemma {:induction false} NameIsTrim(r: string)
    requires r == "" || IsRegionName(r)
    ensures Trim(r) == r
  {
    if r != "" { assert IsRegionChar(r[0]) && IsRegionChar(r[|r| - 1]); }
  }

  /** An accepted configuration, written out again, parses to itself. */
  lemma {:induction false} ParseIsAFixpoint(list: string, def: string)
    requires Accepted(list, def).Some?
    ensures var c := Accepted(list, def).value; Accepted(Join(c.regions, ','), c.def) == Some(c)
  {
    var c := Accepted(list, def).value;
    AcceptedIsWellFormed(list, def);
    NamesAreWords(c.regions);
    FieldsOfJoinedWords(c.regions, ',', IsSpaceOrComma);
    DedupIsIdle(c.regions);
    NameIsTrim(c.def);
    hide Dedup, Trim, Join, IsRegionName;
  }

  // ---- a role's tile ----

  function Filtered(rs: seq<string>, allowed: seq<string>): seq<string> {
    if rs == [] then []
    else
      var front, last := Filtered(rs[..|rs| - 1], allowed), rs[|rs| - 1];
      if last in allowed then front + [last] else front
  }

  // A role with no list of its own is not restricted.
  function Eligible(c: Config, allowed: seq<string>): seq<string> {
    if allowed == [] then c.regions else Filtered(c.regions, allowed)
  }

  datatype Choice = Choice(value: string, selected: bool)

  function IncludesGlobal(c: Config, allowed: seq<string>): bool {
    allowed == [] && c.def == ""
  }

  function DefaultOf(c: Config, allowed: seq<string>): string {
    var eligible := Eligible(c, allowed);
    if c.def in eligible then c.def
    else if !IncludesGlobal(c, allowed) && eligible != [] then eligible[0]
    else ""
  }

  function ChoicesOf(eligible: seq<string>, def: string): (cs: seq<Choice>)
    ensures |cs| == |eligible|
    ensures forall i | 0 <= i < |cs| :: cs[i] == Choice(eligible[i], eligible[i] == def)
  {
    seq(|eligible|, i requires 0 <= i < |eligible| => Choice(eligible[i], eligible[i] == def))
  }

  function Options(c: Config, allowed: seq<string>): seq<Choice> {
    var eligible := Eligible(c, allowed);
    if eligible == [] then []
    else (if IncludesGlobal(c, allowed) then [Choice("", true)] else []) + ChoicesOf(eligible, DefaultOf(c, allowed))
  }

  // The first option that fits the request.
  function FirstFit(cs: seq<Choice>, requested: string): Option<string> {
    if cs == [] then None
    else if (requested == "" && cs[0].selected) || (requested != "" && cs[0].value == requested) then Some(cs[0].value)
    else FirstFit(cs[1..], requested)
  }

  function Resolved(c: Config, allowed: seq<string>, requested: string): Option<string> {
    if c.regions == [] then (if requested == "" then Some("") else None)
    else FirstFit(Options(c, allowed), requested)
  }

  class Portal {
    const awsRegions: seq<string>
    const awsDefaultRegion: string

    ghost function Configured(): Config {
      Config(awsRegions, awsDefaultRegion)
    }

    constructor (c: Config)
      ensures Configured() == c
    {
      awsRegions, awsDefaultRegion := c.regions, c.def;
    }

    method EligibleAwsRegions(allowed: seq<string>) returns (eligible: seq<string>, restricted: bool)
      ensures eligible == Eligible(Configured(), allowed) && restricted == (allowed != [])
    {
      if allowed == [] { return awsRegions, false; }
      eligible := [];
      var i := 0;
      while i < |awsRegions|
        invariant 0 <= i <= |awsRegions|
        invariant eligible == Filtered(awsRegions[..i], allowed)
      {
        assert awsRegions[..i + 1][..i] == awsRegions[..i];
        if awsRegions[i] in allowed { eligible := eligible + [awsRegions[i]]; }
        i := i + 1;
      }
      assert awsRegions[..i] == awsRegions;
      restricted := true;
    }

    method AwsRegionOptions(allowed: seq<string>) returns (opts: seq<Choice>)
      ensures opts == Options(Configured(), allowed)
    {
      var eligible, restricted := EligibleAwsRegions(allowed);
      if eligible == [] { return []; }
      var includeGlobal := !restricted && awsDefaultRegion == "";
      var def := "";
      if awsDefaultRegion in eligible {
        def := awsDefaultRegion;
      } else if !includeGlobal {
        def := eligible[0];
      }
      opts := [];
      if includeGlobal { opts := [Choice("", true)]; }
      ghost var head := opts;
      var i := 0;
      while i < |eligible|
        invariant 0 <= i <= |eligible|
        invariant opts == head + ChoicesOf(eligible[..i], def)
      {
        opts := opts + [Choice(eligible[i], eligible[i] == def)];
        assert ChoicesOf(eligible[..i + 1], def)
          == ChoicesOf(eligible[..i], def) + [Choice(eligible[i], eligible[i] == def)];
        i := i + 1;
      }
      assert eligible[..i] == eligible;
    }

    method ResolveAwsRegion(allowed: seq<string>, requested: string) returns (r: Option<string>)
      ensures r == Resolved(Configured(), allowed, requested)
    {
      if awsRegions == [] {
        return if requested == "" then Some("") else None;
      }
      var opts := AwsRegionOptions(allowed);
      var i := 0;
      assert opts[0..] == opts;
      while i < |opts|
        invariant 0 <= i <= |opts|
        invariant FirstFit(opts[i..], requested) == Resolved(Configured(), allowed, requested)
      {
        if (requested == "" && opts[i].selected) || (requested != "" && opts[i].value == requested) {
          return Some(opts[i].value);
        }
        assert opts[i..][1..] == opts[i + 1..];
        i := i + 1;
      }
      r := None;
    }

    // Each entry must be one of the server's regions.
    method ParseRoleRegions(list: string) returns (r: Option<seq<string>>)
      ensures r == RoleRegions(Configured(), list)
    {
      var words := SplitRegions(list);
      var out: seq<string> := [];
      var i := 0;
      while i < |words|
        invariant 0 <= i <= |words|
        invariant out == Dedup(words[..i])
        invariant forall j | 0 <= j < i :: words[j] in awsRegions
      {
        if words[i] !in awsRegions { return None; }
        assert words[..i + 1][..i] == words[..i];
        if words[i] !in out { out := out + [words[i]]; }
        i := i + 1;
      }
      assert words[..i] == words;
      r := Some(out);
    }
  }

  function RoleRegions(c: Config, list: string): Option<seq<string>> {
    var words := SplitRegions(list);
    if forall i | 0 <= i < |words| :: words[i] in c.regions then Some(Dedup(words)) else None
  }

  // ---- what resolving guarantees ----

  lemma {:induction false} FilteredHas(rs: seq<string>, allowed: seq<string>)
    ensures forall r :: r in Filtered(rs, allowed) <==> r in rs && r in allowed
    ensures NoRepeats(rs) ==> NoRepeats(Filtered(rs, allowed))
    decreases |rs|
  {
    if rs != [] {
      FilteredHas(rs[..|rs| - 1], allowed);
      assert rs == rs[..|rs| - 1] + [rs[|rs| - 1]];
    }
  }

  lemma {:induction false} EligibleHas(c: Config, allowed: seq<string>)
    ensures forall r :: r in Eligible(c, allowed) <==> r in c.regions && (allowed == [] || r in allowed)
    ensures NoRepeats(c.regions) ==> NoRepeats(Eligible(c, allowed))
  {
    FilteredHas(c.regions, allowed);
  }

  ghost predicate Selected(cs: seq<Choice>, i: nat) {
    i < |cs| && cs[i].selected
  }

  lemma {:induction false} SelectedAmong(eligible: seq<string>, def: string)
    requires NoRepeats(eligible)
    ensures def in eligible ==> exists i :: Selected(ChoicesOf(eligible, def), i)
    ensures def !in eligible ==> forall i :: !Selected(ChoicesOf(eligible, def), i)
    ensures forall i, j | Selected(ChoicesOf(eligible, def), i) && Selected(ChoicesOf(eligible, def), j) :: i == j
  {
    if def in eligible {
      var i :| 0 <= i < |eligible| && eligible[i] == def;
      assert Selected(ChoicesOf(eligible, def), i);
    }
  }

  /** A tile with options has exactly one selected. */
  lemma {:induction false} OneSelected(c: Config, allowed: seq<string>)
    requires WellFormed(c) && Options(c, allowed) != []
    ensures exists i :: Selected(Options(c, allowed), i)
    ensures forall i, j | Selected(Options(c, allowed), i) && Selected(Options(c, allowed), j) :: i == j
  {
    var eligible, def, opts := Eligible(c, allowed), DefaultOf(c, allowed), Options(c, allowed);
    EligibleHas(c, allowed);
    SelectedAmong(eligible, def);
    if IncludesGlobal(c, allowed) {
      hide Eligible;
      assert def == "" && forall r | r in eligible :: r != "";
      assert Selected(opts, 0);
      forall i | 0 < i < |opts| ensures !opts[i].selected {
        assert opts[i] == ChoicesOf(eligible, def)[i - 1];
        assert !Selected(ChoicesOf(eligible, def), i - 1);
      }
    } else {
      assert opts == ChoicesOf(eligible, def);
    }
  }

  lemma {:induction false} FirstFitFinds(cs: seq<Choice>, requested: string)
    ensures FirstFit(cs, requested).Some? <==>
      exists i :: 0 <= i < |cs| && (if requested == "" then cs[i].selected else cs[i].value == requested)
    ensures FirstFit(cs, requested).Some? ==>
      exists i :: 0 <= i < |cs| && cs[i].value == FirstFit(cs, requested).value
        && (if requested == "" then cs[i].selected else cs[i].value == requested)
    decreases |cs|
  {
    if cs != [] {
      FirstFitFinds(cs[1..], requested);
      assert forall i | 0 <= i < |cs| - 1 :: cs[1..][i] == cs[i + 1];
      if exists i ::
          0 <= i < |cs| - 1 && (if requested == "" then cs[1..][i].selected else cs[1..][i].value == requested) {
        var i :| 0 <= i < |cs| - 1 && (if requested == "" then cs[1..][i].selected else cs[1..][i].value == requested);
        assert if requested == "" then cs[i + 1].selected else cs[i + 1].value == requested;
      }
    }
  }

  ghost predicate Offered(c: Config, allowed: seq<string>, value: string) {
    exists i :: 0 <= i < |Options(c, allowed)| && Options(c, allowed)[i].value == value
  }

  /**
   With regions configured, resolving accepts exactly the offered values, and
   the empty request for the selected one; a blocked role accepts nothing.
   With none configured only the empty request is accepted.
   */
  lemma {:induction false} ResolveAcceptsTheOffered(c: Config, allowed: seq<string>, requested: string)
    requires WellFormed(c)
    ensures c.regions == [] ==> (Resolved(c, allowed, requested).Some? <==> requested == "")
    ensures c.regions != [] && requested != "" ==>
      Resolved(c, allowed, requested) == if Offered(c, allowed, requested) then Some(requested) else None
    ensures c.regions != [] && requested == "" ==>
      (Resolved(c, allowed, "").Some? <==> Options(c, allowed) != [])
      && (Resolved(c, allowed, "").Some? ==> Choice(Resolved(c, allowed, "").value, true) in Options(c, allowed))
  {
    FirstFitFinds(Options(c, allowed), requested);
    if Options(c, allowed) != [] { OneSelected(c, allowed); }
  }

  /**
   The door a request resolves to resolves to itself, so checking it again on
   the step-up and refresh routes cannot change it.
   */
  lemma {:induction false} ResolveIsIdempotent(c: Config, allowed: seq<string>, requested: string)
    requires WellFormed(c) && Resolved(c, allowed, requested).Some?
    ensures Resolved(c, allowed, Resolved(c, allowed, requested).value) == Resolved(c, allowed, requested)
  {
    var r := Resolved(c, allowed, requested).value;
    if c.regions != [] && r != "" {
      FirstFitFinds(Options(c, allowed), requested);
      ResolveAcceptsTheOffered(c, allowed, r);
    } else if c.regions != [] {
      ResolveAcceptsTheOffered(c, allowed, requested);
    }
  }

  lemma OptionIsEligible(c: Config, allowed: seq<string>, i: nat)
    requires i < |Options(c, allowed)|
    ensures var value := Options(c, allowed)[i].value;
      value in Eligible(c, allowed) || (value == "" && IncludesGlobal(c, allowed))
  {
    hide Eligible, IncludesGlobal, DefaultOf, ChoicesOf;
    var eligible := Eligible(c, allowed);
    var choices := ChoicesOf(eligible, DefaultOf(c, allowed));
    if i > 0 || !IncludesGlobal(c, allowed) {
      assert Options(c, allowed)[i] == choices[if IncludesGlobal(c, allowed) then i - 1 else i];
    }
  }

  /** An accepted region is the server's, and the role's if it has a list. */
  lemma {:induction false} AcceptedRegionIsAllowed(c: Config, allowed: seq<string>, requested: string)
    requires WellFormed(c) && Resolved(c, allowed, requested).Some?
    ensures var r := Resolved(c, allowed, requested).value;
      if r == "" then c.regions == [] || (allowed == [] && c.def == "")
      else r in c.regions && (allowed == [] || r in allowed)
  {
    var r, opts := Resolved(c, allowed, requested).value, Options(c, allowed);
    if c.regions != [] {
      hide FirstFit, Options, Eligible;
      FirstFitFinds(opts, requested);
      EligibleHas(c, allowed);
      var i :| 0 <= i < |opts| && opts[i].value == r;
      OptionIsEligible(c, allowed, i);
    }
  }

  // ---- the tile, from the two lists alone ----

  // Regions of the server's list that the role may use.
  ghost predicate MayUse(c: Config, allowed: seq<string>, k: nat) {
    k < |c.regions| && (allowed == [] || c.regions[k] in allowed)
  }

  // The first of them.
  ghost predicate ComesFirst(c: Config, allowed: seq<string>, k: nat) {
    MayUse(c, allowed, k) && forall j: nat | j < k :: !MayUse(c, allowed, j)
  }

  lemma {:induction false} FilteredAway(rs: seq<string>, allowed: seq<string>)
    requires forall j | 0 <= j < |rs| :: rs[j] !in allowed
    ensures Filtered(rs, allowed) == []
    decreases |rs|
  {
    if rs != [] { FilteredAway(rs[..|rs| - 1], allowed); }
  }

  lemma {:induction false} FilteredStartsWith(rs: seq<string>, allowed: seq<string>, k: nat)
    requires k < |rs| && rs[k] in allowed && forall j: nat | j < k :: rs[j] !in allowed
    ensures Filtered(rs, allowed) != [] && Filtered(rs, allowed)[0] == rs[k]
    decreases |rs|
  {
    if k < |rs| - 1 {
      FilteredStartsWith(rs[..|rs| - 1], allowed, k);
    } else {
      FilteredAway(rs[..k], allowed);
    }
  }

  /**
   The door behind a tile's button, when regions are configured: the global one
   exactly for an unrestricted role without a configured default; the
   configured default whenever the role may use it; otherwise the first region
   of the server's list that the role may use, and none if there is none.
   */
  lemma {:induction false} TheDefaultDoor(c: Config, allowed: seq<string>)
    requires WellFormed(c) && c.regions != []
    ensures allowed == [] && c.def == "" ==> Resolved(c, allowed, "") == Some("")
    ensures c.def != "" && (allowed == [] || c.def in allowed) ==> Resolved(c, allowed, "") == Some(c.def)
    ensures forall k: nat | allowed != [] && (c.def == "" || c.def !in allowed) && ComesFirst(c, allowed, k) ::
      Resolved(c, allowed, "") == Some(c.regions[k])
    ensures (forall k: nat :: !MayUse(c, allowed, k)) ==> Resolved(c, allowed, "").None?
  {
    var eligible, opts := Eligible(c, allowed), Options(c, allowed);
    EligibleHas(c, allowed);
    SelectedIsDefault(c, allowed);
    forall k: nat | allowed != [] && ComesFirst(c, allowed, k)
      ensures eligible != [] && eligible[0] == c.regions[k]
    {
      forall j: nat | j < k ensures c.regions[j] !in allowed { assert !MayUse(c, allowed, j); }
      FilteredStartsWith(c.regions, allowed, k);
    }
    if eligible != [] {
      assert eligible[0] in eligible;
      var k :| 0 <= k < |c.regions| && c.regions[k] == eligible[0];
      assert MayUse(c, allowed, k);
    }
    hide Eligible, Options, FirstFit;
  }

  lemma {:induction false} SelectedIsDefault(c: Config, allowed: seq<string>)
    requires WellFormed(c) && c.regions != []
    ensures Resolved(c, allowed, "")
      == if Eligible(c, allowed) == [] then None else Some(DefaultOf(c, allowed))
  {
    var eligible, def, opts := Eligible(c, allowed), DefaultOf(c, allowed), Options(c, allowed);
    FirstFitFinds(opts, "");
    if eligible != [] {
      OneSelected(c, allowed);
      var i :| 0 <= i < |opts| && opts[i].selected && opts[i].value == FirstFit(opts, "").value;
      EligibleHas(c, allowed);
      hide Eligible, FirstFit;
      if IncludesGlobal(c, allowed) {
        assert opts[0] == Choice("", true) && Selected(opts, 0) && Selected(opts, i);
      } else {
        assert opts[i] == ChoicesOf(eligible, def)[i];
      }
    }
  }

  lemma {:induction false} FilteredInOrder(rs: seq<string>, allowed: seq<string>, i: nat, j: nat)
    returns (p: nat, q: nat)
    requires i < j < |Filtered(rs, allowed)|
    ensures p < q < |rs| && rs[p] == Filtered(rs, allowed)[i] && rs[q] == Filtered(rs, allowed)[j]
    decreases |rs|
  {
    var front := rs[..|rs| - 1];
    if j < |Filtered(front, allowed)| {
      p, q := FilteredInOrder(front, allowed, i, j);
    } else {
      FilteredHas(front, allowed);
      assert Filtered(front, allowed)[i] in front;
      p :| p < |front| && front[p] == Filtered(front, allowed)[i];
      q := |rs| - 1;
    }
  }

  // The tile lists regions in the order of the server's list.
  ghost predicate Follows(c: Config, x: string, y: string) {
    exists p: nat, q: nat :: p < q < |c.regions| && c.regions[p] == x && c.regions[q] == y
  }

  /**
   What a tile offers: every region of the server's list that the role may
   use, in the server's order, after the global door if that is offered at all.
   */
  lemma {:induction false} TheTile(c: Config, allowed: seq<string>)
    requires WellFormed(c)
    ensures forall r :: Offered(c, allowed, r) <==>
      if r == "" then c.regions != [] && allowed == [] && c.def == ""
      else r in c.regions && (allowed == [] || r in allowed)
    ensures var opts := Options(c, allowed);
      forall i, j | 0 <= i < j < |opts| ::
        opts[j].value != "" && (opts[i].value == "" || Follows(c, opts[i].value, opts[j].value))
  {
    var eligible, opts := Eligible(c, allowed), Options(c, allowed);
    EligibleHas(c, allowed);
    forall r
      ensures Offered(c, allowed, r) <==> r in eligible || (r == "" && eligible != [] && IncludesGlobal(c, allowed))
    {
      OfferedIsEligible(c, allowed, r);
    }
    assert "" !in c.regions;
    forall i, j | 0 <= i < j < |opts|
      ensures opts[j].value != "" && (opts[i].value == "" || Follows(c, opts[i].value, opts[j].value))
    {
      OptionsFollow(c, allowed, i, j);
    }
  }

  lemma {:induction false} OfferedIsEligible(c: Config, allowed: seq<string>, r: string)
    ensures Offered(c, allowed, r) <==>
      r in Eligible(c, allowed) || (r == "" && Eligible(c, allowed) != [] && IncludesGlobal(c, allowed))
  {
    hide Eligible, IncludesGlobal, DefaultOf;
    var eligible, opts := Eligible(c, allowed), Options(c, allowed);
    if r in eligible {
      var i :| 0 <= i < |eligible| && eligible[i] == r;
      var shift := if IncludesGlobal(c, allowed) then 1 else 0;
      assert opts[i + shift] == ChoicesOf(eligible, DefaultOf(c, allowed))[i];
    }
    if eligible != [] && IncludesGlobal(c, allowed) { assert opts[0] == Choice("", true); }
    if Offered(c, allowed, r) {
      var i :| 0 <= i < |opts| && opts[i].value == r;
      OptionIsEligible(c, allowed, i);
    }
  }

  lemma {:induction false} OptionsFollow(c: Config, allowed: seq<string>, i: nat, j: nat)
    requires WellFormed(c) && i < j < |Options(c, allowed)|
    ensures var opts := Options(c, allowed);
      opts[j].value != "" && (opts[i].value == "" || Follows(c, opts[i].value, opts[j].value))
  {
    var eligible, opts := Eligible(c, allowed), Options(c, allowed);
    EligibleHas(c, allowed);
    var shift := if IncludesGlobal(c, allowed) then 1 else 0;
    assert opts[j] == ChoicesOf(eligible, DefaultOf(c, allowed))[j - shift];
    assert eligible[j - shift] in eligible;
    if i >= shift {
      assert opts[i] == ChoicesOf(eligible, DefaultOf(c, allowed))[i - shift];
      if allowed != [] {
        var p, q := FilteredInOrder(c.regions, allowed, i - shift, j - shift);
      }
    }
  }

  // ---- storing a role's list (model.EncodeRegions, model.DecodeRegions) ----

  function EncodeRegions(rs: seq<string>): string {
    Join(rs, ',')
  }

  // strings.Split
  function Split(s: string, sep: char): (parts: seq<string>)
    ensures parts != []
  {
    if s == "" then [""]
    else
      var rest := Split(s[1..], sep);
      if s[0] == sep then [""] + rest else [[s[0]] + rest[0]] + rest[1..]
  }

  function DecodeRegions(s: string): seq<string> {
    if s == "" then [] else Split(s, ',')
  }

  lemma {:induction false} PartsAreFree(s: string, sep: char)
    ensures forall p | p in Split(s, sep) :: sep !in p
    decreases |s|
  {
    if s != "" { PartsAreFree(s[1..], sep); }
  }

  lemma {:induction false} SplitFirst(w: string, rest: string, sep: char)
    requires sep !in w
    ensures Split(w + [sep] + rest, sep) == [w] + Split(rest, sep)
    ensures Split(w, sep) == [w]
    decreases |w|
  {
    if w == "" {
      assert w + [sep] + rest == [sep] + rest && [sep] + rest != "";
      assert ([sep] + rest)[1..] == rest;
    } else {
      assert (w + [sep] + rest)[1..] == w[1..] + [sep] + rest;
      SplitFirst(w[1..], rest, sep);
      assert w == [w[0]] + w[1..];
    }
  }

  lemma {:induction false} SplitJoined(rs: seq<string>, sep: char)
    requires rs != [] && forall r | r in rs :: sep !in r
    ensures Split(Join(rs, sep), sep) == rs
    decreases |rs|
  {
    assert rs[0] in rs;
    if |rs| == 1 {
      SplitFirst(rs[0], "", sep);
    } else {
      SplitFirst(rs[0], Join(rs[1..], sep), sep);
      assert Join(rs, sep) == rs[0] + [sep] + Join(rs[1..], sep);
      SplitJoined(rs[1..], sep);
      assert rs == [rs[0]] + rs[1..];
    }
  }

  /** A list survives storing exactly when it has no comma in it and is not [""]. */
  lemma {:induction false} StoredListSurvives(rs: seq<string>)
    ensures DecodeRegions(EncodeRegions(rs)) == rs <==> rs != [""] && forall r | r in rs :: ',' !in r
  {
    if rs != [] {
      PartsAreFree(EncodeRegions(rs), ',');
      if forall r | r in rs :: ',' !in r {
        SplitJoined(rs, ',');
        if rs != [""] { JoinIsNotEmpty(rs); }
      }
    }
  }

  lemma {:induction false} JoinIsNotEmpty(rs: seq<string>)
    requires rs != [] && rs != [""]
    ensures Join(rs, ',') != ""
  {
    if |rs| == 1 { assert rs == [rs[0]]; }
  }

  /** Every list parseRoleRegions produces is stored and read back unchanged. */
  lemma {:induction false} RoleRegionsSurvive(c: Config, list: string)
    requires RoleRegions(c, list).Some?
    ensures DecodeRegions(EncodeRegions(RoleRegions(c, list).value)) == RoleRegions(c, list).value
    ensures forall r | r in RoleRegions(c, list).value :: r in c.regions
  {
    var words, rs := SplitRegions(list), RoleRegions(c, list).value;
    FieldsAreWords(list, IsSpaceOrComma);
    DedupIsASet(words);
    forall r | r in rs ensures r != "" && ',' !in r {
      var i :| 0 <= i < |words| && words[i] == r;
      assert IsWord(words[i], IsSpaceOrComma);
    }
    if rs != [] { assert rs[0] in rs; }
    StoredListSurvives(rs);
  }
}
