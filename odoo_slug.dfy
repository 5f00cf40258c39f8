/** `slugify` of the Odoo login handler: turns a company name into a team
    name made of lower-case letters, digits and single dashes. */
module OdooSlug {
  import opened Text

  predicate IsSlugChar(c: char) { 'a' <= c <= 'z' || '0' <= c <= '9' || c == '-' }

  predicate IsAsciiAlnum(c: char) { IsAsciiUpper(c) || IsAsciiLower(c) || IsDigit(c) }

  /** No two consecutive dashes. */
  predicate NoDoubleDash(s: string) {
    forall i :: 0 <= i < |s| - 1 ==> !(s[i] == '-' && s[i + 1] == '-')
  }

  /** The shape of every team name `slugify` returns: only `a`-`z`, `0`-`9`
      and `-`, no dash at either end and no two dashes in a row. */
  predicate IsSlug(s: string) {
    && (forall i :: 0 <= i < |s| ==> IsSlugChar(s[i]))
    && (|s| > 0 ==> s[0] != '-' && s[|s| - 1] != '-')
    && NoDoubleDash(s)
  }

  // ---------------------------------------------------------------------------
  // The stages of the pipeline

  /** `strings.ReplaceAll(s, [from], [to])` for one-character strings. */
  function ReplaceChar(s: string, from: char, to: char): (r: string)
    ensures |r| == |s|
    ensures forall i :: 0 <= i < |s| ==> r[i] == if s[i] == from then to else s[i]
  {
    seq(|s|, i requires 0 <= i < |s| => if s[i] == from then to else s[i])
  }

  /** Underscores and spaces become dashes. */
  function DashSeparators(s: string): string {
    ReplaceChar(ReplaceChar(s, '_', '-'), ' ', '-')
  }

  /** The characters of `s` that may appear in a team name, in order. */
  function KeepSlugChars(s: string): (r: string)
    ensures forall i :: 0 <= i < |r| ==> IsSlugChar(r[i])
    ensures forall c :: c in r ==> c in s
  {
    if |s| == 0 then ""
    else KeepSlugChars(s[..|s| - 1]) + (if IsSlugChar(s[|s| - 1]) then [s[|s| - 1]] else "")
  }

  /** `strings.ReplaceAll(s, "--", "-")`: one left-to-right pass. */
  function ReplaceDoubleDash(s: string): (r: string)
    ensures |r| <= |s|
  {
    if |s| < 2 then s
    else if s[0] == '-' && s[1] == '-' then "-" + ReplaceDoubleDash(s[2..])
    else [s[0]] + ReplaceDoubleDash(s[1..])
  }

  /** Every run of dashes squeezed to one dash. */
  function Collapse(s: string): string {
    if |s| < 2 then s
    else if s[0] == '-' && s[1] == '-' then Collapse(s[1..])
    else [s[0]] + Collapse(s[1..])
  }

  /** The team name for a company name, stage by stage: trim white space,
      lower-case, blank means "", turn separators into dashes, drop every other
      character outside `[a-z0-9-]`, trim dashes, empty means "", squeeze runs
      of dashes. */
  function Slug(s: string): string {
    var t := Lower(TrimSpace(s));
    if t == "" then ""
    else
      var trimmed := TrimChar(KeepSlugChars(DashSeparators(t)), '-');
      if trimmed == "" then "" else Collapse(trimmed)
  }

  /** `slugify`: builds the kept characters one by one, then replaces "--" by
      "-" until none is left. */
  method Slugify(s: string) returns (res: string)
    ensures res == Slug(s)
  {
    var t := Lower(TrimSpace(s));
    if t == "" {
      return "";
    }
    t := ReplaceChar(t, '_', '-');
    t := ReplaceChar(t, ' ', '-');
    var b := FilterSlugChars(t);
    res := TrimChar(b, '-');
    if res == "" {
      return "";
    }
    res := CollapseDashes(res);
  }

  /** The `strings.Builder` loop of `slugify`. */
  method FilterSlugChars(t: string) returns (b: string)
    ensures b == KeepSlugChars(t)
  {
    b := "";
    for i := 0 to |t|
      invariant b == KeepSlugChars(t[..i])
    {
      assert t[..i + 1][..i] == t[..i];
      if IsSlugChar(t[i]) {
        b := b + [t[i]];
      }
    }
    assert t[..|t|] == t;
  }

  /** The `for strings.Contains(res, "--")` loop of `slugify`. */
  method CollapseDashes(s: string) returns (res: string)
    ensures res == Collapse(s)
  {
    res := s;
    while Contains(res, "--")
      invariant Collapse(res) == Collapse(s)
      decreases |res|
    {
      DoubleDashOccurs(res);
      ReplaceDoubleDashShrinks(res);
      CollapseAfterReplace(res);
      res := ReplaceDoubleDash(res);
    }
    DoubleDashOccurs(res);
    CollapseWithoutDoubleDash(res);
  }

  // ---------------------------------------------------------------------------
  // Facts about Collapse and ReplaceDoubleDash

  /** `Contains(s, "--")` finds exactly the pairs of adjacent dashes. */
  lemma DoubleDashOccurs(s: string)
    ensures Contains(s, "--") <==> !NoDoubleDash(s)
  {
    forall i | 0 <= i < |s| - 1
      ensures OccursAt(s, "--", i) <==> (s[i] == '-' && s[i + 1] == '-')
    {
      if s[i] == '-' && s[i + 1] == '-' {
        assert s[i..i + 2] == "--";
      }
    }
    if !NoDoubleDash(s) {
      var i :| 0 <= i < |s| - 1 && s[i] == '-' && s[i + 1] == '-';
      assert OccursAt(s, "--", i);
    }
    if Contains(s, "--") {
      var i :| OccursAt(s, "--", i);
      assert s[i] == s[i..i + 2][0] && s[i + 1] == s[i..i + 2][1];
    }
  }

  lemma {:induction false} CollapseHead(s: string)
    requires |s| > 0
    ensures |Collapse(s)| > 0 && Collapse(s)[0] == s[0]
  {
    if |s| >= 2 && s[0] == '-' && s[1] == '-' {
      CollapseHead(s[1..]);
    }
  }

  lemma {:induction false} CollapseLast(s: string)
    requires |s| > 0
    ensures |Collapse(s)| > 0 && Collapse(s)[|Collapse(s)| - 1] == s[|s| - 1]
  {
    if |s| >= 2 {
      CollapseLast(s[1..]);
    }
  }

  lemma {:induction false} CollapseChars(s: string)
    ensures forall c :: c in Collapse(s) ==> c in s
  {
    if |s| >= 2 {
      CollapseChars(s[1..]);
    }
  }

  /** Collapsing leaves no two dashes in a row. */
  lemma {:induction false} CollapseNoDoubleDash(s: string)
    ensures NoDoubleDash(Collapse(s))
  {
    if |s| >= 2 {
      CollapseNoDoubleDash(s[1..]);
      if !(s[0] == '-' && s[1] == '-') {
        CollapseHead(s[1..]);
        var r := Collapse(s);
        assert r == [s[0]] + Collapse(s[1..]);
        forall i | 0 <= i < |r| - 1
          ensures !(r[i] == '-' && r[i + 1] == '-')
        {
          if i > 0 {
            assert r[i] == Collapse(s[1..])[i - 1] && r[i + 1] == Collapse(s[1..])[i];
          }
        }
      }
    }
  }

  /** A string without two dashes in a row is its own collapse. */
  lemma {:induction false} CollapseWithoutDoubleDash(s: string)
    requires NoDoubleDash(s)
    ensures Collapse(s) == s
  {
    if |s| >= 2 {
      assert NoDoubleDash(s[1..]) by {
        forall i | 0 <= i < |s| - 2
          ensures !(s[1..][i] == '-' && s[1..][i + 1] == '-')
        {
          assert s[1..][i] == s[i + 1] && s[1..][i + 1] == s[i + 2];
        }
      }
      CollapseWithoutDoubleDash(s[1..]);
      assert !(s[0] == '-' && s[1] == '-');
      assert s == [s[0]] + s[1..];
    }
  }

  /** Putting `c` in front of a string whose collapse is `t`. */
  function Push(c: char, t: string): string {
    if c == '-' && |t| > 0 && t[0] == '-' then t else [c] + t
  }

  lemma {:induction false} CollapseCons(c: char, s: string)
    ensures Collapse([c] + s) == Push(c, Collapse(s))
  {
    var x := [c] + s;
    if |s| > 0 {
      CollapseHead(s);
      assert x[0] == c && x[1] == s[0] && x[1..] == s;
    }
  }

  /** One pass of `strings.ReplaceAll(s, "--", "-")` does not change what
      collapsing gives. */
  lemma {:induction false} CollapseAfterReplace(s: string)
    ensures Collapse(ReplaceDoubleDash(s)) == Collapse(s)
  {
    if |s| >= 2 {
      var rest := if s[0] == '-' && s[1] == '-' then s[2..] else s[1..];
      CollapseAfterReplace(rest);
      if s[0] == '-' && s[1] == '-' {
        CollapseCons('-', ReplaceDoubleDash(rest));
        CollapseCons('-', rest);
        assert s[1..] == "-" + rest;
      } else {
        CollapseCons(s[0], ReplaceDoubleDash(rest));
        CollapseCons(s[0], rest);
        assert s == [s[0]] + rest;
      }
    }
  }

  /** The pass shortens a string that contains "--", so the loop ends. */
  lemma {:induction false} ReplaceDoubleDashShrinks(s: string)
    requires !NoDoubleDash(s)
    ensures |ReplaceDoubleDash(s)| < |s|
  {
    if |s| >= 2 && !(s[0] == '-' && s[1] == '-') {
      assert !NoDoubleDash(s[1..]) by {
        var i :| 0 <= i < |s| - 1 && s[i] == '-' && s[i + 1] == '-';
        assert i > 0;
        assert s[1..][i - 1] == s[i] && s[1..][i] == s[i + 1];
      }
      ReplaceDoubleDashShrinks(s[1..]);
    }
  }

  // ---------------------------------------------------------------------------
  // Facts about the other stages

  lemma {:induction false} KeepSlugCharsKeeps(s: string, c: char)
    requires c in s && IsSlugChar(c)
    ensures c in KeepSlugChars(s)
  {
    var last := s[|s| - 1];
    if last != c {
      assert s == s[..|s| - 1] + [last];
      KeepSlugCharsKeeps(s[..|s| - 1], c);
    }
  }

  lemma {:induction false} KeepSlugCharsIdentity(s: string)
    requires forall i :: 0 <= i < |s| ==> IsSlugChar(s[i])
    ensures KeepSlugChars(s) == s
  {
    if |s| > 0 {
      KeepSlugCharsIdentity(s[..|s| - 1]);
      assert s == s[..|s| - 1] + [s[|s| - 1]];
    }
  }

  // ---------------------------------------------------------------------------
  // What slugify promises

  /** The last two stages turn any string of team-name characters into a
      team name. */
  lemma {:induction false} TrimCollapseShape(k: string)
    requires forall i :: 0 <= i < |k| ==> IsSlugChar(k[i])
    ensures var trimmed := TrimChar(k, '-'); trimmed != "" ==> IsSlug(Collapse(trimmed))
  {
    var trimmed := TrimChar(k, '-');
    TrimCharKeeps(k, '-');
    if trimmed != "" {
      var r := Collapse(trimmed);
      CollapseChars(trimmed);
      CollapseHead(trimmed);
      CollapseLast(trimmed);
      CollapseNoDoubleDash(trimmed);
      forall i | 0 <= i < |r|
        ensures IsSlugChar(r[i])
      {
        assert r[i] in r;
        assert r[i] in k;
      }
    }
  }

  /** Every result has the shape of a team name. */
  lemma SlugShape(s: string)
    ensures IsSlug(Slug(s))
  {
    var t := Lower(TrimSpace(s));
    if t != "" {
      TrimCollapseShape(KeepSlugChars(DashSeparators(t)));
    }
  }

  /** Lower-casing and turning separators into dashes keep a letter or digit
      at its place, lower-cased. */
  lemma {:induction false} PrepareKeepsAlnum(t0: string, j: int)
    requires 0 <= j < |t0| && IsAsciiAlnum(t0[j])
    ensures var c := LowerChar(t0[j]); IsSlugChar(c) && c != '-' && c in DashSeparators(Lower(t0))
  {
    var d := DashSeparators(Lower(t0));
    assert d[j] == LowerChar(t0[j]);
  }

  /** Trimming and collapsing a string that holds a letter or digit gives a
      non-empty string. */
  lemma {:induction false} TrimCollapseNonEmpty(k: string, c: char)
    requires c in k && c != '-'
    ensures TrimChar(k, '-') != "" && Collapse(TrimChar(k, '-')) != ""
  {
    TrimCharKeeps(k, '-');
    var kj :| 0 <= kj < |k| && k[kj] == c;
    CollapseHead(TrimChar(k, '-'));
  }

  /** A kept character other than a dash makes the team name non-empty. */
  lemma SlugNonEmptyFromKept(s: string, c: char)
    requires c != '-' && c in KeepSlugChars(DashSeparators(Lower(TrimSpace(s))))
    ensures Slug(s) != ""
  {
    var k := KeepSlugChars(DashSeparators(Lower(TrimSpace(s))));
    assert c in DashSeparators(Lower(TrimSpace(s)));
    TrimCollapseNonEmpty(k, c);
  }

  /** A letter or digit anywhere in the name survives into the team name. */
  lemma {:induction false} SlugKeepsAlnum(s: string, i: int)
    requires 0 <= i < |s| && IsAsciiAlnum(s[i])
    ensures Slug(s) != ""
  {
    var t0 := TrimSpace(s);
    TrimSpaceKeeps(s);
    assert s[i] in t0;
    var j :| 0 <= j < |t0| && t0[j] == s[i];
    PrepareKeepsAlnum(t0, j);
    var c := LowerChar(s[i]);
    var d := DashSeparators(Lower(t0));
    KeepSlugCharsKeeps(d, c);
    SlugNonEmptyFromKept(s, c);
  }

  /** Without letters or digits, the prepared name holds none either. */
  lemma {:induction false} PrepareWithoutAlnum(t0: string)
    requires forall x :: x in t0 ==> !IsAsciiAlnum(x)
    ensures forall x :: x in DashSeparators(Lower(t0)) ==> !IsAsciiAlnum(x)
  {
    var d := DashSeparators(Lower(t0));
    forall x | x in d
      ensures !IsAsciiAlnum(x)
    {
      var j :| 0 <= j < |d| && d[j] == x;
      assert t0[j] in t0;
    }
  }

  /** Only dashes are kept from a string without letters or digits, and
      trimming removes them all. */
  lemma {:induction false} TrimWithoutAlnum(d: string)
    requires forall x :: x in d ==> !IsAsciiAlnum(x)
    ensures TrimChar(KeepSlugChars(d), '-') == ""
  {
    var k := KeepSlugChars(d);
    TrimCharKeeps(k, '-');
  }

  /** Without letters or digits only dashes are kept, and trimming removes
      them all. */
  lemma {:induction false} SlugEmptyWithoutAlnum(s: string)
    requires forall i :: 0 <= i < |s| ==> !IsAsciiAlnum(s[i])
    ensures Slug(s) == ""
  {
    var t0 := TrimSpace(s);
    TrimSpaceKeeps(s);
    PrepareWithoutAlnum(t0);
    TrimWithoutAlnum(DashSeparators(Lower(t0)));
  }

  /** A name yields "" exactly when it holds no ASCII letter or digit (blank
      names included). */
  lemma SlugEmptyIff(s: string)
    ensures Slug(s) == "" <==> forall i :: 0 <= i < |s| ==> !IsAsciiAlnum(s[i])
  {
    if exists i :: 0 <= i < |s| && IsAsciiAlnum(s[i]) {
      var i :| 0 <= i < |s| && IsAsciiAlnum(s[i]);
      SlugKeepsAlnum(s, i);
    } else {
      SlugEmptyWithoutAlnum(s);
    }
  }

  lemma LowerOfSlug(x: string)
    requires IsSlug(x)
    ensures Lower(x) == x
  {
    forall i | 0 <= i < |x|
      ensures Lower(x)[i] == x[i]
    {
      assert IsSlugChar(x[i]);
    }
  }

  lemma DashSeparatorsOfSlug(x: string)
    requires IsSlug(x)
    ensures DashSeparators(x) == x
  {
    var y := ReplaceChar(x, '_', '-');
    forall i | 0 <= i < |x|
      ensures y[i] == x[i]
    {
      assert IsSlugChar(x[i]);
    }
    assert y == x;
    forall i | 0 <= i < |x|
      ensures ReplaceChar(y, ' ', '-')[i] == x[i]
    {
      assert IsSlugChar(x[i]);
    }
  }

  /** The preparing stages leave a team name as it is. */
  lemma PrepareSlug(x: string)
    requires IsSlug(x) && x != ""
    ensures DashSeparators(Lower(TrimSpace(x))) == x
  {
    TrimSpaceKeeps(x);
    assert !IsSpace(x[0]) && !IsSpace(x[|x| - 1]) by {
      assert IsSlugChar(x[0]) && IsSlugChar(x[|x| - 1]);
    }
    assert TrimSpace(x) == x;
    LowerOfSlug(x);
    DashSeparatorsOfSlug(x);
  }

  /** Slugifying a team name gives it back unchanged. */
  lemma SlugOfSlug(x: string)
    requires IsSlug(x)
    ensures Slug(x) == x
  {
    if x != "" {
      PrepareSlug(x);
      SlugOfPrepared(x, x);
    }
  }

  /** `slugify` is idempotent. */
  lemma SlugIdempotent(s: string)
    ensures Slug(Slug(s)) == Slug(s)
  {
    SlugShape(s);
    SlugOfSlug(Slug(s));
  }

  /** A name whose prepared form (trimmed, lower-cased, separators turned
      into dashes) is already a non-empty team name slugifies to it. */
  lemma {:induction false} SlugOfPrepared(s: string, d: string)
    requires d == DashSeparators(Lower(TrimSpace(s)))
    requires d != "" && IsSlug(d)
    ensures Slug(s) == d
  {
    KeepSlugCharsIdentity(d);
    TrimCharKeeps(d, '-');
    CollapseWithoutDoubleDash(d);
  }

  /** "Co Ltd" becomes "co-ltd". */
  lemma SlugExample(name: string)
    requires name == "Co Ltd"
    ensures Slug(name) == "co-ltd"
  {
    assert TrimSpace(name) == name by { TrimSpaceKeeps(name); }
    assert Lower(name) == "co ltd" by {
      assert LowerChar('C') == 'c' && LowerChar('L') == 'l';
    }
    var d := DashSeparators("co ltd");
    assert d == "co-ltd";
    assert IsSlug(d);
    SlugOfPrepared(name, d);
  }
}
