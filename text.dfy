/** The string and number primitives of Go's standard library that the core
    relies on (`strings.ToLower`, `strings.TrimSpace`, `strings.Contains`,
    `strings.Index`, `strings.Fields`, `strings.Join`, `strconv.Atoi` and the
    `%d` verb), over ASCII. */
module Text {
  import opened Common

  const MinInt64: int := -0x8000_0000_0000_0000
  const MaxInt64: int := 0x7FFF_FFFF_FFFF_FFFF

  // ---------------------------------------------------------------------------
  // Characters

  predicate IsAsciiUpper(c: char) { 'A' <= c <= 'Z' }
  predicate IsAsciiLower(c: char) { 'a' <= c <= 'z' }
  predicate IsDigit(c: char) { '0' <= c <= '9' }

  /** White space as `unicode.IsSpace` sees it within ASCII. */
  predicate IsSpace(c: char) {
    c == ' ' || c == '\t' || c == '\n' || c == '\r' || c as int == 11 || c as int == 12
  }

  function LowerChar(c: char): (r: char)
    ensures IsAsciiUpper(c) ==> r as int == c as int + 32
    ensures !IsAsciiUpper(c) ==> r == c
    ensures !IsAsciiUpper(r)
  {
    if IsAsciiUpper(c) then (c as int + 32) as char else c
  }

  /** `strings.ToLower`: every upper-case letter replaced by its lower case. */
  function Lower(s: string): (r: string)
    ensures |r| == |s|
    ensures forall i :: 0 <= i < |s| ==> r[i] == LowerChar(s[i])
  {
    seq(|s|, i requires 0 <= i < |s| => LowerChar(s[i]))
  }

  lemma {:induction false} LowerOfSlice(s: string, i: int, j: int)
    requires 0 <= i <= j <= |s|
    ensures Lower(s[i..j]) == Lower(s)[i..j]
  {
    assert |Lower(s[i..j])| == |Lower(s)[i..j]|;
    forall k | 0 <= k < j - i
      ensures Lower(s[i..j])[k] == Lower(s)[i..j][k]
    {
      assert s[i..j][k] == s[i + k];
    }
  }

  lemma {:induction false} LowerAppend(a: string, b: string)
    ensures Lower(a + b) == Lower(a) + Lower(b)
  {
    assert |Lower(a + b)| == |Lower(a) + Lower(b)|;
    forall k | 0 <= k < |a| + |b|
      ensures Lower(a + b)[k] == (Lower(a) + Lower(b))[k]
    {
      if k < |a| { assert (a + b)[k] == a[k]; } else { assert (a + b)[k] == b[k - |a|]; }
    }
  }

  // ---------------------------------------------------------------------------
  // Trimming

  /** `strings.TrimRight(s, [c])`: drops every trailing occurrence of `c`. */
  function TrimRightChar(s: string, c: char): (r: string)
    ensures |r| <= |s| && r == s[..|r|]
    ensures |r| > 0 ==> r[|r| - 1] != c
    ensures forall i :: |r| <= i < |s| ==> s[i] == c
  {
    if |s| > 0 && s[|s| - 1] == c then TrimRightChar(s[..|s| - 1], c) else s
  }

  /** `strings.TrimLeft(s, [c])`: drops every leading occurrence of `c`. */
  function TrimLeftChar(s: string, c: char): (r: string)
    ensures |r| <= |s| && r == s[|s| - |r|..]
    ensures |r| > 0 ==> r[0] != c
    ensures forall i :: 0 <= i < |s| - |r| ==> s[i] == c
  {
    if |s| > 0 && s[0] == c then TrimLeftChar(s[1..], c) else s
  }

  /** `strings.Trim(s, [c])`: `c` removed from both ends. */
  function TrimChar(s: string, c: char): (r: string)
  {
    TrimLeftChar(TrimRightChar(s, c), c)
  }

  /** Trimming `c` keeps every other character, adds none, leaves a string
      that neither starts nor ends with `c` unchanged, and a non-empty result
      neither starts nor ends with `c`. */
  lemma {:induction false} TrimCharKeeps(s: string, c: char)
    ensures forall x :: x in TrimChar(s, c) ==> x in s
    ensures forall i :: 0 <= i < |s| && s[i] != c ==> s[i] in TrimChar(s, c)
    ensures |s| > 0 && s[0] != c && s[|s| - 1] != c ==> TrimChar(s, c) == s
    ensures var r := TrimChar(s, c); |r| > 0 ==> r[0] != c && r[|r| - 1] != c
  {
    var m := TrimRightChar(s, c);
    var r := TrimLeftChar(m, c);
    var a := |m| - |r|;
    forall i | 0 <= i < |s| && s[i] != c
      ensures s[i] in r
    {
      assert i < |m| && m[i] == s[i];
      assert a <= i;
      assert r[i - a] == s[i];
    }
    if |r| > 0 {
      assert r[|r| - 1] == m[|m| - 1];
    }
  }

  function TrimLeftSpace(s: string): (r: string)
    ensures |r| <= |s| && r == s[|s| - |r|..]
    ensures |r| > 0 ==> !IsSpace(r[0])
    ensures forall i :: 0 <= i < |s| - |r| ==> IsSpace(s[i])
  {
    if |s| > 0 && IsSpace(s[0]) then TrimLeftSpace(s[1..]) else s
  }

  function TrimRightSpace(s: string): (r: string)
    ensures |r| <= |s| && r == s[..|r|]
    ensures |r| > 0 ==> !IsSpace(r[|r| - 1])
    ensures forall i :: |r| <= i < |s| ==> IsSpace(s[i])
  {
    if |s| > 0 && IsSpace(s[|s| - 1]) then TrimRightSpace(s[..|s| - 1]) else s
  }

  /** `strings.TrimSpace`: leading and trailing white space removed. */
  function TrimSpace(s: string): (r: string)
  {
    TrimLeftSpace(TrimRightSpace(s))
  }

  /** Trimming only removes white space: it keeps every other character of
      `s`, adds none, and leaves a string that neither starts nor ends with
      white space unchanged. */
  lemma {:induction false} TrimSpaceKeeps(s: string)
    ensures forall c :: c in TrimSpace(s) ==> c in s
    ensures forall i :: 0 <= i < |s| && !IsSpace(s[i]) ==> s[i] in TrimSpace(s)
    ensures |s| > 0 && !IsSpace(s[0]) && !IsSpace(s[|s| - 1]) ==> TrimSpace(s) == s
  {
    var m := TrimRightSpace(s);
    var r := TrimLeftSpace(m);
    var a := |m| - |r|;
    forall i | 0 <= i < |s| && !IsSpace(s[i])
      ensures s[i] in r
    {
      assert i < |m| && m[i] == s[i];
      assert a <= i;
      assert r[i - a] == s[i];
    }
  }

  // ---------------------------------------------------------------------------
  // Searching

  predicate OccursAt(s: string, sub: string, i: int) {
    0 <= i && i + |sub| <= |s| && s[i..i + |sub|] == sub
  }

  lemma OccursShift(s: string, sub: string)
    requires |s| > 0
    ensures forall i :: i >= 0 ==> (OccursAt(s[1..], sub, i) <==> OccursAt(s, sub, i + 1))
  {
    forall i | i >= 0
      ensures OccursAt(s[1..], sub, i) <==> OccursAt(s, sub, i + 1)
    {
      if 0 <= i && i + |sub| <= |s| - 1 {
        assert s[1..][i..i + |sub|] == s[i + 1..i + 1 + |sub|];
      }
    }
  }

  /** `strings.Contains`: whether `sub` occurs somewhere in `s`. */
  function Contains(s: string, sub: string): (r: bool)
    ensures r <==> exists i :: OccursAt(s, sub, i)
    decreases |s|
  {
    if |sub| > |s| then false
    else if s[..|sub|] == sub then assert OccursAt(s, sub, 0); true
    else
      OccursShift(s, sub);
      assert !OccursAt(s, sub, 0);
      assert forall i :: OccursAt(s, sub, i) ==> i == 0 || OccursAt(s[1..], sub, i - 1);
      Contains(s[1..], sub)
  }

  /** `strings.Index` for a one-character needle: the first position of `c`,
      or -1 when `c` does not occur. */
  function IndexOf(s: string, c: char): (r: int)
    ensures -1 <= r < |s|
    ensures r == -1 <==> c !in s
    ensures r >= 0 ==> s[r] == c && c !in s[..r]
  {
    if |s| == 0 then -1
    else if s[0] == c then 0
    else
      var k := IndexOf(s[1..], c);
      assert s == [s[0]] + s[1..];
      if k == -1 then -1
      else
        assert s[..k + 1] == [s[0]] + s[1..][..k];
        k + 1
  }

  /** `strings.Split(s, [c])[0]`: the part of `s` before the first `c`. */
  function BeforeFirst(s: string, c: char): (r: string)
    ensures r <= s && c !in r
    ensures |r| < |s| ==> s[|r|] == c
  {
    var k := IndexOf(s, c);
    if k == -1 then s else s[..k]
  }

  // ---------------------------------------------------------------------------
  // Fields and Join

  /** A field of `strings.Fields`: non-empty and free of white space. */
  predicate IsField(t: string) {
    |t| > 0 && forall i :: 0 <= i < |t| ==> !IsSpace(t[i])
  }

  /** Length of the leading run of non-space characters. */
  function FieldLen(s: string): (n: nat)
    ensures n <= |s|
    ensures forall i :: 0 <= i < n ==> !IsSpace(s[i])
    ensures n < |s| ==> IsSpace(s[n])
  {
    if |s| == 0 || IsSpace(s[0]) then 0 else 1 + FieldLen(s[1..])
  }

  /** `strings.Fields`: the maximal runs of non-space characters, in order. */
  function Fields(s: string): (r: seq<string>)
    ensures forall k :: 0 <= k < |r| ==> IsField(r[k])
    decreases |s|
  {
    if |s| == 0 then []
    else if IsSpace(s[0]) then Fields(s[1..])
    else
      var n := FieldLen(s);
      [s[..n]] + Fields(s[n..])
  }

  /** `strings.Join`. */
  function Join(parts: seq<string>, sep: string): string
  {
    if |parts| == 0 then ""
    else if |parts| == 1 then parts[0]
    else parts[0] + sep + Join(parts[1..], sep)
  }

  lemma {:induction false} FieldLenOfField(t: string, rest: string)
    requires IsField(t)
    requires rest == [] || IsSpace(rest[0])
    ensures FieldLen(t + rest) == |t|
    decreases |t|
  {
    var s := t + rest;
    assert s[0] == t[0];
    if |t| > 1 {
      assert s[1..] == t[1..] + rest;
      FieldLenOfField(t[1..], rest);
    } else {
      assert s[1..] == rest;
    }
  }

  /** A trailing space does not lengthen the leading field. */
  lemma {:induction false} FieldLenTrailingSpace(s: string)
    ensures FieldLen(s + " ") == FieldLen(s)
    decreases |s|
  {
    var t := s + " ";
    if |s| > 0 && !IsSpace(s[0]) {
      assert t[0] == s[0];
      assert t[1..] == s[1..] + " ";
      FieldLenTrailingSpace(s[1..]);
    }
  }

  /** A trailing space adds no field. */
  lemma {:induction false} FieldsTrailingSpace(s: string)
    ensures Fields(s + " ") == Fields(s)
    decreases |s|
  {
    var t := s + " ";
    if |s| == 0 {
      assert t[1..] == [];
    } else if IsSpace(s[0]) {
      assert t[0] == s[0];
      assert t[1..] == s[1..] + " ";
      FieldsTrailingSpace(s[1..]);
    } else {
      var n := FieldLen(s);
      assert t[0] == s[0];
      FieldLenTrailingSpace(s);
      assert t[..n] == s[..n];
      assert t[n..] == s[n..] + " ";
      FieldsTrailingSpace(s[n..]);
    }
  }

  /** Splitting what `Join` glued with single spaces gives the fields back. */
  lemma {:induction false} FieldsOfJoin(ts: seq<string>)
    requires forall k :: 0 <= k < |ts| ==> IsField(ts[k])
    ensures Fields(Join(ts, " ")) == ts
    decreases |ts|
  {
    if |ts| == 0 {
    } else if |ts| == 1 {
      var t := ts[0];
      FieldLenOfField(t, []);
      assert t + [] == t;
      assert t[|t|..] == [];
    } else {
      var t := ts[0];
      var rest := " " + Join(ts[1..], " ");
      var s := Join(ts, " ");
      assert s == t + rest;
      FieldLenOfField(t, rest);
      assert s[0] == t[0];
      assert s[..|t|] == t;
      assert s[|t|..] == rest;
      assert rest[1..] == Join(ts[1..], " ");
      FieldsOfJoin(ts[1..]);
    }
  }

  // ---------------------------------------------------------------------------
  // Decimal numbers

  function DigitChar(d: int): (c: char)
    requires 0 <= d < 10
    ensures IsDigit(c) && c as int - '0' as int == d
  {
    ('0' as int + d) as char
  }

  predicate AllDigits(s: string) {
    |s| > 0 && forall i :: 0 <= i < |s| ==> IsDigit(s[i])
  }

  /** The value of a run of decimal digits, most significant first. */
  function DigitsValue(s: string): nat
    requires forall i :: 0 <= i < |s| ==> IsDigit(s[i])
  {
    if |s| == 0 then 0
    else
      assert IsDigit(s[|s| - 1]);
      DigitsValue(s[..|s| - 1]) * 10 + (s[|s| - 1] as int - '0' as int)
  }

  /** The decimal digits of `n`, without leading zeros. */
  function FormatNat(n: nat): (s: string)
    ensures AllDigits(s)
  {
    if n < 10 then [DigitChar(n)] else FormatNat(n / 10) + [DigitChar(n % 10)]
  }

  /** What `%d` (and `strconv.Itoa`) prints for `n`. */
  function FormatInt(n: int): (s: string)
  {
    if n < 0 then "-" + FormatNat(-n) else FormatNat(n)
  }

  /** `strconv.Atoi` on a 64-bit platform: an optional sign followed by at
      least one decimal digit, whose value must fit in an int64. */
  function ParseInt(s: string): (r: Option<int>)
    ensures r.Some? ==> MinInt64 <= r.value <= MaxInt64
  {
    if |s| == 0 then None
    else
      var negative := s[0] == '-';
      var digits := if s[0] == '-' || s[0] == '+' then s[1..] else s;
      if !AllDigits(digits) then None
      else
        var v: int := if negative then -(DigitsValue(digits) as int) else DigitsValue(digits);
        if MinInt64 <= v <= MaxInt64 then Some(v) else None
  }

  lemma {:induction false} DigitsValueOfFormat(n: nat)
    ensures DigitsValue(FormatNat(n)) == n
  {
    var s := FormatNat(n);
    if n >= 10 {
      DigitsValueOfFormat(n / 10);
      assert s[..|s| - 1] == FormatNat(n / 10);
    }
  }

  /** `strconv.Atoi` reads back what `%d` prints, for every int64. */
  lemma ParseFormat(n: int)
    requires MinInt64 <= n <= MaxInt64
    ensures ParseInt(FormatInt(n)) == Some(n)
  {
    var s := FormatInt(n);
    if n < 0 {
      DigitsValueOfFormat(-n);
      assert s[1..] == FormatNat(-n);
    } else {
      DigitsValueOfFormat(n);
    }
  }

  /** Distinct integers print differently. */
  lemma FormatIntInjective(a: int, b: int)
    ensures FormatInt(a) == FormatInt(b) ==> a == b
  {
    if FormatInt(a) == FormatInt(b) {
      var s := FormatInt(a);
      var da := if a < 0 then -a else a;
      var db := if b < 0 then -b else b;
      DigitsValueOfFormat(da);
      DigitsValueOfFormat(db);
      assert (a < 0) == (s[0] == '-') == (b < 0);
      if a < 0 {
        assert FormatNat(da) == s[1..] == FormatNat(db);
      }
    }
  }
}
