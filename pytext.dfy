/** The Python string and dictionary built-ins the system relies on, written
    out with their Python semantics: case mapping, substring test, `str.replace`
    and `str.split` with a separator, `str(int)` and `int(str)`, the index
    clamping of slices, and `os.getenv` over an environment given as a map. */
module PyText {
  import opened Wrappers

  // ---------------------------------------------------------------------------
  // Case mapping (ASCII letters only)
  // ---------------------------------------------------------------------------

  function LowerChar(c: char): char {
    if 'A' <= c <= 'Z' then (c as int + 32) as char else c
  }

  function UpperChar(c: char): char {
    if 'a' <= c <= 'z' then (c as int - 32) as char else c
  }

  /** `s.lower()` */
  function Lower(s: string): string {
    seq(|s|, i requires 0 <= i < |s| => LowerChar(s[i]))
  }

  /** `s.upper()` */
  function Upper(s: string): string {
    seq(|s|, i requires 0 <= i < |s| => UpperChar(s[i]))
  }

  /** Upper-casing ignores an earlier lower-casing. */
  lemma UpperOfLower(s: string)
    ensures Upper(Lower(s)) == Upper(s)
  {
    forall i | 0 <= i < |s| ensures Upper(Lower(s))[i] == Upper(s)[i] {
      assert Lower(s)[i] == LowerChar(s[i]);
    }
  }

  // ---------------------------------------------------------------------------
  // Substrings
  // ---------------------------------------------------------------------------

  lemma ConcatAssoc(x: string, y: string, z: string)
    ensures (x + y) + z == x + (y + z)
  {
  }

  /** `p` occurs in `s` at offset `i`. */
  predicate OccursAt(s: string, p: string, i: int) {
    0 <= i && i + |p| <= |s| && s[i..i + |p|] == p
  }

  /** `s.startswith(p)` */
  predicate StartsWith(s: string, p: string) {
    |p| <= |s| && s[..|p|] == p
  }

  /** `p in s` */
  predicate Contains(s: string, p: string) {
    exists i :: 0 <= i <= |s| - |p| && OccursAt(s, p, i)
  }

  lemma ContainsWitness(s: string, p: string, i: int)
    requires OccursAt(s, p, i)
    ensures Contains(s, p)
  {
  }

  /** A string contains whatever is placed inside it. */
  lemma ContainsMiddle(a: string, p: string, b: string)
    ensures Contains(a + p + b, p)
  {
    assert (a + p + b)[|a|..|a| + |p|] == p;
    ContainsWitness(a + p + b, p, |a|);
  }

  /** Each of three strings placed between fixed pieces occurs in the
      result. */
  lemma ContainsEachOfThree(p0: string, x: string, p1: string, y: string, p2: string, z: string, p3: string)
    ensures var s := p0 + x + p1 + y + p2 + z + p3;
            Contains(s, x) && Contains(s, y) && Contains(s, z)
  {
    var s := p0 + x + p1 + y + p2 + z + p3;
    assert s == p0 + x + (p1 + y + p2 + z + p3);
    ContainsMiddle(p0, x, p1 + y + p2 + z + p3);
    assert s == (p0 + x + p1) + y + (p2 + z + p3);
    ContainsMiddle(p0 + x + p1, y, p2 + z + p3);
    assert s == (p0 + x + p1 + y + p2) + z + p3;
    ContainsMiddle(p0 + x + p1 + y + p2, z, p3);
  }

  /** An occurrence in a tail is an occurrence in the whole string. */
  lemma ContainsInTail(s: string, p: string, k: nat)
    requires k <= |s| && Contains(s[k..], p)
    ensures Contains(s, p)
  {
    var i :| 0 <= i <= |s[k..]| - |p| && OccursAt(s[k..], p, i);
    assert s[k + i..k + i + |p|] == s[k..][i..i + |p|];
    ContainsWitness(s, p, k + i);
  }

  // ---------------------------------------------------------------------------
  // str.split(sep), sep.join(parts) and str.replace(pat, rep)
  // ---------------------------------------------------------------------------

  /** `s.split(sep)` for a non-empty separator: the pieces between the
      occurrences of `sep` found by a left-to-right scan. The first piece is a
      prefix of `s`. */
  function Split(s: string, sep: string): (parts: seq<string>)
    requires sep != []
    ensures |parts| >= 1
    ensures |parts[0]| <= |s| && parts[0] == s[..|parts[0]|]
    decreases |s|
  {
    if |s| < |sep| then [s]
    else if s[..|sep|] == sep then [[]] + Split(s[|sep|..], sep)
    else
      var rest := Split(s[1..], sep);
      [[s[0]] + rest[0]] + rest[1..]
  }

  /** `sep.join(parts)` */
  function Join(parts: seq<string>, sep: string): string
    requires |parts| >= 1
    decreases |parts|
  {
    if |parts| == 1 then parts[0] else parts[0] + sep + Join(parts[1..], sep)
  }

  /** `s.replace(pat, rep)`: every occurrence of `pat` found by a left-to-right
      scan is replaced by `rep`. For an empty `pat`, Python inserts `rep` before
      every character and at the end. */
  function ReplaceAll(s: string, pat: string, rep: string): string
    decreases |s|
  {
    if pat == [] then
      (if s == [] then rep else rep + [s[0]] + ReplaceAll(s[1..], pat, rep))
    else if |s| < |pat| then s
    else if s[..|pat|] == pat then rep + ReplaceAll(s[|pat|..], pat, rep)
    else [s[0]] + ReplaceAll(s[1..], pat, rep)
  }

  lemma JoinExtendFirst(c: char, parts: seq<string>, sep: string)
    requires |parts| >= 1
    ensures Join([[c] + parts[0]] + parts[1..], sep) == [c] + Join(parts, sep)
  {
    var q := [[c] + parts[0]] + parts[1..];
    assert q[1..] == parts[1..];
  }

  /** Joining the pieces of a split with the separator gives the string back. */
  lemma {:induction false} SplitJoin(s: string, sep: string)
    requires sep != []
    ensures Join(Split(s, sep), sep) == s
    decreases |s|
  {
    if |s| < |sep| {
    } else if s[..|sep|] == sep {
      var rest := Split(s[|sep|..], sep);
      var parts := [[]] + rest;
      assert Split(s, sep) == parts;
      assert parts[0] == [] && parts[1..] == rest;
      SplitJoin(s[|sep|..], sep);
      assert Join(parts, sep) == [] + sep + Join(rest, sep);
      assert [] + sep == sep;
      assert s == sep + s[|sep|..];
    } else {
      var rest := Split(s[1..], sep);
      assert Split(s, sep) == [[s[0]] + rest[0]] + rest[1..];
      SplitJoin(s[1..], sep);
      JoinExtendFirst(s[0], rest, sep);
      assert s == [s[0]] + s[1..];
    }
  }

  /** No piece of a split contains the separator: the scan misses no
      occurrence. */
  lemma {:induction false} SplitPiecesFree(s: string, sep: string, k: nat)
    requires sep != [] && k < |Split(s, sep)|
    ensures !Contains(Split(s, sep)[k], sep)
    decreases |s|
  {
    var parts := Split(s, sep);
    if |s| < |sep| {
    } else if s[..|sep|] == sep {
      var rest := Split(s[|sep|..], sep);
      assert parts == [[]] + rest;
      if k > 0 {
        assert parts[k] == rest[k - 1];
        SplitPiecesFree(s[|sep|..], sep, k - 1);
      } else {
        assert parts[0] == [];
      }
    } else {
      var rest := Split(s[1..], sep);
      assert parts == [[s[0]] + rest[0]] + rest[1..];
      if k > 0 {
        assert parts[k] == rest[k];
        SplitPiecesFree(s[1..], sep, k);
      } else {
        var p := parts[0];
        SplitPiecesFree(s[1..], sep, 0);
        if |sep| <= |p| {
          assert p[..|sep|] == s[..|sep|];
        }
        ConsKeepsFree(s[0], rest[0], sep);
      }
    }
  }

  /** Putting a character in front of a string without `sep` creates an
      occurrence only at the front. */
  lemma ConsKeepsFree(c: char, r: string, sep: string)
    requires sep != [] && !Contains(r, sep) && !OccursAt([c] + r, sep, 0)
    ensures !Contains([c] + r, sep)
  {
    var p := [c] + r;
    if Contains(p, sep) {
      var i :| 0 <= i <= |p| - |sep| && OccursAt(p, sep, i);
      assert r[i - 1..i - 1 + |sep|] == p[i..i + |sep|];
      ContainsWitness(r, sep, i - 1);
    }
  }

  /** `s.replace(pat, rep) == rep.join(s.split(pat))`: the replacement puts
      `rep` exactly where the split found `pat`, and only there. */
  lemma {:induction false} ReplaceIsJoinOfSplit(s: string, pat: string, rep: string)
    requires pat != []
    ensures ReplaceAll(s, pat, rep) == Join(Split(s, pat), rep)
    decreases |s|
  {
    if |s| < |pat| {
    } else if s[..|pat|] == pat {
      var rest := Split(s[|pat|..], pat);
      ReplaceIsJoinOfSplit(s[|pat|..], pat, rep);
      assert ([[]] + rest)[1..] == rest;
    } else {
      ReplaceIsJoinOfSplit(s[1..], pat, rep);
      JoinExtendFirst(s[0], Split(s[1..], pat), rep);
    }
  }

  /** A string without an occurrence of `pat` is left unchanged. */
  lemma {:induction false} ReplaceAbsent(s: string, pat: string, rep: string)
    requires pat != [] && !Contains(s, pat)
    ensures ReplaceAll(s, pat, rep) == s
    decreases |s|
  {
    if |s| < |pat| {
    } else {
      if s[..|pat|] == pat {
        ContainsWitness(s, pat, 0);
      }
      if Contains(s[1..], pat) {
        ContainsInTail(s, pat, 1);
      }
      ReplaceAbsent(s[1..], pat, rep);
      assert s == [s[0]] + s[1..];
    }
  }

  // ---------------------------------------------------------------------------
  // str(int)
  // ---------------------------------------------------------------------------

  function DigitChar(d: nat): char
    requires d < 10
  {
    (48 + d) as char
  }

  /** `str(n)` for a non-negative integer: its decimal digits. */
  function NatToStr(n: nat): (r: string)
    ensures |r| >= 1
    decreases n
  {
    if n < 10 then [DigitChar(n)] else NatToStr(n / 10) + [DigitChar(n % 10)]
  }

  /** `str(i)` */
  function IntToStr(i: int): string {
    if i < 0 then "-" + NatToStr(-i) else NatToStr(i)
  }

  /** Different numbers have different decimal representations. */
  lemma {:induction false} NatToStrInjective(a: nat, b: nat)
    requires NatToStr(a) == NatToStr(b)
    ensures a == b
    decreases a
  {
    var ra, rb := NatToStr(a), NatToStr(b);
    if a < 10 || b < 10 {
    } else {
      assert ra[|ra| - 1] == DigitChar(a % 10);
      assert rb[|rb| - 1] == DigitChar(b % 10);
      assert ra[..|ra| - 1] == NatToStr(a / 10);
      assert rb[..|rb| - 1] == NatToStr(b / 10);
      NatToStrInjective(a / 10, b / 10);
    }
  }

  // ---------------------------------------------------------------------------
  // int(str)
  // ---------------------------------------------------------------------------

  predicate IsDigit(c: char) {
    '0' <= c <= '9'
  }

  predicate AllDigits(s: string) {
    forall i :: 0 <= i < |s| ==> IsDigit(s[i])
  }

  /** The number a string of decimal digits denotes. */
  function DigitsValue(s: string): nat
    requires AllDigits(s)
  {
    if s == [] then 0
    else
      assert IsDigit(s[|s| - 1]);
      DigitsValue(s[..|s| - 1]) * 10 + (s[|s| - 1] as int - 48)
  }

  /** An integer literal: an optional sign followed by at least one decimal
      digit. */
  function ParseInt(s: string): (r: Option<int>)
    ensures r.Some? <==> (s != [] && AllDigits(s)) ||
                         (|s| >= 2 && (s[0] == '-' || s[0] == '+') && AllDigits(s[1..]))
  {
    if s != [] && AllDigits(s) then Some(DigitsValue(s))
    else if |s| >= 2 && (s[0] == '-' || s[0] == '+') && AllDigits(s[1..]) then
      var magnitude: int := DigitsValue(s[1..]);
      Some(if s[0] == '-' then -magnitude else magnitude)
    else None
  }

  /** Reading back what `str` writes gives the number again. */
  lemma ParseIntToStr(i: int)
    ensures ParseInt(IntToStr(i)) == Some(i)
  {
    if i < 0 {
      var d := NatToStr(-i);
      NatToStrDigits(-i);
      assert ("-" + d)[1..] == d;
      assert !AllDigits("-" + d) by { assert ("-" + d)[0] == '-'; }
    } else {
      NatToStrDigits(i);
    }
  }

  lemma {:induction false} NatToStrDigits(n: nat)
    ensures AllDigits(NatToStr(n)) && DigitsValue(NatToStr(n)) == n
    decreases n
  {
    if n >= 10 {
      NatToStrDigits(n / 10);
      var r := NatToStr(n);
      assert r[..|r| - 1] == NatToStr(n / 10);
    }
  }

  // ---------------------------------------------------------------------------
  // Slices and the environment
  // ---------------------------------------------------------------------------

  /** The position a slice bound `i` denotes in a sequence of length `n`:
      a negative bound counts from the end, and both ends are clamped. */
  function SliceIndex(i: int, n: nat): (k: nat)
    ensures k <= n
  {
    if i < 0 then (if i + n < 0 then 0 else i + n) else if i > n then n else i
  }

  /** `os.getenv(name, default)` */
  function GetEnv(env: map<string, string>, name: string, default: string): string {
    if name in env then env[name] else default
  }

  /** `bool(os.getenv(name))`: the variable is set and not empty. */
  predicate EnvSet(env: map<string, string>, name: string) {
    name in env && env[name] != ""
  }
}
