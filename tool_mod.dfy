/**
 * Symbol alias stripping, `base_trim` (src/tool/mod.rs).
 *
 * Exchanges write scaled contracts as "1000XXX" or "1000000XXX"; `base_trim`
 * removes every leading "1000" block and then leading zeros, and, when what
 * is left ends in "000", trailing zeros and then trailing ones. Like Rust's
 * trimming methods, every step is computed as the bounds of a slice of its
 * input, and so is the whole.
 */
module ToolMod {
  import opened Strings

  /** `p` written `k` times. */
  function Repeat(p: string, k: nat): string
  {
    if k == 0 then [] else p + Repeat(p, k - 1)
  }

  /** Length of the prefix of `s` made of whole copies of `p`, as many as `trim_start_matches(p)` removes. */
  function MatchedPrefix(s: string, p: string): (n: nat)
    requires |p| > 0
    ensures n <= |s|
    decreases |s|
  {
    if StartsWith(s, p) then |p| + MatchedPrefix(s[|p|..], p) else 0
  }

  /** Length of the leading run of `c` in `s`. */
  function LeadingRun(s: string, c: char): (n: nat)
    ensures n <= |s|
    decreases |s|
  {
    if |s| > 0 && s[0] == c then 1 + LeadingRun(s[1..], c) else 0
  }

  /** Length of the trailing run of `c` in `s`. */
  function TrailingRun(s: string, c: char): (n: nat)
    ensures n <= |s|
    decreases |s|
  {
    if |s| > 0 && s[|s| - 1] == c then 1 + TrailingRun(s[..|s| - 1], c) else 0
  }

  /** The prefix `MatchedPrefix` measures is whole copies of `p`, and what follows it does not start with `p`. */
  lemma {:induction false} TrimStartMatchesSpec(s: string, p: string)
    requires |p| > 0
    ensures exists k: nat :: s[..MatchedPrefix(s, p)] == Repeat(p, k)
    ensures !StartsWith(s[MatchedPrefix(s, p)..], p)
    decreases |s|
  {
    if StartsWith(s, p) {
      var rest := s[|p|..];
      TrimStartMatchesSpec(rest, p);
      var k: nat :| rest[..MatchedPrefix(rest, p)] == Repeat(p, k);
      assert s[..MatchedPrefix(s, p)] == p + rest[..MatchedPrefix(rest, p)];
      assert s[..MatchedPrefix(s, p)] == Repeat(p, k + 1);
      assert s[MatchedPrefix(s, p)..] == rest[MatchedPrefix(rest, p)..];
    } else {
      assert s[..0] == Repeat(p, 0);
    }
  }

  /** The leading run holds only `c`s, and the character after it is not `c`. */
  lemma {:induction false} TrimStartCharSpec(s: string, c: char)
    ensures forall i :: 0 <= i < LeadingRun(s, c) ==> s[i] == c
    ensures LeadingRun(s, c) < |s| ==> s[LeadingRun(s, c)] != c
    decreases |s|
  {
    if |s| > 0 && s[0] == c {
      TrimStartCharSpec(s[1..], c);
    }
  }

  /** The trailing run holds only `c`s, and the character before it is not `c`. */
  lemma {:induction false} TrimEndCharSpec(s: string, c: char)
    ensures forall i :: |s| - TrailingRun(s, c) <= i < |s| ==> s[i] == c
    ensures TrailingRun(s, c) < |s| ==> s[|s| - TrailingRun(s, c) - 1] != c
    decreases |s|
  {
    if |s| > 0 && s[|s| - 1] == c {
      TrimEndCharSpec(s[..|s| - 1], c);
    }
  }

  /**
   * `trim_start_matches(p)` for a non-empty string pattern: no longer than
   * the input, and no longer starting with `p` (what was removed is whole
   * copies of `p`, `TrimStartMatchesSpec`).
   */
  function TrimStartMatches(s: string, p: string): (r: string)
    requires |p| > 0
    ensures |r| <= |s|
    ensures !StartsWith(r, p)
  {
    TrimStartMatchesSpec(s, p);
    s[MatchedPrefix(s, p)..]
  }

  /** `trim_start_matches(c)`: no longer than the input and not starting with `c` (only `c`s were removed, `TrimStartCharSpec`). */
  function TrimStartChar(s: string, c: char): (r: string)
    ensures |r| <= |s|
    ensures |r| > 0 ==> r[0] != c
  {
    TrimStartCharSpec(s, c);
    s[LeadingRun(s, c)..]
  }

  /** `trim_end_matches(c)`: no longer than the input and not ending in `c` (only `c`s were removed, `TrimEndCharSpec`). */
  function TrimEndChar(s: string, c: char): (r: string)
    ensures |r| <= |s|
    ensures |r| > 0 ==> r[|r| - 1] != c
  {
    TrimEndCharSpec(s, c);
    s[..|s| - TrailingRun(s, c)]
  }

  /** Where the stem starts: after the leading "1000" blocks and the zeros that follow them. */
  function StemStart(base: string): (i: nat)
    ensures i <= |base|
  {
    var m := MatchedPrefix(base, "1000");
    m + LeadingRun(base[m..], '0')
  }

  /** The input with leading "1000" blocks and then leading zeros removed: a suffix that does not start with '0'. */
  function Stem(base: string): (r: string)
    ensures |r| <= |base| && r == base[|base| - |r|..]
    ensures |r| > 0 ==> r[0] != '0'
  {
    var m := MatchedPrefix(base, "1000");
    TrimStartCharSpec(base[m..], '0');
    base[StemStart(base)..]
  }

  /** Where the kept part of a stem ends: before its trailing zeros and the ones before them, when it ends in "000". */
  function TailEnd(ts: string): (j: nat)
    ensures j <= |ts|
  {
    if EndsWith(ts, "000") then
      var t0 := |ts| - TrailingRun(ts, '0');
      t0 - TrailingRun(ts[..t0], '1')
    else |ts|
  }

  /** Where the result of `base_trim` ends. */
  function TrimEnd(base: string): (j: nat)
    ensures StemStart(base) <= j <= |base|
  {
    StemStart(base) + TailEnd(Stem(base))
  }

  /**
   * `base_trim`: a prefix of the stem, so never starting with '0'; when the
   * stem ends in "000" the result does not end in '1' either.
   */
  function BaseTrim(base: string): (r: string)
    ensures |r| <= |Stem(base)| <= |base| && r == Stem(base)[..|r|]
    ensures |r| > 0 ==> r[0] != '0'
    ensures EndsWith(Stem(base), "000") && |r| > 0 ==> r[|r| - 1] != '1'
  {
    TrimHeadIsStem(base);
    TrimTailIsPrefix(Stem(base));
    CutTail(Stem(base));
    var ts := TrimStartChar(TrimStartMatches(base, "1000"), '0');
    if EndsWith(ts, "000") then TrimEndChar(TrimEndChar(ts, '0'), '1') else ts
  }

  /** The end trimming of `base_trim` leaves the stem's prefix up to `TailEnd`. */
  lemma TrimTailIsPrefix(ts: string)
    ensures (if EndsWith(ts, "000") then TrimEndChar(TrimEndChar(ts, '0'), '1') else ts) == ts[..TailEnd(ts)]
  {
    if EndsWith(ts, "000") {
      var t0 := |ts| - TrailingRun(ts, '0');
      assert TrimEndChar(ts, '0') == ts[..t0];
    }
  }

  /** The head trimming of `base_trim` leaves the stem. */
  lemma TrimHeadIsStem(base: string)
    ensures TrimStartChar(TrimStartMatches(base, "1000"), '0') == Stem(base)
  {
  }

  /** The result is the slice of the input from the stem's start to `TrimEnd`. */
  lemma BaseTrimIsSlice(base: string)
    ensures BaseTrim(base) == base[StemStart(base)..TrimEnd(base)]
  {
    TrimHeadIsStem(base);
    TrimTailIsPrefix(Stem(base));
    SliceOfSlice(base, StemStart(base), TailEnd(Stem(base)));
  }

  lemma SliceOfSlice(s: string, i: nat, n: nat)
    requires i + n <= |s|
    ensures s[i..][..n] == s[i..i + n]
  {
  }

  /** A stem that does not end in "000" is returned whole. */
  lemma BaseTrimKeepsStem(base: string)
    requires !EndsWith(Stem(base), "000")
    ensures BaseTrim(base) == Stem(base)
  {
    BaseTrimIsSlice(base);
  }

  /**
   * A stem ending in "000" loses its trailing zeros and then its trailing
   * ones, and nothing more: the result does not end in '1', and everything
   * cut from the stem is made of '1's and '0's.
   */
  lemma BaseTrimCutsTail(base: string)
    requires EndsWith(Stem(base), "000")
    ensures |BaseTrim(base)| > 0 ==> BaseTrim(base)[|BaseTrim(base)| - 1] != '1'
    ensures forall i :: TrimEnd(base) <= i < |base| ==> base[i] == '0' || base[i] == '1'
  {
    BaseTrimIsSlice(base);
    CutTail(Stem(base));
    ShiftTail(base, StemStart(base), TailEnd(Stem(base)));
  }

  /** On a stem ending in "000", cutting trailing zeros and then trailing ones removes only those and stops before a '1'. */
  lemma CutTail(ts: string)
    ensures EndsWith(ts, "000") && TailEnd(ts) > 0 ==> ts[TailEnd(ts) - 1] != '1'
    ensures EndsWith(ts, "000") ==> forall i :: TailEnd(ts) <= i < |ts| ==> ts[i] == '0' || ts[i] == '1'
  {
    if EndsWith(ts, "000") {
      var t0 := |ts| - TrailingRun(ts, '0');
      TrimEndCharSpec(ts, '0');
      TrimEndCharSpec(ts[..t0], '1');
      assert forall i :: 0 <= i < t0 ==> ts[..t0][i] == ts[i];
    }
  }

  /** What holds of the tail of `base[s..]` from `j` on holds of `base` from `s + j` on. */
  lemma ShiftTail(base: string, s: nat, j: nat)
    requires s + j <= |base|
    requires j > 0 ==> base[s..][j - 1] != '1'
    requires forall i :: j <= i < |base| - s ==> base[s..][i] == '0' || base[s..][i] == '1'
    ensures j > 0 ==> base[s..s + j][j - 1] != '1'
    ensures forall i :: s + j <= i < |base| ==> base[i] == '0' || base[i] == '1'
  {
    forall i | s + j <= i < |base|
      ensures base[i] == '0' || base[i] == '1'
    {
      assert base[i] == base[s..][i - s];
    }
  }

  /** A string that does not start with '1' holds no "1000" block. */
  lemma NoBlock(s: string)
    requires |s| > 0 && s[0] != '1'
    ensures MatchedPrefix(s, "1000") == 0
  {
    if |s| >= 4 {
      assert s[..4][0] != "1000"[0];
    }
  }

  /** A leading `c` adds one to the leading run of `c`. */
  lemma LeadingRunCons(c: char, t: string)
    ensures LeadingRun([c] + t, c) == 1 + LeadingRun(t, c)
  {
    assert ([c] + t)[1..] == t;
  }

  /** A trailing `c` adds one to the trailing run of `c`. */
  lemma TrailingRunSnoc(t: string, c: char)
    ensures TrailingRun(t + [c], c) == TrailingRun(t, c) + 1
  {
    assert (t + [c])[..|t|] == t;
  }

  /** A symbol with no leading '0' or "1000" and no trailing "000" is returned unchanged. */
  lemma BaseTrimKeepsPlain(x: string)
    requires |x| > 0 && x[0] != '0' && !StartsWith(x, "1000") && !EndsWith(x, "000")
    ensures BaseTrim(x) == x
  {
    assert StemStart(x) == 0;
    BaseTrimIsSlice(x);
  }

  /**
   * Such a symbol behind "1000", "10000" or "1000000" comes back bare: one
   * block is stripped, then the zeros that follow it.
   */
  lemma BaseTrimStripsScale(x: string)
    requires |x| > 0 && x[0] != '0' && x[0] != '1' && !EndsWith(x, "000")
    ensures BaseTrim("1000" + x) == x
    ensures BaseTrim("10000" + x) == x
    ensures BaseTrim("1000000" + x) == x
  {
    var z1 := ['0'] + x;
    var z2 := ['0'] + z1;
    var z3 := ['0'] + z2;
    NoBlock(x);
    NoBlock(z1);
    NoBlock(z3);
    LeadingRunCons('0', x);
    LeadingRunCons('0', z1);
    LeadingRunCons('0', z2);
    var s0, s1, s3 := "1000" + x, "1000" + z1, "1000" + z3;
    assert s0[..4] == "1000" && s0[4..] == x;
    assert s1[..4] == "1000" && s1[4..] == z1;
    assert s3[..4] == "1000" && s3[4..] == z3;
    assert StemStart(s0) == 4 && StemStart(s1) == 5 && StemStart(s3) == 7;
    assert Stem(s0) == x && Stem(s1) == x && Stem(s3) == x;
    BaseTrimIsSlice(s0);
    BaseTrimIsSlice(s1);
    BaseTrimIsSlice(s3);
    ScaleSpellings(x);
  }

  /** The scale prefixes written as a block followed by zeros. */
  lemma ScaleSpellings(x: string)
    ensures "1000" + (['0'] + x) == "10000" + x
    ensures "1000" + (['0'] + (['0'] + (['0'] + x))) == "1000000" + x
  {
  }

  /** "1000XXXUSDT" is stripped to "XXXUSDT". */
  lemma BaseTrimThousand()
    ensures BaseTrim("1000XXXUSDT") == "XXXUSDT"
  {
    var x := "XXXUSDT";
    assert "1000" + x == "1000XXXUSDT";
    assert x[|x| - 3..][2] == 'T';
    BaseTrimStripsScale(x);
  }

  /** "10000XXXUSDT" is stripped to "XXXUSDT". */
  lemma BaseTrimTenThousand()
    ensures BaseTrim("10000XXXUSDT") == "XXXUSDT"
  {
    var x := "XXXUSDT";
    assert "10000" + x == "10000XXXUSDT";
    assert x[|x| - 3..][2] == 'T';
    BaseTrimStripsScale(x);
  }

  /** "1000000XXXUSDT" is stripped to "XXXUSDT". */
  lemma BaseTrimMillion()
    ensures BaseTrim("1000000XXXUSDT") == "XXXUSDT"
  {
    var x := "XXXUSDT";
    assert "1000000" + x == "1000000XXXUSDT";
    assert x[|x| - 3..][2] == 'T';
    BaseTrimStripsScale(x);
  }

  /** "1MXXXUSDT" matches no rule and comes back unchanged. */
  lemma BaseTrimKeepsMillionAlias()
    ensures BaseTrim("1MXXXUSDT") == "1MXXXUSDT"
  {
    var m := "1MXXXUSDT";
    assert m[..4][1] == 'M' && m[|m| - 3..][2] == 'T';
    BaseTrimKeepsPlain(m);
  }

  /** A symbol starting with a character other than '0' and then another one has its stem from the start. */
  lemma StemStartPlain(s: string)
    requires |s| > 1 && s[0] != '0' && s[1] != '0'
    ensures StemStart(s) == 0
  {
    if |s| >= 4 {
      assert s[..4][1] != "1000"[1];
    }
  }

  /** "1M0000XXXUSDT10000" only loses its trailing zeros and the '1' before them. */
  lemma BaseTrimMillionAliasSuffix()
    ensures BaseTrim("1M0000XXXUSDT10000") == "1M0000XXXUSDT"
  {
    var x := "1M0000XXXUSDT";
    var s := x + "10000";
    assert s == "1M0000XXXUSDT10000";
    StemStartPlain(s);
    assert x[|x| - 1] == 'T';
    TailEndOneZeros(x);
    BaseTrimIsSlice(s);
    assert s[0..|x|] == x;
  }

  /** A stem of four zeros in front of a symbol that does not start with '0' starts after them. */
  lemma ZerosStemStart(x: string)
    requires |x| > 0 && x[0] != '0'
    ensures StemStart("0000" + x) == 4
  {
    var z1 := ['0'] + x;
    var z2 := ['0'] + z1;
    var z3 := ['0'] + z2;
    var z4 := ['0'] + z3;
    assert z4 == "0000" + x;
    NoBlock(z4);
    LeadingRunCons('0', x);
    LeadingRunCons('0', z1);
    LeadingRunCons('0', z2);
    LeadingRunCons('0', z3);
    assert z4[0..] == z4;
  }

  /** A symbol followed by "10000" keeps only the symbol when the end is trimmed. */
  lemma TailEndOneZeros(x: string)
    requires |x| > 0 && x[|x| - 1] != '0' && x[|x| - 1] != '1'
    ensures TailEnd(x + "10000") == |x|
  {
    var d := x + ['1'];
    var c := d + ['0'];
    var b := c + ['0'];
    var a := b + ['0'];
    var t := a + ['0'];
    assert t == x + "10000";
    TrailingRunSnoc(x, '1');
    TrailingRunSnoc(d, '0');
    TrailingRunSnoc(c, '0');
    TrailingRunSnoc(b, '0');
    TrailingRunSnoc(a, '0');
    assert TrailingRun(d, '0') == 0;
    assert t[|t| - 3..] == "000";
    assert t[..|t| - 4] == d;
    assert TrailingRun(x, '1') == 0;
    assert TrailingRun(d, '1') == 1;
  }

  /**
   * `base_trim` with the "1M" alias the tests of src/lib.rs expect: a
   * leading "1M" is removed before the other rules apply.
   */
  function BaseTrimWithAlias(base: string): (r: string)
    ensures |r| <= |base|
    ensures |r| > 0 ==> r[0] != '0'
  {
    if StartsWith(base, "1M") then BaseTrim(base[2..]) else BaseTrim(base)
  }

  /** The alias rule changes nothing for symbols without the "1M" prefix. */
  lemma BaseTrimWithAliasSpec(x: string)
    ensures !StartsWith(x, "1M") ==> BaseTrimWithAlias(x) == BaseTrim(x)
  {
  }

  /** A leading "1M" is stripped before `base_trim` runs. */
  lemma StripAlias(x: string)
    ensures BaseTrimWithAlias("1M" + x) == BaseTrim(x)
  {
    var m := "1M" + x;
    assert m[..2] == "1M" && m[2..] == x;
  }

  /** A symbol whose second character is not 'M' is not an alias. */
  lemma NotAlias(x: string)
    requires |x| > 1 && x[1] != 'M'
    ensures BaseTrimWithAlias(x) == BaseTrim(x)
  {
    assert x[..2][1] != "1M"[1];
  }

  /** A symbol that neither starts nor ends with a '0' or a '1', as "XXXUSDT" in the tests of src/lib.rs. */
  predicate PlainSymbol(x: string)
  {
    |x| > 0 && x[0] != '0' && x[0] != '1' && x[|x| - 1] != '0' && x[|x| - 1] != '1'
  }

  /** PlainSymbol rules out the scale block in front and the zeros behind. */
  lemma PlainSymbolKept(x: string)
    requires PlainSymbol(x)
    ensures x[0] != '0' && !StartsWith(x, "1000") && !EndsWith(x, "000")
  {
    if |x| >= 4 {
      assert x[..4][0] != "1000"[0];
    }
    if |x| >= 3 {
      assert x[|x| - 3..][2] != "000"[2];
    }
  }

  /** A symbol `base_trim` maps to `x` and whose second character is not 'M' is mapped to `x` with the alias rule too. */
  lemma NotAliasTrims(s: string, x: string)
    requires |s| > 1 && s[1] != 'M' && BaseTrim(s) == x
    ensures BaseTrimWithAlias(s) == x
  {
    NotAlias(s);
  }

  /** src/lib.rs:14: the alias rule leaves a thousand-scaled symbol to `base_trim`, which strips it. */
  lemma AliasThousand(x: string)
    requires PlainSymbol(x)
    ensures BaseTrimWithAlias("1000" + x) == x
  {
    PlainSymbolKept(x);
    BaseTrimStripsScale(x);
    NotAliasTrims("1000" + x, x);
  }

  /** src/lib.rs:15: the same for a symbol scaled by ten thousand. */
  lemma AliasTenThousand(x: string)
    requires PlainSymbol(x)
    ensures BaseTrimWithAlias("10000" + x) == x
  {
    PlainSymbolKept(x);
    BaseTrimStripsScale(x);
    NotAliasTrims("10000" + x, x);
  }

  /** src/lib.rs:16: the same for a symbol scaled by a million. */
  lemma AliasMillion(x: string)
    requires PlainSymbol(x)
    ensures BaseTrimWithAlias("1000000" + x) == x
  {
    PlainSymbolKept(x);
    BaseTrimStripsScale(x);
    NotAliasTrims("1000000" + x, x);
  }

  /** src/lib.rs:17-18: "1M" alone, and "1M" before a scale block, leave the bare symbol. */
  lemma AliasBare(x: string)
    requires PlainSymbol(x)
    ensures BaseTrimWithAlias("1M" + x) == x
    ensures BaseTrimWithAlias("1M10000" + x) == x
  {
    PlainSymbolKept(x);
    BaseTrimKeepsPlain(x);
    StripAlias(x);
    AliasSpellings(x);
    StripAlias("10000" + x);
    BaseTrimStripsScale(x);
  }

  /** src/lib.rs:19-20: "1M" before zeros, and with a scale suffix as well, leave the bare symbol. */
  lemma AliasZeros(x: string)
    requires PlainSymbol(x)
    ensures BaseTrimWithAlias("1M0000" + x) == x
    ensures BaseTrimWithAlias("1M0000" + x + "10000") == x
  {
    PlainSymbolKept(x);
    var z := "0000" + x;
    AliasSpellings(x);
    StripAlias(z);
    ZerosStemStart(x);
    assert Stem(z) == x;
    BaseTrimKeepsStem(z);
    AliasZerosSuffix(x);
  }

  /** Zeros in front and "10000" behind a plain symbol are both trimmed. */
  lemma ZerosScaledTrim(x: string)
    requires PlainSymbol(x)
    ensures BaseTrim("0000" + (x + "10000")) == x
  {
    var y := x + "10000";
    var zy := "0000" + y;
    ZerosStemStart(y);
    assert Stem(zy) == y;
    TailEndOneZeros(x);
    BaseTrimIsSlice(zy);
    assert zy[4..4 + |x|] == x;
  }

  lemma AliasZerosSuffix(x: string)
    requires PlainSymbol(x)
    ensures BaseTrimWithAlias("1M0000" + x + "10000") == x
  {
    var zy := "0000" + (x + "10000");
    ZerosScaledTrim(x);
    AliasSpellings(x);
    StripAlias(zy);
  }

  /** The alias tests' symbols written as "1M" followed by the rest. */
  lemma AliasSpellings(x: string)
    ensures "1M0000" + x == "1M" + ("0000" + x)
    ensures "1M0000" + x + "10000" == "1M" + ("0000" + (x + "10000"))
    ensures "1M10000" + x == "1M" + ("10000" + x)
  {
  }
}
