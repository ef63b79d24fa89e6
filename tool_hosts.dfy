/**
 * Host lists (src/tool/hosts.rs).
 *
 * `split_txt` first tries the text as a JSON array of strings; parsing JSON
 * is the parameter `parseJson`. Otherwise the text is split on ASCII
 * whitespace, each piece is trimmed of Unicode whitespace and empty pieces
 * are dropped. `load_host_file` only chooses where the text comes from.
 */
module ToolHosts {
  import opened Wrappers
  import opened Strings

  /** `u8::is_ascii_whitespace`: space, tab, line feed, form feed, carriage return (not vertical tab). */
  predicate IsAsciiWs(c: char)
  {
    c == ' ' || c == '\t' || c == '\n' || c as int == 0x0C || c == '\r'
  }

  /** `char::is_whitespace`: the Unicode White_Space property. */
  predicate IsUnicodeWs(c: char)
  {
    var n := c as int;
    (0x09 <= n <= 0x0D) || n == 0x20 || n == 0x85 || n == 0xA0 || n == 0x1680
    || (0x2000 <= n <= 0x200A) || n == 0x2028 || n == 0x2029 || n == 0x202F
    || n == 0x205F || n == 0x3000
  }

  predicate NoAsciiWs(t: string)
  {
    forall i :: 0 <= i < |t| ==> !IsAsciiWs(t[i])
  }

  /** Length of the run of non-whitespace characters that starts `s`. */
  function WordLength(s: string): (n: nat)
    ensures n <= |s|
    ensures forall i :: 0 <= i < n ==> !IsAsciiWs(s[i])
    ensures n < |s| ==> IsAsciiWs(s[n])
    decreases |s|
  {
    if |s| == 0 || IsAsciiWs(s[0]) then 0 else 1 + WordLength(s[1..])
  }

  /** `split_ascii_whitespace`: the maximal runs without ASCII whitespace, in order. */
  function SplitAsciiWhitespace(s: string): (r: seq<string>)
    ensures forall k :: 0 <= k < |r| ==> |r[k]| > 0 && NoAsciiWs(r[k])
    decreases |s|
  {
    if |s| == 0 then []
    else if IsAsciiWs(s[0]) then SplitAsciiWhitespace(s[1..])
    else
      var w := WordLength(s);
      [s[..w]] + SplitAsciiWhitespace(s[w..])
  }

  /** The pieces written one after another. */
  function Concat(ts: seq<string>): string
    decreases |ts|
  {
    if |ts| == 0 then [] else ts[0] + Concat(ts[1..])
  }

  /** `s` with every ASCII whitespace character taken out. */
  function RemoveAsciiWs(s: string): string
    decreases |s|
  {
    if |s| == 0 then []
    else (if IsAsciiWs(s[0]) then [] else [s[0]]) + RemoveAsciiWs(s[1..])
  }

  lemma {:induction false} RemoveAsciiWsOfWord(a: string, b: string)
    requires NoAsciiWs(a)
    ensures RemoveAsciiWs(a + b) == a + RemoveAsciiWs(b)
    decreases |a|
  {
    if |a| > 0 {
      assert (a + b)[1..] == a[1..] + b;
      RemoveAsciiWsOfWord(a[1..], b);
    } else {
      assert a + b == b;
    }
  }

  /** Splitting keeps every non-whitespace character, in order, and nothing else. */
  lemma {:induction false} SplitKeepsText(s: string)
    ensures Concat(SplitAsciiWhitespace(s)) == RemoveAsciiWs(s)
    decreases |s|
  {
    if |s| > 0 {
      if IsAsciiWs(s[0]) {
        SplitKeepsText(s[1..]);
      } else {
        var w := WordLength(s);
        var ts := SplitAsciiWhitespace(s);
        SplitKeepsText(s[w..]);
        assert ts[0] == s[..w] && ts[1..] == SplitAsciiWhitespace(s[w..]);
        assert s == s[..w] + s[w..];
        RemoveAsciiWsOfWord(s[..w], s[w..]);
      }
    }
  }

  /** Words joined by single spaces.  */
  function JoinSpaced(ts: seq<string>): string
    decreases |ts|
  {
    if |ts| == 0 then [] else if |ts| == 1 then ts[0] else ts[0] + " " + JoinSpaced(ts[1..])
  }

  lemma {:induction false} WordLengthOfWord(t: string, rest: string)
    requires NoAsciiWs(t)
    requires |rest| == 0 || IsAsciiWs(rest[0])
    ensures WordLength(t + rest) == |t|
    decreases |t|
  {
    if |t| > 0 {
      assert (t + rest)[1..] == t[1..] + rest;
      WordLengthOfWord(t[1..], rest);
    } else {
      assert t + rest == rest;
    }
  }

  /** Splitting undoes joining: non-empty words without whitespace come back exactly. */
  lemma {:induction false} SplitJoinRoundTrip(ts: seq<string>)
    requires forall k :: 0 <= k < |ts| ==> |ts[k]| > 0 && NoAsciiWs(ts[k])
    ensures SplitAsciiWhitespace(JoinSpaced(ts)) == ts
    decreases |ts|
  {
    if |ts| == 1 {
      WordLengthOfWord(ts[0], []);
      assert ts[0] + [] == ts[0];
      assert JoinSpaced(ts)[|ts[0]|..] == [];
    } else if |ts| > 1 {
      var t := ts[0];
      var rest := JoinSpaced(ts[1..]);
      var s := JoinSpaced(ts);
      assert s == t + (" " + rest);
      WordLengthOfWord(t, " " + rest);
      assert s[..|t|] == t;
      assert s[|t|..] == " " + rest;
      assert (" " + rest)[1..] == rest;
      SplitJoinRoundTrip(ts[1..]);
      assert ts == [t] + ts[1..];
    }
  }

  /** Text made only of ASCII whitespace splits into nothing. */
  lemma {:induction false} SplitOfWhitespace(s: string)
    requires forall i :: 0 <= i < |s| ==> IsAsciiWs(s[i])
    ensures SplitAsciiWhitespace(s) == []
    decreases |s|
  {
    if |s| > 0 {
      SplitOfWhitespace(s[1..]);
    }
  }

  /** Number of Unicode whitespace characters that start `t`. */
  function LeadingWs(t: string): (n: nat)
    ensures n <= |t|
    ensures forall i :: 0 <= i < n ==> IsUnicodeWs(t[i])
    ensures n < |t| ==> !IsUnicodeWs(t[n])
    decreases |t|
  {
    if |t| == 0 || !IsUnicodeWs(t[0]) then 0 else 1 + LeadingWs(t[1..])
  }

  /** Number of Unicode whitespace characters that end `t`. */
  function TrailingWs(t: string): (n: nat)
    ensures n <= |t|
    ensures forall i :: |t| - n <= i < |t| ==> IsUnicodeWs(t[i])
    ensures n < |t| ==> !IsUnicodeWs(t[|t| - 1 - n])
    decreases |t|
  {
    if |t| == 0 || !IsUnicodeWs(t[|t| - 1]) then 0 else 1 + TrailingWs(t[..|t| - 1])
  }

  /** `str::trim`: the slice left after dropping Unicode whitespace at both ends. */
  function Trim(t: string): string
  {
    var u := t[LeadingWs(t)..];
    u[..|u| - TrailingWs(u)]
  }

  /** A trimmed piece is a slice of the piece that neither starts nor ends with whitespace. */
  lemma TrimSpec(t: string)
    ensures exists a, b :: 0 <= a <= b <= |t| && Trim(t) == t[a..b]
    ensures |Trim(t)| > 0 ==> !IsUnicodeWs(Trim(t)[0]) && !IsUnicodeWs(Trim(t)[|Trim(t)| - 1])
    ensures (forall i :: 0 <= i < |t| ==> IsUnicodeWs(t[i])) ==> Trim(t) == []
    ensures |t| > 0 && !IsUnicodeWs(t[0]) && !IsUnicodeWs(t[|t| - 1]) ==> Trim(t) == t
  {
    var a := LeadingWs(t);
    var u := t[a..];
    var b := a + |u| - TrailingWs(u);
    assert Trim(t) == t[a..b];
  }

  /** A trimmed piece of a word has no ASCII whitespace either. */
  lemma TrimKeepsNoAsciiWs(t: string)
    requires NoAsciiWs(t)
    ensures NoAsciiWs(Trim(t))
  {
    TrimSpec(t);
    var a, b :| 0 <= a <= b <= |t| && Trim(t) == t[a..b];
    assert forall i :: 0 <= i < |Trim(t)| ==> Trim(t)[i] == t[a + i];
  }

  /** `.map(|s| s.trim()).filter(|s| !s.is_empty())`. */
  function TrimNonEmpty(ts: seq<string>): seq<string>
    decreases |ts|
  {
    if |ts| == 0 then []
    else
      var u := Trim(ts[0]);
      (if |u| == 0 then [] else [u]) + TrimNonEmpty(ts[1..])
  }

  /** The whitespace fallback of `split_txt`. */
  function SplitWords(s: string): seq<string>
  {
    TrimNonEmpty(SplitAsciiWhitespace(s))
  }

  /** `split_txt`: the parsed JSON array when the text is one, otherwise the whitespace fallback. */
  function SplitTxt(txt: string, parseJson: string -> Option<seq<string>>): (r: seq<string>)
    ensures parseJson(txt).Some? ==> r == parseJson(txt).value
    ensures parseJson(txt).None? ==> r == SplitWords(txt)
  {
    match parseJson(txt)
    case Some(list) => list
    case None => SplitWords(txt)
  }

  lemma {:induction false} TrimNonEmptyShape(ts: seq<string>)
    requires forall k :: 0 <= k < |ts| ==> NoAsciiWs(ts[k])
    ensures forall k :: 0 <= k < |TrimNonEmpty(ts)| ==>
              var w := TrimNonEmpty(ts)[k];
              |w| > 0 && NoAsciiWs(w) && !IsUnicodeWs(w[0]) && !IsUnicodeWs(w[|w| - 1])
    decreases |ts|
  {
    if |ts| > 0 {
      TrimSpec(ts[0]);
      TrimKeepsNoAsciiWs(ts[0]);
      TrimNonEmptyShape(ts[1..]);
    }
  }

  /** No word of the fallback is empty, holds ASCII whitespace, or starts or ends with any whitespace. */
  lemma SplitWordsShape(s: string)
    ensures forall k :: 0 <= k < |SplitWords(s)| ==>
              var w := SplitWords(s)[k];
              |w| > 0 && NoAsciiWs(w) && !IsUnicodeWs(w[0]) && !IsUnicodeWs(w[|w| - 1])
  {
    TrimNonEmptyShape(SplitAsciiWhitespace(s));
  }

  /** Pieces of whitespace only all vanish. */
  lemma {:induction false} TrimNonEmptyOfWhitespace(ts: seq<string>)
    requires forall k, i :: 0 <= k < |ts| && 0 <= i < |ts[k]| ==> IsUnicodeWs(ts[k][i])
    ensures TrimNonEmpty(ts) == []
    decreases |ts|
  {
    if |ts| > 0 {
      assert forall i :: 0 <= i < |ts[0]| ==> IsUnicodeWs(ts[0][i]);
      TrimSpec(ts[0]);
      var rest := ts[1..];
      forall k, i | 0 <= k < |rest| && 0 <= i < |rest[k]|
        ensures IsUnicodeWs(rest[k][i])
      {
        assert rest[k] == ts[k + 1];
      }
      TrimNonEmptyOfWhitespace(rest);
    }
  }

  /** Every piece of the split is made of characters of the text. */
  lemma {:induction false} SplitPiecesFromText(s: string)
    ensures forall k, i :: 0 <= k < |SplitAsciiWhitespace(s)| && 0 <= i < |SplitAsciiWhitespace(s)[k]| ==>
              SplitAsciiWhitespace(s)[k][i] in s
    decreases |s|
  {
    if |s| > 0 {
      if IsAsciiWs(s[0]) {
        SplitPiecesFromText(s[1..]);
        assert forall c :: c in s[1..] ==> c in s;
      } else {
        var w := WordLength(s);
        SplitPiecesFromText(s[w..]);
        assert forall c :: c in s[w..] ==> c in s;
        assert forall c :: c in s[..w] ==> c in s;
      }
    }
  }

  /** Text made only of whitespace, ASCII or not, gives no words. */
  lemma SplitWordsOfWhitespace(s: string)
    requires forall i :: 0 <= i < |s| ==> IsUnicodeWs(s[i])
    ensures SplitWords(s) == []
  {
    SplitPiecesFromText(s);
    TrimNonEmptyOfWhitespace(SplitAsciiWhitespace(s));
  }

  /** Pieces without any whitespace pass trimming and filtering unchanged. */
  lemma {:induction false} TrimNonEmptyOfWords(ts: seq<string>)
    requires forall k :: 0 <= k < |ts| ==> |ts[k]| > 0
    requires forall k, i :: 0 <= k < |ts| && 0 <= i < |ts[k]| ==> !IsUnicodeWs(ts[k][i])
    ensures TrimNonEmpty(ts) == ts
    decreases |ts|
  {
    if |ts| > 0 {
      TrimSpec(ts[0]);
      TrimNonEmptyOfWords(ts[1..]);
      assert ts == [ts[0]] + ts[1..];
    }
  }

  /** When the only whitespace in the text is ASCII, the fallback is exactly the ASCII split. */
  lemma SplitWordsIsSplit(s: string)
    requires forall i :: 0 <= i < |s| ==> IsUnicodeWs(s[i]) ==> IsAsciiWs(s[i])
    ensures SplitWords(s) == SplitAsciiWhitespace(s)
  {
    var ts := SplitAsciiWhitespace(s);
    SplitPiecesFromText(s);
    assert forall k, i :: 0 <= k < |ts| && 0 <= i < |ts[k]| ==> !IsUnicodeWs(ts[k][i]) by {
      forall k, i | 0 <= k < |ts| && 0 <= i < |ts[k]|
        ensures !IsUnicodeWs(ts[k][i])
      {
        assert !IsAsciiWs(ts[k][i]);
        var c := ts[k][i];
        assert c in s;
        var j :| 0 <= j < |s| && s[j] == c;
      }
    }
    TrimNonEmptyOfWords(ts);
  }

  /** Host files live at HTTP URLs, fetched with a 30-second timeout, or on the local disk. */
  const UrlHostTimeoutMs: nat := 30000

  datatype HostSource = FromUrl(url: string, timeoutMs: nat) | FromFile(path: string)

  /** `load_host_file`: a path starting with "http" is fetched as a URL, any other one is read as a file. */
  function HostSourceOf(path: string): (src: HostSource)
    ensures src.FromUrl? <==> StartsWith(path, "http")
    ensures src.FromUrl? ==> src == FromUrl(path, UrlHostTimeoutMs)
    ensures src.FromFile? ==> src == FromFile(path)
  {
    if StartsWith(path, "http") then FromUrl(path, UrlHostTimeoutMs) else FromFile(path)
  }
}
