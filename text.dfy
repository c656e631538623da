/** The handful of Python string operations the front ends rely on:
    `str.isspace`, `str.strip()` emptiness, `str.split()`, `' '.join`,
    `str.lower()`, `str.split('\n')`, and the `s[:n] + "..."` truncation. */
module Text {

  /** Python's `str.isspace` for a single character. */
  predicate IsSpace(c: char) {
    c == ' ' || ('\t' <= c <= '\r') || ('\U{1C}' <= c <= '\U{1F}') ||
    c == '\U{85}' || c == '\U{A0}' || c == '\U{1680}' ||
    ('\U{2000}' <= c <= '\U{200A}') || c == '\U{2028}' || c == '\U{2029}' ||
    c == '\U{202F}' || c == '\U{205F}' || c == '\U{3000}'
  }

  /** `not s.strip()`: the string holds nothing but whitespace. */
  predicate IsBlank(s: string) {
    forall i :: 0 <= i < |s| ==> IsSpace(s[i])
  }

  /** A token of `str.split()`: non-empty and free of whitespace. */
  predicate IsToken(w: string) {
    w != [] && forall i :: 0 <= i < |w| ==> !IsSpace(w[i])
  }

  /** Length of the run of non-whitespace characters that starts `s`. */
  function TokenLength(s: string): (n: nat)
    ensures n <= |s|
    ensures forall i :: 0 <= i < n ==> !IsSpace(s[i])
    ensures n == |s| || IsSpace(s[n])
  {
    if s == [] || IsSpace(s[0]) then 0 else 1 + TokenLength(s[1..])
  }

  /** `s.split()`: the maximal runs of non-whitespace, in order. */
  function Words(s: string): (ws: seq<string>)
    ensures forall k :: 0 <= k < |ws| ==> IsToken(ws[k])
    ensures ws == [] <==> IsBlank(s)
    decreases |s|
  {
    if s == [] then []
    else if IsSpace(s[0]) then Words(s[1..])
    else
      var n := TokenLength(s);
      [s[..n]] + Words(s[n..])
  }

  /** `' '.join(ws)`. */
  function JoinWords(ws: seq<string>): (s: string)
    ensures ws == [] ==> s == []
  {
    if ws == [] then []
    else if |ws| == 1 then ws[0]
    else ws[0] + " " + JoinWords(ws[1..])
  }

  lemma WordsOfToken(w: string, rest: string)
    requires IsToken(w)
    requires rest == [] || IsSpace(rest[0])
    ensures Words(w + rest) == [w] + Words(rest)
  {
    var s := w + rest;
    assert TokenLength(s) == |w| by {
      TokenLengthOfPrefix(w, rest);
    }
    assert s[..|w|] == w && s[|w|..] == rest;
  }

  lemma {:induction false} TokenLengthOfPrefix(w: string, rest: string)
    requires forall i :: 0 <= i < |w| ==> !IsSpace(w[i])
    requires rest == [] || IsSpace(rest[0])
    ensures TokenLength(w + rest) == |w|
  {
    if w != [] {
      assert (w + rest)[1..] == w[1..] + rest;
      TokenLengthOfPrefix(w[1..], rest);
    }
  }

  /** Joining tokens with single spaces and splitting again gives back the
      tokens: re-parsing `' '.join(args)` yields the same arguments. */
  lemma {:induction false} WordsJoinWords(ws: seq<string>)
    requires forall k :: 0 <= k < |ws| ==> IsToken(ws[k])
    ensures Words(JoinWords(ws)) == ws
  {
    if |ws| == 1 {
      WordsOfToken(ws[0], []);
      assert ws[0] + [] == ws[0];
    } else if |ws| > 1 {
      var rest := JoinWords(ws[1..]);
      WordsJoinWords(ws[1..]);
      WordsOfToken(ws[0], " " + rest);
      assert ws[0] + " " + rest == ws[0] + (" " + rest);
      assert (" " + rest)[1..] == rest;
    }
  }

  /** A single token splits to itself. */
  lemma WordsOfSingleToken(w: string)
    requires IsToken(w)
    ensures Words(w) == [w]
  {
    WordsOfToken(w, []);
    assert w + [] == w;
  }

  /** A run of non-whitespace that stops before the end of `a` stops at the
      same place whatever follows `a`. */
  lemma {:induction false} TokenLengthInside(a: string, rest: string)
    requires TokenLength(a) < |a|
    ensures TokenLength(a + rest) == TokenLength(a)
  {
    if !IsSpace(a[0]) {
      assert (a + rest)[1..] == a[1..] + rest;
      TokenLengthInside(a[1..], rest);
    }
  }

  /** `str.split()` cuts at every whitespace character: the tokens of the
      text on either side of one are the tokens of the whole. Together with
      `WordsOfSingleToken` and `Words(s) == []` for blank `s`, this pins
      `Words` down on every string. */
  lemma {:induction false} WordsSplitAtSpace(a: string, c: char, b: string)
    requires IsSpace(c)
    ensures Words(a + [c] + b) == Words(a) + Words(b)
    decreases |a|
  {
    var s := a + [c] + b;
    if a == [] {
      assert s == [c] + b && s[1..] == b;
    } else if IsSpace(a[0]) {
      assert s[1..] == a[1..] + [c] + b;
      WordsSplitAtSpace(a[1..], c, b);
    } else {
      var m := TokenLength(a);
      if m < |a| {
        TokenLengthInside(a, [c] + b);
        assert s == a + ([c] + b);
        assert s[..m] == a[..m];
        assert s[m..] == a[m..] + [c] + b;
        WordsSplitAtSpace(a[m..], c, b);
      } else {
        TokenLengthOfPrefix(a, [c] + b);
        assert s == a + ([c] + b);
        assert s[..m] == a && s[m..] == [c] + b;
        assert ([c] + b)[1..] == b;
        assert Words(s) == [a] + Words([c] + b);
        assert a[..m] == a && a[m..] == [];
        assert Words(a) == [a] + Words([]);
      }
    }
  }

  /** A question rebuilt from `str.split()` tokens is never blank. */
  lemma {:induction false} JoinedTokensNotBlank(ws: seq<string>)
    requires ws != []
    requires forall k :: 0 <= k < |ws| ==> IsToken(ws[k])
    ensures !IsBlank(JoinWords(ws))
  {
    WordsJoinWords(ws);
  }

  /** `str.lower()` on the ASCII letters. */
  function LowerChar(c: char): (d: char)
    ensures !('A' <= d <= 'Z')
    ensures !('A' <= c <= 'Z') ==> d == c
  {
    if 'A' <= c <= 'Z' then (c as int - 'A' as int + 'a' as int) as char else c
  }

  function Lower(s: string): (t: string)
    ensures |t| == |s|
    ensures forall i :: 0 <= i < |s| ==> t[i] == LowerChar(s[i])
  {
    if s == [] then [] else [LowerChar(s[0])] + Lower(s[1..])
  }

  /** Python's `s[:n]`. */
  function Take(s: string, n: nat): (t: string)
    ensures |t| <= n && t <= s
    ensures |s| <= n ==> t == s
    ensures |s| > n ==> t == s[..n] && |t| == n
  {
    if |s| <= n then s else s[..n]
  }

  /** The display truncation `s[:n] + "..." if len(s) > n else s`. */
  function Truncate(s: string, n: nat): (t: string)
    ensures |s| <= n ==> t == s
    ensures |s| > n ==> |t| == n + 3 && t[..n] == s[..n] && t[n..] == "..."
  {
    if |s| > n then s[..n] + "..." else s
  }

  /** `sep` joined between the parts; the inverse of `SplitOn`. */
  function JoinOn(parts: seq<string>, sep: char): string
  {
    if parts == [] then []
    else if |parts| == 1 then parts[0]
    else parts[0] + [sep] + JoinOn(parts[1..], sep)
  }

  /** `s.split(sep)` for a one-character separator. */
  function SplitOn(s: string, sep: char): (parts: seq<string>)
    ensures |parts| >= 1
    ensures forall k :: 0 <= k < |parts| ==> sep !in parts[k]
    decreases |s|
  {
    if sep !in s then [s]
    else
      var i := IndexOf(s, sep);
      [s[..i]] + SplitOn(s[i + 1..], sep)
  }

  function IndexOf(s: string, c: char): (i: nat)
    requires c in s
    ensures i < |s| && s[i] == c && c !in s[..i]
  {
    if s[0] == c then 0 else 1 + IndexOf(s[1..], c)
  }

  /** Splitting loses nothing: the parts joined back are the original. */
  lemma {:induction false} JoinOnSplitOn(s: string, sep: char)
    ensures JoinOn(SplitOn(s, sep), sep) == s
    decreases |s|
  {
    if sep in s {
      var i := IndexOf(s, sep);
      var rest := SplitOn(s[i + 1..], sep);
      JoinOnSplitOn(s[i + 1..], sep);
      assert SplitOn(s, sep) == [s[..i]] + rest;
      assert s == s[..i] + [sep] + s[i + 1..];
    }
  }

  /** The lines of `lines` that are not blank, in order (`if line.strip()`). */
  function NonBlank(lines: seq<string>): (kept: seq<string>)
    ensures |kept| <= |lines|
    ensures forall l :: l in kept <==> l in lines && !IsBlank(l)
  {
    if lines == [] then []
    else if IsBlank(lines[0]) then NonBlank(lines[1..])
    else [lines[0]] + NonBlank(lines[1..])
  }

  /** Filtering is line by line: it distributes over concatenation ... */
  lemma {:induction false} NonBlankConcat(a: seq<string>, b: seq<string>)
    ensures NonBlank(a + b) == NonBlank(a) + NonBlank(b)
  {
    if a == [] {
      assert a + b == b;
    } else {
      assert (a + b)[1..] == a[1..] + b;
      NonBlankConcat(a[1..], b);
    }
  }

  /** ... and keeps a single line exactly when it is not blank, so the lines
      kept are the non-blank ones, in their order and with their repeats. */
  lemma NonBlankSingle(l: string)
    ensures NonBlank([l]) == if IsBlank(l) then [] else [l]
  {
    assert [l][1..] == [];
  }
}
