/** Python's str.strip(), str.split(), str.startswith() and str.replace(pat, "")
    on sequences of characters, as the loaders and the BOM reader use them. */
module Text {

  /** The characters Python's str.split() and str.strip() (no argument) treat as whitespace. */
  predicate IsSpace(c: char) {
    ('\U{9}' <= c <= '\U{D}') || ('\U{1C}' <= c <= '\U{20}') || c == '\U{85}' || c == '\U{A0}'
    || c == '\U{1680}' || ('\U{2000}' <= c <= '\U{200A}') || c == '\U{2028}' || c == '\U{2029}'
    || c == '\U{202F}' || c == '\U{205F}' || c == '\U{3000}'
  }

  /** A token of str.split(): non-empty, no whitespace. */
  predicate IsWord(w: string) {
    w != [] && forall k :: 0 <= k < |w| ==> !IsSpace(w[k])
  }

  predicate StartsWith(s: string, prefix: string) {
    |prefix| <= |s| && s[..|prefix|] == prefix
  }

  function StripLeft(s: string): (r: string)
    ensures |r| <= |s| && r == s[|s| - |r|..]
    ensures r == [] || !IsSpace(r[0])
    ensures forall k :: 0 <= k < |s| - |r| ==> IsSpace(s[k])
  {
    if s != [] && IsSpace(s[0]) then StripLeft(s[1..]) else s
  }

  function StripRight(s: string): (r: string)
    ensures |r| <= |s| && r == s[..|r|]
    ensures r == [] || !IsSpace(r[|r| - 1])
    ensures forall k :: |r| <= k < |s| ==> IsSpace(s[k])
  {
    if s != [] && IsSpace(s[|s| - 1]) then StripRight(s[..|s| - 1]) else s
  }

  /** str.strip(): drop leading and trailing whitespace, keep the middle as it is. */
  function Strip(s: string): (r: string)
    ensures r == [] || (!IsSpace(r[0]) && !IsSpace(r[|r| - 1]))
    ensures r == [] <==> forall k :: 0 <= k < |s| ==> IsSpace(s[k])
  {
    var l := StripLeft(s);
    var r := StripRight(l);
    assert r == [] ==> l == [];
    r
  }

  lemma StripUnchanged(s: string)
    requires s != [] && !IsSpace(s[0]) && !IsSpace(s[|s| - 1])
    ensures Strip(s) == s
  {
  }

  /** Length of the word at the front of s. */
  function WordLength(s: string): (n: nat)
    requires s != [] && !IsSpace(s[0])
    ensures 0 < n <= |s| && IsWord(s[..n]) && (n == |s| || IsSpace(s[n]))
  {
    if |s| == 1 || IsSpace(s[1]) then 1
    else
      var n := 1 + WordLength(s[1..]);
      assert s[..n] == [s[0]] + s[1..][..n - 1];
      n
  }

  /** str.split() with no argument: the maximal runs of non-whitespace, in order. */
  function Tokens(s: string): (ts: seq<string>)
    ensures forall k :: 0 <= k < |ts| ==> IsWord(ts[k])
    decreases |s|
  {
    if s == [] then []
    else if IsSpace(s[0]) then Tokens(s[1..])
    else
      var n := WordLength(s);
      [s[..n]] + Tokens(s[n..])
  }

  /** The words joined by single spaces, as an f-string with " " separators builds them. */
  function JoinWords(ws: seq<string>): string {
    if ws == [] then ""
    else if |ws| == 1 then ws[0]
    else ws[0] + " " + JoinWords(ws[1..])
  }

  lemma {:induction false} WordLengthOfWord(w: string, t: string)
    requires IsWord(w) && (t == [] || IsSpace(t[0]))
    ensures WordLength(w + t) == |w|
    decreases |w|
  {
    var s := w + t;
    if |w| == 1 {
      assert |s| == 1 || s[1] == t[0];
    } else {
      assert s[1] == w[1];
      assert s[1..] == w[1..] + t;
      WordLengthOfWord(w[1..], t);
    }
  }

  lemma TokensAfterWord(w: string, t: string)
    requires IsWord(w) && (t == [] || IsSpace(t[0]))
    ensures Tokens(w + t) == [w] + Tokens(t)
  {
    WordLengthOfWord(w, t);
    var s := w + t;
    assert s[..|w|] == w && s[|w|..] == t;
  }

  /** Splitting words joined by spaces gives the words back. */
  lemma {:induction false} TokensOfJoin(ws: seq<string>)
    requires forall k :: 0 <= k < |ws| ==> IsWord(ws[k])
    ensures Tokens(JoinWords(ws)) == ws
    decreases |ws|
  {
    if ws == [] {
    } else if |ws| == 1 {
      TokensAfterWord(ws[0], []);
      assert ws[0] + [] == ws[0];
    } else {
      var rest := " " + JoinWords(ws[1..]);
      TokensAfterWord(ws[0], rest);
      assert ws[0] + " " + JoinWords(ws[1..]) == ws[0] + rest;
      assert rest[1..] == JoinWords(ws[1..]);
      TokensOfJoin(ws[1..]);
      assert ws == [ws[0]] + ws[1..];
    }
  }

  lemma {:induction false} JoinWordsEnds(ws: seq<string>)
    requires ws != [] && forall k :: 0 <= k < |ws| ==> IsWord(ws[k])
    ensures var s, first, last := JoinWords(ws), ws[0], ws[|ws| - 1];
      IsWord(first) && IsWord(last) && s != [] && s[0] == first[0] && s[|s| - 1] == last[|last| - 1]
    decreases |ws|
  {
    if |ws| > 1 {
      JoinWordsEnds(ws[1..]);
    }
  }

  /** str.replace(pat, ""): delete the non-overlapping occurrences of pat found
      scanning left to right (the text around a deletion is not rescanned). */
  function RemoveAll(s: string, pat: string): (r: string)
    requires pat != []
    ensures |r| <= |s|
    decreases |s|
  {
    if |s| < |pat| then s
    else if s[..|pat|] == pat then RemoveAll(s[|pat|..], pat)
    else [s[0]] + RemoveAll(s[1..], pat)
  }

  /** A word in which the first character of pat never occurs comes out of RemoveAll
      untouched, and so does that word followed by pat: "3024.dat" becomes "3024". */
  lemma {:induction false} RemoveAllSuffix(w: string, pat: string)
    requires pat != [] && forall k :: 0 <= k < |w| ==> w[k] != pat[0]
    ensures RemoveAll(w, pat) == w
    ensures RemoveAll(w + pat, pat) == w
    decreases |w|
  {
    if w == [] {
      assert RemoveAll([], pat) == [];
      assert (w + pat)[..|pat|] == pat;
      assert (w + pat)[|pat|..] == [];
    } else {
      assert (w + pat)[0] == w[0] != pat[0];
      assert (w + pat)[1..] == w[1..] + pat;
      RemoveAllSuffix(w[1..], pat);
      if |w| >= |pat| {
        assert w[..|pat|][0] == w[0];
      }
      assert w == [w[0]] + w[1..];
    }
  }
}
