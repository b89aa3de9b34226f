/**
 * The line handling of the weather bot's command reader: trimming, splitting
 * into whitespace-separated tokens, lower-casing the verb, and joining
 * argument tokens back into a city name.
 *
 * Characters are Unicode scalar values where the C++ program works on bytes;
 * every character these operations test for is ASCII, and no byte of a
 * multi-byte UTF-8 sequence is ASCII, so the two readings agree.
 */
module Text {

  /** The characters `trim` strips: space, tab, newline, carriage return. */
  predicate IsTrimChar(c: char) {
    c == ' ' || c == '\t' || c == '\n' || c == '\r'
  }

  /** The characters that separate tokens when a line is read word by word
      (C-locale `isspace`): the trimmed ones plus vertical tab and form feed. */
  predicate IsSpace(c: char) {
    IsTrimChar(c) || c == '\U{000B}' || c == '\U{000C}'
  }

  predicate AllTrim(s: string) {
    forall k :: 0 <= k < |s| ==> IsTrimChar(s[k])
  }

  predicate AllSpace(s: string) {
    forall k :: 0 <= k < |s| ==> IsSpace(s[k])
  }

  /** A token: non-empty and free of separators. */
  predicate IsWord(w: string) {
    w != [] && forall k :: 0 <= k < |w| ==> !IsSpace(w[k])
  }

  /** The position of the first character that is not a trim character,
      or `|s|` when there is none (`find_first_not_of`, with `npos` as
      `|s|`). */
  function FirstKept(s: string): (i: nat)
    ensures i <= |s|
    ensures forall k :: 0 <= k < i ==> IsTrimChar(s[k])
    ensures i < |s| ==> !IsTrimChar(s[i])
    decreases |s|
  {
    if s == [] || !IsTrimChar(s[0]) then 0 else 1 + FirstKept(s[1..])
  }

  /** One past the last character that is not a trim character, or 0 when
      there is none (`find_last_not_of`, plus one). */
  function KeptEnd(s: string): (j: nat)
    ensures j <= |s|
    ensures forall k :: j <= k < |s| ==> IsTrimChar(s[k])
    ensures j > 0 ==> !IsTrimChar(s[j - 1])
    decreases |s|
  {
    if s == [] || !IsTrimChar(s[|s| - 1]) then |s| else KeptEnd(s[..|s| - 1])
  }

  /** The trimmed line; empty exactly when `s` holds nothing but trim
      characters, and otherwise starting and ending with a kept character. */
  function Trim(s: string): (r: string)
    ensures r == [] <==> AllTrim(s)
    ensures r != [] ==> !IsTrimChar(r[0]) && !IsTrimChar(r[|r| - 1])
  {
    var first := FirstKept(s);
    if first == |s| then ""
    else
      assert !IsTrimChar(s[first]);
      s[first..KeptEnd(s)]
  }

  /** Trimming removes trim characters from the two ends and nothing else:
      the result is a slice of `s` with only trim characters around it. */
  lemma TrimRemovesOnlyEnds(s: string)
    ensures var r := Trim(s);
            var i := FirstKept(s);
            && i + |r| <= |s|
            && s[i..i + |r|] == r
            && AllTrim(s[..i]) && AllTrim(s[i + |r|..])
  {
    var i := FirstKept(s);
    var r := Trim(s);
    TrimPrefix(s, i);
    if i < |s| {
      var j := KeptEnd(s);
      assert !IsTrimChar(s[i]);
      assert i < j;
      assert r == s[i..j];
      TrimSuffix(s, j);
    } else {
      assert r == [];
      assert s[i..] == [];
    }
  }

  lemma TrimPrefix(s: string, i: nat)
    requires i <= |s| && forall k :: 0 <= k < i ==> IsTrimChar(s[k])
    ensures AllTrim(s[..i])
  {
  }

  lemma TrimSuffix(s: string, j: nat)
    requires j <= |s| && forall k :: j <= k < |s| ==> IsTrimChar(s[k])
    ensures AllTrim(s[j..])
  {
    assert forall k :: 0 <= k < |s[j..]| ==> s[j..][k] == s[j + k];
  }

  /** Trimming a trimmed line changes nothing. */
  lemma TrimIdempotent(s: string)
    ensures Trim(Trim(s)) == Trim(s)
  {
    var r := Trim(s);
    if r != [] {
      assert FirstKept(r) == 0;
      assert KeptEnd(r) == |r|;
      assert r[0..|r|] == r;
    }
  }

  /** The length of the word at the front of `s`. */
  function WordLength(s: string): (n: nat)
    ensures n <= |s|
    ensures forall k :: 0 <= k < n ==> !IsSpace(s[k])
    ensures n < |s| ==> IsSpace(s[n])
    decreases |s|
  {
    if s == [] || IsSpace(s[0]) then 0 else 1 + WordLength(s[1..])
  }

  /** The tokens of `s`, in order, as a stream read word by word yields them. */
  function Tokens(s: string): (ts: seq<string>)
    ensures forall i :: 0 <= i < |ts| ==> IsWord(ts[i])
    decreases |s|
  {
    if s == [] then []
    else if IsSpace(s[0]) then Tokens(s[1..])
    else
      var n := WordLength(s);
      [s[..n]] + Tokens(s[n..])
  }

  /** The tokens joined with exactly one space between neighbours. */
  function Join(ts: seq<string>): (r: string)
    ensures |ts| == 1 ==> r == ts[0]
    decreases |ts|
  {
    if ts == [] then ""
    else if |ts| == 1 then ts[0]
    else ts[0] + " " + Join(ts[1..])
  }

  /** Lower-cases the ASCII capitals A to Z and keeps every other character. */
  function LowerChar(c: char): (r: char)
    ensures 'A' <= c <= 'Z' ==> 'a' <= r <= 'z'
    ensures !('A' <= c <= 'Z') ==> r == c
  {
    if 'A' <= c <= 'Z' then (c as int + 32) as char else c
  }

  function Lower(s: string): (r: string)
    ensures |r| == |s|
    ensures forall k :: 0 <= k < |s| ==> r[k] == LowerChar(s[k])
  {
    seq(|s|, k requires 0 <= k < |s| => LowerChar(s[k]))
  }

  /** `v` spells the lower-case word `w` with any letters in either case. */
  predicate CaseVariant(v: string, w: string) {
    |v| == |w|
    && forall k :: 0 <= k < |w| ==>
         v[k] == w[k] || ('a' <= w[k] <= 'z' && v[k] as int == w[k] as int - 32)
  }

  predicate IsLowerWord(w: string) {
    forall k :: 0 <= k < |w| ==> !('A' <= w[k] <= 'Z')
  }

  /** Lower-casing a verb matches a lower-case word exactly when the verb is
      that word written in any mix of cases. */
  lemma LowerMatchesCaseVariants(v: string, w: string)
    requires IsLowerWord(w)
    ensures Lower(v) == w <==> CaseVariant(v, w)
  {
    if CaseVariant(v, w) {
      forall k | 0 <= k < |w| ensures Lower(v)[k] == w[k] {
        if v[k] != w[k] {
          assert 'A' <= v[k] <= 'Z';
        }
      }
    }
  }

  lemma WordLengthOfWord(s: string, n: nat)
    requires n <= |s|
    requires forall k :: 0 <= k < n ==> !IsSpace(s[k])
    requires n == |s| || IsSpace(s[n])
    ensures WordLength(s) == n
  {
  }

  /** Leading separators do not change the tokens. */
  lemma {:induction false} TokensSkipPrefix(p: string, x: string)
    requires AllSpace(p)
    ensures Tokens(p + x) == Tokens(x)
    decreases |p|
  {
    if p != [] {
      assert (p + x)[1..] == p[1..] + x;
      TokensSkipPrefix(p[1..], x);
    } else {
      assert p + x == x;
    }
  }

  /** Trailing separators do not change the tokens. */
  lemma {:induction false} TokensSkipSuffix(x: string, q: string)
    requires AllSpace(q)
    ensures Tokens(x + q) == Tokens(x)
    decreases |x|
  {
    if x == [] {
      assert x + q == q + [];
      TokensSkipPrefix(q, []);
    } else if IsSpace(x[0]) {
      assert (x + q)[1..] == x[1..] + q;
      TokensSkipSuffix(x[1..], q);
    } else {
      var m := WordLength(x);
      WordLengthOfWord(x + q, m);
      assert (x + q)[..m] == x[..m];
      assert (x + q)[m..] == x[m..] + q;
      TokensSkipSuffix(x[m..], q);
    }
  }

  lemma TrimCharsAreSpaces(s: string)
    requires AllTrim(s)
    ensures AllSpace(s)
  {
  }

  /** Trimming a line before splitting it changes none of its tokens. */
  lemma TokensOfTrim(s: string)
    ensures Tokens(Trim(s)) == Tokens(s)
  {
    var i := FirstKept(s);
    if i == |s| {
      TrimCharsAreSpaces(s);
      TokensOfSpaces(s);
    } else {
      var j := KeptEnd(s);
      assert !IsTrimChar(s[i]);
      var p, m, q := s[..i], s[i..j], s[j..];
      assert Trim(s) == m;
      assert AllTrim(p);
      assert forall k :: 0 <= k < |q| ==> q[k] == s[j + k];
      assert AllTrim(q);
      TrimCharsAreSpaces(p);
      TrimCharsAreSpaces(q);
      assert s == p + (m + q);
      TokensSkipPrefix(p, m + q);
      TokensSkipSuffix(m, q);
    }
  }

  /** A line made only of separators has no tokens. */
  lemma TokensOfSpaces(s: string)
    requires AllSpace(s)
    ensures Tokens(s) == []
  {
    TokensSkipPrefix(s, []);
    assert s + [] == s;
  }

  /** Splitting the single-space join of some tokens gives those tokens back. */
  lemma {:induction false} TokensOfJoin(ts: seq<string>)
    requires forall i :: 0 <= i < |ts| ==> IsWord(ts[i])
    ensures Tokens(Join(ts)) == ts
    decreases |ts|
  {
    if ts == [] {
    } else if |ts| == 1 {
      var t := ts[0];
      WordLengthOfWord(t, |t|);
      assert t[..|t|] == t;
      assert t[|t|..] == [];
    } else {
      var t, rest := ts[0], Join(ts[1..]);
      var j := t + " " + rest;
      assert j == Join(ts);
      WordLengthOfWord(j, |t|);
      assert j[..|t|] == t;
      assert j[|t|..] == " " + rest;
      assert Tokens(j) == [t] + Tokens(" " + rest);
      assert (" " + rest)[1..] == rest;
      assert Tokens(" " + rest) == Tokens(rest);
      TokensOfJoin(ts[1..]);
      assert ts == [t] + ts[1..];
    }
  }

  /** A word followed by a run of separators is one token, and the tokens
      of the rest follow it: whatever separators stand between two words,
      however many, they only divide them. */
  lemma TokensOfWordThenSpaces(w: string, p: string, x: string)
    requires IsWord(w) && p != [] && AllSpace(p)
    ensures Tokens(w + p + x) == [w] + Tokens(x)
  {
    var s := w + p + x;
    WordLengthOfWord(s, |w|);
    assert s[..|w|] == w;
    assert s[|w|..] == p + x;
    TokensSkipPrefix(p, x);
  }

  /** Appending one more token to a non-empty list appends one space and
      that token to the join, as the loop that builds the city does. */
  lemma {:induction false} JoinAppends(ts: seq<string>, t: string)
    requires ts != []
    ensures Join(ts + [t]) == Join(ts) + " " + t
    decreases |ts|
  {
    if |ts| == 1 {
      assert (ts + [t])[1..] == [t];
    } else {
      assert (ts + [t])[1..] == ts[1..] + [t];
      JoinAppends(ts[1..], t);
      assert ts[0] + " " + (Join(ts[1..]) + " " + t) == (ts[0] + " " + Join(ts[1..])) + " " + t;
    }
  }

  /** Joining at least one token never yields the empty string. */
  lemma {:induction false} JoinOfWordsNonEmpty(ts: seq<string>)
    requires ts != []
    requires forall i :: 0 <= i < |ts| ==> IsWord(ts[i])
    ensures Join(ts) != ""
  {
    if |ts| > 1 {
      assert |Join(ts)| >= |ts[0]|;
    }
  }
}
