/**
 * Whitespace tokenisation of a text field, as the application does it with
 * `text.strip().split()`: leading and trailing whitespace is removed, then the
 * text is cut at every run of whitespace, and empty pieces are never produced.
 */
module Tokenizer {

  /** The characters Python's `str.isspace` accepts; `split()` and `strip()`
      without arguments cut and trim at exactly these. */
  predicate IsSpace(c: char) {
    ('\U{0009}' <= c <= '\U{000D}') || ('\U{001C}' <= c <= '\U{0020}')
    || c == '\U{0085}' || c == '\U{00A0}' || c == '\U{1680}'
    || ('\U{2000}' <= c <= '\U{200A}') || c == '\U{2028}' || c == '\U{2029}'
    || c == '\U{202F}' || c == '\U{205F}' || c == '\U{3000}'
  }

  /** A token: a non-empty string without whitespace. */
  ghost predicate IsToken(t: string) {
    t != [] && forall i :: 0 <= i < |t| ==> !IsSpace(t[i])
  }

  ghost predicate AllSpace(s: string) {
    forall i :: 0 <= i < |s| ==> IsSpace(s[i])
  }

  /** `s` without its leading whitespace. */
  function DropSpace(s: string): (r: string)
    ensures |r| <= |s|
    ensures r == [] || !IsSpace(r[0])
  {
    if s != [] && IsSpace(s[0]) then DropSpace(s[1..]) else s
  }

  /** What `DropSpace` removes is a whitespace prefix. */
  lemma {:induction false} DropSpaceIsSuffix(s: string)
    ensures DropSpace(s) == s[|s| - |DropSpace(s)|..]
    ensures AllSpace(s[..|s| - |DropSpace(s)|])
  {
    if s != [] && IsSpace(s[0]) {
      DropSpaceIsSuffix(s[1..]);
      assert s[1..][|s| - 1 - |DropSpace(s)|..] == s[|s| - |DropSpace(s)|..];
    }
  }

  /** `s` without its trailing whitespace. */
  function DropTrailingSpace(s: string): (r: string)
    ensures |r| <= |s|
    ensures r == [] || !IsSpace(r[|r| - 1])
  {
    if s != [] && IsSpace(s[|s| - 1]) then DropTrailingSpace(s[..|s| - 1]) else s
  }

  /** What `DropTrailingSpace` removes is a whitespace suffix. */
  lemma {:induction false} DropTrailingSpaceIsPrefix(s: string)
    ensures DropTrailingSpace(s) == s[..|DropTrailingSpace(s)|]
    ensures AllSpace(s[|DropTrailingSpace(s)|..])
  {
    if s != [] && IsSpace(s[|s| - 1]) {
      var s' := s[..|s| - 1];
      DropTrailingSpaceIsPrefix(s');
      var k := |DropTrailingSpace(s)|;
      assert s'[..k] == s[..k];
      assert s[k..] == s'[k..] + [s[|s| - 1]];
    }
  }

  /** Python's `str.strip()` with no argument. */
  function Strip(s: string): (r: string)
    ensures r == [] || (!IsSpace(r[0]) && !IsSpace(r[|r| - 1]))
    ensures exists i, j :: 0 <= i <= j <= |s| && r == s[i..j] && AllSpace(s[..i]) && AllSpace(s[j..])
  {
    var d := DropSpace(s);
    var r := DropTrailingSpace(d);
    DropSpaceIsSuffix(s);
    DropTrailingSpaceIsPrefix(d);
    assert r == s[|s| - |d|..|s| - |d| + |r|];
    assert s[|s| - |d| + |r|..] == d[|r|..];
    r
  }

  /** Length of the run of non-whitespace characters at the front of `s`. */
  function WordLength(s: string): (n: nat)
    ensures n <= |s|
    ensures forall i :: 0 <= i < n ==> !IsSpace(s[i])
    ensures n < |s| ==> IsSpace(s[n])
  {
    if s == [] || IsSpace(s[0]) then 0 else 1 + WordLength(s[1..])
  }

  /** Python's `str.split()` with no argument: the maximal whitespace-free
      pieces of `s`, in order. */
  function Split(s: string): (ts: seq<string>)
    ensures forall i :: 0 <= i < |ts| ==> IsToken(ts[i])
    decreases |s|
  {
    var rest := DropSpace(s);
    if rest == [] then []
    else
      var n := WordLength(rest);
      [rest[..n]] + Split(rest[n..])
  }

  /** The tokens joined by single spaces (`" ".join(ts)`), the inverse of `Split`. */
  function Join(ts: seq<string>): string {
    if |ts| == 0 then ""
    else if |ts| == 1 then ts[0]
    else ts[0] + " " + Join(ts[1..])
  }

  /** The characters of `s` that are not whitespace, in order. */
  function NonSpace(s: string): (r: string)
    ensures |r| <= |s|
  {
    if s == [] then [] else (if IsSpace(s[0]) then [] else [s[0]]) + NonSpace(s[1..])
  }

  function Concat(ts: seq<string>): string {
    if ts == [] then [] else ts[0] + Concat(ts[1..])
  }

  lemma {:induction false} WordLengthAppend(s: string, w: string)
    ensures WordLength(s + w) == if WordLength(s) < |s| then WordLength(s) else |s| + WordLength(w)
  {
    if s != [] {
      assert (s + w)[0] == s[0];
      if !IsSpace(s[0]) {
        assert (s + w)[1..] == s[1..] + w;
        WordLengthAppend(s[1..], w);
      }
    } else {
      assert s + w == w;
    }
  }

  lemma {:induction false} DropSpaceAppend(s: string, w: string)
    ensures DropSpace(s + w) == if DropSpace(s) == [] then DropSpace(w) else DropSpace(s) + w
  {
    if s == [] {
      assert s + w == w;
    } else {
      assert (s + w)[0] == s[0];
      if IsSpace(s[0]) {
        assert (s + w)[1..] == s[1..] + w;
        DropSpaceAppend(s[1..], w);
      }
    }
  }

  lemma {:induction false} DropSpaceOfAllSpace(w: string)
    requires AllSpace(w)
    ensures DropSpace(w) == []
  {
    if w != [] {
      assert AllSpace(w[1..]);
      DropSpaceOfAllSpace(w[1..]);
    }
  }

  /** Leading whitespace does not change the tokens. */
  lemma SplitLeadingSpace(w: string, s: string)
    requires AllSpace(w)
    ensures Split(w + s) == Split(s)
  {
    DropSpaceOfAllSpace(w);
    DropSpaceAppend(w, s);
  }

  /** Trailing whitespace does not change the tokens. */
  lemma {:induction false} SplitTrailingSpace(s: string, w: string)
    requires AllSpace(w)
    ensures Split(s + w) == Split(s)
    decreases |s|
  {
    DropSpaceAppend(s, w);
    var rest := DropSpace(s);
    if rest == [] {
      DropSpaceOfAllSpace(w);
    } else {
      var n := WordLength(rest);
      WordLengthAppend(rest, w);
      if n == |rest| && w != [] {
        assert IsSpace(w[0]);
      }
      assert WordLength(rest + w) == n;
      assert (rest + w)[..n] == rest[..n];
      assert (rest + w)[n..] == rest[n..] + w;
      SplitTrailingSpace(rest[n..], w);
    }
  }

  /** Text that starts with whitespace splits on its own: no token of `a`
      runs on into `t`. */
  lemma {:induction false} SplitAppendSpaced(a: string, t: string)
    requires t != [] && IsSpace(t[0])
    ensures Split(a + t) == Split(a) + Split(t)
    decreases |a|
  {
    DropSpaceAppend(a, t);
    var rest := DropSpace(a);
    if rest == [] {
      DropSpaceIsSuffix(a);
      assert a[..|a|] == a;
      assert Split(a) == [];
      SplitLeadingSpace(a, t);
    } else {
      var n := WordLength(rest);
      assert WordLength(t) == 0;
      WordLengthAppend(rest, t);
      assert WordLength(rest + t) == n;
      assert DropSpace(a + t) == rest + t;
      assert (rest + t)[..n] == rest[..n];
      assert (rest + t)[n..] == rest[n..] + t;
      assert Split(a + t) == [rest[..n]] + Split(rest[n..] + t);
      SplitAppendSpaced(rest[n..], t);
    }
  }

  /** Any non-empty run of whitespace separates tokens, however long it is:
      the text on either side splits on its own, so no token spans the run
      and no empty piece is produced. */
  lemma SplitSeparated(a: string, w: string, b: string)
    requires AllSpace(w) && w != []
    ensures Split(a + w + b) == Split(a) + Split(b)
  {
    assert a + w + b == a + (w + b);
    assert (w + b)[0] == w[0];
    SplitAppendSpaced(a, w + b);
    SplitLeadingSpace(w, b);
  }

  /** `strip()` before `split()` changes nothing: `split()` already ignores
      whitespace at both ends. */
  lemma SplitStrip(s: string)
    ensures Split(Strip(s)) == Split(s)
  {
    var i, j :| 0 <= i <= j <= |s| && Strip(s) == s[i..j] && AllSpace(s[..i]) && AllSpace(s[j..]);
    assert s == s[..i] + (s[i..j] + s[j..]);
    SplitLeadingSpace(s[..i], s[i..j] + s[j..]);
    SplitTrailingSpace(s[i..j], s[j..]);
  }

  lemma {:induction false} NonSpaceAppend(a: string, b: string)
    ensures NonSpace(a + b) == NonSpace(a) + NonSpace(b)
  {
    if a == [] {
      assert a + b == b;
    } else {
      assert (a + b)[0] == a[0];
      assert (a + b)[1..] == a[1..] + b;
      NonSpaceAppend(a[1..], b);
    }
  }

  lemma {:induction false} NonSpaceOfWord(s: string)
    requires forall i :: 0 <= i < |s| ==> !IsSpace(s[i])
    ensures NonSpace(s) == s
  {
    if s != [] {
      NonSpaceOfWord(s[1..]);
    }
  }

  lemma {:induction false} NonSpaceOfAllSpace(w: string)
    requires AllSpace(w)
    ensures NonSpace(w) == []
  {
    if w != [] {
      NonSpaceOfAllSpace(w[1..]);
    }
  }

  /** Splitting loses nothing but whitespace: the tokens, concatenated, are
      exactly the non-whitespace characters of the text, in order. */
  lemma {:induction false} SplitKeepsContent(s: string)
    ensures Concat(Split(s)) == NonSpace(s)
    decreases |s|
  {
    var rest := DropSpace(s);
    DropSpaceIsSuffix(s);
    var lead := s[..|s| - |rest|];
    assert s == lead + rest;
    NonSpaceAppend(lead, rest);
    NonSpaceOfAllSpace(lead);
    if rest != [] {
      var n := WordLength(rest);
      assert rest == rest[..n] + rest[n..];
      NonSpaceAppend(rest[..n], rest[n..]);
      NonSpaceOfWord(rest[..n]);
      SplitKeepsContent(rest[n..]);
    }
  }

  /** A single token splits to itself. */
  lemma SplitToken(t: string)
    requires IsToken(t)
    ensures Split(t) == [t]
  {
    WordLengthAppend(t, []);
    assert t + [] == t;
    assert t[|t|..] == [];
  }

  /** Round trip: splitting tokens joined by spaces gives the tokens back. */
  lemma {:induction false} SplitJoin(ts: seq<string>)
    requires forall i :: 0 <= i < |ts| ==> IsToken(ts[i])
    ensures Split(Join(ts)) == ts
  {
    if |ts| == 1 {
      SplitToken(ts[0]);
    } else if |ts| > 1 {
      var rest := Join(ts[1..]);
      assert Join(ts) == ts[0] + (" " + rest);
      SplitAppendSpaced(ts[0], " " + rest);
      SplitToken(ts[0]);
      assert AllSpace(" ");
      SplitLeadingSpace(" ", rest);
      SplitJoin(ts[1..]);
      assert ts == [ts[0]] + ts[1..];
    }
  }
}
