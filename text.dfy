/**
 * String primitives shared by the template normaliser and the quote
 * extractors: literal occurrence, character runs (the regex item `[^...]+`),
 * Rust's `str::replace("'''", "**")`, `str::trim`, `str::lines` and the
 * newline join used when a quote block is continued.
 */
module Text {
  import opened Wrappers

  /** `lit` occurs in `t` starting at position `i`. */
  predicate HasAt(t: string, i: nat, lit: string) {
    i + |lit| <= |t| && forall k :: 0 <= k < |lit| ==> t[i + k] == lit[k]
  }

  /** No character of `t[i..j]` belongs to `stop`. */
  predicate Clear(t: string, i: nat, j: nat, stop: set<char>) {
    i <= j <= |t| && forall k :: i <= k < j ==> t[k] !in stop
  }

  /** The regex item `[^stop]+` can match exactly `t[i..i + n]`. */
  predicate Field(t: string, i: nat, n: nat, stop: set<char>) {
    n >= 1 && Clear(t, i, i + n, stop)
  }

  /** `x` is a non-empty string none of whose characters is in `stop`. */
  predicate Plain(x: string, stop: set<char>) {
    |x| >= 1 && forall k :: 0 <= k < |x| ==> x[k] !in stop
  }

  /** End of the longest run of characters outside `stop` that starts at `i`. */
  function Run(t: string, i: nat, stop: set<char>): (e: nat)
    requires i <= |t|
    ensures i <= e <= |t| && Clear(t, i, e, stop)
    ensures e == |t| || t[e] in stop
    decreases |t| - i
  {
    if i == |t| || t[i] in stop then i else Run(t, i + 1, stop)
  }

  /** A run of characters outside `stop` never reaches past the longest one. */
  lemma RunMax(t: string, i: nat, j: nat, stop: set<char>)
    requires Clear(t, i, j, stop)
    ensures j <= Run(t, i, stop)
  {
  }

  /** A literal that avoids `stop` and starts inside a run ends inside it. */
  lemma RunCovers(t: string, i: nat, stop: set<char>, j: nat, lit: string)
    requires i <= |t| && i <= j <= Run(t, i, stop) && HasAt(t, j, lit)
    requires forall k :: 0 <= k < |lit| ==> lit[k] !in stop
    ensures j + |lit| <= Run(t, i, stop)
  {
    forall k | i <= k < j + |lit| ensures t[k] !in stop {
      if k >= j {
        assert t[j + (k - j)] == lit[k - j];
      }
    }
    RunMax(t, i, j + |lit|, stop);
  }

  /** The run starting at `i` is exactly `x` when `x` avoids `stop` and a stop character follows it. */
  lemma RunOf(t: string, i: nat, x: string, stop: set<char>)
    requires HasAt(t, i, x) && (forall k :: 0 <= k < |x| ==> x[k] !in stop)
    requires i + |x| == |t| || t[i + |x|] in stop
    ensures Run(t, i, stop) == i + |x|
  {
    assert Clear(t, i, i + |x|, stop) by {
      forall k | i <= k < i + |x| ensures t[k] !in stop {
        assert t[i + (k - i)] == x[k - i];
      }
    }
    RunMax(t, i, i + |x|, stop);
  }

  /** A literal that avoids `stop` leaves its stretch of the text clear of `stop`. */
  lemma ClearOf(t: string, i: nat, x: string, stop: set<char>)
    requires HasAt(t, i, x) && (forall k :: 0 <= k < |x| ==> x[k] !in stop)
    ensures Clear(t, i, i + |x|, stop)
  {
    forall k | i <= k < i + |x| ensures t[k] !in stop {
      assert t[i + (k - i)] == x[k - i];
    }
  }

  /** An occurrence of `x + y` is an occurrence of `x` followed by one of `y`. */
  lemma HasAtSplit(t: string, i: nat, x: string, y: string)
    requires HasAt(t, i, x + y)
    ensures HasAt(t, i, x) && HasAt(t, i + |x|, y)
  {
    assert forall k :: 0 <= k < |x| ==> (x + y)[k] == x[k];
    assert forall k :: 0 <= k < |y| ==> (x + y)[|x| + k] == y[k];
  }

  /** An occurrence of `x` followed by one of `y` is an occurrence of `x + y`. */
  lemma HasAtJoin(t: string, i: nat, x: string, y: string)
    requires HasAt(t, i, x) && HasAt(t, i + |x|, y)
    ensures HasAt(t, i, x + y)
  {
    forall k | 0 <= k < |x| + |y| ensures t[i + k] == (x + y)[k] {
      if k >= |x| {
        assert t[i + |x| + (k - |x|)] == y[k - |x|];
      }
    }
  }

  /** An occurrence read back as a slice. */
  lemma HasAtSlice(t: string, i: nat, x: string)
    requires HasAt(t, i, x)
    ensures t[i..i + |x|] == x
  {
  }

  /** `x` sits at position `|pre|` of `pre + x + post`. */
  lemma Place(t: string, pre: string, x: string, post: string)
    requires t == pre + x + post
    ensures HasAt(t, |pre|, x) && t[|pre|..|pre| + |x|] == x
  {
    assert forall k :: 0 <= k < |x| ==> t[|pre| + k] == x[k];
  }

  /** The head and the tail of `p + q` for a non-empty `p`. */
  lemma ConsAppend<T>(p: seq<T>, q: seq<T>)
    requires p != []
    ensures (p + q)[0] == p[0] && (p + q)[1..] == p[1..] + q && [p[0]] + (p[1..] + q) == p + q
  {
  }

  /** A sequence is what comes before position `k`, the element there, and what comes after. */
  lemma SplitAround<T>(s: seq<T>, k: nat)
    requires k < |s|
    ensures s == s[..k] + [s[k]] + s[k + 1..]
  {
  }

  /** Concatenation is associative. */
  lemma AppendAssoc<T>(x: seq<T>, y: seq<T>, z: seq<T>)
    ensures x + (y + z) == (x + y) + z
  {
  }

  /** A character of `lit` at a known offset, read back from the text. */
  lemma HasAtChar(t: string, i: nat, lit: string, k: nat)
    requires HasAt(t, i, lit) && k < |lit|
    ensures t[i + k] == lit[k]
  {
  }

  /** The largest `q` with `lo <= q <= hi` at which `lit` occurs, scanning down from `hi`. */
  function LastAt(t: string, lo: int, hi: int, lit: string): (r: Option<nat>)
    ensures r.Some? ==> lo <= r.value <= hi && HasAt(t, r.value, lit)
    ensures forall q: nat :: lo <= q <= hi && HasAt(t, q, lit) ==> r.Some? && q <= r.value
    decreases hi - lo
  {
    if hi < lo || hi < 0 then None
    else if HasAt(t, hi, lit) then Some(hi)
    else LastAt(t, lo, hi - 1, lit)
  }

  /** Substring test, Rust's `str::contains`. */
  predicate Contains(s: string, lit: string) {
    exists k: nat | k <= |s| :: HasAt(s, k, lit)
  }

  /** Number of leading apostrophes. */
  function LeadApos(s: string): nat {
    if s != [] && s[0] == '\'' then 1 + LeadApos(s[1..]) else 0
  }

  /** A bold marker (three apostrophes) starts at position `k`. */
  predicate TripleAt(s: string, k: nat) {
    k + 3 <= |s| && s[k] == '\'' && s[k + 1] == '\'' && s[k + 2] == '\''
  }

  /** No bold marker occurs in `s`. */
  ghost predicate NoTriple(s: string) {
    forall k: nat :: !TripleAt(s, k)
  }

  /** Rust's `s.replace("'''", "**")`: left to right, non-overlapping. */
  function ReplaceBold(s: string): string
    decreases |s|
  {
    if TripleAt(s, 0) then "**" + ReplaceBold(s[3..])
    else if s == [] then []
    else [s[0]] + ReplaceBold(s[1..])
  }

  lemma LeadAposTriple(s: string)
    ensures TripleAt(s, 0) <==> LeadApos(s) >= 3
  {
    if |s| >= 1 && s[0] == '\'' {
      assert LeadApos(s) == 1 + LeadApos(s[1..]);
      if |s| >= 2 && s[1] == '\'' {
        assert LeadApos(s[1..]) == 1 + LeadApos(s[2..]) by { assert s[1..][1..] == s[2..]; }
        if |s| >= 3 && s[2] == '\'' {
          assert LeadApos(s[2..]) == 1 + LeadApos(s[3..]) by { assert s[2..][1..] == s[3..]; }
        } else {
          assert LeadApos(s[2..]) == 0;
        }
      } else {
        assert LeadApos(s[1..]) == 0;
      }
    }
  }

  /** Replacing bold markers leaves none behind, and keeps a run of one or two leading apostrophes. */
  lemma {:induction false} ReplaceBoldNoTriple(s: string)
    ensures NoTriple(ReplaceBold(s))
    ensures LeadApos(ReplaceBold(s)) == if LeadApos(s) >= 3 then 0 else LeadApos(s)
    decreases |s|
  {
    LeadAposTriple(s);
    if TripleAt(s, 0) {
      var rest := ReplaceBold(s[3..]);
      ReplaceBoldNoTriple(s[3..]);
      var r := "**" + rest;
      assert r == ReplaceBold(s);
      forall k: nat ensures !TripleAt(r, k) {
        if k >= 2 && TripleAt(r, k) {
          assert TripleAt(rest, k - 2);
        }
      }
    } else if s != [] {
      var rest := ReplaceBold(s[1..]);
      ReplaceBoldNoTriple(s[1..]);
      var r := [s[0]] + rest;
      assert r == ReplaceBold(s);
      if s[0] == '\'' {
        assert LeadApos(s) == 1 + LeadApos(s[1..]);
        assert LeadApos(r) == 1 + LeadApos(rest) by { assert r[1..] == rest; }
      } else {
        assert LeadApos(s) == 0;
      }
      forall k: nat ensures !TripleAt(r, k) {
        if k >= 1 && TripleAt(r, k) {
          assert TripleAt(rest, k - 1);
        } else if k == 0 && TripleAt(r, 0) {
          LeadAposTriple(r);
        }
      }
    }
  }

  /** Text without apostrophes passes through the bold replacement unchanged. */
  lemma {:induction false} ReplaceBoldPlain(a: string, b: string)
    requires '\'' !in a
    ensures ReplaceBold(a + b) == a + ReplaceBold(b)
    decreases |a|
  {
    if a != [] {
      assert a[0] in a && (a + b)[0] == a[0] && !TripleAt(a + b, 0);
      assert (a + b)[1..] == a[1..] + b;
      ReplaceBoldPlain(a[1..], b);
      calc {
        ReplaceBold(a + b);
        [a[0]] + ReplaceBold(a[1..] + b);
        [a[0]] + (a[1..] + ReplaceBold(b));
        { assert [a[0]] + a[1..] == a; }
        a + ReplaceBold(b);
      }
    } else {
      assert a + b == b;
    }
  }

  lemma HasAtNot(t: string, i: nat, lit: string, k: nat)
    requires k < |lit| && i + k < |t| && t[i + k] != lit[k]
    ensures !HasAt(t, i, lit)
  {
  }

  /** ASCII upper-casing of one character. */
  function UpperChar(c: char): char {
    if 'a' <= c <= 'z' then (c as int - 32) as char else c
  }

  /** Upper-casing, character by character. */
  function Upper(s: string): string {
    seq(|s|, k requires 0 <= k < |s| => UpperChar(s[k]))
  }

  /** Rust's `char::is_whitespace`: the Unicode White_Space property. */
  predicate IsWhitespace(c: char) {
    ('\t' <= c <= '\r') || c == ' ' || c == '\U{0085}' || c == '\U{00A0}' || c == '\U{1680}'
    || ('\U{2000}' <= c <= '\U{200A}') || c == '\U{2028}' || c == '\U{2029}' || c == '\U{202F}'
    || c == '\U{205F}' || c == '\U{3000}'
  }

  function TrimStart(s: string): (r: string)
    ensures |r| <= |s| && r == s[|s| - |r|..]
    ensures r == [] || !IsWhitespace(r[0])
    ensures forall k :: 0 <= k < |s| - |r| ==> IsWhitespace(s[k])
  {
    if s != [] && IsWhitespace(s[0]) then TrimStart(s[1..]) else s
  }

  function TrimEnd(s: string): (r: string)
    ensures |r| <= |s| && r == s[..|r|]
    ensures r == [] || !IsWhitespace(r[|r| - 1])
    ensures forall k :: |r| <= k < |s| ==> IsWhitespace(s[k])
  {
    if s != [] && IsWhitespace(s[|s| - 1]) then TrimEnd(s[..|s| - 1]) else s
  }

  /** Rust's `str::trim`. */
  function Trim(s: string): string {
    TrimEnd(TrimStart(s))
  }

  /** A string that neither starts nor ends with white space is its own trim. */
  lemma TrimKeeps(s: string)
    requires s != [] ==> !IsWhitespace(s[0]) && !IsWhitespace(s[|s| - 1])
    ensures Trim(s) == s
  {
  }

  /** Index of the first `c` in `s`, or `|s|` when there is none. */
  function IndexOf(s: string, c: char): (k: nat)
    ensures k <= |s| && (k < |s| ==> s[k] == c)
    ensures forall j :: 0 <= j < k ==> s[j] != c
  {
    if s == [] || s[0] == c then 0 else 1 + IndexOf(s[1..], c)
  }

  /** Drops one carriage return at the end. */
  function StripCR(l: string): string {
    if l != [] && l[|l| - 1] == '\r' then l[..|l| - 1] else l
  }

  /**
   * Rust's `str::lines`: pieces between line feeds; a piece ended by a line
   * feed loses one trailing carriage return; no empty piece after a final
   * line feed and none for the empty string.
   */
  function Lines(s: string): (ls: seq<string>)
    ensures forall k :: 0 <= k < |ls| ==> '\n' !in ls[k]
    decreases |s|
  {
    if s == [] then []
    else
      var k := IndexOf(s, '\n');
      if k == |s| then [s] else [StripCR(s[..k])] + Lines(s[k + 1..])
  }

  /** Pieces joined by line feeds. */
  function Join(ls: seq<string>): string {
    if |ls| == 0 then ""
    else if |ls| == 1 then ls[0]
    else ls[0] + "\n" + Join(ls[1..])
  }

  /** A text without carriage returns or a final line feed is its lines joined back by line feeds. */
  lemma {:induction false} LinesJoin(s: string)
    requires '\r' !in s && (s != [] ==> s[|s| - 1] != '\n')
    ensures Join(Lines(s)) == s
    decreases |s|
  {
    if s != [] {
      var k := IndexOf(s, '\n');
      if k < |s| {
        var rest := s[k + 1..];
        assert k != |s| - 1;
        assert rest[|rest| - 1] == s[|s| - 1];
        assert forall c :: c in rest ==> c in s;
        if k > 0 {
          assert s[k - 1] in s;
        }
        assert StripCR(s[..k]) == s[..k];
        LinesJoin(rest);
        assert Lines(s) == [s[..k]] + Lines(rest);
        SplitAround(s, k);
      }
    }
  }
}
