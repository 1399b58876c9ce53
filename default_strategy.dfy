/**
 * The quote extractor for every champion except Kindred: the captures of the
 * regex `''"(.*)"''` over the normalised page, in text order, without those
 * that contain `ogg` or are exactly `GG!`, with every `'''` turned into `**`.
 *
 * `.` does not match a line feed, so a capture never crosses a line, and `.*`
 * is greedy, so a capture runs to the last `"''` of its line.
 */
module DefaultStrategy {
  import opened Wrappers
  import opened Text

  /** The opening delimiter `''"`. */
  const Open: string := "''\""

  /** The closing delimiter `"''`. */
  const Close: string := "\"''"

  /** A match of `''"(.*)"''` starts at `i` and its capture ends at `j`. */
  predicate IsQuote(s: string, i: nat, j: nat) {
    HasAt(s, i, Open) && i + 3 <= j && Clear(s, i + 3, j, {'\n'}) && HasAt(s, j, Close)
  }

  /** The end of the capture of the match at `i`, if one starts there: with `.*` greedy, the
      last closing delimiter reachable without crossing a line feed. */
  function QuoteAt(s: string, i: nat): (r: Option<nat>)
    requires i <= |s|
    ensures r.Some? ==> IsQuote(s, i, r.value)
    ensures forall j: nat :: IsQuote(s, i, j) ==> r.Some? && j <= r.value
  {
    if !HasAt(s, i, Open) then None
    else
      var e := Run(s, i + 3, {'\n'});
      var r := LastAt(s, i + 3, e - 3, Close);
      QuoteAtBest(s, i, e, r);
      r
  }

  lemma QuoteAtBest(s: string, i: nat, e: nat, r: Option<nat>)
    requires HasAt(s, i, Open) && e == Run(s, i + 3, {'\n'}) && r == LastAt(s, i + 3, e - 3, Close)
    ensures r.Some? ==> IsQuote(s, i, r.value)
    ensures forall j: nat :: IsQuote(s, i, j) ==> r.Some? && j <= r.value
  {
    assert forall k :: 0 <= k < |Close| ==> Close[k] !in {'\n'};
    forall j: nat | IsQuote(s, i, j)
      ensures r.Some? && j <= r.value
    {
      RunMax(s, i + 3, j, {'\n'});
      RunCovers(s, i + 3, {'\n'}, j, Close);
    }
  }

  /** Rust's `captures_iter` from position `i`: the capture of each match, left to right,
      resuming after each match. */
  function Captures(s: string, i: nat): (cs: seq<string>)
    requires i <= |s|
    ensures forall k :: 0 <= k < |cs| ==> '\n' !in cs[k]
    decreases |s| - i
  {
    if i == |s| then []
    else match QuoteAt(s, i)
      case Some(j) =>
        var c := s[i + 3..j];
        assert forall k :: 0 <= k < |c| ==> c[k] == s[i + 3 + k];
        [c] + Captures(s, j + 3)
      case None => Captures(s, i + 1)
  }

  /** A capture is kept unless it mentions `ogg` (an audio file name) or is the text `GG!`. */
  predicate Keep(c: string) {
    !Contains(c, "ogg") && c != "GG!"
  }

  /** The kept captures, in order, with bold markers rewritten. */
  function Kept(cs: seq<string>): (qs: seq<string>)
    ensures |qs| <= |cs|
  {
    if cs == [] then []
    else (if Keep(cs[0]) then [ReplaceBold(cs[0])] else []) + Kept(cs[1..])
  }

  /** The quotes of a normalised page. */
  function DefaultQuotes(text: string): seq<string> {
    Kept(Captures(text, 0))
  }

  // ---------------------------------------------------------------------------
  // The extraction loop
  // ---------------------------------------------------------------------------

  /** The loop over the matches of the regex, pushing each kept, rewritten capture. */
  method ExtractDefault(text: string) returns (matches: seq<string>)
    ensures matches == DefaultQuotes(text)
  {
    ghost var all := Kept(Captures(text, 0));
    matches := [];
    var pos := 0;
    while pos < |text|
      invariant pos <= |text|
      invariant matches + Kept(Captures(text, pos)) == all
      decreases |text| - pos
    {
      ghost var before := matches + Kept(Captures(text, pos));
      matches, pos := NextQuote(text, pos, matches);
      assert matches + Kept(Captures(text, pos)) == before;
    }
  }

  /** One turn of the loop: look for a match at `pos`; push its capture if kept and resume after
      it, or move on by one character. */
  method NextQuote(text: string, pos: nat, matches: seq<string>) returns (matches': seq<string>, pos': nat)
    requires pos < |text|
    ensures pos < pos' <= |text|
    ensures matches' + Kept(Captures(text, pos')) == matches + Kept(Captures(text, pos))
  {
    var found := QuoteAt(text, pos);
    if found.None? {
      CapturesSkip(text, pos);
      matches', pos' := matches, pos + 1;
    } else {
      var j := found.value;
      KeptTake(text, pos, j);
      var capture := text[pos + 3..j];
      pos' := j + 3;
      if Keep(capture) {
        matches' := matches + [ReplaceBold(capture)];
      } else {
        matches' := matches;
      }
      KeptPush(text, pos, j, matches, matches', pos');
    }
  }

  /** Pushing the capture of the match at `i`, if it is kept, and resuming after the match. */
  lemma KeptPush(s: string, i: nat, j: nat, matches: seq<string>, matches': seq<string>, i': nat)
    requires i < |s| && QuoteAt(s, i) == Some(j) && i' == j + 3
    requires j + 3 <= |s| && matches' == if Keep(s[i + 3..j]) then matches + [ReplaceBold(s[i + 3..j])] else matches
    ensures i' <= |s| && matches' + Kept(Captures(s, i')) == matches + Kept(Captures(s, i))
  {
    KeptTake(s, i, j);
    KeptExtend(matches, s[i + 3..j], Kept(Captures(s, j + 3)), Kept(Captures(s, i)));
  }

  /** The bookkeeping of one pushed (or skipped) capture. */
  lemma KeptExtend(matches: seq<string>, c: string, rest: seq<string>, all: seq<string>)
    requires all == (if Keep(c) then [ReplaceBold(c)] else []) + rest
    ensures (if Keep(c) then matches + [ReplaceBold(c)] else matches) + rest == matches + all
  {
  }

  // ---------------------------------------------------------------------------
  // Properties
  // ---------------------------------------------------------------------------

  /** The quotes from a position where a match starts. */
  lemma KeptTake(s: string, i: nat, j: nat)
    requires i < |s| && QuoteAt(s, i) == Some(j)
    ensures j + 3 <= |s|
    ensures Kept(Captures(s, i)) == (if Keep(s[i + 3..j]) then [ReplaceBold(s[i + 3..j])] else []) + Kept(Captures(s, j + 3))
  {
    CapturesTake(s, i, j);
    KeptCons(s[i + 3..j], Captures(s, j + 3));
  }

  /** Where a match starts, its capture comes first and the scan resumes after the match. */
  lemma CapturesTake(s: string, i: nat, j: nat)
    requires i < |s| && QuoteAt(s, i) == Some(j)
    ensures j + 3 <= |s| && Captures(s, i) == [s[i + 3..j]] + Captures(s, j + 3)
  {
  }

  /** Where no match starts, the scan moves on by one character. */
  lemma CapturesSkip(s: string, i: nat)
    requires i < |s| && QuoteAt(s, i).None?
    ensures Captures(s, i) == Captures(s, i + 1)
  {
  }

  /** Filtering one capture and then the rest. */
  lemma KeptCons(c: string, cs: seq<string>)
    ensures Kept([c] + cs) == (if Keep(c) then [ReplaceBold(c)] else []) + Kept(cs)
  {
    assert ([c] + cs)[0] == c && ([c] + cs)[1..] == cs;
  }

  /** Filtering keeps the order: the quotes of two stretches are those of the first, then the second. */
  lemma {:induction false} KeptAppend(a: seq<string>, b: seq<string>)
    ensures Kept(a + b) == Kept(a) + Kept(b)
    decreases |a|
  {
    if a == [] {
      assert a + b == b;
    } else {
      ConsAppend(a, b);
      KeptAppend(a[1..], b);
      var h := if Keep(a[0]) then [ReplaceBold(a[0])] else [];
      assert Kept(a + b) == h + Kept(a[1..] + b);
      assert Kept(a) == h + Kept(a[1..]);
      AppendAssoc(h, Kept(a[1..]), Kept(b));
    }
  }

  /** A quote is in the result exactly when it is the rewriting of a capture that is kept. */
  lemma {:induction false} KeptMembers(cs: seq<string>, q: string)
    ensures q in Kept(cs) <==> exists c :: c in cs && Keep(c) && q == ReplaceBold(c)
    decreases |cs|
  {
    if cs != [] {
      KeptMembers(cs[1..], q);
      assert forall c :: c in cs <==> c == cs[0] || c in cs[1..];
    }
  }

  /** No quote of the result contains a bold marker any more. */
  lemma {:induction false} KeptNoBold(cs: seq<string>)
    ensures forall q :: q in Kept(cs) ==> NoTriple(q)
    decreases |cs|
  {
    if cs != [] {
      ReplaceBoldNoTriple(cs[0]);
      KeptNoBold(cs[1..]);
    }
  }

  /** Every quote is a kept capture and holds neither a line feed nor a bold marker. */
  lemma DefaultQuotesShape(text: string, q: string)
    requires q in DefaultQuotes(text)
    ensures exists c :: c in Captures(text, 0) && Keep(c) && '\n' !in c && q == ReplaceBold(c)
    ensures NoTriple(q)
  {
    KeptMembers(Captures(text, 0), q);
    KeptNoBold(Captures(text, 0));
  }

  /** Joining the two parts of a line-feed-free stretch. */
  lemma ClearJoin(s: string, i: nat, j: nat, k: nat)
    requires Clear(s, i, j, {'\n'}) && Clear(s, j, k, {'\n'})
    ensures Clear(s, i, k, {'\n'})
  {
  }

  /** A literal without a line feed leaves its stretch free of line feeds. */
  lemma ClearLit(s: string, i: nat, lit: string)
    requires HasAt(s, i, lit) && '\n' !in lit
    ensures Clear(s, i, i + |lit|, {'\n'})
  {
    forall k | i <= k < i + |lit| ensures s[k] != '\n' {
      assert s[i + (k - i)] == lit[k - i];
    }
  }

  /** At most one capture per line: after a match, no further match starts on the same line. */
  lemma OnePerLine(s: string, i: nat, j: nat, i2: nat)
    requires i <= |s| && QuoteAt(s, i) == Some(j)
    requires j + 3 <= i2 <= |s| && Clear(s, j + 3, i2, {'\n'})
    ensures QuoteAt(s, i2).None?
  {
    if QuoteAt(s, i2).Some? {
      var j2 := QuoteAt(s, i2).value;
      ClearLit(s, j, Close);
      ClearLit(s, i2, Open);
      ClearJoin(s, i + 3, j, j + 3);
      ClearJoin(s, i + 3, j + 3, i2);
      ClearJoin(s, i + 3, i2, i2 + 3);
      ClearJoin(s, i + 3, i2 + 3, j2);
      assert false;
    }
  }
}
