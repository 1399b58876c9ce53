/**
 * What the Kindred extractor makes of a stream of matches, stated without
 * its state machine: when it crashes and with which error, that joining its
 * entries gives back every quote in order, how many entries there are, and
 * that only the first match of a line can continue the entry before.
 */
module KindredFacts {
  import opened Wrappers
  import opened Text
  import opened KindredStrategy

  /** Every match carries an utterance. */
  predicate AllSaid(es: seq<Event>) {
    forall k :: 0 <= k < |es| ==> es[k].voice.utterance.Some?
  }

  /** The quotes of the matches, in order. */
  function Said(es: seq<Event>): (qs: seq<string>)
    requires AllSaid(es)
    ensures |qs| == |es|
  {
    if es == [] then [] else [Quote(es[0].voice)] + Said(es[1..])
  }

  /** How many matches open a new entry, `prev` being the depth before the first: all but
      those found one level deeper than the match before them. */
  function Fresh(prev: nat, es: seq<Event>): (n: nat)
    ensures n <= |es|
    decreases |es|
  {
    if es == [] then 0
    else (if es[0].depth == prev + 1 then 0 else 1) + Fresh(es[0].depth, es[1..])
  }

  /** The depth remembered after the matches: that of the last one, or `prev` if there is none. */
  function LastDepth(prev: nat, es: seq<Event>): nat {
    if es == [] then prev else es[|es| - 1].depth
  }

  /** How many matches at the head of `es` continue the entry before them, `prev` being the
      depth before the first: the longest run in which each is one level deeper than the one
      before it. */
  function Chain(prev: nat, es: seq<Event>): (c: nat)
    ensures c <= |es|
    ensures forall k :: 0 <= k < c ==> es[k].depth == (if k == 0 then prev else es[k - 1].depth) + 1
    ensures c < |es| ==> es[c].depth != (if c == 0 then prev else es[c - 1].depth) + 1
    decreases |es|
  {
    if es == [] || es[0].depth != prev + 1 then 0
    else
      var c := 1 + Chain(es[0].depth, es[1..]);
      assert forall k :: 1 <= k < |es| ==> es[1..][k - 1] == es[k];
      c
  }

  /** The entries made by a stream of matches whose first match opens one: each entry is a
      match that opens one followed by the run of matches that continue it, their quotes joined
      by line feeds. */
  function Group(es: seq<Event>): (g: seq<string>)
    requires AllSaid(es)
    ensures |g| <= |es| && (es != [] ==> g != [])
    decreases |es|
  {
    if es == [] then []
    else
      var c := Chain(es[0].depth, es[1..]);
      [Join(Said(es[..c + 1]))] + Group(es[c + 1..])
  }

  /** The entries with the last one continued by the quotes `qs`, one line each. */
  function Extend(entries: seq<string>, qs: seq<string>): (r: seq<string>)
    requires entries != []
    ensures |r| == |entries| && r[..|entries| - 1] == entries[..|entries| - 1]
    ensures r[|entries| - 1] == Join([entries[|entries| - 1]] + qs)
  {
    entries[..|entries| - 1] + [Join([entries[|entries| - 1]] + qs)]
  }

  // ---------------------------------------------------------------------------
  // Line-feed joins
  // ---------------------------------------------------------------------------

  /** Joining two non-empty lists is joining each and putting a line feed between. */
  lemma {:induction false} JoinAppend(a: seq<string>, b: seq<string>)
    requires a != [] && b != []
    ensures Join(a + b) == Join(a) + "\n" + Join(b)
    decreases |a|
  {
    if |a| == 1 {
      assert (a + b)[0] == a[0] && (a + b)[1..] == b;
    } else {
      assert (a + b)[0] == a[0] && (a + b)[1..] == a[1..] + b;
      JoinAppend(a[1..], b);
    }
  }

  /** Continuing the last entry with a line feed and a quote joins like pushing the quote. */
  lemma {:induction false} JoinExtendLast(es: seq<string>, q: string)
    requires es != []
    ensures Join(es[|es| - 1 := es[|es| - 1] + "\n" + q]) == Join(es + [q])
    decreases |es|
  {
    var f := es[|es| - 1 := es[|es| - 1] + "\n" + q];
    if |es| == 1 {
      assert f == [es[0] + "\n" + q];
      assert (es + [q])[1..] == [q];
    } else {
      assert f[0] == es[0] && f[1..] == es[1..][|es| - 2 := es[|es| - 1] + "\n" + q];
      assert (es + [q])[0] == es[0] && (es + [q])[1..] == es[1..] + [q];
      JoinExtendLast(es[1..], q);
    }
  }

  /** A piece joined to a line feed and `q` joins like `q` as a piece of its own. */
  lemma JoinCons(x: string, q: string, qs: seq<string>)
    ensures Join([x + "\n" + q] + qs) == Join([x, q] + qs)
  {
    var a := [x + "\n" + q] + qs;
    var b := [x, q] + qs;
    assert b[1..] == [q] + qs;
    if qs == [] {
      assert a == [x + "\n" + q] && b == [x, q];
    } else {
      assert a[0] == x + "\n" + q && a[1..] == qs;
      assert ([q] + qs)[0] == q && ([q] + qs)[1..] == qs;
    }
  }

  /** Continuing the last entry by no quote leaves the entries as they are. */
  lemma ExtendNone(entries: seq<string>)
    requires entries != []
    ensures Extend(entries, []) == entries
  {
    assert [entries[|entries| - 1]] + [] == [entries[|entries| - 1]];
  }

  /** Continuing by `q` and then by `qs` is continuing by `q` followed by `qs`. */
  lemma ExtendTwice(entries: seq<string>, q: string, qs: seq<string>)
    requires entries != []
    ensures Extend(Extend(entries, [q]), qs) == Extend(entries, [q] + qs)
  {
    var n := |entries|;
    var x := entries[n - 1];
    assert Join([x] + [q]) == x + "\n" + q by {
      assert ([x] + [q])[1..] == [q];
    }
    JoinCons(x, q, qs);
    assert [x] + ([q] + qs) == [x, q] + qs;
    var e1 := Extend(entries, [q]);
    assert e1[..n - 1] == entries[..n - 1] && e1[n - 1] == x + "\n" + q;
  }

  /** Continuing a freshly pushed entry `q` by `qs`. */
  lemma ExtendPush(entries: seq<string>, q: string, qs: seq<string>)
    ensures Extend(entries + [q], qs) == entries + [Join([q] + qs)]
  {
    assert (entries + [q])[..|entries|] == entries;
  }

  /** The quotes of a match followed by more matches. */
  lemma SaidCons(e: Event, es: seq<Event>)
    requires e.voice.utterance.Some? && AllSaid(es)
    ensures AllSaid([e] + es) && Said([e] + es) == [Quote(e.voice)] + Said(es)
  {
    var f := [e] + es;
    assert f[0] == e && f[1..] == es;
    assert forall k :: 1 <= k < |f| ==> f[k] == es[k - 1];
  }

  // ---------------------------------------------------------------------------
  // One match
  // ---------------------------------------------------------------------------

  /** With at least one entry, a match with an utterance never crashes: it continues the last
      entry or opens a new one, and joining the entries gains its quote either way. */
  lemma HearSaid(st: Tally, e: Event)
    requires st.entries != [] && e.voice.utterance.Some?
    ensures Hear(st, e).Ok?
    ensures Hear(st, e).value.entries != []
    ensures Join(Hear(st, e).value.entries) == Join(st.entries + [Quote(e.voice)])
    ensures |Hear(st, e).value.entries| == |st.entries| + (if e.depth == st.last + 1 then 0 else 1)
    ensures Hear(st, e).value.entries[..|st.entries| - 1] == st.entries[..|st.entries| - 1]
    ensures e.depth == st.last + 1 ==> Hear(st, e).value.entries == Extend(st.entries, [Quote(e.voice)])
    ensures e.depth != st.last + 1 ==> Hear(st, e).value.entries == st.entries + [Quote(e.voice)]
    ensures Hear(st, e).value.last == e.depth
  {
    var n := |st.entries|;
    if e.depth == st.last + 1 {
      JoinExtendLast(st.entries, Quote(e.voice));
      var x := st.entries[n - 1];
      assert Join([x] + [Quote(e.voice)]) == x + "\n" + Quote(e.voice) by {
        assert ([x] + [Quote(e.voice)])[1..] == [Quote(e.voice)];
      }
    } else {
      assert (st.entries + [Quote(e.voice)])[..n - 1] == st.entries[..n - 1];
    }
  }

  /** Once an entry exists, a stream of matches that all carry an utterance continues the last
      entry by the run of matches that continue it, and then makes the entries of `Group` for
      the rest. */
  lemma {:induction false} HearGroups(st: Tally, es: seq<Event>)
    requires st.entries != [] && AllSaid(es)
    ensures HearEvents(st, es).Ok?
    ensures HearEvents(st, es).value.entries
      == Extend(st.entries, Said(es[..Chain(st.last, es)])) + Group(es[Chain(st.last, es)..])
    decreases |es|
  {
    if es == [] {
      ExtendNone(st.entries);
      assert es[..0] == [] && es[0..] == [];
    } else {
      var e := es[0];
      var rest := es[1..];
      assert forall k :: 0 <= k < |rest| ==> rest[k] == es[k + 1];
      HearSaid(st, e);
      var st1 := Hear(st, e).value;
      HearGroups(st1, rest);
      assert HearEvents(st, es) == HearEvents(st1, rest);
      if e.depth == st.last + 1 {
        GroupsContinue(st.entries, st.last, es);
      } else {
        GroupsOpen(st.entries, st.last, es);
        assert es[..0] == [] && es[0..] == es;
        ExtendNone(st.entries);
      }
    }
  }

  /** The bookkeeping of `HearGroups` when the first match continues the last entry. */
  lemma GroupsContinue(entries: seq<string>, prev: nat, es: seq<Event>)
    requires entries != [] && es != [] && AllSaid(es) && es[0].depth == prev + 1
    ensures var rest := es[1..]; var c1 := Chain(es[0].depth, rest);
      AllSaid(rest) && Chain(prev, es) == c1 + 1
      && Extend(Extend(entries, [Quote(es[0].voice)]), Said(rest[..c1])) + Group(rest[c1..])
         == Extend(entries, Said(es[..Chain(prev, es)])) + Group(es[Chain(prev, es)..])
  {
    var e := es[0];
    var rest := es[1..];
    assert forall k :: 0 <= k < |rest| ==> rest[k] == es[k + 1];
    var c1 := Chain(e.depth, rest);
    SaidCons(e, rest[..c1]);
    assert es[..c1 + 1] == [e] + rest[..c1];
    assert es[c1 + 1..] == rest[c1..];
    ExtendTwice(entries, Quote(e.voice), Said(rest[..c1]));
  }

  /** The bookkeeping of `HearGroups` when the first match opens an entry. */
  lemma GroupsOpen(entries: seq<string>, prev: nat, es: seq<Event>)
    requires entries != [] && es != [] && AllSaid(es) && es[0].depth != prev + 1
    ensures var rest := es[1..]; var c1 := Chain(es[0].depth, rest);
      AllSaid(rest) && Chain(prev, es) == 0
      && Extend(entries + [Quote(es[0].voice)], Said(rest[..c1])) + Group(rest[c1..])
         == entries + Group(es)
  {
    var rest := es[1..];
    var c1 := Chain(es[0].depth, rest);
    GroupHead(es);
    var head := [Join([Quote(es[0].voice)] + Said(rest[..c1]))];
    ExtendPush(entries, Quote(es[0].voice), Said(rest[..c1]));
    AppendAssoc(entries, head, Group(rest[c1..]));
  }

  /** The first entry of `Group`: the first match's quote and those of the run continuing it. */
  lemma GroupHead(es: seq<Event>)
    requires es != [] && AllSaid(es)
    ensures var rest := es[1..]; var c1 := Chain(es[0].depth, rest);
      AllSaid(rest) && Group(es) == [Join([Quote(es[0].voice)] + Said(rest[..c1]))] + Group(rest[c1..])
  {
    var e := es[0];
    var rest := es[1..];
    assert forall k :: 0 <= k < |rest| ==> rest[k] == es[k + 1];
    var c1 := Chain(e.depth, rest);
    SaidCons(e, rest[..c1]);
    assert es[..c1 + 1] == [e] + rest[..c1];
    assert es[c1 + 1..] == rest[c1..];
  }

  // ---------------------------------------------------------------------------
  // A stream of matches
  // ---------------------------------------------------------------------------

  /** The joined text, the number of entries and the depth after a stream, once an entry exists. */
  lemma {:induction false} HearJoined(st: Tally, es: seq<Event>)
    requires st.entries != []
    ensures !AllSaid(es) ==> HearEvents(st, es) == Err(MissingUtterance)
    ensures AllSaid(es) ==> HearEvents(st, es).Ok?
    ensures AllSaid(es) ==>
      var st' := HearEvents(st, es).value;
      st'.entries != []
      && Join(st'.entries) == Join(st.entries + Said(es))
      && |st'.entries| == |st.entries| + Fresh(st.last, es)
      && st'.last == LastDepth(st.last, es)
    decreases |es|
  {
    if es != [] {
      var e := es[0];
      var rest := es[1..];
      assert forall k :: 0 <= k < |rest| ==> rest[k] == es[k + 1];
      if e.voice.utterance.None? {
        assert !AllSaid(es);
      } else {
        HearSaid(st, e);
        var st1 := Hear(st, e).value;
        HearJoined(st1, rest);
        assert AllSaid(es) <==> AllSaid(rest) by {
          if AllSaid(rest) {
            forall k | 0 <= k < |es| ensures es[k].voice.utterance.Some? {
              if k > 0 { assert es[k] == rest[k - 1]; }
            }
          }
        }
        if AllSaid(es) {
          Onward(st, e, rest, st1, HearEvents(st1, rest).value);
        }
      }
    } else {
      assert st.entries + [] == st.entries;
    }
  }

  /** Once an entry exists, the stream crashes exactly when some match lacks an utterance.
      Otherwise the run of matches that continue the last entry is appended to it, one quote per
      line, and the rest make the entries of `Group`; so the joined entries gain every quote in
      order, one entry is added per match that opens one, and the remembered depth is that of
      the last match. */
  lemma HearOnward(st: Tally, es: seq<Event>)
    requires st.entries != []
    ensures !AllSaid(es) ==> HearEvents(st, es) == Err(MissingUtterance)
    ensures AllSaid(es) ==> HearEvents(st, es).Ok?
    ensures AllSaid(es) ==>
      var st' := HearEvents(st, es).value;
      var c := Chain(st.last, es);
      st'.entries == Extend(st.entries, Said(es[..c])) + Group(es[c..])
      && Join(st'.entries) == Join(st.entries + Said(es))
      && |st'.entries| == |st.entries| + Fresh(st.last, es)
      && st'.last == LastDepth(st.last, es)
  {
    HearJoined(st, es);
    if AllSaid(es) {
      HearGroups(st, es);
    }
  }

  /** The bookkeeping of `HearJoined` for one match followed by `rest`. */
  lemma Onward(st: Tally, e: Event, rest: seq<Event>, st1: Tally, st2: Tally)
    requires e.voice.utterance.Some? && AllSaid(rest) && AllSaid([e] + rest)
    requires Join(st1.entries) == Join(st.entries + [Quote(e.voice)]) && st1.entries != []
    requires Join(st2.entries) == Join(st1.entries + Said(rest))
    ensures Join(st2.entries) == Join(st.entries + Said([e] + rest))
  {
    var es := [e] + rest;
    assert es[0] == e && es[1..] == rest;
    assert Said(es) == [Quote(e.voice)] + Said(rest);
    if rest == [] {
      assert st1.entries + Said(rest) == st1.entries;
      assert st.entries + Said(es) == st.entries + [Quote(e.voice)];
    } else {
      JoinAppend(st1.entries, Said(rest));
      JoinAppend(st.entries + [Quote(e.voice)], Said(rest));
      assert st.entries + Said(es) == (st.entries + [Quote(e.voice)]) + Said(rest);
    }
  }

  /** The crash conditions, joined text and number of entries of the extractor from the start. */
  lemma OutcomeJoined(es: seq<Event>)
    ensures HearEvents(Tally([], 1), es).Ok? <==> AllSaid(es) && (es == [] || es[0].depth != 2)
    ensures es != [] && es[0].voice.utterance.Some? && es[0].depth == 2 ==>
      HearEvents(Tally([], 1), es) == Err(NoPreviousEntry)
    ensures es != [] && !AllSaid(es) && !(es[0].voice.utterance.Some? && es[0].depth == 2) ==>
      HearEvents(Tally([], 1), es) == Err(MissingUtterance)
    ensures AllSaid(es) && (es == [] || es[0].depth != 2) ==>
      var st := HearEvents(Tally([], 1), es).value;
      Join(st.entries) == Join(Said(es)) && |st.entries| == Fresh(1, es)
  {
    if es != [] {
      var e := es[0];
      var rest := es[1..];
      assert forall k :: 0 <= k < |rest| ==> rest[k] == es[k + 1];
      if e.voice.utterance.None? {
        assert !AllSaid(es);
      } else if e.depth != 2 {
        var st1 := Tally([Quote(e.voice)], e.depth);
        assert [] + [Quote(e.voice)] == [Quote(e.voice)];
        assert Hear(Tally([], 1), e) == Ok(st1);
        HearJoined(st1, rest);
        assert AllSaid(es) <==> AllSaid(rest) by {
          if AllSaid(rest) {
            forall k | 0 <= k < |es| ensures es[k].voice.utterance.Some? {
              if k > 0 { assert es[k] == rest[k - 1]; }
            }
          }
        }
        if AllSaid(es) {
          assert es == [e] + rest;
          assert Said(es) == [Quote(e.voice)] + Said(rest);
          assert st1.entries + Said(rest) == Said(es);
        }
      }
    }
  }

  /** From the start, a stream whose first match does not continue makes the entries of `Group`. */
  lemma FromStartGroups(es: seq<Event>)
    requires AllSaid(es) && (es == [] || es[0].depth != 2)
    ensures HearEvents(Tally([], 1), es).Ok? && HearEvents(Tally([], 1), es).value.entries == Group(es)
  {
    if es != [] {
      var e := es[0];
      var rest := es[1..];
      var q := Quote(e.voice);
      assert [] + [q] == [q];
      var st1 := Tally([q], e.depth);
      assert Hear(Tally([], 1), e) == Ok(st1);
      GroupHead(es);
      HearGroups(st1, rest);
      ExtendPush([], q, Said(rest[..Chain(e.depth, rest)]));
    }
  }

  /**
   * The outcome of the extractor on a stream of matches, which starts with no
   * entry and the remembered depth 1:
   * - it succeeds exactly when every match has an utterance and the first match is not at
   *   depth 2;
   * - a first match at depth 2 with an utterance fails with NoPreviousEntry;
   * - otherwise a missing utterance fails with MissingUtterance;
   * - on success, the entries are those of `Group`: each match that opens an entry followed by
   *   the run of matches continuing it; joined by line feeds they are all the quotes in order,
   *   and there is one entry per match that opens one.
   */
  lemma Outcome(es: seq<Event>)
    ensures HearEvents(Tally([], 1), es).Ok? <==> AllSaid(es) && (es == [] || es[0].depth != 2)
    ensures es != [] && es[0].voice.utterance.Some? && es[0].depth == 2 ==>
      HearEvents(Tally([], 1), es) == Err(NoPreviousEntry)
    ensures es != [] && !AllSaid(es) && !(es[0].voice.utterance.Some? && es[0].depth == 2) ==>
      HearEvents(Tally([], 1), es) == Err(MissingUtterance)
    ensures AllSaid(es) && (es == [] || es[0].depth != 2) ==>
      var st := HearEvents(Tally([], 1), es).value;
      st.entries == Group(es) && Join(st.entries) == Join(Said(es)) && |st.entries| == Fresh(1, es)
  {
    OutcomeJoined(es);
    if AllSaid(es) && (es == [] || es[0].depth != 2) {
      FromStartGroups(es);
    }
  }

  // ---------------------------------------------------------------------------
  // How matches group into entries
  // ---------------------------------------------------------------------------

  /** Matches all at one depth never continue each other: each quote is an entry of its own. */
  lemma {:induction false} GroupSameDepth(d: nat, vs: seq<Voice>)
    requires AllSaid(Mark(d, vs))
    ensures Group(Mark(d, vs)) == Said(Mark(d, vs))
    decreases |vs|
  {
    var es := Mark(d, vs);
    if vs != [] {
      var rest := es[1..];
      assert rest == Mark(d, vs[1..]);
      GroupHead(es);
      assert Chain(d, rest) == 0;
      assert rest[..0] == [] && rest[0..] == rest;
      assert [Quote(es[0].voice)] + [] == [Quote(es[0].voice)];
      GroupSameDepth(d, vs[1..]);
      SaidCons(es[0], rest);
      assert [es[0]] + rest == es;
    }
  }

  /** Matches each one level deeper than the one before form a single entry holding all their
      quotes. */
  lemma Staircase(es: seq<Event>)
    requires es != [] && AllSaid(es) && Stairs(es)
    ensures Group(es) == [Join(Said(es))]
  {
    var rest := es[1..];
    StairChain(es[0].depth, rest);
    assert es[..|rest| + 1] == es && es[|rest| + 1..] == [];
  }

  /** Each match is one level deeper than the one before it. */
  predicate Stairs(es: seq<Event>) {
    forall j, k :: 0 <= j < |es| && 0 <= k < |es| && k == j + 1 ==> es[k].depth == es[j].depth + 1
  }

  /** A run in which each match is one level deeper than the one before is one chain. */
  lemma {:induction false} StairChain(prev: nat, es: seq<Event>)
    requires es != [] ==> es[0].depth == prev + 1
    requires Stairs(es)
    ensures Chain(prev, es) == |es|
    decreases |es|
  {
    if es != [] {
      var rest := es[1..];
      forall j, k | 0 <= j < |rest| && 0 <= k < |rest| && k == j + 1
        ensures rest[k].depth == rest[j].depth + 1
      {
        assert rest[k] == es[k + 1] && rest[j] == es[j + 1];
      }
      StairChain(es[0].depth, rest);
    }
  }

  // ---------------------------------------------------------------------------
  // Matches on one line
  // ---------------------------------------------------------------------------

  /** After a match, every further match at the same depth opens a new entry. */
  lemma {:induction false} FreshSameDepth(d: nat, vs: seq<Voice>)
    ensures Fresh(d, Mark(d, vs)) == |vs|
    decreases |vs|
  {
    if vs != [] {
      var es := Mark(d, vs);
      assert es[1..] == Mark(d, vs[1..]);
      FreshSameDepth(d, vs[1..]);
    }
  }

  /** Of the matches on one line only the first can continue the entry before: the others
      each open one. The remembered depth becomes the line's depth. */
  lemma OneContinuationPerLine(prev: nat, d: nat, vs: seq<Voice>)
    requires vs != []
    ensures Fresh(prev, Mark(d, vs)) >= |vs| - 1
    ensures LastDepth(prev, Mark(d, vs)) == d
  {
    var es := Mark(d, vs);
    assert es[1..] == Mark(d, vs[1..]);
    FreshSameDepth(d, vs[1..]);
  }

  /** A line without matches changes nothing: the stream of matches skips it. */
  lemma SilentLine(line: string, ls: seq<string>)
    requires Voices(Trim(line), 0) == []
    ensures Events([line] + ls) == Events(ls)
  {
    assert ([line] + ls)[0] == line && ([line] + ls)[1..] == ls;
  }
}
