/**
 * How the Kindred regex and the grouping behave at their edges: an empty
 * utterance crashes, a first line one level deep crashes, and a bold-wrapped
 * quote has no match at its speaker; and how three matches are grouped for
 * each way their depths can step.
 */
module KindredExamples {
  import opened Wrappers
  import opened Text
  import opened KindredStrategy
  import opened KindredFacts

  /** Two speakers that both fit at `i` are the same. */
  lemma SameSpeaker(s: string, i: nat, w: string, w2: string)
    requires w in Speakers && HasAt(s, i, w) && w2 in Speakers && HasAt(s, i, w2)
    ensures w2 == w
  {
    SpeakerAtUnique(s, i, w);
    SpeakerAtUnique(s, i, w2);
  }

  /** No speaker fits where the text has a character none of them starts with. */
  lemma NoSpeaker(s: string, i: nat)
    requires i < |s| && s[i] !in {'W', 'L', 'K'}
    ensures KindredAt(s, i).None?
  {
    if SpeakerAt(s, i).Some? {
      HasAtChar(s, i, SpeakerAt(s, i).value, 0);
    }
  }

  /** The match of a line whose speaker `w` opens it, read off the tail the matcher chooses. */
  lemma MatchOfSpeaker(s: string, w: string, t: Tail)
    requires Opens(s, 0, w) && IsTail(s, TailStart(0, w), t)
    ensures KindredAt(s, 0).Some?
    ensures exists c :: Chosen(s, TailStart(0, w), c) && KindredAt(s, 0).value == VoiceOf(s, 0, w, c)
  {
    var v := KindredAt(s, 0).value;
    SameSpeaker(s, 0, w, v.speaker);
  }

  // ---------------------------------------------------------------------------
  // `Wolf: ''''`: the utterance group does not take part
  // ---------------------------------------------------------------------------

  /** In `w: ''''` the only way to match leaves the utterance group out. */
  lemma EmptyUtterance(w: string)
    requires w in Speakers
    ensures var s := w + ": ''''"; KindredAt(s, 0).Some? && KindredAt(s, 0).value.utterance.None?
  {
    var s := w + ": ''''";
    Place(s, [], w, ": ''''");
    Place(s, w, ": ''", "''");
    Place(s, w + ": ''", "''", "");
    assert s[..0] == [] && w + ": ''" + "''" + "" == s;
    var p := TailStart(0, w);
    assert HasAt(s, p, "''");
    ItalicsIs(s, p);
    assert IsTail(s, p, Tail(0, 0, 0));
    MatchOfSpeaker(s, w, Tail(0, 0, 0));
  }

  /** A page holding just `w: ''''` crashes on the missing utterance. */
  lemma EmptyUtteranceCrashes(w: string)
    requires w in Speakers
    ensures KindredQuotes(w + ": ''''") == Err(MissingUtterance)
  {
    var s := w + ": ''''";
    EmptyUtterance(w);
    SpeakerLine(w, ": ''''");
    SingleLine(s);
    var v := KindredAt(s, 0).value;
    VoicesTake(s, 0, v);
    var es := Events(Lines(s));
    assert es[0] == Event(LeadingStars(s), v);
    assert !AllSaid(es);
    Outcome(es);
  }

  /** A string without line feeds that starts with a speaker and ends with an apostrophe is a
      single line, left as it is by trimming. */
  lemma SingleLine(s: string)
    requires s != [] && '\n' !in s && s[0] in {'W', 'L', 'K', '*'} && s[|s| - 1] == '\''
    ensures Lines(s) == [s] && Trim(s) == s && Events(Lines(s)) == LineEvents(s)
  {
    LinesOne(s);
    Visible(s[0]);
    Visible(s[|s| - 1]);
    TrimKeeps(s);
    EventsOne(s);
  }

  /** The first letters of the speakers, the star and the apostrophe are not white space. */
  lemma Visible(c: char)
    requires c in {'W', 'L', 'K', '*', '\''}
    ensures !IsWhitespace(c)
  {
  }

  /** A speaker's name followed by a rest without line feeds that ends with an apostrophe. */
  lemma SpeakerLine(w: string, tail: string)
    requires w in Speakers && '\n' !in tail && tail != [] && tail[|tail| - 1] == '\''
    ensures var s := w + tail; s != [] && '\n' !in s && s[0] in {'W', 'L', 'K', '*'} && s[|s| - 1] == '\''
  {
    var s := w + tail;
    assert s[0] == w[0] && s[|s| - 1] == tail[|tail| - 1];
    assert '\n' !in w;
    assert forall k :: 0 <= k < |s| ==> s[k] == (if k < |w| then w[k] else tail[k - |w|]);
  }

  /** A non-empty string without line feeds is one line. */
  lemma LinesOne(s: string)
    requires s != [] && '\n' !in s
    ensures Lines(s) == [s]
  {
    assert forall j :: 0 <= j < |s| ==> s[j] != '\n';
  }

  /** The matches of a single line are those the line holds. */
  lemma EventsOne(line: string)
    ensures Events([line]) == LineEvents(line)
  {
    assert [line][1..] == [];
    assert LineEvents(line) + [] == LineEvents(line);
  }

  // ---------------------------------------------------------------------------
  // Generic steps
  // ---------------------------------------------------------------------------

  /** Without any tail after the speaker, nothing matches there. */
  lemma NoTailNoMatch(s: string, i: nat, w: string)
    requires i <= |s| && w in Speakers && HasAt(s, i, w)
    requires forall t :: !IsTail(s, TailStart(i, w), t)
    ensures KindredAt(s, i).None?
  {
    if KindredAt(s, i).Some? {
      SameSpeaker(s, i, w, KindredAt(s, i).value.speaker);
    }
  }

  /** A stretch `u` free of quotes followed by `''` is a tail without quotes. */
  lemma PlainTail(s: string, p: nat, u: string)
    requires HasAt(s, p, u) && Plain(u, {'"'}) && HasAt(s, p + |u|, "''")
    ensures IsTail(s, p, Tail(0, |u|, 0))
  {
    ClearOf(s, p, u, {'"'});
    ItalicsIs(s, p + |u|);
  }

  /** When a tail with a non-empty group exists and no quote opens the tail, the match carries
      an utterance. */
  lemma SpokenMatch(s: string, i: nat, w: string, n: nat)
    requires i <= |s| && Opens(s, i, w) && n >= 1 && IsTail(s, TailStart(i, w), Tail(0, n, 0))
    requires s[TailStart(i, w)] != '"'
    ensures KindredAt(s, i).Some? && KindredAt(s, i).value.utterance.Some?
  {
    var p := TailStart(i, w);
    var v := KindredAt(s, i).value;
    SameSpeaker(s, i, w, v.speaker);
    var c :| Chosen(s, p, c) && v == VoiceOf(s, i, w, c);
    assert !Before(Tail(0, n, 0), c);
  }

  // ---------------------------------------------------------------------------
  // `** w: ''u''` as the first line: a continuation with nothing to continue
  // ---------------------------------------------------------------------------

  /** The line `** w: ''u''`. */
  function Deep(w: string, u: string): string {
    "**" + w + ": ''" + u + "''"
  }

  /** Where the parts of `** w: ''u''` sit. */
  lemma DeepShape(w: string, u: string)
    requires w in Speakers && Plain(u, {'"', '\'', '\n'})
    ensures var s := Deep(w, u); var p := TailStart(2, w);
      |s| > 2 && s[0] == '*' && s[1] == '*' && s[2] != '*' && s[2] in {'W', 'L', 'K'}
      && Opens(s, 2, w) && p < |s| && s[p] == u[0]
      && HasAt(s, p, u) && HasAt(s, p + |u|, "''")
      && s[|s| - 1] == '\'' && '\n' !in s
  {
    var s := Deep(w, u);
    var pre := "**" + w + ": ''";
    assert s == pre + u + "''";
    DeepHead(s, w, u + "''");
    HeadClear(w);
    Body(s, pre, u);
    assert TailStart(2, w) == |pre|;
  }

  /** The head of the line holds no line feed. */
  lemma HeadClear(w: string)
    requires w in Speakers
    ensures '\n' !in "**" + w + ": ''"
  {
    assert w == "Wolf" || w == "Lamb" || w == "Kindred";
  }

  /** The head `** w: ''` of a line. */
  lemma DeepHead(s: string, w: string, rest: string)
    requires w in Speakers && s == "**" + w + ": ''" + rest
    ensures |s| > 2 && s[0] == '*' && s[1] == '*' && s[2] == w[0] && Opens(s, 2, w)
  {
    Place(s, "**", w, ": ''" + rest);
    Place(s, "**" + w, ": ''", rest);
    assert w == "Wolf" || w == "Lamb" || w == "Kindred";
  }

  /** A body `u''` after a head `pre`. */
  lemma Body(s: string, pre: string, u: string)
    requires s == pre + u + "''" && Plain(u, {'\n'})
    ensures |pre| < |s| && s[|pre|] == u[0] && HasAt(s, |pre|, u) && HasAt(s, |pre| + |u|, "''")
    ensures s[|s| - 1] == '\''
    ensures '\n' !in pre ==> '\n' !in s
  {
    Place(s, pre, u, "''");
    Place(s, pre + u, "''", "");
    if '\n' !in pre {
      forall k | 0 <= k < |s| ensures s[k] != '\n' {
        if k < |pre| {
          assert s[k] == pre[k];
        } else if k < |pre| + |u| {
          assert s[k] == u[k - |pre|];
        }
      }
    }
  }

  /** In `** w: ''u''` no match starts at the stars; the one at the speaker carries an utterance. */
  lemma DeepMatch(w: string, u: string)
    requires w in Speakers && Plain(u, {'"', '\'', '\n'})
    ensures var s := Deep(w, u);
      KindredAt(s, 0).None? && KindredAt(s, 1).None? && KindredAt(s, 2).Some?
      && KindredAt(s, 2).value.utterance.Some?
  {
    var s := Deep(w, u);
    DeepShape(w, u);
    NoSpeaker(s, 0);
    NoSpeaker(s, 1);
    PlainTail(s, TailStart(2, w), u);
    SpokenMatch(s, 2, w, |u|);
  }

  /** A line starting with two stars and then something else has depth 2. */
  lemma TwoStars(s: string)
    requires |s| > 2 && s[0] == '*' && s[1] == '*' && s[2] != '*'
    ensures LeadingStars(s) == 2
  {
  }

  /** A page whose first line is `** w: ''u''` crashes: the line is one level deeper than the
      starting depth, and there is no entry yet to continue. */
  lemma DeepFirstLineCrashes(w: string, u: string)
    requires w in Speakers && Plain(u, {'"', '\'', '\n'})
    ensures KindredQuotes(Deep(w, u)) == Err(NoPreviousEntry)
  {
    var s := Deep(w, u);
    DeepShape(w, u);
    DeepMatch(w, u);
    SingleLine(s);
    TwoStars(s);
    FirstAtTwo(s);
  }

  /** A one-line page whose first match, at position 2, carries an utterance at depth 2. */
  lemma FirstAtTwo(s: string)
    requires |s| > 2 && KindredAt(s, 0).None? && KindredAt(s, 1).None? && KindredAt(s, 2).Some?
    requires KindredAt(s, 2).value.utterance.Some? && LeadingStars(s) == 2
    requires Events(Lines(s)) == LineEvents(s) && Trim(s) == s
    ensures KindredQuotes(s) == Err(NoPreviousEntry)
  {
    VoicesSkip(s, 0);
    VoicesSkip(s, 1);
    var v := KindredAt(s, 2).value;
    VoicesTake(s, 2, v);
    var es := Events(Lines(s));
    assert es[0] == Event(2, v);
    Outcome(es);
  }

  // ---------------------------------------------------------------------------
  // A bold-wrapped quote is not matched
  // ---------------------------------------------------------------------------

  /** No tail matches at an apostrophe followed by a quote and then anything but an apostrophe:
      the apostrophe is neither a quote nor the start of `''`, and the group cannot cross the quote. */
  lemma ApostropheQuote(s: string, p: nat)
    requires p + 2 < |s| && s[p] == '\'' && s[p + 1] == '"' && s[p + 2] != '\''
    ensures forall t :: !IsTail(s, p, t)
  {
    assert s[p + 1] in {'"'};
  }

  /** The line `w: '''"u"'''`. */
  function Bold(w: string, u: string): string {
    w + ": '''\"" + u + "\"'''"
  }

  /** Where the parts of `w: '''"u"'''` sit. */
  lemma BoldShape(w: string, u: string)
    requires w in Speakers && Plain(u, {'"', '\''})
    ensures var s := Bold(w, u); var p := TailStart(0, w);
      HasAt(s, 0, w) && p + 2 < |s| && s[p] == '\'' && s[p + 1] == '"' && s[p + 2] != '\''
  {
    var s := Bold(w, u);
    var pre := w + ": ''";
    assert s == pre + "'\"" + u + "\"'''";
    Place(s, [], w, ": '''\"" + u + "\"'''");
    Place(s, pre, "'\"", u + "\"'''");
    Place(s, pre + "'\"", u, "\"'''");
    assert s[|pre| + 2] == u[0];
  }

  /** `w: '''"u"'''` has no match at its speaker. */
  lemma BoldQuotedNotMatched(w: string, u: string)
    requires w in Speakers && Plain(u, {'"', '\''})
    ensures KindredAt(Bold(w, u), 0).None?
  {
    BoldShape(w, u);
    ApostropheQuote(Bold(w, u), TailStart(0, w));
    NoTailNoMatch(Bold(w, u), 0, w);
  }

  // ---------------------------------------------------------------------------
  // How depths group quotes into entries
  // ---------------------------------------------------------------------------

  /** Three matches with utterances. */
  predicate Spoken3(a: Voice, b: Voice, c: Voice) {
    a.utterance.Some? && b.utterance.Some? && c.utterance.Some?
  }

  /** The quotes of three matches at the given depths. */
  lemma SaidThree(a: Voice, b: Voice, c: Voice, da: nat, db: nat, dc: nat)
    requires Spoken3(a, b, c)
    ensures var es := [Event(da, a), Event(db, b), Event(dc, c)];
      AllSaid(es) && Said(es) == [Quote(a), Quote(b), Quote(c)]
  {
    var ec, eb, ea := Event(dc, c), Event(db, b), Event(da, a);
    SaidCons(ec, []);
    assert [ec] + [] == [ec];
    SaidCons(eb, [ec]);
    assert [eb] + [ec] == [eb, ec];
    SaidCons(ea, [eb, ec]);
    assert [ea] + [eb, ec] == [ea, eb, ec];
  }

  /** Three quotes joined by line feeds. */
  lemma JoinThree(x: string, y: string, z: string)
    ensures Join([x, y, z]) == x + "\n" + y + "\n" + z
  {
    assert [x, y, z][1..] == [y, z] && [y, z][1..] == [z];
    assert Join([y, z]) == y + "\n" + z;
    assert Join([x, y, z]) == x + "\n" + (y + "\n" + z);
  }

  /** Two quotes joined by a line feed. */
  lemma JoinTwo(x: string, y: string)
    ensures Join([x] + [y]) == x + "\n" + y
  {
    assert ([x] + [y])[1..] == [y];
  }

  /** Depths 1, 2, 3: each match continues the one before, so the page gives one entry holding
      the three quotes on three lines. */
  lemma StairsOneEntry(a: Voice, b: Voice, c: Voice)
    requires Spoken3(a, b, c)
    ensures var r := HearEvents(Tally([], 1), [Event(1, a), Event(2, b), Event(3, c)]);
      r.Ok? && r.value.entries == [Quote(a) + "\n" + Quote(b) + "\n" + Quote(c)]
  {
    var es := [Event(1, a), Event(2, b), Event(3, c)];
    SaidThree(a, b, c, 1, 2, 3);
    Outcome(es);
    Staircase(es);
    JoinThree(Quote(a), Quote(b), Quote(c));
  }

  /** Depths 1, 1, 1: no match continues another, so each quote is an entry of its own. */
  lemma FlatThreeEntries(a: Voice, b: Voice, c: Voice)
    requires Spoken3(a, b, c)
    ensures var r := HearEvents(Tally([], 1), [Event(1, a), Event(1, b), Event(1, c)]);
      r.Ok? && r.value.entries == [Quote(a), Quote(b), Quote(c)]
  {
    var es := [Event(1, a), Event(1, b), Event(1, c)];
    SaidThree(a, b, c, 1, 1, 1);
    Mark3(1, a, b, c);
    Outcome(es);
    GroupSameDepth(1, [a, b, c]);
  }

  lemma Mark3(d: nat, a: Voice, b: Voice, c: Voice)
    ensures Mark(d, [a, b, c]) == [Event(d, a), Event(d, b), Event(d, c)]
  {
  }

  /** Depths 1, 2, 1: the second match continues the first, and the third opens an entry. */
  lemma ContinueFirst(a: Voice, b: Voice, c: Voice)
    requires Spoken3(a, b, c)
    ensures var r := HearEvents(Tally([], 1), [Event(1, a), Event(2, b), Event(1, c)]);
      r.Ok? && r.value.entries == [Quote(a) + "\n" + Quote(b), Quote(c)]
  {
    var es := [Event(1, a), Event(2, b), Event(1, c)];
    SaidThree(a, b, c, 1, 2, 1);
    Outcome(es);
    GroupHead(es);
    var rest := es[1..];
    assert rest[..1] == [Event(2, b)] && rest[1..] == [Event(1, c)];
    assert Said([Event(2, b)]) == [Quote(b)];
    JoinTwo(Quote(a), Quote(b));
    assert Group([Event(1, c)]) == [Quote(c)] by {
      GroupHead([Event(1, c)]);
      assert [Event(1, c)][1..] == [];
      assert [Quote(c)] + [] == [Quote(c)];
    }
  }

  /** Depths 1, 1, 2: the first match is an entry of its own and the third continues the second.
      With `ContinueFirst`: the same joined text and number of entries, grouped differently. */
  lemma ContinueSecond(a: Voice, b: Voice, c: Voice)
    requires Spoken3(a, b, c)
    ensures var r := HearEvents(Tally([], 1), [Event(1, a), Event(1, b), Event(2, c)]);
      r.Ok? && r.value.entries == [Quote(a), Quote(b) + "\n" + Quote(c)]
  {
    var es := [Event(1, a), Event(1, b), Event(2, c)];
    SaidThree(a, b, c, 1, 1, 2);
    Outcome(es);
    GroupHead(es);
    var rest := es[1..];
    assert rest[..0] == [] && rest[0..] == rest;
    assert [Quote(a)] + [] == [Quote(a)];
    assert Group(rest) == [Quote(b) + "\n" + Quote(c)] by {
      GroupHead(rest);
      assert rest[1..] == [Event(2, c)] && rest[1..][..1] == [Event(2, c)] && rest[1..][1..] == [];
      assert Said([Event(2, c)]) == [Quote(c)];
      JoinTwo(Quote(b), Quote(c));
    }
  }
}
