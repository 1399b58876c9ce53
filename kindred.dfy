/**
 * The quote extractor for Kindred, whose page writes each line as
 * `Wolf: ''...''`, `Lamb: ''...''` or `Kindred: ''...''` and marks an
 * answer to the line before by one more leading `*`.
 *
 * Each line is trimmed, its leading `*` are counted, and every match of
 * `(Wolf|Lamb|Kindred): ''(?:")?([^"]+)?(?:")?''` in it becomes the quote
 * `speaker: utterance` (bold markers rewritten).  A match on a line one
 * level deeper than the line of the previous match is appended to the last
 * entry after a line feed; any other match starts a new entry.  The source
 * panics when the utterance group did not take part in a match and when a
 * continuation arrives before any entry exists; both panics are modelled as
 * errors.
 */
module KindredStrategy {
  import opened Wrappers
  import opened Text

  /** The two ways the extractor panics. */
  datatype Crash =
    | MissingUtterance  // the utterance group did not take part in the match
    | NoPreviousEntry   // a continuation with no entry to continue

  /** The alternatives of the speaker group, in the order the regex lists them. */
  const Speakers: seq<string> := ["Wolf", "Lamb", "Kindred"]

  /** The speaker group at `i`, trying the alternatives in order. */
  function SpeakerAt(s: string, i: nat): (r: Option<string>)
    ensures r.Some? ==> r.value in Speakers && HasAt(s, i, r.value)
  {
    if HasAt(s, i, "Wolf") then Some("Wolf")
    else if HasAt(s, i, "Lamb") then Some("Lamb")
    else if HasAt(s, i, "Kindred") then Some("Kindred")
    else None
  }

  /** The speakers begin with different letters, so whichever fits at `i` is the one found:
      the order of the alternatives does not matter. */
  lemma SpeakerAtUnique(s: string, i: nat, w: string)
    requires w in Speakers && HasAt(s, i, w)
    ensures SpeakerAt(s, i) == Some(w)
  {
    HasAtChar(s, i, w, 0);
    if SpeakerAt(s, i).Some? {
      HasAtChar(s, i, SpeakerAt(s, i).value, 0);
    }
  }

  /** `(Wolf|Lamb|Kindred): ''` matches at `i` with speaker `w`. */
  predicate Opens(s: string, i: nat, w: string) {
    w in Speakers && HasAt(s, i, w) && HasAt(s, i + |w|, ": ''")
  }

  /** Where the rest of the pattern starts after speaker `w` at `i`. */
  function TailStart(i: nat, w: string): nat {
    i + |w| + 4
  }

  /**
   * One way for `(?:")?([^"]+)?(?:")?''` to match: `lead` and `trail` are 1
   * when the optional quotes are taken, `n` is the length of the utterance
   * group, 0 when the group does not take part.
   */
  datatype Tail = Tail(lead: nat, n: nat, trail: nat)

  /** A double quote at `q`. */
  predicate QuoteMark(s: string, q: nat) {
    q < |s| && s[q] == '"'
  }

  /** The italics marker `''` at `q`. */
  predicate Italics(s: string, q: nat) {
    q + 1 < |s| && s[q] == '\'' && s[q + 1] == '\''
  }

  lemma QuoteMarkIs(s: string, q: nat)
    ensures QuoteMark(s, q) <==> HasAt(s, q, "\"")
  {
    if HasAt(s, q, "\"") {
      HasAtChar(s, q, "\"", 0);
    }
  }

  lemma ItalicsIs(s: string, q: nat)
    ensures Italics(s, q) <==> HasAt(s, q, "''")
  {
    if HasAt(s, q, "''") {
      HasAtChar(s, q, "''", 0);
      HasAtChar(s, q, "''", 1);
    }
  }

  /** `t` matches at `p`. */
  predicate IsTail(s: string, p: nat, t: Tail) {
    t.lead <= 1 && t.trail <= 1
    && (t.lead == 1 ==> QuoteMark(s, p))
    && Clear(s, p + t.lead, p + t.lead + t.n, {'"'})
    && (t.trail == 1 ==> QuoteMark(s, p + t.lead + t.n))
    && Italics(s, p + t.lead + t.n + t.trail)
  }

  /**
   * The backtracking matcher tries `u` before `v`: greedy `?` tries taking
   * the quote first, greedy `+` tries longer groups first and leaving the
   * group out last.
   */
  predicate Before(u: Tail, v: Tail) {
    u.lead > v.lead || (u.lead == v.lead && (u.n > v.n || (u.n == v.n && u.trail > v.trail)))
  }

  /** `t` is the tail the matcher settles on: the first one tried that matches. */
  ghost predicate Chosen(s: string, p: nat, t: Tail) {
    IsTail(s, p, t) && forall u :: IsTail(s, p, u) ==> !Before(u, t)
  }

  /** `(?:")?''` at `q`: 1 when the closing quote is taken. */
  function CloseAt(s: string, q: nat): (r: Option<nat>)
    ensures r.Some? ==> r.value <= 1 && (r.value == 1 ==> QuoteMark(s, q)) && Italics(s, q + r.value)
    ensures Italics(s, q) ==> r.Some?
    ensures QuoteMark(s, q) && Italics(s, q + 1) ==> r == Some(1)
  {
    if QuoteMark(s, q) && Italics(s, q + 1) then Some(1)
    else if Italics(s, q) then Some(0)
    else None
  }

  /** The group at `o` tried with lengths `n`, `n - 1`, ..., 1 and then left out. */
  function GroupFrom(s: string, o: nat, n: nat): (r: Option<(nat, nat)>)
    ensures r.Some? ==> r.value.0 <= n && CloseAt(s, o + r.value.0) == Some(r.value.1)
    decreases n
  {
    match CloseAt(s, o + n)
    case Some(a) => Some((n, a))
    case None => if n == 0 then None else GroupFrom(s, o, n - 1)
  }

  /** The tail at `p` with the opening quote taken (`lead == 1`) or not. */
  function TailFrom(s: string, p: nat, lead: nat): (r: Option<Tail>)
    requires lead <= 1 && p + lead <= |s| && (lead == 1 ==> QuoteMark(s, p))
    ensures r.Some? ==> IsTail(s, p, r.value) && r.value.lead == lead
    ensures forall t :: IsTail(s, p, t) && t.lead == lead ==> r.Some? && !Before(t, r.value)
  {
    var o := p + lead;
    var e := Run(s, o, {'"'});
    var g := GroupFrom(s, o, e - o);
    GroupBest(s, p, lead, e, g);
    if g.None? then None
    else
      GroupSound(s, p, lead, e, g);
      Some(Tail(lead, g.value.0, g.value.1))
  }

  /** What the group search settles on is a way of matching. */
  lemma GroupSound(s: string, p: nat, lead: nat, e: nat, g: Option<(nat, nat)>)
    requires lead <= 1 && p + lead <= |s| && (lead == 1 ==> QuoteMark(s, p))
    requires e == Run(s, p + lead, {'"'}) && g == GroupFrom(s, p + lead, e - (p + lead)) && g.Some?
    ensures IsTail(s, p, Tail(lead, g.value.0, g.value.1))
  {
    ClearPrefix(s, p + lead, e, p + lead + g.value.0, {'"'});
  }

  /** A stretch free of the stop characters is free of them on every prefix. */
  lemma ClearPrefix(s: string, i: nat, e: nat, j: nat, stop: set<char>)
    requires Clear(s, i, e, stop) && i <= j <= e
    ensures Clear(s, i, j, stop)
  {
  }

  /** With the opening quote fixed, every way of matching is tried no earlier than the one the
      group search settles on. */
  lemma GroupBest(s: string, p: nat, lead: nat, e: nat, g: Option<(nat, nat)>)
    requires lead <= 1 && p + lead <= |s| && e == Run(s, p + lead, {'"'})
    requires g == GroupFrom(s, p + lead, e - (p + lead))
    ensures forall t :: IsTail(s, p, t) && t.lead == lead ==> g.Some? && !Before(t, Tail(lead, g.value.0, g.value.1))
  {
    forall t | IsTail(s, p, t) && t.lead == lead
      ensures g.Some? && !Before(t, Tail(lead, g.value.0, g.value.1))
    {
      RunMax(s, p + lead, p + lead + t.n, {'"'});
      GroupBeats(s, p, lead, e - (p + lead), t);
    }
  }

  /** One way of matching against the group search. */
  lemma GroupBeats(s: string, p: nat, lead: nat, m: nat, t: Tail)
    requires IsTail(s, p, t) && t.lead == lead && t.n <= m
    ensures GroupFrom(s, p + lead, m).Some?
    ensures !Before(t, Tail(lead, GroupFrom(s, p + lead, m).value.0, GroupFrom(s, p + lead, m).value.1))
  {
    var a := TailClose(s, p, t);
    GroupFromCovers(s, p + lead, m, t.n, a);
  }

  /** The end of a match is a place where `(?:")?''` matches, taking the closing quote if the
      match does. */
  lemma TailClose(s: string, p: nat, t: Tail) returns (a: nat)
    requires IsTail(s, p, t)
    ensures CloseAt(s, p + t.lead + t.n) == Some(a) && t.trail <= a
  {
    var q := p + t.lead + t.n;
    if t.trail == 1 {
      a := 1;
    } else {
      a := CloseAt(s, q).value;
    }
  }

  /** A group length whose closing matches is never passed over by the search. */
  lemma {:induction false} GroupFromCovers(s: string, o: nat, n: nat, m: nat, a: nat)
    requires m <= n && CloseAt(s, o + m) == Some(a)
    ensures GroupFrom(s, o, n).Some?
    ensures m < GroupFrom(s, o, n).value.0 || GroupFrom(s, o, n).value == (m, a)
    decreases n
  {
    if CloseAt(s, o + n).None? {
      GroupFromCovers(s, o, n - 1, m, a);
    }
  }

  /** The tail at `p`, taking the opening quote first and backtracking to leave it out. */
  function TailAt(s: string, p: nat): (r: Option<Tail>)
    requires p <= |s|
    ensures r.Some? ==> Chosen(s, p, r.value)
    ensures r.None? ==> forall t :: !IsTail(s, p, t)
  {
    var taken := if QuoteMark(s, p) then TailFrom(s, p, 1) else None;
    var r := if taken.Some? then taken else TailFrom(s, p, 0);
    TailAtBest(s, p, taken, r);
    r
  }

  lemma TailAtBest(s: string, p: nat, taken: Option<Tail>, r: Option<Tail>)
    requires p <= |s|
    requires taken == (if QuoteMark(s, p) then TailFrom(s, p, 1) else None)
    requires r == (if taken.Some? then taken else TailFrom(s, p, 0))
    ensures r.Some? ==> Chosen(s, p, r.value)
    ensures r.None? ==> forall t :: !IsTail(s, p, t)
  {
    forall t | IsTail(s, p, t)
      ensures r.Some? && !Before(t, r.value)
    {
    }
  }

  /** One match of the Kindred regex: the speaker, the utterance if its group took part, and
      where the match ends. */
  datatype Voice = Voice(speaker: string, utterance: Option<string>, end: nat)

  /** The match read off a chosen tail. */
  function VoiceOf(s: string, i: nat, w: string, t: Tail): Voice
    requires TailStart(i, w) + t.lead + t.n <= |s|
  {
    var u := TailStart(i, w) + t.lead;
    Voice(w, if t.n == 0 then None else Some(s[u..u + t.n]), u + t.n + t.trail + 2)
  }

  /** The match of the Kindred regex that starts at `i`, if any. */
  function KindredAt(s: string, i: nat): (r: Option<Voice>)
    requires i <= |s|
    ensures r.Some? ==> exists t :: Opens(s, i, r.value.speaker) && Chosen(s, TailStart(i, r.value.speaker), t)
                                    && r.value == VoiceOf(s, i, r.value.speaker, t)
    ensures r.None? ==> forall w, t :: Opens(s, i, w) ==> !IsTail(s, TailStart(i, w), t)
    ensures r.Some? ==> r.value.speaker in Speakers && i < r.value.end <= |s|
  {
    KindredAtNone(s, i);
    match SpeakerAt(s, i)
    case None => None
    case Some(w) =>
      if !HasAt(s, i + |w|, ": ''") then None
      else
        match TailAt(s, TailStart(i, w))
        case None => None
        case Some(t) => Some(VoiceOf(s, i, w, t))
  }

  lemma KindredAtNone(s: string, i: nat)
    requires i <= |s|
    ensures forall w :: Opens(s, i, w) ==> SpeakerAt(s, i) == Some(w)
  {
    forall w | Opens(s, i, w) ensures SpeakerAt(s, i) == Some(w) {
      SpeakerAtUnique(s, i, w);
    }
  }

  /** Rust's `captures_iter` over one cleaned line from position `i`. */
  function Voices(s: string, i: nat): (vs: seq<Voice>)
    requires i <= |s|
    ensures forall k :: 0 <= k < |vs| ==> vs[k].speaker in Speakers
    decreases |s| - i
  {
    if i == |s| then []
    else match KindredAt(s, i)
      case Some(v) => [v] + Voices(s, v.end)
      case None => Voices(s, i + 1)
  }

  /** The number of `*` a line begins with. */
  function LeadingStars(s: string): (n: nat)
    ensures n <= |s| && (forall k :: 0 <= k < n ==> s[k] == '*') && (n == |s| || s[n] != '*')
  {
    if s != [] && s[0] == '*' then 1 + LeadingStars(s[1..]) else 0
  }

  // ---------------------------------------------------------------------------
  // Matches as a stream of events, and the grouping state machine
  // ---------------------------------------------------------------------------

  /** A match together with the depth of the line it was found on. */
  datatype Event = Event(depth: nat, voice: Voice)

  function Mark(depth: nat, vs: seq<Voice>): (es: seq<Event>)
    ensures |es| == |vs| && forall k :: 0 <= k < |es| ==> es[k] == Event(depth, vs[k])
  {
    if vs == [] then [] else [Event(depth, vs[0])] + Mark(depth, vs[1..])
  }

  /** The matches of one line of the page, after trimming. */
  function LineEvents(line: string): seq<Event> {
    var c := Trim(line);
    Mark(LeadingStars(c), Voices(c, 0))
  }

  /** The matches of all lines, in order. */
  function Events(ls: seq<string>): seq<Event> {
    if ls == [] then [] else LineEvents(ls[0]) + Events(ls[1..])
  }

  /** The extractor's state: the entries so far and the depth of the line of the last match. */
  datatype Tally = Tally(entries: seq<string>, last: nat)

  /** The quote a match contributes: `speaker: utterance` with bold markers rewritten. */
  function Quote(v: Voice): string
    requires v.utterance.Some?
  {
    ReplaceBold(v.speaker + ": " + v.utterance.value)
  }

  /** What one match does to the state. */
  function Hear(st: Tally, e: Event): Result<Tally, Crash> {
    if e.voice.utterance.None? then Err(MissingUtterance)
    else if e.depth == st.last + 1 then
      if st.entries == [] then Err(NoPreviousEntry)
      else
        var idx := |st.entries| - 1;
        Ok(Tally(st.entries[idx := st.entries[idx] + "\n" + Quote(e.voice)], e.depth))
    else Ok(Tally(st.entries + [Quote(e.voice)], e.depth))
  }

  /** The matches heard in order, stopping at the first crash. */
  function HearEvents(st: Tally, es: seq<Event>): Result<Tally, Crash>
    decreases |es|
  {
    if es == [] then Ok(st)
    else match Hear(st, es[0])
      case Err(c) => Err(c)
      case Ok(st') => HearEvents(st', es[1..])
  }

  /** The outcome of the extractor on a normalised page. */
  function KindredQuotes(text: string): Result<seq<string>, Crash> {
    match HearEvents(Tally([], 1), Events(Lines(text)))
    case Err(c) => Err(c)
    case Ok(st) => Ok(st.entries)
  }

  // ---------------------------------------------------------------------------
  // The extraction loops
  // ---------------------------------------------------------------------------

  /** The loop counting a line's leading `*`, stopping at the first other character. */
  method CountStars(cleaned: string) returns (count: nat)
    ensures count == LeadingStars(cleaned)
  {
    count := 0;
    while count < |cleaned|
      invariant count <= |cleaned| && forall k :: 0 <= k < count ==> cleaned[k] == '*'
    {
      if cleaned[count] == '*' {
        count := count + 1;
      } else {
        break;
      }
    }
  }

  /** The loop over the lines; a panic ends the extraction with its error. */
  method ExtractKindred(text: string) returns (r: Result<seq<string>, Crash>)
    ensures r == KindredQuotes(text)
  {
    var lines := Lines(text);
    ghost var all := HearEvents(Tally([], 1), Events(lines));
    var matches: seq<string> := [];
    var last: nat := 1;
    var i := 0;
    while i < |lines|
      invariant i <= |lines|
      invariant HearEvents(Tally(matches, last), Events(lines[i..])) == all
    {
      var cleaned := Trim(lines[i]);
      var count := CountStars(cleaned);
      EventsStep(lines, i);
      HearEventsAppend(Tally(matches, last), Mark(count, Voices(cleaned, 0)), Events(lines[i + 1..]));
      var heard := HearLine(cleaned, count, matches, last);
      if heard.Err? {
        r := Err(heard.error);
        return;
      }
      matches, last := heard.value.entries, heard.value.last;
      i := i + 1;
    }
    assert lines[i..] == [];
    r := Ok(matches);
  }

  /** The loop over the matches of one cleaned line of depth `count`. */
  method HearLine(cleaned: string, count: nat, matches0: seq<string>, last0: nat) returns (r: Result<Tally, Crash>)
    ensures r == HearEvents(Tally(matches0, last0), Mark(count, Voices(cleaned, 0)))
  {
    ghost var all := HearEvents(Tally(matches0, last0), Mark(count, Voices(cleaned, 0)));
    var matches, last := matches0, last0;
    var pos := 0;
    while pos < |cleaned|
      invariant pos <= |cleaned|
      invariant HearEvents(Tally(matches, last), Mark(count, Voices(cleaned, pos))) == all
      decreases |cleaned| - pos
    {
      var found := KindredAt(cleaned, pos);
      if found.None? {
        VoicesSkip(cleaned, pos);
        pos := pos + 1;
      } else {
        var v := found.value;
        VoicesTake(cleaned, pos, v);
        HearFirst(Tally(matches, last), count, v, Voices(cleaned, v.end));
        var heard := HearMatch(matches, last, count, v);
        if heard.Err? {
          r := Err(heard.error);
          return;
        }
        matches, last := heard.value.entries, heard.value.last;
        pos := v.end;
      }
    }
    assert Voices(cleaned, pos) == [];
    r := Ok(Tally(matches, last));
  }

  /** The body of the loop over the matches, written as the loop writes it (a local copy of the
      entries, an indexed update, an early return per error): the imperative form of `Hear`,
      whose meaning `KindredFacts.HearSaid` states. */
  method HearMatch(matches: seq<string>, last: nat, count: nat, v: Voice) returns (r: Result<Tally, Crash>)
    ensures r == Hear(Tally(matches, last), Event(count, v))
  {
    if v.utterance.None? {
      return Err(MissingUtterance);
    }
    var quote := ReplaceBold(v.speaker + ": " + v.utterance.value);
    var entries := matches;
    if count == last + 1 {
      if |entries| == 0 {
        return Err(NoPreviousEntry);
      }
      var idx := |entries| - 1;
      entries := entries[idx := entries[idx] + "\n" + quote];
    } else {
      entries := entries + [quote];
    }
    r := Ok(Tally(entries, count));
  }

  /** Hearing two stretches of matches is hearing the first, then the second from where it left off. */
  lemma {:induction false} HearEventsAppend(st: Tally, a: seq<Event>, b: seq<Event>)
    ensures HearEvents(st, a + b)
      == match HearEvents(st, a)
         case Err(c) => Err(c)
         case Ok(st') => HearEvents(st', b)
    decreases |a|
  {
    if a == [] {
      assert a + b == b;
    } else {
      assert (a + b)[0] == a[0] && (a + b)[1..] == a[1..] + b;
      match Hear(st, a[0])
      case Err(c) =>
      case Ok(st') => HearEventsAppend(st', a[1..], b);
    }
  }

  /** The events of the lines from `i` on: those of line `i`, then the rest. */
  lemma EventsStep(ls: seq<string>, i: nat)
    requires i < |ls|
    ensures Events(ls[i..]) == Mark(LeadingStars(Trim(ls[i])), Voices(Trim(ls[i]), 0)) + Events(ls[i + 1..])
  {
    assert ls[i..][0] == ls[i] && ls[i..][1..] == ls[i + 1..];
  }

  /** Where no match starts, the scan of the line moves on by one character. */
  lemma VoicesSkip(s: string, i: nat)
    requires i < |s| && KindredAt(s, i).None?
    ensures Voices(s, i) == Voices(s, i + 1)
  {
  }

  /** Where a match starts, it comes first and the scan resumes after it. */
  lemma VoicesTake(s: string, i: nat, v: Voice)
    requires i < |s| && KindredAt(s, i) == Some(v)
    ensures i < v.end <= |s| && Voices(s, i) == [v] + Voices(s, v.end)
  {
  }

  /** Hearing the first match of a stretch, then the rest. */
  lemma HearFirst(st: Tally, d: nat, v: Voice, vs: seq<Voice>)
    ensures HearEvents(st, Mark(d, [v] + vs))
      == match Hear(st, Event(d, v))
         case Err(c) => Err(c)
         case Ok(st') => HearEvents(st', Mark(d, vs))
  {
    assert ([v] + vs)[0] == v && ([v] + vs)[1..] == vs;
  }
}
