/**
 * Hand-written matchers for the shapes that the normaliser's regexes share.
 *
 * A matcher looks at a suffix `t` of the text (the patterns have no anchors
 * and no look-behind, so matching at position `i` of a text is matching at
 * the start of its suffix from `i`), starts after the opening literal at
 * offset `o`, and returns the lengths of the groups it matched. Each one is
 * proved against a declarative statement of its pattern (`Is...`): it
 * returns a parse the pattern admits, and among all parses the pattern
 * admits it returns the one the regex's leftmost-first (backtracking)
 * preference picks: greedy repetitions as long as possible, optional
 * groups taken before skipped, earlier choices first.
 */
module Templates {
  import opened Wrappers
  import opened Text

  /** An optional group `(?:\|X+)?`: skipped, or taken with `n` characters after the bar. */
  datatype Slot = Absent | Present(n: nat)

  /** Where the text after an optional group that starts at `j` begins. */
  function SlotEnd(j: nat, s: Slot): nat {
    match s
    case Absent => j
    case Present(n) => j + 1 + n
  }

  /** The optional group `s` can match at `j`: a bar and then `[^stop]+`. */
  predicate SlotOk(t: string, j: nat, s: Slot, stop: set<char>) {
    match s
    case Absent => true
    case Present(n) => HasAt(t, j, "|") && Field(t, j + 1, n, stop)
  }

  // ---------------------------------------------------------------------------
  // One field: `X{min,} close`
  // ---------------------------------------------------------------------------

  /** `[^stop]{min,}` followed by `close` matches at `o` with a field of `n` characters. */
  ghost predicate IsOne(t: string, o: nat, stop: set<char>, min: nat, close: string, n: nat) {
    n >= min && Clear(t, o, o + n, stop) && HasAt(t, o + n, close)
  }

  /** The single field of `{{sbc|..}}`, `{{RP..}}`, `{{si|..}}`, `{{as|..}}` and the bar-ended fields. */
  function OneAt(t: string, o: nat, stop: set<char>, min: nat, close: string): (r: Option<nat>)
    requires o <= |t| && |close| > 0 && close[0] in stop
    ensures r.Some? ==> IsOne(t, o, stop, min, close, r.value)
    ensures forall n: nat :: IsOne(t, o, stop, min, close, n) ==> r == Some(n)
  {
    var e := Run(t, o, stop);
    assert forall n: nat :: IsOne(t, o, stop, min, close, n) ==> o + n == e by {
      forall n: nat | IsOne(t, o, stop, min, close, n) ensures o + n == e {
        RunMax(t, o, o + n, stop);
        HasAtChar(t, o + n, close, 0);
      }
    }
    if e - o >= min && HasAt(t, e, close) then Some(e - o) else None
  }

  // ---------------------------------------------------------------------------
  // A field and an optional field: `A+ (?:\|B+)? close`
  // ---------------------------------------------------------------------------

  datatype Opt1 = Opt1(a: nat, b: Slot)

  /** Where the closing literal of an `Opt1` parse at `o` starts. */
  function Opt1End(o: nat, p: Opt1): nat {
    SlotEnd(o + p.a, p.b)
  }

  ghost predicate IsOpt1(t: string, o: nat, sa: set<char>, sb: set<char>, close: string, p: Opt1) {
    Field(t, o, p.a, sa) && SlotOk(t, o + p.a, p.b, sb) && HasAt(t, Opt1End(o, p), close)
  }

  /** Conditions every use of the `Opt1` shape meets: the closing character and the bar end the fields. */
  predicate Opt1Shape(sa: set<char>, sb: set<char>, close: string) {
    |close| > 0 && close[0] in sa && close[0] in sb && close[0] != '|' && '|' in sa
  }

  /** In every parse the first field is the whole run up to a stop character. */
  lemma Opt1Lead(t: string, o: nat, sa: set<char>, sb: set<char>, close: string, p: Opt1)
    requires o <= |t| && Opt1Shape(sa, sb, close) && IsOpt1(t, o, sa, sb, close, p)
    ensures o + p.a == Run(t, o, sa)
  {
    RunMax(t, o, o + p.a, sa);
    if p.b.Present? {
      HasAtChar(t, o + p.a, "|", 0);
    } else {
      HasAtChar(t, o + p.a, close, 0);
    }
  }

  /** After the first field, a bar forces the optional group and fixes its length. */
  lemma Opt1Tail(t: string, o: nat, sa: set<char>, sb: set<char>, close: string, p: Opt1)
    requires o <= |t| && Opt1Shape(sa, sb, close) && IsOpt1(t, o, sa, sb, close, p)
    ensures HasAt(t, o + p.a, "|") ==> p.b == Present(Run(t, o + p.a + 1, sb) - (o + p.a) - 1)
    ensures !HasAt(t, o + p.a, "|") ==> p.b == Absent
  {
    var e := o + p.a;
    if HasAt(t, e, "|") {
      HasAtChar(t, e, "|", 0);
      HasAtNot(t, e, close, 0);
      if p.b.Present? {
        RunMax(t, e + 1, e + 1 + p.b.n, sb);
        HasAtChar(t, e + 1 + p.b.n, close, 0);
      }
    }
  }

  /** The unique parse of `A+ (?:\|B+)? close` at `o`, if there is one. */
  function Opt1At(t: string, o: nat, sa: set<char>, sb: set<char>, close: string): (r: Option<Opt1>)
    requires o <= |t| && Opt1Shape(sa, sb, close)
    ensures r.Some? ==> IsOpt1(t, o, sa, sb, close, r.value)
    ensures forall p :: IsOpt1(t, o, sa, sb, close, p) ==> r == Some(p)
  {
    var e := Run(t, o, sa);
    var f := if HasAt(t, e, "|") then Run(t, e + 1, sb) else e;
    var cand := if HasAt(t, e, "|") then Opt1(e - o, Present(f - e - 1)) else Opt1(e - o, Absent);
    assert forall p :: IsOpt1(t, o, sa, sb, close, p) ==> p == cand by {
      forall p | IsOpt1(t, o, sa, sb, close, p) ensures p == cand {
        Opt1Lead(t, o, sa, sb, close, p);
        Opt1Tail(t, o, sa, sb, close, p);
      }
    }
    if e > o && (cand.b.Present? ==> f > e + 1) && HasAt(t, f, close) then
      assert IsOpt1(t, o, sa, sb, close, cand) by {
        assert Opt1End(o, cand) == f;
      }
      Some(cand)
    else None
  }

  // ---------------------------------------------------------------------------
  // A field and two optional fields: `A+ (?:\|C+)? (?:\|D+)? close`
  // ---------------------------------------------------------------------------

  datatype Opt2 = Opt2(a: nat, c: Slot, d: Slot)

  function Opt2Mid(o: nat, p: Opt2): nat {
    SlotEnd(o + p.a, p.c)
  }

  /** Where the closing literal of an `Opt2` parse at `o` starts. */
  function Opt2End(o: nat, p: Opt2): nat {
    SlotEnd(Opt2Mid(o, p), p.d)
  }

  ghost predicate IsOpt2(t: string, o: nat, sa: set<char>, sc: set<char>, sd: set<char>, close: string, p: Opt2) {
    Field(t, o, p.a, sa) && SlotOk(t, o + p.a, p.c, sc)
    && SlotOk(t, Opt2Mid(o, p), p.d, sd) && HasAt(t, Opt2End(o, p), close)
  }

  /** Conditions every use of the `Opt2` shape meets. */
  predicate Opt2Shape(sa: set<char>, sc: set<char>, sd: set<char>, close: string) {
    |close| > 0 && close[0] != '|' && close[0] in sa && close[0] in sc && close[0] in sd
    && '|' in sa && '|' in sc
  }

  /** Backtracking priority: the first optional group taken outranks everything with it skipped. */
  function Rank2(p: Opt2): nat {
    (if p.c.Present? then 2 else 0) + (if p.d.Present? then 1 else 0)
  }

  /** The only candidate for an optional group at `j` that is taken (`present`) or skipped. */
  function SlotFrom(t: string, j: nat, present: bool, stop: set<char>): (r: Option<Slot>)
    requires j <= |t|
    ensures r.Some? ==> SlotOk(t, j, r.value, stop) && SlotEnd(j, r.value) <= |t|
    ensures r.Some? ==> r.value.Present? == present
  {
    if !present then Some(Absent)
    else if HasAt(t, j, "|") && Run(t, j + 1, stop) > j + 1 then Some(Present(Run(t, j + 1, stop) - j - 1))
    else None
  }

  /** A group that matches and is followed by a character that ends it is the candidate. */
  lemma SlotForced(t: string, j: nat, s: Slot, stop: set<char>)
    requires j <= |t| && SlotOk(t, j, s, stop)
    requires SlotEnd(j, s) < |t| && t[SlotEnd(j, s)] in stop
    ensures SlotFrom(t, j, s.Present?, stop) == Some(s)
  {
    if s.Present? {
      RunMax(t, j + 1, j + 1 + s.n, stop);
    }
  }

  /** The only parse with the given choice of optional groups, when the pattern admits it. */
  function Opt2Cand(t: string, o: nat, sa: set<char>, sc: set<char>, sd: set<char>, close: string,
                    hasC: bool, hasD: bool): (r: Option<Opt2>)
    requires o <= |t|
    ensures r.Some? ==> IsOpt2(t, o, sa, sc, sd, close, r.value)
    ensures r.Some? ==> r.value.c.Present? == hasC && r.value.d.Present? == hasD
  {
    var e := Run(t, o, sa);
    if e == o then None
    else match SlotFrom(t, e, hasC, sc)
      case None => None
      case Some(c) =>
        match SlotFrom(t, SlotEnd(e, c), hasD, sd)
        case None => None
        case Some(d) =>
          if HasAt(t, SlotEnd(SlotEnd(e, c), d), close) then Some(Opt2(e - o, c, d)) else None
  }

  lemma Opt2CandUnique(t: string, o: nat, sa: set<char>, sc: set<char>, sd: set<char>, close: string, p: Opt2)
    requires o <= |t| && Opt2Shape(sa, sc, sd, close) && IsOpt2(t, o, sa, sc, sd, close, p)
    ensures Opt2Cand(t, o, sa, sc, sd, close, p.c.Present?, p.d.Present?) == Some(p)
  {
    var e := Run(t, o, sa);
    RunMax(t, o, o + p.a, sa);
    HasAtChar(t, Opt2End(o, p), close, 0);
    if p.c.Present? || p.d.Present? {
      HasAtChar(t, o + p.a, "|", 0);
    }
    assert e == o + p.a;
    SlotForced(t, e, p.c, sc);
    if p.d.Present? {
      HasAtChar(t, Opt2Mid(o, p), "|", 0);
    }
    SlotForced(t, Opt2Mid(o, p), p.d, sd);
  }

  /** The choice of optional groups a rank stands for. */
  function RankC(rank: nat): bool { rank >= 2 }
  function RankD(rank: nat): bool { rank % 2 == 1 }

  /** A parse's rank gives back its choice of optional groups. */
  lemma RankChoice(p: Opt2)
    ensures RankC(Rank2(p)) == p.c.Present? && RankD(Rank2(p)) == p.d.Present?
  {
  }

  /** The candidates tried from `rank` down to 0, as backtracking tries them; the first that matches. */
  function Opt2From(t: string, o: nat, sa: set<char>, sc: set<char>, sd: set<char>, close: string, rank: nat): (r: Option<Opt2>)
    requires o <= |t| && rank <= 3
    ensures r.Some? ==> IsOpt2(t, o, sa, sc, sd, close, r.value) && Rank2(r.value) <= rank
    decreases rank
  {
    var cand := Opt2Cand(t, o, sa, sc, sd, close, RankC(rank), RankD(rank));
    if cand.Some? then cand
    else if rank == 0 then None
    else Opt2From(t, o, sa, sc, sd, close, rank - 1)
  }

  /** Every parse of rank at most `rank` is found, or one that outranks it, and none of its own
      rank differs from the one found. */
  lemma {:induction false} Opt2FromBest(t: string, o: nat, sa: set<char>, sc: set<char>, sd: set<char>, close: string, rank: nat)
    requires o <= |t| && Opt2Shape(sa, sc, sd, close) && rank <= 3
    ensures forall p :: IsOpt2(t, o, sa, sc, sd, close, p) && Rank2(p) <= rank ==>
              Opt2From(t, o, sa, sc, sd, close, rank).Some? && Rank2(p) <= Rank2(Opt2From(t, o, sa, sc, sd, close, rank).value)
    ensures forall p :: IsOpt2(t, o, sa, sc, sd, close, p) && Rank2(p) <= rank
              && Rank2(p) == Rank2(Opt2From(t, o, sa, sc, sd, close, rank).value)
              ==> p == Opt2From(t, o, sa, sc, sd, close, rank).value
    decreases rank
  {
    var cand := Opt2Cand(t, o, sa, sc, sd, close, RankC(rank), RankD(rank));
    var r := Opt2From(t, o, sa, sc, sd, close, rank);
    forall p | IsOpt2(t, o, sa, sc, sd, close, p) && Rank2(p) == rank ensures cand == Some(p) {
      RankChoice(p);
      Opt2CandUnique(t, o, sa, sc, sd, close, p);
    }
    if cand.Some? {
      assert r == cand;
      RankOfChoice(cand.value, rank);
    } else if rank > 0 {
      assert r == Opt2From(t, o, sa, sc, sd, close, rank - 1);
      Opt2FromBest(t, o, sa, sc, sd, close, rank - 1);
    }
  }

  /** A choice of optional groups read off a rank has that rank. */
  lemma RankOfChoice(p: Opt2, rank: nat)
    requires rank <= 3 && p.c.Present? == RankC(rank) && p.d.Present? == RankD(rank)
    ensures Rank2(p) == rank
  {
  }

  /** The parse the regex picks: the candidates in backtracking order, the first that matches. */
  function Opt2At(t: string, o: nat, sa: set<char>, sc: set<char>, sd: set<char>, close: string): (r: Option<Opt2>)
    requires o <= |t| && Opt2Shape(sa, sc, sd, close)
    ensures r.Some? ==> IsOpt2(t, o, sa, sc, sd, close, r.value)
    ensures forall p :: IsOpt2(t, o, sa, sc, sd, close, p) ==> r.Some? && Rank2(p) <= Rank2(r.value)
    ensures forall p :: IsOpt2(t, o, sa, sc, sd, close, p) && Rank2(p) == Rank2(r.value) ==> p == r.value
  {
    Opt2FromBest(t, o, sa, sc, sd, close, 3);
    Opt2From(t, o, sa, sc, sd, close, 3)
  }

  // ---------------------------------------------------------------------------
  // Parses of texts built from known fields
  // ---------------------------------------------------------------------------

  /** A field of known text followed by the closing literal is what `OneAt` finds. */
  lemma OneOf(t: string, o: nat, x: string, stop: set<char>, min: nat, close: string)
    requires |close| > 0 && close[0] in stop && |x| >= min
    requires HasAt(t, o, x) && (forall k :: 0 <= k < |x| ==> x[k] !in stop) && HasAt(t, o + |x|, close)
    ensures OneAt(t, o, stop, min, close) == Some(|x|)
  {
    ClearOf(t, o, x, stop);
    assert IsOne(t, o, stop, min, close, |x|);
  }

  /** `a close`: the optional group is skipped. */
  lemma Opt1Single(t: string, o: nat, a: string, sa: set<char>, sb: set<char>, close: string)
    requires Opt1Shape(sa, sb, close)
    requires HasAt(t, o, a) && Plain(a, sa) && HasAt(t, o + |a|, close)
    ensures Opt1At(t, o, sa, sb, close) == Some(Opt1(|a|, Absent))
  {
    ClearOf(t, o, a, sa);
    assert IsOpt1(t, o, sa, sb, close, Opt1(|a|, Absent));
  }

  /** `a|b close`: the optional group is taken. */
  lemma Opt1Pair(t: string, o: nat, a: string, b: string, sa: set<char>, sb: set<char>, close: string)
    requires Opt1Shape(sa, sb, close)
    requires HasAt(t, o, a) && Plain(a, sa) && HasAt(t, o + |a|, "|")
    requires HasAt(t, o + |a| + 1, b) && Plain(b, sb) && HasAt(t, o + |a| + 1 + |b|, close)
    ensures Opt1At(t, o, sa, sb, close) == Some(Opt1(|a|, Present(|b|)))
  {
    ClearOf(t, o, a, sa);
    ClearOf(t, o + |a| + 1, b, sb);
    assert IsOpt1(t, o, sa, sb, close, Opt1(|a|, Present(|b|)));
  }

  /** `a close`: both optional groups are skipped. */
  lemma Opt2Single(t: string, o: nat, a: string, sa: set<char>, sc: set<char>, sd: set<char>, close: string)
    requires Opt2Shape(sa, sc, sd, close)
    requires HasAt(t, o, a) && Plain(a, sa) && HasAt(t, o + |a|, close)
    ensures Opt2At(t, o, sa, sc, sd, close) == Some(Opt2(|a|, Absent, Absent))
  {
    var e := o + |a|;
    RunOf(t, o, a, sa);
    HasAtChar(t, e, close, 0);
    HasAtNot(t, e, "|", 0);
  }

  /** `a|c close`: the regex takes the first optional group, not the second. */
  lemma Opt2Pair(t: string, o: nat, a: string, c: string, sa: set<char>, sc: set<char>, sd: set<char>, close: string)
    requires Opt2Shape(sa, sc, sd, close)
    requires HasAt(t, o, a) && Plain(a, sa) && HasAt(t, o + |a|, "|")
    requires HasAt(t, o + |a| + 1, c) && Plain(c, sc) && HasAt(t, o + |a| + 1 + |c|, close)
    ensures Opt2At(t, o, sa, sc, sd, close) == Some(Opt2(|a|, Present(|c|), Absent))
  {
    var p := Opt2(|a|, Present(|c|), Absent);
    assert IsOpt2(t, o, sa, sc, sd, close, p) by {
      ClearOf(t, o, a, sa);
      ClearOf(t, o + |a| + 1, c, sc);
    }
    var r := Opt2At(t, o, sa, sc, sd, close).value;
    if Rank2(r) == 3 {
      Opt2PairNotBoth(t, o, a, c, sa, sc, sd, close, r);
    }
  }

  lemma Opt2PairNotBoth(t: string, o: nat, a: string, c: string, sa: set<char>, sc: set<char>, sd: set<char>, close: string, r: Opt2)
    requires Opt2Shape(sa, sc, sd, close)
    requires HasAt(t, o, a) && Plain(a, sa) && HasAt(t, o + |a|, "|")
    requires HasAt(t, o + |a| + 1, c) && Plain(c, sc) && HasAt(t, o + |a| + 1 + |c|, close)
    requires IsOpt2(t, o, sa, sc, sd, close, r)
    ensures Rank2(r) != 3
  {
    if Rank2(r) == 3 {
      var e := o + |a|;
      var f := e + 1 + |c|;
      var n := r.c.n;
      HasAtChar(t, o + r.a, "|", 0);
      HasAtChar(t, e, "|", 0);
      if r.a < |a| {
        HasAtChar(t, o, a, r.a);
      }
      assert r.a == |a|;
      HasAtChar(t, e + 1 + n, "|", 0);
      HasAtChar(t, f, close, 0);
      if n < |c| {
        HasAtChar(t, e + 1, c, n);
      }
    }
  }

  /** `a|c|d close`: both optional groups are taken. */
  lemma Opt2Triple(t: string, o: nat, a: string, c: string, d: string,
                   sa: set<char>, sc: set<char>, sd: set<char>, close: string)
    requires Opt2Shape(sa, sc, sd, close)
    requires HasAt(t, o, a) && Plain(a, sa) && HasAt(t, o + |a|, "|")
    requires HasAt(t, o + |a| + 1, c) && Plain(c, sc) && HasAt(t, o + |a| + 1 + |c|, "|")
    requires HasAt(t, o + |a| + 2 + |c|, d) && Plain(d, sd) && HasAt(t, o + |a| + 2 + |c| + |d|, close)
    ensures Opt2At(t, o, sa, sc, sd, close) == Some(Opt2(|a|, Present(|c|), Present(|d|)))
  {
    var p := Opt2(|a|, Present(|c|), Present(|d|));
    ClearOf(t, o, a, sa);
    ClearOf(t, o + |a| + 1, c, sc);
    ClearOf(t, o + |a| + 2 + |c|, d, sd);
    assert IsOpt2(t, o, sa, sc, sd, close, p);
  }

  // ---------------------------------------------------------------------------
  // Image embeds: ` ?\[\[File:[^[]+]] ?`
  // ---------------------------------------------------------------------------

  datatype Img = Img(lead: bool, n: nat, trail: bool)

  function Bit(b: bool): nat {
    if b then 1 else 0
  }

  /** Length of the text an image parse covers. */
  function ImgLen(p: Img): nat {
    Bit(p.lead) + 9 + p.n + Bit(p.trail)
  }

  ghost predicate IsImg(t: string, p: Img) {
    var b := Bit(p.lead);
    (p.lead ==> HasAt(t, 0, " ")) && HasAt(t, b, "[[File:") && Field(t, b + 7, p.n, {'['})
    && HasAt(t, b + 7 + p.n, "]]") && (p.trail ==> HasAt(t, b + 9 + p.n, " "))
  }

  /** `p` comes before `q` in backtracking order: leading space taken, longer run, trailing space taken. */
  predicate ImgBefore(p: Img, q: Img) {
    (p.lead && !q.lead) || (p.lead == q.lead && (p.n > q.n || (p.n == q.n && p.trail && !q.trail)))
  }

  /** A parse takes the leading space exactly when the text starts with one. */
  lemma ImgLead(t: string, p: Img)
    requires IsImg(t, p)
    ensures p.lead == HasAt(t, 0, " ")
  {
    if !p.lead {
      HasAtChar(t, 0, "[[File:", 0);
      HasAtNot(t, 0, " ", 0);
    }
  }

  /** The closing brackets of a parse lie inside the run of non-`[` characters after `File:`. */
  lemma ImgInRun(t: string, p: Img)
    requires IsImg(t, p)
    ensures Bit(p.lead) + 9 + p.n <= Run(t, Bit(p.lead) + 7, {'['})
  {
    var b := Bit(p.lead);
    RunMax(t, b + 7, b + 7 + p.n, {'['});
    RunCovers(t, b + 7, {'['}, b + 7 + p.n, "]]");
  }

  /** Closing brackets inside the run give a parse. */
  lemma ImgFrom(t: string, b: nat, q: nat)
    requires b <= 1 && (b == 1 ==> HasAt(t, 0, " ")) && HasAt(t, b, "[[File:")
    requires b + 8 <= q && q + 2 <= Run(t, b + 7, {'['}) && HasAt(t, q, "]]")
    ensures IsImg(t, Img(b == 1, q - b - 7, HasAt(t, q + 2, " ")))
  {
    assert Clear(t, b + 7, q, {'['});
  }

  /** The image parse the regex picks: the run reaches the last `]]` before the next `[`. */
  function ImgAt(t: string): (r: Option<Img>)
    ensures r.Some? ==> IsImg(t, r.value)
    ensures forall p :: IsImg(t, p) ==> r.Some? && !ImgBefore(p, r.value)
  {
    var b := if HasAt(t, 0, " ") then 1 else 0;
    if !HasAt(t, b, "[[File:") then
      assert forall p :: !IsImg(t, p) by {
        forall p | IsImg(t, p) ensures Bit(p.lead) == b {
          ImgLead(t, p);
        }
      }
      None
    else
      var e := Run(t, b + 7, {'['});
      var last := LastAt(t, b + 8, e - 2, "]]");
      assert forall p :: IsImg(t, p) ==> Bit(p.lead) == b && last.Some? && b + 7 + p.n <= last.value by {
        forall p | IsImg(t, p) ensures Bit(p.lead) == b && last.Some? && b + 7 + p.n <= last.value {
          ImgLead(t, p);
          ImgInRun(t, p);
        }
      }
      match last
      case None => None
      case Some(q) =>
        ImgFrom(t, b, q);
        Some(Img(b == 1, q - b - 7, HasAt(t, q + 2, " ")))
  }

  /** The conditions under which `ImgOf` holds leave no parse but `Img(lead, |x|, trail)` that is not
      behind it in backtracking order. */
  lemma ImgOfUnique(t: string, lead: bool, x: string, trail: bool, r: Img)
    requires lead ==> HasAt(t, 0, " ")
    requires HasAt(t, Bit(lead), "[[File:") && HasAt(t, Bit(lead) + 7, x) && Plain(x, {'['})
    requires HasAt(t, Bit(lead) + 7 + |x|, "]]")
    requires trail ==> HasAt(t, Bit(lead) + 9 + |x|, " ")
    requires var e := Bit(lead) + 9 + |x| + Bit(trail); e == |t| || t[e] == '['
    requires IsImg(t, Img(lead, |x|, trail)) && IsImg(t, r) && !ImgBefore(Img(lead, |x|, trail), r)
    ensures r == Img(lead, |x|, trail)
  {
    var b := Bit(lead);
    var p := Img(lead, |x|, trail);
    var e := b + 9 + |x| + Bit(trail);
    assert r.lead == lead by {
      ImgLead(t, r);
      ImgLead(t, p);
    }
    assert b + 9 + r.n <= e by {
      ImgInRun(t, r);
    }
    if trail {
      HasAtChar(t, b + 9 + |x|, " ", 0);
      HasAtNot(t, b + 8 + |x|, "]]", 1);
    }
    assert r.n == p.n;
    if r.trail {
      HasAtChar(t, b + 9 + r.n, " ", 0);
    }
  }

  /** An embed whose run of non-`[` characters ends right after it is found whole. */
  lemma ImgOf(t: string, lead: bool, x: string, trail: bool)
    requires lead ==> HasAt(t, 0, " ")
    requires HasAt(t, Bit(lead), "[[File:") && HasAt(t, Bit(lead) + 7, x) && Plain(x, {'['})
    requires HasAt(t, Bit(lead) + 7 + |x|, "]]")
    requires trail ==> HasAt(t, Bit(lead) + 9 + |x|, " ")
    requires var e := Bit(lead) + 9 + |x| + Bit(trail); e == |t| || t[e] == '['
    ensures ImgAt(t) == Some(Img(lead, |x|, trail))
  {
    assert IsImg(t, Img(lead, |x|, trail)) by {
      ClearOf(t, Bit(lead) + 7, x, {'['});
    }
    ImgOfUnique(t, lead, x, trail, ImgAt(t).value);
  }
}
