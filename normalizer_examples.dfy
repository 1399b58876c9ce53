/**
 * The whole normaliser on characteristic inputs: a lone `sbc` template,
 * a nested one (the inner template is swallowed by the outer field and the
 * replacement is not scanned again), a bare embed, and a link inside a link,
 * which shows that running the normaliser twice can change the text again.
 */
module NormalizerExamples {
  import opened Wrappers
  import opened Text
  import opened Templates
  import opened Normalizer
  import opened NormalizerFacts
  import opened PassFacts

  /** Upper-casing adds no character that is not a letter. */
  lemma UpperAvoids(x: string, c: char)
    requires c !in x && !('a' <= c <= 'z') && !('A' <= c <= 'Z')
    ensures c !in Upper(x)
  {
    if c in Upper(x) {
      assert false;
    }
  }

  /** The passes after the first `k` leave a text lacking `{` alone, when all of them are template rules. */
  lemma TemplateRulesUntouched(k: nat, s: string)
    requires 4 <= k <= 15 && '{' !in s
    ensures ApplyRules(Catalogue[k..], s) == s
  {
    ApplyRulesUntouched(Catalogue[k..], s);
  }

  /** A pass that matches at the start and finds no trigger after the match. */
  lemma PassWhole(r: Rule, t: string, h: Hit)
    requires MatchAt(r, t) == Some(h) && Trigger(r) !in t[h.len..]
    ensures Pass(r, t) == h.out + t[h.len..]
  {
    PassUntouched(r, t[h.len..]);
  }

  /** Upper-casing works character by character, so it distributes over concatenation. */
  lemma UpperAppend(a: string, b: string)
    ensures Upper(a + b) == Upper(a) + Upper(b)
  {
    assert forall k :: 0 <= k < |a + b| ==> Upper(a + b)[k] == (Upper(a) + Upper(b))[k];
  }

  /** The normaliser on a text whose first pass gives `v`, where no rule matches in `v`. */
  lemma AfterFirstPass(t: string, v: string)
    requires Pass(SmallBoldCaps, t) == v
    requires forall r :: NoMatch(r, v)
    ensures Normalize(t) == v
  {
    assert Catalogue[0..] == Catalogue;
    Step(Catalogue, 0, t);
    ApplyRulesFix(Catalogue[1..], v);
  }

  /** The first two passes, both template rules, leave a text without `{` alone. */
  lemma FirstTwoUntouched(t: string)
    requires '{' !in t
    ensures Normalize(t) == ApplyRules(Catalogue[2..], t)
  {
    TwoSteps(Catalogue, t);
    TemplatesFirst(t);
  }

  /** The two rules that run first are template rules, which leave a text without `{` alone. */
  lemma TemplatesFirst(t: string)
    requires '{' !in t
    ensures Pass(ChampionInline, Pass(SmallBoldCaps, t)) == t
  {
    PassUntouched(SmallBoldCaps, t);
    PassUntouched(ChampionInline, t);
  }

  /** The third and fourth passes are the link and the embed pass. */
  lemma LinkThenImage(t: string, v: string, w: string)
    requires Pass(Link, t) == v && Pass(Image, v) == w
    ensures ApplyRules(Catalogue[2..], t) == ApplyRules(Catalogue[4..], w)
  {
    var c := Catalogue[2..];
    TwoSteps(c, t);
    assert c[0] == Link && c[1] == Image && c[2..] == Catalogue[4..];
  }

  /** The normaliser on a text without `{`: the link pass gives `v`, the embed pass `w`. */
  lemma LinksOnly(t: string, v: string, w: string)
    requires '{' !in t && Pass(Link, t) == v && Pass(Image, v) == w && '{' !in w
    ensures Normalize(t) == w
  {
    FirstTwoUntouched(t);
    LinkThenImage(t, v, w);
    TemplateRulesUntouched(4, w);
  }

  /** The normaliser on a text whose first pass gives `v`, and `v` has neither `{` nor `[`. */
  lemma FirstPassOnly(t: string, v: string)
    requires Pass(SmallBoldCaps, t) == v && '{' !in v && '[' !in v
    ensures Normalize(t) == v
  {
    assert Catalogue[0..] == Catalogue;
    Step(Catalogue, 0, t);
    ApplyRulesUntouched(Catalogue[1..], v);
  }

  /** The `sbc` pass on a text that is one `sbc` template, possibly followed by `}` characters. */
  lemma SmallBoldCapsPass(t: string, x: string, tail: string)
    requires Plain(x, Brace) && t == "{{sbc|" + x + "}}" + tail && '{' !in tail
    ensures Pass(SmallBoldCaps, t) == Upper(x) + tail
  {
    Place(t, [], "{{sbc|" + x + "}}", tail);
    SmallBoldCapsOf(t, x);
    SmallBoldCapsMatch(t, Hit(|x| + 8, Upper(x)));
    assert t[|x| + 8..] == tail;
    PassWhole(SmallBoldCaps, t, Hit(|x| + 8, Upper(x)));
  }

  /** An `sbc` match is the match of the `sbc` rule. */
  lemma SmallBoldCapsMatch(t: string, h: Hit)
    requires SmallBoldCapsAt(t) == Some(h)
    ensures MatchAt(SmallBoldCaps, t) == Some(h)
  {
  }

  /** `{{sbc|TEXT}}` on its own, with no markup in the text, comes out as the text in capitals. */
  lemma SmallBoldCapsAlone(x: string)
    requires Plain(x, {'}', '{', '['})
    ensures Normalize("{{sbc|" + x + "}}") == Upper(x)
  {
    var t := "{{sbc|" + x + "}}";
    assert t == "{{sbc|" + x + "}}" + [];
    assert Plain(x, Brace);
    SmallBoldCapsPass(t, x, []);
    UpperAvoids(x, '{');
    UpperAvoids(x, '[');
    assert Upper(x) + [] == Upper(x);
    FirstPassOnly(t, Upper(x));
  }

  /** The letters a template rule's name can start with. */
  const Heads: set<char> := {'s', 'c', 'C', 'a', 'A', 'R', 'b', 't', 'u', 'f'}

  /** A template rule matches only at `{{` followed by the first letter of one of the template names. */
  lemma TemplateHead(r: Rule, t: string)
    requires r != Link && r != Image && r != ImageAsWritten && MatchAt(r, t).Some?
    ensures HasAt(t, 0, "{{") && 3 <= |t| && t[2] in Heads
  {
    match r
    case SmallBoldCaps => HasAtChar(t, 2, "sbc|", 0);
    case ChampionInline => HasAtChar(t, 2, "ci|", 0);
    case Ability => HasAtChar(t, 2, "ai|", 0);
    case RiotPoints => HasAtChar(t, 2, "RP", 0);
    case SummonerSpell => HasAtChar(t, 2, "si|", 0);
    case ChampionIcon =>
    case AsTemplate =>
    case Stat => HasAtChar(t, 2, "sti|", 0);
    case Buff => HasAtChar(t, 2, "bi|", 0);
    case Tooltip => HasAtChar(t, 2, "tt|", 0);
    case Unit => HasAtChar(t, 2, "ui|", 0);
    case ChampionSkin => HasAtChar(t, 2, "csl|", 0);
    case Faction => HasAtChar(t, 2, "fi|", 0);
  }

  /** A text whose only `{{` is at its start, followed by a letter no template name starts
      with, and which has no `[`, is matched by no rule. */
  lemma DeadOpener(r: Rule, u: string)
    requires 3 <= |u| && u[0] == '{' && u[1] == '{' && u[2] !in Heads && '[' !in u
    requires forall i :: 2 <= i < |u| ==> u[i] != '{'
    ensures NoMatch(r, u)
  {
    if Trigger(r) == '[' {
      NoTriggerNoMatch(r, u);
    } else {
      forall i | 0 <= i < |u|
        ensures MatchAt(r, u[i..]).None?
      {
        if MatchAt(r, u[i..]).Some? {
          TemplateHead(r, u[i..]);
          HasAtChar(u[i..], 0, "{{", 1);
        }
      }
    }
  }

  /** `{{sbc|{{sbc|TEXT}}}}` becomes `{{SBC|TEXT}}` with the text upper-cased: the outer field runs to the
      first `}`, so the match ends at the inner `}}`, and the upper-cased replacement, which
      now starts with `{{SBC|`, is not scanned again. With `x` for the text this is the
      input `{{sbc|{{sbc|x}}}}` giving `{{SBC|X}}`. */
  lemma NestedSmallBoldCaps(x: string)
    requires Plain(x, {'}', '{', '['})
    ensures Pass(SmallBoldCaps, "{{sbc|{{sbc|" + x + "}}}}") == "{{SBC|" + Upper(x) + "}}"
    ensures Normalize("{{sbc|{{sbc|" + x + "}}}}") == "{{SBC|" + Upper(x) + "}}"
  {
    var t := "{{sbc|{{sbc|" + x + "}}}}";
    var y := "{{sbc|" + x;
    assert t == "{{sbc|" + y + "}}" + "}}";
    assert Plain(y, Brace);
    SmallBoldCapsPass(t, y, "}}");
    UpperAppend("{{sbc|", x);
    UpperOpener();
    var u := "{{SBC|" + Upper(x) + "}}";
    assert Pass(SmallBoldCaps, t) == u;
    UpperAvoids(x, '{');
    UpperAvoids(x, '[');
    NestedResultDead(Upper(x), u);
    AfterFirstPass(t, u);
  }

  /** What the nested example leaves is matched by no later rule. */
  lemma NestedResultDead(z: string, u: string)
    requires '{' !in z && '[' !in z && u == "{{SBC|" + z + "}}"
    ensures forall r :: NoMatch(r, u)
  {
    forall i | 2 <= i < |u| ensures u[i] != '{' {
      if 6 <= i < 6 + |z| {
        assert u[i] == z[i - 6];
      }
    }
    forall r {
      DeadOpener(r, u);
    }
  }

  lemma UpperOpener()
    ensures Upper("{{sbc|") == "{{SBC|"
  {
    assert UpperChar('s') == 'S' && UpperChar('b') == 'B' && UpperChar('c') == 'C';
    assert forall k :: 0 <= k < 6 ==> Upper("{{sbc|")[k] == "{{SBC|"[k];
  }

  /** The link pass keeps a text that is one link to a `File:` page. */
  lemma FileLinkPass(t: string, page: string)
    requires Plain(page, LinkBar) && HasAt(page, 0, "File:") && t == "[[" + page + "]]"
    ensures Pass(Link, t) == t
  {
    assert HasAt(t, 0, t);
    FileLinkOf(t, page);
    var h := Hit(|page| + 4, "[[" + page + "]]");
    LinkMatch(t, h);
    assert |t| == h.len && t[h.len..] == [];
    PassWhole(Link, t, h);
  }

  /** A link match is the match of the link rule. */
  lemma LinkMatch(t: string, h: Hit)
    requires LinkAt(t) == Some(h)
    ensures MatchAt(Link, t) == Some(h)
  {
  }

  /** The embed pass turns a text that is one embed into one space. */
  lemma EmbedPass(t: string, x: string)
    requires Plain(x, {'['}) && t == "[[File:" + x + "]]"
    ensures Pass(Image, t) == " "
  {
    assert t == Space(false) + "[[File:" + x + "]]" + Space(false);
    assert HasAt(t, 0, t);
    ImageOf(t, false, x, false);
    assert t[|t|..] == [];
    PassWhole(Image, t, Hit(|t|, " "));
  }

  /** On `[[File:NAME]]` with a name of two or more characters the pattern as written matches
      only `[[File:` and the first character of the name, leaving the rest of the embed in the
      text, while the pattern that was meant matches the whole embed. */
  lemma ImageAsWrittenCutsEmbed(x: string)
    requires Plain(x, {'['}) && |x| >= 2 && x[0] != ']' && x[0] != '+' && x[1] != ' '
    ensures var t := "[[File:" + x + "]]";
      ImageAtAsWritten(t) == Some(Hit(8, " ")) && ImageAt(t) == Some(Hit(|t|, " ")) && 8 < |t|
  {
    var t := "[[File:" + x + "]]";
    assert t == Space(false) + "[[File:" + x + "]]" + Space(false);
    assert HasAt(t, 0, t);
    ImageOf(t, false, x, false);
    WrittenCut(x);
  }

  /** The pattern as written matches `[[File:` and one more character of `[[File:NAME]]`. */
  lemma WrittenCut(x: string)
    requires |x| >= 2 && x[0] != ']' && x[0] != '+' && x[1] != ' '
    ensures ImageAtAsWritten("[[File:" + x + "]]") == Some(Hit(8, " "))
  {
    var t := "[[File:" + x + "]]";
    assert HasAt(t, 0, "[[File:");
    assert t[0] == '[' && t[7] == x[0] && t[8] == x[1];
    WrittenAt(t);
  }

  /** Where the text opens with `[[File:` and a character other than `]` and `+` that is not
      followed by a space, the pattern as written matches those eight characters. */
  lemma WrittenAt(t: string)
    requires HasAt(t, 0, "[[File:") && 9 <= |t| && t[0] != ' ' && t[7] != ']' && t[7] != '+' && t[8] != ' '
    ensures ImageAtAsWritten(t) == Some(Hit(8, " "))
  {
    HasAtNot(t, 0, " ", 0);
    HasAtNot(t, 8, " ", 0);
  }

  /** `[[File:NAME]]` on its own: the link pass keeps it, the embed pass makes it one space. */
  lemma EmbedBecomesSpace(x: string)
    requires Plain(x, {'[', ']', '|', '{'})
    ensures Normalize("[[File:" + x + "]]") == " "
  {
    var t := "[[File:" + x + "]]";
    var page := "File:" + x;
    Avoids("[[File:", x, "]]", '{');
    assert t == "[[" + page + "]]";
    assert Plain(page, LinkBar) && HasAt(page, 0, "File:");
    FileLinkPass(t, page);
    assert Plain(x, {'['});
    EmbedPass(t, x);
    LinksOnly(t, t, " ");
  }

  /** The embed pass as written on `[[File:NAME]]`: a space, then the name without its first
      character and the closing `]]`. */
  lemma EmbedPassAsWritten(x: string)
    requires Plain(x, {'[', ' '}) && |x| >= 2 && x[0] != ']' && x[0] != '+'
    ensures Pass(ImageAsWritten, "[[File:" + x + "]]") == " " + (x[1..] + "]]")
  {
    WrittenCut(x);
    EmbedRest(x);
    RestAvoids(x);
    CutPass("[[File:" + x + "]]", x[1..] + "]]");
  }

  /** No `[` follows the first character of a name without one. */
  lemma RestAvoids(x: string)
    requires Plain(x, {'['})
    ensures '[' !in x[1..] + "]]"
  {
    assert forall k :: 0 <= k < |x| - 1 ==> x[1..][k] == x[k + 1];
  }

  /** The embed pass as written on a text where it matches eight characters and no `[` follows. */
  lemma CutPass(t: string, rest: string)
    requires ImageAtAsWritten(t) == Some(Hit(8, " ")) && t[8..] == rest && '[' !in rest
    ensures Pass(ImageAsWritten, t) == " " + rest
  {
    var h := Hit(8, " ");
    assert MatchAt(ImageAsWritten, t) == Some(h);
    PassWhole(ImageAsWritten, t, h);
  }

  /** What follows `[[File:` and the first character of the name. */
  lemma EmbedRest(x: string)
    requires |x| >= 1
    ensures ("[[File:" + x + "]]")[8..] == x[1..] + "]]"
  {
    var t := "[[File:" + x + "]]";
    assert forall k :: 0 <= k < |x| - 1 ==> t[8 + k] == x[1..][k];
  }

  /** With the embed pattern as written, too, the first two passes leave a text without `{` alone. */
  lemma FirstTwoUntouchedAsWritten(t: string)
    requires '{' !in t
    ensures NormalizeAsWritten(t) == ApplyRules(CatalogueAsWritten[2..], t)
  {
    TwoSteps(CatalogueAsWritten, t);
    TemplatesFirst(t);
  }

  /** The third and fourth passes of the catalogue as written; the template passes after them
      are those of the catalogue. */
  lemma LinkThenImageAsWritten(t: string, v: string, w: string)
    requires Pass(Link, t) == v && Pass(ImageAsWritten, v) == w
    ensures ApplyRules(CatalogueAsWritten[2..], t) == ApplyRules(Catalogue[4..], w)
  {
    var c := CatalogueAsWritten[2..];
    TwoSteps(c, t);
    assert c[0] == Link && c[1] == ImageAsWritten && c[2..] == Catalogue[4..];
  }

  /** The normaliser as written on a text without `{`: the link pass gives `v`, the embed pass `w`. */
  lemma LinksOnlyAsWritten(t: string, v: string, w: string)
    requires '{' !in t && Pass(Link, t) == v && Pass(ImageAsWritten, v) == w && '{' !in w
    ensures NormalizeAsWritten(t) == w
  {
    FirstTwoUntouchedAsWritten(t);
    LinkThenImageAsWritten(t, v, w);
    TemplateRulesUntouched(4, w);
  }

  /**
   * `[[File:NAME]]` on its own through the passes with the embed pattern as written: the link
   * pass keeps it, the embed pass replaces `[[File:` and the first character of the name with a
   * space, and the rest of the name and the closing `]]` stay in the text.
   */
  lemma EmbedCutAsWritten(x: string)
    requires Plain(x, {'[', ']', '|', '{', ' '}) && |x| >= 2 && x[0] != '+'
    ensures NormalizeAsWritten("[[File:" + x + "]]") == " " + x[1..] + "]]"
  {
    var t := "[[File:" + x + "]]";
    var page := "File:" + x;
    Avoids("[[File:", x, "]]", '{');
    assert t == "[[" + page + "]]";
    assert Plain(page, LinkBar) && HasAt(page, 0, "File:");
    FileLinkPass(t, page);
    assert Plain(x, {'[', ' '});
    EmbedPassAsWritten(x);
    Avoids(" ", x[1..], "]]", '{');
    assert " " + x[1..] + "]]" == " " + (x[1..] + "]]");
    LinksOnlyAsWritten(t, t, " " + x[1..] + "]]");
  }

  /** `[[File:icon.png]]`: with the pattern as written the text keeps `con.png]]`; with the
      pattern that was meant it becomes one space. */
  lemma IconEmbedAsWritten(t: string)
    requires t == "[[File:icon.png]]"
    ensures NormalizeAsWritten(t) == " con.png]]" && Normalize(t) == " "
  {
    var x := "icon.png";
    assert Plain(x, {'[', ']', '|', '{', ' '});
    assert t == "[[File:" + x + "]]";
    assert x[1..] == "con.png";
    var w := " " + x[1..] + "]]";
    assert w == " con.png]]";
    EmbedCutAsWritten(x);
    assert NormalizeAsWritten(t) == w;
    EmbedBecomesSpace(x);
  }

  /** A character missing from all three parts is missing from their concatenation. */
  lemma Avoids(pre: string, x: string, post: string, c: char)
    requires c !in pre && c !in post && forall k :: 0 <= k < |x| ==> x[k] != c
    ensures c !in pre + x + post
  {
  }

  /** Every embed match contains `[[File:` at its start or one character in. */
  lemma ImageOpens(s: string, i: nat)
    requires i < |s| && MatchAt(Image, s[i..]).Some?
    ensures HasAt(s, i, "[[File:") || HasAt(s, i + 1, "[[File:")
  {
    var q := Bit(HasAt(s[i..], 0, " "));
    assert HasAt(s[i..], q, "[[File:");
    forall k | 0 <= k < 7 ensures s[i + q + k] == "[[File:"[k] {
      HasAtChar(s[i..], q, "[[File:", k);
    }
  }

  /** `[[` + TEXT + `]]` holds no embed when TEXT has no `[` and does not start with `File:`. */
  lemma NoEmbedInLink(a: string)
    requires Plain(a, {'[', ']', '|', '{'}) && !HasAt(a, 0, "File:")
    ensures NoMatch(Image, "[[" + a + "]]")
  {
    var v := "[[" + a + "]]";
    forall i | 0 <= i < |v|
      ensures MatchAt(Image, v[i..]).None?
    {
      if MatchAt(Image, v[i..]).Some? {
        ImageOpens(v, i);
        NoFileIn(a, v, i);
        NoFileIn(a, v, i + 1);
      }
    }
  }

  /** In `[[` + TEXT + `]]`, with TEXT as above, `[[File:` occurs nowhere. */
  lemma NoFileIn(a: string, v: string, q: nat)
    requires Plain(a, {'[', ']', '|', '{'}) && !HasAt(a, 0, "File:") && v == "[[" + a + "]]"
    ensures !HasAt(v, q, "[[File:")
  {
    if q + 7 <= |v| {
      if q == 0 {
        if |a| < 5 {
          HasAtNot(v, 0, "[[File:", |a| + 2);
        } else {
          var j :| 0 <= j < 5 && a[j] != "File:"[j];
          assert v[j + 2] == a[j];
          HasAtNot(v, 0, "[[File:", j + 2);
        }
      } else {
        if q + 1 < 2 + |a| {
          assert v[q + 1] == a[q - 1];
        }
        HasAtNot(v, q, "[[File:", 1);
      }
    }
  }

  /** The link pass on a text that is one ordinary link, possibly followed by `]` characters. */
  lemma LinkPass(t: string, page: string, tail: string)
    requires Plain(page, LinkBar) && !HasAt(page, 0, "File:") && t == "[[" + page + "]]" + tail
    requires '[' !in tail
    ensures Pass(Link, t) == page + tail
  {
    Place(t, [], "[[" + page + "]]", tail);
    LinkPageOf(t, page);
    LinkMatch(t, Hit(|page| + 4, page));
    assert t[|page| + 4..] == tail;
    PassWhole(Link, t, Hit(|page| + 4, page));
  }

  /** The first run on a link inside a link: the outer brackets and the inner closing ones go. */
  lemma LinkInLinkOnce(a: string)
    requires Plain(a, {'[', ']', '|', '{'}) && !HasAt(a, 0, "File:")
    ensures Normalize("[[[[" + a + "]]]]") == "[[" + a + "]]"
  {
    var t := "[[[[" + a + "]]]]";
    var page := "[[" + a;
    var v := "[[" + a + "]]";
    assert t == "[[" + page + "]]" + "]]" && v == page + "]]";
    assert Plain(page, LinkBar);
    assert !HasAt(page, 0, "File:") by {
      if HasAt(page, 0, "File:") {
        HasAtChar(page, 0, "File:", 0);
      }
    }
    LinkPass(t, page, "]]");
    NoEmbedInLink(a);
    PassFix(Image, v);
    assert '{' !in t && '{' !in v;
    LinksOnly(t, v, v);
  }

  /** The second run: the remaining link goes as well. */
  lemma LinkInLinkTwice(a: string)
    requires Plain(a, {'[', ']', '|', '{'}) && !HasAt(a, 0, "File:")
    ensures Normalize("[[" + a + "]]") == a
  {
    var v := "[[" + a + "]]";
    assert v == "[[" + a + "]]" + [] && a + [] == a;
    assert Plain(a, LinkBar);
    LinkPass(v, a, []);
    NoTriggerNoMatch(Image, a);
    PassFix(Image, a);
    assert '{' !in v && '{' !in a;
    LinksOnly(v, a, a);
  }

  /** A link around plain text inside another link: one run of the normaliser leaves the
      inner link, a second run removes that too, so the normaliser is not idempotent
      (`[[[[a]]]]` gives `[[a]]`, which gives `a`). */
  lemma LinkInLink(a: string)
    requires Plain(a, {'[', ']', '|', '{'}) && !HasAt(a, 0, "File:")
    ensures Normalize("[[[[" + a + "]]]]") == "[[" + a + "]]"
    ensures Normalize("[[" + a + "]]") == a
    ensures Normalize(Normalize("[[[[" + a + "]]]]")) != Normalize("[[[[" + a + "]]]]")
  {
    LinkInLinkOnce(a);
    LinkInLinkTwice(a);
  }
}
