/**
 * What the normaliser does: each matcher on the templates it is meant for,
 * the properties of a `replace_all` pass, and the effect of the whole chain
 * on plain text, on embeds and on nested markup.
 *
 * A field written `[^}|]+` in a pattern is, in these statements, a string
 * that is `Plain` with respect to `Bar` (non-empty, neither `}` nor `|`),
 * and so on for the other character classes.
 *
 * Each matcher is treated in three steps: what it returns once the parse of
 * its fields is known (`...Unfold`), what it returns on fields found at known
 * offsets (`...Fields`), and what it returns on a text that starts with the
 * template written out (`...Of`), which is the statement about the source.
 */
module NormalizerFacts {
  import opened Wrappers
  import opened Text
  import opened Templates
  import opened Normalizer

  // ---------------------------------------------------------------------------
  // Locating the fields of a template written out at the start of the text
  // ---------------------------------------------------------------------------

  /** A template prefix with one field: `pre`, then `a`, then `post`. */
  lemma Field1(t: string, pre: string, a: string, post: string)
    requires HasAt(t, 0, pre + a + post)
    ensures HasAt(t, 0, pre) && HasAt(t, |pre|, a) && HasAt(t, |pre| + |a|, post)
  {
    HasAtSplit(t, 0, pre + a, post);
    HasAtSplit(t, 0, pre, a);
  }

  /** A template prefix with two fields: `pre`, `a`, a bar, `c`, then `post`. */
  lemma Field2(t: string, pre: string, a: string, c: string, post: string)
    requires HasAt(t, 0, pre + a + "|" + c + post)
    ensures HasAt(t, 0, pre) && HasAt(t, |pre|, a) && HasAt(t, |pre| + |a|, "|")
    ensures HasAt(t, |pre| + |a| + 1, c) && HasAt(t, |pre| + |a| + 1 + |c|, post)
  {
    HasAtSplit(t, 0, pre + a + "|" + c, post);
    HasAtSplit(t, 0, pre + a + "|", c);
    HasAtSplit(t, 0, pre + a, "|");
    HasAtSplit(t, 0, pre, a);
  }

  /** A template prefix with three fields. */
  lemma Field3(t: string, pre: string, a: string, c: string, d: string, post: string)
    requires HasAt(t, 0, pre + a + "|" + c + "|" + d + post)
    ensures HasAt(t, 0, pre) && HasAt(t, |pre|, a) && HasAt(t, |pre| + |a|, "|")
    ensures HasAt(t, |pre| + |a| + 1, c) && HasAt(t, |pre| + |a| + 1 + |c|, "|")
    ensures HasAt(t, |pre| + |a| + 2 + |c|, d) && HasAt(t, |pre| + |a| + 2 + |c| + |d|, post)
  {
    HasAtSplit(t, 0, pre + a + "|" + c + "|" + d, post);
    HasAtSplit(t, 0, pre + a + "|" + c + "|", d);
    Field2(t, pre, a, c, "|");
  }

  /** The text starts with `{{name`. */
  lemma OpensOf(t: string, name: string)
    requires HasAt(t, 0, "{{" + name)
    ensures Opens(t, name)
  {
    HasAtSplit(t, 0, "{{", name);
  }

  // ---------------------------------------------------------------------------
  // sbc, RP, si, as, tt: one or two fields and no choice
  // ---------------------------------------------------------------------------

  lemma SmallBoldCapsFields(t: string, x: string)
    requires Opens(t, "sbc|") && Plain(x, Brace) && HasAt(t, 6, x) && HasAt(t, 6 + |x|, "}}")
    ensures SmallBoldCapsAt(t) == Some(Hit(|x| + 8, Upper(x)))
  {
    HasAtSlice(t, 6, x);
    OneOf(t, 6, x, Brace, 1, "}}");
  }

  /** `{{sbc|TEXT}}` is replaced by the text in capitals. */
  lemma SmallBoldCapsOf(t: string, x: string)
    requires Plain(x, Brace) && HasAt(t, 0, "{{sbc|" + x + "}}")
    ensures SmallBoldCapsAt(t) == Some(Hit(|x| + 8, Upper(x)))
  {
    Field1(t, "{{sbc|", x, "}}");
    assert "{{sbc|" == "{{" + "sbc|";
    OpensOf(t, "sbc|");
    SmallBoldCapsFields(t, x);
  }

  lemma RiotPointsFields(t: string, x: string)
    requires Opens(t, "RP") && (forall k :: 0 <= k < |x| ==> x[k] != '}')
    requires HasAt(t, 4, x) && HasAt(t, 4 + |x|, "}}")
    ensures RiotPointsAt(t) == Some(Hit(|x| + 6, "RP"))
  {
    OneOf(t, 4, x, Brace, 0, "}}");
  }

  /** `{{RP}}`, or `{{RP` and anything without `}` before `}}`, becomes `RP`. */
  lemma RiotPointsOf(t: string, x: string)
    requires (forall k :: 0 <= k < |x| ==> x[k] != '}') && HasAt(t, 0, "{{RP" + x + "}}")
    ensures RiotPointsAt(t) == Some(Hit(|x| + 6, "RP"))
  {
    Field1(t, "{{RP", x, "}}");
    assert "{{RP" == "{{" + "RP";
    OpensOf(t, "RP");
    RiotPointsFields(t, x);
  }

  lemma SummonerSpellFields(t: string, x: string)
    requires Opens(t, "si|") && Plain(x, Brace) && HasAt(t, 5, x) && HasAt(t, 5 + |x|, "}}")
    ensures SummonerSpellAt(t) == Some(Hit(|x| + 7, x))
  {
    HasAtSlice(t, 5, x);
    OneOf(t, 5, x, Brace, 1, "}}");
  }

  /** `{{si|SPELL}}` gives the spell. */
  lemma SummonerSpellOf(t: string, x: string)
    requires Plain(x, Brace) && HasAt(t, 0, "{{si|" + x + "}}")
    ensures SummonerSpellAt(t) == Some(Hit(|x| + 7, x))
  {
    Field1(t, "{{si|", x, "}}");
    assert "{{si|" == "{{" + "si|";
    OpensOf(t, "si|");
    SummonerSpellFields(t, x);
  }

  lemma AsTemplateFields(t: string, x: string)
    requires HasAt(t, 0, "{{") && 5 <= |t| && t[2] in {'a', 'A'} && HasAt(t, 3, "s|")
    requires Plain(x, Bar) && HasAt(t, 5, x) && HasAt(t, 5 + |x|, "}}")
    ensures AsTemplateAt(t) == Some(Hit(|x| + 7, x))
  {
    HasAtSlice(t, 5, x);
    OneOf(t, 5, x, Bar, 1, "}}");
  }

  /** `{{as|TEXT}}` and `{{As|TEXT}}` give the text. */
  lemma AsTemplateOf(t: string, c: char, x: string)
    requires (c == 'a' || c == 'A') && Plain(x, Bar) && HasAt(t, 0, "{{" + [c] + "s|" + x + "}}")
    ensures AsTemplateAt(t) == Some(Hit(|x| + 7, x))
  {
    Field1(t, "{{" + [c] + "s|", x, "}}");
    HasAtSplit(t, 0, "{{" + [c], "s|");
    HasAtSplit(t, 0, "{{", [c]);
    HasAtChar(t, 2, [c], 0);
    AsTemplateFields(t, x);
  }

  lemma TooltipFields(t: string, x: string, hover: string)
    requires Opens(t, "tt|") && Plain(x, Bar) && Plain(hover, Bar)
    requires HasAt(t, 5, x) && HasAt(t, 5 + |x|, "|") && HasAt(t, 5 + |x| + 1, hover)
    requires HasAt(t, 5 + |x| + 1 + |hover|, "}}")
    ensures TooltipAt(t) == Some(Hit(|x| + |hover| + 8, x))
  {
    HasAtSlice(t, 5, x);
    OneOf(t, 5, x, Bar, 1, "|");
    OneOf(t, 6 + |x|, hover, Bar, 1, "}}");
  }

  /** `{{tt|TEXT|HOVER}}` gives the text; the hover text is dropped. */
  lemma TooltipOf(t: string, x: string, hover: string)
    requires Plain(x, Bar) && Plain(hover, Bar) && HasAt(t, 0, "{{tt|" + x + "|" + hover + "}}")
    ensures TooltipAt(t) == Some(Hit(|x| + |hover| + 8, x))
  {
    Field2(t, "{{tt|", x, hover, "}}");
    assert "{{tt|" == "{{" + "tt|";
    OpensOf(t, "tt|");
    TooltipFields(t, x, hover);
  }

  // ---------------------------------------------------------------------------
  // ci, sti, bi, ui, fi: a name and an optional display name
  // ---------------------------------------------------------------------------

  lemma NamedSingle(t: string, o: nat, a: string, sb: set<char>)
    requires 2 <= o && HasAt(t, 0, "{{") && '}' in sb
    requires HasAt(t, o, a) && HasAt(t, o + |a|, "}}") && Plain(a, Bar)
    ensures NamedAt(t, o, sb) == Some(Hit(o + |a| + 2, a))
  {
    HasAtSlice(t, o, a);
    Opt1Single(t, o, a, Bar, sb, "}}");
  }

  lemma NamedPair(t: string, o: nat, a: string, b: string, sb: set<char>)
    requires 2 <= o && HasAt(t, 0, "{{") && '}' in sb
    requires HasAt(t, o, a) && HasAt(t, o + |a|, "|") && HasAt(t, o + |a| + 1, b)
    requires HasAt(t, o + |a| + 1 + |b|, "}}") && Plain(a, Bar) && Plain(b, sb)
    ensures NamedAt(t, o, sb) == Some(Hit(o + |a| + |b| + 3, b))
  {
    Opt1Pair(t, o, a, b, Bar, sb, "}}");
    NamedPresent(t, o, sb, |a|, |b|);
    HasAtSlice(t, o + |a| + 1, b);
  }

  /** `NamedAt` once its parse is known to take the optional field. */
  lemma NamedPresent(t: string, o: nat, sb: set<char>, n: nat, m: nat)
    requires 2 <= o <= |t| && HasAt(t, 0, "{{") && '}' in sb
    requires Opt1At(t, o, Bar, sb, "}}") == Some(Opt1(n, Present(m)))
    ensures o + n + 1 + m <= |t| && NamedAt(t, o, sb) == Some(Hit(o + n + m + 3, t[o + n + 1..o + n + 1 + m]))
  {
  }

  /** `{{name a}}` for a rule built on `NamedAt` with its first field at `2 + |name|`. */
  lemma NamedBare(t: string, name: string, a: string, sb: set<char>)
    requires '}' in sb && Plain(a, Bar) && HasAt(t, 0, "{{" + name + a + "}}")
    ensures Opens(t, name) && NamedAt(t, 2 + |name|, sb) == Some(Hit(|name| + |a| + 4, a))
  {
    Field1(t, "{{" + name, a, "}}");
    OpensOf(t, name);
    NamedSingle(t, 2 + |name|, a, sb);
  }

  /** `{{name a|d}}` for the same rules: the display name `d`. */
  lemma NamedDisplay(t: string, name: string, a: string, d: string, sb: set<char>)
    requires '}' in sb && Plain(a, Bar) && Plain(d, sb) && HasAt(t, 0, "{{" + name + a + "|" + d + "}}")
    ensures Opens(t, name) && NamedAt(t, 2 + |name|, sb) == Some(Hit(|name| + |a| + |d| + 5, d))
  {
    Field2(t, "{{" + name, a, d, "}}");
    OpensOf(t, name);
    NamedPair(t, 2 + |name|, a, d, sb);
  }

  /** `{{ci|CHAMPION}}` gives the champion. */
  lemma ChampionInlineBareOf(t: string, a: string)
    requires Plain(a, Bar) && HasAt(t, 0, "{{ci|" + a + "}}")
    ensures ChampionInlineAt(t) == Some(Hit(|a| + 7, a))
  {
    assert "{{ci|" == "{{" + "ci|";
    NamedBare(t, "ci|", a, Brace);
  }

  /** `{{ci|CHAMPION|NAME}}` gives the custom name, which may hold bars. */
  lemma ChampionInlineCustomOf(t: string, a: string, c: string)
    requires Plain(a, Bar) && Plain(c, Brace) && HasAt(t, 0, "{{ci|" + a + "|" + c + "}}")
    ensures ChampionInlineAt(t) == Some(Hit(|a| + |c| + 8, c))
  {
    assert "{{ci|" == "{{" + "ci|";
    NamedDisplay(t, "ci|", a, c, Brace);
  }

  /** `{{sti|ATTRIBUTE}}` gives the attribute. */
  lemma StatBareOf(t: string, a: string)
    requires Plain(a, Bar) && HasAt(t, 0, "{{sti|" + a + "}}")
    ensures StatAt(t) == Some(Hit(|a| + 8, a))
  {
    assert "{{sti|" == "{{" + "sti|";
    NamedBare(t, "sti|", a, Bar);
  }

  /** `{{sti|ATTRIBUTE|DISPLAY}}` gives the display name. */
  lemma StatDisplayOf(t: string, a: string, d: string)
    requires Plain(a, Bar) && Plain(d, Bar) && HasAt(t, 0, "{{sti|" + a + "|" + d + "}}")
    ensures StatAt(t) == Some(Hit(|a| + |d| + 9, d))
  {
    assert "{{sti|" == "{{" + "sti|";
    NamedDisplay(t, "sti|", a, d, Bar);
  }

  /** `{{bi|BUFF}}` gives the buff. */
  lemma BuffBareOf(t: string, a: string)
    requires Plain(a, Bar) && HasAt(t, 0, "{{bi|" + a + "}}")
    ensures BuffAt(t) == Some(Hit(|a| + 7, a))
  {
    assert "{{bi|" == "{{" + "bi|";
    NamedBare(t, "bi|", a, Bar);
  }

  /** `{{bi|BUFF|DISPLAY}}` gives the display name. */
  lemma BuffDisplayOf(t: string, a: string, d: string)
    requires Plain(a, Bar) && Plain(d, Bar) && HasAt(t, 0, "{{bi|" + a + "|" + d + "}}")
    ensures BuffAt(t) == Some(Hit(|a| + |d| + 8, d))
  {
    assert "{{bi|" == "{{" + "bi|";
    NamedDisplay(t, "bi|", a, d, Bar);
  }

  /** `{{ui|UNIT}}` gives the unit. */
  lemma UnitBareOf(t: string, a: string)
    requires Plain(a, Bar) && HasAt(t, 0, "{{ui|" + a + "}}")
    ensures UnitAt(t) == Some(Hit(|a| + 7, a))
  {
    assert "{{ui|" == "{{" + "ui|";
    NamedBare(t, "ui|", a, Bar);
  }

  /** `{{ui|UNIT|DISPLAY}}` gives the display name. */
  lemma UnitDisplayOf(t: string, a: string, d: string)
    requires Plain(a, Bar) && Plain(d, Bar) && HasAt(t, 0, "{{ui|" + a + "|" + d + "}}")
    ensures UnitAt(t) == Some(Hit(|a| + |d| + 8, d))
  {
    assert "{{ui|" == "{{" + "ui|";
    NamedDisplay(t, "ui|", a, d, Bar);
  }

  /** `{{fi|FACTION}}` gives the faction. */
  lemma FactionBareOf(t: string, a: string)
    requires Plain(a, Bar) && HasAt(t, 0, "{{fi|" + a + "}}")
    ensures FactionAt(t) == Some(Hit(|a| + 7, a))
  {
    assert "{{fi|" == "{{" + "fi|";
    NamedBare(t, "fi|", a, Bar);
  }

  /** `{{fi|FACTION|DISPLAY}}` gives the display name. */
  lemma FactionDisplayOf(t: string, a: string, d: string)
    requires Plain(a, Bar) && Plain(d, Bar) && HasAt(t, 0, "{{fi|" + a + "|" + d + "}}")
    ensures FactionAt(t) == Some(Hit(|a| + |d| + 8, d))
  {
    assert "{{fi|" == "{{" + "fi|";
    NamedDisplay(t, "fi|", a, d, Bar);
  }

  // ---------------------------------------------------------------------------
  // Links and embeds
  // ---------------------------------------------------------------------------

  lemma LinkUnfold(t: string, p: Opt1, len: nat, x: string)
    requires HasAt(t, 0, "[[") && Opt1At(t, 2, LinkBar, {']'}, "]]") == Some(p) && Opt1End(2, p) + 2 == len
    requires !HasAt(t[2..2 + p.a], 0, "File:")
    requires p.b.Present? ==> SlotText(t, 2 + p.a, p.b) == x
    requires p.b.Absent? ==> t[2..2 + p.a] == x
    ensures LinkAt(t) == Some(Hit(len, x))
  {
  }

  lemma FileLinkUnfold(t: string, p: Opt1, len: nat)
    requires HasAt(t, 0, "[[") && Opt1At(t, 2, LinkBar, {']'}, "]]") == Some(p) && Opt1End(2, p) + 2 == len
    requires HasAt(t[2..2 + p.a], 0, "File:")
    ensures len <= |t| && LinkAt(t) == Some(Hit(len, t[..len]))
  {
  }

  lemma LinkPageFields(t: string, page: string)
    requires Plain(page, LinkBar) && HasAt(t, 0, "[[") && HasAt(t, 2, page) && HasAt(t, 2 + |page|, "]]")
    ensures Opt1At(t, 2, LinkBar, {']'}, "]]") == Some(Opt1(|page|, Absent)) && t[2..2 + |page|] == page
  {
    HasAtSlice(t, 2, page);
    Opt1Single(t, 2, page, LinkBar, {']'}, "]]");
  }

  lemma LinkTextFields(t: string, page: string, text: string)
    requires Plain(page, LinkBar) && Plain(text, {']'}) && HasAt(t, 0, "[[") && HasAt(t, 2, page)
    requires HasAt(t, 2 + |page|, "|") && HasAt(t, 2 + |page| + 1, text) && HasAt(t, 2 + |page| + 1 + |text|, "]]")
    ensures Opt1At(t, 2, LinkBar, {']'}, "]]") == Some(Opt1(|page|, Present(|text|)))
    ensures t[2..2 + |page|] == page && t[3 + |page|..3 + |page| + |text|] == text
  {
    HasAtSlice(t, 2, page);
    HasAtSlice(t, 2 + |page| + 1, text);
    Opt1Pair(t, 2, page, text, LinkBar, {']'}, "]]");
  }

  /** `[[PAGE]]` gives the page, for a page not starting with `File:`. */
  lemma LinkPageOf(t: string, page: string)
    requires Plain(page, LinkBar) && !HasAt(page, 0, "File:") && HasAt(t, 0, "[[" + page + "]]")
    ensures LinkAt(t) == Some(Hit(|page| + 4, page))
  {
    Field1(t, "[[", page, "]]");
    LinkPageFields(t, page);
    LinkUnfold(t, Opt1(|page|, Absent), |page| + 4, page);
  }

  /** `[[PAGE|TEXT]]` gives the text, for a page not starting with `File:`. */
  lemma LinkTextOf(t: string, page: string, text: string)
    requires Plain(page, LinkBar) && Plain(text, {']'}) && !HasAt(page, 0, "File:")
    requires HasAt(t, 0, "[[" + page + "|" + text + "]]")
    ensures LinkAt(t) == Some(Hit(|page| + |text| + 5, text))
  {
    Field2(t, "[[", page, text, "]]");
    LinkTextFields(t, page, text);
    LinkUnfold(t, Opt1(|page|, Present(|text|)), |page| + |text| + 5, text);
  }

  /** A link to a page starting with `File:` is left exactly as it is. */
  lemma FileLinkOf(t: string, page: string)
    requires Plain(page, LinkBar) && HasAt(page, 0, "File:") && HasAt(t, 0, "[[" + page + "]]")
    ensures LinkAt(t) == Some(Hit(|page| + 4, "[[" + page + "]]"))
  {
    Field1(t, "[[", page, "]]");
    LinkPageFields(t, page);
    HasAtSlice(t, 0, "[[" + page + "]]");
    FileLinkUnfold(t, Opt1(|page|, Absent), |page| + 4);
  }

  /** The same with link text: the whole link is kept. */
  lemma FileLinkTextOf(t: string, page: string, text: string)
    requires Plain(page, LinkBar) && Plain(text, {']'}) && HasAt(page, 0, "File:")
    requires HasAt(t, 0, "[[" + page + "|" + text + "]]")
    ensures LinkAt(t) == Some(Hit(|page| + |text| + 5, "[[" + page + "|" + text + "]]"))
  {
    Field2(t, "[[", page, text, "]]");
    LinkTextFields(t, page, text);
    HasAtSlice(t, 0, "[[" + page + "|" + text + "]]");
    FileLinkUnfold(t, Opt1(|page|, Present(|text|)), |page| + |text| + 5);
  }

  /** An optional space. */
  function Space(b: bool): string {
    if b then " " else ""
  }

  /** An embed, with its optional spaces, up to the next `[` or the end of the text, becomes one space. */
  lemma ImageOf(t: string, lead: bool, x: string, trail: bool)
    requires Plain(x, {'['}) && HasAt(t, 0, Space(lead) + "[[File:" + x + "]]" + Space(trail))
    requires var n := |Space(lead)| + 9 + |x| + |Space(trail)|; n == |t| || t[n] == '['
    ensures ImageAt(t) == Some(Hit(|Space(lead)| + 9 + |x| + |Space(trail)|, " "))
  {
    var l := Space(lead);
    var body := l + "[[File:" + x + "]]";
    assert |l| == Bit(lead) && |l + "[[File:"| == Bit(lead) + 7 && |body| == Bit(lead) + 9 + |x|;
    HasAtSplit(t, 0, body, Space(trail));
    Field1(t, l + "[[File:", x, "]]");
    HasAtSplit(t, 0, l, "[[File:");
    ImgOf(t, lead, x, trail);
  }

  // ---------------------------------------------------------------------------
  // ai and csl: two optional fields
  // ---------------------------------------------------------------------------

  lemma AbilityUnfold(t: string, p: Opt2, len: nat, x: string)
    requires Opens(t, "ai|") && Opt2At(t, 5, Bar, Bar, Brace, "}}") == Some(p) && Opt2End(5, p) + 2 == len
    requires p.d.Present? ==> SlotText(t, Opt2Mid(5, p), p.d) == x
    requires p.d.Absent? ==> t[5..5 + p.a] == x
    ensures AbilityAt(t) == Some(Hit(len, x))
  {
  }

  lemma AbilityFields1(t: string, a: string)
    requires Opens(t, "ai|") && Plain(a, Bar) && HasAt(t, 5, a) && HasAt(t, 5 + |a|, "}}")
    ensures AbilityAt(t) == Some(Hit(|a| + 7, a))
  {
    Opt2Single(t, 5, a, Bar, Bar, Brace, "}}");
    HasAtSlice(t, 5, a);
    AbilityUnfold(t, Opt2(|a|, Absent, Absent), |a| + 7, a);
  }

  lemma AbilityFields2(t: string, a: string, c: string)
    requires Opens(t, "ai|") && Plain(a, Bar) && Plain(c, Bar)
    requires HasAt(t, 5, a) && HasAt(t, 5 + |a|, "|") && HasAt(t, 5 + |a| + 1, c)
    requires HasAt(t, 5 + |a| + 1 + |c|, "}}")
    ensures AbilityAt(t) == Some(Hit(|a| + |c| + 8, a))
  {
    Opt2Pair(t, 5, a, c, Bar, Bar, Brace, "}}");
    HasAtSlice(t, 5, a);
    AbilityUnfold(t, Opt2(|a|, Present(|c|), Absent), |a| + |c| + 8, a);
  }

  lemma AbilityFields3(t: string, a: string, c: string, d: string)
    requires Opens(t, "ai|") && Plain(a, Bar) && Plain(c, Bar) && Plain(d, Brace)
    requires HasAt(t, 5, a) && HasAt(t, 5 + |a|, "|") && HasAt(t, 5 + |a| + 1, c)
    requires HasAt(t, 5 + |a| + 1 + |c|, "|") && HasAt(t, 5 + |a| + 2 + |c|, d)
    requires HasAt(t, 5 + |a| + 2 + |c| + |d|, "}}")
    ensures AbilityAt(t) == Some(Hit(|a| + |c| + |d| + 9, d))
  {
    Opt2Triple(t, 5, a, c, d, Bar, Bar, Brace, "}}");
    HasAtSlice(t, 5 + |a| + 2 + |c|, d);
    AbilityUnfold(t, Opt2(|a|, Present(|c|), Present(|d|)), |a| + |c| + |d| + 9, d);
  }

  /** `{{ai|ABILITY}}` gives the ability. */
  lemma AbilityBareOf(t: string, a: string)
    requires Plain(a, Bar) && HasAt(t, 0, "{{ai|" + a + "}}")
    ensures AbilityAt(t) == Some(Hit(|a| + 7, a))
  {
    assert "{{ai|" == "{{" + "ai|";
    Field1(t, "{{ai|", a, "}}");
    OpensOf(t, "ai|");
    AbilityFields1(t, a);
  }

  /** `{{ai|ABILITY|CHAMPION}}` still gives the ability: the second field is the champion. */
  lemma AbilityChampionOf(t: string, a: string, c: string)
    requires Plain(a, Bar) && Plain(c, Bar) && HasAt(t, 0, "{{ai|" + a + "|" + c + "}}")
    ensures AbilityAt(t) == Some(Hit(|a| + |c| + 8, a))
  {
    assert "{{ai|" == "{{" + "ai|";
    Field2(t, "{{ai|", a, c, "}}");
    OpensOf(t, "ai|");
    AbilityFields2(t, a, c);
  }

  /** `{{ai|ABILITY|CHAMPION|DISPLAY}}` gives the display name. */
  lemma AbilityDisplayOf(t: string, a: string, c: string, d: string)
    requires Plain(a, Bar) && Plain(c, Bar) && Plain(d, Brace)
    requires HasAt(t, 0, "{{ai|" + a + "|" + c + "|" + d + "}}")
    ensures AbilityAt(t) == Some(Hit(|a| + |c| + |d| + 9, d))
  {
    assert "{{ai|" == "{{" + "ai|";
    Field3(t, "{{ai|", a, c, d, "}}");
    OpensOf(t, "ai|");
    AbilityFields3(t, a, c, d);
  }

  lemma ChampionSkinUnfold(t: string, p: Opt2, len: nat, x: string)
    requires Opens(t, "csl|") && Opt2At(t, 6, Bar, Bar, Bar, "}}") == Some(p) && Opt2End(6, p) + 2 == len
    requires p.d.Present? ==> SlotText(t, Opt2Mid(6, p), p.d) == x
    requires p.d.Absent? && p.c.Present? ==> SlotText(t, 6 + p.a, p.c) == x
    requires p.d.Absent? && p.c.Absent? ==> t[6..6 + p.a] == x
    ensures ChampionSkinAt(t) == Some(Hit(len, x))
  {
  }

  lemma ChampionSkinFields1(t: string, a: string)
    requires Opens(t, "csl|") && Plain(a, Bar) && HasAt(t, 6, a) && HasAt(t, 6 + |a|, "}}")
    ensures ChampionSkinAt(t) == Some(Hit(|a| + 8, a))
  {
    Opt2Single(t, 6, a, Bar, Bar, Bar, "}}");
    HasAtSlice(t, 6, a);
    ChampionSkinUnfold(t, Opt2(|a|, Absent, Absent), |a| + 8, a);
  }

  lemma ChampionSkinFields2(t: string, a: string, c: string)
    requires Opens(t, "csl|") && Plain(a, Bar) && Plain(c, Bar)
    requires HasAt(t, 6, a) && HasAt(t, 6 + |a|, "|") && HasAt(t, 6 + |a| + 1, c)
    requires HasAt(t, 6 + |a| + 1 + |c|, "}}")
    ensures ChampionSkinAt(t) == Some(Hit(|a| + |c| + 9, c))
  {
    Opt2Pair(t, 6, a, c, Bar, Bar, Bar, "}}");
    HasAtSlice(t, 6 + |a| + 1, c);
    ChampionSkinUnfold(t, Opt2(|a|, Present(|c|), Absent), |a| + |c| + 9, c);
  }

  lemma ChampionSkinFields3(t: string, a: string, c: string, d: string)
    requires Opens(t, "csl|") && Plain(a, Bar) && Plain(c, Bar) && Plain(d, Bar)
    requires HasAt(t, 6, a) && HasAt(t, 6 + |a|, "|") && HasAt(t, 6 + |a| + 1, c)
    requires HasAt(t, 6 + |a| + 1 + |c|, "|") && HasAt(t, 6 + |a| + 2 + |c|, d)
    requires HasAt(t, 6 + |a| + 2 + |c| + |d|, "}}")
    ensures ChampionSkinAt(t) == Some(Hit(|a| + |c| + |d| + 10, d))
  {
    Opt2Triple(t, 6, a, c, d, Bar, Bar, Bar, "}}");
    HasAtSlice(t, 6 + |a| + 2 + |c|, d);
    ChampionSkinUnfold(t, Opt2(|a|, Present(|c|), Present(|d|)), |a| + |c| + |d| + 10, d);
  }

  /** `{{csl|CHAMP}}` gives the champion. */
  lemma ChampionSkinBareOf(t: string, a: string)
    requires Plain(a, Bar) && HasAt(t, 0, "{{csl|" + a + "}}")
    ensures ChampionSkinAt(t) == Some(Hit(|a| + 8, a))
  {
    assert "{{csl|" == "{{" + "csl|";
    Field1(t, "{{csl|", a, "}}");
    OpensOf(t, "csl|");
    ChampionSkinFields1(t, a);
  }

  /** `{{csl|CHAMP|SKIN}}` gives the skin. */
  lemma ChampionSkinNameOf(t: string, a: string, c: string)
    requires Plain(a, Bar) && Plain(c, Bar) && HasAt(t, 0, "{{csl|" + a + "|" + c + "}}")
    ensures ChampionSkinAt(t) == Some(Hit(|a| + |c| + 9, c))
  {
    assert "{{csl|" == "{{" + "csl|";
    Field2(t, "{{csl|", a, c, "}}");
    OpensOf(t, "csl|");
    ChampionSkinFields2(t, a, c);
  }

  /** `{{csl|CHAMP|SKIN|DISPLAY}}` gives the display name. */
  lemma ChampionSkinDisplayOf(t: string, a: string, c: string, d: string)
    requires Plain(a, Bar) && Plain(c, Bar) && Plain(d, Bar)
    requires HasAt(t, 0, "{{csl|" + a + "|" + c + "|" + d + "}}")
    ensures ChampionSkinAt(t) == Some(Hit(|a| + |c| + |d| + 10, d))
  {
    assert "{{csl|" == "{{" + "csl|";
    Field3(t, "{{csl|", a, c, d, "}}");
    OpensOf(t, "csl|");
    ChampionSkinFields3(t, a, c, d);
  }

  // ---------------------------------------------------------------------------
  // cci / ccib: a file, a link and an optional display name
  // ---------------------------------------------------------------------------

  /** The opener of `{{cci|`, `{{Cci|`, `{{ccib|`, `{{Ccib|`. */
  lemma IconOpening(t: string, c: char, b: string)
    requires (c == 'c' || c == 'C') && (b == "" || b == "b")
    requires HasAt(t, 0, "{{" + [c] + "ci" + b + "|")
    ensures IconOpen(t) == 6 + |b| && HasAt(t, 0, "{{")
  {
    HasAtSplit(t, 0, "{{" + [c] + "ci" + b, "|");
    HasAtSplit(t, 0, "{{" + [c] + "ci", b);
    HasAtSplit(t, 0, "{{" + [c], "ci");
    HasAtSplit(t, 0, "{{", [c]);
    HasAtChar(t, 2, [c], 0);
    if b == "b" {
      HasAtJoin(t, 5, "b", "|");
      assert "b" + "|" == "b|";
    } else {
      HasAtChar(t, 5, "|", 0);
      HasAtNot(t, 5, "b|", 0);
    }
  }

  lemma ChampionIconUnfold(t: string, o: nat, n: nat, m: nat, h: Hit)
    requires IconOpen(t) == o && o != 0 && OneAt(t, o, Bar, 1, "|") == Some(n) && m == o + n + 1
    requires m <= |t| && HasAt(t, 0, "{{") && NamedAt(t, m, Bar) == Some(h)
    ensures ChampionIconAt(t) == Some(h)
  {
  }

  lemma ChampionIconFields2(t: string, o: nat, f: string, l: string)
    requires IconOpen(t) == o && o != 0 && HasAt(t, 0, "{{") && Plain(f, Bar) && Plain(l, Bar)
    requires HasAt(t, o, f) && HasAt(t, o + |f|, "|") && HasAt(t, o + |f| + 1, l)
    requires HasAt(t, o + |f| + 1 + |l|, "}}")
    ensures ChampionIconAt(t) == Some(Hit(o + |f| + |l| + 3, l))
  {
    OneOf(t, o, f, Bar, 1, "|");
    ChampionIconTail2(t, o, |f|, o + |f| + 1, l);
  }

  lemma ChampionIconTail2(t: string, o: nat, n: nat, m: nat, l: string)
    requires IconOpen(t) == o && o != 0 && HasAt(t, 0, "{{") && OneAt(t, o, Bar, 1, "|") == Some(n)
    requires m == o + n + 1 && Plain(l, Bar) && HasAt(t, m, l) && HasAt(t, m + |l|, "}}")
    ensures ChampionIconAt(t) == Some(Hit(m + |l| + 2, l))
  {
    NamedSingle(t, m, l, Bar);
    ChampionIconUnfold(t, o, n, m, Hit(m + |l| + 2, l));
  }

  lemma ChampionIconFields3(t: string, o: nat, f: string, l: string, d: string)
    requires IconOpen(t) == o && o != 0 && HasAt(t, 0, "{{")
    requires Plain(f, Bar) && Plain(l, Bar) && Plain(d, Bar)
    requires HasAt(t, o, f) && HasAt(t, o + |f|, "|") && HasAt(t, o + |f| + 1, l)
    requires HasAt(t, o + |f| + 1 + |l|, "|") && HasAt(t, o + |f| + 2 + |l|, d)
    requires HasAt(t, o + |f| + 2 + |l| + |d|, "}}")
    ensures ChampionIconAt(t) == Some(Hit(o + |f| + |l| + |d| + 4, d))
  {
    OneOf(t, o, f, Bar, 1, "|");
    ChampionIconTail3(t, o, |f|, o + |f| + 1, l, d);
  }

  lemma ChampionIconTail3(t: string, o: nat, n: nat, m: nat, l: string, d: string)
    requires IconOpen(t) == o && o != 0 && HasAt(t, 0, "{{") && OneAt(t, o, Bar, 1, "|") == Some(n)
    requires m == o + n + 1 && Plain(l, Bar) && Plain(d, Bar)
    requires HasAt(t, m, l) && HasAt(t, m + |l|, "|") && HasAt(t, m + |l| + 1, d)
    requires HasAt(t, m + |l| + 1 + |d|, "}}")
    ensures ChampionIconAt(t) == Some(Hit(m + |l| + |d| + 3, d))
  {
    NamedPair(t, m, l, d, Bar);
    ChampionIconUnfold(t, o, n, m, Hit(m + |l| + |d| + 3, d));
  }

  /** `{{cci|FILE|LINK}}` gives the link; likewise for `Cci`, `ccib` and `Ccib`. */
  lemma ChampionIconLinkOf(t: string, c: char, b: string, f: string, l: string)
    requires (c == 'c' || c == 'C') && (b == "" || b == "b") && Plain(f, Bar) && Plain(l, Bar)
    requires HasAt(t, 0, "{{" + [c] + "ci" + b + "|" + f + "|" + l + "}}")
    ensures ChampionIconAt(t) == Some(Hit(|b| + |f| + |l| + 9, l))
  {
    var pre := "{{" + [c] + "ci" + b + "|";
    assert |pre| == 6 + |b|;
    Field2(t, pre, f, l, "}}");
    IconOpening(t, c, b);
    ChampionIconFields2(t, 6 + |b|, f, l);
  }

  /** `{{cci|FILE|LINK|DISPLAY}}` gives the display name; likewise for the other three openers. */
  lemma ChampionIconDisplayOf(t: string, c: char, b: string, f: string, l: string, d: string)
    requires (c == 'c' || c == 'C') && (b == "" || b == "b")
    requires Plain(f, Bar) && Plain(l, Bar) && Plain(d, Bar)
    requires HasAt(t, 0, "{{" + [c] + "ci" + b + "|" + f + "|" + l + "|" + d + "}}")
    ensures ChampionIconAt(t) == Some(Hit(|b| + |f| + |l| + |d| + 10, d))
  {
    var pre := "{{" + [c] + "ci" + b + "|";
    assert |pre| == 6 + |b|;
    Field3(t, pre, f, l, d, "}}");
    IconOpening(t, c, b);
    ChampionIconFields3(t, 6 + |b|, f, l, d);
  }

  /** `{{cci|FILE}}` without a link field is not matched, whichever of the four openers it uses:
      the file field stops at the first `}`, where the bar before the link would have to be. */
  lemma ChampionIconNeedsLink(t: string, c: char, b: string, f: string)
    requires (c == 'c' || c == 'C') && (b == "" || b == "b") && Plain(f, Bar)
    requires HasAt(t, 0, "{{" + [c] + "ci" + b + "|" + f + "}}")
    ensures ChampionIconAt(t).None?
  {
    var pre := "{{" + [c] + "ci" + b + "|";
    var o := 6 + |b|;
    assert |pre| == o;
    Field1(t, pre, f, "}}");
    IconOpening(t, c, b);
    HasAtChar(t, o + |f|, "}}", 0);
    forall n: nat ensures !IsOne(t, o, Bar, 1, "|", n) {
      if n < |f| {
        HasAtChar(t, o, f, n);
        HasAtNot(t, o + n, "|", 0);
      } else if n == |f| {
        HasAtNot(t, o + n, "|", 0);
      } else {
        assert !Clear(t, o, o + n, Bar) by {
          assert o <= o + |f| < o + n && t[o + |f|] in Bar;
        }
      }
    }
  }
}
