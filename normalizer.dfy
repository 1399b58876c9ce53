/**
 * The wiki-markup normaliser: fifteen pattern-replacement passes applied in a
 * fixed order, each one a `replace_all` of one template pattern.
 *
 * Each rule has a matcher that looks at a suffix of the text and returns the
 * length of the match starting there and its replacement (`Hit`), or `None`.
 * `Pass` is `replace_all`: it scans left to right, replaces the first match
 * and resumes after it, so a replacement is never scanned again by the same
 * rule (only by the later ones).
 */
module Normalizer {
  import opened Wrappers
  import opened Text
  import opened Templates

  /** A match of `len` characters at the start of a suffix, to be replaced by `out`. */
  datatype Hit = Hit(len: nat, out: string)

  /**
   * The fifteen rules, named after the templates they strip, and the embed rule
   * as its pattern is written (`ImageAsWritten`), which takes the place of
   * `Image` in `CatalogueAsWritten`.
   */
  datatype Rule =
    | SmallBoldCaps | ChampionInline | Link | Image | Ability | RiotPoints | SummonerSpell
    | ChampionIcon | AsTemplate | Stat | Buff | Tooltip | Unit | ChampionSkin | Faction
    | ImageAsWritten

  /** The order in which the passes run. */
  const Catalogue: seq<Rule> := [
    SmallBoldCaps, ChampionInline, Link, Image, Ability, RiotPoints, SummonerSpell,
    ChampionIcon, AsTemplate, Stat, Buff, Tooltip, Unit, ChampionSkin, Faction
  ]

  /** The same order with the embed pass running the pattern as written. */
  const CatalogueAsWritten: seq<Rule> := [
    SmallBoldCaps, ChampionInline, Link, ImageAsWritten, Ability, RiotPoints, SummonerSpell,
    ChampionIcon, AsTemplate, Stat, Buff, Tooltip, Unit, ChampionSkin, Faction
  ]

  /** The characters that end a field of the form `[^}|]+`. */
  const Bar: set<char> := {'}', '|'}

  /** The characters that end a field of the form `[^}]+`. */
  const Brace: set<char> := {'}'}

  /** The characters that end a link field of the form `[^]|]+`. */
  const LinkBar: set<char> := {']', '|'}

  /** A hit is a non-empty match inside the text whose replacement is no longer than it. */
  predicate Rewrites(t: string, h: Hit) {
    0 < h.len <= |t| && |h.out| <= h.len
  }

  /** A hit that covers a whole `{{...}}` template. */
  predicate Template(t: string, h: Hit) {
    Rewrites(t, h) && 4 <= h.len && HasAt(t, 0, "{{")
  }

  /** The text starts with the template opener `{{name`. */
  predicate Opens(t: string, name: string) {
    HasAt(t, 0, "{{") && HasAt(t, 2, name)
  }

  /** The text of an optional group that was taken; `j` is where its bar is. */
  function SlotText(t: string, j: nat, s: Slot): string
    requires s.Present? && j + 1 + s.n <= |t|
  {
    t[j + 1..j + 1 + s.n]
  }

  // ---------------------------------------------------------------------------
  // The fifteen matchers
  // ---------------------------------------------------------------------------

  /** `{{sbc|TEXT}}`: the text upper-cased. */
  function SmallBoldCapsAt(t: string): (h: Option<Hit>)
    ensures h.Some? ==> Template(t, h.value) && Opens(t, "sbc|")
  {
    if !Opens(t, "sbc|") then None
    else match OneAt(t, 6, Brace, 1, "}}")
      case None => None
      case Some(n) => Some(Hit(n + 8, Upper(t[6..6 + n])))
  }

  /** A template with a first field `[^}|]+`, an optional `|` field stopped by `sb`, and `}}`:
      the optional field when it is present, else the first one. */
  function NamedAt(t: string, o: nat, sb: set<char>): (h: Option<Hit>)
    requires 2 <= o <= |t| && HasAt(t, 0, "{{") && '}' in sb
    ensures h.Some? ==> Template(t, h.value)
  {
    match Opt1At(t, o, Bar, sb, "}}")
    case None => None
    case Some(p) =>
      var name := if p.b.Present? then SlotText(t, o + p.a, p.b) else t[o..o + p.a];
      Some(Hit(Opt1End(o, p) + 2, name))
  }

  /** `{{name FIELD}}` or `{{name FIELD|DISPLAY}}` for the template opened by `name`: the display
      field (stopped by `sb`) when it is present, else the first field. */
  function NamedTemplateAt(t: string, name: string, sb: set<char>): (h: Option<Hit>)
    requires '}' in sb
    ensures h.Some? ==> Template(t, h.value) && Opens(t, name)
  {
    if Opens(t, name) then NamedAt(t, 2 + |name|, sb) else None
  }

  /** `{{ci|CHAMPION}}` or `{{ci|CHAMPION|CUSTOM NAME}}`. */
  function ChampionInlineAt(t: string): (h: Option<Hit>)
    ensures h.Some? ==> Template(t, h.value) && Opens(t, "ci|")
  {
    NamedTemplateAt(t, "ci|", Brace)
  }

  /** `[[PAGE]]` or `[[PAGE|TEXT]]`: the link text or the page; a `File:` link is kept whole. */
  function LinkAt(t: string): (h: Option<Hit>)
    ensures h.Some? ==> Rewrites(t, h.value) && 4 <= h.value.len && HasAt(t, 0, "[[")
  {
    if !HasAt(t, 0, "[[") then None
    else match Opt1At(t, 2, LinkBar, {']'}, "]]")
      case None => None
      case Some(p) =>
        var len := Opt1End(2, p) + 2;
        if HasAt(t[2..2 + p.a], 0, "File:") then Some(Hit(len, t[..len]))
        else if p.b.Present? then Some(Hit(len, SlotText(t, 2 + p.a, p.b)))
        else Some(Hit(len, t[2..2 + p.a]))
  }

  /** ` [[File:...]] `, each space optional: a single space. */
  function ImageAt(t: string): (h: Option<Hit>)
    ensures h.Some? ==> Rewrites(t, h.value) && h.value.out == " " && HasAt(t, Bit(HasAt(t, 0, " ")), "[[File:")
  {
    match Templates.ImgAt(t)
    case None => None
    case Some(p) =>
      ImgLead(t, p);
      Some(Hit(ImgLen(p), " "))
  }

  /**
   * The embed pattern as the regex engine reads it. Inside a character class an
   * unescaped `[` opens a nested class, and a `]` right after an opening bracket
   * is a literal, so `[^[]+]]` is `[^` + `[]+]` + `]`: one character other than
   * `]` and `+`, not a repetition. The pattern is thus ` ?[[File:` followed by
   * one such character and an optional space. `ImageAt` is the pattern that was
   * meant, and the one the passes use.
   */
  function ImageAtAsWritten(t: string): (h: Option<Hit>)
    ensures h.Some? ==> Rewrites(t, h.value) && h.value.out == " " && h.value.len <= 10
    ensures h.Some? ==> HasAt(t, Bit(HasAt(t, 0, " ")), "[[File:")
  {
    var b := Bit(HasAt(t, 0, " "));
    if !HasAt(t, b, "[[File:") || b + 8 > |t| || t[b + 7] in {']', '+'} then None
    else Some(Hit(b + 8 + Bit(HasAt(t, b + 8, " ")), " "))
  }

  /** `{{ai|ABILITY}}`, `{{ai|ABILITY|CHAMPION}}`, `{{ai|ABILITY|CHAMPION|DISPLAY}}`:
      the display name when it is present, else the ability. */
  function AbilityAt(t: string): (h: Option<Hit>)
    ensures h.Some? ==> Template(t, h.value) && Opens(t, "ai|")
  {
    if !Opens(t, "ai|") then None
    else match Opt2At(t, 5, Bar, Bar, Brace, "}}")
      case None => None
      case Some(p) =>
        var name := if p.d.Present? then SlotText(t, Opt2Mid(5, p), p.d) else t[5..5 + p.a];
        Some(Hit(Opt2End(5, p) + 2, name))
  }

  /** `{{RP}}` or `{{RP...}}`: the word `RP`. */
  function RiotPointsAt(t: string): (h: Option<Hit>)
    ensures h.Some? ==> Template(t, h.value) && Opens(t, "RP") && h.value.out == "RP"
  {
    if !Opens(t, "RP") then None
    else match OneAt(t, 4, Brace, 0, "}}")
      case None => None
      case Some(n) => Some(Hit(n + 6, "RP"))
  }

  /** `{{si|SPELL}}`: the spell. */
  function SummonerSpellAt(t: string): (h: Option<Hit>)
    ensures h.Some? ==> Template(t, h.value) && Opens(t, "si|")
  {
    if !Opens(t, "si|") then None
    else match OneAt(t, 5, Brace, 1, "}}")
      case None => None
      case Some(n) => Some(Hit(n + 7, t[5..5 + n]))
  }

  /** Where the first field of `{{cci|` / `{{ccib|` (either case of the first `c`) starts, or 0. */
  function IconOpen(t: string): (o: nat)
    ensures o == 0 || o == 6 || o == 7
    ensures o != 0 <==> HasAt(t, 0, "{{") && 6 <= |t| && t[2] in {'c', 'C'} && HasAt(t, 3, "ci")
                        && (HasAt(t, 5, "b|") || HasAt(t, 5, "|"))
    ensures o == 7 <==> o != 0 && HasAt(t, 5, "b|")
  {
    if !(HasAt(t, 0, "{{") && 6 <= |t| && t[2] in {'c', 'C'} && HasAt(t, 3, "ci")) then 0
    else if HasAt(t, 5, "b|") then 7
    else if HasAt(t, 5, "|") then 6
    else 0
  }

  /** `{{cci|FILE|LINK}}` or `{{ccib|FILE|LINK|DISPLAY}}`: the display name, else the link. */
  function ChampionIconAt(t: string): (h: Option<Hit>)
    ensures h.Some? ==> Template(t, h.value) && IconOpen(t) != 0
  {
    var o := IconOpen(t);
    if o == 0 then None
    else match OneAt(t, o, Bar, 1, "|")
      case None => None
      case Some(n) => NamedAt(t, o + n + 1, Bar)
  }

  /** `{{as|TEXT}}` or `{{As|TEXT}}`: the text. */
  function AsTemplateAt(t: string): (h: Option<Hit>)
    ensures h.Some? ==> Template(t, h.value) && 5 <= |t| && t[2] in {'a', 'A'} && HasAt(t, 3, "s|")
  {
    if !(HasAt(t, 0, "{{") && 5 <= |t| && t[2] in {'a', 'A'} && HasAt(t, 3, "s|")) then None
    else match OneAt(t, 5, Bar, 1, "}}")
      case None => None
      case Some(n) => Some(Hit(n + 7, t[5..5 + n]))
  }

  /** `{{sti|ATTRIBUTE}}` or `{{sti|ATTRIBUTE|DISPLAY}}`. */
  function StatAt(t: string): (h: Option<Hit>)
    ensures h.Some? ==> Template(t, h.value) && Opens(t, "sti|")
  {
    NamedTemplateAt(t, "sti|", Bar)
  }

  /** `{{bi|BUFF}}` or `{{bi|BUFF|DISPLAY}}`. */
  function BuffAt(t: string): (h: Option<Hit>)
    ensures h.Some? ==> Template(t, h.value) && Opens(t, "bi|")
  {
    NamedTemplateAt(t, "bi|", Bar)
  }

  /** `{{tt|TEXT|HOVER}}`: the text, the hover text dropped. */
  function TooltipAt(t: string): (h: Option<Hit>)
    ensures h.Some? ==> Template(t, h.value) && Opens(t, "tt|")
  {
    if !Opens(t, "tt|") then None
    else match OneAt(t, 5, Bar, 1, "|")
      case None => None
      case Some(n) =>
        match OneAt(t, 6 + n, Bar, 1, "}}")
        case None => None
        case Some(m) => Some(Hit(n + m + 8, t[5..5 + n]))
  }

  /** `{{ui|UNIT}}` or `{{ui|UNIT|DISPLAY}}`. */
  function UnitAt(t: string): (h: Option<Hit>)
    ensures h.Some? ==> Template(t, h.value) && Opens(t, "ui|")
  {
    NamedTemplateAt(t, "ui|", Bar)
  }

  /** `{{csl|CHAMP}}`, `{{csl|CHAMP|SKIN}}`, `{{csl|CHAMP|SKIN|DISPLAY}}`:
      the display name, else the skin, else the champion. */
  function ChampionSkinAt(t: string): (h: Option<Hit>)
    ensures h.Some? ==> Template(t, h.value) && Opens(t, "csl|")
  {
    if !Opens(t, "csl|") then None
    else match Opt2At(t, 6, Bar, Bar, Bar, "}}")
      case None => None
      case Some(p) =>
        var name :=
          if p.d.Present? then SlotText(t, Opt2Mid(6, p), p.d)
          else if p.c.Present? then SlotText(t, 6 + p.a, p.c)
          else t[6..6 + p.a];
        Some(Hit(Opt2End(6, p) + 2, name))
  }

  /** `{{fi|FACTION}}` or `{{fi|FACTION|DISPLAY}}`. */
  function FactionAt(t: string): (h: Option<Hit>)
    ensures h.Some? ==> Template(t, h.value) && Opens(t, "fi|")
  {
    NamedTemplateAt(t, "fi|", Bar)
  }

  // ---------------------------------------------------------------------------
  // Passes
  // ---------------------------------------------------------------------------

  /** The character every match of the rule contains: `{` for templates, `[` for links and images. */
  function Trigger(r: Rule): char {
    if r == Link || r == Image || r == ImageAsWritten then '[' else '{'
  }

  /** The characters a match of the rule can start with. */
  function Starts(r: Rule): set<char> {
    if r == Image || r == ImageAsWritten then {' ', '['} else {Trigger(r)}
  }

  /** The match of rule `r` at the start of `t`, if any. */
  function MatchAt(r: Rule, t: string): (h: Option<Hit>)
    ensures h.Some? ==> Rewrites(t, h.value) && t[0] in Starts(r) && Trigger(r) in t[..h.value.len]
  {
    var h := match r
      case SmallBoldCaps => SmallBoldCapsAt(t)
      case ChampionInline => ChampionInlineAt(t)
      case Link => LinkAt(t)
      case Image => ImageAt(t)
      case Ability => AbilityAt(t)
      case RiotPoints => RiotPointsAt(t)
      case SummonerSpell => SummonerSpellAt(t)
      case ChampionIcon => ChampionIconAt(t)
      case AsTemplate => AsTemplateAt(t)
      case Stat => StatAt(t)
      case Buff => BuffAt(t)
      case Tooltip => TooltipAt(t)
      case Unit => UnitAt(t)
      case ChampionSkin => ChampionSkinAt(t)
      case Faction => FactionAt(t)
      case ImageAsWritten => ImageAtAsWritten(t);
    if h.Some? then
      var b := if r == Image || r == ImageAsWritten then Bit(HasAt(t, 0, " ")) else 0;
      assert t[b] == Trigger(r) && b < h.value.len && t[0] in Starts(r) by {
        if r == Image || r == ImageAsWritten {
          HasAtChar(t, b, "[[File:", 0);
          if b == 1 {
            HasAtChar(t, 0, " ", 0);
          }
        } else if r == Link {
          HasAtChar(t, 0, "[[", 0);
        } else {
          HasAtChar(t, 0, "{{", 0);
        }
      }
      assert t[..h.value.len][b] == Trigger(r);
      h
    else h
  }

  /** `replace_all` of rule `r` over `s`. */
  function Pass(r: Rule, s: string): string
    decreases |s|
  {
    if s == [] then []
    else match MatchAt(r, s)
      case Some(h) => h.out + Pass(r, s[h.len..])
      case None => [s[0]] + Pass(r, s[1..])
  }

  /** The passes of `rules`, first to last. */
  function ApplyRules(rules: seq<Rule>, s: string): string
    decreases |rules|
  {
    if rules == [] then s else ApplyRules(rules[1..], Pass(rules[0], s))
  }

  /** The whole normaliser. */
  function Normalize(s: string): string {
    ApplyRules(Catalogue, s)
  }

  /** The whole normaliser with the embed pattern as written. */
  function NormalizeAsWritten(s: string): string {
    ApplyRules(CatalogueAsWritten, s)
  }
}
