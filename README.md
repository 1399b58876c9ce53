# lol-quotes: the quote parser of `update_quotes`

The `update_quotes` tool of lol-quotes (a Discord bot that posts League of
Legends champion quotes) downloads the raw audio page of every champion from
the League of Legends fandom wiki and turns it into a list of quotes.
`parse_quotes` does the turning, in two stages.

1. **Normalising the wiki markup.** Fifteen regex substitutions run one after
   the other. Each is a `replace_all`: leftmost-first, non-overlapping, and it
   never rescans its own replacement. Together they strip templates and links:
   - `{{sbc|x}}` becomes `X`, and `{{ci|champion|name}}` becomes `name`;
   - `[[page|text]]` becomes `text`, while a `[[File:...]]` link is kept whole;
   - an embed ` [[File:...]] ` is meant to become a single space; the pattern as written
     removes only `[[File:` and the next character (see Findings);
   - `{{ai|...}}` keeps the display name, else the ability, and `{{RP...}}` becomes `RP`;
   - `{{si|...}}`, `{{cci|...}}`/`{{ccib|...}}`, `{{as|...}}`, `{{sti|...}}`,
     `{{bi|...}}`, `{{tt|...}}`, `{{ui|...}}`, `{{csl|...}}` and `{{fi|...}}`
     each keep the field their replacement function picks.
2. **Extracting the quotes.**
   - **Every champion but Kindred:** the quotes are the captures of `''"(.*)"''`, in text
     order. Captures mentioning `ogg` and the capture `GG!` are dropped, and every `'''` is
     rewritten to `**`.
   - **Kindred:** the page is an exchange between Wolf and Lamb. It is read line by line. A
     line's depth is the number of `*` it starts with once trimmed. Each match of
     `(Wolf|Lamb|Kindred): ''(?:")?([^"]+)?(?:")?''` becomes `speaker: utterance`. A match
     one level deeper than the previous match continues the last entry after a line feed;
     any other match starts a new entry.

Around the parser, two small pieces of string handling are modelled too:
- the page address built from the champion's name, with spaces turned into underscores;
- the choice of the champion's id instead of a name that contains `&`.

## Layout

- `wrappers.dfy` (`Wrappers`): `Option` and `Result`.
- `text.dfy` (`Text`) holds the string primitives:
  - literal occurrence, runs of `[^...]+`, the last occurrence reachable by a greedy `.*`;
  - `str::replace("'''", "**")`, `str::trim`, `str::lines` and the line-feed join.
- `templates.dfy` (`Templates`): the pattern shapes the templates share:
  - one field, one field with an optional group, one field with two optional groups, and the embed;
  - each matcher is proved against a declarative statement of its pattern and of the regex's
    backtracking preference.
- The normaliser:
  - `normalizer.dfy` (`Normalizer`): the fifteen matchers, a pass (`Pass`, i.e. `replace_all`)
    and the chain (`Normalize`, and `NormalizeAsWritten` with the embed pattern as written);
  - `normalizer_facts.dfy` (`NormalizerFacts`): what each matcher produces on each written-out
    form of its template;
  - `pass_facts.dfy` (`PassFacts`): properties of a pass and of the chain;
  - `normalizer_examples.dfy` (`NormalizerExamples`): the whole normaliser on nested markup,
    embeds and links inside links.
- `default_strategy.dfy` (`DefaultStrategy`): the default extractor, a loop proved against
  `DefaultQuotes`.
- The Kindred extractor:
  - `kindred.dfy` (`KindredStrategy`): the Kindred regex and the line loop, proved against
    `KindredQuotes`;
  - `kindred_facts.dfy` (`KindredFacts`): its outcome, stated without a state machine;
  - `kindred_examples.dfy` (`KindredExamples`): its edge cases.
- `quotes.dfy` (`Quotes`): `parse_quotes` itself, the page address and the name used for it.

## Behaviour of the code worth knowing

The model follows the code, except in the embed pass, where `Normalize` and
`ParseQuotes` run the intended pattern and `NormalizeAsWritten` runs the
written one. In four places the code does something a reader of its intent
would not expect.

- **The normaliser is not idempotent.**
  - `[[[[a]]]]` normalises to `[[a]]`, and that normalises to `a`: the first link match
    starts at the first `[[` and ends at the inner `]]`.
  - So running the normaliser twice can change the text again (`NormalizerExamples.LinkInLink`).
- **Bold-wrapped Kindred lines are not matched.**
  - `Wolf: '''"howl"'''` has no match at its speaker: after `: ''` the third apostrophe is neither
    the optional quote nor part of the closing `''`, and the utterance group stops at the quote
    (`KindredExamples.BoldQuotedNotMatched`).
- **The Kindred extractor can panic**, and the model returns these panics as errors:
  - `&capture[2]` panics when the utterance group did not take part, as in `Wolf: ''''`
    (`KindredExamples.EmptyUtteranceCrashes`);
  - `matches.len() - 1` underflows when the first matching line is one level deeper than the
    starting depth 1 (`KindredExamples.DeepFirstLineCrashes`).
- **The embed pattern does not say what it means.** This is listed under Findings below.

## Model

| member | source | states |
|---|---|---|
| Quotes.ParseQuotes | src/bin/update_quotes.rs:181-230 | every name but exactly `Kindred` gets the default extractor's quotes of the normalised text, and never an error; `Kindred` gets the Kindred extractor's outcome on the normalised text; the normaliser is `Normalizer.Normalize`, the fifteen passes of `Catalogue`, whose embed pass runs the corrected pattern (`Normalizer.NormalizeAsWritten` runs the pattern as written) |
| Quotes.PageName | src/bin/update_quotes.rs:15 | replacing spaces by underscores keeps the length of the name |
| Quotes.PageNameChars | src/bin/update_quotes.rs:15 | the page name holds no space, and each character of the name stays in place, a space becoming `_` |
| Quotes.PageNameRoundTrip | src/bin/update_quotes.rs:15 | for a name without underscores, turning underscores back into spaces recovers the name |
| Quotes.AudioUrlShape | src/bin/update_quotes.rs:13-16 | the page address holds no space, and the page name sits between the fixed wiki prefix and the `/LoL/Audio?action=raw` suffix |
| Quotes.AudioUrl | src/bin/update_quotes.rs:13-16 | the raw audio page's address; `AudioUrlShape` states its shape |
| Quotes.ContainsChar | src/bin/update_quotes.rs:276 | `contains("&")` holds exactly when `&` is one of the name's characters |
| Quotes.NameToUseCases | src/bin/update_quotes.rs:276-280 | for every id, a name holding `&` is replaced by the id and any other name is used as it is |
| Quotes.NameToUseAmpersandFree | src/bin/update_quotes.rs:276-280 | the name looked up holds no `&` when the id holds none |
| Quotes.NameToUse | src/bin/update_quotes.rs:276-280 | the id when the name contains `&`, else the name; `NameToUseCases` states both cases |
| Text.ReplaceBoldNoTriple | src/bin/update_quotes.rs:192 | after `replace("'''", "**")` no three apostrophes in a row remain; one or two leading apostrophes are kept, and three or more leading apostrophes leave none at the start |
| Text.ReplaceBoldPlain | src/bin/update_quotes.rs:192 | a prefix without apostrophes comes through the replacement unchanged |
| Text.ReplaceBold | src/bin/update_quotes.rs:192 | `replace("'''", "**")`, left to right without overlaps; `ReplaceBoldNoTriple` and `ReplaceBoldPlain` state what it leaves |
| Text.Upper | src/bin/update_quotes.rs:99 | `to_uppercase` on ASCII letters, character by character; `NormalizerExamples.UpperAppend` states that it distributes over concatenation |
| Text.TrimStart | src/bin/update_quotes.rs:203 | `trim` removes only white space from the front: the result is a suffix of the line, and it is empty or starts with a character that is not white space |
| Text.TrimEnd | src/bin/update_quotes.rs:203 | the result is a prefix of the line, it is empty or ends with a character that is not white space, and everything removed is white space |
| Text.TrimKeeps | src/bin/update_quotes.rs:203 | a line that neither starts nor ends with white space is its own trim |
| Text.Trim | src/bin/update_quotes.rs:203 | `trim`: white space removed from both ends; `TrimStart`, `TrimEnd` and `TrimKeeps` state what is removed and what is kept |
| Text.Lines | src/bin/update_quotes.rs:202 | no line holds a line feed |
| Text.LinesJoin | src/bin/update_quotes.rs:202 | a text without carriage returns or a final line feed is its lines joined back by line feeds, so `lines` loses nothing of it |
| Text.Run | src/bin/update_quotes.rs:184 | the longest run of characters outside a stop set: it is clear of them and ends at a stop character or at the end |
| Text.RunMax | src/bin/update_quotes.rs:184 | no clear stretch from the same start reaches past the longest run |
| Text.LastAt | src/bin/update_quotes.rs:184 | the last occurrence of a literal in a window, and no later one exists in it; this is where the greedy `.*` stops |
| Templates.OneAt | src/bin/update_quotes.rs:32 | the shape `[^stop]+ close` (used by `sbc`, `RP`, `si`, `as`, `tt` and the first `cci` field) has at most one parse, and this is it |
| Templates.OneOf | src/bin/update_quotes.rs:32 | a field of known text, clear of the stop characters and followed by the closing literal, is the parse found |
| Templates.Opt1At | src/bin/update_quotes.rs:38 | the shape `A+ (?:\|B+)? close` (used by `ci`, links, `sti`, `bi`, `ui`, `fi`, and the tail of `cci`) has at most one parse, and this is it |
| Templates.Opt1Tail | src/bin/update_quotes.rs:38 | a bar after the first field forces the optional group, and its field runs to the next stop character; without a bar the group is skipped |
| Templates.Opt1Single | src/bin/update_quotes.rs:38 | `a close` parses with the optional group skipped |
| Templates.Opt1Pair | src/bin/update_quotes.rs:38 | `a\|b close` parses with the optional group taken and holding `b` |
| Templates.Opt2At | src/bin/update_quotes.rs:50 | the shape `A+ (?:\|C+)? (?:\|D+)? close` (used by `ai` and `csl`): the parse returned is admitted by the pattern, no parse outranks it in backtracking order (first group taken before skipped, then the second), and no other parse has its rank |
| Templates.Opt2FromBest | src/bin/update_quotes.rs:50 | trying the choices of optional groups from the highest rank down finds a parse of the highest admitted rank, and it is the only one of that rank |
| Templates.Opt2CandUnique | src/bin/update_quotes.rs:50 | once it is fixed which optional groups are taken, the parse is unique |
| Templates.Opt2Single | src/bin/update_quotes.rs:50 | `a close` parses with both optional groups skipped |
| Templates.Opt2Pair | src/bin/update_quotes.rs:50 | `a\|c close` parses with the first optional group taken and the second skipped, so the second field is the champion or skin, not the display name |
| Templates.Opt2PairNotBoth | src/bin/update_quotes.rs:50 | on `a\|c close` no parse takes both optional groups |
| Templates.Opt2Triple | src/bin/update_quotes.rs:50 | `a\|c\|d close` parses with both optional groups taken |
| Templates.ImgAt | src/bin/update_quotes.rs:47 | the intended embed pattern ` ?\[\[File:[^\[]+\]\] ?`: the parse returned is admitted, and no admitted parse comes before it in backtracking order (leading space, longest name, trailing space) |
| Templates.ImgLead | src/bin/update_quotes.rs:47 | a parse takes the leading space exactly when the text starts with one |
| Templates.ImgOfUnique | src/bin/update_quotes.rs:47 | for an embed whose name is followed by `[` or the end of the text, no other parse ranks at least as high |
| Templates.ImgOf | src/bin/update_quotes.rs:47 | such an embed, with whichever optional spaces it has, is matched whole |
| Normalizer.SmallBoldCapsAt | src/bin/update_quotes.rs:32-35 | a match is a whole template opening with `{{sbc\|`, and its replacement is no longer than the match |
| Normalizer.NamedAt | src/bin/update_quotes.rs:101-106 | the shared matcher of the rules that take a display name if present: a match is a whole template, and its replacement is no longer than the match |
| Normalizer.ChampionInlineAt | src/bin/update_quotes.rs:37-41 | a match is a whole template opening with `{{ci\|` |
| Normalizer.LinkAt | src/bin/update_quotes.rs:43-45 | a match opens with `[[` and is at least four characters long, and its replacement is no longer than the match |
| Normalizer.ImageAt | src/bin/update_quotes.rs:117 | a match is `[[File:` after at most one space, and it is replaced by a single space |
| Normalizer.ImageAtAsWritten | src/bin/update_quotes.rs:47 | the embed pattern as the regex engine reads it: a match is `[[File:` after at most one space, at most ten characters long, and it is replaced by a single space |
| Normalizer.AbilityAt | src/bin/update_quotes.rs:49-53 | a match is a whole template opening with `{{ai\|` |
| Normalizer.RiotPointsAt | src/bin/update_quotes.rs:55 | a match is a whole template opening with `{{RP`, and it is replaced by `RP` |
| Normalizer.SummonerSpellAt | src/bin/update_quotes.rs:57 | a match is a whole template opening with `{{si\|` |
| Normalizer.IconOpen | src/bin/update_quotes.rs:60 | the opener is one of `{{cci\|`, `{{Cci\|`, `{{ccib\|`, `{{Ccib\|`, and the first field starts after it |
| Normalizer.ChampionIconAt | src/bin/update_quotes.rs:59-63 | a match is a whole template behind one of the four `cci` openers |
| Normalizer.AsTemplateAt | src/bin/update_quotes.rs:65-67 | a match is a whole template opening with `{{as\|` or `{{As\|` |
| Normalizer.StatAt | src/bin/update_quotes.rs:69-72 | a match is a whole template opening with `{{sti\|` |
| Normalizer.BuffAt | src/bin/update_quotes.rs:74-77 | a match is a whole template opening with `{{bi\|` |
| Normalizer.TooltipAt | src/bin/update_quotes.rs:79-81 | a match is a whole template opening with `{{tt\|` |
| Normalizer.UnitAt | src/bin/update_quotes.rs:83-86 | a match is a whole template opening with `{{ui\|` |
| Normalizer.ChampionSkinAt | src/bin/update_quotes.rs:88-92 | a match is a whole template opening with `{{csl\|` |
| Normalizer.FactionAt | src/bin/update_quotes.rs:94-97 | a match is a whole template opening with `{{fi\|` |
| Normalizer.MatchAt | src/bin/update_quotes.rs:99-179 | every match of every rule is non-empty, starts with a character the rule can start with, contains the rule's trigger character (`{` for templates, `[` for links and embeds), and has a replacement no longer than itself |
| Normalizer.Rewrites | src/bin/update_quotes.rs:99-179 | a hit is a non-empty match inside the text whose replacement is no longer than it; every matcher's contract states it, and `PassFacts.PassShrinks` rests on it |
| Normalizer.Template | src/bin/update_quotes.rs:32-97 | a hit covers a whole template: it rewrites, is at least four characters long and opens with `{{`; every template matcher's contract states it |
| Normalizer.NamedTemplateAt | src/bin/update_quotes.rs:69-97 | the matcher shared by `ci`, `sti`, `bi`, `ui` and `fi`, given the template's opener: a match is a whole template behind that opener |
| Normalizer.Pass | src/bin/update_quotes.rs:99-179 | `replace_all` of one rule: scan left to right, replace a match and resume after it, else copy one character; `PassFacts.PassFix`, `PassUntouched`, `PassCopies`, `PassAppend` and `PassShrinks` state what it does |
| Normalizer.ApplyRules | src/bin/update_quotes.rs:99-179 | a chain of passes, each on the output of the one before; `PassFacts.Step`, `ApplyRulesAppend` and `ApplyRulesUntouched` state it |
| Normalizer.Normalize | src/bin/update_quotes.rs:99-179 | the fifteen passes of `Catalogue`, with the corrected embed pattern; `PassFacts.NormalizeInOrder`, `NormalizeShrinks` and `PlainTextUnchanged` state it |
| Normalizer.NormalizeAsWritten | src/bin/update_quotes.rs:47 | the same passes with the embed pass running the pattern as written (`CatalogueAsWritten`); `NormalizerExamples.EmbedCutAsWritten` states what it makes of an embed |
| NormalizerFacts.SmallBoldCapsOf | src/bin/update_quotes.rs:99 | `{{sbc\|x}}` is replaced by `x` in capitals |
| NormalizerFacts.ChampionInlineBareOf | src/bin/update_quotes.rs:101-106 | `{{ci\|a}}` is replaced by the champion name `a` |
| NormalizerFacts.ChampionInlineCustomOf | src/bin/update_quotes.rs:101-106 | `{{ci\|a\|c}}` is replaced by the custom name `c`, which may hold bars |
| NormalizerFacts.NamedBare | src/bin/update_quotes.rs:139-144 | a template of the display-name rules with only its first field gives that field |
| NormalizerFacts.NamedDisplay | src/bin/update_quotes.rs:139-144 | a template of the display-name rules with a second field gives the display name |
| NormalizerFacts.LinkPageOf | src/bin/update_quotes.rs:114 | `[[page]]` gives the page, unless it starts with `File:` |
| NormalizerFacts.LinkTextOf | src/bin/update_quotes.rs:114 | `[[page\|text]]` gives the text, unless the page starts with `File:` |
| NormalizerFacts.FileLinkOf | src/bin/update_quotes.rs:110-112 | `[[File:...]]` is replaced by itself |
| NormalizerFacts.FileLinkTextOf | src/bin/update_quotes.rs:110-112 | `[[File:...\|text]]` is replaced by itself, the text included |
| NormalizerFacts.ImageOf | src/bin/update_quotes.rs:117 | an embed, with its optional spaces, that is followed by `[` or the end of the text becomes one space |
| NormalizerFacts.AbilityBareOf | src/bin/update_quotes.rs:119-124 | `{{ai\|a}}` gives the ability `a` |
| NormalizerFacts.AbilityChampionOf | src/bin/update_quotes.rs:119-124 | `{{ai\|a\|c}}` still gives the ability `a`: the second field fills the champion slot, not the display name |
| NormalizerFacts.AbilityDisplayOf | src/bin/update_quotes.rs:119-124 | `{{ai\|a\|c\|d}}` gives the display name `d` |
| NormalizerFacts.RiotPointsOf | src/bin/update_quotes.rs:126 | `{{RP}}`, and `{{RP` followed by anything without `}` and then `}}`, becomes `RP` |
| NormalizerFacts.SummonerSpellOf | src/bin/update_quotes.rs:128 | `{{si\|x}}` gives `x` |
| NormalizerFacts.IconOpening | src/bin/update_quotes.rs:60 | each of the four openers is recognised, and the first field starts right after it |
| NormalizerFacts.ChampionIconLinkOf | src/bin/update_quotes.rs:130-135 | `{{cci\|file\|link}}` (or `Cci`, `ccib`, `Ccib`) gives the link |
| NormalizerFacts.ChampionIconDisplayOf | src/bin/update_quotes.rs:130-135 | `{{cci\|file\|link\|display}}` (or with the other openers) gives the display name |
| NormalizerFacts.ChampionIconNeedsLink | src/bin/update_quotes.rs:59-61 | `{{cci\|file}}` (or with the other openers) is not matched: both the file and the link field are required |
| NormalizerFacts.AsTemplateOf | src/bin/update_quotes.rs:137 | `{{as\|x}}` and `{{As\|x}}` give `x` |
| NormalizerFacts.StatBareOf | src/bin/update_quotes.rs:139-144 | `{{sti\|a}}` is replaced by the attribute name `a` |
| NormalizerFacts.StatDisplayOf | src/bin/update_quotes.rs:139-144 | `{{sti\|a\|d}}` is replaced by the display name `d` |
| NormalizerFacts.BuffBareOf | src/bin/update_quotes.rs:146-151 | `{{bi\|a}}` is replaced by the buff name `a` |
| NormalizerFacts.BuffDisplayOf | src/bin/update_quotes.rs:146-151 | `{{bi\|a\|d}}` is replaced by the display name `d` |
| NormalizerFacts.TooltipOf | src/bin/update_quotes.rs:153-155 | `{{tt\|x\|hover}}` gives `x`, and the hover text is dropped |
| NormalizerFacts.UnitBareOf | src/bin/update_quotes.rs:157-162 | `{{ui\|a}}` is replaced by the unit name `a` |
| NormalizerFacts.UnitDisplayOf | src/bin/update_quotes.rs:157-162 | `{{ui\|a\|d}}` is replaced by the display name `d` |
| NormalizerFacts.ChampionSkinBareOf | src/bin/update_quotes.rs:164-172 | `{{csl\|a}}` gives the champion `a` |
| NormalizerFacts.ChampionSkinNameOf | src/bin/update_quotes.rs:164-172 | `{{csl\|a\|c}}` gives the skin `c` |
| NormalizerFacts.ChampionSkinDisplayOf | src/bin/update_quotes.rs:164-172 | `{{csl\|a\|c\|d}}` gives the display name `d` |
| NormalizerFacts.FactionBareOf | src/bin/update_quotes.rs:174-179 | `{{fi\|a}}` is replaced by the faction name `a` |
| NormalizerFacts.FactionDisplayOf | src/bin/update_quotes.rs:174-179 | `{{fi\|a\|d}}` is replaced by the display name `d` |
| PassFacts.PassFix | src/bin/update_quotes.rs:99 | a pass over a text in which its rule matches nowhere leaves the text unchanged |
| PassFacts.NoTriggerNoMatch | src/bin/update_quotes.rs:99-179 | a rule matches nowhere in a text that lacks its trigger character |
| PassFacts.PassUntouched | src/bin/update_quotes.rs:99-179 | a pass leaves a text without its trigger character unchanged |
| PassFacts.PassShrinks | src/bin/update_quotes.rs:99-179 | no pass lengthens the text |
| PassFacts.PassAppend | src/bin/update_quotes.rs:99-179 | a stretch in which no match can start is copied, and the pass goes on after it |
| PassFacts.NotStarting | src/bin/update_quotes.rs:99-179 | no match starts at a character the rule's matches cannot start with |
| PassFacts.PassCopies | src/bin/update_quotes.rs:99-179 | where no match starts, the pass copies one character and moves on |
| PassFacts.ApplyRulesAppend | src/bin/update_quotes.rs:99-179 | running one chain of passes and then another is running the two chains joined: each pass works on the output of the one before |
| PassFacts.ApplyRulesUntouched | src/bin/update_quotes.rs:99-179 | a text that lacks the trigger of every rule in a chain comes through the chain unchanged |
| PassFacts.ApplyRulesShrinks | src/bin/update_quotes.rs:99-179 | no chain of passes lengthens the text |
| PassFacts.ApplyRulesFix | src/bin/update_quotes.rs:99-179 | a chain of rules none of which matches anywhere in the text leaves it unchanged |
| PassFacts.NormalizeInOrder | src/bin/update_quotes.rs:99-179 | the normaliser (`Catalogue`, whose embed pass runs the corrected pattern) is the fifteen passes, each run exactly once, in source order |
| PassFacts.Step | src/bin/update_quotes.rs:99-179 | the passes from a position of the catalogue on are the pass at that position, then the rest |
| PassFacts.NormalizeShrinks | src/bin/update_quotes.rs:99-179 | the normaliser never lengthens the text |
| PassFacts.PlainTextUnchanged | src/bin/update_quotes.rs:99-179 | text without `{` or `[` is left exactly as it is |
| NormalizerExamples.UpperAppend | src/bin/update_quotes.rs:99 | upper-casing works character by character, so it distributes over concatenation |
| NormalizerExamples.TemplateHead | src/bin/update_quotes.rs:32-97 | a template rule matches only at `{{` followed by the first letter of one of the template names |
| NormalizerExamples.DeadOpener | src/bin/update_quotes.rs:32-97 | a `{{` followed by a letter no template name starts with is matched by no rule, when nothing else in the text can match |
| NormalizerExamples.SmallBoldCapsPass | src/bin/update_quotes.rs:99 | the `sbc` pass on one `sbc` template followed by text without `{` gives the text in capitals, then the rest |
| NormalizerExamples.SmallBoldCapsAlone | src/bin/update_quotes.rs:99-179 | the whole normaliser on `{{sbc\|x}}`, with no markup in `x`, gives `x` in capitals |
| NormalizerExamples.NestedSmallBoldCaps | src/bin/update_quotes.rs:99 | `{{sbc\|{{sbc\|x}}}}` becomes `{{SBC\|X}}`, both after the first pass and after the whole normaliser: the outer field runs to the first `}`, and the replacement is not rescanned by the same rule |
| NormalizerExamples.NestedResultDead | src/bin/update_quotes.rs:32-97 | no rule matches what that example leaves, because `SBC` is no template name |
| NormalizerExamples.FileLinkPass | src/bin/update_quotes.rs:110-112 | the link pass keeps a text that is one `File:` link |
| NormalizerExamples.EmbedPass | src/bin/update_quotes.rs:117 | the embed pass turns a text that is one embed into one space |
| NormalizerExamples.EmbedBecomesSpace | src/bin/update_quotes.rs:108-117 | `[[File:x]]` on its own comes out of the whole normaliser as one space: the link pass keeps it, the embed pass removes it |
| NormalizerExamples.ImageAsWrittenCutsEmbed | src/bin/update_quotes.rs:47 | on `[[File:x]]` with a name of two or more characters, the pattern as written matches only `[[File:` and the first character of the name, while the intended pattern matches the whole embed |
| NormalizerExamples.EmbedPassAsWritten | src/bin/update_quotes.rs:117 | the embed pass as written on `[[File:x]]` leaves a space, then the name without its first character and the closing `]]` |
| NormalizerExamples.LinksOnlyAsWritten | src/bin/update_quotes.rs:99-179 | with the pattern as written, a text without `{` comes out of the normaliser as the link pass and then the embed pass leave it |
| NormalizerExamples.EmbedCutAsWritten | src/bin/update_quotes.rs:47 | `[[File:x]]` on its own, with a name of two or more characters, comes out of the normaliser as written as a space, the name without its first character and `]]` |
| NormalizerExamples.IconEmbedAsWritten | src/bin/update_quotes.rs:47 | `[[File:icon.png]]` comes out of the normaliser as written as ` con.png]]`, and out of the corrected one as a single space |
| NormalizerExamples.ImageOpens | src/bin/update_quotes.rs:47 | every embed match has `[[File:` at its start or one character in |
| NormalizerExamples.NoEmbedInLink | src/bin/update_quotes.rs:47 | an ordinary link around plain text holds no embed match |
| NormalizerExamples.NoFileIn | src/bin/update_quotes.rs:47 | `[[File:` occurs nowhere in an ordinary link around plain text |
| NormalizerExamples.LinkPass | src/bin/update_quotes.rs:108-115 | the link pass on one ordinary link, followed by text without `[`, gives the page and then the rest |
| NormalizerExamples.LinkInLinkOnce | src/bin/update_quotes.rs:99-179 | `[[[[a]]]]` normalises to `[[a]]` |
| NormalizerExamples.LinkInLinkTwice | src/bin/update_quotes.rs:99-179 | `[[a]]` normalises to `a` |
| NormalizerExamples.LinkInLink | src/bin/update_quotes.rs:99-179 | normalising `[[[[a]]]]` twice differs from normalising it once: the normaliser is not idempotent |
| DefaultStrategy.QuoteAt | src/bin/update_quotes.rs:184 | a match of `''"(.*)"''` that starts here, if any, with the capture ending at the last `"''` reachable without crossing a line feed: every match starting here ends at or before it |
| DefaultStrategy.QuoteAtBest | src/bin/update_quotes.rs:184 | the same two facts, for the last closing delimiter within the line's run |
| DefaultStrategy.Captures | src/bin/update_quotes.rs:188 | `captures_iter` from a position: no capture holds a line feed |
| DefaultStrategy.CapturesTake | src/bin/update_quotes.rs:188 | where a match starts, its capture comes first and the scan resumes after the match |
| DefaultStrategy.CapturesSkip | src/bin/update_quotes.rs:188 | where no match starts, the scan moves on by one character |
| DefaultStrategy.Kept | src/bin/update_quotes.rs:191-192 | filtering never adds quotes |
| DefaultStrategy.KeptCons | src/bin/update_quotes.rs:191-192 | one capture is filtered, rewritten if kept, and then the rest |
| DefaultStrategy.KeptAppend | src/bin/update_quotes.rs:191-192 | filtering keeps the order: the quotes of two stretches are those of the first, then those of the second |
| DefaultStrategy.KeptMembers | src/bin/update_quotes.rs:191-192 | a quote is in the result exactly when it is the rewriting of a capture that contains no `ogg` and is not `GG!` |
| DefaultStrategy.Keep | src/bin/update_quotes.rs:191 | a capture is kept unless it contains `ogg` or is `GG!`; `KeptMembers` states the result in terms of it |
| DefaultStrategy.KeptNoBold | src/bin/update_quotes.rs:192 | no quote of the result holds three apostrophes in a row |
| DefaultStrategy.KeptTake | src/bin/update_quotes.rs:188-193 | where a match starts, the quotes are its capture, if kept and rewritten, followed by the quotes after the match |
| DefaultStrategy.KeptPush | src/bin/update_quotes.rs:191-193 | pushing the rewritten capture if it is kept, and resuming after the match, keeps the quotes found so far plus those still ahead equal to all the quotes |
| DefaultStrategy.KeptExtend | src/bin/update_quotes.rs:191-193 | pushing a kept capture's rewriting, or skipping a dropped one, extends the quotes found so far by that capture's contribution |
| DefaultStrategy.ExtractDefault | src/bin/update_quotes.rs:184-195 | the loop over the matches returns exactly the kept, rewritten captures of the whole text, in order |
| DefaultStrategy.NextQuote | src/bin/update_quotes.rs:188-194 | one step of the loop moves forward and keeps the quotes found so far plus those still ahead equal to all the quotes |
| DefaultStrategy.DefaultQuotesShape | src/bin/update_quotes.rs:184-195 | every quote is the rewriting of a kept capture that holds no line feed, and holds no bold marker |
| DefaultStrategy.DefaultQuotes | src/bin/update_quotes.rs:184-195 | the kept, rewritten captures of the whole text; `ExtractDefault` is proved against it and `DefaultQuotesShape`, `KeptMembers` and `OnePerLine` state what it holds |
| DefaultStrategy.ClearLit | src/bin/update_quotes.rs:184 | a delimiter lies on one line |
| DefaultStrategy.OnePerLine | src/bin/update_quotes.rs:184 | after a match, no further match starts on the same line: at most one capture per line |
| KindredStrategy.SpeakerAt | src/bin/update_quotes.rs:197 | the speaker group, if it matches, yields one of `Wolf`, `Lamb`, `Kindred`, and that name is written there |
| KindredStrategy.SpeakerAtUnique | src/bin/update_quotes.rs:197 | a speaker written at a position is the one found, so the order of the alternatives does not matter |
| KindredStrategy.CloseAt | src/bin/update_quotes.rs:197 | the end of the pattern at a position: an optional quote and `''`, the quote taken first when it fits |
| KindredStrategy.GroupFrom | src/bin/update_quotes.rs:197 | the utterance group tried from its longest length down: a length it settles on is within the run and is followed by a closing that matches |
| KindredStrategy.GroupFromCovers | src/bin/update_quotes.rs:197 | the search never passes over a length that can be closed: it settles on a longer one, or on that one with the same closing |
| KindredStrategy.TailFrom | src/bin/update_quotes.rs:197 | with the opening quote taken or left out as asked, what is found is a way the rest of the pattern matches, and every way of matching with that choice exists only if something is found and is not preferred to it |
| KindredStrategy.GroupSound | src/bin/update_quotes.rs:197 | the length and closing the group search settles on form a way of matching after the speaker |
| KindredStrategy.GroupBest | src/bin/update_quotes.rs:197 | with the opening quote fixed, no way of matching comes before the one the group search settles on, and any way of matching means the search finds something |
| KindredStrategy.TailAt | src/bin/update_quotes.rs:197 | the rest of the pattern after `: ''` matches as the backtracking engine would: the way found is the first in its order of preference, and when none is found there is no way at all |
| KindredStrategy.TailAtBest | src/bin/update_quotes.rs:197 | trying the opening quote taken and then left out gives that preferred way |
| KindredStrategy.KindredAt | src/bin/update_quotes.rs:197 | the match starting at a position: one of the three speakers and `: ''` are written there, and the utterance comes from the preferred way of matching; with no match, no speaker there has any way of matching |
| KindredStrategy.KindredAtNone | src/bin/update_quotes.rs:197 | any speaker written at a position is the one the speaker group finds |
| KindredStrategy.Voices | src/bin/update_quotes.rs:214 | `captures_iter` over a cleaned line: every match has one of the three speakers |
| KindredStrategy.VoicesSkip | src/bin/update_quotes.rs:214 | where no match starts, the scan of the line moves on by one character |
| KindredStrategy.VoicesTake | src/bin/update_quotes.rs:214 | where a match starts, it comes first and the scan resumes after it |
| KindredStrategy.LeadingStars | src/bin/update_quotes.rs:204-212 | the depth is the number of `*` the line starts with: all of them are `*`, and the next character, if any, is not |
| KindredStrategy.CountStars | src/bin/update_quotes.rs:204-212 | the counting loop yields the number of leading `*` |
| KindredStrategy.Mark | src/bin/update_quotes.rs:214-225 | every match of a line is tagged with that line's depth |
| KindredStrategy.LineEvents | src/bin/update_quotes.rs:203-214 | the matches of one trimmed line, tagged with its depth; `EventsStep` states it |
| KindredStrategy.Events | src/bin/update_quotes.rs:202-214 | the matches of all lines in order; `EventsStep` states it line by line |
| KindredStrategy.Quote | src/bin/update_quotes.rs:215 | `speaker: utterance` with bold markers rewritten; `KindredFacts.Said` collects these |
| KindredStrategy.Hear | src/bin/update_quotes.rs:215-225 | one match: a panic on a missing utterance, a panic on a continuation with no entry, else the last entry continued or a new one pushed; `KindredFacts.HearSaid` states its effect |
| KindredStrategy.HearEvents | src/bin/update_quotes.rs:214-226 | the matches heard in order, stopping at the first panic; `HearEventsAppend`, `KindredFacts.HearOnward` and `KindredFacts.HearGroups` state it |
| KindredStrategy.KindredQuotes | src/bin/update_quotes.rs:197-228 | the matches of all lines heard from no entry and depth 1; `ExtractKindred` is proved against it and `KindredFacts.Outcome` states its outcome |
| KindredStrategy.HearMatch | src/bin/update_quotes.rs:215-225 | one match: the quote is formatted, then appended to the last entry after a line feed when the depth is one more than the last depth, and pushed as a new entry otherwise; the depth is remembered; the two panics become errors |
| KindredStrategy.HearLine | src/bin/update_quotes.rs:214-226 | the loop over a line's matches does to the state what its matches, tagged with the line's depth, do one after the other |
| KindredStrategy.ExtractKindred | src/bin/update_quotes.rs:197-227 | the loop over the trimmed lines, starting with no entry and depth 1, returns what the matches of all the lines do in order, or the first panic |
| KindredStrategy.HearEventsAppend | src/bin/update_quotes.rs:202-226 | hearing two stretches of matches is hearing the first, then the second from where the first left off, and a panic in the first ends it |
| KindredStrategy.EventsStep | src/bin/update_quotes.rs:202-214 | the matches of the lines from one on are those of that line, trimmed and tagged with its depth, then those of the rest |
| KindredStrategy.HearFirst | src/bin/update_quotes.rs:214-225 | hearing a line's matches is hearing its first match, then the others |
| KindredFacts.Said | src/bin/update_quotes.rs:215 | one quote per match |
| KindredFacts.Fresh | src/bin/update_quotes.rs:217-223 | at most one new entry per match |
| KindredFacts.JoinAppend | src/bin/update_quotes.rs:217-223 | joining two non-empty lists of entries is joining each, with a line feed between |
| KindredFacts.JoinExtendLast | src/bin/update_quotes.rs:217-220 | appending a line feed and a quote to the last entry joins like pushing the quote as a new entry |
| KindredFacts.Chain | src/bin/update_quotes.rs:217 | the length of the leading run of matches each one level deeper than the one before (the first compared with a given depth): every match in it is a continuation, and the match after it is not |
| KindredFacts.Group | src/bin/update_quotes.rs:217-223 | the grouping stated without a state machine: a match opens an entry, and the run of continuations after it joins that entry by line feeds; there are at most as many entries as matches |
| KindredFacts.Extend | src/bin/update_quotes.rs:219-220 | continuing the last entry by quotes keeps the other entries and their number, and the last entry gets the quotes after line feeds |
| KindredFacts.ExtendTwice | src/bin/update_quotes.rs:219-220 | continuing by one quote and then by more is continuing by all of them |
| KindredFacts.ExtendPush | src/bin/update_quotes.rs:217-223 | pushing an entry and continuing it is pushing the continued entry |
| KindredFacts.HearGroups | src/bin/update_quotes.rs:214-226 | once an entry exists, matches that all carry an utterance extend the last entry by the leading run of continuations and then make the entries of `Group` for the rest |
| KindredFacts.FromStartGroups | src/bin/update_quotes.rs:197-228 | from the start, matches that all carry an utterance, the first not at depth 2, give exactly the entries of `Group` |
| KindredFacts.GroupSameDepth | src/bin/update_quotes.rs:217-223 | matches all at one depth make one entry each |
| KindredFacts.Staircase | src/bin/update_quotes.rs:217-223 | matches each one level deeper than the one before make a single entry of all their quotes |
| KindredFacts.HearSaid | src/bin/update_quotes.rs:215-225 | once an entry exists, a match with an utterance never panics; all entries but the last are kept; a match one level deeper than the last depth extends the last entry by a line feed and its quote, any other match pushes its quote as a new entry; the depth becomes the match's |
| KindredFacts.HearOnward | src/bin/update_quotes.rs:214-226 | once an entry exists, a stream of matches panics exactly when some match lacks an utterance; otherwise the leading run of matches each one level deeper than the one before extends the last entry, the rest are grouped by `Group`, the joined entries gain every quote in order, and the remembered depth is the last match's |
| KindredFacts.Outcome | src/bin/update_quotes.rs:197-228 | from the start (no entry, depth 1) the extraction succeeds exactly when every match has an utterance and the first is not at depth 2; a first match at depth 2 with an utterance panics on the missing entry, any other failure is a missing utterance; on success the entries are `Group` of the matches, joined by line feeds they are all the quotes in order, and there is one entry per match that opens one |
| KindredFacts.FreshSameDepth | src/bin/update_quotes.rs:217-223 | after a match, every further match at the same depth opens a new entry |
| KindredFacts.OneContinuationPerLine | src/bin/update_quotes.rs:217-225 | of the matches on one line only the first can continue the entry before, and the remembered depth becomes the line's depth |
| KindredFacts.SilentLine | src/bin/update_quotes.rs:214-225 | a line without matches changes nothing: the remembered depth is not updated by it |
| KindredExamples.SameSpeaker | src/bin/update_quotes.rs:197 | no two speakers fit at the same position |
| KindredExamples.NoSpeaker | src/bin/update_quotes.rs:197 | no match starts at a character that starts no speaker |
| KindredExamples.MatchOfSpeaker | src/bin/update_quotes.rs:197 | a line opened by a speaker that has some way of matching is matched, with the utterance of the preferred way |
| KindredExamples.EmptyUtterance | src/bin/update_quotes.rs:197 | `Wolf: ''''` (and likewise for the other speakers) matches only with the utterance group left out |
| KindredExamples.EmptyUtteranceCrashes | src/bin/update_quotes.rs:215 | a page holding just `w: ''''` panics on the missing utterance |
| KindredExamples.NoTailNoMatch | src/bin/update_quotes.rs:197 | with no way to match after the speaker, nothing matches there |
| KindredExamples.PlainTail | src/bin/update_quotes.rs:197 | a stretch without quotes followed by `''` is a way to match without the optional quotes |
| KindredExamples.SpokenMatch | src/bin/update_quotes.rs:197 | when a non-empty utterance can match and no quote opens it, the match carries an utterance |
| KindredExamples.DeepMatch | src/bin/update_quotes.rs:197 | in `** w: ''u''` no match starts at the stars, and the one at the speaker carries an utterance |
| KindredExamples.TwoStars | src/bin/update_quotes.rs:204-212 | a line starting with exactly two stars has depth 2 |
| KindredExamples.DeepFirstLineCrashes | src/bin/update_quotes.rs:217-218 | a page whose first line is `** w: ''u''` panics: the line is one level deeper than the starting depth 1, and there is no entry to continue |
| KindredExamples.FirstAtTwo | src/bin/update_quotes.rs:217-218 | a one-line page whose first match is at depth 2 and carries an utterance panics on the missing entry |
| KindredExamples.ApostropheQuote | src/bin/update_quotes.rs:197 | nothing matches at an apostrophe followed by a quote and then a character other than an apostrophe |
| KindredExamples.BoldQuotedNotMatched | src/bin/update_quotes.rs:197 | `w: '''"u"'''` has no match at its speaker |
| KindredExamples.StairsOneEntry | src/bin/update_quotes.rs:197-228 | three matches at depths 1, 2, 3 give one entry holding the three quotes on three lines |
| KindredExamples.FlatThreeEntries | src/bin/update_quotes.rs:197-228 | three matches at depths 1, 1, 1 give three entries, one quote each |
| KindredExamples.ContinueFirst | src/bin/update_quotes.rs:197-228 | depths 1, 2, 1 give the first two quotes as one entry and the third as another |
| KindredExamples.ContinueSecond | src/bin/update_quotes.rs:197-228 | depths 1, 1, 2 give the first quote as one entry and the last two as another |

## Left out

- `get_quotes` (src/bin/update_quotes.rs:12-29): the HTTP request and the body download are network I/O and are not modelled; only the page address is.
- The UTF-8 decode with `unwrap_or_default` (src/bin/update_quotes.rs:26) is not modelled: the parser takes the page as a string of characters.
- `main` (src/bin/update_quotes.rs:233-312): reading `champions.json`, the loop over the champions, JSON serialisation and writing `quotes.json` are file I/O; only the name choice at 276-280 is modelled.
- The regex crate itself is not modelled. Each of the seventeen fixed patterns is written out as its own matcher, with the engine's leftmost-first and greedy preferences, and the builders' `unwrap` cannot fail on these fixed patterns.
- `multi_line(true)` only changes `^` and `$`, which no pattern uses, so it is not modelled.
- Text.Upper: `to_uppercase` is modelled on ASCII letters only; other characters, and letters whose capital is longer than one character, are left as they are.
- KindredStrategy.CountStars: the star count is an unbounded natural number, not a 32-bit `i32`, whose overflow would need more than two billion leading stars on one line.
- KindredStrategy.HearMatch: the two panics are modelled as errors that end the extraction; the unwinding they cause in the source, which aborts the whole tool, is not.
- DefaultStrategy.Kept and KindredFacts.Said: their own contracts state only a length bound; what they hold is stated by `KeptMembers`, `KeptAppend`, `HearOnward` and `Outcome`.
- KindredFacts.Group: its own contract states only a bound on the number of entries; what it groups, and that the extractor produces it, is stated by `Chain`, `HearGroups`, `Outcome`, `GroupSameDepth` and `Staircase`.
- Normalizer.ImageAt: it is the intended embed pattern, not the one written at src/bin/update_quotes.rs:47; the written pattern is `Normalizer.ImageAtAsWritten`, the rule `ImageAsWritten`. See Findings.
- Normalizer.Normalize: it runs `Catalogue`, whose embed pass uses the intended pattern, so on a text holding `[[File:NAME]]` it gives a single space where the program as written leaves the rest of the name and `]]`; `Normalizer.NormalizeAsWritten` runs the passes as written.
- Quotes.ParseQuotes: it normalises with `Normalize`, so its quotes are those of the corrected embed pass; the quotes of the program as written would come from `NormalizeAsWritten` instead.

## Findings

| source | as written | input that shows it | evidently intended | confidence | as-written member | corrected member |
|---|---|---|---|---|---|---|
| src/bin/update_quotes.rs:47 | ` ?\[\[File:[^[]+]] ?`: an unescaped `[` inside a class opens a nested class, and a `]` right after an opening bracket is a literal, so `[^[]+]]` is one character other than `]` and `+` | `[[File:icon.png]]`: the written pattern matches `[[File:i` only, so the pass leaves `" con.png]]"` instead of `" "` | ` ?\[\[File:[^\[]+\]\] ?`, which removes the whole embed | not executed; follows the regex crate's documented nested-class syntax | Normalizer.ImageAtAsWritten, NormalizerExamples.ImageAsWrittenCutsEmbed, NormalizerExamples.EmbedCutAsWritten, NormalizerExamples.IconEmbedAsWritten | Normalizer.ImageAt, NormalizerFacts.ImageOf, NormalizerExamples.EmbedBecomesSpace |
