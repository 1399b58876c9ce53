/**
 * `parse_quotes` end to end: normalise the page's templates and links, then
 * pick the extractor by the champion's name; and the two pieces of string
 * handling around the page fetch: the wiki page name in the audio page's
 * address, and the choice of the champion id over a name holding `&`.
 */
module Quotes {
  import opened Wrappers
  import opened Text
  import opened Normalizer
  import opened DefaultStrategy
  import opened KindredStrategy

  /** The quotes of a champion's audio page. Only the Kindred extractor can crash. */
  method ParseQuotes(text: string, name: string) returns (r: Result<seq<string>, Crash>)
    ensures name != "Kindred" ==> r == Ok(DefaultQuotes(Normalize(text)))
    ensures name == "Kindred" ==> r == KindredQuotes(Normalize(text))
  {
    var normalized := Normalize(text);
    if name != "Kindred" {
      var matches := ExtractDefault(normalized);
      r := Ok(matches);
    } else {
      r := ExtractKindred(normalized);
    }
  }

  // ---------------------------------------------------------------------------
  // The audio page's address
  // ---------------------------------------------------------------------------

  /** Rust's `name.replace(" ", "_")`. */
  function PageName(name: string): (r: string)
    ensures |r| == |name|
  {
    if name == [] then [] else [if name[0] == ' ' then '_' else name[0]] + PageName(name[1..])
  }

  /** The inverse direction, `_` back to a space. */
  function SpacedName(page: string): (r: string)
    ensures |r| == |page|
  {
    if page == [] then [] else [if page[0] == '_' then ' ' else page[0]] + SpacedName(page[1..])
  }

  /** The page name has no spaces, and every other character of the name is kept in place. */
  lemma {:induction false} PageNameChars(name: string)
    ensures ' ' !in PageName(name)
    ensures forall k :: 0 <= k < |name| ==> PageName(name)[k] == (if name[k] == ' ' then '_' else name[k])
    decreases |name|
  {
    if name != [] {
      PageNameChars(name[1..]);
      var r := PageName(name);
      assert r[1..] == PageName(name[1..]);
      assert forall k :: 1 <= k < |name| ==> r[k] == PageName(name[1..])[k - 1] && name[k] == name[1..][k - 1];
    }
  }

  /** A name without underscores is recovered from its page name. */
  lemma {:induction false} PageNameRoundTrip(name: string)
    requires '_' !in name
    ensures SpacedName(PageName(name)) == name
    decreases |name|
  {
    if name != [] {
      assert name[0] in name;
      assert forall c :: c in name[1..] ==> c in name;
      PageNameRoundTrip(name[1..]);
      var r := PageName(name);
      assert r[0] == (if name[0] == ' ' then '_' else name[0]) && r[1..] == PageName(name[1..]);
      assert [name[0]] + name[1..] == name;
    }
  }

  const AudioPrefix: string := "https://leagueoflegends.fandom.com/wiki/"
  const AudioSuffix: string := "/LoL/Audio?action=raw"

  /** The raw audio page of a champion. */
  function AudioUrl(name: string): string {
    AudioPrefix + PageName(name) + AudioSuffix
  }

  /** The address holds no space, and the page name sits between the fixed prefix and suffix. */
  lemma AudioUrlShape(name: string)
    ensures ' ' !in AudioUrl(name)
    ensures var u := AudioUrl(name);
      |u| == |AudioPrefix| + |name| + |AudioSuffix|
      && u[|AudioPrefix|..|AudioPrefix| + |name|] == PageName(name)
  {
    PageNameChars(name);
    var u := AudioUrl(name);
    assert ' ' !in AudioPrefix && ' ' !in AudioSuffix;
    forall k | 0 <= k < |u| ensures u[k] != ' ' {
      if k < |AudioPrefix| {
        assert u[k] == AudioPrefix[k];
      } else if k < |AudioPrefix| + |name| {
        assert u[k] == PageName(name)[k - |AudioPrefix|];
      } else {
        assert u[k] == AudioSuffix[k - |AudioPrefix| - |name|];
      }
    }
    Place(u, AudioPrefix, PageName(name), AudioSuffix);
  }

  // ---------------------------------------------------------------------------
  // The name the page is looked up by
  // ---------------------------------------------------------------------------

  /** A champion whose name holds `&` is looked up by its id. */
  function NameToUse(name: string, id: string): string {
    if Contains(name, "&") then id else name
  }

  /** A one-character literal occurs exactly when the character does. */
  lemma ContainsChar(s: string, c: char)
    ensures Contains(s, [c]) <==> c in s
  {
    if c in s {
      var k :| 0 <= k < |s| && s[k] == c;
      assert HasAt(s, k, [c]);
    }
    if Contains(s, [c]) {
      var k: nat :| k <= |s| && HasAt(s, k, [c]);
      HasAtChar(s, k, [c], 0);
      assert s[k] in s;
    }
  }

  /** A display name with `&` is replaced by the id, any other is kept. */
  lemma NameToUseCases(name: string, id: string)
    ensures '&' in name ==> NameToUse(name, id) == id
    ensures '&' !in name ==> NameToUse(name, id) == name
  {
    ContainsChar(name, '&');
  }

  /** So the name looked up never holds `&` as long as the id does not. */
  lemma NameToUseAmpersandFree(name: string, id: string)
    requires '&' !in id
    ensures '&' !in NameToUse(name, id)
  {
    NameToUseCases(name, id);
  }
}
