/**
 * Properties of a `replace_all` pass and of the chain of fifteen passes:
 * what a pass leaves alone, that no pass lengthens the text, that the chain
 * is its passes composed in catalogue order, and what the whole normaliser
 * makes of a few characteristic inputs (nested markup, embeds, links
 * inside links).
 */
module PassFacts {
  import opened Wrappers
  import opened Text
  import opened Templates
  import opened Normalizer
  import opened NormalizerFacts

  /** No match of `r` starts anywhere in `s`. */
  predicate NoMatch(r: Rule, s: string) {
    forall i :: 0 <= i < |s| ==> MatchAt(r, s[i..]).None?
  }

  /** Where no match starts, a pass copies the text unchanged. */
  lemma {:induction false} PassFix(r: Rule, s: string)
    requires NoMatch(r, s)
    ensures Pass(r, s) == s
    decreases |s|
  {
    if s != [] {
      assert s[0..] == s;
      forall i | 0 <= i < |s[1..]|
        ensures MatchAt(r, s[1..][i..]).None?
      {
        assert s[1..][i..] == s[i + 1..];
      }
      PassFix(r, s[1..]);
    }
  }

  /** A rule cannot match a text that lacks the character every one of its matches contains. */
  lemma NoTriggerNoMatch(r: Rule, s: string)
    requires Trigger(r) !in s
    ensures NoMatch(r, s)
  {
    forall i | 0 <= i < |s|
      ensures MatchAt(r, s[i..]).None?
    {
      var t := s[i..];
      forall n | 0 <= n <= |t|
        ensures Trigger(r) !in t[..n]
      {
        assert forall k :: 0 <= k < n ==> t[..n][k] == s[i + k];
      }
    }
  }

  /** A pass leaves a text without its trigger character unchanged. */
  lemma PassUntouched(r: Rule, s: string)
    requires Trigger(r) !in s
    ensures Pass(r, s) == s
  {
    NoTriggerNoMatch(r, s);
    PassFix(r, s);
  }

  /** A pass never lengthens the text: every replacement is at most as long as its match. */
  lemma {:induction false} PassShrinks(r: Rule, s: string)
    ensures |Pass(r, s)| <= |s|
    decreases |s|
  {
    if s != [] {
      match MatchAt(r, s)
      case Some(h) =>
        PassShrinks(r, s[h.len..]);
      case None =>
        PassShrinks(r, s[1..]);
    }
  }

  /** A stretch with no character a match can start with is copied, and the pass resumes after it. */
  lemma {:induction false} PassAppend(r: Rule, p: string, q: string)
    requires forall k :: 0 <= k < |p| ==> p[k] !in Starts(r)
    ensures Pass(r, p + q) == p + Pass(r, q)
    decreases |p|
  {
    if p != [] {
      var s := p + q;
      ConsAppend(p, q);
      NotStarting(r, s);
      PassCopies(r, s);
      PassAppend(r, p[1..], q);
      ConsAppend(p, Pass(r, q));
    } else {
      assert p + q == q;
    }
  }

  /** No match begins at a character the rule's matches cannot start with. */
  lemma NotStarting(r: Rule, t: string)
    requires t != [] && t[0] !in Starts(r)
    ensures MatchAt(r, t).None?
  {
  }

  /** Where no match starts, a pass copies one character and moves on. */
  lemma PassCopies(r: Rule, s: string)
    requires s != [] && MatchAt(r, s).None?
    ensures Pass(r, s) == [s[0]] + Pass(r, s[1..])
  {
  }

  /** Running `a` and then `b` is running `a + b`: each pass works on the output of the one before. */
  lemma {:induction false} ApplyRulesAppend(a: seq<Rule>, b: seq<Rule>, s: string)
    ensures ApplyRules(a + b, s) == ApplyRules(b, ApplyRules(a, s))
    decreases |a|
  {
    if a == [] {
      assert a + b == b;
    } else {
      assert (a + b)[0] == a[0] && (a + b)[1..] == a[1..] + b;
      ApplyRulesAppend(a[1..], b, Pass(a[0], s));
    }
  }

  /** A text that lacks the trigger of every rule in a chain goes through it unchanged. */
  lemma {:induction false} ApplyRulesUntouched(rules: seq<Rule>, s: string)
    requires forall j :: 0 <= j < |rules| ==> Trigger(rules[j]) !in s
    ensures ApplyRules(rules, s) == s
    decreases |rules|
  {
    if rules != [] {
      assert Trigger(rules[0]) !in s;
      PassUntouched(rules[0], s);
      assert forall j :: 0 <= j < |rules[1..]| ==> rules[1..][j] == rules[j + 1];
      ApplyRulesUntouched(rules[1..], s);
    }
  }

  /** A chain of passes never lengthens the text. */
  lemma {:induction false} ApplyRulesShrinks(rules: seq<Rule>, s: string)
    ensures |ApplyRules(rules, s)| <= |s|
    decreases |rules|
  {
    if rules != [] {
      PassShrinks(rules[0], s);
      ApplyRulesShrinks(rules[1..], Pass(rules[0], s));
    }
  }

  /** A chain of rules none of which matches anywhere in the text leaves it unchanged. */
  lemma {:induction false} ApplyRulesFix(rules: seq<Rule>, s: string)
    requires forall r :: r in rules ==> NoMatch(r, s)
    ensures ApplyRules(rules, s) == s
    decreases |rules|
  {
    if rules != [] {
      assert rules[0] in rules;
      PassFix(rules[0], s);
      assert forall r :: r in rules[1..] ==> r in rules;
      ApplyRulesFix(rules[1..], s);
    }
  }

  // ---------------------------------------------------------------------------
  // The whole normaliser
  // ---------------------------------------------------------------------------

  /** The normaliser is the fifteen passes, each run once, in catalogue order. */
  lemma NormalizeInOrder(s: string)
    ensures Normalize(s)
      == Pass(Faction, Pass(ChampionSkin, Pass(Unit, Pass(Tooltip, Pass(Buff, Pass(Stat,
         Pass(AsTemplate, Pass(ChampionIcon, Pass(SummonerSpell, Pass(RiotPoints, Pass(Ability,
         Pass(Image, Pass(Link, Pass(ChampionInline, Pass(SmallBoldCaps, s)))))))))))))))
  {
    var c := Catalogue;
    assert c[0..] == c;
    var t0 := s;
    var t1 := Pass(SmallBoldCaps, t0);
    Step(c, 0, t0);
    var t2 := Pass(ChampionInline, t1);
    Step(c, 1, t1);
    var t3 := Pass(Link, t2);
    Step(c, 2, t2);
    var t4 := Pass(Image, t3);
    Step(c, 3, t3);
    var t5 := Pass(Ability, t4);
    Step(c, 4, t4);
    var t6 := Pass(RiotPoints, t5);
    Step(c, 5, t5);
    var t7 := Pass(SummonerSpell, t6);
    Step(c, 6, t6);
    var t8 := Pass(ChampionIcon, t7);
    Step(c, 7, t7);
    var t9 := Pass(AsTemplate, t8);
    Step(c, 8, t8);
    var t10 := Pass(Stat, t9);
    Step(c, 9, t9);
    var t11 := Pass(Buff, t10);
    Step(c, 10, t10);
    var t12 := Pass(Tooltip, t11);
    Step(c, 11, t11);
    var t13 := Pass(Unit, t12);
    Step(c, 12, t12);
    var t14 := Pass(ChampionSkin, t13);
    Step(c, 13, t13);
    var t15 := Pass(Faction, t14);
    Step(c, 14, t14);
    assert c[15..] == [];
  }

  /** The passes from position `k` on: the one at `k`, then the rest. */
  lemma Step(c: seq<Rule>, k: nat, t: string)
    requires k < |c|
    ensures ApplyRules(c[k..], t) == ApplyRules(c[k + 1..], Pass(c[k], t))
  {
    assert c[k..][0] == c[k] && c[k..][1..] == c[k + 1..];
  }

  /** The first two passes of a chain, then the rest. */
  lemma TwoSteps(c: seq<Rule>, t: string)
    requires 2 <= |c|
    ensures ApplyRules(c, t) == ApplyRules(c[2..], Pass(c[1], Pass(c[0], t)))
  {
    assert c[1..][0] == c[1] && c[1..][1..] == c[2..];
  }

  /** The normaliser never lengthens the text. */
  lemma NormalizeShrinks(s: string)
    ensures |Normalize(s)| <= |s|
  {
    ApplyRulesShrinks(Catalogue, s);
  }

  /** Text without `{` or `[` is left exactly as it is. */
  lemma PlainTextUnchanged(s: string)
    requires '{' !in s && '[' !in s
    ensures Normalize(s) == s
  {
    ApplyRulesUntouched(Catalogue, s);
  }
}
