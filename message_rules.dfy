/**
 * The shape shared by the application's error-message classifiers: an ordered list of
 * rules, each a set of substrings and the text shown when the message contains one of
 * them. The first matching rule wins.
 */
module MessageRules {
  import opened Wrappers
  import Text

  datatype Rule = Rule(patterns: seq<string>, text: string)

  /** The message contains one of the rule's substrings. */
  predicate Matches(rule: Rule, message: string) {
    exists j :: 0 <= j < |rule.patterns| && Text.Contains(message, rule.patterns[j])
  }

  /** A rule with one substring matches exactly the messages containing it. */
  lemma MatchesOne(p: string, text: string, message: string)
    ensures Matches(Rule([p], text), message) <==> Text.Contains(message, p)
  {
    assert [p][0] == p;
  }

  /** A rule with two substrings matches exactly the messages containing either. */
  lemma MatchesTwo(p: string, q: string, text: string, message: string)
    ensures Matches(Rule([p, q], text), message) <==> Text.Contains(message, p) || Text.Contains(message, q)
  {
    assert [p, q][0] == p && [p, q][1] == q;
  }

  /** Rule `k` matches and no earlier rule does. */
  predicate IsFirstMatch(rules: seq<Rule>, message: string, k: int) {
    && 0 <= k < |rules|
    && Matches(rules[k], message)
    && forall j :: 0 <= j < k ==> !Matches(rules[j], message)
  }

  predicate NoMatch(rules: seq<Rule>, message: string) {
    forall j :: 0 <= j < |rules| ==> !Matches(rules[j], message)
  }

  /** The classification as a plain recursive walk down the rules. */
  function FirstMatchText(rules: seq<Rule>, message: string): (r: Option<string>)
    decreases |rules|
  {
    if rules == [] then None
    else if Matches(rules[0], message) then Some(rules[0].text)
    else FirstMatchText(rules[1..], message)
  }

  /** At most one rule is the first match. */
  lemma FirstMatchUnique(rules: seq<Rule>, message: string, k1: int, k2: int)
    requires IsFirstMatch(rules, message, k1) && IsFirstMatch(rules, message, k2)
    ensures k1 == k2
  {
  }

  /** The recursive walk finds exactly the text of the first matching rule, and nothing when none matches. */
  lemma {:induction false} FirstMatchTextSpec(rules: seq<Rule>, message: string)
    ensures FirstMatchText(rules, message).None? <==> NoMatch(rules, message)
    ensures forall k :: IsFirstMatch(rules, message, k) ==>
      FirstMatchText(rules, message) == Some(rules[k].text)
    decreases |rules|
  {
    if rules == [] {
    } else if Matches(rules[0], message) {
      forall k | IsFirstMatch(rules, message, k)
        ensures FirstMatchText(rules, message) == Some(rules[k].text)
      {
        FirstMatchUnique(rules, message, k, 0);
      }
    } else {
      var tail := rules[1..];
      FirstMatchTextSpec(tail, message);
      if NoMatch(tail, message) {
        forall j | 0 <= j < |rules|
          ensures !Matches(rules[j], message)
        {
          if j > 0 {
            assert rules[j] == tail[j - 1];
          }
        }
      }
      if NoMatch(rules, message) {
        forall j | 0 <= j < |tail|
          ensures !Matches(tail[j], message)
        {
          assert tail[j] == rules[j + 1];
        }
      }
      forall k | IsFirstMatch(rules, message, k)
        ensures FirstMatchText(rules, message) == Some(rules[k].text)
      {
        assert k > 0;
        assert tail[k - 1] == rules[k];
        forall j | 0 <= j < k - 1
          ensures !Matches(tail[j], message)
        {
          assert tail[j] == rules[j + 1];
        }
        assert IsFirstMatch(tail, message, k - 1);
      }
    }
  }

  /** The text a classifier shows: the first matching rule's, else `fallback`. */
  function Classify(rules: seq<Rule>, message: string, fallback: string): string {
    FirstMatchText(rules, message).GetOr(fallback)
  }

  /**
   * The declarative reading of a classification result: either the text of the first
   * rule that matches, or the fallback when no rule does.
   */
  predicate ClassifiedAs(rules: seq<Rule>, message: string, fallback: string, r: string) {
    || (exists k :: 0 <= k < |rules| && IsFirstMatch(rules, message, k) && r == rules[k].text)
    || (NoMatch(rules, message) && r == fallback)
  }

  /** A declaratively classified result is the one the recursive walk computes. */
  lemma ClassifiedAsIsClassify(rules: seq<Rule>, message: string, fallback: string, r: string)
    requires ClassifiedAs(rules, message, fallback, r)
    ensures r == Classify(rules, message, fallback)
  {
    FirstMatchTextSpec(rules, message);
  }

  /** The text of the first matching rule is the classification. */
  lemma ClassifiedAtFirstMatch(rules: seq<Rule>, message: string, fallback: string, k: int)
    requires IsFirstMatch(rules, message, k)
    ensures ClassifiedAs(rules, message, fallback, rules[k].text)
    ensures rules[k].text == Classify(rules, message, fallback)
  {
    ClassifiedAsIsClassify(rules, message, fallback, rules[k].text);
  }

  /** With no matching rule, the fallback is the classification. */
  lemma ClassifiedAtNoMatch(rules: seq<Rule>, message: string, fallback: string)
    requires NoMatch(rules, message)
    ensures ClassifiedAs(rules, message, fallback, fallback)
    ensures fallback == Classify(rules, message, fallback)
  {
    ClassifiedAsIsClassify(rules, message, fallback, fallback);
  }
}
