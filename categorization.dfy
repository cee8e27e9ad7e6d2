/** Keyword rules shared by both categorisers: an ordered sequence of
    (category, keywords) pairs, the order of a Python dict's `items()`. */
module Categorization {
  import opened Values
  import opened Text

  datatype Rule = Rule(category: string, keywords: seq<string>)

  /** `cell.str.contains(keyword, case=False, na=False)` on one cell: only a
      string cell can match. */
  predicate LabelMatches(cell: Cell, keyword: string) {
    cell.Text? && ContainsIgnoreCase(cell.s, keyword)
  }

  /** Some keyword of the rule occurs in the label cell. */
  predicate RuleMatches(cell: Cell, rule: Rule) {
    exists k :: 0 <= k < |rule.keywords| && LabelMatches(cell, rule.keywords[k])
  }

  /** Some rule has at least one keyword, so the keyword loop body runs. */
  predicate HasKeyword(rules: seq<Rule>) {
    exists c :: 0 <= c < |rules| && rules[c].keywords != []
  }

  /** The category of the first rule, in rule order, that matches the label cell. */
  function FirstMatch(cell: Cell, rules: seq<Rule>): (m: Option<string>)
    ensures m.Some? ==> exists j :: 0 <= j < |rules| && RuleMatches(cell, rules[j]) && rules[j].category == m.value
    ensures m.None? ==> forall j :: 0 <= j < |rules| ==> !RuleMatches(cell, rules[j])
  {
    if rules == [] then None
    else if RuleMatches(cell, rules[0]) then Some(rules[0].category)
    else
      var m := FirstMatch(cell, rules[1..]);
      assert forall j :: 0 < j < |rules| ==> rules[j] == rules[1..][j - 1];
      m
  }

  /** The category of the last rule, in rule order, that matches the label cell. */
  function LastMatch(cell: Cell, rules: seq<Rule>): (m: Option<string>)
    ensures m.Some? ==> exists j :: 0 <= j < |rules| && RuleMatches(cell, rules[j]) && rules[j].category == m.value
    ensures m.None? ==> forall j :: 0 <= j < |rules| ==> !RuleMatches(cell, rules[j])
  {
    if rules == [] then None
    else if RuleMatches(cell, rules[|rules| - 1]) then Some(rules[|rules| - 1].category)
    else
      var m := LastMatch(cell, rules[..|rules| - 1]);
      assert forall j :: 0 <= j < |rules| - 1 ==> rules[j] == rules[..|rules| - 1][j];
      m
  }

  /** `FirstMatch` is the category of the lowest-numbered matching rule, and
      `None` exactly when no rule matches. */
  lemma {:induction false} FirstMatchIsFirst(cell: Cell, rules: seq<Rule>)
    ensures FirstMatch(cell, rules).None? <==> forall j :: 0 <= j < |rules| ==> !RuleMatches(cell, rules[j])
    ensures FirstMatch(cell, rules).Some? ==>
      exists j :: 0 <= j < |rules| && RuleMatches(cell, rules[j]) && FirstMatch(cell, rules).value == rules[j].category
        && forall i :: 0 <= i < j ==> !RuleMatches(cell, rules[i])
  {
    if rules != [] && !RuleMatches(cell, rules[0]) {
      FirstMatchIsFirst(cell, rules[1..]);
      if FirstMatch(cell, rules).Some? {
        var j :| 0 <= j < |rules[1..]| && RuleMatches(cell, rules[1..][j])
          && FirstMatch(cell, rules[1..]).value == rules[1..][j].category
          && forall i :: 0 <= i < j ==> !RuleMatches(cell, rules[1..][i]);
        assert RuleMatches(cell, rules[j + 1]);
        forall i | 0 <= i < j + 1 ensures !RuleMatches(cell, rules[i]) {
          if i > 0 { assert rules[i] == rules[1..][i - 1]; }
        }
      } else {
        forall j | 0 <= j < |rules| ensures !RuleMatches(cell, rules[j]) {
          if j > 0 { assert rules[j] == rules[1..][j - 1]; }
        }
      }
    } else if rules != [] {
      assert RuleMatches(cell, rules[0]);
    }
  }

  /** Extending the rules at the end changes the first match only when no
      earlier rule matched. */
  lemma {:induction false} FirstMatchSnoc(cell: Cell, rules: seq<Rule>, rule: Rule)
    ensures FirstMatch(cell, rules + [rule]) ==
      if FirstMatch(cell, rules).Some? then FirstMatch(cell, rules)
      else if RuleMatches(cell, rule) then Some(rule.category) else None
  {
    if rules != [] {
      assert (rules + [rule])[1..] == rules[1..] + [rule];
      FirstMatchSnoc(cell, rules[1..], rule);
    }
  }

  /** `LastMatch` is the category of the highest-numbered matching rule, and
      `None` exactly when no rule matches. */
  lemma {:induction false} LastMatchIsLast(cell: Cell, rules: seq<Rule>)
    ensures LastMatch(cell, rules).None? <==> forall j :: 0 <= j < |rules| ==> !RuleMatches(cell, rules[j])
    ensures LastMatch(cell, rules).Some? ==>
      exists j :: 0 <= j < |rules| && RuleMatches(cell, rules[j]) && LastMatch(cell, rules).value == rules[j].category
        && forall i :: j < i < |rules| ==> !RuleMatches(cell, rules[i])
  {
    if rules != [] {
      var n := |rules| - 1;
      if RuleMatches(cell, rules[n]) {
        assert LastMatch(cell, rules).value == rules[n].category;
      } else {
        LastMatchIsLast(cell, rules[..n]);
        if LastMatch(cell, rules).Some? {
          var j :| 0 <= j < n && RuleMatches(cell, rules[..n][j])
            && LastMatch(cell, rules[..n]).value == rules[..n][j].category
            && forall i :: j < i < n ==> !RuleMatches(cell, rules[..n][i]);
          assert RuleMatches(cell, rules[j]);
          forall i | j < i < |rules| ensures !RuleMatches(cell, rules[i]) {
            if i < n { assert rules[i] == rules[..n][i]; }
          }
        } else {
          forall j | 0 <= j < |rules| ensures !RuleMatches(cell, rules[j]) {
            if j < n { assert rules[j] == rules[..n][j]; }
          }
        }
      }
    }
  }

  /** A rule with one more keyword matches when the shorter one did or the new keyword does. */
  lemma RuleMatchesSnoc(cell: Cell, category: string, keywords: seq<string>, keyword: string)
    ensures RuleMatches(cell, Rule(category, keywords + [keyword])) <==>
      RuleMatches(cell, Rule(category, keywords)) || LabelMatches(cell, keyword)
  {
    var ks := keywords + [keyword];
    if RuleMatches(cell, Rule(category, keywords)) {
      var k :| 0 <= k < |keywords| && LabelMatches(cell, keywords[k]);
      assert ks[k] == keywords[k];
    }
    if RuleMatches(cell, Rule(category, ks)) && !LabelMatches(cell, keyword) {
      var k :| 0 <= k < |ks| && LabelMatches(cell, ks[k]);
      assert k < |keywords| && ks[k] == keywords[k];
    }
    if LabelMatches(cell, keyword) {
      assert ks[|keywords|] == keyword;
    }
  }
}
