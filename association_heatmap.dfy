/** The market-basket heatmap (src/components/charts/association-heatmap.tsx): the sorted
    item axis, the confidence matrix keyed by the joined rule sides, the cell lookup with
    its blank diagonal, and the colour and label rules of a cell. */
module AssociationHeatmap {
  import opened Types
  import opened Strings

  /** Every item named on either side of some rule. */
  function RuleItems(rules: seq<AssociationRule>): (r: set<string>)
    ensures forall x :: x in r <==> exists i :: 0 <= i < |rules| && (x in rules[i].antecedents || x in rules[i].consequents)
  {
    if rules == [] then {}
    else
      var pre := rules[..|rules| - 1];
      var last := rules[|rules| - 1];
      assert forall i :: 0 <= i < |pre| ==> pre[i] == rules[i];
      RuleItems(pre) + (set x | x in last.antecedents) + (set x | x in last.consequents)
  }

  /** `itemSet.add` over one side of a rule. */
  method AddAll(itemSet: set<string>, side: seq<string>) returns (r: set<string>)
    ensures r == itemSet + (set x | x in side)
  {
    r := itemSet;
    for j := 0 to |side|
      invariant r == itemSet + (set x | x in side[..j])
    {
      assert side[..j + 1] == side[..j] + [side[j]];
      r := r + {side[j]};
    }
    assert side[..|side|] == side;
  }

  /** `Array.from(itemSet).sort()`: every item of every rule exactly once, ascending. */
  method BuildItems(rules: seq<AssociationRule>) returns (items: seq<string>)
    ensures StrictlySorted(items)
    ensures forall x :: x in items <==> x in RuleItems(rules)
  {
    var itemSet: set<string> := {};
    for k := 0 to |rules|
      invariant itemSet == RuleItems(rules[..k])
    {
      assert rules[..k + 1][..k] == rules[..k];
      itemSet := AddAll(itemSet, rules[k].antecedents);
      itemSet := AddAll(itemSet, rules[k].consequents);
    }
    assert rules[..|rules|] == rules;
    items := SortedElements(itemSet);
  }

  /** `${antecedents.join(',')}_${consequents.join(',')}` */
  function RuleKey(rule: AssociationRule): string {
    Join(rule.antecedents, ",") + "_" + Join(rule.consequents, ",")
  }

  /** The confidence of the last rule with key `k`, if any. */
  function LastConfidence(rules: seq<AssociationRule>, k: string): Option<real> {
    if rules == [] then None
    else if RuleKey(rules[|rules| - 1]) == k then Some(rules[|rules| - 1].confidence)
    else LastConfidence(rules[..|rules| - 1], k)
  }

  /** `matrix.set(key, rule.confidence)` for each rule in turn: a key is present exactly
      when some rule has it, and holds the confidence of the last such rule. */
  method BuildMatrix(rules: seq<AssociationRule>) returns (matrix: map<string, real>)
    ensures forall k :: k in matrix <==> LastConfidence(rules, k).Some?
    ensures forall k :: k in matrix ==> matrix[k] == LastConfidence(rules, k).value
  {
    matrix := map[];
    for i := 0 to |rules|
      invariant forall k :: k in matrix <==> LastConfidence(rules[..i], k).Some?
      invariant forall k :: k in matrix ==> matrix[k] == LastConfidence(rules[..i], k).value
    {
      assert rules[..i + 1][..i] == rules[..i];
      matrix := matrix[RuleKey(rules[i]) := rules[i].confidence];
    }
    assert rules[..|rules|] == rules;
  }

  /** Later rules win: the matrix value of a key is that of the last rule carrying it. */
  lemma {:induction false} LastRuleWins(rules: seq<AssociationRule>, j: int)
    requires 0 <= j < |rules|
    requires forall i :: j < i < |rules| ==> RuleKey(rules[i]) != RuleKey(rules[j])
    ensures LastConfidence(rules, RuleKey(rules[j])) == Some(rules[j].confidence)
  {
    if j < |rules| - 1 {
      var pre := rules[..|rules| - 1];
      assert forall i :: 0 <= i < |pre| ==> pre[i] == rules[i];
      LastRuleWins(pre, j);
    }
  }

  /** A key no rule carries is absent. */
  lemma {:induction false} UnusedKeyAbsent(rules: seq<AssociationRule>, k: string)
    requires forall i :: 0 <= i < |rules| ==> RuleKey(rules[i]) != k
    ensures LastConfidence(rules, k) == None
  {
    if rules != [] {
      var pre := rules[..|rules| - 1];
      assert forall i :: 0 <= i < |pre| ==> pre[i] == rules[i];
      UnusedKeyAbsent(pre, k);
    }
  }

  // ---------------------------------------------------------------- cells

  datatype Cell = Blank | Shaded(confidence: real)

  /** The cell of row `antecedent` and column `consequent`: blank on the diagonal,
      otherwise the confidence stored under `antecedent_consequent`, or 0. */
  function CellAt(matrix: map<string, real>, antecedent: string, consequent: string): (c: Cell)
    ensures c.Blank? <==> antecedent == consequent
    ensures c.Shaded? && antecedent + "_" + consequent !in matrix ==> c.confidence == 0.0
    ensures c.Shaded? && antecedent + "_" + consequent in matrix ==> c.confidence == matrix[antecedent + "_" + consequent]
  {
    if antecedent == consequent then Blank
    else
      var key := antecedent + "_" + consequent;
      Shaded(if key in matrix then matrix[key] else 0.0)
  }

  /** A rule with more than one item on either side never reaches a cell: when items
      contain no comma, its key differs from every cell's key. */
  lemma MultiItemRuleNeverShown(rule: AssociationRule, antecedent: string, consequent: string)
    requires |rule.antecedents| >= 2 || |rule.consequents| >= 2
    requires ',' !in antecedent && ',' !in consequent
    ensures RuleKey(rule) != antecedent + "_" + consequent
  {
    var left := Join(rule.antecedents, ",");
    var right := Join(rule.consequents, ",");
    var cell := antecedent + "_" + consequent;
    assert ',' !in cell by {
      forall i | 0 <= i < |cell| ensures cell[i] != ',' {
        if i < |antecedent| { assert cell[i] == antecedent[i]; }
        else if i > |antecedent| { assert cell[i] == consequent[i - |antecedent| - 1]; }
      }
    }
    if |rule.antecedents| >= 2 {
      JoinShowsSeparator(rule.antecedents, ',');
      var p :| 0 <= p < |left| && left[p] == ',';
      assert RuleKey(rule)[p] == ',';
    } else {
      JoinShowsSeparator(rule.consequents, ',');
      var p :| 0 <= p < |right| && right[p] == ',';
      assert RuleKey(rule)[|left| + 1 + p] == ',';
    }
  }

  const BackgroundVar: string := "hsl(var(--background))"

  /** `getBackgroundColor`: the page background for confidence 0, otherwise the primary
      hue at a lightness falling from 95% to 41% as confidence rises; `showNumber`
      renders the lightness. */
  function BackgroundColor(confidence: real, showNumber: real -> string): (r: string)
    ensures confidence == 0.0 <==> r == BackgroundVar
  {
    if confidence == 0.0 then BackgroundVar
    else
      var shaded := "hsl(282, 100%, " + showNumber(95.0 - confidence * 54.0) + "%)";
      assert shaded[4] == '2' && BackgroundVar[4] == 'v';
      shaded
  }

  /** `getTextColor`: light text on dark cells, above 60% confidence. */
  function TextColor(confidence: real): (r: string)
    ensures r == "hsl(var(--primary-foreground))" <==> confidence > 0.6
    ensures r == "hsl(var(--foreground))" <==> confidence <= 0.6
  {
    if confidence > 0.6 then "hsl(var(--primary-foreground))" else "hsl(var(--foreground))"
  }

  /** The cell label: a percentage for a positive confidence, empty otherwise;
      `showPercent` renders the whole percentage. */
  function CellLabel(confidence: real, showPercent: real -> string): (r: string)
    ensures r == "" <==> confidence <= 0.0
  {
    if confidence > 0.0 then showPercent(confidence * 100.0) + "%" else ""
  }
}
