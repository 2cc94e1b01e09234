/** `FraudEngine`: the score of a transaction is the sum of the scores of the
    rules that match it. The fold over the verdicts is defined here once and
    shared with the detection service, whose first step is the same loop. */
module Engine {
  import opened Wrappers
  import opened JavaInt
  import opened Model
  import opened Rules

  /** The verdicts of the rules on one transaction, in list order. */
  function Verdicts(rules: seq<Rule>, t: Option<Transaction>): (vs: seq<Option<RuleResult>>)
    ensures |vs| == |rules|
    ensures forall i :: 0 <= i < |rules| ==> vs[i] == Evaluate(rules[i], t)
  {
    seq(|rules|, i requires 0 <= i < |rules| => Evaluate(rules[i], t))
  }

  /** A verdict counts when it is present (not `null`) and matched. */
  predicate Counts(v: Option<RuleResult>) {
    v.Some? && v.value.matched
  }

  /** The entry a counting verdict adds to the reasons list. */
  function Label(r: RuleResult): string {
    r.ruleName + ":" + r.reason
  }

  /** The exact sum of the scores of the counting verdicts. */
  function MatchedSum(vs: seq<Option<RuleResult>>): int {
    if vs == [] then 0
    else
      var v := vs[|vs| - 1];
      MatchedSum(vs[..|vs| - 1]) + (if Counts(v) then v.value.score else 0)
  }

  /** The labels of the counting verdicts, in order. */
  function MatchedLabels(vs: seq<Option<RuleResult>>): seq<string> {
    if vs == [] then []
    else
      var v := vs[|vs| - 1];
      MatchedLabels(vs[..|vs| - 1]) + (if Counts(v) then [Label(v.value)] else [])
  }

  /** The fold splits over concatenation: the verdicts of a longer rule list
      add their scores and labels after those of its prefix. */
  lemma {:induction false} FoldAppend(a: seq<Option<RuleResult>>, b: seq<Option<RuleResult>>)
    ensures MatchedSum(a + b) == MatchedSum(a) + MatchedSum(b)
    ensures MatchedLabels(a + b) == MatchedLabels(a) + MatchedLabels(b)
    decreases |b|
  {
    if b == [] {
      assert a + b == a;
    } else {
      var b' := b[..|b| - 1];
      assert (a + b)[..|a + b| - 1] == a + b';
      assert (a + b)[|a + b| - 1] == b[|b| - 1];
      FoldAppend(a, b');
    }
  }

  /** A `null` or unmatched verdict adds nothing to the score and nothing to
      the reasons, wherever it stands in the list. */
  lemma UnmatchedAddsNothing(a: seq<Option<RuleResult>>, v: Option<RuleResult>, b: seq<Option<RuleResult>>)
    requires !Counts(v)
    ensures MatchedSum(a + [v] + b) == MatchedSum(a + b)
    ensures MatchedLabels(a + [v] + b) == MatchedLabels(a + b)
  {
    FoldAppend(a + [v], b);
    FoldAppend(a, [v]);
    FoldAppend(a, b);
    assert [v][..0] == [];
  }

  /** A matched verdict adds its score, and its label at its own position. */
  lemma MatchedAddsItsLabel(a: seq<Option<RuleResult>>, v: Option<RuleResult>, b: seq<Option<RuleResult>>)
    requires Counts(v)
    ensures MatchedSum(a + [v] + b) == MatchedSum(a) + v.value.score + MatchedSum(b)
    ensures MatchedLabels(a + [v] + b) == MatchedLabels(a) + [Label(v.value)] + MatchedLabels(b)
  {
    FoldAppend(a + [v], b);
    FoldAppend(a, [v]);
    assert [v][..0] == [];
  }

  /** Every label comes from a matched verdict, so there are at most as
      many labels as rules. */
  lemma {:induction false} LabelsComeFromMatches(vs: seq<Option<RuleResult>>)
    ensures |MatchedLabels(vs)| <= |vs|
    ensures forall s :: s in MatchedLabels(vs) ==>
              exists i :: 0 <= i < |vs| && Counts(vs[i]) && s == Label(vs[i].value)
  {
    if vs != [] {
      var init := vs[..|vs| - 1];
      LabelsComeFromMatches(init);
      forall s | s in MatchedLabels(vs)
        ensures exists i :: 0 <= i < |vs| && Counts(vs[i]) && s == Label(vs[i].value)
      {
        if s in MatchedLabels(init) {
          var i :| 0 <= i < |init| && Counts(init[i]) && s == Label(init[i].value);
          assert vs[i] == init[i];
        } else {
          assert s == Label(vs[|vs| - 1].value);
        }
      }
    }
  }

  /** When no contribution is negative the exact sum is not negative either. */
  lemma {:induction false} MatchedSumNonNegative(vs: seq<Option<RuleResult>>)
    requires forall i :: 0 <= i < |vs| && Counts(vs[i]) ==> vs[i].value.score >= 0
    ensures MatchedSum(vs) >= 0
  {
    if vs != [] {
      var init := vs[..|vs| - 1];
      assert forall i :: 0 <= i < |init| ==> init[i] == vs[i];
      MatchedSumNonNegative(init);
    }
  }

  /** The engine's score is not negative when no matched score is negative
      and their sum fits in an `int`. */
  lemma ScoreNonNegative(rules: seq<Rule>, t: Option<Transaction>)
    requires forall i :: 0 <= i < |rules| && Counts(Evaluate(rules[i], t)) ==> Evaluate(rules[i], t).value.score >= 0
    requires MatchedSum(Verdicts(rules, t)) <= MaxInt
    ensures Wrap(MatchedSum(Verdicts(rules, t))) >= 0
  {
    MatchedSumNonNegative(Verdicts(rules, t));
    WrapSpec(MatchedSum(Verdicts(rules, t)));
  }

  /** Without the bound the `int` accumulator wraps: two matching rules of
      weight 2^30 give a negative score. */
  lemma ScoreWrapsAround(t: Transaction)
    requires t.amount >= 0.0
    ensures var big := HighAmount(0.0, 0x4000_0000);
            Wrap(MatchedSum(Verdicts([big, big], Some(t)))) == MinInt
  {
    var big := HighAmount(0.0, 0x4000_0000);
    var vs := Verdicts([big, big], Some(t));
    var v := Evaluate(big, Some(t));
    assert Counts(v) && v.value.score == 0x4000_0000;
    assert vs == [v, v] && vs[..1] == [v] && [v][..0] == [];
    assert MatchedSum([v]) == 0x4000_0000;
    assert MatchedSum(vs) == 0x8000_0000;
  }

  /** The first `i` verdicts are the verdicts of the first `i` rules. */
  lemma VerdictsPrefix(rules: seq<Rule>, t: Option<Transaction>, i: nat)
    requires i < |rules|
    ensures Verdicts(rules[..i + 1], t) == Verdicts(rules[..i], t) + [Evaluate(rules[i], t)]
  {
  }

  /** One more rule extends the fold by its verdict's contribution. */
  lemma FoldStep(rules: seq<Rule>, t: Option<Transaction>, i: nat)
    requires i < |rules|
    ensures var v := Evaluate(rules[i], t);
            && MatchedSum(Verdicts(rules[..i + 1], t))
               == MatchedSum(Verdicts(rules[..i], t)) + (if Counts(v) then v.value.score else 0)
            && MatchedLabels(Verdicts(rules[..i + 1], t))
               == MatchedLabels(Verdicts(rules[..i], t)) + (if Counts(v) then [Label(v.value)] else [])
  {
    var post := Verdicts(rules[..i + 1], t);
    VerdictsPrefix(rules, t, i);
    assert post[..|post| - 1] == Verdicts(rules[..i], t);
  }

  /** The same step on the `int` accumulator: a counting verdict is added
      with Java's `+`, any other leaves the total alone. */
  lemma ScoreStep(rules: seq<Rule>, t: Option<Transaction>, i: nat)
    requires i < |rules|
    ensures var v := Evaluate(rules[i], t);
            var before := Wrap(MatchedSum(Verdicts(rules[..i], t)));
            Wrap(MatchedSum(Verdicts(rules[..i + 1], t))) == if Counts(v) then Add(before, v.value.score) else before
  {
    FoldStep(rules, t, i);
    var v := Evaluate(rules[i], t);
    if Counts(v) {
      WrapAdd(MatchedSum(Verdicts(rules[..i], t)), v.value.score);
    }
  }

  class FraudEngine {
    const rules: seq<Rule>

    constructor (rules: seq<Rule>)
      ensures this.rules == rules
    {
      this.rules := rules;
    }

    /** `evaluate(t)`: the sum, in Java `int` arithmetic, of the scores of
        the non-null matched verdicts. The rule list is a constant and the
        method modifies nothing. */
    method Evaluate(t: Option<Transaction>) returns (score: Int32)
      ensures score == Wrap(MatchedSum(Verdicts(rules, t)))
      ensures rules == [] ==> score == 0
    {
      score := 0;
      for i := 0 to |rules|
        invariant score == Wrap(MatchedSum(Verdicts(rules[..i], t)))
      {
        var rr := Rules.Evaluate(rules[i], t);
        ScoreStep(rules, t, i);
        if rr.Some? && rr.value.matched {
          score := Add(score, rr.value.score);
        }
      }
      assert rules[..|rules|] == rules;
    }
  }
}
