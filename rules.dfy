/** The `Rule` interface and its five implementations. A rule is bound to
    its configuration when it is built and is a pure function of the
    transaction afterwards, so the interface becomes a datatype with one
    constructor per implementation. */
module Rules {
  import opened Wrappers
  import opened JavaInt
  import opened JavaString
  import opened Model

  const HighAmountName := "HighAmountRule"
  const GeoLocationName := "GeoLocationRule"
  const NightTimeName := "NightTimeRule"
  const ChannelRiskName := "ChannelRiskRule"
  const RiskyMerchantName := "RiskyMerchantRule"

  datatype Rule =
    | HighAmount(threshold: real, weight: Int32)
      // riskyCountries holds the configured names as given
    | GeoLocation(riskyCountries: set<string>, weight: Int32)
    | NightTime(nightStartHour: Int32, nightEndHour: Int32, weight: Int32)
    | ChannelRisk(onlineWeight: Int32)
      // riskyMerchants holds the configured names trimmed and upper-cased
    | RiskyMerchant(riskyMerchants: set<string>, weight: Int32)
      // any other implementation of the interface that answers every
      // transaction with the same verdict, possibly null (the test doubles)
    | Stub(stubName: string, verdict: Option<RuleResult>)

  /** `name()` */
  function Name(rule: Rule): string {
    match rule
    case HighAmount(_, _) => HighAmountName
    case GeoLocation(_, _) => GeoLocationName
    case NightTime(_, _, _) => NightTimeName
    case ChannelRisk(_) => ChannelRiskName
    case RiskyMerchant(_, _) => RiskyMerchantName
    case Stub(n, _) => n
  }

  /** The score a matched verdict of one of the five rules carries. */
  function Weight(rule: Rule): Int32 {
    match rule
    case HighAmount(_, w) => w
    case GeoLocation(_, w) => w
    case NightTime(_, _, w) => w
    case ChannelRisk(w) => w
    case RiskyMerchant(_, w) => w
    case Stub(_, v) => if v.Some? then v.value.score else 0
  }

  /** `evaluate(txn)`; `None` for the transaction is a `null` argument, and
      `None` for the result is a `null` verdict. */
  function Evaluate(rule: Rule, txn: Option<Transaction>): Option<RuleResult> {
    match rule
    case HighAmount(threshold, weight) => Some(EvaluateHighAmount(threshold, weight, txn))
    case GeoLocation(countries, weight) => Some(EvaluateGeoLocation(countries, weight, txn))
    case NightTime(s, e, weight) => Some(EvaluateNightTime(s, e, weight, txn))
    case ChannelRisk(weight) => Some(EvaluateChannelRisk(weight, txn))
    case RiskyMerchant(merchants, weight) => Some(EvaluateRiskyMerchant(merchants, weight, txn))
    case Stub(_, verdict) => verdict
  }

  function NoMatch(name: string, reason: string): RuleResult {
    RuleResult(name, false, 0, reason)
  }

  // ---------------------------------------------------------------- HighAmountRule

  function EvaluateHighAmount(threshold: real, weight: Int32, txn: Option<Transaction>): RuleResult {
    if txn.None? then NoMatch(HighAmountName, "txn-null")
    else if txn.value.amount >= threshold then
      RuleResult(HighAmountName, true, weight, "HighAmount:" + AmountText(txn.value.amount))
    else NoMatch(HighAmountName, "ok")
  }

  /** The threshold itself is high (the comparison is inclusive), anything
      below it is not, and a larger amount stays high. */
  lemma HighAmountBoundary(threshold: real, weight: Int32, t: Transaction)
    ensures EvaluateHighAmount(threshold, weight, Some(t.(amount := threshold))).matched
    ensures t.amount < threshold ==> EvaluateHighAmount(threshold, weight, Some(t)) == NoMatch(HighAmountName, "ok")
    ensures forall a :: a >= t.amount && EvaluateHighAmount(threshold, weight, Some(t)).matched ==>
              EvaluateHighAmount(threshold, weight, Some(t.(amount := a))).matched
  {
  }

  /** The two cases of the rule's tests, for a transaction of any other
      fields: 75000 against the default threshold 50000 scores the weight
      30, and 100 scores nothing. */
  lemma HighAmountTestCases(t: Transaction)
    ensures var r := EvaluateHighAmount(50000.0, 30, Some(t.(amount := 75000.0)));
            r.matched && r.score == 30
    ensures var r := EvaluateHighAmount(50000.0, 30, Some(t.(amount := 100.0)));
            !r.matched && r.score == 0
  {
  }

  // ---------------------------------------------------------------- GeoLocationRule

  /** Some configured country name equals `loc` ignoring case. */
  predicate RiskyCountry(countries: set<string>, loc: string) {
    exists c :: c in countries && EqualsIgnoreCase(c, loc)
  }

  function EvaluateGeoLocation(countries: set<string>, weight: Int32, txn: Option<Transaction>): RuleResult {
    if txn.None? then NoMatch(GeoLocationName, "txn-null")
    else if txn.value.location.None? || Trim(txn.value.location.value) == "" then
      NoMatch(GeoLocationName, "no-location")
    else
      var norm := Trim(txn.value.location.value);
      if RiskyCountry(countries, norm) then RuleResult(GeoLocationName, true, weight, "RiskCountry:" + norm)
      else NoMatch(GeoLocationName, "ok")
  }

  /** The verdict depends on the location only up to case and surrounding
      whitespace: two locations whose trimmed texts are equal ignoring case
      both match or both miss. */
  lemma GeoLocationIgnoresCaseAndPadding(countries: set<string>, weight: Int32, t: Transaction, loc: string)
    requires t.location.Some? && EqualsIgnoreCase(Trim(t.location.value), Trim(loc))
    ensures EvaluateGeoLocation(countries, weight, Some(t)).matched
        == EvaluateGeoLocation(countries, weight, Some(t.(location := Some(loc)))).matched
  {
    var a, b := Trim(t.location.value), Trim(loc);
    assert |a| == |b|;
    if RiskyCountry(countries, a) {
      var c :| c in countries && EqualsIgnoreCase(c, a);
      IgnoreCaseEquivalence(c, a, b);
    }
    if RiskyCountry(countries, b) {
      var c :| c in countries && EqualsIgnoreCase(c, b);
      IgnoreCaseEquivalence(a, b, c);
      IgnoreCaseEquivalence(c, b, a);
    }
  }

  /** With no configured country nothing matches. */
  lemma GeoLocationEmptySetNeverMatches(weight: Int32, txn: Option<Transaction>)
    ensures !EvaluateGeoLocation({}, weight, txn).matched
  {
  }

  // ---------------------------------------------------------------- NightTimeRule

  /** The window `[start, end)`, or, when `start > end`, the window that
      runs from `start` past midnight up to `end`. */
  predicate InNightWindow(start: int, end: int, hour: int) {
    if start <= end then start <= hour < end else hour >= start || hour < end
  }

  function EvaluateNightTime(start: Int32, end: Int32, weight: Int32, txn: Option<Transaction>): RuleResult {
    if txn.None? || txn.value.timestamp.None? then NoMatch(NightTimeName, "no-timestamp")
    else
      var hour := txn.value.timestamp.value.hour;
      if InNightWindow(start, end, hour) then RuleResult(NightTimeName, true, weight, "NightTimeHour:" + IntText(hour))
      else NoMatch(NightTimeName, "ok")
  }

  /** A window that wraps midnight is exactly the complement of the plain
      window between the same hours taken the other way round, and a window
      whose ends coincide is empty. */
  lemma NightWindowWrapIsComplement(start: int, end: int, hour: int)
    ensures start > end ==> (InNightWindow(start, end, hour) <==> !InNightWindow(end, start, hour))
    ensures !InNightWindow(start, start, hour)
  {
  }

  /** The 22-to-3 window of the documentation: 23 and 2 are night hours, 10
      is not. */
  lemma NightWindowExample()
    ensures InNightWindow(22, 3, 23) && InNightWindow(22, 3, 2) && !InNightWindow(22, 3, 10)
  {
  }

  // ---------------------------------------------------------------- ChannelRiskRule

  function EvaluateChannelRisk(onlineWeight: Int32, txn: Option<Transaction>): RuleResult {
    if txn.None? then NoMatch(ChannelRiskName, "txn-null")
    else if txn.value.channel.None? then NoMatch(ChannelRiskName, "no-channel")
    else if ToLower(Trim(txn.value.channel.value)) == "online" then
      RuleResult(ChannelRiskName, true, onlineWeight, "Channel:ONLINE")
    else NoMatch(ChannelRiskName, "ok")
  }

  /** The channel rule fires exactly for the channels that are "online" up
      to case and surrounding whitespace. */
  lemma ChannelRiskOnlineIgnoringCase(onlineWeight: Int32, t: Transaction)
    requires t.channel.Some?
    ensures EvaluateChannelRisk(onlineWeight, Some(t)).matched <==> EqualsIgnoreCase(Trim(t.channel.value), "online")
  {
    IgnoreCaseIffLowerEqual(Trim(t.channel.value), "online");
    assert ToLower("online") == "online";
  }

  // ---------------------------------------------------------------- RiskyMerchantRule

  /** The stored form of a merchant name. */
  function Canonical(m: string): string {
    ToUpper(Trim(m))
  }

  function EvaluateRiskyMerchant(merchants: set<string>, weight: Int32, txn: Option<Transaction>): RuleResult {
    if txn.None? then NoMatch(RiskyMerchantName, "txn-null")
    else if txn.value.merchant.None? then NoMatch(RiskyMerchantName, "no-merchant")
    else if Canonical(txn.value.merchant.value) in merchants then
      RuleResult(RiskyMerchantName, true, weight, "RiskyMerchant:" + txn.value.merchant.value)
    else NoMatch(RiskyMerchantName, "ok")
  }

  /** The set of the canonical forms of `names`. */
  function Normalise(names: set<string>): set<string> {
    Image(names, Canonical)
  }

  function Image<T, U>(xs: set<T>, f: T -> U): set<U> {
    set x | x in xs :: f(x)
  }

  lemma ImageStep<T, U>(done: set<T>, x: T, f: T -> U)
    ensures Image(done + {x}, f) == Image(done, f) + {f(x)}
  {
  }

  /** The constructor: the configured names, trimmed and upper-cased. */
  method NewRiskyMerchantRule(rawMerchants: set<string>, weight: Int32) returns (rule: Rule)
    ensures rule.RiskyMerchant? && rule.weight == weight
    ensures rule.riskyMerchants == Normalise(rawMerchants)
  {
    var normalised: set<string> := {};
    var rest := rawMerchants;
    while rest != {}
      invariant rest <= rawMerchants
      invariant normalised == Normalise(rawMerchants - rest)
      decreases |rest|
    {
      var m :| m in rest;
      ghost var done := rawMerchants - rest;
      assert rawMerchants - (rest - {m}) == done + {m};
      ImageStep(done, m, Canonical);
      normalised := normalised + {Canonical(m)};
      rest := rest - {m};
    }
    rule := RiskyMerchant(normalised, weight);
  }

  /** Looking the trimmed, upper-cased merchant up in the normalised set is
      comparing it, ignoring case and surrounding whitespace, with the
      configured names. */
  lemma RiskyMerchantMatchesConfiguredName(rawMerchants: set<string>, weight: Int32, t: Transaction)
    requires t.merchant.Some?
    ensures EvaluateRiskyMerchant(Normalise(rawMerchants), weight, Some(t)).matched
            <==> exists m :: m in rawMerchants && EqualsIgnoreCase(Trim(m), Trim(t.merchant.value))
  {
    NormaliseMember(rawMerchants, t.merchant.value);
  }

  lemma NormaliseMember(rawMerchants: set<string>, x: string)
    ensures Canonical(x) in Normalise(rawMerchants)
            <==> exists m :: m in rawMerchants && EqualsIgnoreCase(Trim(m), Trim(x))
  {
    var stored := Normalise(rawMerchants);
    if Canonical(x) in stored {
      var m :| m in rawMerchants && Canonical(m) == Canonical(x);
      IgnoreCaseIffUpperEqual(Trim(m), Trim(x));
    }
    if exists m :: m in rawMerchants && EqualsIgnoreCase(Trim(m), Trim(x)) {
      var m :| m in rawMerchants && EqualsIgnoreCase(Trim(m), Trim(x));
      IgnoreCaseIffUpperEqual(Trim(m), Trim(x));
      assert Canonical(m) in stored;
    }
  }

  // ---------------------------------------------------------------- all rules

  /** What every one of the five rules promises: a verdict, never `null`,
      that carries the rule's name, the rule's weight when it matches and
      zero otherwise, and no match for a `null` transaction. */
  lemma EvaluateContract(rule: Rule, txn: Option<Transaction>)
    requires !rule.Stub?
    ensures Evaluate(rule, txn).Some?
    ensures var r := Evaluate(rule, txn).value;
            && r.ruleName == Name(rule)
            && (r.matched ==> r.score == Weight(rule))
            && (!r.matched ==> r.score == 0)
            && (txn.None? ==> !r.matched)
  {
  }
}
