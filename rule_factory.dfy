/** `RuleFactory.createRules`: the ordered list of enabled rules built from
    the configuration. The configuration arrives already parsed: the JSON
    document's "rules" object, its two top-level arrays of risky names, and
    the `high_amount_threshold` property. */
module RuleFactory {
  import opened Wrappers
  import opened JavaInt
  import opened Rules

  /** One entry of the "rules" object. `enabled` is `None` when the field
      is absent or has no boolean reading; `params` holds the integer fields that
      are present. */
  datatype RuleNode = RuleNode(enabled: Option<bool>, params: map<string, Int32>)

  datatype Config = Config(
    rules: Option<map<string, RuleNode>>,     // None: no "rules" node
    riskyCountries: Option<seq<string>>,      // None: no "riskyCountries" array
    riskyMerchants: Option<seq<string>>,      // None: no "riskyMerchants" array
    highAmountThreshold: Option<real>)        // None: property not set

  const DefaultHighAmountThreshold: real := 50000.0

  /** The entry keys in the order the factory visits them; each key is the
      name of the rule it builds. */
  const RuleKeys: seq<string> := [HighAmountName, GeoLocationName, NightTimeName, ChannelRiskName, RiskyMerchantName]

  /** The position of a key in `RuleKeys`. */
  function Rank(key: string): nat {
    if key == HighAmountName then 0
    else if key == GeoLocationName then 1
    else if key == NightTimeName then 2
    else if key == ChannelRiskName then 3
    else if key == RiskyMerchantName then 4
    else 5
  }

  /** The entry is present and `enabled` (default true) holds. */
  predicate Enabled(cfg: Config, key: string) {
    cfg.rules.Some? && key in cfg.rules.value && cfg.rules.value[key].enabled.GetOr(true)
  }

  /** `n.path(key).asInt(default)` */
  function Param(n: RuleNode, key: string, default: Int32): Int32 {
    if key in n.params then n.params[key] else default
  }

  /** The names of a JSON array of strings, or none when it is absent. */
  function Elements(arr: Option<seq<string>>): set<string> {
    if arr.None? then {} else set x | x in arr.value
  }

  /** The rule the factory builds from the entry `key`, defaults filled in. */
  function Configured(cfg: Config, key: string): (r: Rule)
    requires Enabled(cfg, key)
    ensures key in RuleKeys ==> Name(r) == key
  {
    var n := cfg.rules.value[key];
    if key == HighAmountName then
      HighAmount(cfg.highAmountThreshold.GetOr(DefaultHighAmountThreshold), Param(n, "weight", 30))
    else if key == GeoLocationName then
      GeoLocation(Elements(cfg.riskyCountries), Param(n, "weight", 25))
    else if key == NightTimeName then
      NightTime(Param(n, "nightStartHour", 0), Param(n, "nightEndHour", 5), Param(n, "weight", 20))
    else if key == ChannelRiskName then
      ChannelRisk(Param(n, "weightOnline", 15))
    else
      RiskyMerchant(Normalise(Elements(cfg.riskyMerchants)), Param(n, "weight", 25))
  }

  /** The enabled keys among `keys`, in their order. */
  function EnabledAmong(cfg: Config, keys: seq<string>): seq<string>
  {
    if keys == [] then []
    else
      var last := keys[|keys| - 1];
      EnabledAmong(cfg, keys[..|keys| - 1]) + (if Enabled(cfg, last) then [last] else [])
  }

  lemma {:induction false} EnabledAmongMembers(cfg: Config, keys: seq<string>)
    ensures |EnabledAmong(cfg, keys)| <= |keys|
    ensures forall k :: k in EnabledAmong(cfg, keys) <==> k in keys && Enabled(cfg, k)
    ensures cfg.rules.None? ==> EnabledAmong(cfg, keys) == []
  {
    if keys != [] {
      var init := keys[..|keys| - 1];
      EnabledAmongMembers(cfg, init);
      assert keys == init + [keys[|keys| - 1]];
    }
  }

  function EnabledKeys(cfg: Config): seq<string> {
    EnabledAmong(cfg, RuleKeys)
  }

  function Names(rules: seq<Rule>): seq<string> {
    seq(|rules|, i requires 0 <= i < |rules| => Name(rules[i]))
  }

  /** The list holds a rule for exactly the enabled entries, at most one per
      kind, in the fixed order HighAmount, GeoLocation, NightTime,
      ChannelRisk, RiskyMerchant. */
  lemma EnabledKeysSpec(cfg: Config)
    ensures |EnabledKeys(cfg)| <= 5
    ensures forall k :: k in EnabledKeys(cfg) <==> k in RuleKeys && Enabled(cfg, k)
    ensures Ascending(EnabledKeys(cfg))
    ensures cfg.rules.None? ==> EnabledKeys(cfg) == []
  {
    assert Ascending(RuleKeys);
    EnabledAmongKeepsOrder(cfg, RuleKeys);
    EnabledAmongMembers(cfg, RuleKeys);
  }

  /** The keys appear in the order of `RuleKeys`, each at most once. */
  predicate Ascending(keys: seq<string>) {
    forall i, j :: 0 <= i < j < |keys| ==> Rank(keys[i]) < Rank(keys[j])
  }

  lemma {:induction false} EnabledAmongKeepsOrder(cfg: Config, keys: seq<string>)
    requires Ascending(keys)
    ensures Ascending(EnabledAmong(cfg, keys))
  {
    if keys != [] {
      var init, last := keys[..|keys| - 1], keys[|keys| - 1];
      EnabledAmongKeepsOrder(cfg, init);
      var p := EnabledAmong(cfg, init);
      EnabledAmongMembers(cfg, init);
      forall k | k in p ensures Rank(k) < Rank(last) {
        var i :| 0 <= i < |init| && init[i] == k;
        assert keys[i] == k;
      }
      var r := EnabledAmong(cfg, keys);
      assert r == p + (if Enabled(cfg, last) then [last] else []);
      forall i, j | 0 <= i < j < |r| ensures Rank(r[i]) < Rank(r[j]) {
        if j == |p| {
          assert r[j] == last;
          assert r[i] == p[i] && p[i] in p;
          assert Rank(p[i]) < Rank(last);
        } else {
          assert r[i] == p[i] && r[j] == p[j];
          assert Rank(p[i]) < Rank(p[j]);
        }
      }
    }
  }

  /** The parameters an entry leaves out take their defaults, and the
      risky-name sets are empty when their arrays are absent. */
  lemma Defaults(cfg: Config, key: string)
    requires Enabled(cfg, key) && cfg.rules.value[key].params == map[]
    ensures key == HighAmountName ==>
              Configured(cfg, key) == HighAmount(cfg.highAmountThreshold.GetOr(50000.0), 30)
    ensures key == GeoLocationName && cfg.riskyCountries.None? ==> Configured(cfg, key) == GeoLocation({}, 25)
    ensures key == NightTimeName ==> Configured(cfg, key) == NightTime(0, 5, 20)
    ensures key == ChannelRiskName ==> Configured(cfg, key) == ChannelRisk(15)
    ensures key == RiskyMerchantName && cfg.riskyMerchants.None? ==> Configured(cfg, key) == RiskyMerchant({}, 25)
  {
  }

  /** The channel rule takes its weight from "weightOnline": whatever the
      entry says under "weight" makes no difference. */
  lemma ChannelWeightIsWeightOnline(cfg: Config, w: Int32)
    requires Enabled(cfg, ChannelRiskName)
    ensures var n := cfg.rules.value[ChannelRiskName];
            var cfg' := cfg.(rules := Some(cfg.rules.value[ChannelRiskName := n.(params := n.params["weight" := w])]));
            Configured(cfg', ChannelRiskName) == Configured(cfg, ChannelRiskName)
  {
  }

  /** `root.get(key).forEach(c -> set.add(c.asText()))` */
  method CollectNames(arr: Option<seq<string>>) returns (names: set<string>)
    ensures names == Elements(arr)
  {
    names := {};
    if arr.Some? {
      var a := arr.value;
      for i := 0 to |a|
        invariant names == set x | x in a[..i]
      {
        assert a[..i + 1] == a[..i] + [a[i]];
        names := names + {a[i]};
      }
      assert a[..|a|] == a;
    }
  }

  /** Every rule of the list is the one its enabled entry configures. */
  predicate AllConfigured(cfg: Config, rules: seq<Rule>) {
    forall i :: 0 <= i < |rules| ==> Enabled(cfg, Name(rules[i])) && rules[i] == Configured(cfg, Name(rules[i]))
  }

  /** The list holds the rules of the enabled entries among `keys`, in
      order. */
  predicate Built(cfg: Config, rules: seq<Rule>, keys: seq<string>) {
    Names(rules) == EnabledAmong(cfg, keys) && AllConfigured(cfg, rules)
  }

  /** What the block for the entry `key` adds to the list: its rule when
      the entry is enabled, nothing otherwise. */
  function Added(cfg: Config, key: string): (r: seq<Rule>)
    ensures |r| <= 1
  {
    if Enabled(cfg, key) then [Configured(cfg, key)] else []
  }

  /** One more block of the factory: the entry `key` adds its rule exactly
      when it is enabled. */
  lemma Step(cfg: Config, before: seq<Rule>, keys: seq<string>, key: string)
    requires key in RuleKeys
    requires Built(cfg, before, keys)
    ensures Built(cfg, before + Added(cfg, key), keys + [key])
  {
    var after := before + Added(cfg, key);
    var keys' := keys + [key];
    assert keys'[..|keys|] == keys && keys'[|keys|] == key;
    assert EnabledAmong(cfg, keys') == Names(before) + (if Enabled(cfg, key) then [key] else []);
    if Enabled(cfg, key) {
      var rule := Configured(cfg, key);
      assert Name(rule) == key;
      assert after == before + [rule];
      assert Names(after) == Names(before) + [key];
      forall i | 0 <= i < |after|
        ensures Enabled(cfg, Name(after[i])) && after[i] == Configured(cfg, Name(after[i]))
      {
        if i < |before| {
          assert after[i] == before[i];
        }
      }
    } else {
      assert after == before;
    }
  }

  // The five blocks of `createRules`, each reading its own entry of the
  // "rules" node.

  method HighAmountBlock(cfg: Config, node: map<string, RuleNode>) returns (added: seq<Rule>)
    requires cfg.rules == Some(node)
    ensures added == Added(cfg, HighAmountName)
  {
    added := [];
    if HighAmountName in node {
      var n := node[HighAmountName];
      if n.enabled.GetOr(true) {
        var threshold := cfg.highAmountThreshold.GetOr(DefaultHighAmountThreshold);
        var weight := Param(n, "weight", 30);
        added := [HighAmount(threshold, weight)];
      }
    }
  }

  method GeoLocationBlock(cfg: Config, node: map<string, RuleNode>) returns (added: seq<Rule>)
    requires cfg.rules == Some(node)
    ensures added == Added(cfg, GeoLocationName)
  {
    added := [];
    if GeoLocationName in node {
      var n := node[GeoLocationName];
      if n.enabled.GetOr(true) {
        var weight := Param(n, "weight", 25);
        var riskyCountries := CollectNames(cfg.riskyCountries);
        added := [GeoLocation(riskyCountries, weight)];
      }
    }
  }

  method NightTimeBlock(cfg: Config, node: map<string, RuleNode>) returns (added: seq<Rule>)
    requires cfg.rules == Some(node)
    ensures added == Added(cfg, NightTimeName)
  {
    added := [];
    if NightTimeName in node {
      var n := node[NightTimeName];
      if n.enabled.GetOr(true) {
        var weight := Param(n, "weight", 20);
        var start := Param(n, "nightStartHour", 0);
        var end := Param(n, "nightEndHour", 5);
        added := [NightTime(start, end, weight)];
      }
    }
  }

  method ChannelRiskBlock(cfg: Config, node: map<string, RuleNode>) returns (added: seq<Rule>)
    requires cfg.rules == Some(node)
    ensures added == Added(cfg, ChannelRiskName)
  {
    added := [];
    if ChannelRiskName in node {
      var n := node[ChannelRiskName];
      if n.enabled.GetOr(true) {
        var weight := Param(n, "weightOnline", 15);
        added := [ChannelRisk(weight)];
      }
    }
  }

  method RiskyMerchantBlock(cfg: Config, node: map<string, RuleNode>) returns (added: seq<Rule>)
    requires cfg.rules == Some(node)
    ensures added == Added(cfg, RiskyMerchantName)
  {
    added := [];
    if RiskyMerchantName in node {
      var n := node[RiskyMerchantName];
      if n.enabled.GetOr(true) {
        var weight := Param(n, "weight", 25);
        var riskyMerchants := CollectNames(cfg.riskyMerchants);
        var rule := NewRiskyMerchantRule(riskyMerchants, weight);
        added := [rule];
      }
    }
  }

  /** `createRules(cfg)`: the rules of the enabled entries, each configured
      from its entry, in the fixed order of `RuleKeys`. */
  method CreateRules(cfg: Config) returns (rules: seq<Rule>)
    ensures Names(rules) == EnabledKeys(cfg)
    ensures AllConfigured(cfg, rules)
  {
    rules := [];
    if cfg.rules.None? {
      EnabledKeysSpec(cfg);
      return;
    }
    var node := cfg.rules.value;
    ghost var keys: seq<string> := [];
    assert Built(cfg, rules, keys);
    var added := HighAmountBlock(cfg, node);
    Step(cfg, rules, keys, HighAmountName);
    rules, keys := rules + added, keys + [HighAmountName];
    added := GeoLocationBlock(cfg, node);
    Step(cfg, rules, keys, GeoLocationName);
    rules, keys := rules + added, keys + [GeoLocationName];
    added := NightTimeBlock(cfg, node);
    Step(cfg, rules, keys, NightTimeName);
    rules, keys := rules + added, keys + [NightTimeName];
    added := ChannelRiskBlock(cfg, node);
    Step(cfg, rules, keys, ChannelRiskName);
    rules, keys := rules + added, keys + [ChannelRiskName];
    added := RiskyMerchantBlock(cfg, node);
    Step(cfg, rules, keys, RiskyMerchantName);
    rules, keys := rules + added, keys + [RiskyMerchantName];
    assert keys == RuleKeys;
  }
}
