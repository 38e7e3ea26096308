/**
 * Token and cost accounting for a session: the default price table, the
 * lookup of a model's price with a per-provider wildcard, the recorded
 * usages and their per-provider token totals, and the budget checks.
 * Costs are real numbers here; Go's float64 rounding
 * is not modelled, and neither is the tracker's mutex.
 */
module Budget {
  import opened Results
  import opened Text

  /** budget.PricingTier: prices in USD per thousand tokens. */
  datatype PricingTier = PricingTier(provider: string, model: string, inputPer1K: real, outputPer1K: real,
                                     cachedPer1K: real)

  /** The table key of a tier, "provider/model". */
  function Key(p: PricingTier): string
  {
    p.provider + "/" + p.model
  }

  function Tier(provider: string, model: string, inputPer1K: real, outputPer1K: real): PricingTier
  {
    PricingTier(provider, model, inputPer1K, outputPer1K, 0.0)
  }

  /** DefaultPricing: the built-in tiers; the local providers are free for every model ("*"). */
  function DefaultPricing(): (rows: seq<PricingTier>)
    ensures |rows| == 19
  {
    [ Tier("anthropic", "claude-opus-4-5-20250929", 0.015, 0.075),
      Tier("anthropic", "claude-sonnet-4-5-20250929", 0.003, 0.015),
      Tier("anthropic", "claude-haiku-3-5-20241022", 0.0008, 0.004),
      Tier("openai", "gpt-5.2", 0.01, 0.03),
      Tier("openai", "gpt-5.2-codex", 0.01, 0.03),
      Tier("openai", "o3", 0.015, 0.06),
      Tier("openai", "o4-mini", 0.003, 0.012),
      Tier("google", "gemini-3-pro-preview", 0.00125, 0.005),
      Tier("google", "gemini-3-flash-preview", 0.000075, 0.0003),
      Tier("groq", "llama-4-maverick", 0.0002, 0.0002),
      Tier("groq", "llama-3.3-70b-versatile", 0.00059, 0.00079),
      Tier("deepseek", "deepseek-chat", 0.00014, 0.00028),
      Tier("deepseek", "deepseek-reasoner", 0.00055, 0.00219),
      Tier("mistral", "mistral-large-2512", 0.002, 0.006),
      Tier("mistral", "codestral-latest", 0.001, 0.003),
      Tier("xai", "grok-4-1-fast-reasoning", 0.003, 0.015),
      Tier("xai", "grok-code-fast-1", 0.003, 0.015),
      Tier("ollama", "*", 0.0, 0.0),
      Tier("lmstudio", "*", 0.0, 0.0) ]
  }

  /** The table that keying every row by "provider/model", in order, builds. */
  function TableOf(rows: seq<PricingTier>): map<string, PricingTier>
  {
    if |rows| == 0 then map[]
    else TableOf(rows[..|rows| - 1])[Key(rows[|rows| - 1]) := rows[|rows| - 1]]
  }

  /** The keys of a table are exactly the rows' keys. */
  lemma {:induction false} TableKeys(rows: seq<PricingTier>)
    ensures forall k :: k in TableOf(rows) <==> exists i | 0 <= i < |rows| :: Key(rows[i]) == k
  {
    if |rows| > 0 {
      var init := rows[..|rows| - 1];
      TableKeys(init);
      forall k
        ensures k in TableOf(rows) <==> exists i | 0 <= i < |rows| :: Key(rows[i]) == k
      {
        if exists i | 0 <= i < |init| :: Key(init[i]) == k {
          var i :| 0 <= i < |init| && Key(init[i]) == k;
          assert rows[i] == init[i];
        }
        if exists i | 0 <= i < |rows| :: Key(rows[i]) == k {
          var i :| 0 <= i < |rows| && Key(rows[i]) == k;
          if i < |init| {
            assert init[i] == rows[i];
          }
        }
      }
    }
  }

  /** No two rows share a key. */
  predicate DistinctKeys(rows: seq<PricingTier>)
  {
    forall i, j | 0 <= i < j < |rows| :: Key(rows[i]) != Key(rows[j])
  }

  /** With distinct keys, every row is found under its own key. */
  lemma {:induction false} TableRows(rows: seq<PricingTier>)
    requires DistinctKeys(rows)
    ensures forall i | 0 <= i < |rows| :: Key(rows[i]) in TableOf(rows) && TableOf(rows)[Key(rows[i])] == rows[i]
  {
    if |rows| > 0 {
      var init := rows[..|rows| - 1];
      assert DistinctKeys(init) by {
        forall i, j | 0 <= i < j < |init|
          ensures Key(init[i]) != Key(init[j])
        {
          assert init[i] == rows[i] && init[j] == rows[j];
        }
      }
      TableRows(init);
      forall i | 0 <= i < |rows|
        ensures Key(rows[i]) in TableOf(rows) && TableOf(rows)[Key(rows[i])] == rows[i]
      {
        if i < |init| {
          assert init[i] == rows[i];
        }
      }
    }
  }

  /** No provider name of the rows contains the key separator. */
  predicate NoSlash(rows: seq<PricingTier>)
  {
    forall i | 0 <= i < |rows| :: '/' !in rows[i].provider
  }

  /** When provider names hold no '/', a key determines its provider and model. */
  lemma KeyInjective(a: PricingTier, b: PricingTier)
    requires '/' !in a.provider && '/' !in b.provider
    ensures Key(a) == Key(b) ==> a.provider == b.provider && a.model == b.model
  {
    var m, n := |a.provider|, |b.provider|;
    if m < n {
      assert Key(a)[m] == '/' && Key(b)[m] == b.provider[m];
    } else if n < m {
      assert Key(b)[n] == '/' && Key(a)[n] == a.provider[n];
    } else if Key(a) == Key(b) {
      assert Key(a)[..m] == a.provider && Key(b)[..n] == b.provider;
      assert Key(a)[m + 1..] == a.model && Key(b)[n + 1..] == b.model;
    }
  }

  /** The default tiers' keys are all different, and no provider name holds a '/'. */
  lemma DefaultKeysDistinct()
    ensures NoSlash(DefaultPricing()) && DistinctKeys(DefaultPricing())
  {
    var rows := DefaultPricing();
    assert NoSlash(rows);
    forall i, j | 0 <= i < j < |rows|
      ensures Key(rows[i]) != Key(rows[j])
    {
      KeyInjective(rows[i], rows[j]);
    }
  }

  /** budget.Usage; the timestamp is given, not read from a clock. */
  datatype Usage = Usage(timestamp: int, provider: string, model: string, aiId: string,
                         inputTokens: int, outputTokens: int, cachedTokens: int, cost: real, phase: string)

  /** The input and output tokens the usages of one provider add up to. */
  function TokensOf(usages: seq<Usage>, provider: string): (int, int)
  {
    if |usages| == 0 then (0, 0)
    else
      var before := TokensOf(usages[..|usages| - 1], provider);
      var u := usages[|usages| - 1];
      if u.provider == provider then (before.0 + u.inputTokens, before.1 + u.outputTokens) else before
  }

  /** The input and output tokens of all usages. */
  function TotalTokens(usages: seq<Usage>): (int, int)
  {
    if |usages| == 0 then (0, 0)
    else
      var before := TotalTokens(usages[..|usages| - 1]);
      var u := usages[|usages| - 1];
      (before.0 + u.inputTokens, before.1 + u.outputTokens)
  }

  /**
   * Recording one more usage adds its tokens to its own provider's totals
   * and leaves every other provider's totals as they were.
   */
  lemma TokensAfterRecord(usages: seq<Usage>, u: Usage, provider: string)
    ensures var before := TokensOf(usages, provider);
            TokensOf(usages + [u], provider) ==
              if u.provider == provider then (before.0 + u.inputTokens, before.1 + u.outputTokens) else before
  {
    assert (usages + [u])[..|usages|] == usages;
  }

  /** A provider with no usage has no tokens. */
  lemma {:induction false} TokensOfAbsent(usages: seq<Usage>, provider: string)
    requires forall u | u in usages :: u.provider != provider
    ensures TokensOf(usages, provider) == (0, 0)
  {
    if |usages| > 0 {
      var init := usages[..|usages| - 1];
      assert forall u | u in init :: u in usages;
      TokensOfAbsent(init, provider);
    }
  }

  /** The usages of one provider, in the order they were recorded. */
  function UsagesOf(usages: seq<Usage>, provider: string): seq<Usage>
  {
    if |usages| == 0 then []
    else
      var last := usages[|usages| - 1];
      UsagesOf(usages[..|usages| - 1], provider) + (if last.provider == provider then [last] else [])
  }

  /** A provider's list holds exactly the usages recorded for that provider. */
  lemma {:induction false} UsagesOfMembers(usages: seq<Usage>, provider: string)
    ensures |UsagesOf(usages, provider)| <= |usages|
    ensures forall u | u in UsagesOf(usages, provider) :: u.provider == provider && u in usages
    ensures forall u | u in usages && u.provider == provider :: u in UsagesOf(usages, provider)
  {
    if |usages| > 0 {
      var init, last := usages[..|usages| - 1], usages[|usages| - 1];
      UsagesOfMembers(init, provider);
      assert forall u | u in usages :: u in init || u == last;
      assert forall u | u in init :: u in usages;
    }
  }

  /** The costs of a list of usages added up. */
  function CostSum(usages: seq<Usage>): real
  {
    if |usages| == 0 then 0.0 else CostSum(usages[..|usages| - 1]) + usages[|usages| - 1].cost
  }

  /** The cost the usages of one provider add up to, accumulated in recording order. */
  function CostOfProvider(usages: seq<Usage>, provider: string): real
  {
    if |usages| == 0 then 0.0
    else
      var u := usages[|usages| - 1];
      CostOfProvider(usages[..|usages| - 1], provider) + (if u.provider == provider then u.cost else 0.0)
  }

  /** Appending a usage adds its cost to the sum. */
  lemma CostSumAppend(usages: seq<Usage>, u: Usage)
    ensures CostSum(usages + [u]) == CostSum(usages) + u.cost
  {
    assert (usages + [u])[..|usages|] == usages;
  }

  /** A provider's accumulated cost is the sum of the costs of its own usages. */
  lemma {:induction false} ProviderCostIsSum(usages: seq<Usage>, provider: string)
    ensures CostOfProvider(usages, provider) == CostSum(UsagesOf(usages, provider))
  {
    if |usages| > 0 {
      var init, last := usages[..|usages| - 1], usages[|usages| - 1];
      ProviderCostIsSum(init, provider);
      if last.provider == provider {
        CostSumAppend(UsagesOf(init, provider), last);
      } else {
        assert UsagesOf(usages, provider) == UsagesOf(init, provider);
      }
    }
  }

  /** Recording one more usage extends its own provider's list and cost and no other's. */
  lemma GroupsAfterRecord(usages: seq<Usage>, u: Usage, provider: string)
    ensures UsagesOf(usages + [u], provider) == UsagesOf(usages, provider) + (if u.provider == provider then [u] else [])
    ensures CostOfProvider(usages + [u], provider) ==
              CostOfProvider(usages, provider) + (if u.provider == provider then u.cost else 0.0)
  {
    assert (usages + [u])[..|usages|] == usages;
  }

  /** A provider with no usage has an empty list and no cost. */
  lemma {:induction false} GroupsOfAbsent(usages: seq<Usage>, provider: string)
    requires forall u | u in usages :: u.provider != provider
    ensures UsagesOf(usages, provider) == [] && CostOfProvider(usages, provider) == 0.0
  {
    if |usages| > 0 {
      var init := usages[..|usages| - 1];
      assert forall u | u in init :: u in usages;
      GroupsOfAbsent(init, provider);
    }
  }

  /** `groups` holds, for each provider with a usage in `usages`, that provider's usages. */
  ghost predicate Grouped(groups: map<string, seq<Usage>>, usages: seq<Usage>)
  {
    (forall p :: p in groups <==> exists u | u in usages :: u.provider == p)
    && forall p | p in groups :: groups[p] == UsagesOf(usages, p)
  }

  /** Appending a usage to its provider's list (a new list when it has none) keeps the grouping. */
  lemma GroupStep(groups: map<string, seq<Usage>>, usages: seq<Usage>, u: Usage)
    requires Grouped(groups, usages)
    ensures Grouped(groups[u.provider := (if u.provider in groups then groups[u.provider] else []) + [u]], usages + [u])
  {
    if u.provider !in groups {
      GroupsOfAbsent(usages, u.provider);
    }
    forall p | p in groups
      ensures UsagesOf(usages + [u], p) == UsagesOf(usages, p) + (if u.provider == p then [u] else [])
    {
      GroupsAfterRecord(usages, u, p);
    }
    GroupsAfterRecord(usages, u, u.provider);
  }

  /** Prices a usage: thousands of tokens times the tier's rates. */
  function CostOf(tier: PricingTier, inputTokens: int, outputTokens: int): real
  {
    (inputTokens as real / 1000.0) * tier.inputPer1K + (outputTokens as real / 1000.0) * tier.outputPer1K
  }

  /** The tier a missing price falls back to: everything free. */
  const NoPricing: PricingTier := PricingTier("", "", 0.0, 0.0, 0.0)

  /** budget.Tracker. */
  class Tracker {
    var usages: seq<Usage>
    var pricing: map<string, PricingTier>
    /** The spending limit; 0 means no limit. */
    var budget: real
    var totalCost: real
    var showCosts: bool

    /** NewTracker: no usage, no limit, and the default tiers keyed one by one. */
    constructor ()
      ensures pricing == TableOf(DefaultPricing())
      ensures usages == [] && budget == 0.0 && totalCost == 0.0 && !showCosts
      ensures CostsAddUp()
    {
      usages := [];
      budget := 0.0;
      totalCost := 0.0;
      showCosts := false;
      var rows := DefaultPricing();
      var table := map[];
      var i := 0;
      while i < |rows|
        invariant 0 <= i <= |rows|
        invariant table == TableOf(rows[..i])
      {
        assert rows[..i + 1][..i] == rows[..i];
        table := table[Key(rows[i]) := rows[i]];
        i := i + 1;
      }
      assert rows[..i] == rows;
      pricing := table;
    }

    /** SetBudget replaces the limit. */
    method SetBudget(limit: real)
      modifies this
      ensures budget == limit
      ensures usages == old(usages) && pricing == old(pricing) && totalCost == old(totalCost)
      ensures showCosts == old(showCosts)
    {
      budget := limit;
    }

    /** SetShowCosts replaces the display flag. */
    method SetShowCosts(show: bool)
      modifies this
      ensures showCosts == show
      ensures usages == old(usages) && pricing == old(pricing) && totalCost == old(totalCost)
      ensures budget == old(budget)
    {
      showCosts := show;
    }

    /** GetPricing: the exact "provider/model" tier, else the provider's "*" tier, else none. */
    function GetPricing(provider: string, model: string): (r: Option<PricingTier>)
      reads this
      ensures r.Some? <==> provider + "/" + model in pricing || provider + "/*" in pricing
      ensures provider + "/" + model in pricing ==> r == Some(pricing[provider + "/" + model])
      ensures provider + "/" + model !in pricing && provider + "/*" in pricing ==> r == Some(pricing[provider + "/*"])
    {
      var exact := provider + "/" + model;
      var wildcard := provider + "/*";
      if exact in pricing then Some(pricing[exact])
      else if wildcard in pricing then Some(pricing[wildcard])
      else None
    }

    /** EstimateCost: the cost at the model's tier, 0 when it has none. */
    function EstimateCost(provider: string, model: string, inputTokens: int, outputTokens: int): (cost: real)
      reads this
      ensures GetPricing(provider, model).None? ==> cost == 0.0
      ensures GetPricing(provider, model).Some? ==>
                cost == CostOf(GetPricing(provider, model).value, inputTokens, outputTokens)
    {
      match GetPricing(provider, model)
      case None => 0.0
      case Some(tier) => CostOf(tier, inputTokens, outputTokens)
    }

    /**
     * RecordUsage: appends the usage, priced at the model's tier (free when
     * it has none), and adds its cost to the total.
     */
    method RecordUsage(now: int, provider: string, model: string, aiId: string, inputTokens: int,
                       outputTokens: int, phase: string) returns (u: Usage)
      modifies this
      ensures u == Usage(now, provider, model, aiId, inputTokens, outputTokens, 0, u.cost, phase)
      ensures u.cost == EstimateCost(provider, model, inputTokens, outputTokens)
      ensures usages == old(usages) + [u] && totalCost == old(totalCost) + u.cost
      ensures pricing == old(pricing) && budget == old(budget) && showCosts == old(showCosts)
      ensures old(CostsAddUp()) ==> CostsAddUp()
    {
      CostSumAppend(usages, Usage(now, provider, model, aiId, inputTokens, outputTokens, 0,
                                  EstimateCost(provider, model, inputTokens, outputTokens), phase));
      var found := GetPricing(provider, model);
      var tier := if found.Some? then found.value else NoPricing;
      var cost := CostOf(tier, inputTokens, outputTokens);
      u := Usage(now, provider, model, aiId, inputTokens, outputTokens, 0, cost, phase);
      usages := usages + [u];
      totalCost := totalCost + cost;
    }

    /** The running total is the sum of the recorded usages' costs. */
    predicate CostsAddUp()
      reads this
    {
      totalCost == CostSum(usages)
    }

    /** GetTotalCost: the running total, which is what the recorded usages cost. */
    function GetTotalCost(): (r: real)
      reads this
      ensures CostsAddUp() ==> r == CostSum(usages)
    {
      totalCost
    }

    /** GetRemainingBudget: −1 when there is no limit, else what is left of it (negative once over). */
    function GetRemainingBudget(): (r: real)
      reads this
      ensures budget == 0.0 ==> r == -1.0
      ensures budget != 0.0 ==> r + totalCost == budget
    {
      if budget == 0.0 then -1.0 else budget - totalCost
    }

    /** IsOverBudget: a positive limit that the total cost exceeds. */
    function IsOverBudget(): (over: bool)
      reads this
      ensures over <==> budget > 0.0 && totalCost > budget
    {
      budget > 0.0 && totalCost > budget
    }

    /** GetUsages: the recorded usages, in order. */
    function GetUsages(): (r: seq<Usage>)
      reads this
      ensures |r| == |usages| && forall i | 0 <= i < |r| :: r[i] == usages[i]
    {
      usages[..]
    }

    /** GetTokensByProvider: for each provider with a usage, its input and output token totals. */
    method GetTokensByProvider() returns (totals: map<string, (int, int)>)
      ensures forall p :: p in totals <==> exists u | u in usages :: u.provider == p
      ensures forall p | p in totals :: totals[p] == TokensOf(usages, p)
    {
      totals := map[];
      var i := 0;
      while i < |usages|
        invariant 0 <= i <= |usages|
        invariant forall p :: p in totals <==> exists u | u in usages[..i] :: u.provider == p
        invariant forall p | p in totals :: totals[p] == TokensOf(usages[..i], p)
      {
        var u := usages[i];
        var entry := if u.provider in totals then totals[u.provider] else (0, 0);
        if u.provider !in totals {
          TokensOfAbsent(usages[..i], u.provider);
        }
        assert usages[..i + 1] == usages[..i] + [u];
        forall p | p in totals
          ensures TokensOf(usages[..i + 1], p) == if u.provider == p then (entry.0 + u.inputTokens, entry.1 + u.outputTokens) else totals[p]
        {
          TokensAfterRecord(usages[..i], u, p);
        }
        TokensAfterRecord(usages[..i], u, u.provider);
        totals := totals[u.provider := (entry.0 + u.inputTokens, entry.1 + u.outputTokens)];
        i := i + 1;
      }
      assert usages[..i] == usages;
    }

    /** GetUsagesByProvider: for each provider with a usage, its usages in recording order. */
    method GetUsagesByProvider() returns (groups: map<string, seq<Usage>>)
      ensures forall p :: p in groups <==> exists u | u in usages :: u.provider == p
      ensures forall p | p in groups :: groups[p] == UsagesOf(usages, p) && |groups[p]| > 0
    {
      groups := map[];
      var i := 0;
      while i < |usages|
        invariant 0 <= i <= |usages|
        invariant Grouped(groups, usages[..i])
      {
        var u := usages[i];
        GroupStep(groups, usages[..i], u);
        assert usages[..i + 1] == usages[..i] + [u];
        groups := groups[u.provider := (if u.provider in groups then groups[u.provider] else []) + [u]];
        i := i + 1;
      }
      assert usages[..i] == usages;
      forall p | p in groups
        ensures |groups[p]| > 0
      {
        var u :| u in usages && u.provider == p;
        UsagesOfMembers(usages, p);
      }
    }

    /** GetCostByProvider: for each provider with a usage, the cost of its usages. */
    method GetCostByProvider() returns (costs: map<string, real>)
      ensures forall p :: p in costs <==> exists u | u in usages :: u.provider == p
      ensures forall p | p in costs :: costs[p] == CostSum(UsagesOf(usages, p))
    {
      costs := map[];
      var i := 0;
      while i < |usages|
        invariant 0 <= i <= |usages|
        invariant forall p :: p in costs <==> exists u | u in usages[..i] :: u.provider == p
        invariant forall p | p in costs :: costs[p] == CostOfProvider(usages[..i], p)
      {
        var u := usages[i];
        var entry := if u.provider in costs then costs[u.provider] else 0.0;
        if u.provider !in costs {
          GroupsOfAbsent(usages[..i], u.provider);
        }
        assert usages[..i + 1] == usages[..i] + [u];
        forall p | p in costs
          ensures CostOfProvider(usages[..i + 1], p) == if u.provider == p then entry + u.cost else costs[p]
        {
          GroupsAfterRecord(usages[..i], u, p);
        }
        GroupsAfterRecord(usages[..i], u, u.provider);
        costs := costs[u.provider := entry + u.cost];
        i := i + 1;
      }
      assert usages[..i] == usages;
      forall p | p in costs
        ensures costs[p] == CostSum(UsagesOf(usages, p))
      {
        ProviderCostIsSum(usages, p);
      }
    }

    /**
     * Summary: "No usage recorded" when nothing was recorded; otherwise the
     * interaction count and token totals, then the cost lines, whose
     * decimal rendering is the caller's `costLines`.
     */
    method Summary(costLines: string) returns (s: string)
      ensures |usages| == 0 ==> s == "No usage recorded"
      ensures |usages| > 0 ==>
                s == "Usage Summary:\n  Interactions: " + NatToString(|usages|)
                     + "\n  Input tokens: " + IntToString(TotalTokens(usages).0)
                     + "\n  Output tokens: " + IntToString(TotalTokens(usages).1) + "\n" + costLines
    {
      if |usages| == 0 {
        return "No usage recorded";
      }
      var totalInput, totalOutput := 0, 0;
      var i := 0;
      while i < |usages|
        invariant 0 <= i <= |usages|
        invariant (totalInput, totalOutput) == TotalTokens(usages[..i])
      {
        assert usages[..i + 1][..i] == usages[..i];
        totalInput := totalInput + usages[i].inputTokens;
        totalOutput := totalOutput + usages[i].outputTokens;
        i := i + 1;
      }
      assert usages[..i] == usages;
      s := "Usage Summary:\n  Interactions: " + NatToString(|usages|)
           + "\n  Input tokens: " + IntToString(totalInput)
           + "\n  Output tokens: " + IntToString(totalOutput) + "\n" + costLines;
    }
  }

  /** Every default tier is found under its own provider and model. */
  lemma DefaultTiersFound(t: Tracker)
    requires t.pricing == TableOf(DefaultPricing())
    ensures forall i | 0 <= i < 19 ::
              t.GetPricing(DefaultPricing()[i].provider, DefaultPricing()[i].model) == Some(DefaultPricing()[i])
  {
    DefaultKeysDistinct();
    TableRows(DefaultPricing());
  }

  /** The local providers are free whatever model is asked for. */
  lemma LocalProvidersFree(t: Tracker, model: string)
    requires t.pricing == TableOf(DefaultPricing())
    ensures t.GetPricing("ollama", model) == Some(DefaultPricing()[17])
    ensures t.GetPricing("lmstudio", model) == Some(DefaultPricing()[18])
    ensures t.EstimateCost("ollama", model, 1000, 1000) == 0.0
  {
    var rows := DefaultPricing();
    DefaultKeysDistinct();
    TableRows(rows);
    TableKeys(rows);
    LocalRows();
    WildcardOnly(t, rows, "ollama", model, 17);
    WildcardOnly(t, rows, "lmstudio", model, 18);
  }

  /** ollama and lmstudio each have one default row, a "*" row. */
  lemma LocalRows()
    ensures var rows := DefaultPricing();
            && rows[17].provider == "ollama" && rows[17].model == "*"
            && rows[18].provider == "lmstudio" && rows[18].model == "*"
            && (forall i | 0 <= i < |rows| && i != 17 :: rows[i].provider != "ollama")
            && (forall i | 0 <= i < |rows| && i != 18 :: rows[i].provider != "lmstudio")
  {
  }

  /** A provider whose only row is a "*" row is priced by that row for any model it is asked about. */
  lemma WildcardOnly(t: Tracker, rows: seq<PricingTier>, provider: string, model: string, w: nat)
    requires NoSlash(rows) && w < |rows| && rows[w].provider == provider && rows[w].model == "*"
    requires forall i | 0 <= i < |rows| && i != w :: rows[i].provider != provider
    requires forall k :: k in t.pricing ==> exists i | 0 <= i < |rows| :: Key(rows[i]) == k
    requires Key(rows[w]) in t.pricing && t.pricing[Key(rows[w])] == rows[w]
    ensures t.GetPricing(provider, model) == Some(rows[w])
  {
    var k := provider + "/" + model;
    assert Key(rows[w]) == provider + "/*";
    if k in t.pricing {
      var i :| 0 <= i < |rows| && Key(rows[i]) == k;
      KeyInjective(rows[i], PricingTier(provider, model, 0.0, 0.0, 0.0));
      assert k == Key(rows[w]);
    }
  }

  /** Being over budget is having a limit and less than nothing of it left. */
  lemma OverBudgetRemaining(t: Tracker)
    ensures t.IsOverBudget() <==> t.budget > 0.0 && t.GetRemainingBudget() < 0.0
  {
  }
}
