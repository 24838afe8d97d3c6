/** The project estimate (src/utils/cost_estimator.py): three fixed tables
    and two accumulating loops. The plan handed in is never read. Python's
    float arithmetic is modelled with `real`; every value involved is a small
    integer or a quarter of one, so nothing is rounded on the way. */
module CostEstimator {
  import opened Common
  import opened PyValue

  /** A table of the source: names with a number each, in insertion order. */
  type Table = seq<(string, int)>

  /** `phase_duration`: weeks per phase. */
  const PhaseDuration: Table :=
    [("Phase 1", 4), ("Phase 2", 8), ("Phase 3", 8), ("Phase 4", 8), ("Phase 5", 8), ("Phase 6", 16)]

  /** `team_roles`: headcount per role. */
  const TeamRoles: Table :=
    [("Frontend developers", 2), ("Backend developers", 2), ("Data scientists", 2),
     ("Designers", 1), ("QA engineers", 1)]

  /** `salary_rates`: USD per person and month. */
  const SalaryRates: Table :=
    [("Frontend developers", 5000), ("Backend developers", 5500), ("Data scientists", 6000),
     ("Designers", 4000), ("QA engineers", 4500)]

  /** The returned dictionary's three entries. */
  datatype Estimate = Estimate(durationWeeks: int, teamSize: int, totalCostUsd: int)
  {
    /** The dictionary `estimate_cost` returns. */
    function ToValue(): Value {
      Dict([("estimated_duration_weeks", Int(durationWeeks)),
            ("estimated_team_size", Int(teamSize)),
            ("estimated_total_cost_usd", Int(totalCostUsd))])
    }
  }

  /** The sum of a table's numbers. */
  function Total(t: Table): int {
    if t == [] then 0 else Total(t[..|t| - 1]) + t[|t| - 1].1
  }

  /** `t[k]`, or None where Python raises `KeyError`. */
  function Lookup(t: Table, k: string): Option<int> {
    if t == [] then None
    else if t[0].0 == k then Some(t[0].1)
    else Lookup(t[1..], k)
  }

  /** Every role of `roles` has a salary rate. */
  predicate Costable(roles: Table, rates: Table) {
    forall i :: 0 <= i < |roles| ==> Lookup(rates, roles[i].0).Some?
  }

  /** Σ rate·count over the roles, in table order: the monthly cost of the team. */
  function CostSum(roles: Table, rates: Table): int
    requires Costable(roles, rates)
  {
    if roles == [] then 0
    else
      var last := roles[|roles| - 1];
      CostSum(roles[..|roles| - 1], rates) + Lookup(rates, last.0).value * last.1
  }

  /** Python's `int(x)` on a float: truncation toward zero. */
  function Truncate(x: real): (n: int)
    ensures x >= 0.0 ==> n as real <= x < n as real + 1.0
    ensures x < 0.0 ==> n as real - 1.0 < x <= n as real
  {
    if x >= 0.0 then x.Floor else -((-x).Floor)
  }

  /** The estimate the tables determine: total weeks, total headcount, and the
      truncated cost of every role over the whole duration. */
  function TableEstimate(): Estimate
    requires Costable(TeamRoles, SalaryRates)
  {
    var weeks := Total(PhaseDuration);
    Estimate(weeks, Total(TeamRoles), Truncate(CostSum(TeamRoles, SalaryRates) as real * (weeks as real / 4.0)))
  }

  lemma {:induction false} TotalStep(t: Table, i: nat)
    requires i < |t|
    ensures Total(t[..i + 1]) == Total(t[..i]) + t[i].1
  {
    assert t[..i + 1][..i] == t[..i];
  }

  lemma {:induction false} CostSumStep(roles: Table, rates: Table, i: nat)
    requires i < |roles| && Costable(roles, rates)
    ensures Costable(roles[..i], rates) && Costable(roles[..i + 1], rates)
    ensures CostSum(roles[..i + 1], rates) == CostSum(roles[..i], rates) + Lookup(rates, roles[i].0).value * roles[i].1
  {
    assert roles[..i + 1][..i] == roles[..i];
  }

  /** The first entry for a name is the one `Lookup` finds. */
  lemma {:induction false} LookupAt(t: Table, i: nat)
    requires i < |t|
    requires forall j :: 0 <= j < i ==> t[j].0 != t[i].0
    ensures Lookup(t, t[i].0) == Some(t[i].1)
  {
    if i > 0 {
      LookupAt(t[1..], i - 1);
    }
  }

  /** The salary table lists the roles in the headcount table's order, each
      name once. */
  lemma RatesAligned()
    ensures |SalaryRates| == |TeamRoles|
    ensures forall i :: 0 <= i < |TeamRoles| ==> Lookup(SalaryRates, TeamRoles[i].0) == Some(SalaryRates[i].1)
  {
    var s := SalaryRates;
    assert s[0].0[0] == 'F' && s[1].0[0] == 'B' && s[2].0[..2] == "Da" && s[3].0[..2] == "De" && s[4].0[0] == 'Q';
    forall i | 0 <= i < |TeamRoles| ensures Lookup(s, TeamRoles[i].0) == Some(s[i].1) {
      assert TeamRoles[i].0 == s[i].0;
      LookupAt(s, i);
    }
  }

  /** Every role in the headcount table has a salary rate, so the lookup in
      the cost loop never raises. */
  lemma RolesHaveRates()
    ensures Costable(TeamRoles, SalaryRates)
  {
    RatesAligned();
  }

  lemma {:induction false} WeeksTotal()
    ensures Total(PhaseDuration) == 52
  {
    var p := PhaseDuration;
    TotalStep(p, 0); TotalStep(p, 1); TotalStep(p, 2); TotalStep(p, 3); TotalStep(p, 4); TotalStep(p, 5);
    assert p[..0] == [] && p[..6] == p;
  }

  lemma {:induction false} HeadcountTotal()
    ensures Total(TeamRoles) == 8
  {
    var r := TeamRoles;
    TotalStep(r, 0); TotalStep(r, 1); TotalStep(r, 2); TotalStep(r, 3); TotalStep(r, 4);
    assert r[..0] == [] && r[..5] == r;
  }

  /** Σ count·rate over two tables read side by side. */
  function MonthlyTotal(roles: Table, rates: Table): int
    requires |rates| >= |roles|
  {
    if roles == [] then 0
    else MonthlyTotal(roles[..|roles| - 1], rates) + roles[|roles| - 1].1 * rates[|roles| - 1].1
  }

  lemma {:induction false} MonthlyStep(roles: Table, rates: Table, i: nat)
    requires i < |roles| <= |rates|
    ensures MonthlyTotal(roles[..i + 1], rates) == MonthlyTotal(roles[..i], rates) + roles[i].1 * rates[i].1
  {
    assert roles[..i + 1][..i] == roles[..i];
  }

  /** When the rate table lists the roles in the same order, the monthly cost
      is the side-by-side total. */
  lemma {:induction false} CostSumAligned(roles: Table, rates: Table)
    requires |rates| >= |roles|
    requires forall i :: 0 <= i < |roles| ==> Lookup(rates, roles[i].0) == Some(rates[i].1)
    ensures Costable(roles, rates)
    ensures CostSum(roles, rates) == MonthlyTotal(roles, rates)
    decreases |roles|
  {
    if roles != [] {
      var n := |roles| - 1;
      assert forall i :: 0 <= i < n ==> roles[..n][i] == roles[i];
      CostSumAligned(roles[..n], rates);
    }
  }

  /** The team costs 41500 USD a month. */
  lemma {:induction false} CostTotal()
    ensures Costable(TeamRoles, SalaryRates)
    ensures CostSum(TeamRoles, SalaryRates) == 41500
  {
    RatesAligned();
    CostSumAligned(TeamRoles, SalaryRates);
    var r, s := TeamRoles, SalaryRates;
    MonthlyStep(r, s, 0); MonthlyStep(r, s, 1); MonthlyStep(r, s, 2); MonthlyStep(r, s, 3); MonthlyStep(r, s, 4);
    assert r[..0] == [] && r[..5] == r;
  }

  /** The tables give 52 weeks, 8 people and 539500 USD. */
  lemma {:induction false} FixedEstimate()
    ensures Costable(TeamRoles, SalaryRates)
    ensures TableEstimate() == Estimate(52, 8, 539500)
  {
    WeeksTotal();
    HeadcountTotal();
    CostTotal();
    assert 41500 as real * (52 as real / 4.0) == 539500.0;
  }

  /** The weeks loop: every phase's weeks added up, in table order. */
  method SumWeeks(phases: Table) returns (totalWeeks: int)
    ensures totalWeeks == Total(phases)
  {
    totalWeeks := 0;
    for i := 0 to |phases|
      invariant totalWeeks == Total(phases[..i])
    {
      TotalStep(phases, i);
      totalWeeks := totalWeeks + phases[i].1;
    }
    assert phases[..|phases|] == phases;
  }

  /** The headcount-and-cost loop: every role's count is added to the
      headcount, and its monthly cost over `months` to the total. */
  method CostTeam(roles: Table, rates: Table, months: real) returns (totalPeople: int, totalCost: real)
    requires Costable(roles, rates)
    ensures totalPeople == Total(roles)
    ensures totalCost == CostSum(roles, rates) as real * months
  {
    totalPeople, totalCost := 0, 0.0;
    for i := 0 to |roles|
      invariant Costable(roles[..i], rates)
      invariant totalPeople == Total(roles[..i])
      invariant totalCost == CostSum(roles[..i], rates) as real * months
    {
      var (role, count) := roles[i];
      TotalStep(roles, i);
      CostSumStep(roles, rates, i);
      totalPeople := totalPeople + count;
      var monthlyCost := Lookup(rates, role).value * count;
      totalCost := totalCost + monthlyCost as real * months;
      assert totalCost == (CostSum(roles[..i], rates) + monthlyCost) as real * months;
    }
    assert roles[..|roles|] == roles;
  }

  /** `estimate_cost(plan)`: the weeks loop, then the headcount-and-cost loop,
      which costs every role over the full duration. The plan is not read, so
      every plan gets the same estimate. */
  method EstimateCost(plan: Value) returns (r: Estimate)
    ensures Costable(TeamRoles, SalaryRates) && r == TableEstimate()
    ensures r == Estimate(52, 8, 539500)
  {
    var totalWeeks := SumWeeks(PhaseDuration);
    RolesHaveRates();
    var totalPeople, totalCost := CostTeam(TeamRoles, SalaryRates, totalWeeks as real / 4.0);
    r := Estimate(totalWeeks, totalPeople, Truncate(totalCost));
    FixedEstimate();
  }
}
