/**
 * Cohort construction, token sale and the monthly mint lookup
 * (utilities/modelling_tools.py).
 */
module ModellingTools {
  import opened Common
  import Calendar
  import Allocation
  import Investors

  // ---------------------------------------------------------------------
  // create_investors
  // ---------------------------------------------------------------------

  /** No two investors of the cohorts share a holdings table. */
  ghost predicate SeparateHoldings(cohorts: map<string, seq<Investors.Investor>>)
  {
    forall g1, i1, g2, i2 ::
      g1 in cohorts && g2 in cohorts && 0 <= i1 < |cohorts[g1]| && 0 <= i2 < |cohorts[g2]| && (g1 != g2 || i1 != i2)
      ==> cohorts[g1][i1].holdings != cohorts[g2][i2].holdings
  }

  /** Investor(group=g) refuses a cohort that is not a configured token type; a cohort of 0 builds none. */
  predicate CohortRefused(paramsInvestors: map<string, nat>, tokenTypes: seq<string>, g: string)
  {
    g in paramsInvestors && paramsInvestors[g] > 0 && g !in tokenTypes
  }

  /**
   * The inner loop of create_investors: `count` new investors of group
   * `group`, the i-th with the coefficients draw(group, i), each with its
   * own initial table. Fails (None) when there is at least one to build and
   * the group is not a configured token type.
   */
  method CreateCohort(group: string, count: nat, tokenTypes: seq<string>, numMonths: nat,
                      draw: (string, nat) -> (real, real))
    returns (r: Option<seq<Investors.Investor>>)
    ensures r.None? <==> count > 0 && group !in tokenTypes
    ensures r.Some? ==> |r.value| == count
    ensures r.Some? ==> forall i :: 0 <= i < count ==>
      && r.value[i].group == group
      && r.value[i].tokenTypes == tokenTypes
      && (r.value[i].riskCoefficient, r.value[i].activityCoefficient) == draw(group, i)
      && fresh(r.value[i].holdings)
      && r.value[i].holdings[..] == Investors.InitialHoldings(group, numMonths)
    ensures r.Some? ==> forall j, k :: 0 <= j < k < count ==> r.value[j].holdings != r.value[k].holdings
  {
    var cohort: seq<Investors.Investor> := [];
    for i := 0 to count
      invariant |cohort| == i
      invariant i > 0 ==> group in tokenTypes
      invariant forall j :: 0 <= j < i ==>
        && cohort[j].group == group
        && cohort[j].tokenTypes == tokenTypes
        && (cohort[j].riskCoefficient, cohort[j].activityCoefficient) == draw(group, j)
        && fresh(cohort[j].holdings)
        && cohort[j].holdings[..] == Investors.InitialHoldings(group, numMonths)
      invariant forall j, k :: 0 <= j < k < i ==> cohort[j].holdings != cohort[k].holdings
    {
      var (risk, activity) := draw(group, i);
      var investor := Investors.Investor.Create(group, tokenTypes, numMonths, risk, activity);
      if investor.None? {
        return None;
      }
      cohort := cohort + [investor.value];
    }
    return Some(cohort);
  }

  /**
   * create_investors: for every cohort, paramsInvestors[g] new investors of
   * group g. `draw(g, i)` stands for the normal draw of the risk coefficient
   * and the uniform draw of the activity coefficient of the i-th investor of g.
   * The run fails (None) when some non-empty cohort is not a token type.
   */
  method CreateInvestors(paramsInvestors: map<string, nat>, tokenTypes: seq<string>, numMonths: nat,
                         draw: (string, nat) -> (real, real))
    returns (r: Option<map<string, seq<Investors.Investor>>>)
    ensures r.None? <==> exists g :: CohortRefused(paramsInvestors, tokenTypes, g)
    ensures r.Some? ==> r.value.Keys == paramsInvestors.Keys && SeparateHoldings(r.value)
    ensures r.Some? ==> forall g :: g in r.value ==> |r.value[g]| == paramsInvestors[g]
    ensures r.Some? ==> forall g, i :: g in r.value && 0 <= i < |r.value[g]| ==>
      && r.value[g][i].group == g
      && r.value[g][i].tokenTypes == tokenTypes
      && (r.value[g][i].riskCoefficient, r.value[g][i].activityCoefficient) == draw(g, i)
      && fresh(r.value[g][i].holdings)
      && r.value[g][i].holdings[..] == Investors.InitialHoldings(g, numMonths)
  {
    var cohorts: map<string, seq<Investors.Investor>> := map[];
    var todo := paramsInvestors.Keys;
    while todo != {}
      invariant todo <= paramsInvestors.Keys
      invariant cohorts.Keys == paramsInvestors.Keys - todo
      invariant forall g :: g in cohorts ==> !CohortRefused(paramsInvestors, tokenTypes, g)
      invariant forall g :: g in cohorts ==> |cohorts[g]| == paramsInvestors[g]
      invariant forall g, i :: g in cohorts && 0 <= i < |cohorts[g]| ==>
        && cohorts[g][i].group == g
        && cohorts[g][i].tokenTypes == tokenTypes
        && (cohorts[g][i].riskCoefficient, cohorts[g][i].activityCoefficient) == draw(g, i)
        && fresh(cohorts[g][i].holdings)
        && cohorts[g][i].holdings[..] == Investors.InitialHoldings(g, numMonths)
      invariant SeparateHoldings(cohorts)
      decreases todo
    {
      var group :| group in todo;
      var made := CreateCohort(group, paramsInvestors[group], tokenTypes, numMonths, draw);
      if made.None? {
        assert CohortRefused(paramsInvestors, tokenTypes, group);
        return None;
      }
      var cohort := made.value;
      assert forall g, k, j :: g in cohorts && 0 <= k < |cohorts[g]| && 0 <= j < |cohort| ==>
        cohorts[g][k].holdings != cohort[j].holdings;
      cohorts := cohorts[group := cohort];
      todo := todo - {group};
    }
    assert forall g :: g in paramsInvestors ==> g in cohorts;
    return Some(cohorts);
  }

  // ---------------------------------------------------------------------
  // sell_tokens
  // ---------------------------------------------------------------------

  /** Cohorts that sell_tokens does not sell to. */
  const EXCLUDED: set<string> := {"Staking rewards", "Community"}

  /** The random part of one split: the rounded proportional draw and the random positions. */
  datatype SplitDraw = SplitDraw(rounded: seq<int>, indexes: seq<int>)

  /**
   * Every cohort that sell_tokens sells to exists (the source indexes
   * investors[group]) and has a draw of the right shape; an empty cohort can
   * only take an allotment of 0, split into no shares.
   */
  predicate SaleFits(cohorts: map<string, seq<Investors.Investor>>, paramsTokens: map<string, int>,
                     draws: map<string, SplitDraw>)
  {
    forall g :: g in paramsTokens && g !in EXCLUDED ==>
      && g in cohorts && g in draws
      && Allocation.DrawFits(paramsTokens[g], |cohorts[g]|, draws[g].rounded, draws[g].indexes)
  }

  /** The shares of cohort g's allotment, one per investor, in cohort order. */
  function Shares(cohorts: map<string, seq<Investors.Investor>>, paramsTokens: map<string, int>,
                  draws: map<string, SplitDraw>, g: string): (s: seq<int>)
    requires SaleFits(cohorts, paramsTokens, draws)
    requires g in paramsTokens && g !in EXCLUDED
    ensures |s| == |cohorts[g]|
    ensures Sum(s) == paramsTokens[g]
  {
    Allocation.CorrectedExact(paramsTokens[g], draws[g].rounded, draws[g].indexes);
    Allocation.CorrectedSplit(paramsTokens[g], draws[g].rounded, draws[g].indexes)
  }

  /** A sale to an empty cohort with an allotment of 0 is accepted and splits into no shares. */
  lemma EmptyCohortSale(g: string)
    requires g !in EXCLUDED
    ensures SaleFits(map[g := []], map[g := 0], map[g := SplitDraw([], [])])
    ensures Shares(map[g := []], map[g := 0], map[g := SplitDraw([], [])], g) == []
  {
  }

  /** The holdings tables of all investors of all cohorts. */
  function AllHoldings(cohorts: map<string, seq<Investors.Investor>>): set<array<Investors.Holding>>
  {
    set g, i | g in cohorts && 0 <= i < |cohorts[g]| :: cohorts[g][i].holdings
  }

  /**
   * The inner loop of sell_tokens: the i-th investor of a cohort is granted
   * the i-th share, as tokens of type `group`, on `day`.
   */
  method GrantShares(investors: seq<Investors.Investor>, group: string, distr: seq<int>, day: int)
    requires |distr| == |investors|
    requires forall j, k :: 0 <= j < k < |investors| ==> investors[j].holdings != investors[k].holdings
    modifies set i | 0 <= i < |investors| :: investors[i].holdings
    ensures forall i :: 0 <= i < |investors| ==>
      investors[i].holdings[..] == Investors.Granted(old(investors[i].holdings[..]), map[group := distr[i]], day)
  {
    for index := 0 to |investors|
      invariant forall i :: 0 <= i < |investors| ==>
        investors[i].holdings[..] ==
          if i < index then Investors.Granted(old(investors[i].holdings[..]), map[group := distr[i]], day)
          else old(investors[i].holdings[..])
    {
      // The source calls add_tokens(day=day, num_tokens=n); the grant
      // modelled is the evident one, {group: n} on `day`.
      investors[index].AddTokens(map[group := distr[index]], day);
    }
  }

  /**
   * sell_tokens: each cohort named in paramsTokens, other than 'Staking
   * rewards' and 'Community', has its allotment split into one share per
   * investor, and the i-th investor is granted the i-th share on `day`,
   * as tokens of the cohort's type. Nobody else gains anything.
   */
  method SellTokens(cohorts: map<string, seq<Investors.Investor>>, paramsTokens: map<string, int>, day: int,
                    draws: map<string, SplitDraw>)
    requires SaleFits(cohorts, paramsTokens, draws)
    requires SeparateHoldings(cohorts)
    modifies AllHoldings(cohorts)
    ensures forall g, i :: g in cohorts && 0 <= i < |cohorts[g]| ==>
      cohorts[g][i].holdings[..] ==
        if g in paramsTokens && g !in EXCLUDED
        then Investors.Granted(old(cohorts[g][i].holdings[..]), map[g := Shares(cohorts, paramsTokens, draws, g)[i]], day)
        else old(cohorts[g][i].holdings[..])
  {
    var todo := paramsTokens.Keys;
    ghost var done: set<string> := {};
    while todo != {}
      invariant todo + done == paramsTokens.Keys && todo !! done
      invariant forall g, i :: g in cohorts && 0 <= i < |cohorts[g]| ==>
        cohorts[g][i].holdings[..] ==
          if g in done && g !in EXCLUDED
          then Investors.Granted(old(cohorts[g][i].holdings[..]), map[g := Shares(cohorts, paramsTokens, draws, g)[i]], day)
          else old(cohorts[g][i].holdings[..])
      decreases todo
    {
      var group :| group in todo;
      if group !in EXCLUDED {
        var investors := cohorts[group];
        var numTokens := paramsTokens[group];
        var distr := Allocation.GetDistributionBySumCorrected(
          numTokens, |investors|, draws[group].rounded, draws[group].indexes);
        GrantShares(investors, group, distr, day);
      }
      todo := todo - {group};
      done := done + {group};
    }
  }

  // ---------------------------------------------------------------------
  // get_mint_distribution_by_day
  // ---------------------------------------------------------------------

  /**
   * The mint schedule: one row per token type, one column per month label,
   * amounts[r][c] tokens of tokenTypes[r] released in month months[c].
   */
  datatype MintTable = MintTable(tokenTypes: seq<string>, months: seq<int>, amounts: seq<seq<int>>)
  {
    /** Rows and columns line up, and no month label is repeated. */
    predicate WellFormed()
    {
      && |amounts| == |tokenTypes|
      && (forall r :: 0 <= r < |amounts| ==> |amounts[r]| == |months|)
      && (forall c, c' :: 0 <= c < c' < |months| ==> months[c] != months[c'])
    }
  }

  /** What the lookup yields for a day. */
  datatype MintDay =
    | NotMonthStart                         // the source returns None
    | MonthMissing                          // the month is within the table but has no column: KeyError
    | Released(amounts: map<string, int>)

  /** Largest month label. */
  function Max(s: seq<int>): (m: int)
    requires |s| > 0
    ensures m in s && forall k :: 0 <= k < |s| ==> s[k] <= m
  {
    if |s| == 1 then s[0]
    else
      var m := Max(s[..|s| - 1]);
      assert forall k :: 0 <= k < |s| - 1 ==> s[..|s| - 1][k] == s[k];
      if s[|s| - 1] > m then s[|s| - 1] else m
  }

  /** Column of a month label. */
  function ColumnOf(months: seq<int>, month: int): (c: int)
    requires month in months
    ensures 0 <= c < |months| && months[c] == month
  {
    if months[0] == month then 0 else 1 + ColumnOf(months[1..], month)
  }

  /** Every token type of the table, mapped to 0. */
  function Zeros(types: seq<string>): (m: map<string, int>)
    ensures m.Keys == set t | t in types
    ensures forall t :: t in m ==> m[t] == 0
  {
    map t | t in types :: 0
  }

  /** Writes values[r] under types[r] for each row in order, into `res`. */
  function Filled(types: seq<string>, values: seq<int>, res: map<string, int>): (m: map<string, int>)
    requires |values| == |types|
    ensures m.Keys == res.Keys + set t | t in types
  {
    if |types| == 0 then res
    else
      var n := |types| - 1;
      Filled(types[..n], values[..n], res)[types[n] := values[n]]
  }

  /** After the fill, each type holds the value of its last row. */
  lemma {:induction false} FilledLastRowWins(types: seq<string>, values: seq<int>, res: map<string, int>, r: int)
    requires |values| == |types| && 0 <= r < |types|
    requires forall s :: r < s < |types| ==> types[s] != types[r]
    ensures Filled(types, values, res)[types[r]] == values[r]
    decreases |types|
  {
    var n := |types| - 1;
    if r < n {
      assert types[..n][r] == types[r] && values[..n][r] == values[r];
      FilledLastRowWins(types[..n], values[..n], res, r);
      assert types[n] != types[r];
    }
  }

  /**
   * get_mint_distribution_by_day: on the first day of a month, the amounts
   * released in that month per token type; all zeros after the last month
   * of the table; nothing on other days. Python's `%` and `//` floor, which
   * Dafny's Euclidean `%` and `/` match for the positive divisor 30.
   */
  function MintDistributionByDay(table: MintTable, day: int): (r: MintDay)
    requires table.WellFormed()
    ensures r.NotMonthStart? <==> (day - 1) % 30 != 0
    ensures r.Released? ==> r.amounts.Keys == set t | t in table.tokenTypes
  {
    if (day - 1) % 30 != 0 then NotMonthStart
    else
      var month := Calendar.MonthByDay(day);
      if |table.months| == 0 then MonthMissing
      else if Max(table.months) < month then Released(Zeros(table.tokenTypes))
      else if month !in table.months then MonthMissing
      else
        var c := ColumnOf(table.months, month);
        var values := seq(|table.tokenTypes|, r requires 0 <= r < |table.tokenTypes| => table.amounts[r][c]);
        Released(Filled(table.tokenTypes, values, Zeros(table.tokenTypes)))
  }

  /** After the table's last month, every token type is released in amount 0. */
  lemma MintAfterTable(table: MintTable, day: int)
    requires table.WellFormed()
    requires (day - 1) % 30 == 0 && |table.months| > 0 && Max(table.months) < Calendar.MonthByDay(day)
    ensures MintDistributionByDay(table, day) == Released(Zeros(table.tokenTypes))
    ensures forall t :: t in table.tokenTypes ==> MintDistributionByDay(table, day).amounts[t] == 0
  {
  }

  /**
   * On the first day of a month that has a column, every token type is
   * released in the amount of that month's column, read from its last row.
   */
  lemma MintOfMonth(table: MintTable, day: int, r: int)
    requires table.WellFormed()
    requires (day - 1) % 30 == 0 && Calendar.MonthByDay(day) in table.months
    requires 0 <= r < |table.tokenTypes|
    requires forall s :: r < s < |table.tokenTypes| ==> table.tokenTypes[s] != table.tokenTypes[r]
    ensures MintDistributionByDay(table, day).Released?
    ensures MintDistributionByDay(table, day).amounts[table.tokenTypes[r]]
      == table.amounts[r][ColumnOf(table.months, Calendar.MonthByDay(day))]
  {
    var month := Calendar.MonthByDay(day);
    var c := ColumnOf(table.months, month);
    var values := seq(|table.tokenTypes|, r requires 0 <= r < |table.tokenTypes| => table.amounts[r][c]);
    assert Max(table.months) >= month;
    FilledLastRowWins(table.tokenTypes, values, Zeros(table.tokenTypes), r);
  }
}
