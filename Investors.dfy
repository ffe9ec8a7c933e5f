/**
 * The investor holdings ledger (models/investors.py). An investor owns one
 * row per (token type, purchase day): the amount, whether it sits in the
 * staking pool ('SbPool') or the dividend farm ('DivFarm'), and the day its
 * last move started a freeze.
 */
module Investors {
  import opened Common
  import Farms

  /** Token type of the rewards paid to every investor. */
  const STAKING_REWARDS: string := "Staking rewards"

  /** Freeze day of a row that never moved: int(-INF) with INF = 1e7. */
  const NEVER_FROZEN: int := -10000000

  /** Which farm flag a row carries. */
  datatype Flag = SbPoolFlag | DivFarmFlag

  /** The other farm's flag. */
  function Opposite(f: Flag): (o: Flag)
    ensures o != f
  {
    if f == SbPoolFlag then DivFarmFlag else SbPoolFlag
  }

  /** The flag get_tokens_amount reads for a farm: 'DivFarm' reads DivFarm_flag, any other kind SbPool_flag. */
  function QueryFlag(farmType: string): Flag
  {
    if farmType == "DivFarm" then DivFarmFlag else SbPoolFlag
  }

  /** The flag transfer_active_tokens sets for a farm: 'SbPool' sets SbPool_flag, any other kind DivFarm_flag. */
  function TransferFlag(farmType: string): Flag
  {
    if farmType == "SbPool" then SbPoolFlag else DivFarmFlag
  }

  /** For the two farm kinds the simulation builds, both methods pick the same flag. */
  lemma FlagChoicesAgree(farmType: string)
    requires farmType == "SbPool" || farmType == "DivFarm"
    ensures QueryFlag(farmType) == TransferFlag(farmType)
    ensures farmType == "DivFarm" <==> QueryFlag(farmType) == DivFarmFlag
  {
  }

  /** For any other kind name, tokens moved into the farm are not the ones counted as in it. */
  lemma FlagChoicesDiffer(farmType: string)
    requires farmType != "SbPool" && farmType != "DivFarm"
    ensures QueryFlag(farmType) == SbPoolFlag && TransferFlag(farmType) == DivFarmFlag
  {
  }

  /** One row of the holdings table. */
  datatype Holding = Holding(
    tokenType: string,
    purchaseDay: int,
    num: int,
    sbPool: bool,
    divFarm: bool,
    freezeDay: int)
  {
    /** The row is flagged as sitting in the farm of flag f. */
    predicate In(f: Flag)
    {
      if f == SbPoolFlag then sbPool else divFarm
    }

    /** Both farm flags are set, which no operation should produce. */
    predicate BothFlags()
    {
      sbPool && divFarm
    }
  }

  /** No row is flagged for both farms. */
  predicate FlagsExclusive(rows: seq<Holding>)
  {
    forall i :: 0 <= i < |rows| ==> !rows[i].BothFlags()
  }

  // ---------------------------------------------------------------------
  // The table of a new investor
  // ---------------------------------------------------------------------

  /** Purchase days 1 .. (numMonths + 1) * 30 - 1 have a row. */
  function PurchaseDays(numMonths: nat): nat
  {
    (numMonths + 1) * 30 - 1
  }

  /**
   * The rows of a new investor: its group and 'Staking rewards', each crossed
   * with every purchase day, empty, in no farm and never frozen.
   */
  function InitialHoldings(group: string, numMonths: nat): (rows: seq<Holding>)
    ensures |rows| == 2 * PurchaseDays(numMonths)
    ensures forall i :: 0 <= i < |rows| ==>
      rows[i].num == 0 && !rows[i].sbPool && !rows[i].divFarm && rows[i].freezeDay == NEVER_FROZEN
    ensures FlagsExclusive(rows)
  {
    var days := PurchaseDays(numMonths);
    seq(2 * days, i requires 0 <= i < 2 * days =>
      if i < days then Holding(group, i + 1, 0, false, false, NEVER_FROZEN)
      else Holding(STAKING_REWARDS, i - days + 1, 0, false, false, NEVER_FROZEN))
  }

  /** Some row is keyed by (t, d). */
  predicate HasRow(rows: seq<Holding>, t: string, d: int)
  {
    exists i :: 0 <= i < |rows| && rows[i].tokenType == t && rows[i].purchaseDay == d
  }

  /** A new investor has a row for (t, d) exactly when t is its group or 'Staking rewards' and d a purchase day. */
  lemma InitialRowKeys(group: string, numMonths: nat, t: string, d: int)
    ensures HasRow(InitialHoldings(group, numMonths), t, d)
      <==> (t == group || t == STAKING_REWARDS) && 1 <= d <= PurchaseDays(numMonths)
  {
    var rows := InitialHoldings(group, numMonths);
    var days := PurchaseDays(numMonths);
    if (t == group || t == STAKING_REWARDS) && 1 <= d <= days {
      var i := if t == group then d - 1 else days + d - 1;
      assert rows[i].tokenType == t && rows[i].purchaseDay == d;
    }
  }

  // ---------------------------------------------------------------------
  // add_tokens
  // ---------------------------------------------------------------------

  /** The rows after add_tokens(amounts, day): each row bought on `day` gains the amount of its type. */
  function Granted(rows: seq<Holding>, amounts: map<string, int>, day: int): (r: seq<Holding>)
    ensures |r| == |rows|
  {
    seq(|rows|, i requires 0 <= i < |rows| =>
      if rows[i].purchaseDay == day && rows[i].tokenType in amounts
      then rows[i].(num := rows[i].num + amounts[rows[i].tokenType])
      else rows[i])
  }

  /**
   * add_tokens changes only the amounts of rows keyed (t, day) with t given,
   * by the amount given; flags, freeze days and keys stay.
   */
  lemma GrantedRows(rows: seq<Holding>, amounts: map<string, int>, day: int)
    ensures forall i :: 0 <= i < |rows| ==>
      var h, h' := rows[i], Granted(rows, amounts, day)[i];
      && h' == h.(num := h'.num)
      && h'.num == h.num + (if h.purchaseDay == day && h.tokenType in amounts then amounts[h.tokenType] else 0)
  {
  }

  /** Zero amounts, types the investor has no rows for, or a day with no rows change nothing. */
  lemma GrantedNothing(rows: seq<Holding>, amounts: map<string, int>, day: int)
    requires forall t :: t in amounts && HasRow(rows, t, day) ==> amounts[t] == 0
    ensures Granted(rows, amounts, day) == rows
  {
    var r := Granted(rows, amounts, day);
    forall i | 0 <= i < |rows|
      ensures r[i] == rows[i]
    {
      var h := rows[i];
      if h.purchaseDay == day && h.tokenType in amounts {
        assert HasRow(rows, h.tokenType, day);
      }
    }
  }

  // ---------------------------------------------------------------------
  // get_tokens_amount
  // ---------------------------------------------------------------------

  /**
   * Sum of the amounts of the rows flagged f and bought on or before `day`;
   * 0 for a new investor, whose rows carry no flag.
   */
  function Deposited(rows: seq<Holding>, f: Flag, day: int): (amount: int)
    ensures (forall i :: 0 <= i < |rows| ==> rows[i].num >= 0) ==> amount >= 0
    ensures (forall i :: 0 <= i < |rows| ==> !rows[i].In(f) || rows[i].purchaseDay > day) ==> amount == 0
  {
    if |rows| == 0 then 0
    else
      var h := rows[|rows| - 1];
      Deposited(rows[..|rows| - 1], f, day) + (if h.In(f) && h.purchaseDay <= day then h.num else 0)
  }

  // ---------------------------------------------------------------------
  // transfer_active_tokens
  // ---------------------------------------------------------------------

  /**
   * A row moves to the farm of flag f on `day` when its freeze is over, it is
   * not already in that farm, it was bought by `day` and it holds tokens.
   */
  predicate Active(h: Holding, f: Flag, day: int, freezePeriod: int)
  {
    h.freezeDay <= day - freezePeriod && !h.In(f) && h.purchaseDay <= day && h.num > 0
  }

  /** A moved row: in the farm of f, out of the other one, frozen from `day`. */
  function Moved(h: Holding, f: Flag, day: int): Holding
  {
    h.(sbPool := f == SbPoolFlag, divFarm := f == DivFarmFlag, freezeDay := day)
  }

  /** The rows after transfer_active_tokens into the farm of f. */
  function Transferred(rows: seq<Holding>, f: Flag, day: int, freezePeriod: int): (r: seq<Holding>)
    ensures |r| == |rows|
  {
    seq(|rows|, i requires 0 <= i < |rows| =>
      if Active(rows[i], f, day, freezePeriod) then Moved(rows[i], f, day) else rows[i])
  }

  /**
   * Exactly the active rows change: each gets the target flag, loses the
   * other one and is frozen from `day`; no amount, type or purchase day changes.
   */
  lemma TransferredRows(rows: seq<Holding>, f: Flag, day: int, freezePeriod: int)
    ensures forall i :: 0 <= i < |rows| ==>
      var h, h' := rows[i], Transferred(rows, f, day, freezePeriod)[i];
      && h'.num == h.num && h'.tokenType == h.tokenType && h'.purchaseDay == h.purchaseDay
      && (Active(h, f, day, freezePeriod) ==> h'.In(f) && !h'.In(Opposite(f)) && h'.freezeDay == day)
      && (!Active(h, f, day, freezePeriod) ==> h' == h)
  {
  }

  /** A transfer never sets both flags on a row that did not already have them. */
  lemma TransferKeepsFlagsExclusive(rows: seq<Holding>, f: Flag, day: int, freezePeriod: int)
    requires FlagsExclusive(rows)
    ensures FlagsExclusive(Transferred(rows, f, day, freezePeriod))
  {
  }

  /**
   * Freeze rule: a row moved on `day` is selected by no transfer, into either
   * farm, on a day before day + freezePeriod, and never by a transfer into
   * the farm it now sits in.
   */
  lemma MovedRowFrozen(rows: seq<Holding>, f: Flag, day: int, freezePeriod: int, i: int, g: Flag, day2: int)
    requires 0 <= i < |rows| && Active(rows[i], f, day, freezePeriod)
    requires day2 < day + freezePeriod || g == f
    ensures !Active(Transferred(rows, f, day, freezePeriod)[i], g, day2, freezePeriod)
  {
  }

  /**
   * A row moved on `day` can be moved back to the other farm on `day2`
   * exactly when day2 >= day + freezePeriod.
   */
  lemma MovedRowThawsAt(rows: seq<Holding>, f: Flag, day: int, freezePeriod: int, i: int, day2: int)
    requires 0 <= i < |rows| && Active(rows[i], f, day, freezePeriod)
    requires freezePeriod >= 0
    ensures Active(Transferred(rows, f, day, freezePeriod)[i], Opposite(f), day2, freezePeriod)
      <==> day2 >= day + freezePeriod
  {
  }

  /** A second transfer into the same farm on the same day moves nothing. */
  lemma TransferIdempotent(rows: seq<Holding>, f: Flag, day: int, freezePeriod: int)
    ensures Transferred(Transferred(rows, f, day, freezePeriod), f, day, freezePeriod)
      == Transferred(rows, f, day, freezePeriod)
  {
    var r1 := Transferred(rows, f, day, freezePeriod);
    var r2 := Transferred(r1, f, day, freezePeriod);
    forall i | 0 <= i < |rows|
      ensures r2[i] == r1[i]
    {
      assert !Active(r1[i], f, day, freezePeriod);
    }
  }

  /** Sum of the amounts of the active rows of type t. */
  function ActiveTotal(rows: seq<Holding>, f: Flag, day: int, freezePeriod: int, t: string): int
  {
    if |rows| == 0 then 0
    else
      var h := rows[|rows| - 1];
      ActiveTotal(rows[..|rows| - 1], f, day, freezePeriod, t)
        + (if Active(h, f, day, freezePeriod) && h.tokenType == t then h.num else 0)
  }

  /** Sum of the amounts of the active rows of type t that sat in the other farm. */
  function ActiveOppositeTotal(rows: seq<Holding>, f: Flag, day: int, freezePeriod: int, t: string): int
  {
    if |rows| == 0 then 0
    else
      var h := rows[|rows| - 1];
      ActiveOppositeTotal(rows[..|rows| - 1], f, day, freezePeriod, t)
        + (if Active(h, f, day, freezePeriod) && h.In(Opposite(f)) && h.tokenType == t then h.num else 0)
  }

  /** Sum of the amounts of all active rows. */
  function ActiveSum(rows: seq<Holding>, f: Flag, day: int, freezePeriod: int): int
  {
    if |rows| == 0 then 0
    else
      var h := rows[|rows| - 1];
      ActiveSum(rows[..|rows| - 1], f, day, freezePeriod) + (if Active(h, f, day, freezePeriod) then h.num else 0)
  }

  /** Sum of the amounts of all active rows that sat in the other farm. */
  function ActiveOppositeSum(rows: seq<Holding>, f: Flag, day: int, freezePeriod: int): int
  {
    if |rows| == 0 then 0
    else
      var h := rows[|rows| - 1];
      ActiveOppositeSum(rows[..|rows| - 1], f, day, freezePeriod)
        + (if Active(h, f, day, freezePeriod) && h.In(Opposite(f)) then h.num else 0)
  }

  /** The per-type amounts handed to the target farm's add_tokens. */
  function ActiveTotals(rows: seq<Holding>, types: seq<string>, f: Flag, day: int, freezePeriod: int)
    : (m: map<string, int>)
    ensures m.Keys == set t | t in types
  {
    map t | t in types :: ActiveTotal(rows, f, day, freezePeriod, t)
  }

  /** The per-type amounts handed to the other farm's remove_tokens. */
  function ActiveOppositeTotals(rows: seq<Holding>, types: seq<string>, f: Flag, day: int, freezePeriod: int)
    : (m: map<string, int>)
    ensures m.Keys == set t | t in types
  {
    map t | t in types :: ActiveOppositeTotal(rows, f, day, freezePeriod, t)
  }

  /** Integer amounts as the numbers a farm's add_tokens takes. */
  function AsAmounts(m: map<string, int>): (a: map<string, real>)
    ensures a.Keys == m.Keys
  {
    map t | t in m :: m[t] as real
  }

  /** A farm row gains exactly the integer amount of its type: int() changes nothing here. */
  lemma AsAmountsGain(types: seq<string>, m: map<string, int>, r: int)
    requires 0 <= r < |types|
    ensures Farms.Gain(types, AsAmounts(m), r) == if types[r] in m then m[types[r]] else 0
  {
    if types[r] in m {
      Farms.TruncWhole(m[types[r]]);
    }
  }

  /**
   * Per-type aggregation of the moved rows: for every configured token type,
   * the total of the active rows and of the active rows that left the other farm.
   */
  method AggregateActive(rows: seq<Holding>, types: seq<string>, f: Flag, day: int, freezePeriod: int)
    returns (active: map<string, int>, opposite: map<string, int>)
    ensures active == ActiveTotals(rows, types, f, day, freezePeriod)
    ensures opposite == ActiveOppositeTotals(rows, types, f, day, freezePeriod)
  {
    active, opposite := map[], map[];
    for k := 0 to |types|
      invariant active == ActiveTotals(rows, types[..k], f, day, freezePeriod)
      invariant opposite == ActiveOppositeTotals(rows, types[..k], f, day, freezePeriod)
    {
      var group := types[k];
      assert types[..k + 1] == types[..k] + [group];
      active := active[group := ActiveTotal(rows, f, day, freezePeriod, group)];
      opposite := opposite[group := ActiveOppositeTotal(rows, f, day, freezePeriod, group)];
    }
    assert types[..|types|] == types;
  }

  /** After a transfer into the farm of f, the investor's amount there has grown by the moved amounts. */
  lemma {:induction false} DepositedIntoTarget(rows: seq<Holding>, f: Flag, day: int, freezePeriod: int)
    ensures Deposited(Transferred(rows, f, day, freezePeriod), f, day)
      == Deposited(rows, f, day) + ActiveSum(rows, f, day, freezePeriod)
    decreases |rows|
  {
    if |rows| > 0 {
      var n := |rows| - 1;
      var moved := Transferred(rows, f, day, freezePeriod);
      assert moved[..n] == Transferred(rows[..n], f, day, freezePeriod);
      DepositedIntoTarget(rows[..n], f, day, freezePeriod);
      if Active(rows[n], f, day, freezePeriod) {
        assert moved[n] == Moved(rows[n], f, day);
      } else {
        assert moved[n] == rows[n];
      }
    }
  }

  /**
   * After a transfer into the farm of f, the investor's amount in the other
   * farm has shrunk by the moved amounts that sat there.
   */
  lemma {:induction false} WithdrawnFromOpposite(rows: seq<Holding>, f: Flag, day: int, freezePeriod: int)
    ensures Deposited(Transferred(rows, f, day, freezePeriod), Opposite(f), day)
      == Deposited(rows, Opposite(f), day) - ActiveOppositeSum(rows, f, day, freezePeriod)
    decreases |rows|
  {
    if |rows| > 0 {
      var n := |rows| - 1;
      var moved := Transferred(rows, f, day, freezePeriod);
      assert moved[..n] == Transferred(rows[..n], f, day, freezePeriod);
      WithdrawnFromOpposite(rows[..n], f, day, freezePeriod);
      if Active(rows[n], f, day, freezePeriod) {
        assert moved[n] == Moved(rows[n], f, day);
        assert !moved[n].In(Opposite(f));
      } else {
        assert moved[n] == rows[n];
      }
    }
  }

  /**
   * After a transfer into the farm of f, the investor's amount in that farm
   * (as of `day`) has grown by the amounts of all moved rows, and its amount
   * in the other farm has shrunk by the amounts of the moved rows that were there.
   */
  lemma DepositedAfterTransfer(rows: seq<Holding>, f: Flag, day: int, freezePeriod: int)
    ensures Deposited(Transferred(rows, f, day, freezePeriod), f, day)
      == Deposited(rows, f, day) + ActiveSum(rows, f, day, freezePeriod)
    ensures Deposited(Transferred(rows, f, day, freezePeriod), Opposite(f), day)
      == Deposited(rows, Opposite(f), day) - ActiveOppositeSum(rows, f, day, freezePeriod)
  {
    DepositedIntoTarget(rows, f, day, freezePeriod);
    WithdrawnFromOpposite(rows, f, day, freezePeriod);
  }

  /** No token type is listed twice. */
  predicate Distinct(types: seq<string>)
  {
    forall i, j :: 0 <= i < j < |types| ==> types[i] != types[j]
  }

  /** Every row's token type is one of the listed types. */
  predicate RowsTyped(rows: seq<Holding>, types: seq<string>)
  {
    forall i :: 0 <= i < |rows| ==> rows[i].tokenType in types
  }

  /**
   * Over distinct types, an amount x booked against the one type t and 0
   * against every other type adds up to x.
   */
  lemma OneTypeSum(types: seq<string>, t: string, x: int, inc: seq<int>)
    requires Distinct(types) && t in types
    requires |inc| == |types|
    requires forall k :: 0 <= k < |types| ==> inc[k] == if types[k] == t then x else 0
    ensures Sum(inc) == x
  {
    var j :| 0 <= j < |types| && types[j] == t;
    SumOneNonzero(inc, j, x);
  }

  /** The amount each listed type hands to the target farm, in list order. */
  lemma {:induction false} ActiveSumOverTypes(rows: seq<Holding>, f: Flag, day: int, freezePeriod: int, types: seq<string>)
    requires Distinct(types) && RowsTyped(rows, types)
    ensures ActiveSum(rows, f, day, freezePeriod)
      == Sum(seq(|types|, k requires 0 <= k < |types| => ActiveTotal(rows, f, day, freezePeriod, types[k])))
    decreases |rows|
  {
    var cur := seq(|types|, k requires 0 <= k < |types| => ActiveTotal(rows, f, day, freezePeriod, types[k]));
    if |rows| == 0 {
      ZeroSum(cur);
    } else {
      var n := |rows| - 1;
      var h := rows[n];
      var x := if Active(h, f, day, freezePeriod) then h.num else 0;
      var prev := seq(|types|, k requires 0 <= k < |types| => ActiveTotal(rows[..n], f, day, freezePeriod, types[k]));
      var inc := seq(|types|, k requires 0 <= k < |types| => if types[k] == h.tokenType then x else 0);
      ActiveSumOverTypes(rows[..n], f, day, freezePeriod, types);
      SumPointwise(prev, inc, cur);
      OneTypeSum(types, h.tokenType, x, inc);
    }
  }

  /** The amount each listed type takes from the other farm, in list order. */
  lemma {:induction false} ActiveOppositeSumOverTypes(rows: seq<Holding>, f: Flag, day: int, freezePeriod: int, types: seq<string>)
    requires Distinct(types) && RowsTyped(rows, types)
    ensures ActiveOppositeSum(rows, f, day, freezePeriod)
      == Sum(seq(|types|, k requires 0 <= k < |types| => ActiveOppositeTotal(rows, f, day, freezePeriod, types[k])))
    decreases |rows|
  {
    var cur := seq(|types|, k requires 0 <= k < |types| => ActiveOppositeTotal(rows, f, day, freezePeriod, types[k]));
    if |rows| == 0 {
      ZeroSum(cur);
    } else {
      var n := |rows| - 1;
      var h := rows[n];
      var x := if Active(h, f, day, freezePeriod) && h.In(Opposite(f)) then h.num else 0;
      var prev := seq(|types|, k requires 0 <= k < |types| => ActiveOppositeTotal(rows[..n], f, day, freezePeriod, types[k]));
      var inc := seq(|types|, k requires 0 <= k < |types| => if types[k] == h.tokenType then x else 0);
      ActiveOppositeSumOverTypes(rows[..n], f, day, freezePeriod, types);
      SumPointwise(prev, inc, cur);
      OneTypeSum(types, h.tokenType, x, inc);
    }
  }

  /**
   * For a farm whose rows are the investor's distinct token types, the farm
   * rows gain, in total, exactly the moved amounts.
   */
  lemma TargetGainByTypes(rows: seq<Holding>, f: Flag, day: int, freezePeriod: int, types: seq<string>)
    requires Distinct(types) && RowsTyped(rows, types)
    ensures Sum(Farms.Gains(types, AsAmounts(ActiveTotals(rows, types, f, day, freezePeriod))))
      == ActiveSum(rows, f, day, freezePeriod)
  {
    var active := ActiveTotals(rows, types, f, day, freezePeriod);
    var perType := seq(|types|, k requires 0 <= k < |types| => ActiveTotal(rows, f, day, freezePeriod, types[k]));
    forall k | 0 <= k < |types|
      ensures Farms.Gains(types, AsAmounts(active))[k] == perType[k]
    {
      AsAmountsGain(types, active, k);
    }
    ActiveSumOverTypes(rows, f, day, freezePeriod, types);
    SumSame(perType, Farms.Gains(types, AsAmounts(active)));
  }

  /**
   * For a farm whose rows are the investor's distinct token types, the
   * remove_tokens of a transfer takes from its rows, in total, exactly the
   * moved amounts that sat in it.
   */
  lemma OppositeLossByTypes(rows: seq<Holding>, f: Flag, day: int, freezePeriod: int, types: seq<string>)
    requires Distinct(types) && RowsTyped(rows, types)
    ensures Sum(Farms.Gains(types, Farms.Negated(AsAmounts(ActiveOppositeTotals(rows, types, f, day, freezePeriod)))))
      == -ActiveOppositeSum(rows, f, day, freezePeriod)
  {
    var opposite := ActiveOppositeTotals(rows, types, f, day, freezePeriod);
    var perType := seq(|types|, k requires 0 <= k < |types| => ActiveOppositeTotal(rows, f, day, freezePeriod, types[k]));
    var removed := Farms.Gains(types, Farms.Negated(AsAmounts(opposite)));
    var zeros := seq(|types|, k => 0);
    forall k | 0 <= k < |types|
      ensures zeros[k] == removed[k] + perType[k]
    {
      Farms.TruncNegate(opposite[types[k]] as real);
      Farms.TruncWhole(opposite[types[k]]);
    }
    ActiveOppositeSumOverTypes(rows, f, day, freezePeriod, types);
    SumPointwise(removed, perType, zeros);
    ZeroSum(zeros);
  }

  /**
   * A transfer moves as many tokens as it books: on the transfer day the
   * target farm's total grows by exactly what the investor's amount in that
   * farm grows by, and the other farm's total drops by exactly what the
   * investor's amount there drops by, when both farms' rows are the
   * investor's distinct token types.
   */
  lemma TransferBalances(rows: seq<Holding>, f: Flag, day: int, freezePeriod: int, types: seq<string>,
                         t: seq<seq<int>>, u: seq<seq<int>>, cols: nat)
    requires Distinct(types) && RowsTyped(rows, types)
    requires Farms.IsTable(t, cols) && Farms.IsTable(u, cols) && |t| == |u| == |types| && 1 <= day <= cols
    ensures Farms.DayTotal(Farms.Added(t, cols, types, AsAmounts(ActiveTotals(rows, types, f, day, freezePeriod)), day), cols, day)
      - Farms.DayTotal(t, cols, day)
      == Deposited(Transferred(rows, f, day, freezePeriod), f, day) - Deposited(rows, f, day)
    ensures Farms.DayTotal(Farms.Added(u, cols, types,
              Farms.Negated(AsAmounts(ActiveOppositeTotals(rows, types, f, day, freezePeriod))), day), cols, day)
      - Farms.DayTotal(u, cols, day)
      == Deposited(Transferred(rows, f, day, freezePeriod), Opposite(f), day) - Deposited(rows, Opposite(f), day)
  {
    TargetGainByTypes(rows, f, day, freezePeriod, types);
    OppositeLossByTypes(rows, f, day, freezePeriod, types);
    DepositedAfterTransfer(rows, f, day, freezePeriod);
    Farms.AddedTotals(t, cols, types, AsAmounts(ActiveTotals(rows, types, f, day, freezePeriod)), day, day);
    Farms.AddedTotals(u, cols, types, Farms.Negated(AsAmounts(ActiveOppositeTotals(rows, types, f, day, freezePeriod))), day, day);
  }

  /**
   * An investor of cohort `group` ('Seed' and 48 months when the source is
   * given none): its risk coefficient, its activity
   * coefficient (drawn by random() in the source, given here), the token
   * types of the configuration, and its holdings table.
   */
  class Investor {
    const group: string
    const riskCoefficient: real
    const activityCoefficient: real
    const tokenTypes: seq<string>
    const holdings: array<Holding>

    /** Builds the table of a new investor; the cohort must be a configured token type. */
    constructor (group: string, tokenTypes: seq<string>, numMonths: nat, riskCoefficient: real, activityCoefficient: real)
      requires group in tokenTypes
      ensures this.group == group && this.tokenTypes == tokenTypes
      ensures this.riskCoefficient == riskCoefficient && this.activityCoefficient == activityCoefficient
      ensures fresh(holdings)
      ensures holdings[..] == InitialHoldings(group, numMonths)
    {
      this.group := group;
      this.tokenTypes := tokenTypes;
      this.riskCoefficient := riskCoefficient;
      this.activityCoefficient := activityCoefficient;
      var rows := InitialHoldings(group, numMonths);
      holdings := new Holding[|rows|](i requires 0 <= i < |rows| => rows[i]);
    }

    /** Investor(...) with its check: a cohort that is not a configured token type is refused. */
    static method Create(group: string, tokenTypes: seq<string>, numMonths: nat, riskCoefficient: real, activityCoefficient: real)
      returns (r: Option<Investor>)
      ensures r.None? <==> group !in tokenTypes
      ensures r.Some? ==> fresh(r.value) && fresh(r.value.holdings)
      ensures r.Some? ==> r.value.group == group && r.value.tokenTypes == tokenTypes
      ensures r.Some? ==> r.value.riskCoefficient == riskCoefficient && r.value.activityCoefficient == activityCoefficient
      ensures r.Some? ==> r.value.holdings[..] == InitialHoldings(group, numMonths)
    {
      if group !in tokenTypes {
        return None;
      }
      var investor := new Investor(group, tokenTypes, numMonths, riskCoefficient, activityCoefficient);
      return Some(investor);
    }

    /** add_tokens: every row bought on `day` gains the non-zero amount given for its type. */
    method AddTokens(amounts: map<string, int>, day: int)
      modifies holdings
      ensures holdings[..] == Granted(old(holdings[..]), amounts, day)
    {
      ghost var before := holdings[..];
      var todo := amounts.Keys;
      ghost var done: set<string> := {};
      while todo != {}
        invariant todo + done == amounts.Keys && todo !! done
        invariant forall i :: 0 <= i < holdings.Length ==>
          holdings[i] == if before[i].purchaseDay == day && before[i].tokenType in done
                         then before[i].(num := before[i].num + amounts[before[i].tokenType])
                         else before[i]
        decreases todo
      {
        var group :| group in todo;
        var numTokens := amounts[group];
        if numTokens != 0 {
          forall i | 0 <= i < holdings.Length && holdings[i].purchaseDay == day && holdings[i].tokenType == group {
            holdings[i] := holdings[i].(num := holdings[i].num + numTokens);
          }
        }
        todo := todo - {group};
        done := done + {group};
      }
    }

    /** get_tokens_amount: the investor's tokens in `farm` among rows bought by `day`. */
    function TokensAmount(farm: Farms.Farm, day: int): (amount: int)
      reads holdings
      ensures farm.farmType == "DivFarm" ==> amount == Deposited(holdings[..], DivFarmFlag, day)
      ensures farm.farmType != "DivFarm" ==> amount == Deposited(holdings[..], SbPoolFlag, day)
    {
      Deposited(holdings[..], QueryFlag(farm.farmType), day)
    }

    /**
     * transfer_active_tokens: the active rows move into `farm`; `farm` gains
     * their per-type totals and `oppositeFarm` loses the per-type totals of
     * those that sat in it.
     */
    method TransferActiveTokens(farm: Farms.Farm, oppositeFarm: Farms.Farm, day: int, freezePeriod: int)
      requires farm.Valid() && oppositeFarm.Valid() && farm.tokens != oppositeFarm.tokens
      requires farm.HasDay(day) && oppositeFarm.HasDay(day)
      modifies holdings, farm.tokens, oppositeFarm.tokens
      ensures holdings[..] == Transferred(old(holdings[..]), TransferFlag(farm.farmType), day, freezePeriod)
      ensures FlagsExclusive(old(holdings[..])) ==> FlagsExclusive(holdings[..])
      ensures farm.Table() == Farms.Added(old(farm.Table()), farm.Cols(), farm.types,
        AsAmounts(ActiveTotals(old(holdings[..]), tokenTypes, TransferFlag(farm.farmType), day, freezePeriod)), day)
      ensures oppositeFarm.Table() == Farms.Added(old(oppositeFarm.Table()), oppositeFarm.Cols(), oppositeFarm.types,
        Farms.Negated(AsAmounts(ActiveOppositeTotals(old(holdings[..]), tokenTypes, TransferFlag(farm.farmType), day, freezePeriod))), day)
    {
      var f := TransferFlag(farm.farmType);
      var rows := holdings[..];
      forall i | 0 <= i < holdings.Length && Active(holdings[i], f, day, freezePeriod) {
        holdings[i] := Moved(holdings[i], f, day);
      }
      assert holdings[..] == Transferred(rows, f, day, freezePeriod);
      if FlagsExclusive(rows) {
        TransferKeepsFlagsExclusive(rows, f, day, freezePeriod);
      }
      var active, opposite := AggregateActive(rows, tokenTypes, f, day, freezePeriod);
      farm.AddTokens(AsAmounts(active), day);
      oppositeFarm.RemoveTokens(AsAmounts(opposite), day);
    }
  }
}
