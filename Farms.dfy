/**
 * The farm ledger (models/farms.py): a table of integer token balances with
 * one row per token type and one column per day 1 .. numDays + 4.
 */
module Farms {
  import opened Common

  /** The table carries this many days beyond the horizon. */
  const EXTRA_DAYS: nat := 4

  /** Python's int() on a number: truncation toward zero. */
  function Trunc(x: real): (n: int)
    ensures 0.0 <= x ==> n as real <= x < n as real + 1.0
    ensures x < 0.0 ==> n as real - 1.0 < x <= n as real
  {
    if x >= 0.0 then x.Floor else -((-x).Floor)
  }

  /** int() is odd: truncating a negated amount negates the truncation. */
  lemma TruncNegate(x: real)
    ensures Trunc(-x) == -Trunc(x)
  {
  }

  /** int() leaves whole amounts as they are. */
  lemma TruncWhole(n: int)
    ensures Trunc(n as real) == n
  {
  }

  /** What add_tokens adds to row r: int(amount) of its type, 0 for a type it is not given. */
  function Gain(types: seq<string>, amounts: map<string, real>, r: int): int
    requires 0 <= r < |types|
  {
    if types[r] in amounts then Trunc(amounts[types[r]]) else 0
  }

  /** The gains of all rows, in row order. */
  function Gains(types: seq<string>, amounts: map<string, real>): (g: seq<int>)
    ensures |g| == |types|
    ensures forall r :: 0 <= r < |types| ==> g[r] == Gain(types, amounts, r)
  {
    seq(|types|, r requires 0 <= r < |types| => Gain(types, amounts, r))
  }

  /** The same amounts with the sign flipped (what remove_tokens is given to add). */
  function Negated(amounts: map<string, real>): (m: map<string, real>)
    ensures m.Keys == amounts.Keys
    ensures forall g :: g in amounts ==> m[g] == -amounts[g]
  {
    map g | g in amounts :: -amounts[g]
  }

  // ---------------------------------------------------------------------
  // The table as a value: t[r][c] is the balance of row r on day c + 1.
  // ---------------------------------------------------------------------

  /** Every row of t has one entry per day column. */
  predicate IsTable(t: seq<seq<int>>, cols: nat)
  {
    forall r :: 0 <= r < |t| ==> |t[r]| == cols
  }

  /** A table of zeros. */
  function ZeroTable(rows: nat, cols: nat): (t: seq<seq<int>>)
    ensures |t| == rows && IsTable(t, cols)
  {
    seq(rows, r => seq(cols, c => 0))
  }

  /** The balances of all rows on the day held in column c. */
  function Column(t: seq<seq<int>>, cols: nat, c: int): (col: seq<int>)
    requires IsTable(t, cols) && 0 <= c < cols
    ensures |col| == |t|
  {
    seq(|t|, r requires 0 <= r < |t| => t[r][c])
  }

  /** Total of all token types on a day. */
  function DayTotal(t: seq<seq<int>>, cols: nat, day: int): int
    requires IsTable(t, cols) && 1 <= day <= cols
  {
    Sum(Column(t, cols, day - 1))
  }

  /** The table after add_tokens(amounts, day). */
  function Added(t: seq<seq<int>>, cols: nat, types: seq<string>, amounts: map<string, real>, day: int)
    : (t': seq<seq<int>>)
    requires IsTable(t, cols) && |types| == |t| && 1 <= day <= cols
    ensures |t'| == |t| && IsTable(t', cols)
  {
    seq(|t|, r requires 0 <= r < |t| => t[r][day - 1 := t[r][day - 1] + Gain(types, amounts, r)])
  }

  /** The table after update(day): column day + 1 takes the balances of column day. */
  function Carried(t: seq<seq<int>>, cols: nat, day: int): (t': seq<seq<int>>)
    requires IsTable(t, cols) && 1 <= day && day + 1 <= cols
    ensures |t'| == |t| && IsTable(t', cols)
  {
    seq(|t|, r requires 0 <= r < |t| => t[r][day := t[r][day - 1]])
  }

  /** A new farm holds nothing of any type on any day. */
  lemma ZeroTableEmpty(rows: nat, cols: nat, day: int)
    requires 1 <= day <= cols
    ensures forall r, c :: 0 <= r < rows && 0 <= c < cols ==> ZeroTable(rows, cols)[r][c] == 0
    ensures DayTotal(ZeroTable(rows, cols), cols, day) == 0
  {
    ZeroSum(Column(ZeroTable(rows, cols), cols, day - 1));
  }

  /**
   * add_tokens changes exactly the cells of `day` whose type it is given, by
   * int() of the amount; all other cells keep their balances.
   */
  lemma AddedCells(t: seq<seq<int>>, cols: nat, types: seq<string>, amounts: map<string, real>, day: int)
    requires IsTable(t, cols) && |types| == |t| && 1 <= day <= cols
    ensures forall r, c :: 0 <= r < |t| && 0 <= c < cols ==>
      Added(t, cols, types, amounts, day)[r][c]
        == t[r][c] + (if c == day - 1 && types[r] in amounts then Trunc(amounts[types[r]]) else 0)
  {
  }

  /** Amounts that truncate to 0, or keys that name no row, leave the table as it was. */
  lemma AddedNothing(t: seq<seq<int>>, cols: nat, types: seq<string>, amounts: map<string, real>, day: int)
    requires IsTable(t, cols) && |types| == |t| && 1 <= day <= cols
    requires forall g :: g in amounts && g in types ==> Trunc(amounts[g]) == 0
    ensures Added(t, cols, types, amounts, day) == t
  {
    var t' := Added(t, cols, types, amounts, day);
    forall r | 0 <= r < |t|
      ensures t'[r] == t[r]
    {
      assert Gain(types, amounts, r) == 0;
    }
  }

  /**
   * get_tokens_amount on the day of an add grows by the sum of the gains of
   * all rows; every other day keeps its total.
   */
  lemma {:induction false} AddedTotals(t: seq<seq<int>>, cols: nat, types: seq<string>, amounts: map<string, real>, day: int, d: int)
    requires IsTable(t, cols) && |types| == |t| && 1 <= day <= cols && 1 <= d <= cols
    ensures DayTotal(Added(t, cols, types, amounts, day), cols, d)
      == DayTotal(t, cols, d) + (if d == day then Sum(Gains(types, amounts)) else 0)
  {
    var t' := Added(t, cols, types, amounts, day);
    if d == day {
      SumPointwise(Column(t, cols, d - 1), Gains(types, amounts), Column(t', cols, d - 1));
    } else {
      SumSame(Column(t, cols, d - 1), Column(t', cols, d - 1));
    }
  }

  /** remove_tokens, taken as the add of negated amounts, undoes add_tokens of the same amounts. */
  lemma RemoveUndoesAdd(t: seq<seq<int>>, cols: nat, types: seq<string>, amounts: map<string, real>, day: int)
    requires IsTable(t, cols) && |types| == |t| && 1 <= day <= cols
    ensures Added(Added(t, cols, types, amounts, day), cols, types, Negated(amounts), day) == t
  {
    var t1 := Added(t, cols, types, amounts, day);
    var t2 := Added(t1, cols, types, Negated(amounts), day);
    forall r | 0 <= r < |t|
      ensures t2[r] == t[r]
    {
      if types[r] in amounts {
        TruncNegate(amounts[types[r]]);
      }
    }
  }

  /** update(day) copies day into day + 1 and touches no other day. */
  lemma CarriedCells(t: seq<seq<int>>, cols: nat, day: int)
    requires IsTable(t, cols) && 1 <= day && day + 1 <= cols
    ensures forall r, c :: 0 <= r < |t| && 0 <= c < cols ==>
      Carried(t, cols, day)[r][c] == (if c == day then t[r][day - 1] else t[r][c])
  {
  }

  /** Updating twice is updating once. */
  lemma CarriedIdempotent(t: seq<seq<int>>, cols: nat, day: int)
    requires IsTable(t, cols) && 1 <= day && day + 1 <= cols
    ensures Carried(Carried(t, cols, day), cols, day) == Carried(t, cols, day)
  {
    var t1 := Carried(t, cols, day);
    var t2 := Carried(t1, cols, day);
    forall r | 0 <= r < |t|
      ensures t2[r] == t1[r]
    {
      assert t1[r][day - 1] == t[r][day - 1];
    }
  }

  /** After update(day) the totals of day and day + 1 agree; other days keep theirs. */
  lemma {:induction false} CarriedTotals(t: seq<seq<int>>, cols: nat, day: int, d: int)
    requires IsTable(t, cols) && 1 <= day && day + 1 <= cols && 1 <= d <= cols
    ensures DayTotal(Carried(t, cols, day), cols, day + 1) == DayTotal(Carried(t, cols, day), cols, day)
    ensures d != day + 1 ==> DayTotal(Carried(t, cols, day), cols, d) == DayTotal(t, cols, d)
  {
    var t' := Carried(t, cols, day);
    SumSame(Column(t', cols, day - 1), Column(t', cols, day));
    if d != day + 1 {
      SumSame(Column(t, cols, d - 1), Column(t', cols, d - 1));
    }
  }

  /**
   * A farm: its kind ('SbPool' by default, or 'DivFarm'), its horizon in days
   * (60 * 30 by default), the token types of
   * the configuration, one per row, and its balances, tokens[r, c] being the
   * balance of types[r] on day c + 1.
   */
  class Farm {
    const farmType: string
    const types: seq<string>
    const numDays: nat
    const tokens: array2<int>

    /** The table has one row per token type and numDays + 4 day columns. */
    ghost predicate Valid()
    {
      tokens.Length0 == |types| && tokens.Length1 == numDays + EXTRA_DAYS
    }

    /** Days that have a column in the table. */
    predicate HasDay(day: int)
    {
      1 <= day <= numDays + EXTRA_DAYS
    }

    /** Number of day columns. */
    function Cols(): nat
    {
      numDays + EXTRA_DAYS
    }

    /** The balances as a value. */
    ghost function Table(): (t: seq<seq<int>>)
      reads tokens
      requires Valid()
      ensures |t| == |types| && IsTable(t, Cols())
      ensures forall r, c :: 0 <= r < |types| && 0 <= c < Cols() ==> t[r][c] == tokens[r, c]
    {
      seq(tokens.Length0, r requires 0 <= r < tokens.Length0 reads tokens =>
        seq(tokens.Length1, c requires 0 <= c < tokens.Length1 reads tokens => tokens[r, c]))
    }

    /** A farm of the given kind with zero balances on every day 1 .. numDays + 4. */
    constructor (farmType: string, types: seq<string>, numDays: nat)
      ensures Valid() && fresh(tokens)
      ensures this.farmType == farmType && this.types == types && this.numDays == numDays
      ensures Table() == ZeroTable(|types|, numDays + EXTRA_DAYS)
    {
      this.farmType := farmType;
      this.types := types;
      this.numDays := numDays;
      tokens := new int[|types|, numDays + EXTRA_DAYS]((r, c) => 0);
      new;
      forall r | 0 <= r < |types|
        ensures Table()[r] == ZeroTable(|types|, numDays + EXTRA_DAYS)[r]
      {
      }
    }

    /** Sum of column c over the first n rows. */
    function ColumnSum(c: int, n: nat): (s: int)
      reads tokens
      requires Valid() && 0 <= c < Cols() && n <= |types|
      ensures s == Sum(Column(Table(), Cols(), c)[..n])
    {
      if n == 0 then 0
      else
        assert Column(Table(), Cols(), c)[..n][..n - 1] == Column(Table(), Cols(), c)[..n - 1];
        ColumnSum(c, n - 1) + tokens[n - 1, c]
    }

    /** get_tokens_amount: the total of all token types on `day`. */
    function TokensAmount(day: int): (amount: int)
      reads tokens
      requires Valid() && HasDay(day)
      ensures amount == DayTotal(Table(), Cols(), day)
    {
      assert Column(Table(), Cols(), day - 1)[..|types|] == Column(Table(), Cols(), day - 1);
      ColumnSum(day - 1, |types|)
    }

    /**
     * add_tokens: for every key, int() of its amount is added, when not 0,
     * to the `day` balance of every row of that type.
     */
    method AddTokens(amounts: map<string, real>, day: int)
      requires Valid() && HasDay(day)
      modifies tokens
      ensures Valid()
      ensures Table() == Added(old(Table()), Cols(), types, amounts, day)
      ensures TokensAmount(day) == old(TokensAmount(day)) + Sum(Gains(types, amounts))
    {
      ghost var before := Table();
      var todo := amounts.Keys;
      ghost var done: set<string> := {};
      while todo != {}
        invariant todo + done == amounts.Keys && todo !! done
        invariant forall r, c :: 0 <= r < |types| && 0 <= c < Cols() ==>
          tokens[r, c] == before[r][c] + (if c == day - 1 && types[r] in done then Trunc(amounts[types[r]]) else 0)
        decreases todo
      {
        var group :| group in todo;
        var numTokens := Trunc(amounts[group]);
        if numTokens != 0 {
          forall r | 0 <= r < tokens.Length0 && types[r] == group {
            tokens[r, day - 1] := tokens[r, day - 1] + numTokens;
          }
        }
        todo := todo - {group};
        done := done + {group};
      }
      AddedCells(before, Cols(), types, amounts, day);
      ghost var after := Added(before, Cols(), types, amounts, day);
      forall r | 0 <= r < |types|
        ensures Table()[r] == after[r]
      {
      }
      AddedTotals(before, Cols(), types, amounts, day, day);
    }

    /**
     * remove_tokens, called by Investor.transfer_active_tokens but absent from
     * the Farm class: taken to be add_tokens of the negated amounts.
     */
    method RemoveTokens(amounts: map<string, real>, day: int)
      requires Valid() && HasDay(day)
      modifies tokens
      ensures Valid()
      ensures Table() == Added(old(Table()), Cols(), types, Negated(amounts), day)
      ensures forall r :: 0 <= r < |types| ==>
        tokens[r, day - 1] == old(tokens[r, day - 1]) - Gain(types, amounts, r)
    {
      AddTokens(Negated(amounts), day);
      forall r | 0 <= r < |types|
        ensures Gain(types, Negated(amounts), r) == -Gain(types, amounts, r)
      {
        if types[r] in amounts {
          TruncNegate(amounts[types[r]]);
        }
      }
    }

    /** update: the balances of `day` become those of `day + 1`. */
    method Update(day: int)
      requires Valid() && HasDay(day) && HasDay(day + 1)
      modifies tokens
      ensures Valid()
      ensures Table() == Carried(old(Table()), Cols(), day)
      ensures TokensAmount(day + 1) == TokensAmount(day)
    {
      ghost var before := Table();
      forall r | 0 <= r < tokens.Length0 {
        tokens[r, day] := tokens[r, day - 1];
      }
      CarriedCells(before, Cols(), day);
      ghost var after := Carried(before, Cols(), day);
      forall r | 0 <= r < |types|
        ensures Table()[r] == after[r]
      {
      }
      CarriedTotals(before, Cols(), day, day);
    }
  }
}
