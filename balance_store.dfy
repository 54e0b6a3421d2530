/**
 * The user's balance: a store whose value is never below zero. `setBalance`
 * ignores negative values and persists the others; `adjustBalance` clamps
 * at zero and does not persist.
 */
module BalanceStore {
  import opened Numbers
  import opened Wrappers

  /** The initial value of `balance` */
  const InitialBalance: Num := Finite(0.0)

  /** The balance after `setBalance(x)` */
  function AfterSet(b: Num, x: Num): (r: Num)
    ensures IsNegative(x) ==> r == b
    ensures !IsNegative(x) ==> r == x
    ensures !IsNegative(b) ==> !IsNegative(r)
  {
    if IsNegative(x) then b else x
  }

  /** The balance after `adjustBalance(amount)` */
  function AfterAdjust(b: Num, amount: Num): (r: Num)
    ensures !IsNegative(r)
    ensures b.Finite? && amount.Finite? ==>
      r == Finite(if b.value + amount.value < 0.0 then 0.0 else b.value + amount.value)
    ensures !IsNegative(Add(b, amount)) ==> r == Add(b, amount)
    ensures IsNegative(Add(b, amount)) ==> r == Finite(0.0)
  {
    var newBalance := Add(b, amount);
    if IsNegative(newBalance) then Finite(0.0) else newBalance
  }

  datatype BalanceOp = SetTo(value: Num) | AdjustBy(amount: Num)

  function Step(b: Num, op: BalanceOp): Num {
    match op
    case SetTo(x) => AfterSet(b, x)
    case AdjustBy(a) => AfterAdjust(b, a)
  }

  function Run(b: Num, ops: seq<BalanceOp>): Num
    decreases |ops|
  {
    if ops == [] then b else Run(Step(b, ops[0]), ops[1..])
  }

  /** Starting from a balance that is not negative, no sequence of calls makes it negative */
  lemma {:induction false} RunNeverNegative(b: Num, ops: seq<BalanceOp>)
    requires !IsNegative(b)
    ensures !IsNegative(Run(b, ops))
    decreases |ops|
  {
    if ops != [] {
      RunNeverNegative(Step(b, ops[0]), ops[1..]);
    }
  }

  /** From the initial balance of 0, the balance is never negative */
  lemma FromInitialNeverNegative(ops: seq<BalanceOp>)
    ensures !IsNegative(Run(InitialBalance, ops))
  {
    RunNeverNegative(InitialBalance, ops);
  }

  /**
   * The `balance` store. `stored` is the record under the key `balance`; its
   * string form is represented by the number it spells.
   */
  class Balance {
    var balance: Num
    var stored: Option<Num>

    ghost predicate Valid()
      reads this
    {
      !IsNegative(balance)
    }

    /** The store starts at 0; whatever record is already stored stays */
    constructor (record: Option<Num>)
      ensures Valid()
      ensures balance == InitialBalance && stored == record
    {
      balance := InitialBalance;
      stored := record;
    }

    /** `setBalance` */
    method SetBalance(newBalance: Num)
      requires Valid()
      modifies this
      ensures Valid()
      ensures IsNegative(newBalance) ==> balance == old(balance) && stored == old(stored)
      ensures !IsNegative(newBalance) ==> balance == newBalance && stored == Some(newBalance)
      ensures balance == AfterSet(old(balance), newBalance)
    {
      if IsNegative(newBalance) {
        return;
      }
      stored := Some(newBalance);
      balance := newBalance;
    }

    /** `adjustBalance`: only the in-memory balance changes */
    method AdjustBalance(amount: Num)
      modifies this`balance
      ensures Valid()
      ensures balance == AfterAdjust(old(balance), amount)
      ensures stored == old(stored)
    {
      var newBalance := Add(balance, amount);
      balance := if IsNegative(newBalance) then Finite(0.0) else newBalance;
    }
  }
}
