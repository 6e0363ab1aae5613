/** The account transfers of chapter01/src/unsafe_transfer/main.cc.

    `unsafe_transfer` and `safe_transfer` differ only in that the second holds
    a mutex around the whole body; run one call at a time they do the same
    thing, and the one-second sleep inside them is left out.  A balance is a
    `std::atomic<int>` passed by reference, modelled as an object holding an
    integer, so the two references may be the same account. */
module Transfers {

  /** A `std::atomic<int>` balance, read and written as a plain integer. */
  class Account {
    var balance: int

    constructor (initial: int)
      ensures balance == initial
    {
      balance := initial;
    }
  }

  /** `unsafe_transfer`: moves `money` from `src` to `dst` exactly when
      `money < src` (so never the whole balance, and with no check that
      `money` is non-negative); otherwise nothing changes.  The sum of the two
      balances is the same afterwards in both branches, also when `src` and
      `dst` are the same account. */
  method UnsafeTransfer(src: Account, dst: Account, money: int) returns (ok: bool)
    modifies src, dst
    ensures ok <==> money < old(src.balance)
    ensures src != dst && ok ==>
      src.balance == old(src.balance) - money && dst.balance == old(dst.balance) + money
    ensures !ok ==> src.balance == old(src.balance) && dst.balance == old(dst.balance)
    ensures src == dst ==> src.balance == old(src.balance)
    ensures src.balance + dst.balance == old(src.balance) + old(dst.balance)
  {
    if money < src.balance {
      src.balance := src.balance - money;
      dst.balance := dst.balance + money;
      ok := true;
    } else {
      ok := false;
    }
  }

  /** `safe_transfer`: the same guarded move, under a lock that is a no-op
      when calls do not overlap. */
  method SafeTransfer(src: Account, dst: Account, money: int) returns (ok: bool)
    modifies src, dst
    ensures ok <==> money < old(src.balance)
    ensures src != dst && ok ==>
      src.balance == old(src.balance) - money && dst.balance == old(dst.balance) + money
    ensures !ok ==> src.balance == old(src.balance) && dst.balance == old(dst.balance)
    ensures src == dst ==> src.balance == old(src.balance)
    ensures src.balance + dst.balance == old(src.balance) + old(dst.balance)
  {
    ok := UnsafeTransfer(src, dst, money);
  }

  /** `safe_transfer_test` with its two threads run one after the other:
      from 100/0, the first transfer of 60 succeeds and the second, with 40
      left, is refused; the accounts end at 40/60. */
  method SafeTransferTest() returns (first: bool, second: bool, mine: int, yours: int)
    ensures first && !second
    ensures mine == 40 && yours == 60
  {
    var myAccount := new Account(100);
    var yourAccount := new Account(0);
    first := SafeTransfer(myAccount, yourAccount, 60);
    second := SafeTransfer(myAccount, yourAccount, 60);
    mine, yours := myAccount.balance, yourAccount.balance;
  }

  /** Nothing rejects a negative amount: from 0/100, a transfer of -50 is
      accepted (-50 < 0) and moves 50 from `dst` into `src`. */
  method NegativeAmountScenario() returns (ok: bool, src: int, dst: int)
    ensures ok
    ensures src == 50 && dst == 50
  {
    var a := new Account(0);
    var b := new Account(100);
    ok := SafeTransfer(a, b, -50);
    src, dst := a.balance, b.balance;
  }

  /** A transfer of exactly the balance is refused: `money < src` is strict. */
  method WholeBalanceScenario() returns (ok: bool, src: int, dst: int)
    ensures !ok
    ensures src == 60 && dst == 0
  {
    var a := new Account(60);
    var b := new Account(0);
    ok := SafeTransfer(a, b, 60);
    src, dst := a.balance, b.balance;
  }
}
