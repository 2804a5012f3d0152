/**
 * The accounts page: the all-time totals, the expenses summed per bank, and the two inline
 * editors (cash in hand and one account's balance) whose saves are handed to the application.
 */
module AccountsPage {
  import opened Wrappers
  import opened Domain
  import opened Ledger
  import opened FinanceEngine

  const UnknownBankName := "Bilinmeyen"

  /** `exp.bank || 'Bilinmeyen'`: a missing or empty bank counts as the unknown bank. */
  function BankOf(t: Transaction): (b: string)
    ensures b == UnknownBankName <==> t.bank.None? || t.bank.value == "" || t.bank.value == UnknownBankName
    ensures b != UnknownBankName ==> t.bank == Some(b)
  {
    if t.bank.Some? && t.bank.value != "" then t.bank.value else UnknownBankName
  }

  /** Each expense as a (bank, amount) pair, in input order. */
  function ByBank(xs: seq<Transaction>): (pairs: seq<(string, real)>)
    ensures |pairs| == |xs|
    ensures forall i :: 0 <= i < |xs| ==> pairs[i] == (BankOf(xs[i]), xs[i].amount)
  {
    if |xs| == 0 then [] else ByBank(xs[..|xs| - 1]) + [(BankOf(xs[|xs| - 1]), xs[|xs| - 1].amount)]
  }

  /** `expensesByBank`: the amounts summed per bank, banks in order of first appearance. */
  function ExpensesByBank(xs: seq<Transaction>): Tally<string> {
    TallyOf(ByBank(xs))
  }

  /** The expenses booked under a bank. */
  function OfBank(xs: seq<Transaction>, b: string): (r: seq<Transaction>)
    ensures forall t :: t in r <==> t in xs && BankOf(t) == b
  {
    if |xs| == 0 then []
    else
      var init := xs[..|xs| - 1];
      var last := xs[|xs| - 1];
      assert xs == init + [last];
      OfBank(init, b) + (if BankOf(last) == b then [last] else [])
  }

  lemma {:induction false} BankAmount(xs: seq<Transaction>, b: string)
    ensures AmountFor(ByBank(xs), b) == Sum(OfBank(xs, b))
  {
    if |xs| > 0 {
      var init := xs[..|xs| - 1];
      var last := xs[|xs| - 1];
      BankAmount(init, b);
      var pairs := ByBank(xs);
      assert pairs[..|pairs| - 1] == ByBank(init);
      assert OfBank(xs, b) == OfBank(init, b) + (if BankOf(last) == b then [last] else []);
      SumAppend(OfBank(init, b), if BankOf(last) == b then [last] else []);
    }
  }

  /** Each bank's entry is the sum of the expenses booked under it (0 for a bank with none). */
  lemma BankValue(xs: seq<Transaction>, b: string)
    ensures Get(ExpensesByBank(xs), b) == Sum(OfBank(xs, b))
  {
    TallyValue(ByBank(xs), b);
    BankAmount(xs, b);
  }

  /** The per-bank breakdown lists each bank once and adds up to the page's `totalExpense`. */
  lemma BankBreakdownTotal(incomes: seq<Transaction>, expenses: seq<Transaction>)
    ensures var t := ExpensesByBank(expenses);
            && (forall i, j :: 0 <= i < j < |t.keys| ==> t.keys[i] != t.keys[j])
            && SumOver(t.keys, t.totals) == CalculateTotals(incomes, expenses).totalExpense
  {
    TallyKeys(ByBank(expenses));
    TallyTotal(ByBank(expenses));
    PairsTotal(expenses, ByBank(expenses));
  }

  /** The accounts with the balance of the one at `idx` set (`{ ...accounts[idx], balance }`). */
  function WithBalance(accounts: seq<Account>, idx: nat, balance: real): (r: seq<Account>)
    requires idx < |accounts|
    ensures |r| == |accounts| && r[idx] == accounts[idx].(balance := Some(balance))
    ensures forall i :: 0 <= i < |accounts| && i != idx ==> r[i] == accounts[i]
  {
    accounts[idx := accounts[idx].(balance := Some(balance))]
  }

  class AccountsEditor {
    var editingCash: bool
    var tempCash: NumText
    var editingAccountIdx: Option<nat>
    var tempAccountBalance: NumText

    /** The editors start closed, the cash field holding the current cash, the balance field 0. */
    constructor(cash: real)
      ensures !editingCash && tempCash == Numeral(cash)
      ensures editingAccountIdx.None? && tempAccountBalance == Numeral(0.0)
    {
      editingCash := false;
      tempCash := Numeral(cash);
      editingAccountIdx := None;
      tempAccountBalance := Numeral(0.0);
    }

    /** `handleCashSave()`: the typed cash (0 when empty) goes to the application when it listens;
      * the cash editor closes either way. */
    method CashSave(listening: bool) returns (handed: Option<real>)
      modifies this
      ensures handed == (if listening then Some(old(tempCash).OrZero()) else None)
      ensures !editingCash && tempCash == old(tempCash)
      ensures editingAccountIdx == old(editingAccountIdx) && tempAccountBalance == old(tempAccountBalance)
    {
      handed := if listening then Some(tempCash.OrZero()) else None;
      editingCash := false;
    }

    /** `handleAccountSave(idx)`: a copy of the accounts in which only the account at `idx` has the
      * typed balance (0 when empty) goes to the application when it listens; the editor closes. */
    method AccountSave(idx: nat, accounts: seq<Account>, listening: bool) returns (handed: Option<seq<Account>>)
      requires idx < |accounts|
      modifies this
      ensures handed == (if listening then Some(WithBalance(accounts, idx, old(tempAccountBalance).OrZero())) else None)
      ensures editingAccountIdx.None?
      ensures editingCash == old(editingCash) && tempCash == old(tempCash)
      ensures tempAccountBalance == old(tempAccountBalance)
    {
      if listening {
        handed := Some(WithBalance(accounts, idx, tempAccountBalance.OrZero()));
      } else {
        handed := None;
      }
      editingAccountIdx := None;
    }
  }
}
