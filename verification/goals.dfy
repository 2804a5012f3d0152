/**
 * The savings-goals page: the list of goals (kept in the browser's storage), the form that adds a
 * goal, deletion, and deposits into the selected goal with the "goal reached" celebration.
 */
module Goals {
  import opened Wrappers
  import opened Domain

  /** The add-goal form: a title and the texts of the target and starting-amount fields. */
  datatype GoalForm = GoalForm(title: string, target: NumText, current: NumText)

  const EmptyForm: GoalForm := GoalForm("", Blank, Blank)

  /** `goals.filter(g => g.id !== id)`. */
  function WithoutGoal(goals: seq<Goal>, id: int): (r: seq<Goal>)
    ensures forall g :: g in r <==> g in goals && g.id != id
    ensures |r| <= |goals|
  {
    if |goals| == 0 then []
    else
      var rest := WithoutGoal(goals[1..], id);
      assert forall g :: g in goals <==> g == goals[0] || g in goals[1..];
      if goals[0].id != id then [goals[0]] + rest else rest
  }

  /** The filter keeps the other goals in their order: it distributes over concatenation, and
    * leaves a list without that id as it was. */
  lemma {:induction false} WithoutGoalAppend(a: seq<Goal>, b: seq<Goal>, id: int)
    ensures WithoutGoal(a + b, id) == WithoutGoal(a, id) + WithoutGoal(b, id)
  {
    if |a| > 0 {
      assert (a + b)[1..] == a[1..] + b;
      WithoutGoalAppend(a[1..], b, id);
    } else {
      assert a + b == b;
    }
  }

  lemma {:induction false} WithoutAbsentGoal(goals: seq<Goal>, id: int)
    requires forall g :: g in goals ==> g.id != id
    ensures WithoutGoal(goals, id) == goals
  {
    if |goals| > 0 {
      assert goals[0] in goals;
      assert forall g :: g in goals[1..] ==> g in goals;
      WithoutAbsentGoal(goals[1..], id);
    }
  }

  /** Deleting a goal that was just added (under an id no other goal has) restores the list. */
  lemma DeleteAfterAdd(goals: seq<Goal>, g: Goal)
    requires forall h :: h in goals ==> h.id != g.id
    ensures WithoutGoal(goals + [g], g.id) == goals
  {
    WithoutGoalAppend(goals, [g], g.id);
    WithoutAbsentGoal(goals, g.id);
    assert WithoutGoal([g], g.id) == [];
  }

  /** The goals after `amount` is deposited into the goal with `id` (`goals.map(...)`): only the
    * saved amount of the goals with that id changes, by the amount. */
  function Deposited(goals: seq<Goal>, id: int, amount: real): (r: seq<Goal>)
    ensures |r| == |goals|
    ensures forall i :: 0 <= i < |goals| ==> r[i] == goals[i].(current := r[i].current)
    ensures forall i :: 0 <= i < |goals| ==>
              r[i].current == goals[i].current + (if goals[i].id == id then amount else 0.0)
  {
    seq(|goals|, i requires 0 <= i < |goals| =>
      if goals[i].id == id then goals[i].(current := goals[i].current + amount) else goals[i])
  }

  /** A deposit crosses a goal's target: the goal had not reached it and now has. */
  predicate Celebrates(goals: seq<Goal>, id: int, amount: real) {
    exists i :: 0 <= i < |goals| && goals[i].id == id
                && goals[i].current + amount >= goals[i].target && goals[i].current < goals[i].target
  }

  /** The amount saved over all goals. */
  function Saved(goals: seq<Goal>): real {
    if |goals| == 0 then 0.0 else Saved(goals[..|goals| - 1]) + goals[|goals| - 1].current
  }

  /** The number of goals with the id. */
  function CountId(goals: seq<Goal>, id: int): nat {
    if |goals| == 0 then 0 else CountId(goals[..|goals| - 1], id) + (if goals[|goals| - 1].id == id then 1 else 0)
  }

  /** The amount a deposit credits over the goals: once per goal with the id. */
  function Credited(goals: seq<Goal>, id: int, amount: real): real {
    if |goals| == 0 then 0.0
    else Credited(goals[..|goals| - 1], id, amount) + (if goals[|goals| - 1].id == id then amount else 0.0)
  }

  lemma {:induction false} DepositCredit(goals: seq<Goal>, id: int, amount: real)
    ensures Saved(Deposited(goals, id, amount)) == Saved(goals) + Credited(goals, id, amount)
  {
    if |goals| > 0 {
      var init := goals[..|goals| - 1];
      var r := Deposited(goals, id, amount);
      assert r[..|r| - 1] == Deposited(init, id, amount);
      DepositCredit(init, id, amount);
    }
  }

  lemma {:induction false} CreditCount(goals: seq<Goal>, id: int, amount: real)
    ensures Credited(goals, id, amount) == amount * CountId(goals, id) as real
  {
    if |goals| > 0 {
      var init := goals[..|goals| - 1];
      CreditCount(init, id, amount);
      ScaleStep(amount, CountId(init, id), goals[|goals| - 1].id == id);
    }
  }

  /** Counting one more goal adds the amount once more. */
  lemma ScaleStep(amount: real, n: nat, more: bool)
    ensures amount * (n + (if more then 1 else 0)) as real == amount * n as real + (if more then amount else 0.0)
  {
  }

  /** A deposit adds its amount to the saved total once for each goal with the id (once, when ids
    * are unique), and nothing when no goal has it. */
  lemma DepositTotal(goals: seq<Goal>, id: int, amount: real)
    ensures Saved(Deposited(goals, id, amount)) == Saved(goals) + amount * CountId(goals, id) as real
  {
    DepositCredit(goals, id, amount);
    CreditCount(goals, id, amount);
  }

  /** Withdrawing what was deposited restores every goal. */
  lemma DepositUndone(goals: seq<Goal>, id: int, amount: real)
    ensures Deposited(Deposited(goals, id, amount), id, -amount) == goals
  {
    var r := Deposited(Deposited(goals, id, amount), id, -amount);
    assert forall i :: 0 <= i < |goals| ==> r[i] == goals[i];
  }

  class GoalsPage {
    var goals: seq<Goal>
    var showForm: bool
    var newGoal: GoalForm
    var selectedGoal: Option<Goal>
    var depositAmount: NumText

    /** The page as it opens: the saved goals (none when nothing is saved), no form, no deposit. */
    constructor(saved: Option<seq<Goal>>)
      ensures goals == saved.GetOr([])
      ensures !showForm && newGoal == EmptyForm && selectedGoal.None? && depositAmount == Blank
    {
      goals := saved.GetOr([]);
      showForm := false;
      newGoal := EmptyForm;
      selectedGoal := None;
      depositAmount := Blank;
    }

    /**
     * `handleAddGoal()` at the moment `nowMs`: without a title or a target the user is alerted
     * and nothing changes; otherwise one goal is appended (its starting amount 0 when the field is
     * empty) and the form is reset and closed.
     */
    method AddGoal(nowMs: int) returns (refused: bool)
      modifies this
      ensures refused <==> old(newGoal).title == "" || old(newGoal).target.Blank?
      ensures refused ==> goals == old(goals) && newGoal == old(newGoal) && showForm == old(showForm)
      ensures !refused ==>
                goals == old(goals) + [Goal(nowMs, old(newGoal).title, old(newGoal).target.value, old(newGoal).current.OrZero(), false)]
                && newGoal == EmptyForm && !showForm
      ensures selectedGoal == old(selectedGoal) && depositAmount == old(depositAmount)
    {
      if newGoal.title == "" || newGoal.target.Blank? {
        return true;
      }
      var goal := Goal(nowMs, newGoal.title, newGoal.target.value, newGoal.current.OrZero(), false);
      goals := goals + [goal];
      newGoal := EmptyForm;
      showForm := false;
      refused := false;
    }

    /** `handleDelete(id)` with the user's answer to the confirmation. */
    method Delete(id: int, confirmed: bool)
      modifies this
      ensures goals == if confirmed then WithoutGoal(old(goals), id) else old(goals)
      ensures showForm == old(showForm) && newGoal == old(newGoal)
      ensures selectedGoal == old(selectedGoal) && depositAmount == old(depositAmount)
    {
      if confirmed {
        goals := WithoutGoal(goals, id);
      }
    }

    /**
     * `handleDeposit()`: without an amount or a selected goal nothing happens; otherwise the
     * amount is added to the goal with the selected goal's id, the user is congratulated when that
     * reaches the target, and the selection and the amount are cleared.
     */
    method Deposit() returns (celebrated: bool)
      modifies this
      ensures old(depositAmount).Blank? || old(selectedGoal).None? ==>
                !celebrated && goals == old(goals) && selectedGoal == old(selectedGoal)
                && depositAmount == old(depositAmount)
      ensures old(depositAmount).Numeral? && old(selectedGoal).Some? ==>
                var id, amount := old(selectedGoal).value.id, old(depositAmount).value;
                && goals == Deposited(old(goals), id, amount)
                && (celebrated <==> Celebrates(old(goals), id, amount))
                && selectedGoal.None? && depositAmount == Blank
      ensures showForm == old(showForm) && newGoal == old(newGoal)
    {
      if depositAmount.Blank? || selectedGoal.None? {
        return false;
      }
      var id, amount := selectedGoal.value.id, depositAmount.value;
      celebrated := Celebrates(goals, id, amount);
      goals := Deposited(goals, id, amount);
      selectedGoal := None;
      depositAmount := Blank;
    }
  }
}
