/** The savings-goals page: totals over all goals, the clamped progress of
    each goal and of all of them, and the create and contribute handlers. */
module Savings {
  import opened Common

  datatype Goal = Goal(id: int, name: string, category: string, targetAmount: real,
                       currentAmount: real, description: string)

  function Saved(g: Goal): real { g.currentAmount }
  function Target(g: Goal): real { g.targetAmount }

  /** The sum of `currentAmount` over all goals. */
  function TotalSaved(goals: seq<Goal>): real { SumOf(goals, Saved) }

  /** The sum of `targetAmount` over all goals. */
  function TotalTarget(goals: seq<Goal>): real { SumOf(goals, Target) }

  /** Percentage of `target` reached by `saved`, capped at 100. */
  function CappedPercent(saved: real, target: real): (p: real)
    requires target > 0.0
    ensures p <= 100.0
    ensures saved <= target ==> p * target == saved * 100.0
    ensures saved >= target ==> p == 100.0
    ensures saved >= 0.0 ==> p >= 0.0
  {
    Min((saved / target) * 100.0, 100.0)
  }

  /** The progress of one goal: 0 without a positive target, otherwise the
      capped share of the target already saved. */
  function GoalPercent(g: Goal): (p: real)
    ensures p <= 100.0
    ensures g.targetAmount <= 0.0 ==> p == 0.0
    ensures g.targetAmount > 0.0 && g.currentAmount >= 0.0 ==> p >= 0.0
    ensures g.targetAmount > 0.0 && g.currentAmount >= g.targetAmount ==> p == 100.0
    ensures g.targetAmount > 0.0 && g.currentAmount <= g.targetAmount ==>
              p * g.targetAmount == g.currentAmount * 100.0
  {
    if g.targetAmount > 0.0 then CappedPercent(g.currentAmount, g.targetAmount) else 0.0
  }

  /** The overall bar: drawn only when the total target is positive, with the
      capped share of the total target saved. */
  function OverallBar(goals: seq<Goal>): (bar: Option<real>)
    ensures bar.Some? <==> TotalTarget(goals) > 0.0
    ensures bar.Some? ==> bar.value <= 100.0
  {
    if TotalTarget(goals) > 0.0 then Some(CappedPercent(TotalSaved(goals), TotalTarget(goals))) else None
  }

  /** When every goal has reached its target and some target is positive,
      the overall bar is full. */
  lemma {:induction false} AllReachedFillsBar(goals: seq<Goal>)
    requires forall i :: 0 <= i < |goals| ==> goals[i].currentAmount >= goals[i].targetAmount
    requires TotalTarget(goals) > 0.0
    ensures OverallBar(goals) == Some(100.0)
  {
    SumOfMonotone(goals, Target, Saved);
  }

  /** Adding a goal adds its amounts to both totals. */
  lemma {:induction false} TotalsAdd(goals: seq<Goal>, g: Goal)
    ensures TotalSaved(goals + [g]) == TotalSaved(goals) + g.currentAmount
    ensures TotalTarget(goals + [g]) == TotalTarget(goals) + g.targetAmount
  {
    SumOfAppend(goals, [g], Saved);
    SumOfAppend(goals, [g], Target);
    assert [g][..0] == [];
  }

  /** The new-goal form; the target is the text typed into the number field. */
  datatype GoalForm = GoalForm(name: string, category: string, targetAmount: string, description: string)

  const EmptyGoalForm := GoalForm("", "emergency", "", "")

  /** "Create" is disabled while saving or until a name and a target are typed. */
  predicate CreateDisabled(saving: bool, form: GoalForm) {
    saving || form.name == "" || form.targetAmount == ""
  }

  /** "Contribute" is disabled while saving or until an amount is typed. */
  predicate ContributeDisabled(saving: bool, amount: string) {
    saving || amount == ""
  }

  /** The posted new goal; `targetText` is what `parseFloat` reads. */
  datatype NewGoalRequest = NewGoalRequest(name: string, category: string, targetText: string, description: string)

  /** A contribution to goal `goalId`; `amountText` is what `parseFloat` reads. */
  datatype ContributeRequest = ContributeRequest(goalId: int, amountText: string)

  /** The list endpoint's reply: `{goals: [...]}`, a bare array, or an empty body. */
  datatype GoalsReply = Envelope(goals: seq<Goal>) | GoalArray(list: seq<Goal>) | NullBody

  /** `d?.goals || d || []`. */
  function GoalsOf(reply: GoalsReply): (gs: seq<Goal>)
    ensures reply.Envelope? ==> gs == reply.goals
    ensures reply.GoalArray? ==> gs == reply.list
    ensures reply.NullBody? ==> gs == []
  {
    match reply
    case Envelope(goals) => goals
    case GoalArray(list) => list
    case NullBody => []
  }

  class SavingsPage {
    var goals: seq<Goal>
    var showForm: bool
    var form: GoalForm
    var contModal: Option<Goal>
    var contAmount: string
    var saving: bool

    constructor ()
      ensures goals == [] && !showForm && form == EmptyGoalForm && contModal == None
      ensures contAmount == "" && !saving
    {
      goals, showForm, form, contModal, contAmount, saving := [], false, EmptyGoalForm, None, "", false;
    }

    /** Loading: a reply replaces the goals, a failed request keeps them. */
    method Load(reply: Option<GoalsReply>)
      modifies this
      ensures reply.Some? ==> goals == GoalsOf(reply.value)
      ensures reply.None? ==> goals == old(goals)
      ensures showForm == old(showForm) && form == old(form) && contModal == old(contModal)
      ensures contAmount == old(contAmount) && saving == old(saving)
    {
      if reply.Some? {
        goals := GoalsOf(reply.value);
      }
    }

    /** "+ Add" on a goal opens the contribute dialog with an empty amount. */
    method OpenContribute(g: Goal)
      modifies this
      ensures contModal == Some(g) && contAmount == ""
      ensures goals == old(goals) && showForm == old(showForm) && form == old(form) && saving == old(saving)
    {
      contModal := Some(g);
      contAmount := "";
    }

    /** Creates a goal from the form. On success the form closes and is reset
        and the list is reloaded; on failure everything but `saving` stays. */
    method HandleSave(ok: bool) returns (request: NewGoalRequest, reload: bool)
      modifies this
      ensures request == NewGoalRequest(old(form).name, old(form).category,
                                        old(form).targetAmount, old(form).description)
      ensures reload <==> ok
      ensures ok ==> !showForm && form == EmptyGoalForm && CreateDisabled(saving, form)
      ensures !ok ==> showForm == old(showForm) && form == old(form)
      ensures !saving
      ensures goals == old(goals) && contModal == old(contModal) && contAmount == old(contAmount)
    {
      saving := true;
      request := NewGoalRequest(form.name, form.category, form.targetAmount, form.description);
      reload := false;
      if ok {
        showForm := false;
        form := EmptyGoalForm;
        reload := true;
      }
      saving := false;
    }

    /** Contributes the typed amount to the goal in the dialog. Without a goal
        in the dialog nothing is sent and nothing changes. On success the
        dialog closes, the amount is cleared and the list is reloaded. */
    method HandleContribute(ok: bool) returns (request: Option<ContributeRequest>, reload: bool)
      modifies this
      ensures old(contModal).None? ==> request == None && !reload
                                       && contModal == old(contModal) && contAmount == old(contAmount)
                                       && saving == old(saving)
      ensures old(contModal).Some? ==>
                request == Some(ContributeRequest(old(contModal).value.id, old(contAmount)))
                && (reload <==> ok) && !saving
      ensures old(contModal).Some? && ok ==> contModal == None && contAmount == ""
                                             && ContributeDisabled(saving, contAmount)
      ensures old(contModal).Some? && !ok ==> contModal == old(contModal) && contAmount == old(contAmount)
      ensures goals == old(goals) && showForm == old(showForm) && form == old(form)
    {
      request, reload := None, false;
      if contModal.None? {
        return;
      }
      saving := true;
      request := Some(ContributeRequest(contModal.value.id, contAmount));
      if ok {
        contModal := None;
        contAmount := "";
        reload := true;
      }
      saving := false;
    }

    /** "Del" asks for confirmation; once given, the goal is deleted and the
        list reloaded whether or not the deletion succeeded. */
    method HandleDelete(id: int, confirmed: bool) returns (deleteId: Option<int>, reload: bool)
      ensures confirmed ==> deleteId == Some(id) && reload
      ensures !confirmed ==> deleteId == None && !reload
    {
      if !confirmed {
        return None, false;
      }
      deleteId, reload := Some(id), true;
    }
  }
}
