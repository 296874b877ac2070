/** The savings-goal form (src/components/GoalFormModal.tsx): validation
    of the name and target and the choice between adding and updating. */
module GoalForm {
  import opened Collections
  import opened Entities
  import opened FormInput

  /** The fields `addGoal` and `updateGoal` receive. */
  datatype GoalDraft = GoalDraft(name: string, targetAmount: real, allocationPercentage: real)

  datatype GoalSubmit = NoSubmit | SaveGoal(draft: GoalDraft) | UpdateGoal(id: Id, draft: GoalDraft)

  /** `handleSubmit`: nothing for a blank name or a target that is not a
      positive number; an unreadable allocation is 0; an update only when
      editing and an update handler was given. */
  function Submit(name: string, parsedTarget: Option<real>, parsedAllocation: Option<real>,
                  editing: Option<Goal>, hasOnUpdate: bool): (o: GoalSubmit)
    ensures o.NoSubmit? <==> Trim(name) == "" || OrZero(parsedTarget) <= 0.0
    ensures o.UpdateGoal? <==> !o.NoSubmit? && editing.Some? && hasOnUpdate
    ensures o.UpdateGoal? ==> o.id == editing.value.id
    ensures !o.NoSubmit? ==>
      && o.draft.name == Trim(name)
      && o.draft.targetAmount == OrZero(parsedTarget) > 0.0
      && o.draft.allocationPercentage == OrZero(parsedAllocation)
  {
    var trimmedName := Trim(name);
    var target := OrZero(parsedTarget);
    var allocation := OrZero(parsedAllocation);
    if trimmedName == "" || target <= 0.0 then NoSubmit
    else
      var d := GoalDraft(trimmedName, target, allocation);
      if editing.Some? && hasOnUpdate then UpdateGoal(editing.value.id, d) else SaveGoal(d)
  }

  /** A name of white space only is refused, whatever the other fields. */
  lemma BlankNameRefused(name: string, parsedTarget: Option<real>, parsedAllocation: Option<real>,
                         editing: Option<Goal>, hasOnUpdate: bool)
    requires forall k :: 0 <= k < |name| ==> IsWhitespace(name[k])
    ensures Submit(name, parsedTarget, parsedAllocation, editing, hasOnUpdate).NoSubmit?
  {
    TrimEmpty(name);
  }

  /** Saving an edited goal without touching the fields sends its own
      values back when its name carries no surrounding white space. */
  lemma UnchangedEditRoundTrip(goal: Goal)
    requires goal.targetAmount > 0.0 && |goal.name| > 0
    requires !IsWhitespace(goal.name[0]) && !IsWhitespace(goal.name[|goal.name| - 1])
    ensures Submit(goal.name, Some(goal.targetAmount), Some(goal.allocationPercentage), Some(goal), true)
         == UpdateGoal(goal.id, GoalDraft(goal.name, goal.targetAmount, goal.allocationPercentage))
  {
    TrimKeepsTrimmed(goal.name);
  }
}
