/**
 * The goal ledger of the Goals page: a list of savings goals with
 * creation from a form, deletion, completion, contributions, progress
 * and the totals shown in the summary cards.
 */
module Goals {
  import opened Seqs
  import opened Text

  datatype Priority = High | Medium | Low
  datatype GoalStatus = Active | Completed | Paused

  datatype Goal = Goal(
    id: int,
    title: string,
    description: string,
    targetAmount: real,
    currentAmount: real,
    targetDate: string,
    category: string,
    priority: Priority,
    status: GoalStatus)

  /** The "Create New Goal" dialog. */
  datatype GoalForm = GoalForm(
    title: string,
    description: string,
    targetAmount: NumberInput,
    targetDate: string,
    category: string,
    priority: Priority)

  /** The form passes validation: title, target amount and target date
      are all filled in. Nothing else is checked. */
  predicate Accepts(form: GoalForm)
  {
    form.title != "" && form.targetAmount.Entered? && form.targetDate != ""
  }

  /** Create a goal: rejected forms leave the list alone; an accepted
      form appends one fresh, empty, active goal numbered `|goals| + 1`. */
  function AddGoal(goals: seq<Goal>, form: GoalForm): (r: seq<Goal>)
    ensures !Accepts(form) ==> r == goals
    ensures Accepts(form) ==>
      && |r| == |goals| + 1
      && r[..|goals|] == goals
      && r[|goals|].id == |goals| + 1
      && r[|goals|].currentAmount == 0.0
      && r[|goals|].status == Active
      && r[|goals|].targetAmount == form.targetAmount.value
      && r[|goals|].title == form.title
      && r[|goals|].description == form.description
      && r[|goals|].targetDate == form.targetDate
      && r[|goals|].category == form.category
      && r[|goals|].priority == form.priority
  {
    if !Accepts(form) then goals
    else
      var g := Goal(|goals| + 1, form.title, form.description, form.targetAmount.value,
                    0.0, form.targetDate, form.category, form.priority, Active);
      assert (goals + [g])[..|goals|] == goals;
      goals + [g]
  }

  /** Delete every goal carrying `id`, keeping the others in order. */
  function DeleteGoal(goals: seq<Goal>, id: int): (r: seq<Goal>)
    ensures forall g :: g in r <==> g in goals && g.id != id
    ensures forall g: Goal :: g.id != id ==> multiset(r)[g] == multiset(goals)[g]
    ensures IsSubsequence(r, goals)
  {
    Filter(goals, (g: Goal) => g.id != id)
  }

  /** The goal after "Mark Complete". */
  function Complete(g: Goal): Goal
  {
    g.(status := Completed, currentAmount := g.targetAmount)
  }

  /** "Mark Complete" on every goal carrying `id`. */
  function MarkComplete(goals: seq<Goal>, id: int): (r: seq<Goal>)
    ensures |r| == |goals|
    ensures forall i :: 0 <= i < |goals| && goals[i].id != id ==> r[i] == goals[i]
    ensures forall i :: 0 <= i < |goals| && goals[i].id == id ==>
      && r[i].status == Completed
      && r[i].currentAmount == r[i].targetAmount
      && r[i].(status := goals[i].status, currentAmount := goals[i].currentAmount) == goals[i]
  {
    seq(|goals|, i requires 0 <= i < |goals| =>
      if goals[i].id == id then Complete(goals[i]) else goals[i])
  }

  /** One goal after a contribution of `amount`: the saved amount is
      capped at the target, and reaching the target completes the goal. */
  function Contribute(g: Goal, amount: real): (r: Goal)
    ensures r.currentAmount <= g.targetAmount
    ensures r.currentAmount == g.currentAmount + amount || r.currentAmount == g.targetAmount
    ensures r.currentAmount == g.targetAmount <==> g.currentAmount + amount >= g.targetAmount
    ensures r.status == Completed <==> g.currentAmount + amount >= g.targetAmount || g.status == Completed
    ensures g.currentAmount + amount < g.targetAmount ==> r.status == g.status
    ensures r.(currentAmount := g.currentAmount, status := g.status) == g
  {
    var sum := g.currentAmount + amount;
    g.(currentAmount := if sum < g.targetAmount then sum else g.targetAmount,
       status := if sum >= g.targetAmount then Completed else g.status)
  }

  /** A contribution to every goal carrying `id`; other goals stay as they were. */
  function AddContribution(goals: seq<Goal>, id: int, amount: real): (r: seq<Goal>)
    ensures |r| == |goals|
    ensures forall i :: 0 <= i < |goals| && goals[i].id != id ==> r[i] == goals[i]
    ensures forall i :: 0 <= i < |goals| && goals[i].id == id ==> r[i] == Contribute(goals[i], amount)
  {
    seq(|goals|, i requires 0 <= i < |goals| =>
      if goals[i].id == id then Contribute(goals[i], amount) else goals[i])
  }

  /** Once a goal is full, further non-negative contributions change
      nothing but its status. */
  lemma ContributeAtTarget(g: Goal, amount: real)
    requires g.currentAmount == g.targetAmount
    requires amount >= 0.0
    ensures Contribute(g, amount) == g.(status := Completed)
  {
  }

  /** The percentage shown on a goal card: `min(current / target * 100, 100)`.
      JavaScript divides by zero to Infinity or NaN; that case is not modelled. */
  function Progress(current: real, target: real): (p: real)
    requires target != 0.0
    ensures p <= 100.0
    ensures target > 0.0 && current >= 0.0 ==> 0.0 <= p
    ensures target > 0.0 ==> (p == 100.0 <==> current >= target)
    ensures target > 0.0 && current < target ==> p * target == current * 100.0
  {
    var raw := current / target * 100.0;
    assert target > 0.0 ==> (raw >= 100.0 <==> current >= target) by {
      if target > 0.0 {
        assert raw == current * 100.0 / target;
        assert current == raw * target / 100.0;
      }
    }
    if raw < 100.0 then raw else 100.0
  }

  lemma ProgressMonotone(c1: real, c2: real, target: real)
    requires target > 0.0
    requires c1 <= c2
    ensures Progress(c1, target) <= Progress(c2, target)
  {
    assert c1 / target <= c2 / target;
  }

  const MillisPerDay: int := 1000 * 60 * 60 * 24

  /** `Math.ceil((target - now) / msPerDay)` for two instants given in
      milliseconds; the date parsing and the clock are the caller's. The
      card shows "N days left" exactly when the result is positive, that
      is, when the target instant is still ahead, and "Overdue" otherwise. */
  function DaysRemaining(targetMillis: int, nowMillis: int): (days: int)
    ensures (days - 1) * MillisPerDay < targetMillis - nowMillis <= days * MillisPerDay
    ensures days > 0 <==> targetMillis > nowMillis
  {
    -((nowMillis - targetMillis) / MillisPerDay)
  }

  function ActiveGoals(goals: seq<Goal>): (r: seq<Goal>)
    ensures forall g :: g in r <==> g in goals && g.status == Active
    ensures forall g :: multiset(r)[g] == if g.status == Active then multiset(goals)[g] else 0
    ensures IsSubsequence(r, goals)
  {
    Filter(goals, (g: Goal) => g.status == Active)
  }

  function CompletedGoals(goals: seq<Goal>): (r: seq<Goal>)
    ensures forall g :: g in r <==> g in goals && g.status == Completed
    ensures forall g :: multiset(r)[g] == if g.status == Completed then multiset(goals)[g] else 0
    ensures IsSubsequence(r, goals)
  {
    Filter(goals, (g: Goal) => g.status == Completed)
  }

  function PausedGoals(goals: seq<Goal>): seq<Goal>
  {
    Filter(goals, (g: Goal) => g.status == Paused)
  }

  /** "Total Saved": the saved amounts of the active goals only. */
  function TotalSaved(goals: seq<Goal>): real
  {
    Sum(ActiveGoals(goals), (g: Goal) => g.currentAmount)
  }

  /** "Target Amount": the targets of the active goals only. */
  function TotalTarget(goals: seq<Goal>): real
  {
    Sum(ActiveGoals(goals), (g: Goal) => g.targetAmount)
  }

  /** The active and completed sections never show the same goal, and
      together with the paused goals they account for every goal. */
  lemma {:induction false} StatusPartition(goals: seq<Goal>)
    ensures forall g :: !(g in ActiveGoals(goals) && g in CompletedGoals(goals))
    ensures |ActiveGoals(goals)| + |CompletedGoals(goals)| + |PausedGoals(goals)| == |goals|
  {
    if |goals| > 0 {
      StatusPartition(goals[1..]);
    }
  }

  /** No goal has saved more than its target. */
  ghost predicate WithinTarget(goals: seq<Goal>)
  {
    forall g :: g in goals ==> g.currentAmount <= g.targetAmount
  }

  lemma SavedAtMostTarget(goals: seq<Goal>)
    requires WithinTarget(goals)
    ensures TotalSaved(goals) <= TotalTarget(goals)
  {
    var active := ActiveGoals(goals);
    assert forall i :: 0 <= i < |active| ==> active[i] in goals;
    SumMonotone(active, (g: Goal) => g.currentAmount, (g: Goal) => g.targetAmount);
  }

  lemma ContributionKeepsWithinTarget(goals: seq<Goal>, id: int, amount: real)
    requires WithinTarget(goals)
    ensures WithinTarget(AddContribution(goals, id, amount))
  {
    var r := AddContribution(goals, id, amount);
    forall g | g in r
      ensures g.currentAmount <= g.targetAmount
    {
      var i :| 0 <= i < |r| && r[i] == g;
      assert goals[i] in goals;
    }
  }

  lemma MarkCompleteKeepsWithinTarget(goals: seq<Goal>, id: int)
    requires WithinTarget(goals)
    ensures WithinTarget(MarkComplete(goals, id))
  {
    var r := MarkComplete(goals, id);
    forall g | g in r
      ensures g.currentAmount <= g.targetAmount
    {
      var i :| 0 <= i < |r| && r[i] == g;
      assert goals[i] in goals;
    }
  }

  /** Creation keeps the invariant when the entered target is not negative
      (the form itself does not check the sign). */
  lemma AddGoalKeepsWithinTarget(goals: seq<Goal>, form: GoalForm)
    requires WithinTarget(goals)
    requires form.targetAmount.Entered? ==> form.targetAmount.value >= 0.0
    ensures WithinTarget(AddGoal(goals, form))
  {
  }

  /** Creating a goal adds its target to "Target Amount" and leaves
      "Total Saved" where it was. */
  lemma AddGoalTotals(goals: seq<Goal>, form: GoalForm)
    requires Accepts(form)
    ensures TotalTarget(AddGoal(goals, form)) == TotalTarget(goals) + form.targetAmount.value
    ensures TotalSaved(AddGoal(goals, form)) == TotalSaved(goals)
  {
    var r := AddGoal(goals, form);
    var g := r[|goals|];
    assert r == goals + [g];
    var active := (x: Goal) => x.status == Active;
    FilterAppend(goals, [g], active);
    assert Filter([g], active) == [g];
    SumAppend(ActiveGoals(goals), g, (x: Goal) => x.targetAmount);
    SumAppend(ActiveGoals(goals), g, (x: Goal) => x.currentAmount);
  }

  /** Deleting the id a creation just handed out undoes the creation
      exactly when no older goal already carried that id: ids are
      `length + 1`, so after a deletion they can repeat. */
  lemma DeleteUndoesAdd(goals: seq<Goal>, form: GoalForm)
    requires Accepts(form)
    ensures DeleteGoal(AddGoal(goals, form), |goals| + 1) == goals
        <==> forall g :: g in goals ==> g.id != |goals| + 1
  {
    var id := |goals| + 1;
    var r := AddGoal(goals, form);
    var keep := (x: Goal) => x.id != id;
    assert r == goals + [r[|goals|]];
    FilterAppend(goals, [r[|goals|]], keep);
    assert Filter([r[|goals|]], keep) == [];
    assert DeleteGoal(r, id) == Filter(goals, keep);
    if forall g :: g in goals ==> g.id != id {
      FilterKeepsAll(goals, keep);
    } else {
      var g :| g in goals && g.id == id;
      assert g !in Filter(goals, keep);
    }
  }
}
