/**
 * The budget table of the Budgets page: per-category spending limits,
 * their creation with a palette colour, limit updates, deletion, the
 * good/warning/over classification and the totals.
 */
module Budgets {
  import opened Seqs

  datatype Period = Weekly | Monthly

  datatype Budget = Budget(
    id: int,
    category: string,
    limit: real,
    spent: real,
    period: Period,
    color: string)

  /** The "Create New Budget" dialog: the picked category ("" while
      nothing is picked), the slider value and the period. */
  datatype BudgetForm = BudgetForm(category: string, limit: real, period: Period)

  datatype BudgetStatus = Good | Warning | Over

  const Categories: seq<string> := [
    "Food & Dining", "Transportation", "Entertainment", "Shopping",
    "Utilities", "Healthcare", "Travel", "Education", "Fitness", "Other"
  ]

  const Palette: seq<string> := [
    "bg-blue-500", "bg-green-500", "bg-purple-500", "bg-red-500",
    "bg-yellow-500", "bg-pink-500", "bg-indigo-500", "bg-orange-500"
  ]

  predicate CategoryUsed(budgets: seq<Budget>, c: string)
  {
    exists i :: 0 <= i < |budgets| && budgets[i].category == c
  }

  /** The categories the picker still offers: those of the fixed list,
      in list order, that no budget uses yet. */
  function AvailableCategories(budgets: seq<Budget>): (r: seq<string>)
    ensures forall c :: c in r <==> c in Categories && !CategoryUsed(budgets, c)
    ensures IsSubsequence(r, Categories)
  {
    Filter(Categories, c => !CategoryUsed(budgets, c))
  }

  function UsedColors(budgets: seq<Budget>): set<string>
  {
    set i | 0 <= i < |budgets| :: budgets[i].color
  }

  /** The colour of a new budget: the first palette colour no budget
      wears, or the first palette colour once all are taken. */
  function NextColor(budgets: seq<Budget>): (r: string)
    ensures r in Palette
    ensures (exists c :: c in Palette && c !in UsedColors(budgets)) ==> r !in UsedColors(budgets)
    ensures (forall c :: c in Palette ==> c in UsedColors(budgets)) ==> r == Palette[0]
    ensures exists k :: 0 <= k < |Palette| && Palette[k] == r &&
              forall j :: 0 <= j < k ==> Palette[j] in UsedColors(budgets)
  {
    var used := UsedColors(budgets);
    var k := FindIndex(Palette, c => c !in used);
    if k == -1 then
      Palette[0]
    else
      Palette[k]
  }

  /** The form passes validation: a category is picked and the limit is positive. */
  predicate Accepts(form: BudgetForm)
  {
    form.category != "" && form.limit > 0.0
  }

  /** Create a budget. The picker offers only unused categories, which
      is what keeps categories unique; the handler itself does not check. */
  function AddBudget(budgets: seq<Budget>, form: BudgetForm): (r: seq<Budget>)
    requires form.category == "" || !CategoryUsed(budgets, form.category)
    ensures !Accepts(form) ==> r == budgets
    ensures Accepts(form) ==>
      && |r| == |budgets| + 1
      && r[..|budgets|] == budgets
      && r[|budgets|].id == |budgets| + 1
      && r[|budgets|].category == form.category
      && r[|budgets|].limit == form.limit
      && r[|budgets|].spent == 0.0
      && r[|budgets|].period == form.period
      && r[|budgets|].color == NextColor(budgets)
  {
    if !Accepts(form) then budgets
    else
      var b := Budget(|budgets| + 1, form.category, form.limit, 0.0, form.period, NextColor(budgets));
      assert (budgets + [b])[..|budgets|] == budgets;
      budgets + [b]
  }

  /** The "Adjust limit" slider: every budget carrying `id` gets the new
      limit, and nothing else changes. */
  function UpdateLimit(budgets: seq<Budget>, id: int, newLimit: real): (r: seq<Budget>)
    ensures |r| == |budgets|
    ensures forall i :: 0 <= i < |budgets| && budgets[i].id != id ==> r[i] == budgets[i]
    ensures forall i :: 0 <= i < |budgets| && budgets[i].id == id ==>
      r[i].limit == newLimit && r[i].(limit := budgets[i].limit) == budgets[i]
  {
    seq(|budgets|, i requires 0 <= i < |budgets| =>
      if budgets[i].id == id then budgets[i].(limit := newLimit) else budgets[i])
  }

  /** Delete every budget carrying `id`, keeping the others in order. */
  function DeleteBudget(budgets: seq<Budget>, id: int): (r: seq<Budget>)
    ensures forall b :: b in r <==> b in budgets && b.id != id
    ensures forall b: Budget :: b.id != id ==> multiset(r)[b] == multiset(budgets)[b]
    ensures IsSubsequence(r, budgets)
  {
    Filter(budgets, (b: Budget) => b.id != id)
  }

  /** The status of a budget from `spent / limit * 100` against the
      thresholds 100 and 80. For a positive limit the percentage is not
      needed: the thresholds are `limit` and `0.8 * limit` themselves. */
  function Status(spent: real, limit: real): (s: BudgetStatus)
    requires limit != 0.0
    ensures limit > 0.0 ==> (s == Over <==> spent >= limit)
    ensures limit > 0.0 ==> (s == Warning <==> 0.8 * limit <= spent < limit)
    ensures limit > 0.0 ==> (s == Good <==> spent < 0.8 * limit)
  {
    var percentage := spent / limit * 100.0;
    ScaledRatio(spent, limit, 100.0);
    ScaledRatio(spent, limit, 80.0);
    if percentage >= 100.0 then Over
    else if percentage >= 80.0 then Warning
    else Good
  }

  /** For a positive denominator, comparing a percentage with a threshold
      is comparing the cross products. */
  lemma ScaledRatio(x: real, y: real, t: real)
    requires y != 0.0
    ensures y > 0.0 ==> (x / y * 100.0 >= t <==> 100.0 * x >= t * y)
  {
    if y > 0.0 {
      var q := x / y;
      assert q * y == x;
      if q * 100.0 >= t {
        assert q * 100.0 * y >= t * y;
      } else {
        assert q * 100.0 * y < t * y;
      }
    }
  }

  /** The width of a budget's progress bar: `min(spent / limit * 100, 100)`. */
  function Percentage(spent: real, limit: real): (p: real)
    requires limit != 0.0
    ensures p <= 100.0
    ensures spent >= 0.0 && limit > 0.0 ==> 0.0 <= p
    ensures limit > 0.0 && spent < limit ==> p * limit == spent * 100.0
  {
    var raw := spent / limit * 100.0;
    if raw < 100.0 then raw else 100.0
  }

  /** The bar is full exactly when the budget is over. */
  lemma FullBarIffOver(spent: real, limit: real)
    requires limit > 0.0
    ensures Percentage(spent, limit) == 100.0 <==> Status(spent, limit) == Over
  {
    ScaledRatio(spent, limit, 100.0);
  }

  function TotalBudget(budgets: seq<Budget>): real
  {
    Sum(budgets, (b: Budget) => b.limit)
  }

  function TotalSpent(budgets: seq<Budget>): real
  {
    Sum(budgets, (b: Budget) => b.spent)
  }

  /** A new budget raises the total budget by its limit and leaves the
      total spent where it was. */
  lemma AddBudgetTotals(budgets: seq<Budget>, form: BudgetForm)
    requires !CategoryUsed(budgets, form.category)
    requires Accepts(form)
    ensures TotalBudget(AddBudget(budgets, form)) == TotalBudget(budgets) + form.limit
    ensures TotalSpent(AddBudget(budgets, form)) == TotalSpent(budgets)
  {
    var r := AddBudget(budgets, form);
    assert r == budgets + [r[|budgets|]];
    SumAppend(budgets, r[|budgets|], (b: Budget) => b.limit);
    SumAppend(budgets, r[|budgets|], (b: Budget) => b.spent);
  }

  /** Deleting lowers each total by exactly what the deleted budgets held. */
  lemma DeleteBudgetTotals(budgets: seq<Budget>, id: int)
    ensures TotalBudget(DeleteBudget(budgets, id))
         == TotalBudget(budgets) - Sum(Filter(budgets, (b: Budget) => b.id == id), (b: Budget) => b.limit)
    ensures TotalSpent(DeleteBudget(budgets, id))
         == TotalSpent(budgets) - Sum(Filter(budgets, (b: Budget) => b.id == id), (b: Budget) => b.spent)
  {
    var keep := (b: Budget) => b.id != id;
    var drop := (b: Budget) => b.id == id;
    SumPartition(budgets, keep, drop, (b: Budget) => b.limit);
    SumPartition(budgets, keep, drop, (b: Budget) => b.spent);
  }

  /** No two budgets share a category. */
  ghost predicate UniqueCategories(budgets: seq<Budget>)
  {
    forall i, j :: 0 <= i < j < |budgets| ==> budgets[i].category != budgets[j].category
  }

  lemma AddBudgetKeepsCategoriesUnique(budgets: seq<Budget>, form: BudgetForm)
    requires UniqueCategories(budgets)
    requires form.category == "" || !CategoryUsed(budgets, form.category)
    ensures UniqueCategories(AddBudget(budgets, form))
  {
  }

  lemma UpdateLimitKeepsCategoriesUnique(budgets: seq<Budget>, id: int, newLimit: real)
    requires UniqueCategories(budgets)
    ensures UniqueCategories(UpdateLimit(budgets, id, newLimit))
  {
  }

  /** A created budget takes its category off the picker and leaves the
      availability of every other category as it was. */
  lemma AddBudgetTakesCategory(budgets: seq<Budget>, form: BudgetForm, c: string)
    requires !CategoryUsed(budgets, form.category)
    requires Accepts(form)
    ensures c in AvailableCategories(AddBudget(budgets, form))
        <==> c in AvailableCategories(budgets) && c != form.category
  {
    var r := AddBudget(budgets, form);
    assert r[|budgets|].category == form.category;
    if CategoryUsed(budgets, c) {
      var i :| 0 <= i < |budgets| && budgets[i].category == c;
      assert r[i].category == c;
    }
    if CategoryUsed(r, c) && c != form.category {
      var i :| 0 <= i < |r| && r[i].category == c;
      assert budgets[i].category == c;
    }
  }
}
