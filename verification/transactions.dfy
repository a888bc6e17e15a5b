/**
 * The transaction ledger of the Transactions page: signed amounts
 * (expenses negative), the search-and-selector filter, creation,
 * deletion and the income and expense totals.
 */
module Transactions {
  import opened Seqs
  import opened Text

  datatype TransactionType = Income | Expense

  /** The value of the `type` field, which the type selector compares against. */
  function TypeName(kind: TransactionType): string
  {
    match kind
    case Income => "income"
    case Expense => "expense"
  }

  datatype Transaction = Transaction(
    id: int,
    description: string,
    amount: real,
    category: string,
    date: string,
    kind: TransactionType)

  /** The "Add Transaction" dialog; `date` defaults to today in the page,
      which is the caller's business here. */
  datatype TransactionForm = TransactionForm(
    description: string,
    amount: NumberInput,
    category: string,
    kind: TransactionType,
    date: string)

  /** The selector value that disables the category or the type filter. */
  const AllSelector: string := "all"

  function Abs(x: real): real
  {
    if x < 0.0 then -x else x
  }

  /** The search box: the lower-cased term occurs in the lower-cased
      description or in the lower-cased category. */
  predicate MatchesSearch(t: Transaction, term: string)
  {
    Includes(Lower(t.description), Lower(term)) || Includes(Lower(t.category), Lower(term))
  }

  predicate Matches(t: Transaction, term: string, category: string, typeName: string)
  {
    && MatchesSearch(t, term)
    && (category == AllSelector || t.category == category)
    && (typeName == AllSelector || TypeName(t.kind) == typeName)
  }

  /** The list shown under the search box and the two selectors. */
  function FilterTransactions(txs: seq<Transaction>, term: string, category: string, typeName: string)
    : (r: seq<Transaction>)
    ensures IsSubsequence(r, txs)
    ensures forall t :: t in r <==> t in txs && Matches(t, term, category, typeName)
    ensures forall t :: multiset(r)[t] == if Matches(t, term, category, typeName) then multiset(txs)[t] else 0
    ensures category != AllSelector ==> forall i :: 0 <= i < |r| ==> r[i].category == category
    ensures typeName != AllSelector ==> forall i :: 0 <= i < |r| ==> TypeName(r[i].kind) == typeName
  {
    Filter(txs, (t: Transaction) => Matches(t, term, category, typeName))
  }

  /** Search ignores case on both sides: a transaction matches exactly
      when the lower-cased term occurs in its lower-cased description or
      category, so lower-casing the term first changes nothing, and any
      literal occurrence of the term is found. */
  lemma SearchIgnoresCase(t: Transaction, term: string)
    ensures MatchesSearch(t, term)
        <==> IsSubstring(Lower(term), Lower(t.description)) || IsSubstring(Lower(term), Lower(t.category))
    ensures MatchesSearch(t, Lower(term)) == MatchesSearch(t, term)
    ensures IsSubstring(term, t.description) || IsSubstring(term, t.category) ==> MatchesSearch(t, term)
  {
    LowerIsLower(term);
    if IsSubstring(term, t.description) {
      LowerPreservesSubstring(term, t.description);
    }
    if IsSubstring(term, t.category) {
      LowerPreservesSubstring(term, t.category);
    }
  }

  /** With an empty search and both selectors on "all", every transaction is listed. */
  lemma NoFilterShowsAll(txs: seq<Transaction>)
    ensures FilterTransactions(txs, "", AllSelector, AllSelector) == txs
  {
    assert Lower("") == "";
    forall i | 0 <= i < |txs|
      ensures Matches(txs[i], "", AllSelector, AllSelector)
    {
      EmptyIsSubstring(Lower(txs[i].description));
    }
    FilterKeepsAll(txs, (t: Transaction) => Matches(t, "", AllSelector, AllSelector));
  }

  /** The form passes validation: description, amount and category are filled in. */
  predicate Accepts(form: TransactionForm)
  {
    form.description != "" && form.amount.Entered? && form.category != ""
  }

  /** Record a transaction: rejected forms leave the list alone; an
      accepted form puts one new transaction in front, numbered
      `|txs| + 1`, with an expense always stored as a non-positive amount
      of the entered magnitude and an income stored as entered. */
  function AddTransaction(txs: seq<Transaction>, form: TransactionForm): (r: seq<Transaction>)
    ensures !Accepts(form) ==> r == txs
    ensures Accepts(form) ==>
      && |r| == |txs| + 1
      && r[1..] == txs
      && r[0].id == |txs| + 1
      && r[0].description == form.description
      && r[0].category == form.category
      && r[0].date == form.date
      && r[0].kind == form.kind
      && (form.kind == Expense ==> r[0].amount <= 0.0 && Abs(r[0].amount) == Abs(form.amount.value))
      && (form.kind == Income ==> r[0].amount == form.amount.value)
  {
    if !Accepts(form) then txs
    else
      var entered := form.amount.value;
      var amount := if form.kind == Expense then -Abs(entered) else entered;
      var t := Transaction(|txs| + 1, form.description, amount, form.category, form.date, form.kind);
      assert ([t] + txs)[1..] == txs;
      [t] + txs
  }

  /** Delete every transaction carrying `id`, keeping the others in order. */
  function DeleteTransaction(txs: seq<Transaction>, id: int): (r: seq<Transaction>)
    ensures forall t :: t in r <==> t in txs && t.id != id
    ensures forall t: Transaction :: t.id != id ==> multiset(r)[t] == multiset(txs)[t]
    ensures IsSubsequence(r, txs)
  {
    Filter(txs, (t: Transaction) => t.id != id)
  }

  /** Deleting the id a creation just handed out undoes the creation
      exactly when no older transaction already carried that id. */
  lemma DeleteUndoesAdd(txs: seq<Transaction>, form: TransactionForm)
    requires Accepts(form)
    ensures DeleteTransaction(AddTransaction(txs, form), |txs| + 1) == txs
        <==> forall t :: t in txs ==> t.id != |txs| + 1
  {
    var id := |txs| + 1;
    var r := AddTransaction(txs, form);
    var keep := (x: Transaction) => x.id != id;
    assert r == [r[0]] + txs;
    FilterAppend([r[0]], txs, keep);
    assert Filter([r[0]], keep) == [];
    assert DeleteTransaction(r, id) == Filter(txs, keep);
    if forall t :: t in txs ==> t.id != id {
      FilterKeepsAll(txs, keep);
    } else {
      var t :| t in txs && t.id == id;
      assert t !in Filter(txs, keep);
    }
  }

  function Incomes(txs: seq<Transaction>): seq<Transaction>
  {
    Filter(txs, (t: Transaction) => t.kind == Income)
  }

  function Expenses(txs: seq<Transaction>): seq<Transaction>
  {
    Filter(txs, (t: Transaction) => t.kind == Expense)
  }

  /** "Total Income": the signed sum of the income amounts. */
  function TotalIncome(txs: seq<Transaction>): real
  {
    Sum(Incomes(txs), (t: Transaction) => t.amount)
  }

  /** "Total Expenses": the magnitude of the signed sum of the expense amounts. */
  function TotalExpenses(txs: seq<Transaction>): (r: real)
    ensures r >= 0.0
  {
    Abs(Sum(Expenses(txs), (t: Transaction) => t.amount))
  }

  /** Every expense is stored with a non-positive amount. */
  ghost predicate SignsAgree(txs: seq<Transaction>)
  {
    forall t :: t in txs && t.kind == Expense ==> t.amount <= 0.0
  }

  lemma AddTransactionKeepsSigns(txs: seq<Transaction>, form: TransactionForm)
    requires SignsAgree(txs)
    ensures SignsAgree(AddTransaction(txs, form))
  {
  }

  /** While signs agree, "Total Expenses" is the plain negated sum of the expenses. */
  lemma TotalExpensesIsNegatedSum(txs: seq<Transaction>)
    requires SignsAgree(txs)
    ensures TotalExpenses(txs) == -Sum(Expenses(txs), (t: Transaction) => t.amount)
  {
    var e := Expenses(txs);
    assert forall i :: 0 <= i < |e| ==> e[i] in txs && e[i].kind == Expense;
    SumNonPositive(e, (t: Transaction) => t.amount);
  }

  /** A recorded income raises "Total Income" by the entered amount; a
      recorded expense raises "Total Expenses" by the entered magnitude;
      the other total stays where it was. */
  lemma AddTransactionTotals(txs: seq<Transaction>, form: TransactionForm)
    requires SignsAgree(txs)
    requires Accepts(form)
    ensures form.kind == Income ==>
      && TotalIncome(AddTransaction(txs, form)) == TotalIncome(txs) + form.amount.value
      && TotalExpenses(AddTransaction(txs, form)) == TotalExpenses(txs)
    ensures form.kind == Expense ==>
      && TotalExpenses(AddTransaction(txs, form)) == TotalExpenses(txs) + Abs(form.amount.value)
      && TotalIncome(AddTransaction(txs, form)) == TotalIncome(txs)
  {
    var r := AddTransaction(txs, form);
    var t := r[0];
    assert r == [t] + txs;
    var isIncome := (x: Transaction) => x.kind == Income;
    var isExpense := (x: Transaction) => x.kind == Expense;
    FilterAppend([t], txs, isIncome);
    FilterAppend([t], txs, isExpense);
    var amount := (x: Transaction) => x.amount;
    AddTransactionKeepsSigns(txs, form);
    TotalExpensesIsNegatedSum(txs);
    TotalExpensesIsNegatedSum(r);
    if form.kind == Income {
      assert Filter([t], isIncome) == [t];
      assert Filter([t], isExpense) == [];
      assert Incomes(r) == [t] + Incomes(txs);
      assert ([t] + Incomes(txs))[1..] == Incomes(txs);
      assert Expenses(r) == Expenses(txs);
    } else {
      assert Filter([t], isIncome) == [];
      assert Filter([t], isExpense) == [t];
      assert Expenses(r) == [t] + Expenses(txs);
      assert ([t] + Expenses(txs))[1..] == Expenses(txs);
      assert Incomes(r) == Incomes(txs);
    }
  }
}
