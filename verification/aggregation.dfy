/** The figures WealthFlow derives from a ledger: category totals, total
    outflow, remaining budget, savings rate and distribution shares, and how
    each ledger update moves them. */
module Aggregation {
  import opened Budget

  /** `items.reduce((sum, item) => sum + item.amount, 0)`: the left fold that
      adds the amounts in list order, starting from 0. */
  function Total(items: seq<Item>): real
  {
    if items == [] then 0.0
    else Total(items[..|items| - 1]) + items[|items| - 1].amount
  }

  /** A total over a concatenation is the sum of the two totals. */
  lemma {:induction false} TotalConcat(a: seq<Item>, b: seq<Item>)
    ensures Total(a + b) == Total(a) + Total(b)
    decreases |b|
  {
    if b == [] {
      assert a + b == a;
    } else {
      var n := |b| - 1;
      assert (a + b)[..|a + b| - 1] == a + b[..n];
      assert (a + b)[|a + b| - 1] == b[n];
      TotalConcat(a, b[..n]);
    }
  }

  /** The total of one item is its amount; the total of nothing is 0. */
  lemma TotalSingleton(x: Item)
    ensures Total([]) == 0.0
    ensures Total([x]) == x.amount
  {
    assert [x][..0] == [];
  }

  /** Adding an item in front adds its amount. */
  lemma TotalCons(x: Item, s: seq<Item>)
    ensures Total([x] + s) == x.amount + Total(s)
  {
    TotalConcat([x], s);
    TotalSingleton(x);
  }

  /** An item between two lists adds its amount to their totals. */
  lemma TotalMiddle(left: seq<Item>, x: Item, right: seq<Item>)
    ensures Total(left + [x] + right) == Total(left) + x.amount + Total(right)
  {
    TotalConcat(left + [x], right);
    TotalConcat(left, [x]);
    TotalSingleton(x);
  }

  /** Taking `x` out from between two lists takes one `x` out of the multiset. */
  lemma MultisetWithout(left: seq<Item>, right: seq<Item>, x: Item)
    ensures multiset(left + right) == multiset(left + [x] + right) - multiset{x}
  {
  }

  /** Order carries no weight for totals: two lists holding the same items
      (with the same multiplicities) have the same total. */
  lemma {:induction false} TotalOrderIndependent(a: seq<Item>, b: seq<Item>)
    requires multiset(a) == multiset(b)
    ensures Total(a) == Total(b)
    decreases |a|
  {
    if a == [] {
      assert |b| == |multiset(b)| == 0;
    } else {
      var k := LastOccurs(a, b);
      TotalOrderIndependent(a[..|a| - 1], b[..k] + b[k + 1..]);
      TotalMatchLast(a, b, k);
    }
  }

  /** The last item of `a` sits at some index `k` of `b`, and removing it from
      both leaves lists with the same items. */
  lemma LastOccurs(a: seq<Item>, b: seq<Item>) returns (k: nat)
    requires a != [] && multiset(a) == multiset(b)
    ensures k < |b| && b[k] == a[|a| - 1]
    ensures multiset(a[..|a| - 1]) == multiset(b[..k] + b[k + 1..])
  {
    var n := |a| - 1;
    assert a == a[..n] + [a[n]] + [] && a[..n] + [] == a[..n];
    assert a[n] in multiset(b);
    k :| 0 <= k < |b| && b[k] == a[n];
    assert b == b[..k] + [a[n]] + b[k + 1..];
    MultisetWithout(a[..n], [], a[n]);
    MultisetWithout(b[..k], b[k + 1..], a[n]);
  }

  /** A list is what comes before index `k`, the item at `k`, and what follows. */
  lemma SplitAt(b: seq<Item>, k: nat)
    requires k < |b|
    ensures b == b[..k] + [b[k]] + b[k + 1..]
  {
  }

  /** If the last item of `a` sits at index `k` of `b`, and the rest of `a` and
      the rest of `b` have equal totals, then `a` and `b` have equal totals. */
  lemma TotalMatchLast(a: seq<Item>, b: seq<Item>, k: nat)
    requires a != [] && k < |b| && b[k] == a[|a| - 1]
    requires Total(a[..|a| - 1]) == Total(b[..k] + b[k + 1..])
    ensures Total(a) == Total(b)
  {
    SplitAt(b, k);
    TotalMiddle(b[..k], b[k], b[k + 1..]);
    TotalConcat(b[..k], b[k + 1..]);
  }

  /** Items whose amounts are all at least 0 total at least 0. */
  lemma {:induction false} TotalNonNegative(s: seq<Item>)
    requires forall x :: x in s ==> x.amount >= 0.0
    ensures Total(s) >= 0.0
    decreases |s|
  {
    if s != [] {
      var n := |s| - 1;
      assert s[n] in s;
      assert forall x :: x in s[..n] ==> x in s;
      TotalNonNegative(s[..n]);
    }
  }

  /** One step of a delete: the first item counts towards what is kept or
      towards what is removed, never both. */
  lemma FilterStep(s: seq<Item>, id: string)
    requires s != []
    ensures Total(s) == s[0].amount + Total(s[1..])
    ensures Total(Without(s, id)) == (if s[0].id == id then 0.0 else s[0].amount) + Total(Without(s[1..], id))
    ensures Total(Matching(s, id)) == (if s[0].id == id then s[0].amount else 0.0) + Total(Matching(s[1..], id))
    ensures |Matching(s, id)| == (if s[0].id == id then 1 else 0) + |Matching(s[1..], id)|
  {
    assert s == [s[0]] + s[1..];
    TotalCons(s[0], s[1..]);
    if s[0].id == id {
      assert Without(s, id) == Without(s[1..], id);
      TotalCons(s[0], Matching(s[1..], id));
    } else {
      assert Matching(s, id) == Matching(s[1..], id);
      TotalCons(s[0], Without(s[1..], id));
    }
  }

  /** A delete splits a category's total into what is kept and what is removed. */
  lemma {:induction false} TotalPartition(s: seq<Item>, id: string)
    ensures Total(s) == Total(Without(s, id)) + Total(Matching(s, id))
    decreases |s|
  {
    if s != [] {
      FilterStep(s, id);
      TotalPartition(s[1..], id);
    }
  }

  /** One step of an edit: the first item contributes its edited amount. */
  lemma UpdatedStep(s: seq<Item>, id: string, f: FieldValue)
    requires s != []
    ensures Total(Updated(s, id, f)) == Edit(s[0], id, f).amount + Total(Updated(s[1..], id, f))
  {
    TotalCons(Edit(s[0], id, f), Updated(s[1..], id, f));
  }

  /** Renaming items leaves the total alone. */
  lemma {:induction false} TotalRenamed(s: seq<Item>, id: string, name: string)
    ensures Total(Updated(s, id, Name(name))) == Total(s)
    decreases |s|
  {
    if s != [] {
      UpdatedStep(s, id, Name(name));
      FilterStep(s, id);
      TotalRenamed(s[1..], id, name);
    }
  }

  /** `v` added up `n` times, starting from 0. */
  function Repeated(v: real, n: nat): real
  {
    if n == 0 then 0.0 else Repeated(v, n - 1) + v
  }

  /** Adding `v` up `n` times gives `v` times `n`. */
  lemma {:induction false} RepeatedIsProduct(v: real, n: nat)
    ensures Repeated(v, n) == v * (n as real)
  {
    if n > 0 {
      RepeatedIsProduct(v, n - 1);
      assert v * (n as real) == v * ((n - 1) as real) + v;
    }
  }

  /** Setting the amount of the matching items to `v` makes each of them
      contribute exactly `v`; the other items contribute as before. */
  lemma {:induction false} TotalReamounted(s: seq<Item>, id: string, v: real)
    ensures Total(Updated(s, id, Amount(v))) == Total(Without(s, id)) + Repeated(v, |Matching(s, id)|)
    decreases |s|
  {
    if s != [] {
      UpdatedStep(s, id, Amount(v));
      FilterStep(s, id);
      TotalReamounted(s[1..], id, v);
    }
  }

  /** The total shown for category `c` (the `totals` memo). */
  function CategoryTotal(l: Ledger, c: Category): real
  {
    Total(Items(l, c))
  }

  /** `totalOutflow`: the four category totals added up. */
  function TotalOutflow(l: Ledger): real
  {
    CategoryTotal(l, Debts) + CategoryTotal(l, Expenses)
      + CategoryTotal(l, Savings) + CategoryTotal(l, Investments)
  }

  /** The outflow is the total of all items of the ledger taken together. */
  lemma OutflowIsTotalOfAllItems(l: Ledger)
    ensures TotalOutflow(l) == Total(l.debts + l.expenses + l.savings + l.investments)
  {
    TotalConcat(l.debts, l.expenses);
    TotalConcat(l.debts + l.expenses, l.savings);
    TotalConcat(l.debts + l.expenses + l.savings, l.investments);
  }

  /** `remaining`: income less outflow, never clamped; it is negative exactly
      when the outflow exceeds the income (the "overspending" message). */
  function Remaining(l: Ledger): (r: real)
    ensures r + TotalOutflow(l) == l.income
    ensures r < 0.0 <==> TotalOutflow(l) > l.income
  {
    l.income - TotalOutflow(l)
  }

  /** `savingsRate`: savings plus investments as a percentage of income, and
      exactly 0 whenever the income is not positive. */
  function SavingsRate(l: Ledger): (r: real)
    ensures l.income <= 0.0 ==> r == 0.0
    ensures l.income > 0.0 ==>
      r * l.income == 100.0 * (CategoryTotal(l, Savings) + CategoryTotal(l, Investments))
  {
    if l.income > 0.0 then
      (CategoryTotal(l, Savings) + CategoryTotal(l, Investments)) / l.income * 100.0
    else 0.0
  }

  /** Two percentages of the same positive income, of parts that differ by
      `d`, differ by `100 * d` once multiplied back by the income. */
  lemma PercentShift(part: real, d: real, income: real, before: real, after: real)
    requires before * income == 100.0 * part
    requires after * income == 100.0 * (part + d)
    ensures after * income == before * income + 100.0 * d
  {
  }

  /** Two ledgers with the same income whose savings and investments differ by
      `d` in total have savings rates that differ by `d` in percent of income;
      with equal savings and investments the rates are equal. */
  lemma SavingsRateShift(a: Ledger, b: Ledger, d: real)
    requires a.income == b.income
    requires CategoryTotal(b, Savings) + CategoryTotal(b, Investments)
      == CategoryTotal(a, Savings) + CategoryTotal(a, Investments) + d
    ensures d == 0.0 ==> SavingsRate(b) == SavingsRate(a)
    ensures a.income > 0.0 ==> SavingsRate(b) * a.income == SavingsRate(a) * a.income + 100.0 * d
  {
    if a.income > 0.0 {
      PercentShift(CategoryTotal(a, Savings) + CategoryTotal(a, Investments), d, a.income,
        SavingsRate(a), SavingsRate(b));
    }
  }

  /** Dividing by a non-zero divisor and multiplying back gives the dividend. */
  lemma DivideThenMultiply(a: real, d: real)
    requires d != 0.0
    ensures (a / d) * d == a
  {
  }

  /** The divisor `totalOutflow || 1`. */
  function ShareDivisor(l: Ledger): (d: real)
    ensures d != 0.0
  {
    if TotalOutflow(l) != 0.0 then TotalOutflow(l) else 1.0
  }

  /** The distribution share of category `c`, `value / (totalOutflow || 1)`,
      as an exact fraction (the legend shows it rounded to a percentage). */
  function Share(l: Ledger, c: Category): real
  {
    CategoryTotal(l, c) / ShareDivisor(l)
  }

  /** With an outflow, a share is the category's fraction of it; with none,
      the divisor is 1 and the share is the category total itself. */
  lemma ShareOfOutflow(l: Ledger, c: Category)
    ensures TotalOutflow(l) != 0.0 ==> Share(l, c) * TotalOutflow(l) == CategoryTotal(l, c)
    ensures TotalOutflow(l) == 0.0 ==> Share(l, c) == CategoryTotal(l, c)
  {
    var total, outflow := CategoryTotal(l, c), TotalOutflow(l);
    if outflow != 0.0 {
      assert Share(l, c) == total / outflow;
      DivideThenMultiply(total, outflow);
    } else {
      assert Share(l, c) == total / 1.0;
    }
  }

  /** Whenever there is an outflow, the four shares add up to 1. */
  lemma SharesSumToOne(l: Ledger)
    requires TotalOutflow(l) != 0.0
    ensures Share(l, Debts) + Share(l, Expenses) + Share(l, Savings) + Share(l, Investments) == 1.0
  {
    ShareOfOutflow(l, Debts);
    ShareOfOutflow(l, Expenses);
    ShareOfOutflow(l, Savings);
    ShareOfOutflow(l, Investments);
    SumOfFractions(Share(l, Debts), Share(l, Expenses), Share(l, Savings), Share(l, Investments),
      CategoryTotal(l, Debts), CategoryTotal(l, Expenses), CategoryTotal(l, Savings), CategoryTotal(l, Investments),
      TotalOutflow(l));
  }

  /** The fractions of four parts of a non-zero sum `t` add up to 1. */
  lemma SumOfFractions(a: real, b: real, c: real, d: real, ta: real, tb: real, tc: real, td: real, t: real)
    requires t == ta + tb + tc + td && t != 0.0
    requires a * t == ta && b * t == tb && c * t == tc && d * t == td
    ensures a + b + c + d == 1.0
  {
    assert (a + b + c + d) * t == a * t + b * t + c * t + d * t;
    assert (a + b + c + d - 1.0) * t == 0.0;
  }

  /** Every amount in the ledger is at least 0. */
  ghost predicate NonNegative(l: Ledger)
  {
    forall c, x :: x in Items(l, c) ==> x.amount >= 0.0
  }

  /** With amounts that are at least 0, no outflow means no category has a
      total, so every share is 0. */
  lemma NoOutflowMeansZeroShares(l: Ledger, c: Category)
    requires NonNegative(l)
    requires TotalOutflow(l) == 0.0
    ensures Share(l, c) == 0.0
  {
    TotalNonNegative(l.debts);
    TotalNonNegative(l.expenses);
    TotalNonNegative(l.savings);
    TotalNonNegative(l.investments);
    ShareOfOutflow(l, c);
  }

  /** The legend as written: amounts of opposite sign can cancel to an outflow
      of 0 while a category still has a total, and that category's share is
      then its total (100, shown as 10000%), not 0. */
  lemma ShareAtCancellingOutflow()
    ensures var l := Ledger(0.0, [Item("1", "Refund", 100.0)], [Item("1", "Rebate", -100.0)], [], []);
      TotalOutflow(l) == 0.0 && Share(l, Debts) == 100.0 && Share(l, Expenses) == -100.0
  {
    TotalSingleton(Item("1", "Refund", 100.0));
    TotalSingleton(Item("1", "Rebate", -100.0));
  }

  /** The share with the outflow tested before dividing: 0 when there is no
      outflow, the fraction of the outflow otherwise. */
  function GuardedShare(l: Ledger, c: Category): (r: real)
    ensures TotalOutflow(l) == 0.0 ==> r == 0.0
    ensures TotalOutflow(l) != 0.0 ==> r == Share(l, c)
  {
    if TotalOutflow(l) == 0.0 then 0.0 else CategoryTotal(l, c) / TotalOutflow(l)
  }

  /** The guarded shares add up to 1 when there is an outflow and are all 0
      when there is none. */
  lemma GuardedSharesSum(l: Ledger)
    ensures TotalOutflow(l) != 0.0 ==>
      GuardedShare(l, Debts) + GuardedShare(l, Expenses) + GuardedShare(l, Savings) + GuardedShare(l, Investments) == 1.0
    ensures TotalOutflow(l) == 0.0 ==>
      GuardedShare(l, Debts) + GuardedShare(l, Expenses) + GuardedShare(l, Savings) + GuardedShare(l, Investments) == 0.0
  {
    if TotalOutflow(l) != 0.0 {
      SharesSumToOne(l);
    }
  }

  /** The guarded share differs from the share as written only when amounts
      below 0 are present: for ledgers without them the two agree. */
  lemma GuardedShareAgrees(l: Ledger, c: Category)
    requires NonNegative(l) || TotalOutflow(l) != 0.0
    ensures GuardedShare(l, c) == Share(l, c)
  {
    if TotalOutflow(l) == 0.0 {
      NoOutflowMeansZeroShares(l, c);
    }
  }

  /** The figures `initialData` produces: outflow 3050, remaining 1950,
      savings rate 16. */
  lemma InitialDataFigures()
    ensures CategoryTotal(InitialData(), Debts) == 500.0
    ensures CategoryTotal(InitialData(), Expenses) == 1750.0
    ensures CategoryTotal(InitialData(), Savings) == 300.0
    ensures CategoryTotal(InitialData(), Investments) == 500.0
    ensures TotalOutflow(InitialData()) == 3050.0
    ensures Remaining(InitialData()) == 1950.0
    ensures SavingsRate(InitialData()) == 16.0
  {
    var l := InitialData();
    assert l.debts[..1] == [l.debts[0]];
    assert l.expenses[..2][..1] == [l.expenses[0]];
    TotalSingleton(l.debts[0]);
    TotalSingleton(l.expenses[0]);
    TotalSingleton(l.savings[0]);
    TotalSingleton(l.investments[0]);
  }

  /** Changing the income moves the remaining budget by the same amount,
      recomputes the savings rate against the new income (0 unless it is
      positive), and leaves every total and share as it was. */
  lemma UpdateIncomeFigures(l: Ledger, amount: real)
    ensures forall c :: CategoryTotal(UpdateIncome(l, amount), c) == CategoryTotal(l, c)
    ensures forall c :: Share(UpdateIncome(l, amount), c) == Share(l, c)
    ensures TotalOutflow(UpdateIncome(l, amount)) == TotalOutflow(l)
    ensures Remaining(UpdateIncome(l, amount)) == Remaining(l) + (amount - l.income)
    ensures amount <= 0.0 ==> SavingsRate(UpdateIncome(l, amount)) == 0.0
    ensures amount > 0.0 ==>
      SavingsRate(UpdateIncome(l, amount)) * amount == 100.0 * (CategoryTotal(l, Savings) + CategoryTotal(l, Investments))
  {
    var r := UpdateIncome(l, amount);
    assert forall c :: Items(r, c) == Items(l, c);
  }

  /** Appending a blank item changes no figure: every total, the outflow, the
      remaining budget, the savings rate and every share stay as they were. */
  lemma AddItemFigures(l: Ledger, c: Category, newId: string)
    ensures forall c' :: CategoryTotal(AddItem(l, c, newId), c') == CategoryTotal(l, c')
    ensures TotalOutflow(AddItem(l, c, newId)) == TotalOutflow(l)
    ensures Remaining(AddItem(l, c, newId)) == Remaining(l)
    ensures SavingsRate(AddItem(l, c, newId)) == SavingsRate(l)
    ensures forall c' :: Share(AddItem(l, c, newId), c') == Share(l, c')
  {
    var r := AddItem(l, c, newId);
    assert Items(r, c) == Items(l, c) + [BlankItem(newId)];
    TotalConcat(Items(l, c), [BlankItem(newId)]);
    TotalSingleton(BlankItem(newId));
    assert forall c' :: CategoryTotal(r, c') == CategoryTotal(l, c');
  }

  /** When one category's total moves by `d` and nothing else changes, the
      outflow moves by `d`, the remaining budget by `-d`, and the savings rate
      moves only if the category is savings or investments. */
  lemma CategoryShift(l: Ledger, r: Ledger, c: Category, d: real)
    requires r.income == l.income
    requires CategoryTotal(r, c) == CategoryTotal(l, c) + d
    requires forall c' :: c' != c ==> CategoryTotal(r, c') == CategoryTotal(l, c')
    ensures TotalOutflow(r) == TotalOutflow(l) + d
    ensures Remaining(r) == Remaining(l) - d
    ensures (c == Debts || c == Expenses) ==> SavingsRate(r) == SavingsRate(l)
    ensures (c == Savings || c == Investments) && l.income > 0.0 ==>
      SavingsRate(r) * l.income == SavingsRate(l) * l.income + 100.0 * d
  {
    assert forall c' :: c' != c ==> CategoryTotal(r, c') == CategoryTotal(l, c');
    SavingsRateShift(l, r, if c == Savings || c == Investments then d else 0.0);
  }

  /** Deleting takes exactly the removed items' amounts out of the category
      total and leaves the other categories' totals alone. */
  lemma DeleteItemTotals(l: Ledger, c: Category, id: string)
    ensures CategoryTotal(DeleteItem(l, c, id), c) == CategoryTotal(l, c) - Total(Matching(Items(l, c), id))
    ensures forall c' :: c' != c ==> CategoryTotal(DeleteItem(l, c, id), c') == CategoryTotal(l, c')
  {
    assert Items(DeleteItem(l, c, id), c) == Without(Items(l, c), id);
    TotalPartition(Items(l, c), id);
  }

  /** Deleting takes exactly the removed items' amounts out of the category
      total and the outflow, adds them to the remaining budget, and lowers the
      savings rate by their percentage of income when the category is savings
      or investments. */
  lemma DeleteItemFigures(l: Ledger, c: Category, id: string)
    ensures var removed := Total(Matching(Items(l, c), id));
      && CategoryTotal(DeleteItem(l, c, id), c) == CategoryTotal(l, c) - removed
      && TotalOutflow(DeleteItem(l, c, id)) == TotalOutflow(l) - removed
      && Remaining(DeleteItem(l, c, id)) == Remaining(l) + removed
    ensures forall c' :: c' != c ==> CategoryTotal(DeleteItem(l, c, id), c') == CategoryTotal(l, c')
    ensures (c == Debts || c == Expenses) ==> SavingsRate(DeleteItem(l, c, id)) == SavingsRate(l)
    ensures (c == Savings || c == Investments) && l.income > 0.0 ==>
      SavingsRate(DeleteItem(l, c, id)) * l.income
        == SavingsRate(l) * l.income - 100.0 * Total(Matching(Items(l, c), id))
  {
    DeleteItemTotals(l, c, id);
    CategoryShift(l, DeleteItem(l, c, id), c, -Total(Matching(Items(l, c), id)));
  }

  /** Renaming items changes no total and so no derived figure. */
  lemma RenameItemFigures(l: Ledger, c: Category, id: string, name: string)
    ensures forall c' :: CategoryTotal(UpdateItem(l, c, id, Name(name)), c') == CategoryTotal(l, c')
    ensures TotalOutflow(UpdateItem(l, c, id, Name(name))) == TotalOutflow(l)
    ensures Remaining(UpdateItem(l, c, id, Name(name))) == Remaining(l)
    ensures SavingsRate(UpdateItem(l, c, id, Name(name))) == SavingsRate(l)
    ensures forall c' :: Share(UpdateItem(l, c, id, Name(name)), c') == Share(l, c')
  {
    var r := UpdateItem(l, c, id, Name(name));
    assert Items(r, c) == Updated(Items(l, c), id, Name(name));
    TotalRenamed(Items(l, c), id, name);
    assert forall c' :: CategoryTotal(r, c') == CategoryTotal(l, c');
  }

  /** Setting the amount of the matching items to `v` replaces their
      contribution to the category total by `v` each and leaves the other
      categories' totals alone. */
  lemma SetAmountTotals(l: Ledger, c: Category, id: string, v: real)
    ensures var matching := Matching(Items(l, c), id);
      CategoryTotal(UpdateItem(l, c, id, Amount(v)), c)
        == CategoryTotal(l, c) + (Repeated(v, |matching|) - Total(matching))
    ensures forall c' :: c' != c ==> CategoryTotal(UpdateItem(l, c, id, Amount(v)), c') == CategoryTotal(l, c')
  {
    assert Items(UpdateItem(l, c, id, Amount(v)), c) == Updated(Items(l, c), id, Amount(v));
    TotalReamounted(Items(l, c), id, v);
    TotalPartition(Items(l, c), id);
  }

  /** Setting the amount of the matching items to `v` replaces their
      contribution to the category total and the outflow by `v` each, moves
      the remaining budget the other way, and moves the savings rate by the
      change's percentage of income when the category is savings or
      investments. */
  lemma SetAmountFigures(l: Ledger, c: Category, id: string, v: real)
    ensures var matching := Matching(Items(l, c), id);
      var delta := Repeated(v, |matching|) - Total(matching);
      && CategoryTotal(UpdateItem(l, c, id, Amount(v)), c) == CategoryTotal(l, c) + delta
      && TotalOutflow(UpdateItem(l, c, id, Amount(v))) == TotalOutflow(l) + delta
      && Remaining(UpdateItem(l, c, id, Amount(v))) == Remaining(l) - delta
    ensures forall c' :: c' != c ==> CategoryTotal(UpdateItem(l, c, id, Amount(v)), c') == CategoryTotal(l, c')
    ensures (c == Debts || c == Expenses) ==> SavingsRate(UpdateItem(l, c, id, Amount(v))) == SavingsRate(l)
    ensures (c == Savings || c == Investments) && l.income > 0.0 ==>
      var matching := Matching(Items(l, c), id);
      SavingsRate(UpdateItem(l, c, id, Amount(v))) * l.income
        == SavingsRate(l) * l.income + 100.0 * (Repeated(v, |matching|) - Total(matching))
  {
    SetAmountTotals(l, c, id, v);
    var matching := Matching(Items(l, c), id);
    CategoryShift(l, UpdateItem(l, c, id, Amount(v)), c, Repeated(v, |matching|) - Total(matching));
  }
}
