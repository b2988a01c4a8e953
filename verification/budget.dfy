/** The budget ledger of WealthFlow: its line items, its four categories, and
    the pure updates that compute a new ledger from the previous one. */
module Budget {

  datatype Option<T> = None | Some(value: T)

  /** One line item of a category. Ids are not unique: the default ledger
      reuses "1" in every category, and nothing stops two items of one
      category from sharing an id. */
  datatype Item = Item(id: string, name: string, amount: real)

  /** The four fixed categories a ledger holds items in. */
  datatype Category = Debts | Expenses | Savings | Investments

  /** The field an edit sets, with its new value: the item's label or its amount. */
  datatype FieldValue = Name(name: string) | Amount(amount: real)

  /** The whole budget: monthly net income and the four ordered item lists. */
  datatype Ledger = Ledger(
    income: real,
    debts: seq<Item>,
    expenses: seq<Item>,
    savings: seq<Item>,
    investments: seq<Item>)

  /** The items of category `c` (`prev[category]`). */
  function Items(l: Ledger, c: Category): seq<Item>
  {
    match c
    case Debts => l.debts
    case Expenses => l.expenses
    case Savings => l.savings
    case Investments => l.investments
  }

  /** `{ ...prev, [category]: s }`: category `c` replaced, everything else kept. */
  function WithItems(l: Ledger, c: Category, s: seq<Item>): (r: Ledger)
    ensures r.income == l.income
    ensures Items(r, c) == s
    ensures forall c' :: c' != c ==> Items(r, c') == Items(l, c')
  {
    match c
    case Debts => l.(debts := s)
    case Expenses => l.(expenses := s)
    case Savings => l.(savings := s)
    case Investments => l.(investments := s)
  }

  /** `{ ...item, [field]: value }`: the item with one field set. */
  function SetField(item: Item, f: FieldValue): (r: Item)
    ensures r.id == item.id
    ensures f.Name? ==> r.name == f.name && r.amount == item.amount
    ensures f.Amount? ==> r.amount == f.amount && r.name == item.name
  {
    match f
    case Name(n) => item.(name := n)
    case Amount(v) => item.(amount := v)
  }

  /** What the map callback of an edit does to one item. */
  function Edit(item: Item, id: string, f: FieldValue): (r: Item)
    ensures r.id == item.id
    ensures item.id != id ==> r == item
    ensures item.id == id ==> r.name == (if f.Name? then f.name else item.name)
    ensures item.id == id ==> r.amount == (if f.Amount? then f.amount else item.amount)
  {
    if item.id == id then SetField(item, f) else item
  }

  /** The items after an edit: every item whose id matches has field `f` set,
      every other item is kept, in place. */
  function Updated(s: seq<Item>, id: string, f: FieldValue): (r: seq<Item>)
    ensures |r| == |s|
    ensures forall i :: 0 <= i < |s| ==> r[i].id == s[i].id
    ensures forall i :: 0 <= i < |s| && s[i].id != id ==> r[i] == s[i]
    ensures forall i :: 0 <= i < |s| && s[i].id == id ==> r[i] == SetField(s[i], f)
  {
    if s == [] then [] else [Edit(s[0], id, f)] + Updated(s[1..], id, f)
  }

  /** The items kept by a delete: those whose id differs from `id`. */
  function Without(s: seq<Item>, id: string): (r: seq<Item>)
    ensures |r| <= |s|
    ensures forall x :: x in r <==> x in s && x.id != id
  {
    if s == [] then []
    else (if s[0].id == id then [] else [s[0]]) + Without(s[1..], id)
  }

  /** The items a delete removes: those whose id is `id`. */
  function Matching(s: seq<Item>, id: string): (r: seq<Item>)
    ensures |r| <= |s|
    ensures forall x :: x in r <==> x in s && x.id == id
  {
    if s == [] then []
    else (if s[0].id == id then [s[0]] else []) + Matching(s[1..], id)
  }

  /** `r` is `s` with some elements dropped and the rest in their original order. */
  ghost predicate IsSubsequence(r: seq<Item>, s: seq<Item>)
    decreases |s|
  {
    if r == [] then true
    else if s == [] then false
    else (r[0] == s[0] && IsSubsequence(r[1..], s[1..])) || IsSubsequence(r, s[1..])
  }

  /** A delete keeps the surviving items in their original relative order. */
  lemma {:induction false} WithoutIsSubsequence(s: seq<Item>, id: string)
    ensures IsSubsequence(Without(s, id), s)
    decreases |s|
  {
    if s != [] {
      WithoutIsSubsequence(s[1..], id);
      if s[0].id == id {
        assert Without(s, id) == Without(s[1..], id);
        SubsequenceOfTail(Without(s, id), s);
      } else {
        assert Without(s, id) == [s[0]] + Without(s[1..], id);
        assert Without(s, id)[1..] == Without(s[1..], id);
      }
    }
  }

  /** A subsequence of the tail is a subsequence of the whole. */
  lemma SubsequenceOfTail(r: seq<Item>, s: seq<Item>)
    requires s != [] && IsSubsequence(r, s[1..])
    ensures IsSubsequence(r, s)
  {
  }

  /** Filtering distributes over concatenation: the kept items of `a` come
      before the kept items of `b`, so relative order is preserved. */
  lemma {:induction false} WithoutConcat(a: seq<Item>, b: seq<Item>, id: string)
    ensures Without(a + b, id) == Without(a, id) + Without(b, id)
    decreases |a|
  {
    if a == [] {
      assert a + b == b;
    } else {
      assert (a + b)[0] == a[0] && (a + b)[1..] == a[1..] + b;
      WithoutConcat(a[1..], b, id);
    }
  }

  /** A delete loses nothing but the matching items, with their multiplicity:
      the kept and the removed items together are the original items. */
  lemma {:induction false} WithoutMatchingPartition(s: seq<Item>, id: string)
    ensures multiset(Without(s, id)) + multiset(Matching(s, id)) == multiset(s)
    decreases |s|
  {
    if s != [] {
      WithoutMatchingPartition(s[1..], id);
      assert s == [s[0]] + s[1..];
    }
  }

  /** Deleting an id no item carries changes nothing. */
  lemma {:induction false} WithoutAbsent(s: seq<Item>, id: string)
    requires forall x :: x in s ==> x.id != id
    ensures Without(s, id) == s
    decreases |s|
  {
    if s != [] {
      assert s[0] in s;
      assert forall x :: x in s[1..] ==> x in s;
      WithoutAbsent(s[1..], id);
      assert [s[0]] + s[1..] == s;
    }
  }

  /** Deleting the same id twice is the same as deleting it once. */
  lemma WithoutIdempotent(s: seq<Item>, id: string)
    ensures Without(Without(s, id), id) == Without(s, id)
  {
    WithoutAbsent(Without(s, id), id);
  }

  /** Editing twice with the same value is the same as editing once. */
  lemma UpdatedIdempotent(s: seq<Item>, id: string, f: FieldValue)
    ensures Updated(Updated(s, id, f), id, f) == Updated(s, id, f)
  {
  }

  /** `initialData`, the ledger the planner starts from when nothing usable is
      stored: a 5000 income and a few typical items in every category. Its
      amounts are all positive and, within each category, its ids distinct. */
  function InitialData(): (l: Ledger)
    ensures l.income == 5000.0
    ensures forall c :: Items(l, c) != []
    ensures forall c, x :: x in Items(l, c) ==> x.amount > 0.0
    ensures forall c, i, j :: 0 <= i < j < |Items(l, c)| ==> Items(l, c)[i].id != Items(l, c)[j].id
  {
    Ledger(
      5000.0,
      [Item("1", "Car Loan", 350.0), Item("2", "Credit Card", 150.0)],
      [Item("1", "Rent/Mortgage", 1200.0), Item("2", "Groceries", 400.0), Item("3", "Utilities", 150.0)],
      [Item("1", "Emergency Fund", 300.0)],
      [Item("1", "401k / Roth", 500.0)])
  }

  /** The blank item `addItem` appends, with its freshly generated id. */
  function BlankItem(newId: string): (r: Item)
    ensures r.id == newId && r.name == "" && r.amount == 0.0
  {
    Item(newId, "", 0.0)
  }

  /** The initial state: the stored ledger, or `initialData` when nothing is
      stored, the stored value is empty, or it does not parse (`None`). */
  function Load(saved: Option<Ledger>): (l: Ledger)
    ensures saved.None? ==> l == InitialData()
    ensures saved.Some? ==> l == saved.value
  {
    match saved
    case None => InitialData()
    case Some(stored) => stored
  }

  /** `updateIncome`: the income replaced, every category kept. */
  function UpdateIncome(l: Ledger, amount: real): (r: Ledger)
    ensures r.income == amount
    ensures forall c :: Items(r, c) == Items(l, c)
  {
    l.(income := amount)
  }

  /** `addItem`: one blank item appended at the end of category `c`. */
  function AddItem(l: Ledger, c: Category, newId: string): (r: Ledger)
    ensures |Items(r, c)| == |Items(l, c)| + 1
    ensures Items(r, c)[..|Items(l, c)|] == Items(l, c)
    ensures Items(r, c)[|Items(l, c)|] == Item(newId, "", 0.0)
    ensures r.income == l.income
    ensures forall c' :: c' != c ==> Items(r, c') == Items(l, c')
  {
    WithItems(l, c, Items(l, c) + [BlankItem(newId)])
  }

  /** `updateItem`: in category `c`, every item whose id is `id` gets field `f`
      set; length, order, ids, other items and other categories are kept. */
  function UpdateItem(l: Ledger, c: Category, id: string, f: FieldValue): (r: Ledger)
    ensures |Items(r, c)| == |Items(l, c)|
    ensures forall i :: 0 <= i < |Items(l, c)| ==>
      Items(r, c)[i] == (if Items(l, c)[i].id == id then SetField(Items(l, c)[i], f) else Items(l, c)[i])
    ensures r.income == l.income
    ensures forall c' :: c' != c ==> Items(r, c') == Items(l, c')
  {
    WithItems(l, c, Updated(Items(l, c), id, f))
  }

  /** `deleteItem`: every item of category `c` whose id is `id` removed, the
      others kept in order, everything else untouched. */
  function DeleteItem(l: Ledger, c: Category, id: string): (r: Ledger)
    ensures forall x :: x in Items(r, c) <==> x in Items(l, c) && x.id != id
    ensures r.income == l.income
    ensures forall c' :: c' != c ==> Items(r, c') == Items(l, c')
  {
    WithItems(l, c, Without(Items(l, c), id))
  }

  /** A delete keeps the surviving items of the category in their original
      order and loses nothing but the items with the id, counted with
      multiplicity. */
  lemma DeleteItemKeepsOrder(l: Ledger, c: Category, id: string)
    ensures IsSubsequence(Items(DeleteItem(l, c, id), c), Items(l, c))
    ensures multiset(Items(DeleteItem(l, c, id), c)) + multiset(Matching(Items(l, c), id)) == multiset(Items(l, c))
  {
    WithoutIsSubsequence(Items(l, c), id);
    WithoutMatchingPartition(Items(l, c), id);
  }
}
