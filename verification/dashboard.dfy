/** The stateful side of WealthFlow: one `data` ledger that every user event
    replaces with a new ledger, mirrored into browser storage after each change. */
module Dashboard {
  import opened Budget
  import opened Aggregation

  class WealthFlow {
    /** The `data` state of the component. */
    var data: Ledger
    /** What browser storage holds under the `wealthflow_data` key
        (`None`: nothing, or nothing that parses). */
    var stored: Option<Ledger>

    /** The save effect has run: storage holds the current ledger. */
    ghost predicate Valid()
      reads this
    {
      stored == Some(data)
    }

    /** Mounting: the state starts from what storage holds, or from
        `initialData` when that is missing or unusable, and is saved. */
    constructor (saved: Option<Ledger>)
      ensures Valid()
      ensures saved.Some? ==> data == saved.value
      ensures saved.None? ==> data == InitialData()
    {
      data := Load(saved);
      stored := Some(Load(saved));
    }

    /** Reloading the page restores exactly the ledger that was last shown. */
    method Reload()
      requires Valid()
      modifies this
      ensures Valid() && data == old(data)
    {
      data := Load(stored);
      stored := Some(data);
    }

    /** `updateIncome`. */
    method UpdateIncome(amount: real)
      requires Valid()
      modifies this
      ensures Valid() && data == Budget.UpdateIncome(old(data), amount)
      ensures data.income == amount && TotalOutflow(data) == TotalOutflow(old(data))
    {
      UpdateIncomeFigures(data, amount);
      data := Budget.UpdateIncome(data, amount);
      stored := Some(data);
    }

    /** `addItem`; `newId` stands for the clock-derived id. */
    method AddItem(c: Category, newId: string)
      requires Valid()
      modifies this
      ensures Valid() && data == Budget.AddItem(old(data), c, newId)
      ensures Items(data, c) == Items(old(data), c) + [Item(newId, "", 0.0)]
      ensures TotalOutflow(data) == TotalOutflow(old(data)) && Remaining(data) == Remaining(old(data))
    {
      AddItemFigures(data, c, newId);
      data := Budget.AddItem(data, c, newId);
      stored := Some(data);
    }

    /** `updateItem`, with the field and its value as one typed argument. */
    method UpdateItem(c: Category, id: string, f: FieldValue)
      requires Valid()
      modifies this
      ensures Valid() && data == Budget.UpdateItem(old(data), c, id, f)
      ensures |Items(data, c)| == |Items(old(data), c)|
      ensures f.Name? ==> TotalOutflow(data) == TotalOutflow(old(data))
      ensures f.Amount? ==>
        var matching := Matching(Items(old(data), c), id);
        TotalOutflow(data) == TotalOutflow(old(data)) + Repeated(f.amount, |matching|) - Total(matching)
    {
      if f.Name? {
        RenameItemFigures(data, c, id, f.name);
      } else {
        SetAmountFigures(data, c, id, f.amount);
      }
      data := Budget.UpdateItem(data, c, id, f);
      stored := Some(data);
    }

    /** `deleteItem`. */
    method DeleteItem(c: Category, id: string)
      requires Valid()
      modifies this
      ensures Valid() && data == Budget.DeleteItem(old(data), c, id)
      ensures forall x :: x in Items(data, c) <==> x in Items(old(data), c) && x.id != id
      ensures TotalOutflow(data) == TotalOutflow(old(data)) - Total(Matching(Items(old(data), c), id))
    {
      var next := Budget.DeleteItem(data, c, id);
      DeleteItemFigures(data, c, id);
      data, stored := next, Some(next);
    }
  }
}
