/**
 * The state of the `App` component of App.tsx: the product lines, the form drafts,
 * the cash amount, the label and id that tie the session to the history archive,
 * and the archive itself. Each React setter becomes a field assignment; each handler
 * becomes a method that calls the pure transforms of LineItems, NumericInput and
 * HistoryArchive. The two derived numbers (`totalSum`, `remainingMoney`), which the
 * component recomputes in effects, are functions of the fields here.
 */
module Session {
  import opened Wrappers
  import opened LineItems
  import opened NumericInput
  import opened HistoryArchive

  class App {
    var fullData: seq<FullData>
    var product: string        // draft product name (`proudct`)
    var quantity: real         // draft quantity (`numberProudcts`)
    var price: real            // draft price
    var moneyAmount: real
    var historyId: Option<string>
    var historyName: string
    var history: seq<History>  // the archived list (`history_v3`)

    /** Every line total is current, in the session and in every archived entry, and ids are unique. */
    ghost predicate Valid()
      reads this`fullData, this`history
    {
      Consistent(fullData) && AllConsistent(history) && UniqueIds(history)
    }

    /**
     * `totalSum`: the sum of the line totals, which is the sum of price times
     * quantity while every line total is current.
     */
    function TotalSum(): (t: real)
      reads this`fullData
      ensures t == SumOfLineTotals(fullData)
      ensures Consistent(fullData) ==> t == SumOfPriceTimesQuantity(fullData)
    {
      var t := LineItems.TotalSum(fullData);
      assert t == SumOfLineTotals(fullData) by { TotalSumIsSum(fullData); }
      assert Consistent(fullData) ==> t == SumOfPriceTimesQuantity(fullData) by {
        if Consistent(fullData) {
          ConsistentTotal(fullData);
        }
      }
      t
    }

    /** `remainingMoney` (`subtractFromMoney`): the cash amount less the total. */
    function RemainingMoney(): (m: real)
      reads this`fullData, this`moneyAmount
      ensures m == moneyAmount - SumOfLineTotals(fullData)
      ensures Consistent(fullData) ==> m == moneyAmount - SumOfPriceTimesQuantity(fullData)
    {
      moneyAmount - TotalSum()
    }

    /** The data an archived entry takes from the session. */
    function CurrentSnapshot(): Snapshot
      reads this`fullData, this`moneyAmount, this`quantity, this`price, this`product
    {
      Snapshot(fullData, moneyAmount, quantity, price, product)
    }

    /** The initial state of the `useState` hooks. */
    constructor ()
      ensures fullData == [] && product == "" && quantity == 0.0 && price == 0.0 && moneyAmount == 0.0
      ensures historyId == None && historyName == "" && history == []
      ensures Valid() && TotalSum() == 0.0
    {
      fullData, product, quantity, price, moneyAmount := [], "", 0.0, 0.0, 0.0;
      historyId, historyName, history := None, "", [];
    }

    // ------------------------------------------------------------ form drafts

    /** The product-name field. */
    method SetDraftProduct(name: string)
      modifies this`product
      ensures product == name
      ensures old(Valid()) ==> Valid()
    {
      product := name;
    }

    /** The quantity field (its text already read as a number). */
    method SetDraftQuantity(q: real)
      modifies this`quantity
      ensures quantity == q
      ensures old(Valid()) ==> Valid()
    {
      quantity := q;
    }

    /** The price field (its text already read as a number). */
    method SetDraftPrice(p: real)
      modifies this`price
      ensures price == p
      ensures old(Valid()) ==> Valid()
    {
      price := p;
    }

    /** The history-label field. */
    method SetHistoryName(name: string)
      modifies this`historyName
      ensures historyName == name
      ensures old(Valid()) ==> Valid()
    {
      historyName := name;
    }

    /** `clear`: the three drafts go back to "", 0 and 0. */
    method Clear()
      modifies this`product, this`quantity, this`price
      ensures product == "" && quantity == 0.0 && price == 0.0
      ensures old(Valid()) ==> Valid()
    {
      price := 0.0;
      quantity := 0.0;
      product := "";
    }

    // ------------------------------------------------------------ line items

    /**
     * `fullDataEnter`: with an empty product name nothing changes (the source raises
     * an alert); otherwise the drafts become a new last line and are cleared.
     */
    method FullDataEnter() returns (added: bool)
      modifies this`fullData, this`product, this`quantity, this`price
      ensures added <==> old(product) != ""
      ensures !added ==>
        fullData == old(fullData) && product == old(product) &&
        quantity == old(quantity) && price == old(price)
      ensures added ==>
        fullData == old(fullData) + [NewLine(old(product), old(quantity), old(price))] &&
        product == "" && quantity == 0.0 && price == 0.0
      ensures added ==> TotalSum() == old(TotalSum()) + old(price) * old(quantity)
      ensures old(Valid()) ==> Valid()
    {
      var r := AddItem(fullData, product, quantity, price);
      if r.None? {
        return false;
      }
      AddItemTotal(fullData, product, quantity, price);
      fullData := r.value;
      Clear();
      added := true;
    }

    /** `updateProduct(index, key, value)`: only the line at `index` changes. */
    method UpdateProduct(index: int, upd: Update)
      modifies this`fullData
      ensures fullData == LineItems.UpdateProduct(old(fullData), index, upd)
      ensures 0 <= index < |old(fullData)| ==>
        TotalSum() == old(TotalSum()) - LineTotal(old(fullData)[index]) + LineTotal(fullData[index])
      ensures old(Valid()) && !upd.SetMulti? ==> Valid()
    {
      if 0 <= index < |fullData| {
        UpdateProductTotal(fullData, index, upd);
      }
      if Consistent(fullData) && !upd.SetMulti? {
        UpdateProductConsistent(fullData, index, upd);
      }
      fullData := LineItems.UpdateProduct(fullData, index, upd);
    }

    /** `handlePriceChange`: the sanitised text becomes the line's price. */
    method HandlePriceChange(index: int, text: string)
      modifies this`fullData
      ensures fullData == LineItems.UpdateProduct(old(fullData), index, SetPrice(SanitizeNumericInput(text)))
      ensures 0 <= index < |fullData| ==> fullData[index].price >= 0.0 && LineTotalCurrent(fullData[index])
      ensures old(Valid()) ==> Valid()
    {
      UpdateProduct(index, SetPrice(SanitizeNumericInput(text)));
    }

    /** `handleProductNumberChange`: the sanitised text becomes the line's quantity. */
    method HandleProductNumberChange(index: int, text: string)
      modifies this`fullData
      ensures fullData == LineItems.UpdateProduct(old(fullData), index, SetQuantity(SanitizeNumericInput(text)))
      ensures 0 <= index < |fullData| ==> fullData[index].quantity >= 0.0 && LineTotalCurrent(fullData[index])
      ensures old(Valid()) ==> Valid()
    {
      UpdateProduct(index, SetQuantity(SanitizeNumericInput(text)));
    }

    /** `incrementProductQuantity(index)`. */
    method IncrementProductQuantity(index: int)
      modifies this`fullData
      ensures fullData == IncrementQuantity(old(fullData), index)
      ensures old(Valid()) ==> Valid()
      ensures old(Valid()) && 0 <= index < |fullData| ==> TotalSum() == old(TotalSum()) + fullData[index].price
    {
      if Consistent(fullData) && 0 <= index < |fullData| {
        IncrementTotal(fullData, index);
      }
      fullData := IncrementQuantity(fullData, index);
    }

    /** `subtractedProductQuantity(index)`: no floor at zero. */
    method SubtractedProductQuantity(index: int)
      modifies this`fullData
      ensures fullData == DecrementQuantity(old(fullData), index)
      ensures old(Valid()) ==> Valid()
      ensures old(Valid()) && 0 <= index < |fullData| ==> TotalSum() == old(TotalSum()) - fullData[index].price
    {
      if Consistent(fullData) && 0 <= index < |fullData| {
        DecrementTotal(fullData, index);
      }
      fullData := DecrementQuantity(fullData, index);
    }

    /** `handleMoneyAmountChange`: the sanitised text becomes the cash amount. */
    method HandleMoneyAmountChange(text: string)
      modifies this`moneyAmount
      ensures moneyAmount == SanitizeNumericInput(text) && moneyAmount >= 0.0
      ensures old(Valid()) ==> Valid()
      ensures RemainingMoney() == moneyAmount - old(TotalSum())
    {
      moneyAmount := SanitizeNumericInput(text);
    }

    // ------------------------------------------------------------ history

    /**
     * `saveInHistory`: an unbound session is appended under `freshId` (the source's
     * `uuidv4()`) and `date`; a bound session overwrites its own entry in place.
     */
    method SaveInHistory(freshId: string, date: Timestamp)
      modifies this`history
      ensures history == HistoryArchive.SaveInHistory(old(history), historyId, historyName, CurrentSnapshot(), freshId, date)
      ensures !IsBound(historyId) ==> history == old(history) + [History(freshId, historyName, CurrentSnapshot(), date)]
      ensures IsBound(historyId) ==> |history| == |old(history)| && Ids(history) == Ids(old(history))
      ensures old(Valid()) && freshId !in Ids(old(history)) ==> Valid()
    {
      if Valid() && freshId !in Ids(history) {
        SaveInHistoryUnique(history, historyId, historyName, CurrentSnapshot(), freshId, date);
        SaveInHistoryConsistent(history, historyId, historyName, CurrentSnapshot(), freshId, date);
      }
      var h := HistoryArchive.SaveInHistory(history, historyId, historyName, CurrentSnapshot(), freshId, date);
      assert !IsBound(historyId) ==> h == history + [History(freshId, historyName, CurrentSnapshot(), date)] by {
        if !IsBound(historyId) {
          assert h == h[..|history|] + [h[|history|]];
        }
      }
      history := h;
    }

    /**
     * `deleteCard(index)` once confirmed: the session is archived as it stands, then
     * the line at `index` is removed and the others keep their order.
     */
    method DeleteCard(index: int, freshId: string, date: Timestamp)
      modifies this`history, this`fullData
      ensures history == HistoryArchive.SaveInHistory(old(history), historyId, historyName, old(CurrentSnapshot()), freshId, date)
      ensures fullData == RemoveAt(old(fullData), index)
      ensures 0 <= index < |old(fullData)| ==>
        |fullData| == |old(fullData)| - 1 && TotalSum() == old(TotalSum()) - LineTotal(old(fullData)[index])
      ensures old(Valid()) && freshId !in Ids(old(history)) ==> Valid()
    {
      SaveInHistory(freshId, date);
      if 0 <= index < |fullData| {
        RemoveAtTotal(fullData, index);
      }
      if Consistent(fullData) {
        RemoveAtConsistent(fullData, index);
      }
      fullData := RemoveAt(fullData, index);
    }

    /** `restoreHistory(item)`: the session takes the entry's data and is bound to its id. */
    method RestoreHistory(item: History)
      modifies this`historyId, this`fullData, this`product, this`quantity, this`price, this`moneyAmount
      ensures historyId == Some(item.id) && CurrentSnapshot() == item.data
      ensures old(Valid()) && Consistent(item.data.fullData) ==> Valid()
    {
      historyId := Some(item.id);
      fullData := item.data.fullData;
      product := item.data.product;
      quantity := item.data.quantity;
      price := item.data.price;
      moneyAmount := item.data.moneyAmount;
    }

    /**
     * `deleteAll`: the session is archived as it stands, then reset to no lines, no
     * cash and empty drafts, and unbound from the archive.
     */
    method DeleteAll(freshId: string, date: Timestamp)
      modifies this`history, this`historyId, this`fullData, this`product, this`quantity, this`price, this`moneyAmount
      ensures history == HistoryArchive.SaveInHistory(old(history), old(historyId), historyName, old(CurrentSnapshot()), freshId, date)
      ensures historyId == None && fullData == [] && moneyAmount == 0.0
      ensures product == "" && quantity == 0.0 && price == 0.0
      ensures TotalSum() == 0.0 && RemainingMoney() == 0.0
      ensures old(Valid()) && freshId !in Ids(old(history)) ==> Valid()
    {
      SaveInHistory(freshId, date);
      historyId := None;
      fullData := [];
      moneyAmount := 0.0;
      quantity := 0.0;
      price := 0.0;
      product := "";
    }

    /**
     * Tapping an entry in the history view: `deleteAll` (archive, then reset), then
     * `restoreHistory(item)`.
     */
    method OpenHistoryEntry(item: History, freshId: string, date: Timestamp)
      modifies this`history, this`historyId, this`fullData, this`product, this`quantity, this`price, this`moneyAmount
      ensures history == HistoryArchive.SaveInHistory(old(history), old(historyId), historyName, old(CurrentSnapshot()), freshId, date)
      ensures historyId == Some(item.id) && CurrentSnapshot() == item.data
      ensures old(Valid()) && freshId !in Ids(old(history)) && Consistent(item.data.fullData) ==> Valid()
    {
      DeleteAll(freshId, date);
      RestoreHistory(item);
    }
  }

  /** A new session in which a product at 3 x 2 has been typed but not yet added. */
  method NewSessionWithDraft(pen: string) returns (app: App)
    ensures fresh(app) && app.Valid() && app.TotalSum() == 0.0
    ensures app.fullData == [] && app.product == pen && app.quantity == 3.0 && app.price == 2.0
    ensures app.moneyAmount == 0.0 && app.historyId == None && app.historyName == "" && app.history == []
  {
    app := new App();
    app.SetDraftProduct(pen);
    app.SetDraftQuantity(3.0);
    app.SetDraftPrice(2.0);
  }

  /** A new session in which one product has been added at 3 x 2. */
  method NewSessionWithLine(pen: string) returns (app: App)
    requires pen != ""
    ensures fresh(app) && app.Valid()
    ensures app.fullData == [NewLine(pen, 3.0, 2.0)] && app.TotalSum() == 6.0
    ensures app.product == "" && app.quantity == 0.0 && app.price == 0.0 && app.moneyAmount == 0.0
    ensures app.historyId == None && app.historyName == "" && app.history == []
  {
    app := NewSessionWithDraft(pen);
    var added := app.FullDataEnter();
  }

  /** Adding a product at 3 x 2 and entering 20 as the cash leaves 14. */
  method PenScenario(pen: string, cash: string) returns (total: real, remaining: real)
    requires pen != ""
    requires AllDigits(cash) && cash != [] && NatOf(cash) == 20
    ensures total == 6.0 && remaining == 14.0
  {
    var app := NewSessionWithLine(pen);
    SanitizeDecimal(cash, "");
    app.HandleMoneyAmountChange(cash);
    total, remaining := app.TotalSum(), app.RemainingMoney();
  }

  /** Adding one more of a line at 3 x 2 makes it 4 x 2, and the total 8. */
  method IncrementScenario(pen: string) returns (line: FullData, total: real)
    requires pen != ""
    ensures line == FullData(pen, 4.0, 2.0, Some(8.0)) && total == 8.0
  {
    var app := NewSessionWithLine(pen);
    app.IncrementProductQuantity(0);
    line, total := app.fullData[0], app.TotalSum();
  }

  /**
   * Deleting the only line of a session that is not bound to the archive: the session
   * is first archived as a new entry, and then holds no lines.
   */
  method DeleteScenario(pen: string, entryId: string) returns (archive: seq<History>, lines: seq<FullData>, total: real)
    requires pen != ""
    ensures archive == [History(entryId, "", Snapshot([NewLine(pen, 3.0, 2.0)], 0.0, 0.0, 0.0, ""), 0)]
    ensures lines == [] && total == 0.0
  {
    var app := NewSessionWithLine(pen);
    app.DeleteCard(0, entryId, 0);
    archive, lines, total := app.history, app.fullData, app.TotalSum();
  }

  /** The session with the 3 x 2 line after 20 is typed as the cash. */
  method NewSessionWithCash(pen: string, cash: string) returns (app: App)
    requires pen != ""
    requires AllDigits(cash) && cash != [] && NatOf(cash) == 20
    ensures fresh(app) && app.Valid()
    ensures app.fullData == [NewLine(pen, 3.0, 2.0)] && app.moneyAmount == 20.0
    ensures app.historyId == None && app.history == []
  {
    app := NewSessionWithLine(pen);
    SanitizeDecimal(cash, "");
    app.HandleMoneyAmountChange(cash);
  }

  /** One more unit of that line makes it 4 x 2; nothing else changes. */
  method AddOneUnit(app: App, pen: string)
    requires app.Valid() && app.fullData == [NewLine(pen, 3.0, 2.0)]
    modifies app`fullData
    ensures app.Valid() && app.fullData == [FullData(pen, 4.0, 2.0, Some(8.0))]
  {
    app.IncrementProductQuantity(0);
    assert app.fullData[0] == FullData(pen, 4.0, 2.0, Some(8.0));
  }

  /**
   * One session end to end: a line at 3 x 2 is added and 20 is typed as the cash
   * (remaining 14); one more unit makes the total 8 (remaining 12); deleting the line
   * archives the session as one entry and leaves a total of 0 (remaining 20).
   */
  method ShoppingTrip(pen: string, cash: string, entryId: string)
      returns (remaining1: real, total2: real, remaining2: real, archived: nat, total3: real, remaining3: real)
    requires pen != ""
    requires AllDigits(cash) && cash != [] && NatOf(cash) == 20
    ensures remaining1 == 14.0
    ensures total2 == 8.0 && remaining2 == 12.0
    ensures archived == 1 && total3 == 0.0 && remaining3 == 20.0
  {
    var app := NewSessionWithCash(pen, cash);
    remaining1 := app.RemainingMoney();
    AddOneUnit(app, pen);
    total2, remaining2 := app.TotalSum(), app.RemainingMoney();
    app.DeleteCard(0, entryId, 0);
    archived, total3, remaining3 := |app.history|, app.TotalSum(), app.RemainingMoney();
  }
}
