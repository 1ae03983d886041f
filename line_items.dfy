/**
 * The session's product lines (`FullData[]` in App.tsx) and the pure transforms the
 * app applies to them: appending a line, the per-index `map`s of `updateProduct`,
 * `incrementProductQuantity` and `subtractedProductQuantity`, the `filter` of
 * `deleteCard`, and the `reduce` of `calculateTotalSum`.
 */
module LineItems {
  import opened Wrappers

  /**
   * One product line: the source's `proudct`, `numberProudcts`, `price` and the
   * optional line total `multi`.
   */
  datatype FullData = FullData(product: string, quantity: real, price: real, multi: Option<real>)

  /** A line whose stored total is its price times its quantity. */
  predicate LineTotalCurrent(item: FullData) {
    item.multi.Some? && item.multi.value == item.price * item.quantity
  }

  /** Every line's stored total is current. */
  predicate Consistent(items: seq<FullData>) {
    forall k :: 0 <= k < |items| ==> LineTotalCurrent(items[k])
  }

  // ---------------------------------------------------------------- adding

  /** The line that the form's drafts produce. */
  function NewLine(product: string, quantity: real, price: real): (item: FullData)
    ensures LineTotalCurrent(item)
  {
    FullData(product, quantity, price, Some(price * quantity))
  }

  /**
   * `fullDataEnter`'s effect on the list: an empty product name is refused (`None`:
   * the source alerts and returns); otherwise exactly one line is appended at the end.
   */
  function AddItem(items: seq<FullData>, product: string, quantity: real, price: real): (r: Option<seq<FullData>>)
    ensures r.None? <==> product == ""
    ensures r.Some? ==>
      |r.value| == |items| + 1 && r.value[..|items|] == items &&
      r.value[|items|] == NewLine(product, quantity, price)
  {
    if product == "" then None else Some(items + [NewLine(product, quantity, price)])
  }

  // ---------------------------------------------------------------- per-index updates

  /** The index-aware `map`: the line at `index` is passed through `f`, every other line is kept. */
  function MapAt(items: seq<FullData>, index: int, f: FullData -> FullData): (r: seq<FullData>)
    ensures |r| == |items|
    ensures forall k :: 0 <= k < |items| && k != index ==> r[k] == items[k]
    ensures 0 <= index < |items| ==> r == items[index := f(items[index])]
  {
    seq(|items|, k requires 0 <= k < |items| => if k == index then f(items[k]) else items[k])
  }

  /** The keys of `FullData` that `updateProduct` can set, each with its new value. */
  datatype Update =
    | SetProduct(name: string)
    | SetQuantity(quantity: real)
    | SetPrice(price: real)
    | SetMulti(multi: Option<real>)

  /**
   * A copy of the line with the named field set to the new value, and the line total
   * recomputed when that field is the quantity or the price.
   */
  function ApplyUpdate(item: FullData, upd: Update): (r: FullData)
    ensures r.product == (if upd.SetProduct? then upd.name else item.product)
    ensures r.quantity == (if upd.SetQuantity? then upd.quantity else item.quantity)
    ensures r.price == (if upd.SetPrice? then upd.price else item.price)
    ensures upd.SetQuantity? || upd.SetPrice? ==> LineTotalCurrent(r)
    ensures upd.SetProduct? ==> r.multi == item.multi
    ensures upd.SetMulti? ==> r.multi == upd.multi
  {
    match upd
    case SetProduct(name) => item.(product := name)
    case SetQuantity(q) => item.(quantity := q, multi := Some(item.price * q))
    case SetPrice(p) => item.(price := p, multi := Some(p * item.quantity))
    case SetMulti(m) => item.(multi := m)
  }

  /** `updateProduct(index, key, value)`: only the line at `index` changes. */
  function UpdateProduct(items: seq<FullData>, index: int, upd: Update): (r: seq<FullData>)
    ensures |r| == |items|
    ensures forall k :: 0 <= k < |items| && k != index ==> r[k] == items[k]
    ensures 0 <= index < |items| ==> r[index] == ApplyUpdate(items[index], upd)
    ensures 0 <= index < |items| && (upd.SetQuantity? || upd.SetPrice?) ==> LineTotalCurrent(r[index])
    ensures !(0 <= index < |items|) ==> r == items
  {
    MapAt(items, index, item => ApplyUpdate(item, upd))
  }

  /** A line with a new quantity and the line total recomputed from it. */
  function WithQuantity(item: FullData, quantity: real): (r: FullData)
    ensures r.product == item.product && r.price == item.price && r.quantity == quantity
    ensures LineTotalCurrent(r)
  {
    item.(quantity := quantity, multi := Some(item.price * quantity))
  }

  /** `incrementProductQuantity(index)`: the line at `index` gains one unit. */
  function IncrementQuantity(items: seq<FullData>, index: int): (r: seq<FullData>)
    ensures |r| == |items|
    ensures forall k :: 0 <= k < |items| && k != index ==> r[k] == items[k]
    ensures 0 <= index < |items| ==>
      r[index].quantity == items[index].quantity + 1.0 &&
      r[index].product == items[index].product && r[index].price == items[index].price &&
      r[index].multi == Some(items[index].price * (items[index].quantity + 1.0))
  {
    MapAt(items, index, (item: FullData) => WithQuantity(item, item.quantity + 1.0))
  }

  /**
   * `subtractedProductQuantity(index)`: the line at `index` loses one unit; there
   * is no floor, so the quantity can become negative.
   */
  function DecrementQuantity(items: seq<FullData>, index: int): (r: seq<FullData>)
    ensures |r| == |items|
    ensures forall k :: 0 <= k < |items| && k != index ==> r[k] == items[k]
    ensures 0 <= index < |items| ==>
      r[index].quantity == items[index].quantity - 1.0 &&
      r[index].product == items[index].product && r[index].price == items[index].price &&
      r[index].multi == Some(items[index].price * (items[index].quantity - 1.0))
  {
    MapAt(items, index, (item: FullData) => WithQuantity(item, item.quantity - 1.0))
  }

  // ---------------------------------------------------------------- deleting

  /**
   * The index-aware `filter` that keeps every line but the one at `index`. It walks the
   * list with the index shifted by one per element, dropping the element where it reaches 0.
   */
  function RemoveAt(items: seq<FullData>, index: int): (r: seq<FullData>)
    ensures 0 <= index < |items| ==> r == items[..index] + items[index + 1..]
    ensures !(0 <= index < |items|) ==> r == items
  {
    if items == [] then []
    else (if index == 0 then [] else [items[0]]) + RemoveAt(items[1..], index - 1)
  }

  // ---------------------------------------------------------------- totals

  /** A line's contribution to the total: its stored total, or 0 when it has none. */
  function LineTotal(item: FullData): (t: real)
    ensures item.multi.None? ==> t == 0.0
    ensures item.multi.Some? ==> t == item.multi.value
    ensures LineTotalCurrent(item) ==> t == item.price * item.quantity
  {
    item.multi.GetOr(0.0)
  }

  /**
   * `calculateTotalSum`: the line totals added up from the first line to the last
   * (a left fold). A single line's total is its line total, and lines whose totals
   * are not negative give a total that is not negative.
   */
  function TotalSum(items: seq<FullData>): (r: real)
    ensures |items| == 1 ==> r == LineTotal(items[0])
    ensures (forall k :: 0 <= k < |items| ==> LineTotal(items[k]) >= 0.0) ==> r >= 0.0
  {
    if items == [] then 0.0 else TotalSum(items[..|items| - 1]) + LineTotal(items[|items| - 1])
  }

  /** The sum of the line totals, taken from the front: an independent definition of the total. */
  function SumOfLineTotals(items: seq<FullData>): real {
    if items == [] then 0.0 else LineTotal(items[0]) + SumOfLineTotals(items[1..])
  }

  /** The sum of price times quantity over the lines. */
  function SumOfPriceTimesQuantity(items: seq<FullData>): real {
    if items == [] then 0.0 else items[0].price * items[0].quantity + SumOfPriceTimesQuantity(items[1..])
  }

  lemma {:induction false} SumOfLineTotalsConcat(a: seq<FullData>, b: seq<FullData>)
    ensures SumOfLineTotals(a + b) == SumOfLineTotals(a) + SumOfLineTotals(b)
  {
    if a == [] {
      assert a + b == b;
    } else {
      assert (a + b)[0] == a[0];
      assert (a + b)[1..] == a[1..] + b;
      SumOfLineTotalsConcat(a[1..], b);
    }
  }

  /** The app's left-to-right `reduce` is the sum of the line totals. */
  lemma {:induction false} TotalSumIsSum(items: seq<FullData>)
    ensures TotalSum(items) == SumOfLineTotals(items)
  {
    if items != [] {
      var init, last := items[..|items| - 1], items[|items| - 1];
      TotalSumIsSum(init);
      assert items == init + [last];
      SumOfLineTotalsConcat(init, [last]);
    }
  }

  /** When every line total is current, the total is the sum of price times quantity. */
  lemma {:induction false} ConsistentTotal(items: seq<FullData>)
    requires Consistent(items)
    ensures TotalSum(items) == SumOfPriceTimesQuantity(items)
  {
    TotalSumIsSum(items);
    ConsistentSum(items);
  }

  lemma {:induction false} ConsistentSum(items: seq<FullData>)
    requires Consistent(items)
    ensures SumOfLineTotals(items) == SumOfPriceTimesQuantity(items)
  {
    if items != [] {
      assert LineTotalCurrent(items[0]);
      assert Consistent(items[1..]) by {
        forall k | 0 <= k < |items[1..]| ensures LineTotalCurrent(items[1..][k]) {
          assert items[1..][k] == items[k + 1];
        }
      }
      ConsistentSum(items[1..]);
    }
  }

  /** The total of a concatenation is the sum of the totals. */
  lemma TotalSumConcat(a: seq<FullData>, b: seq<FullData>)
    ensures TotalSum(a + b) == TotalSum(a) + TotalSum(b)
  {
    TotalSumIsSum(a + b);
    TotalSumIsSum(a);
    TotalSumIsSum(b);
    SumOfLineTotalsConcat(a, b);
  }

  /** Replacing one line changes the total by the difference of the two line totals. */
  lemma TotalSumReplace(items: seq<FullData>, index: int, x: FullData)
    requires 0 <= index < |items|
    ensures TotalSum(items[index := x]) == TotalSum(items) - LineTotal(items[index]) + LineTotal(x)
  {
    var before, after := items[..index], items[index + 1..];
    assert items == before + [items[index]] + after;
    assert items[index := x] == before + [x] + after;
    TotalSumConcat(before + [items[index]], after);
    TotalSumConcat(before + [x], after);
    TotalSumConcat(before, [items[index]]);
    TotalSumConcat(before, [x]);
  }

  lemma ReplaceConsistent(items: seq<FullData>, index: int, x: FullData)
    requires 0 <= index < |items|
    requires Consistent(items) && LineTotalCurrent(x)
    ensures Consistent(items[index := x])
  {
  }

  /** Adding a line adds its price times quantity to the total and keeps every total current. */
  lemma AddItemTotal(items: seq<FullData>, product: string, quantity: real, price: real)
    requires product != ""
    ensures TotalSum(AddItem(items, product, quantity, price).value) == TotalSum(items) + price * quantity
    ensures Consistent(items) ==> Consistent(AddItem(items, product, quantity, price).value)
  {
  }

  /** Updating a line changes the total by the change in that line's total. */
  lemma UpdateProductTotal(items: seq<FullData>, index: int, upd: Update)
    requires 0 <= index < |items|
    ensures TotalSum(UpdateProduct(items, index, upd))
         == TotalSum(items) - LineTotal(items[index]) + LineTotal(ApplyUpdate(items[index], upd))
  {
    assert UpdateProduct(items, index, upd) == items[index := ApplyUpdate(items[index], upd)];
    TotalSumReplace(items, index, ApplyUpdate(items[index], upd));
  }

  /** Setting the name, the quantity or the price keeps every line total current. */
  lemma UpdateProductConsistent(items: seq<FullData>, index: int, upd: Update)
    requires Consistent(items) && !upd.SetMulti?
    ensures Consistent(UpdateProduct(items, index, upd))
  {
  }

  /** One unit more of a line adds its price once to price times quantity. */
  lemma MulSucc(price: real, quantity: real)
    ensures price * (quantity + 1.0) == price * quantity + price
  {
  }

  /** One unit less of a line takes its price once off price times quantity. */
  lemma MulPred(price: real, quantity: real)
    ensures price * (quantity - 1.0) == price * quantity - price
  {
  }

  /** With current line totals, one more unit of a line raises the total by its price. */
  lemma IncrementTotal(items: seq<FullData>, index: int)
    requires Consistent(items) && 0 <= index < |items|
    ensures TotalSum(IncrementQuantity(items, index)) == TotalSum(items) + items[index].price
    ensures Consistent(IncrementQuantity(items, index))
  {
    var item := items[index];
    var x := WithQuantity(item, item.quantity + 1.0);
    assert IncrementQuantity(items, index) == items[index := x];
    MulSucc(item.price, item.quantity);
    assert LineTotal(x) == LineTotal(item) + item.price;
    TotalSumReplace(items, index, x);
    ReplaceConsistent(items, index, x);
  }

  /** With current line totals, one unit less of a line lowers the total by its price. */
  lemma DecrementTotal(items: seq<FullData>, index: int)
    requires Consistent(items) && 0 <= index < |items|
    ensures TotalSum(DecrementQuantity(items, index)) == TotalSum(items) - items[index].price
    ensures Consistent(DecrementQuantity(items, index))
  {
    var item := items[index];
    var x := WithQuantity(item, item.quantity - 1.0);
    assert DecrementQuantity(items, index) == items[index := x];
    MulPred(item.price, item.quantity);
    assert LineTotal(x) == LineTotal(item) - item.price;
    TotalSumReplace(items, index, x);
    ReplaceConsistent(items, index, x);
  }

  /** A list is the part before an index, the element there, and the part after it. */
  lemma SplitAround(items: seq<FullData>, index: int)
    requires 0 <= index < |items|
    ensures items == (items[..index] + [items[index]]) + items[index + 1..]
  {
    assert items[index..] == [items[index]] + items[index + 1..];
    assert items == items[..index] + items[index..];
  }

  /** Deleting a line takes its total off the total. */
  lemma RemoveAtTotal(items: seq<FullData>, index: int)
    requires 0 <= index < |items|
    ensures TotalSum(RemoveAt(items, index)) == TotalSum(items) - LineTotal(items[index])
  {
    var before, x, after := items[..index], items[index], items[index + 1..];
    SplitAround(items, index);
    assert RemoveAt(items, index) == before + after;
    TotalSumWithout(before, x, after);
  }

  /** Taking one line out of the middle lowers the total by that line's total. */
  lemma TotalSumWithout(before: seq<FullData>, x: FullData, after: seq<FullData>)
    ensures TotalSum((before + [x]) + after) == TotalSum(before + after) + LineTotal(x)
  {
    calc {
      TotalSum((before + [x]) + after);
      { TotalSumConcat(before + [x], after); }
      TotalSum(before + [x]) + TotalSum(after);
      { TotalSumConcat(before, [x]); }
      TotalSum(before) + TotalSum([x]) + TotalSum(after);
      { TotalSumIsSum([x]); }
      TotalSum(before) + LineTotal(x) + TotalSum(after);
      { TotalSumConcat(before, after); }
      TotalSum(before + after) + LineTotal(x);
    }
  }

  /** Deleting a line keeps every other line total current. */
  lemma RemoveAtConsistent(items: seq<FullData>, index: int)
    requires Consistent(items)
    ensures Consistent(RemoveAt(items, index))
  {
  }
}
