/**
 * The sale bill page: a cart of line items built from the rubber (sheet and
 * scrap) fields or the generic crop fields, edited by index, totalled, and sent
 * as one sale.
 */
module SalesEntry {
  import opened Outcomes
  import opened Sorting
  import opened Records
  import opened EstateContext

  /** A bill line whose total is its weight times its rate. */
  predicate Priced(l: LineItem) {
    l.lineTotal == l.weightKg * l.pricePerKg
  }

  function LineTotalOf(l: LineItem): real { l.lineTotal }

  /** `items.reduce((sum, item) => sum + item.lineTotal, 0)`. */
  function GrandTotal(items: seq<LineItem>): real {
    SumOf(items, LineTotalOf)
  }

  /** A bill line for a weight and a rate. */
  function PricedLine(crop: string, subType: string, weight: real, rate: real): (l: LineItem)
    ensures Priced(l)
  {
    LineItem(crop, subType, weight, rate, weight * rate)
  }

  /**
   * The rubber lines one click adds: a Sheet line when both sheet fields are
   * filled in, then a Scrap line when both scrap fields are. A field is None
   * while it is empty.
   */
  function RubberLines(sheetWeight: Option<real>, sheetRate: Option<real>,
                       scrapWeight: Option<real>, scrapRate: Option<real>): (r: seq<LineItem>)
    ensures |r| == (if sheetWeight.Some? && sheetRate.Some? then 1 else 0)
                 + (if scrapWeight.Some? && scrapRate.Some? then 1 else 0)
    ensures forall l :: l in r ==> Priced(l) && l.crop == "Rubber"
    ensures sheetWeight.Some? && sheetRate.Some? ==>
      r[0].subType == "Sheet" && r[0].weightKg == sheetWeight.value && r[0].pricePerKg == sheetRate.value
    ensures scrapWeight.Some? && scrapRate.Some? ==>
      r[|r| - 1].subType == "Scrap" && r[|r| - 1].weightKg == scrapWeight.value && r[|r| - 1].pricePerKg == scrapRate.value
  {
    (if sheetWeight.Some? && sheetRate.Some? then [PricedLine("Rubber", "Sheet", sheetWeight.value, sheetRate.value)] else [])
    + (if scrapWeight.Some? && scrapRate.Some? then [PricedLine("Rubber", "Scrap", scrapWeight.value, scrapRate.value)] else [])
  }

  /** The one line a generic crop adds: named by the custom name for "Custom", by the crop otherwise. */
  function GenericLine(cropType: string, customName: string, weight: real, rate: real): (l: LineItem)
    ensures Priced(l) && l.subType == "-"
    ensures l.crop == (if cropType == "Custom" then customName else cropType)
    ensures l.weightKg == weight && l.pricePerKg == rate
  {
    PricedLine(if cropType == "Custom" then customName else cropType, "-", weight, rate)
  }

  /**
   * The lines one click on Add adds to the cart, or None when the click is
   * rejected: rubber with neither weight, or another crop without both its
   * weight and its rate.
   */
  function Addition(cropType: string, sheetWeight: Option<real>, sheetRate: Option<real>,
                    scrapWeight: Option<real>, scrapRate: Option<real>,
                    genericWeight: Option<real>, genericRate: Option<real>, customName: string): (r: Option<seq<LineItem>>)
    ensures r.None? <==>
      if cropType == "Rubber" then sheetWeight.None? && scrapWeight.None?
      else genericWeight.None? || genericRate.None?
    ensures r.Some? ==> |r.value| <= 2 && forall l :: l in r.value ==> Priced(l)
    ensures r.Some? && cropType == "Rubber" ==> r.value == RubberLines(sheetWeight, sheetRate, scrapWeight, scrapRate)
    ensures r.Some? && cropType != "Rubber" ==>
      r.value == [GenericLine(cropType, customName, genericWeight.value, genericRate.value)]
  {
    if cropType == "Rubber" then
      if sheetWeight.None? && scrapWeight.None? then None
      else Some(RubberLines(sheetWeight, sheetRate, scrapWeight, scrapRate))
    else if genericWeight.None? || genericRate.None? then None
    else Some([GenericLine(cropType, customName, genericWeight.value, genericRate.value)])
  }

  /**
   * The rubber check looks at the weights only: a sheet weight typed without
   * its rate passes it, yet makes no line, so the click adds nothing (and
   * still empties the rubber fields).
   */
  lemma WeightWithoutRateAddsNothing(sheetWeight: real, scrapRate: Option<real>, customName: string)
    ensures Addition("Rubber", Some(sheetWeight), None, None, scrapRate, None, None, customName) == Some([])
  {
  }

  /**
   * `splice(index, 1)` on a copy: a negative index counts from the end (and is
   * clamped to 0), an index at or past the end removes nothing.
   */
  function Spliced(items: seq<LineItem>, index: int): (r: seq<LineItem>)
    ensures var p := SpliceStart(|items|, index);
      p < |items| ==> |r| == |items| - 1 && multiset(r) + multiset{items[p]} == multiset(items)
    ensures SpliceStart(|items|, index) == |items| ==> r == items
    ensures forall l :: l in r ==> l in items
  {
    var p := SpliceStart(|items|, index);
    if p < |items| then
      MultisetSplit(items, p);
      items[..p] + items[p + 1..]
    else items
  }

  /** Where `splice` starts for an array of length n. */
  function SpliceStart(n: nat, index: int): (p: nat)
    ensures p <= n
    ensures 0 <= index ==> p == if index < n then index else n
    ensures index < 0 ==> p == if n + index < 0 then 0 else n + index
  {
    if index < 0 then (if n + index < 0 then 0 else n + index)
    else if index < n then index else n
  }

  /** Removing an in-range index drops exactly that item and keeps the others in order. */
  lemma RemoveKeepsOthers(items: seq<LineItem>, index: int)
    requires 0 <= index < |items|
    ensures |Spliced(items, index)| == |items| - 1
    ensures forall i :: 0 <= i < index ==> Spliced(items, index)[i] == items[i]
    ensures forall i :: index <= i < |items| - 1 ==> Spliced(items, index)[i] == items[i + 1]
  {
  }

  /** Removing an item takes exactly its line total off the bill. */
  lemma RemoveLowersTotal(items: seq<LineItem>, index: int)
    requires SpliceStart(|items|, index) < |items|
    ensures GrandTotal(Spliced(items, index)) == GrandTotal(items) - items[SpliceStart(|items|, index)].lineTotal
  {
    var p := SpliceStart(|items|, index);
    var rest := Spliced(items, index);
    SumOfPermutation(rest + [items[p]], items, LineTotalOf);
    SumOfSnoc(rest, items[p], LineTotalOf);
  }

  /** Adding lines adds their totals to the bill. */
  lemma AppendAddsTotals(items: seq<LineItem>, added: seq<LineItem>)
    ensures GrandTotal(items + added) == GrandTotal(items) + GrandTotal(added)
  {
    SumOfAppend(items, added, LineTotalOf);
  }

  /** A bill of priced lines totals the weight times the rate of each line. */
  lemma {:induction false} TotalOfPricedLines(items: seq<LineItem>)
    requires forall l :: l in items ==> Priced(l)
    ensures GrandTotal(items) == SumOf(items, WeightTimesRate)
    decreases |items|
  {
    if items != [] {
      var p := items[..|items| - 1];
      assert forall l :: l in p ==> l in items;
      TotalOfPricedLines(p);
      assert items[|items| - 1] in items;
    }
  }

  function WeightTimesRate(l: LineItem): real { l.weightKg * l.pricePerKg }

  /** The sale sent to the server. */
  datatype SalePayload = SalePayload(estate: string, date: string, buyerName: string, items: seq<LineItem>, grandTotal: real)

  /** Why a sale was not sent. */
  datatype SaleRejection = NoItems | NoEstate

  /** The page's state: the sale header, the item fields (None while empty) and the cart. */
  class SaleForm {
    var targetEstateId: string
    var date: string
    var buyer: string
    var cropType: string
    var sheetWeight: Option<real>
    var sheetRate: Option<real>
    var scrapWeight: Option<real>
    var scrapRate: Option<real>
    var genericWeight: Option<real>
    var genericRate: Option<real>
    var customName: string
    var items: seq<LineItem>

    /**
     * A fresh page: the estate field holds the id of the estate stored in the
     * context (read through the destructured binding), the date is today's,
     * rubber is selected, every field is empty and the cart is empty.
     */
    constructor(context: JsValue, today: string)
      ensures targetEstateId == InitialTarget(Destructured(context)) && date == today && buyer == "" && cropType == "Rubber"
      ensures sheetWeight == None && sheetRate == None && scrapWeight == None && scrapRate == None
      ensures genericWeight == None && genericRate == None && customName == ""
      ensures items == [] && Valid()
    {
      targetEstateId, date, buyer, cropType := InitialTarget(Destructured(context)), today, "", "Rubber";
      sheetWeight, sheetRate, scrapWeight, scrapRate := None, None, None, None;
      genericWeight, genericRate, customName := None, None, "";
      items := [];
    }

    /** Every line in the cart was priced when it was added. */
    ghost predicate Valid()
      reads this
    {
      forall l :: l in items ==> Priced(l)
    }

    /** The lines the current fields would add, or None when Add would be rejected. */
    function PendingAddition(): Option<seq<LineItem>>
      reads this
    {
      Addition(cropType, sheetWeight, sheetRate, scrapWeight, scrapRate, genericWeight, genericRate, customName)
    }

    /** `calculateGrandTotal`: the sum of the cart's line totals. */
    function CalculateGrandTotal(): (total: real)
      reads this
      requires Valid()
      ensures total == SumOf(items, WeightTimesRate)
    {
      TotalOfPricedLines(items);
      GrandTotal(items)
    }

    /**
     * `handleAddItem`: on a rejected click nothing changes; otherwise the new
     * lines go after the existing ones and the fields of the crop just added
     * are emptied.
     */
    method HandleAddItem() returns (accepted: bool)
      requires Valid()
      modifies this
      ensures Valid()
      ensures accepted <==> old(PendingAddition()).Some?
      ensures accepted ==> items == old(items) + old(PendingAddition()).value
      ensures !accepted ==> items == old(items)
      ensures !accepted ==>
        && sheetWeight == old(sheetWeight) && sheetRate == old(sheetRate)
        && scrapWeight == old(scrapWeight) && scrapRate == old(scrapRate)
        && genericWeight == old(genericWeight) && genericRate == old(genericRate) && customName == old(customName)
      ensures accepted && old(cropType) == "Rubber" ==>
        && sheetWeight == None && sheetRate == None && scrapWeight == None && scrapRate == None
        && genericWeight == old(genericWeight) && genericRate == old(genericRate) && customName == old(customName)
      ensures accepted && old(cropType) != "Rubber" ==>
        && genericWeight == None && genericRate == None && customName == ""
        && sheetWeight == old(sheetWeight) && sheetRate == old(sheetRate)
        && scrapWeight == old(scrapWeight) && scrapRate == old(scrapRate)
      ensures targetEstateId == old(targetEstateId) && date == old(date) && buyer == old(buyer) && cropType == old(cropType)
    {
      var newItems: seq<LineItem> := [];
      if cropType == "Rubber" {
        if sheetWeight.None? && scrapWeight.None? {
          return false;
        }
        if sheetWeight.Some? && sheetRate.Some? {
          newItems := newItems + [PricedLine("Rubber", "Sheet", sheetWeight.value, sheetRate.value)];
        }
        if scrapWeight.Some? && scrapRate.Some? {
          newItems := newItems + [PricedLine("Rubber", "Scrap", scrapWeight.value, scrapRate.value)];
        }
        assert newItems == RubberLines(sheetWeight, sheetRate, scrapWeight, scrapRate);
        sheetWeight, sheetRate, scrapWeight, scrapRate := None, None, None, None;
      } else {
        if genericWeight.None? || genericRate.None? {
          return false;
        }
        newItems := newItems + [PricedLine(if cropType == "Custom" then customName else cropType, "-",
                                           genericWeight.value, genericRate.value)];
        assert newItems == [GenericLine(cropType, customName, genericWeight.value, genericRate.value)];
        genericWeight, genericRate, customName := None, None, "";
      }
      assert forall l :: l in newItems ==> Priced(l);
      items := items + newItems;
      accepted := true;
    }

    /** `handleRemoveItem(index)`: the cart without the item `splice(index, 1)` removes. */
    method HandleRemoveItem(index: int)
      requires Valid()
      modifies this
      ensures Valid()
      ensures items == Spliced(old(items), index)
      ensures targetEstateId == old(targetEstateId) && date == old(date) && buyer == old(buyer)
      ensures cropType == old(cropType) && customName == old(customName)
      ensures sheetWeight == old(sheetWeight) && sheetRate == old(sheetRate)
      ensures scrapWeight == old(scrapWeight) && scrapRate == old(scrapRate)
      ensures genericWeight == old(genericWeight) && genericRate == old(genericRate)
    {
      items := Spliced(items, index);
    }

    /** `handleRemoveAll`: an empty cart. */
    method HandleRemoveAll()
      modifies this
      ensures Valid()
      ensures items == [] && GrandTotal(items) == 0.0
      ensures targetEstateId == old(targetEstateId) && date == old(date) && buyer == old(buyer)
      ensures cropType == old(cropType) && customName == old(customName)
      ensures sheetWeight == old(sheetWeight) && sheetRate == old(sheetRate)
      ensures scrapWeight == old(scrapWeight) && scrapRate == old(scrapRate)
      ensures genericWeight == old(genericWeight) && genericRate == old(genericRate)
    {
      items := [];
    }

    /**
     * `handleSubmitSale`: an empty cart is rejected first, then a missing
     * estate; otherwise the sale is sent with the cart's grand total. `saved`
     * is whether the server accepted it: only then are the cart and the buyer
     * cleared.
     */
    method HandleSubmitSale(saved: bool) returns (r: Result<SalePayload, SaleRejection>)
      requires Valid()
      modifies this
      ensures Valid()
      ensures old(items) == [] ==> r == Err(NoItems)
      ensures old(items) != [] && targetEstateId == "" ==> r == Err(NoEstate)
      ensures r.Ok? <==> old(items) != [] && targetEstateId != ""
      ensures r.Ok? ==>
        r.value == SalePayload(targetEstateId, date, old(buyer), old(items), old(CalculateGrandTotal()))
      ensures r.Ok? && saved ==> items == [] && buyer == ""
      ensures !(r.Ok? && saved) ==> items == old(items) && buyer == old(buyer)
      ensures targetEstateId == old(targetEstateId) && date == old(date)
      ensures cropType == old(cropType) && customName == old(customName)
      ensures sheetWeight == old(sheetWeight) && sheetRate == old(sheetRate)
      ensures scrapWeight == old(scrapWeight) && scrapRate == old(scrapRate)
      ensures genericWeight == old(genericWeight) && genericRate == old(genericRate)
    {
      if |items| == 0 {
        return Err(NoItems);
      }
      if targetEstateId == "" {
        return Err(NoEstate);
      }
      var grandTotal := GrandTotal(items);
      r := Ok(SalePayload(targetEstateId, date, buyer, items, grandTotal));
      if saved {
        items := [];
        buyer := "";
      }
    }
  }
}
