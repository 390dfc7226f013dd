/**
 * The quotation service: looks each requested item up in the brand's price lists, applies
 * discount and loadings, and totals the quotation with delivery and tax (src/quotation/mod.rs).
 */
module Quotation {

  import opened Wrappers
  import opened Text
  import opened ItemPrices
  import opened QuotationTypes

  datatype QuoteItem = QuoteItem(
    product: Product,
    brand: string,
    tag: string,
    discount: real,
    loadingFrls: real,
    loadingPvc: real,
    quantity: real)

  datatype QuotationRequest = QuotationRequest(items: seq<QuoteItem>, deliveryCharges: real)

  datatype QuotedItem = QuotedItem(
    product: Product,
    quantityMtrs: real,
    price: real,
    amount: real,
    loadingPvc: real,
    loadingFrls: real)

  datatype QuotationResponse = QuotationResponse(
    items: seq<QuotedItem>,
    basicTotal: real,
    deliveryCharges: real,
    totalWithDelivery: real,
    taxes: real,
    grandTotal: real)

  /** Price lists by lower-cased brand; each brand may have several, tried in order. */
  datatype QuotationService = QuotationService(pricelists: map<string, seq<PricingSystem>>)

  /** `find_map` over a brand's pricing systems: the first price any of them yields. */
  function FirstPrice(systems: seq<PricingSystem>, product: Product, tag: string, norm: string -> string): (r: Option<real>)
    decreases |systems|
  {
    if |systems| == 0 then None
    else
      var p := GetPrice(systems[0], product, tag, norm);
      if p.Some? then p else FirstPrice(systems[1..], product, tag, norm)
  }

  /** System `i` is the first of `systems` to price the product. */
  predicate FirstToPrice(systems: seq<PricingSystem>, product: Product, tag: string, norm: string -> string, i: int)
  {
    0 <= i < |systems| && GetPrice(systems[i], product, tag, norm).Some?
    && forall j :: 0 <= j < i ==> GetPrice(systems[j], product, tag, norm).None?
  }

  /** `FirstPrice` is the price of the first system that has one, and None when none has. */
  lemma {:induction false} FirstPriceIsFirst(systems: seq<PricingSystem>, product: Product, tag: string, norm: string -> string)
    ensures FirstPrice(systems, product, tag, norm).None?
      <==> forall i :: 0 <= i < |systems| ==> GetPrice(systems[i], product, tag, norm).None?
    ensures forall i ::
              FirstToPrice(systems, product, tag, norm, i)
              ==> FirstPrice(systems, product, tag, norm) == GetPrice(systems[i], product, tag, norm)
    decreases |systems|
  {
    if |systems| > 0 {
      FirstPriceIsFirst(systems[1..], product, tag, norm);
      forall i | FirstToPrice(systems, product, tag, norm, i)
        ensures FirstPrice(systems, product, tag, norm) == GetPrice(systems[i], product, tag, norm)
      {
        if i > 0 {
          assert FirstToPrice(systems[1..], product, tag, norm, i - 1);
        }
      }
      if GetPrice(systems[0], product, tag, norm).None? {
        forall i | 0 <= i < |systems| - 1
          ensures GetPrice(systems[1..][i], product, tag, norm) == GetPrice(systems[i + 1], product, tag, norm)
        {
        }
      }
    }
  }

  /** `QuotationService::get_price`: the brand's lists (brand lower-cased), first price found. */
  function ServicePrice(svc: QuotationService, product: Product, brand: string, tag: string, norm: string -> string): (r: Option<real>)
  {
    if Lower(brand) in svc.pricelists then FirstPrice(svc.pricelists[Lower(brand)], product, tag, norm) else None
  }

  /**
   * An unknown brand (compared lower-cased) yields no price; a known brand yields the price of
   * its first pricing system that has one.
   */
  lemma ServicePriceSpec(svc: QuotationService, product: Product, brand: string, tag: string, norm: string -> string)
    ensures Lower(brand) !in svc.pricelists ==> ServicePrice(svc, product, brand, tag, norm).None?
    ensures Lower(brand) in svc.pricelists ==>
      forall i :: FirstToPrice(svc.pricelists[Lower(brand)], product, tag, norm, i)
        ==> ServicePrice(svc, product, brand, tag, norm) == GetPrice(svc.pricelists[Lower(brand)][i], product, tag, norm)
    ensures ServicePrice(svc, product, brand, tag, norm) == ServicePrice(svc, product, Lower(brand), tag, norm)
  {
    LowerIdempotent(brand);
    if Lower(brand) in svc.pricelists {
      FirstPriceIsFirst(svc.pricelists[Lower(brand)], product, tag, norm);
    }
  }

  function ItemPrice(svc: QuotationService, item: QuoteItem, norm: string -> string): Option<real>
  {
    ServicePrice(svc, item.product, item.brand, item.tag, norm)
  }

  /** Line `q` quotes `item` at listed price `listed`, as the documented formulas say. */
  predicate QuotesItem(q: QuotedItem, item: QuoteItem, listed: real)
  {
    q.product == item.product
    && q.quantityMtrs == item.quantity
    && q.price == DocumentedPrice(listed, item.discount, item.loadingFrls, item.loadingPvc)
    && q.amount == DocumentedAmount(q.price, item.quantity)
    && q.loadingFrls == item.loadingFrls
    && q.loadingPvc == item.loadingPvc
  }

  /** Sum of the line amounts, accumulated front to back. */
  function SumAmounts(items: seq<QuotedItem>): real
    decreases |items|
  {
    if |items| == 0 then 0.0 else SumAmounts(items[..|items| - 1]) + items[|items| - 1].amount
  }

  /** Every item of `items` is priced by `lookup`, and `lines` quotes them one for one at those prices. */
  predicate QuotesAll(lookup: QuoteItem -> Option<real>, items: seq<QuoteItem>, lines: seq<QuotedItem>)
  {
    |lines| == |items|
    && forall i :: 0 <= i < |items| ==> lookup(items[i]).Some? && QuotesItem(lines[i], items[i], lookup(items[i]).value)
  }

  lemma SumAmountsAppend(lines: seq<QuotedItem>, line: QuotedItem)
    ensures SumAmounts(lines + [line]) == SumAmounts(lines) + line.amount
  {
    assert (lines + [line])[..|lines|] == lines;
  }

  /**
   * The loop of `generate_quotation`, over the price lookup `lookup`: quote the items in order,
   * accumulating the basic total, and give up with None at the first item without a price.
   */
  method QuoteLines(lookup: QuoteItem -> Option<real>, items: seq<QuoteItem>)
    returns (r: Option<(seq<QuotedItem>, real)>)
    ensures r.None? <==> exists i :: 0 <= i < |items| && lookup(items[i]).None?
    ensures r.Some? ==> QuotesAll(lookup, items, r.value.0) && r.value.1 == SumAmounts(r.value.0)
  {
    var quoted: seq<QuotedItem> := [];
    var basicTotal := 0.0;
    var k := 0;
    while k < |items|
      invariant 0 <= k <= |items|
      invariant QuotesAll(lookup, items[..k], quoted)
      invariant basicTotal == SumAmounts(quoted)
    {
      var item := items[k];
      var listed := lookup(item);
      if listed.None? {
        return None;
      }
      var price := DocumentedPrice(listed.value, item.discount, item.loadingFrls, item.loadingPvc);
      var amount := DocumentedAmount(price, item.quantity);
      basicTotal := basicTotal + amount;
      var line := QuotedItem(item.product, item.quantity, price, amount, item.loadingPvc, item.loadingFrls);
      SumAmountsAppend(quoted, line);
      assert items[..k + 1][..k] == items[..k];
      quoted := quoted + [line];
      k := k + 1;
    }
    assert items[..k] == items;
    r := Some((quoted, basicTotal));
  }

  /**
   * `QuotationService::generate_quotation`. Any item without a price makes the whole quotation
   * None. Otherwise there is one quoted line per requested item, in order, priced by the
   * documented formula; the basic total is the sum of the amounts; delivery is echoed, and tax
   * and grand total follow the documented formulas. The quotation number and date play no part.
   */
  method GenerateQuotation(svc: QuotationService, quotationNumber: string, date: string,
                           request: QuotationRequest, norm: string -> string)
    returns (r: Option<QuotationResponse>)
    ensures r.None? <==> exists i :: 0 <= i < |request.items| && ItemPrice(svc, request.items[i], norm).None?
    ensures r.Some? ==>
      && QuotesAll(item => ItemPrice(svc, item, norm), request.items, r.value.items)
      && r.value.basicTotal == SumAmounts(r.value.items)
      && r.value.deliveryCharges == request.deliveryCharges
      && r.value.totalWithDelivery == r.value.basicTotal + request.deliveryCharges
      && r.value.taxes == DocumentedTaxes(r.value.totalWithDelivery)
      && r.value.grandTotal == DocumentedGrandTotal(r.value.totalWithDelivery)
  {
    var lines := QuoteLines(item => ItemPrice(svc, item, norm), request.items);
    if lines.None? {
      return None;
    }
    var (quoted, basicTotal) := lines.value;
    var totalWithDelivery := basicTotal + request.deliveryCharges;
    var taxes := totalWithDelivery * 0.18;
    var grandTotal := totalWithDelivery + taxes;
    r := Some(QuotationResponse(quoted, basicTotal, request.deliveryCharges, totalWithDelivery, taxes, grandTotal));
  }

  /** The basic total is the sum over the lines of price × quantity. */
  lemma {:induction false} SumAmountsOfQuotedLines(lines: seq<QuotedItem>, items: seq<QuoteItem>, listed: seq<real>)
    requires |lines| == |items| == |listed|
    requires forall i :: 0 <= i < |lines| ==> QuotesItem(lines[i], items[i], listed[i])
    ensures SumAmounts(lines) == LineTotal(items, listed)
    decreases |lines|
  {
    if |lines| > 0 {
      var n := |lines| - 1;
      SumAmountsOfQuotedLines(lines[..n], items[..n], listed[..n]);
    }
  }

  /** Σ listed × (1 − discount) × (1 + FRLS) × (1 + PVC) × quantity over the items. */
  function LineTotal(items: seq<QuoteItem>, listed: seq<real>): real
    requires |items| == |listed|
    decreases |items|
  {
    if |items| == 0 then 0.0
    else
      var n := |items| - 1;
      LineTotal(items[..n], listed[..n])
      + DocumentedPrice(listed[n], items[n].discount, items[n].loadingFrls, items[n].loadingPvc) * items[n].quantity
  }

  /**
   * A worked quotation line: 10 m at a listed 100 with 5% discount and 3% FRLS loading is 97.85
   * per metre and 978.50 in all; with no delivery charge the grand total is 1154.63.
   */
  lemma WorkedExample()
    ensures DocumentedPrice(100.0, 0.05, 0.03, 0.0) == 97.85
    ensures DocumentedAmount(97.85, 10.0) == 978.5
    ensures DocumentedGrandTotal(978.5 + 0.0) == 1154.63
  {
  }
}
