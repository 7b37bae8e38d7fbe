/**
 * The quote form of `public/js/create-quote.js` (class `CreateQuoteApp`):
 * the product catalog search, the selected line items with their quantity
 * and discount, the price summary, the form check, and the AI quote that can
 * replace or be merged into the selection. Prices are exact reals.
 */
module QuoteEditor {
  import opened Wrappers
  import opened Text
  import opened Lists

  /** A product of the catalog. */
  datatype Product = Product(id: string, name: string, description: string, category: string, basePrice: real)

  /** A selected product: the product's fields plus its quantity and its discount in percent. */
  datatype LineItem = LineItem(product: Product, quantity: int, discount: real)

  function ProductIds(ps: seq<Product>): (ids: seq<string>)
    ensures |ids| == |ps| && forall i :: 0 <= i < |ps| ==> ids[i] == ps[i].id
  {
    seq(|ps|, i requires 0 <= i < |ps| => ps[i].id)
  }

  function ItemIds(items: seq<LineItem>): (ids: seq<string>)
    ensures |ids| == |items| && forall i :: 0 <= i < |items| ==> ids[i] == items[i].product.id
  {
    seq(|items|, i requires 0 <= i < |items| => items[i].product.id)
  }

  // ---------------------------------------------------------------- catalog search

  /** Whether one of the product's name, description or category contains the lower-cased term, ignoring case. */
  predicate ProductMatches(p: Product, lowerTerm: string) {
    Contains(ToLower(p.name), lowerTerm) || Contains(ToLower(p.description), lowerTerm)
    || Contains(ToLower(p.category), lowerTerm)
  }

  /**
   * `filterProducts`: an empty term shows the whole catalog; otherwise exactly
   * the products matching the term, in catalog order.
   */
  function FilterProducts(term: string, catalog: seq<Product>): (r: seq<Product>)
    ensures term == "" ==> r == catalog
    ensures forall p :: p in r <==> p in catalog && (term == "" || ProductMatches(p, ToLower(term)))
    ensures forall p :: multiset(r)[p] == if term == "" || ProductMatches(p, ToLower(term)) then multiset(catalog)[p] else 0
  {
    if term == "" then catalog
    else
      var lower := ToLower(term);
      var f := Filter(catalog, p => ProductMatches(p, lower));
      FilterCount(catalog, p => ProductMatches(p, lower));
      assert forall p :: p in catalog && ProductMatches(p, lower) ==> p in f by {
        forall p | p in catalog && ProductMatches(p, lower) ensures p in f {
          var i :| 0 <= i < |catalog| && catalog[i] == p;
        }
      }
      f
  }

  /** The search keeps catalog order: searching two halves of a catalog gives the two results one after the other. */
  lemma FilterProductsKeepsOrder(term: string, a: seq<Product>, b: seq<Product>)
    ensures FilterProducts(term, a + b) == FilterProducts(term, a) + FilterProducts(term, b)
  {
    if term != "" {
      var lower := ToLower(term);
      FilterAppend(a, b, p => ProductMatches(p, lower));
    }
  }

  // ---------------------------------------------------------------- prices

  function LineSubtotal(li: LineItem): real {
    li.product.basePrice * li.quantity as real
  }

  function LineDiscount(li: LineItem): real {
    LineSubtotal(li) * (li.discount / 100.0)
  }

  /** `calculateLineTotal`: the line's price less its discount, that is the price scaled by the share not discounted. */
  function LineTotal(li: LineItem): (r: real)
    ensures r == li.product.basePrice * li.quantity as real * ((100.0 - li.discount) / 100.0)
  {
    LineSubtotal(li) - LineDiscount(li)
  }

  /** With a non-negative price and quantity and a discount between 0 and 100, a line costs between nothing and its full price. */
  lemma LineTotalBounds(li: LineItem)
    requires li.product.basePrice >= 0.0 && li.quantity >= 0 && 0.0 <= li.discount <= 100.0
    ensures 0.0 <= LineTotal(li) <= LineSubtotal(li)
  {
    var sub := LineSubtotal(li);
    var f := li.discount / 100.0;
    assert 0.0 <= f <= 1.0;
    assert sub >= 0.0;
    assert 0.0 <= sub * f <= sub * 1.0;
  }

  /** A full discount makes the line free; no discount leaves it at full price. */
  lemma LineTotalExtremes(li: LineItem)
    ensures li.discount == 0.0 ==> LineTotal(li) == LineSubtotal(li)
    ensures li.discount == 100.0 ==> LineTotal(li) == 0.0
  {
  }

  function LinesSubtotal(items: seq<LineItem>): real {
    if items == [] then 0.0 else LinesSubtotal(items[..|items| - 1]) + LineSubtotal(items[|items| - 1])
  }

  function LinesDiscount(items: seq<LineItem>): real {
    if items == [] then 0.0 else LinesDiscount(items[..|items| - 1]) + LineDiscount(items[|items| - 1])
  }

  function SumLineTotals(items: seq<LineItem>): real {
    if items == [] then 0.0 else SumLineTotals(items[..|items| - 1]) + LineTotal(items[|items| - 1])
  }

  /** The summary's total (subtotal less total discount) is the sum of the line totals the rows show. */
  lemma {:induction false} SummaryTotalIsSumOfLines(items: seq<LineItem>)
    ensures SumLineTotals(items) == LinesSubtotal(items) - LinesDiscount(items)
  {
    if items != [] {
      SummaryTotalIsSumOfLines(items[..|items| - 1]);
    }
  }

  /** The three figures of the summary box. */
  datatype Summary = Summary(subtotal: real, discount: real, total: real)

  // ---------------------------------------------------------------- inputs

  /** `parseInt(value) || 1`: a quantity that does not parse (`None`) or parses to 0 becomes 1. */
  function QuantityFromInput(parsed: Option<int>): (q: int)
    ensures q != 0
    ensures parsed.Some? && parsed.value != 0 ==> q == parsed.value
    ensures parsed.None? || parsed == Some(0) ==> q == 1
  {
    match parsed
    case None => 1
    case Some(n) => if n == 0 then 1 else n
  }

  /** `parseFloat(value) || 0`: a discount that does not parse (`None`) becomes 0; any number is kept. */
  function DiscountFromInput(parsed: Option<real>): (d: real)
    ensures parsed.Some? ==> d == parsed.value
    ensures parsed.None? ==> d == 0.0
  {
    match parsed
    case None => 0.0
    case Some(x) => if x == 0.0 then 0.0 else x
  }

  // ---------------------------------------------------------------- the form check

  /** What `validateForm` accepts: every required field is non-blank after trimming and a product is selected. */
  predicate FormComplete(fields: seq<string>, selected: seq<LineItem>): (ok: bool)
    ensures ok <==> (forall i :: 0 <= i < |fields| ==> !AllWhitespace(fields[i])) && selected != []
    ensures fields == [] ==> (ok <==> selected != [])
  {
    (forall i :: 0 <= i < |fields| ==> Trim(fields[i]) != "") && selected != []
  }

  // ---------------------------------------------------------------- merging an AI quote

  /**
   * One step of `modifyAIQuote`: the first entry with the AI product's id
   * is replaced by it, otherwise the AI product is appended.
   */
  function MergeOne(selected: seq<LineItem>, ai: LineItem): (r: seq<LineItem>)
    ensures ai in r
    ensures ai.product.id in ItemIds(selected) ==> |r| == |selected|
    ensures ai.product.id !in ItemIds(selected) ==> r == selected + [ai]
    ensures forall i :: 0 <= i < |selected| && selected[i].product.id != ai.product.id ==> r[i] == selected[i]
    ensures forall i :: 0 <= i < |selected| ==> r[i].product.id == selected[i].product.id
    ensures Unique(ItemIds(selected)) ==> Unique(ItemIds(r))
    ensures forall k :: (0 <= k < |selected| && selected[k].product.id == ai.product.id &&
                         ai.product.id !in ItemIds(selected[..k])) ==> r == selected[k := ai]
  {
    match IndexOf(ItemIds(selected), ai.product.id)
    case None =>
      assert ItemIds(selected + [ai]) == ItemIds(selected) + [ai.product.id];
      selected + [ai]
    case Some(k) =>
      assert selected[k := ai][k] == ai;
      // no entry before `k` has the id, and every prefix past `k` holds it
      forall j | 0 <= j < k ensures selected[j].product.id != ai.product.id {
        assert ItemIds(selected)[..k][j] == selected[j].product.id;
      }
      forall j | k < j <= |selected| ensures ai.product.id in ItemIds(selected[..j]) {
        assert ItemIds(selected[..j])[k] == ai.product.id;
      }
      selected[k := ai]
  }

  /** `modifyAIQuote`'s whole effect: the AI products merged in one after another, front to back. */
  function MergedAll(selected: seq<LineItem>, ai: seq<LineItem>): (r: seq<LineItem>)
    ensures ai == [] ==> r == selected
    ensures |selected| <= |r| <= |selected| + |ai|
    ensures forall id :: id in ItemIds(selected) ==> id in ItemIds(r)
    ensures forall j :: 0 <= j < |ai| ==> ai[j].product.id in ItemIds(r)
    decreases |ai|
  {
    if ai == [] then selected
    else
      var s1 := MergeOne(selected, ai[0]);
      var r := MergedAll(s1, ai[1..]);
      assert ai[0].product.id in ItemIds(s1) by {
        var k :| 0 <= k < |s1| && s1[k] == ai[0];
        assert ItemIds(s1)[k] == ai[0].product.id;
      }
      assert forall id :: id in ItemIds(selected) ==> id in ItemIds(s1) by {
        forall id | id in ItemIds(selected) ensures id in ItemIds(s1) {
          var k :| 0 <= k < |selected| && ItemIds(selected)[k] == id;
          assert ItemIds(s1)[k] == id;
        }
      }
      assert forall j :: 1 <= j < |ai| ==> ai[j] == ai[1..][j - 1];
      r
  }

  /**
   * Merging keeps every existing entry in its place with its id, leaves the
   * ones whose id no AI product carries untouched, and keeps ids distinct.
   */
  lemma {:induction false} MergedAllKeepsExisting(selected: seq<LineItem>, ai: seq<LineItem>)
    ensures |MergedAll(selected, ai)| >= |selected|
    ensures forall i :: 0 <= i < |selected| ==> MergedAll(selected, ai)[i].product.id == selected[i].product.id
    ensures forall i :: 0 <= i < |selected| && selected[i].product.id !in ItemIds(ai) ==>
      MergedAll(selected, ai)[i] == selected[i]
    ensures Unique(ItemIds(selected)) ==> Unique(ItemIds(MergedAll(selected, ai)))
    decreases |ai|
  {
    if ai != [] {
      var s1 := MergeOne(selected, ai[0]);
      MergedAllKeepsExisting(s1, ai[1..]);
      forall i | 0 <= i < |selected| && selected[i].product.id !in ItemIds(ai)
        ensures MergedAll(selected, ai)[i] == selected[i]
      {
        assert ItemIds(ai)[0] == ai[0].product.id;
        assert selected[i].product.id !in ItemIds(ai[1..]) by {
          assert forall j :: 0 <= j < |ai| - 1 ==> ItemIds(ai[1..])[j] == ItemIds(ai)[j + 1];
        }
      }
    }
  }

  /** After merging, the last AI product carrying each id is in the selection, so every AI id is there. */
  lemma {:induction false} MergedAllHasLastAiProducts(selected: seq<LineItem>, ai: seq<LineItem>)
    ensures forall j :: 0 <= j < |ai| && ai[j].product.id !in ItemIds(ai[j + 1..]) ==>
      ai[j] in MergedAll(selected, ai)
    decreases |ai|
  {
    if ai != [] {
      var s1 := MergeOne(selected, ai[0]);
      var rest := ai[1..];
      MergedAllHasLastAiProducts(s1, rest);
      forall j | 0 <= j < |ai| && ai[j].product.id !in ItemIds(ai[j + 1..])
        ensures ai[j] in MergedAll(selected, ai)
      {
        if j == 0 {
          MergedAllKeepsExisting(s1, rest);
          var k :| 0 <= k < |s1| && s1[k] == ai[0];
          assert ai[0].product.id !in ItemIds(rest) by { assert ai[1..] == ai[0 + 1..]; }
        } else {
          assert rest[j - 1] == ai[j] && rest[j - 1 + 1..] == ai[j + 1..];
        }
      }
    }
  }

  /** The merge brings in nothing but AI products: every entry was selected before or is an AI product. */
  lemma {:induction false} MergedAllOnlyFromInputs(selected: seq<LineItem>, ai: seq<LineItem>)
    ensures forall x :: x in MergedAll(selected, ai) ==> x in selected || x in ai
    decreases |ai|
  {
    if ai != [] {
      var s1 := MergeOne(selected, ai[0]);
      MergedAllOnlyFromInputs(s1, ai[1..]);
      forall x | x in s1 ensures x in selected || x == ai[0] {
        var k :| 0 <= k < |s1| && s1[k] == x;
        if k < |selected| && x != ai[0] {
          assert x == selected[k];
        }
      }
    }
  }

  /**
   * The entries past the old selection are AI products whose id was not
   * selected before: matching entries are overwritten, only the rest appended.
   */
  lemma MergedAllAppendsOnlyNewAi(selected: seq<LineItem>, ai: seq<LineItem>)
    ensures forall i :: |selected| <= i < |MergedAll(selected, ai)| ==>
      MergedAll(selected, ai)[i] in ai && MergedAll(selected, ai)[i].product.id !in ItemIds(selected)
  {
    forall i | |selected| <= i < |MergedAll(selected, ai)|
      ensures MergedAll(selected, ai)[i] in ai && MergedAll(selected, ai)[i].product.id !in ItemIds(selected)
    {
      MergedAllAppendedEntry(selected, ai, i);
    }
  }

  lemma {:induction false} MergedAllAppendedEntry(selected: seq<LineItem>, ai: seq<LineItem>, i: nat)
    requires |selected| <= i < |MergedAll(selected, ai)|
    ensures MergedAll(selected, ai)[i] in ai && MergedAll(selected, ai)[i].product.id !in ItemIds(selected)
    decreases |ai|
  {
    var s1 := MergeOne(selected, ai[0]);
    var rest := ai[1..];
    assert MergedAll(selected, ai) == MergedAll(s1, rest);
    if i < |s1| {
      FirstAiAppended(selected, ai[0], rest);
    } else {
      MergedAllAppendedEntry(s1, rest, i);
      NewIdsStayNew(selected, ai[0], MergedAll(s1, rest)[i].product.id);
    }
  }

  /** An id not in the selection after one merge step was not in it before. */
  lemma NewIdsStayNew(selected: seq<LineItem>, x: LineItem, id: string)
    requires id !in ItemIds(MergeOne(selected, x))
    ensures id !in ItemIds(selected)
  {
    var s1 := MergeOne(selected, x);
    forall k | 0 <= k < |selected| ensures ItemIds(selected)[k] != id {
      assert ItemIds(s1)[k] == ItemIds(selected)[k];
    }
  }

  /** When the first AI product is appended, the entry at its place after the whole merge is an AI product with a new id. */
  lemma FirstAiAppended(selected: seq<LineItem>, x: LineItem, rest: seq<LineItem>)
    requires |selected| < |MergeOne(selected, x)|
    ensures |selected| < |MergedAll(MergeOne(selected, x), rest)|
    ensures MergedAll(MergeOne(selected, x), rest)[|selected|] == x || MergedAll(MergeOne(selected, x), rest)[|selected|] in rest
    ensures MergedAll(MergeOne(selected, x), rest)[|selected|].product.id !in ItemIds(selected)
  {
    var s1 := MergeOne(selected, x);
    var r := MergedAll(s1, rest);
    var i := |selected|;
    assert x.product.id !in ItemIds(selected);
    assert s1 == selected + [x];
    MergedAllKeepsExisting(s1, rest);
    var e := r[i];
    assert e.product.id == x.product.id;
    assert e !in selected by {
      forall k | 0 <= k < |selected| ensures selected[k] != e {
        assert ItemIds(selected)[k] == selected[k].product.id;
      }
    }
    MergedAllOnlyFromInputs(s1, rest);
    assert e in s1 || e in rest;
  }

  class CreateQuoteApp {
    /** The line items of the quote being written. */
    var selectedProducts: seq<LineItem>
    /** The products of the AI quote on display, if one is shown. */
    var currentAIQuote: Option<seq<LineItem>>
    /** Whether the submit button is disabled. */
    var submitDisabled: bool

    constructor ()
      ensures selectedProducts == [] && currentAIQuote == None && !submitDisabled
    {
      selectedProducts, currentAIQuote, submitDisabled := [], None, false;
    }

    /**
     * `addProductToQuote` against the catalog: an unknown id changes nothing;
     * an id already selected has its quantity raised by one; a new id is
     * appended with quantity 1 and no discount. Ids stay distinct.
     */
    method AddProductToQuote(productId: string, catalog: seq<Product>)
      modifies this`selectedProducts
      ensures productId !in ProductIds(catalog) ==> selectedProducts == old(selectedProducts)
      ensures productId in ProductIds(catalog) && productId in ItemIds(old(selectedProducts)) ==>
        var k := IndexOf(ItemIds(old(selectedProducts)), productId).value;
        selectedProducts == old(selectedProducts)[k := old(selectedProducts)[k].(quantity := old(selectedProducts)[k].quantity + 1)]
      ensures productId in ProductIds(catalog) && productId !in ItemIds(old(selectedProducts)) ==>
        selectedProducts == old(selectedProducts) + [LineItem(catalog[IndexOf(ProductIds(catalog), productId).value], 1, 0.0)]
      ensures ItemIds(selectedProducts) == ItemIds(old(selectedProducts))
        || ItemIds(selectedProducts) == ItemIds(old(selectedProducts)) + [productId]
      ensures Unique(ItemIds(old(selectedProducts))) ==> Unique(ItemIds(selectedProducts))
    {
      var found := IndexOf(ProductIds(catalog), productId);
      if found.None? {
        return;
      }
      var product := catalog[found.value];
      var existing := IndexOf(ItemIds(selectedProducts), productId);
      if existing.Some? {
        var k := existing.value;
        selectedProducts := selectedProducts[k := selectedProducts[k].(quantity := selectedProducts[k].quantity + 1)];
        assert ItemIds(selectedProducts) == ItemIds(old(selectedProducts));
      } else {
        selectedProducts := selectedProducts + [LineItem(product, 1, 0.0)];
        assert ItemIds(selectedProducts) == ItemIds(old(selectedProducts)) + [productId];
      }
    }

    /** `updateProductQuantity`: only the entry at `index` changes; an index past the end throws and changes nothing. */
    method UpdateProductQuantity(index: nat, parsed: Option<int>) returns (ok: bool)
      modifies this`selectedProducts
      ensures ok <==> index < |old(selectedProducts)|
      ensures ok ==>
        selectedProducts == old(selectedProducts)[index := old(selectedProducts)[index].(quantity := QuantityFromInput(parsed))]
      ensures !ok ==> selectedProducts == old(selectedProducts)
      ensures ItemIds(selectedProducts) == ItemIds(old(selectedProducts))
    {
      if index >= |selectedProducts| {
        return false;
      }
      selectedProducts := selectedProducts[index := selectedProducts[index].(quantity := QuantityFromInput(parsed))];
      ok := true;
    }

    /** `updateProductDiscount`: only the entry at `index` changes; an index past the end throws and changes nothing. */
    method UpdateProductDiscount(index: nat, parsed: Option<real>) returns (ok: bool)
      modifies this`selectedProducts
      ensures ok <==> index < |old(selectedProducts)|
      ensures ok ==>
        selectedProducts == old(selectedProducts)[index := old(selectedProducts)[index].(discount := DiscountFromInput(parsed))]
      ensures !ok ==> selectedProducts == old(selectedProducts)
      ensures ItemIds(selectedProducts) == ItemIds(old(selectedProducts))
    {
      if index >= |selectedProducts| {
        return false;
      }
      selectedProducts := selectedProducts[index := selectedProducts[index].(discount := DiscountFromInput(parsed))];
      ok := true;
    }

    /**
     * `removeProduct`: the entry at `index` leaves the list and the others
     * keep their order; past the end `splice` removes nothing (and the
     * notification then throws).
     */
    method RemoveProduct(index: nat) returns (ok: bool)
      modifies this`selectedProducts
      ensures ok <==> index < |old(selectedProducts)|
      ensures ok ==> selectedProducts == old(selectedProducts)[..index] + old(selectedProducts)[index + 1..]
      ensures ok ==> |selectedProducts| == |old(selectedProducts)| - 1
      ensures ok ==> forall j :: 0 <= j < |selectedProducts| ==>
        selectedProducts[j] == old(selectedProducts)[if j < index then j else j + 1]
      ensures !ok ==> selectedProducts == old(selectedProducts)
    {
      if index >= |selectedProducts| {
        return false;
      }
      selectedProducts := selectedProducts[..index] + selectedProducts[index + 1..];
      ok := true;
    }

    /** `updateSummary`: the sums over the selection, and a total equal to the sum of the line totals. */
    method UpdateSummary() returns (s: Summary)
      ensures s.subtotal == LinesSubtotal(selectedProducts)
      ensures s.discount == LinesDiscount(selectedProducts)
      ensures s.total == s.subtotal - s.discount
      ensures s.total == SumLineTotals(selectedProducts)
    {
      var subtotal, totalDiscount := 0.0, 0.0;
      for i := 0 to |selectedProducts|
        invariant subtotal == LinesSubtotal(selectedProducts[..i])
        invariant totalDiscount == LinesDiscount(selectedProducts[..i])
      {
        var product := selectedProducts[i];
        assert selectedProducts[..i + 1][..i] == selectedProducts[..i];
        var lineSubtotal := product.product.basePrice * product.quantity as real;
        var discountAmount := lineSubtotal * (product.discount / 100.0);
        subtotal := subtotal + lineSubtotal;
        totalDiscount := totalDiscount + discountAmount;
      }
      assert selectedProducts[..|selectedProducts|] == selectedProducts;
      SummaryTotalIsSumOfLines(selectedProducts);
      s := Summary(subtotal, totalDiscount, subtotal - totalDiscount);
    }

    /** `validateForm`: the verdict of `FormComplete`, with the submit button disabled exactly when it fails. */
    method ValidateForm(requiredFields: seq<string>) returns (isValid: bool)
      modifies this`submitDisabled
      ensures isValid <==> FormComplete(requiredFields, selectedProducts)
      ensures isValid <==>
        (forall i :: 0 <= i < |requiredFields| ==> !AllWhitespace(requiredFields[i])) && selectedProducts != []
      ensures submitDisabled == !isValid
    {
      isValid := true;
      for i := 0 to |requiredFields|
        invariant isValid <==> forall j :: 0 <= j < i ==> Trim(requiredFields[j]) != ""
      {
        if Trim(requiredFields[i]) == "" {
          isValid := false;
        }
      }
      if |selectedProducts| == 0 {
        isValid := false;
      }
      submitDisabled := !isValid;
    }

    /** `displayAIResults`: the quote's products become the AI quote on display. */
    method ShowAIResults(products: seq<LineItem>)
      modifies this`currentAIQuote
      ensures currentAIQuote == Some(products)
    {
      currentAIQuote := Some(products);
    }

    /** `hideAIResults`: no AI quote is on display any more. */
    method HideAIResults()
      modifies this`currentAIQuote
      ensures currentAIQuote == None
    {
      currentAIQuote := None;
    }

    /** `acceptAIQuote`: the AI products replace the selection, in their order; without an AI quote nothing happens. */
    method AcceptAIQuote()
      modifies this`selectedProducts, this`currentAIQuote
      ensures old(currentAIQuote).None? ==> selectedProducts == old(selectedProducts) && currentAIQuote == None
      ensures old(currentAIQuote).Some? ==> selectedProducts == old(currentAIQuote).value && currentAIQuote == None
    {
      if currentAIQuote.None? {
        return;
      }
      selectedProducts := currentAIQuote.value;
      HideAIResults();
    }

    /**
     * `modifyAIQuote`: each AI product in turn replaces the entry with its id
     * or is appended; without an AI quote nothing happens.
     */
    method ModifyAIQuote()
      modifies this`selectedProducts, this`currentAIQuote
      ensures old(currentAIQuote).None? ==> selectedProducts == old(selectedProducts) && currentAIQuote == None
      ensures old(currentAIQuote).Some? ==>
        selectedProducts == MergedAll(old(selectedProducts), old(currentAIQuote).value) && currentAIQuote == None
    {
      if currentAIQuote.None? {
        return;
      }
      var ai := currentAIQuote.value;
      for i := 0 to |ai|
        invariant MergedAll(selectedProducts, ai[i..]) == MergedAll(old(selectedProducts), ai)
      {
        assert ai[i..][0] == ai[i] && ai[i..][1..] == ai[i + 1..];
        selectedProducts := MergeOne(selectedProducts, ai[i]);
      }
      HideAIResults();
    }
  }
}
