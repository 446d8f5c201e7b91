/**
 * The point-of-sale order model: an order line (`SPOSOrderline`) with its
 * flat-rate tax computation, and an order (`SPOSOrder`) holding an ordered
 * list of line objects, at most one of which is selected.
 *
 * Prices, quantities and discounts are exact reals. The random line
 * identifiers of the original are drawn from a per-order counter instead, so
 * that their distinctness within one order, which the original only hopes for,
 * is what the model keeps; lines of different orders can share an identifier.
 */
module Orders {
  import opened Wrappers
  import opened Catalog

  // ---------------------------------------------------------------------------
  // Prices
  // ---------------------------------------------------------------------------

  /** The flat value-added tax rate, 7%. */
  const TaxRate: real := 7.0 / 100.0

  datatype Prices = Prices(priceWithTax: real, priceWithoutTax: real, tax: real)

  /** `get_all_prices` on the values of a line: the unit price after the
      percentage discount, times the quantity, and the tax on that. */
  function PricesOf(price: real, quantity: real, discount: real): (r: Prices)
    ensures r.priceWithoutTax == price * (1.0 - discount / 100.0) * quantity
    ensures r.tax == r.priceWithoutTax * TaxRate
    ensures r.priceWithTax == r.priceWithoutTax + r.tax
  {
    var priceUnit := price * (1.0 - discount / 100.0);
    var tax := priceUnit * quantity * TaxRate;
    Prices(priceUnit * quantity + tax, priceUnit * quantity, tax)
  }

  /** The price with tax is the price without tax scaled by 1.07. */
  lemma PriceWithTaxScales(price: real, quantity: real, discount: real)
    ensures PricesOf(price, quantity, discount).priceWithTax ==
      PricesOf(price, quantity, discount).priceWithoutTax * (1.0 + TaxRate)
  {
  }

  /** Without a discount a line costs its unit price times its quantity; a
      full discount makes it free. */
  lemma DiscountExtremes(price: real, quantity: real)
    ensures PricesOf(price, quantity, 0.0).priceWithoutTax == price * quantity
    ensures PricesOf(price, quantity, 100.0) == Prices(0.0, 0.0, 0.0)
  {
  }

  /** With a non-negative price and quantity and a discount in [0, 100], the
      discounted amount lies between 0 and the undiscounted amount. */
  lemma DiscountedWithinBounds(price: real, quantity: real, discount: real)
    requires price >= 0.0 && quantity >= 0.0 && 0.0 <= discount <= 100.0
    ensures 0.0 <= PricesOf(price, quantity, discount).priceWithoutTax <= price * quantity
    ensures 0.0 <= PricesOf(price, quantity, discount).tax
  {
    var f := 1.0 - discount / 100.0;
    assert 0.0 <= f <= 1.0;
    assert price * f * quantity == (price * quantity) * f;
    assert 0.0 <= price * quantity;
  }

  /** `Math.min(Math.max(d, 0), 100)`. */
  function Clamp(d: real): (r: real)
    ensures 0.0 <= r <= 100.0
    ensures 0.0 <= d <= 100.0 ==> r == d
    ensures d < 0.0 ==> r == 0.0
    ensures d > 100.0 ==> r == 100.0
  {
    var atLeast0 := if d > 0.0 then d else 0.0;
    if atLeast0 < 100.0 then atLeast0 else 100.0
  }

  // ---------------------------------------------------------------------------
  // Exported lines and the totals over them
  // ---------------------------------------------------------------------------

  /** One `{product_id, qty, price_unit, discount}` entry of `export_as_JSON`. */
  datatype ExportedLine = ExportedLine(productId: nat, qty: real, priceUnit: real, discount: real)

  function LinePrices(e: ExportedLine): Prices
  {
    PricesOf(e.priceUnit, e.qty, e.discount)
  }

  /** `reduce((sum, line) => sum + line.get_price_with_tax(), 0)`. */
  function SumWithTax(es: seq<ExportedLine>): real
    decreases |es|
  {
    if es == [] then 0.0 else SumWithTax(es[..|es| - 1]) + LinePrices(es[|es| - 1]).priceWithTax
  }

  /** `reduce((sum, line) => sum + line.get_price_without_tax(), 0)`. */
  function SumWithoutTax(es: seq<ExportedLine>): real
    decreases |es|
  {
    if es == [] then 0.0 else SumWithoutTax(es[..|es| - 1]) + LinePrices(es[|es| - 1]).priceWithoutTax
  }

  /** `reduce((sum, line) => sum + line.get_tax(), 0)`. */
  function SumTax(es: seq<ExportedLine>): real
    decreases |es|
  {
    if es == [] then 0.0 else SumTax(es[..|es| - 1]) + LinePrices(es[|es| - 1]).tax
  }

  /** The total with tax is the total without tax plus the total tax. */
  lemma {:induction false} TotalsAddUp(es: seq<ExportedLine>)
    ensures SumWithTax(es) == SumWithoutTax(es) + SumTax(es)
    decreases |es|
  {
    if es != [] {
      TotalsAddUp(es[..|es| - 1]);
    }
  }

  /** The total tax is 7% of the total without tax. */
  lemma {:induction false} TotalTaxIsRate(es: seq<ExportedLine>)
    ensures SumTax(es) == SumWithoutTax(es) * TaxRate
    decreases |es|
  {
    if es != [] {
      TotalTaxIsRate(es[..|es| - 1]);
    }
  }

  /** The totals of two line lists one after the other add up. */
  lemma {:induction false} SumsAppend(a: seq<ExportedLine>, b: seq<ExportedLine>)
    ensures SumWithTax(a + b) == SumWithTax(a) + SumWithTax(b)
    ensures SumWithoutTax(a + b) == SumWithoutTax(a) + SumWithoutTax(b)
    ensures SumTax(a + b) == SumTax(a) + SumTax(b)
    decreases |b|
  {
    if b == [] {
      assert a + b == a;
    } else {
      assert (a + b)[..|a + b| - 1] == a + b[..|b| - 1];
      SumsAppend(a, b[..|b| - 1]);
    }
  }

  /** The snapshot `export_as_JSON` takes of the order, with `partner_id`
      absent (`false` in the original) when there is no client. */
  datatype ExportedOrder = ExportedOrder(
    name: string,
    amountTotal: real,
    amountTax: real,
    lines: seq<ExportedLine>,
    partnerId: Option<nat>,
    dateOrder: string)

  /** `options.quantity || 1`: an absent quantity and the falsy quantity 0 both become 1. */
  function QuantityOrOne(quantity: Option<real>): (r: real)
    ensures quantity.Some? && quantity.value != 0.0 ==> r == quantity.value
    ensures quantity.None? || quantity.value == 0.0 ==> r == 1.0
    ensures r != 0.0
  {
    if quantity.Some? && quantity.value != 0.0 then quantity.value else 1.0
  }

  // ---------------------------------------------------------------------------
  // Order lines
  // ---------------------------------------------------------------------------

  class OrderLine {
    const product: Product
    const internalId: nat
    var quantity: real
    var price: real
    var discount: real
    var selected: bool

    /** A new line at the product's list price, undiscounted and unselected. */
    constructor (product: Product, quantity: real, internalId: nat)
      ensures this.product == product && this.quantity == quantity && this.internalId == internalId
      ensures price == product.lstPrice && discount == 0.0 && !selected
    {
      this.product := product;
      this.quantity := quantity;
      this.price := product.lstPrice;
      this.discount := 0.0;
      this.selected := false;
      this.internalId := internalId;
    }

    method SetQuantity(qty: real)
      modifies `quantity
      ensures quantity == qty
    {
      quantity := qty;
    }

    method SetPrice(newPrice: real)
      modifies `price
      ensures price == newPrice
    {
      price := newPrice;
    }

    /** Stores the discount clamped into [0, 100]. */
    method SetDiscount(d: real)
      modifies `discount
      ensures discount == Clamp(d)
      ensures 0.0 <= discount <= 100.0
    {
      discount := Clamp(d);
    }

    /** `get_all_prices`: the three amounts of this line. */
    function AllPrices(): (r: Prices)
      reads `price, `quantity, `discount
      ensures r.priceWithoutTax == price * (1.0 - discount / 100.0) * quantity
      ensures r.tax == r.priceWithoutTax * TaxRate
      ensures r.priceWithTax == r.priceWithoutTax + r.tax
    {
      PricesOf(price, quantity, discount)
    }

    function PriceWithoutTax(): (r: real)
      reads `price, `quantity, `discount
      ensures r == price * (1.0 - discount / 100.0) * quantity
    {
      AllPrices().priceWithoutTax
    }

    function Tax(): (r: real)
      reads `price, `quantity, `discount
      ensures r == PriceWithoutTax() * TaxRate
    {
      AllPrices().tax
    }

    function PriceWithTax(): (r: real)
      reads `price, `quantity, `discount
      ensures r == PriceWithoutTax() + Tax()
      ensures r == PriceWithoutTax() * (1.0 + TaxRate)
    {
      AllPrices().priceWithTax
    }

    /** This line's entry in the exported order. */
    function Export(): (r: ExportedLine)
      reads `price, `quantity, `discount
      ensures r.productId == product.id && r.qty == quantity && r.priceUnit == price && r.discount == discount
      ensures LinePrices(r) == AllPrices()
    {
      ExportedLine(product.id, quantity, price, discount)
    }
  }

  // ---------------------------------------------------------------------------
  // Searches over a list of lines
  // ---------------------------------------------------------------------------

  /** A line `add_product` may merge into: same product, list price, no discount. */
  predicate Mergeable(l: OrderLine, p: Product)
    reads l`price, l`discount
  {
    l.product.id == p.id && l.price == p.lstPrice && l.discount == 0.0
  }

  /** The index of the first line of `ls` that `p` may merge into, if any. */
  function MergeIndex(ls: seq<OrderLine>, p: Product): (r: Option<nat>)
    reads (set l | l in ls)`price
    reads (set l | l in ls)`discount
    ensures r.Some? ==> r.value < |ls| && Mergeable(ls[r.value], p)
    ensures r.Some? ==> forall j :: 0 <= j < r.value ==> !Mergeable(ls[j], p)
    ensures r.None? ==> forall j :: 0 <= j < |ls| ==> !Mergeable(ls[j], p)
    decreases |ls|
  {
    if ls == [] then None
    else if Mergeable(ls[0], p) then Some(0)
    else
      var rest := MergeIndex(ls[1..], p);
      if rest.Some? then Some(rest.value + 1) else None
  }

  /** The index of the first selected line of `ls`, if any. */
  function FirstSelected(ls: seq<OrderLine>): (r: Option<nat>)
    reads (set l | l in ls)`selected
    ensures r.Some? ==> r.value < |ls| && ls[r.value].selected
    ensures r.Some? ==> forall j :: 0 <= j < r.value ==> !ls[j].selected
    ensures r.None? ==> forall j :: 0 <= j < |ls| ==> !ls[j].selected
    decreases |ls|
  {
    if ls == [] then None
    else if ls[0].selected then Some(0)
    else
      var rest := FirstSelected(ls[1..]);
      if rest.Some? then Some(rest.value + 1) else None
  }

  /** The lines of `ls` whose identifier is not `id`, in their order. */
  function WithoutId(ls: seq<OrderLine>, id: nat): (r: seq<OrderLine>)
    ensures |r| <= |ls|
    decreases |ls|
  {
    if ls == [] then []
    else
      var before := WithoutId(ls[..|ls| - 1], id);
      if ls[|ls| - 1].internalId == id then before else before + [ls[|ls| - 1]]
  }

  /** The filter keeps exactly the lines whose identifier differs from `id`. */
  lemma {:induction false} WithoutIdMembers(ls: seq<OrderLine>, id: nat)
    ensures forall l :: l in WithoutId(ls, id) ==> l in ls && l.internalId != id
    ensures forall l :: l in ls && l.internalId != id ==> l in WithoutId(ls, id)
    decreases |ls|
  {
    if ls != [] {
      var init := ls[..|ls| - 1];
      WithoutIdMembers(init, id);
      assert forall l :: l in ls <==> l in init || l == ls[|ls| - 1];
    }
  }

  /** The filter keeps the order of the lines it keeps: it distributes over concatenation. */
  lemma {:induction false} WithoutIdAppend(a: seq<OrderLine>, b: seq<OrderLine>, id: nat)
    ensures WithoutId(a + b, id) == WithoutId(a, id) + WithoutId(b, id)
    decreases |b|
  {
    if b == [] {
      assert a + b == a;
    } else {
      assert (a + b)[..|a + b| - 1] == a + b[..|b| - 1];
      WithoutIdAppend(a, b[..|b| - 1], id);
    }
  }

  /** Filtering twice by the same identifier changes nothing more. */
  lemma {:induction false} WithoutIdIdempotent(ls: seq<OrderLine>, id: nat)
    ensures WithoutId(WithoutId(ls, id), id) == WithoutId(ls, id)
    decreases |ls|
  {
    if ls != [] {
      var init := ls[..|ls| - 1];
      WithoutIdIdempotent(init, id);
      var last := ls[|ls| - 1];
      if last.internalId != id {
        var f := WithoutId(init, id);
        assert (f + [last])[..|f + [last]| - 1] == f;
      }
    }
  }

  /** Every line of a list whose identifiers are distinct, removed by its own
      identifier, leaves the others in order: the removal takes out that line only. */
  lemma {:induction false} WithoutIdRemovesOne(ls: seq<OrderLine>, i: nat)
    requires i < |ls|
    requires forall j, k :: 0 <= j < k < |ls| ==> ls[j].internalId != ls[k].internalId
    ensures WithoutId(ls, ls[i].internalId) == ls[..i] + ls[i + 1..]
  {
    var id := ls[i].internalId;
    assert ls == ls[..i] + [ls[i]] + ls[i + 1..];
    WithoutIdAppend(ls[..i] + [ls[i]], ls[i + 1..], id);
    WithoutIdAppend(ls[..i], [ls[i]], id);
    assert [ls[i]][..0] == [];
    WithoutIdUnchanged(ls[..i], id);
    WithoutIdUnchanged(ls[i + 1..], id);
  }

  /** Filtering a list none of whose identifiers is `id` changes nothing. */
  lemma {:induction false} WithoutIdUnchanged(ls: seq<OrderLine>, id: nat)
    requires forall j :: 0 <= j < |ls| ==> ls[j].internalId != id
    ensures WithoutId(ls, id) == ls
    decreases |ls|
  {
    if ls != [] {
      WithoutIdUnchanged(ls[..|ls| - 1], id);
    }
  }

  /** The exported entries of `ls`, in order. */
  function ExportLines(ls: seq<OrderLine>): (r: seq<ExportedLine>)
    reads (set l | l in ls)`price
    reads (set l | l in ls)`quantity
    reads (set l | l in ls)`discount
    ensures |r| == |ls|
    ensures forall i :: 0 <= i < |ls| ==> r[i] == ls[i].Export()
    decreases |ls|
  {
    if ls == [] then [] else ExportLines(ls[..|ls| - 1]) + [ls[|ls| - 1].Export()]
  }

  /** Appending a line adds its own amounts to the three totals. */
  lemma TotalsOfAppend(ls: seq<OrderLine>, l: OrderLine)
    ensures SumWithTax(ExportLines(ls + [l])) == SumWithTax(ExportLines(ls)) + l.PriceWithTax()
    ensures SumWithoutTax(ExportLines(ls + [l])) == SumWithoutTax(ExportLines(ls)) + l.PriceWithoutTax()
    ensures SumTax(ExportLines(ls + [l])) == SumTax(ExportLines(ls)) + l.Tax()
  {
    assert (ls + [l])[..|ls|] == ls;
    var es := ExportLines(ls) + [l.Export()];
    assert ExportLines(ls + [l]) == es;
    assert es[..|es| - 1] == ExportLines(ls);
  }

  // ---------------------------------------------------------------------------
  // Orders
  // ---------------------------------------------------------------------------

  class Order {
    const id: nat
    const name: string
    const dateOrder: string
    var orderlines: seq<OrderLine>
    var client: Option<Partner>
    var temporary: bool
    /** The identifier the next new line gets. */
    var nextLineId: nat

    /** Line identifiers are distinct and below the counter. */
    ghost predicate LineIdsFresh()
      reads this`orderlines, this`nextLineId
    {
      && (forall i, j :: 0 <= i < j < |orderlines| ==> orderlines[i].internalId != orderlines[j].internalId)
      && (forall i :: 0 <= i < |orderlines| ==> orderlines[i].internalId < nextLineId)
    }

    /** At most one line is selected. */
    ghost predicate AtMostOneSelected()
      reads this`orderlines, (set l | l in orderlines)`selected
    {
      forall i, j ::
        (0 <= i < |orderlines| && 0 <= j < |orderlines| && orderlines[i].selected && orderlines[j].selected) ==> i == j
    }

    ghost predicate Valid()
      reads this, (set l | l in orderlines)`selected
    {
      LineIdsFresh() && AtMostOneSelected()
    }

    /** A new empty order named "New Order", stamped with `now`. */
    constructor (id: nat, now: string)
      ensures Valid()
      ensures this.id == id && name == "New Order" && dateOrder == now
      ensures orderlines == [] && client == None && temporary
    {
      this.id := id;
      name := "New Order";
      dateOrder := now;
      orderlines := [];
      client := None;
      temporary := true;
      nextLineId := 0;
    }

    /** The selected line, or else the last line, or nothing for an empty order. */
    function GetSelectedOrderline(): (r: Option<OrderLine>)
      reads this, (set l | l in orderlines)`selected
      ensures r.None? <==> orderlines == []
      ensures forall i ::
        (0 <= i < |orderlines| && orderlines[i].selected && (forall j :: 0 <= j < i ==> !orderlines[j].selected)) ==>
          r == Some(orderlines[i])
      ensures (forall i :: 0 <= i < |orderlines| ==> !orderlines[i].selected) && orderlines != [] ==>
        r == Some(orderlines[|orderlines| - 1])
    {
      var first := FirstSelected(orderlines);
      if first.Some? then Some(orderlines[first.value])
      else if orderlines != [] then Some(orderlines[|orderlines| - 1])
      else None
    }


    /** Clears the selection flag of every line, then sets that of `line`, if
        given; the selected line is then `line`, or else the last line. */
    method SelectOrderline(line: OrderLine?)
      requires LineIdsFresh()
      requires line != null ==> line in orderlines
      modifies (set l | l in orderlines)`selected
      ensures Valid()
      ensures forall l :: l in orderlines ==> l.selected == (l == line)
      ensures line != null ==> GetSelectedOrderline() == Some(line)
      ensures line == null && orderlines != [] ==> GetSelectedOrderline() == Some(orderlines[|orderlines| - 1])
    {
      for i := 0 to |orderlines|
        invariant forall j :: 0 <= j < i ==> !orderlines[j].selected
        invariant forall j :: i <= j < |orderlines| ==> orderlines[j].selected == old(orderlines[j].selected)
      {
        orderlines[i].selected := false;
      }
      if line != null {
        line.selected := true;
      }
      SoleSelectionFound(orderlines, line);
    }

    /** Merges into the first mergeable line, unless `merge` is `Some(false)`,
        and otherwise appends a new line and selects it; `price` is not used. */
    method AddProduct(product: Product, quantity: Option<real>, price: Option<real>, merge: Option<bool>)
      returns (line: OrderLine)
      requires Valid()
      modifies this`orderlines, this`nextLineId
      modifies (set l | l in orderlines)`quantity, (set l | l in orderlines)`selected
      ensures Valid()
      ensures var k := old(MergeIndex(orderlines, product));
        merge != Some(false) && k.Some? ==>
          && line == old(orderlines)[k.value]
          && orderlines == old(orderlines)
          && line.quantity == old(line.quantity) + QuantityOrOne(quantity)
          && (forall l :: l in orderlines && l != line ==> l.quantity == old(l.quantity))
          && (forall l :: l in orderlines ==> l.selected == old(l.selected))
      ensures var k := old(MergeIndex(orderlines, product));
        !(merge != Some(false) && k.Some?) ==>
          && fresh(line)
          && orderlines == old(orderlines) + [line]
          && line.product == product && line.price == product.lstPrice && line.discount == 0.0
          && line.quantity == QuantityOrOne(quantity)
          && (forall l :: l in old(orderlines) ==> l.quantity == old(l.quantity))
          && (forall l :: l in orderlines ==> l.selected == (l == line))
    {
      if merge != Some(false) {
        var k := MergeIndex(orderlines, product);
        if k.Some? {
          line := orderlines[k.value];
          line.SetQuantity(line.quantity + QuantityOrOne(quantity));
          return;
        }
      }
      line := AppendLine(product, QuantityOrOne(quantity));
    }

    /** The append path of `add_product`: a new line at the end, the only one selected. */
    method AppendLine(product: Product, quantity: real) returns (line: OrderLine)
      requires LineIdsFresh()
      modifies this`orderlines, this`nextLineId, (set l | l in orderlines)`selected
      ensures Valid()
      ensures fresh(line)
      ensures orderlines == old(orderlines) + [line]
      ensures line.product == product && line.price == product.lstPrice && line.discount == 0.0
      ensures line.quantity == quantity
      ensures forall l :: l in orderlines ==> l.selected == (l == line)
    {
      line := new OrderLine(product, quantity, nextLineId);
      nextLineId := nextLineId + 1;
      orderlines := orderlines + [line];
      SelectOrderline(line);
    }

    /** Drops every line with the identifier of `line`, then selects the last
        remaining line, if any; lines dropped keep their flags. */
    method RemoveOrderline(line: OrderLine)
      requires Valid()
      modifies this`orderlines, (set l | l in orderlines)`selected
      ensures Valid()
      ensures orderlines == WithoutId(old(orderlines), line.internalId)
      ensures forall l :: l in orderlines <==> l in old(orderlines) && l.internalId != line.internalId
      ensures orderlines != [] ==> forall l :: l in orderlines ==> l.selected == (l == orderlines[|orderlines| - 1])
      ensures orderlines == [] ==> forall l :: l in old(orderlines) ==> l.selected == old(l.selected)
      ensures forall l :: l in old(orderlines) && l !in orderlines ==> l.selected == old(l.selected)
      ensures forall k :: 0 <= k < |old(orderlines)| && old(orderlines)[k] == line ==>
        orderlines == old(orderlines)[..k] + old(orderlines)[k + 1..]
    {
      forall k | 0 <= k < |orderlines| && orderlines[k] == line
        ensures WithoutId(orderlines, line.internalId) == orderlines[..k] + orderlines[k + 1..]
      {
        WithoutIdRemovesOne(orderlines, k);
      }
      WithoutIdMembers(orderlines, line.internalId);
      WithoutIdKeepsValid(orderlines, line.internalId, nextLineId);
      orderlines := WithoutId(orderlines, line.internalId);
      if |orderlines| > 0 {
        SelectOrderline(orderlines[|orderlines| - 1]);
      }
    }

    /** `get_total_with_tax`: the sum of the lines' prices with tax. */
    function GetTotalWithTax(): (r: real)
      reads this, (set l | l in orderlines)`price, (set l | l in orderlines)`quantity, (set l | l in orderlines)`discount
      ensures r == SumWithTax(ExportLines(orderlines))
      ensures r == GetTotalWithoutTax() + GetTotalTax()
      ensures orderlines == [] ==> r == 0.0
    {
      TotalsAddUp(ExportLines(orderlines));
      SumWithTax(ExportLines(orderlines))
    }

    /** `get_total_without_tax`: the sum of the lines' prices without tax. */
    function GetTotalWithoutTax(): (r: real)
      reads this, (set l | l in orderlines)`price, (set l | l in orderlines)`quantity, (set l | l in orderlines)`discount
      ensures r == SumWithoutTax(ExportLines(orderlines))
      ensures orderlines == [] ==> r == 0.0
    {
      SumWithoutTax(ExportLines(orderlines))
    }

    /** `get_total_tax`: the sum of the lines' taxes, 7% of the total without tax. */
    function GetTotalTax(): (r: real)
      reads this, (set l | l in orderlines)`price, (set l | l in orderlines)`quantity, (set l | l in orderlines)`discount
      ensures r == SumTax(ExportLines(orderlines))
      ensures r == GetTotalWithoutTax() * TaxRate
      ensures orderlines == [] ==> r == 0.0
    {
      TotalTaxIsRate(ExportLines(orderlines));
      SumTax(ExportLines(orderlines))
    }

    method SetClient(c: Option<Partner>)
      modifies `client
      ensures client == c
    {
      client := c;
    }

    function GetClient(): (r: Option<Partner>)
      reads `client
      ensures r == client
    {
      client
    }

    /** `export_as_JSON`: the order's name and date, its totals, one entry
        per line in order, and the client's id when there is a client. */
    function ExportAsJson(): (r: ExportedOrder)
      reads this, (set l | l in orderlines)`price, (set l | l in orderlines)`quantity, (set l | l in orderlines)`discount
      ensures r.name == name && r.dateOrder == dateOrder
      ensures |r.lines| == |orderlines|
      ensures forall i :: 0 <= i < |orderlines| ==> r.lines[i] == orderlines[i].Export()
      ensures r.amountTotal == GetTotalWithTax() && r.amountTax == GetTotalTax()
      ensures r.partnerId.Some? <==> client.Some?
      ensures client.Some? ==> r.partnerId == Some(client.value.id)
      ensures r.amountTotal == SumWithoutTax(r.lines) + r.amountTax
      ensures r.amountTax == SumWithoutTax(r.lines) * TaxRate
    {
      var lines := ExportLines(orderlines);
      TotalsAddUp(lines);
      TotalTaxIsRate(lines);
      ExportedOrder(
        name,
        GetTotalWithTax(),
        GetTotalTax(),
        lines,
        if client.Some? then Some(client.value.id) else None,
        dateOrder)
    }
  }

  /** When the selection flags mark `line` alone, the first selected line is
      `line`; when they mark nothing, there is no selected line. */
  lemma SoleSelectionFound(ls: seq<OrderLine>, line: OrderLine?)
    requires line != null ==> line in ls
    requires forall l :: l in ls ==> l.selected == (l == line)
    ensures line != null ==> FirstSelected(ls).Some? && ls[FirstSelected(ls).value] == line
    ensures line == null ==> FirstSelected(ls).None?
  {
    if line != null {
      var k :| 0 <= k < |ls| && ls[k] == line;
      assert ls[k].selected;
    }
  }

  /** Filtering keeps the identifiers distinct and below any bound they were below. */
  lemma {:induction false} WithoutIdKeepsValid(ls: seq<OrderLine>, id: nat, bound: nat)
    requires forall i, j :: 0 <= i < j < |ls| ==> ls[i].internalId != ls[j].internalId
    requires forall i :: 0 <= i < |ls| ==> ls[i].internalId < bound
    ensures forall i, j :: 0 <= i < j < |WithoutId(ls, id)| ==> WithoutId(ls, id)[i].internalId != WithoutId(ls, id)[j].internalId
    ensures forall i :: 0 <= i < |WithoutId(ls, id)| ==> WithoutId(ls, id)[i].internalId < bound
    decreases |ls|
  {
    if ls != [] {
      var init := ls[..|ls| - 1];
      var last := ls[|ls| - 1];
      WithoutIdKeepsValid(init, id, bound);
      WithoutIdMembers(init, id);
      var before := WithoutId(init, id);
      forall i | 0 <= i < |before|
        ensures before[i].internalId != last.internalId && before[i].internalId < bound
      {
        assert before[i] in WithoutId(init, id);
        assert before[i] in init;
        var k :| 0 <= k < |init| && init[k] == before[i];
        assert ls[k] == init[k];
      }
      if last.internalId != id {
        var r := before + [last];
        assert WithoutId(ls, id) == r;
        forall i, j | 0 <= i < j < |r|
          ensures r[i].internalId != r[j].internalId
        {
          if j == |before| {
            assert r[i] == before[i];
          } else {
            assert r[i] == before[i] && r[j] == before[j];
          }
        }
      }
    }
  }
}
