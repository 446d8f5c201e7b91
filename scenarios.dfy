/**
 * Worked examples of the order model: adding the same product twice merges
 * into one line, unless merging is turned off, and the totals of two
 * espressos at 2.50 come to 5.00 before tax, 0.35 tax and 5.35 in all.
 */
module Scenarios {
  import opened Wrappers
  import opened Catalog
  import opened Orders

  /** An espresso at a list price of 2.50. */
  function Espresso(): (p: Product)
    ensures p.lstPrice == 2.5
  {
    Product(1, "Espresso", 2.5, 1.0, 1, "Drinks", [], "885001", "ESP", 10.0)
  }

  /** A new order with the espresso added once: one line, at the list price. */
  method OneEspresso() returns (order: Order)
    ensures |order.orderlines| == 1
    ensures fresh(order) && fresh(order.orderlines[0])
    ensures order.Valid()
    ensures order.orderlines[0].product == Espresso() && order.orderlines[0].quantity == 1.0
    ensures order.orderlines[0].price == 2.5 && order.orderlines[0].discount == 0.0
  {
    order := new Order(0, "2024-01-01T00:00:00.000Z");
    var first := order.AddProduct(Espresso(), None, None, None);
  }

  /** A new order, then the espresso added twice with the default options. */
  method TwoEspressos() returns (order: Order)
    ensures |order.orderlines| == 1
    ensures order.orderlines[0].product == Espresso() && order.orderlines[0].quantity == 2.0
    ensures order.orderlines[0].price == 2.5
    ensures order.GetTotalWithoutTax() == 5.0
    ensures order.GetTotalTax() == 0.35
    ensures order.GetTotalWithTax() == 5.35
  {
    order := OneEspresso();
    assert MergeIndex(order.orderlines, Espresso()) == Some(0);
    var second := order.AddProduct(Espresso(), None, None, None);
    assert ExportLines(order.orderlines) == [ExportedLine(1, 2.0, 2.5, 0.0)];
    TwoEspressoTotals();
  }

  /** Two espressos at 2.50: 5.00 before tax, 0.35 tax, 5.35 in all. */
  lemma TwoEspressoTotals()
    ensures SumWithoutTax([ExportedLine(1, 2.0, 2.5, 0.0)]) == 5.0
    ensures SumTax([ExportedLine(1, 2.0, 2.5, 0.0)]) == 0.35
    ensures SumWithTax([ExportedLine(1, 2.0, 2.5, 0.0)]) == 5.35
  {
    var lines := [ExportedLine(1, 2.0, 2.5, 0.0)];
    assert lines[..0] == [];
  }

  /** Adding the espresso twice with merging turned off gives two distinct lines. */
  method TwoEspressosUnmerged() returns (order: Order)
    ensures |order.orderlines| == 2
    ensures order.orderlines[0] != order.orderlines[1]
    ensures order.orderlines[0].internalId != order.orderlines[1].internalId
    ensures order.orderlines[0].quantity == 1.0 && order.orderlines[1].quantity == 1.0
    ensures order.GetSelectedOrderline() == Some(order.orderlines[1])
  {
    order := new Order(0, "2024-01-01T00:00:00.000Z");
    var first := order.AddProduct(Espresso(), None, None, Some(false));
    var second := order.AddProduct(Espresso(), None, None, Some(false));
  }
}
