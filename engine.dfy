/**
 * The point-of-sale engine (`SPOSEngine`): the local catalog database, the
 * list of open orders and the identifier of the current one.
 *
 * The original stamps each order with `Order-<milliseconds>`; the model
 * draws order identifiers from a counter in the engine, so that distinct
 * orders have distinct identifiers.
 */
module PosEngine {
  import opened Wrappers
  import opened Catalog
  import opened Orders

  /** `orders.find(o => o.id === id)`: the first order whose identifier is `id`. */
  function FindOrder(orders: seq<Order>, id: Option<nat>): (r: Option<Order>)
    ensures r.Some? ==> r.value in orders && id == Some(r.value.id)
    ensures r.None? <==> forall o :: o in orders ==> id != Some(o.id)
    ensures r.Some? ==>
      exists k :: 0 <= k < |orders| && orders[k] == r.value && (forall j :: 0 <= j < k ==> id != Some(orders[j].id))
    decreases |orders|
  {
    if orders == [] then None
    else if id == Some(orders[0].id) then Some(orders[0])
    else
      var rest := FindOrder(orders[1..], id);
      assert forall o :: o in orders ==> o == orders[0] || o in orders[1..];
      if rest.Some? then
        ghost var k :| 0 <= k < |orders[1..]| && orders[1..][k] == rest.value &&
          forall j :: 0 <= j < k ==> id != Some(orders[1..][j].id);
        assert orders[k + 1] == rest.value;
        rest
      else None
  }

  /** Order identifiers are pairwise distinct. */
  ghost predicate DistinctIds(orders: seq<Order>)
  {
    forall i, j :: 0 <= i < j < |orders| ==> orders[i].id != orders[j].id
  }

  /** Among orders with distinct identifiers, looking up an order's identifier finds that order. */
  lemma FindOwnId(orders: seq<Order>, k: nat)
    requires k < |orders|
    requires DistinctIds(orders)
    ensures FindOrder(orders, Some(orders[k].id)) == Some(orders[k])
  {
    var r := FindOrder(orders, Some(orders[k].id));
    assert orders[k] in orders;
    var i :| 0 <= i < |orders| && orders[i] == r.value &&
      forall j :: 0 <= j < i ==> Some(orders[k].id) != Some(orders[j].id);
    assert !(k < i);
    assert !(i < k);
  }

  /** `orders.filter(o => o.id !== id)`: the orders whose identifier is not `id`, in order. */
  function WithoutOrder(orders: seq<Order>, id: nat): (r: seq<Order>)
    ensures |r| <= |orders|
    decreases |orders|
  {
    if orders == [] then []
    else
      var before := WithoutOrder(orders[..|orders| - 1], id);
      if orders[|orders| - 1].id == id then before else before + [orders[|orders| - 1]]
  }

  /** The filter keeps exactly the orders whose identifier differs from `id`. */
  lemma {:induction false} WithoutOrderMembers(orders: seq<Order>, id: nat)
    ensures forall o :: o in WithoutOrder(orders, id) ==> o in orders && o.id != id
    ensures forall o :: o in orders && o.id != id ==> o in WithoutOrder(orders, id)
    decreases |orders|
  {
    if orders != [] {
      var init := orders[..|orders| - 1];
      WithoutOrderMembers(init, id);
      assert forall o :: o in orders <==> o in init || o == orders[|orders| - 1];
    }
  }

  /** The filter keeps the order of the orders it keeps. */
  lemma {:induction false} WithoutOrderAppend(a: seq<Order>, b: seq<Order>, id: nat)
    ensures WithoutOrder(a + b, id) == WithoutOrder(a, id) + WithoutOrder(b, id)
    decreases |b|
  {
    if b == [] {
      assert a + b == a;
    } else {
      assert (a + b)[..|a + b| - 1] == a + b[..|b| - 1];
      WithoutOrderAppend(a, b[..|b| - 1], id);
    }
  }

  /** Filtering orders none of which has identifier `id` changes nothing. */
  lemma {:induction false} WithoutOrderUnchanged(orders: seq<Order>, id: nat)
    requires forall j :: 0 <= j < |orders| ==> orders[j].id != id
    ensures WithoutOrder(orders, id) == orders
    decreases |orders|
  {
    if orders != [] {
      WithoutOrderUnchanged(orders[..|orders| - 1], id);
    }
  }

  /** Among orders with distinct identifiers, removing one order's identifier
      takes out that order only and keeps the others in order. */
  lemma WithoutOrderRemovesOne(orders: seq<Order>, k: nat)
    requires k < |orders|
    requires DistinctIds(orders)
    ensures WithoutOrder(orders, orders[k].id) == orders[..k] + orders[k + 1..]
  {
    var id := orders[k].id;
    assert orders == orders[..k] + [orders[k]] + orders[k + 1..];
    WithoutOrderAppend(orders[..k] + [orders[k]], orders[k + 1..], id);
    WithoutOrderAppend(orders[..k], [orders[k]], id);
    assert [orders[k]][..0] == [];
    WithoutOrderUnchanged(orders[..k], id);
    WithoutOrderUnchanged(orders[k + 1..], id);
  }

  /** Filtering keeps the identifiers distinct and below any bound they were below. */
  lemma {:induction false} WithoutOrderKeepsIds(orders: seq<Order>, id: nat, bound: nat)
    requires DistinctIds(orders)
    requires forall i :: 0 <= i < |orders| ==> orders[i].id < bound
    ensures DistinctIds(WithoutOrder(orders, id))
    ensures forall i :: 0 <= i < |WithoutOrder(orders, id)| ==> WithoutOrder(orders, id)[i].id < bound
    decreases |orders|
  {
    if orders != [] {
      var init := orders[..|orders| - 1];
      var last := orders[|orders| - 1];
      WithoutOrderKeepsIds(init, id, bound);
      WithoutOrderMembers(init, id);
      var before := WithoutOrder(init, id);
      forall i | 0 <= i < |before|
        ensures before[i].id != last.id && before[i].id < bound
      {
        assert before[i] in before;
        assert before[i] in init;
        var k :| 0 <= k < |init| && init[k] == before[i];
        assert orders[k] == init[k];
      }
      if last.id != id {
        var r := before + [last];
        assert WithoutOrder(orders, id) == r;
        forall i, j | 0 <= i < j < |r|
          ensures r[i].id != r[j].id
        {
          if j == |before| {
            assert r[i] == before[i];
          } else {
            assert r[i] == before[i] && r[j] == before[j];
          }
        }
      }
    }
  }

  class Engine {
    const db: LocalDB
    var orders: seq<Order>
    var selectedOrderId: Option<nat>
    /** The identifier the next new order gets. */
    var nextOrderId: nat

    /** The database is consistent, and order identifiers are distinct and below the counter. */
    ghost predicate Valid()
      reads this, db
    {
      && db.Valid()
      && DistinctIds(orders)
      && (forall i :: 0 <= i < |orders| ==> orders[i].id < nextOrderId)
    }

    /** An engine over an empty database, with no orders and no current order. */
    constructor ()
      ensures Valid()
      ensures fresh(db)
      ensures db.productById == map[] && db.productByBarcode == map[] && db.productByCategoryId == map[]
      ensures db.categoryById == map[] && db.categoryChildren == map[] && db.partnerById == map[]
      ensures db.productSearchString == map[] && db.productIds == [] && db.categoryIds == []
      ensures orders == [] && selectedOrderId == None && nextOrderId == 0
    {
      db := new LocalDB();
      orders := [];
      selectedOrderId := None;
      nextOrderId := 0;
    }

    /** Loads the categories, then the products, then the partners into the database. */
    method LoadServerData(products: seq<Product>, categories: seq<Category>, partners: seq<Partner>)
      requires Valid()
      modifies db`categoryById, db`categoryChildren, db`categoryIds
      modifies db`productById, db`productByBarcode, db`productByCategoryId, db`productSearchString, db`productIds
      modifies db`partnerById
      ensures Valid()
      ensures db.categoryById == CategoriesById(old(db.categoryById), categories)
      ensures db.categoryChildren == ChildrenIndex(old(db.categoryChildren), categories)
      ensures db.productById == IndexById(old(db.productById), products)
      ensures db.productByBarcode == IndexByBarcode(old(db.productByBarcode), products)
      ensures db.productByCategoryId == IndexByCategory(old(db.productByCategoryId), products)
      ensures db.productSearchString == IndexSearch(old(db.productSearchString), products)
      ensures db.partnerById == PartnersById(old(db.partnerById), partners)
    {
      db.AddCategories(categories);
      db.AddProducts(products);
      db.AddPartners(partners);
    }

    /** `get_order`: the order whose identifier is the current one, if any. */
    function GetOrder(): (r: Option<Order>)
      reads this`orders, this`selectedOrderId
      ensures r.Some? ==> r.value in orders && selectedOrderId == Some(r.value.id)
      ensures r.None? <==> forall o :: o in orders ==> selectedOrderId != Some(o.id)
    {
      FindOrder(orders, selectedOrderId)
    }

    /** `set_order`: makes `order` the current one. */
    method SetOrder(order: Order)
      requires Valid()
      modifies this`selectedOrderId
      ensures Valid()
      ensures selectedOrderId == Some(order.id)
      ensures order in orders ==> GetOrder() == Some(order)
    {
      selectedOrderId := Some(order.id);
      if order in orders {
        var k :| 0 <= k < |orders| && orders[k] == order;
        FindOwnId(orders, k);
      }
    }

    /** `add_new_order`: appends a new empty order stamped `now` and makes it the current one. */
    method AddNewOrder(now: string) returns (order: Order)
      requires Valid()
      modifies this`orders, this`selectedOrderId, this`nextOrderId
      ensures Valid()
      ensures fresh(order)
      ensures orders == old(orders) + [order]
      ensures order.name == "New Order" && order.dateOrder == now
      ensures order.orderlines == [] && order.client == None && order.temporary
      ensures GetOrder() == Some(order)
    {
      order := new Order(nextOrderId, now);
      nextOrderId := nextOrderId + 1;
      orders := orders + [order];
      SetOrder(order);
    }

    /** `delete_current_order`: drops the current order, if there is one, and
        makes the first remaining order current, or else a new one stamped `now`. */
    method DeleteCurrentOrder(now: string)
      requires Valid()
      modifies this`orders, this`selectedOrderId, this`nextOrderId
      ensures Valid()
      ensures old(GetOrder()).None? ==>
        orders == old(orders) && selectedOrderId == old(selectedOrderId) && nextOrderId == old(nextOrderId)
      ensures old(GetOrder()).Some? ==> old(GetOrder()).value !in orders && GetOrder().Some?
      ensures old(GetOrder()).Some? && WithoutOrder(old(orders), old(GetOrder()).value.id) != [] ==>
        && orders == WithoutOrder(old(orders), old(GetOrder()).value.id)
        && GetOrder() == Some(orders[0])
      ensures old(GetOrder()).Some? && WithoutOrder(old(orders), old(GetOrder()).value.id) == [] ==>
        && |orders| == 1 && fresh(orders[0])
        && orders[0].orderlines == [] && orders[0].dateOrder == now
        && orders[0].name == "New Order" && orders[0].client == None && orders[0].temporary
        && GetOrder() == Some(orders[0])
    {
      var current := GetOrder();
      if current.Some? {
        var id := current.value.id;
        WithoutOrderMembers(orders, id);
        WithoutOrderKeepsIds(orders, id, nextOrderId);
        orders := WithoutOrder(orders, id);
        if |orders| > 0 {
          SetOrder(orders[0]);
        } else {
          var created := AddNewOrder(now);
        }
      }
    }
  }

  /** Deleting an order by its identifier, among distinct identifiers, drops
      exactly one order and keeps every other. */
  lemma DeleteKeepsOthers(orders: seq<Order>, k: nat)
    requires k < |orders|
    requires DistinctIds(orders)
    ensures |WithoutOrder(orders, orders[k].id)| == |orders| - 1
    ensures forall o :: o in orders && o != orders[k] ==> o in WithoutOrder(orders, orders[k].id)
  {
    WithoutOrderRemovesOne(orders, k);
    forall o | o in orders && o != orders[k]
      ensures o in WithoutOrder(orders, orders[k].id)
    {
      var i :| 0 <= i < |orders| && orders[i] == o;
      if i < k {
        assert o == orders[..k][i];
      } else {
        assert o == orders[k + 1..][i - k - 1];
      }
    }
  }
}
