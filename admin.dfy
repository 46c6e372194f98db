/**
 * The inventory rules of the product admin in store/admin.py: the Low/Ok
 * status column, the "<10" list filter, and the bulk action that clears the
 * inventory of the selected products.
 */
module Admin {
  import opened Models
  import opened Database

  const LowStockBound: int := 10

  /** ProductAdmin.inventory_status. */
  function InventoryStatus(inventory: int): (s: string)
    ensures s == "Low" <==> inventory < LowStockBound
    ensures s == "Ok" <==> inventory >= LowStockBound
  {
    if inventory < LowStockBound then "Low" else "Ok"
  }

  /** InventoryFilter.lookups: the one option, its URL value and its label. */
  const InventoryLookups: seq<(string, string)> := [("<10", "Low")]

  /**
   * InventoryFilter.queryset: with "<10" selected, the products of `shown`
   * whose inventory is below 10; with anything else, no filtering (None).
   */
  function InventoryQueryset(value: Option<string>, shown: set<ProductId>, products: map<ProductId, Product>)
    : (r: Option<set<ProductId>>)
    requires shown <= products.Keys
    ensures r.Some? <==> value == Some("<10")
    ensures r.Some? ==> forall p :: p in r.value <==> p in shown && products[p].inventory < LowStockBound
  {
    if value == Some("<10") then Some(set p | p in shown && products[p].inventory < LowStockBound) else None
  }

  /**
   * Every option the filter offers filters, and the "<10" option keeps
   * exactly the shown products whose status column reads "Low".
   */
  lemma InventoryFilterIsLowStatus(value: Option<string>, shown: set<ProductId>, products: map<ProductId, Product>)
    requires shown <= products.Keys
    ensures |InventoryLookups| == 1
    ensures forall i :: 0 <= i < |InventoryLookups| ==> InventoryQueryset(Some(InventoryLookups[i].0), shown, products).Some?
    ensures value == Some("<10") ==>
              && InventoryQueryset(value, shown, products).Some?
              && forall p :: p in InventoryQueryset(value, shown, products).value <==>
                   p in shown && InventoryStatus(products[p].inventory) == "Low"
    ensures value != Some("<10") ==> InventoryQueryset(value, shown, products).None?
  {
  }

  /** The products after `queryset.update(inventory=0)` over `selected`. */
  function ClearedInventory(products: map<ProductId, Product>, selected: set<ProductId>): (r: map<ProductId, Product>)
    ensures r.Keys == products.Keys
    ensures forall p :: p in r ==> r[p].inventory == if p in selected then 0 else products[p].inventory
  {
    map p | p in products :: if p in selected then products[p].(inventory := 0) else products[p]
  }

  /**
   * Clearing sets the inventory of every selected product to 0, so its
   * status reads "Low"; it changes no other field and no unselected product.
   */
  lemma ClearedInventoryProperties(products: map<ProductId, Product>, selected: set<ProductId>)
    ensures ClearedInventory(products, selected).Keys == products.Keys
    ensures forall p :: p in products && p in selected ==>
              && ClearedInventory(products, selected)[p].inventory == 0
              && InventoryStatus(ClearedInventory(products, selected)[p].inventory) == "Low"
              && ClearedInventory(products, selected)[p] == products[p].(inventory := 0)
    ensures forall p :: p in products && p !in selected ==> ClearedInventory(products, selected)[p] == products[p]
  {
  }

  /**
   * ProductAdmin.clear_inventory: one update over the selected rows, which
   * reports how many rows it updated.
   */
  method ClearInventory(db: Db, selected: set<ProductId>) returns (count: nat)
    requires db.Valid()
    modifies db`products
    ensures db.Valid()
    ensures db.products == ClearedInventory(old(db.products), selected)
    ensures count == |selected * old(db.products).Keys|
  {
    count := |selected * db.products.Keys|;
    ghost var products0 := db.products;
    db.products := ClearedInventory(db.products, selected);
    ProductsRewriteKeepsValid(db, products0);
  }
}
