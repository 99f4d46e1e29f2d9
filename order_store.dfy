/** The order store (src/modules/orders/stores/useOrderStore.ts): checkout
    turns the chosen products into an order and keeps it as the confirmation. */
module OrderStore {
  import opened Shared
  import opened Text
  import opened NailTypes

  /** `CheckoutPayload`. */
  datatype CheckoutPayload = CheckoutPayload(name: string, email: string, address: string, note: string)

  /** `Order`: the products as given, the total of their prices, the payload and
      the creation time (read from `new Date()`). */
  datatype Order = Order(id: string, items: seq<Product>, total: int, payload: CheckoutPayload, createdAt: int)

  /** `items.reduce((sum, item) => sum + item.price, 0)`. */
  function SumPrices(items: seq<Product>): int
  {
    if items == [] then 0 else SumPrices(items[..|items| - 1]) + items[|items| - 1].price
  }

  /** The total of a concatenation is the sum of the totals. */
  lemma {:induction false} SumPricesAppend(a: seq<Product>, b: seq<Product>)
    ensures SumPrices(a + b) == SumPrices(a) + SumPrices(b)
  {
    if b != [] {
      SumPricesAppend(a, b[..|b| - 1]);
      assert (a + b)[..|a + b| - 1] == a + b[..|b| - 1];
    } else {
      assert a + b == a;
    }
  }

  /** The total does not depend on the order of the products. */
  lemma {:induction false} SumPricesPermutation(a: seq<Product>, b: seq<Product>)
    requires multiset(a) == multiset(b)
    ensures SumPrices(a) == SumPrices(b)
  {
    if a != [] {
      var init, x := a[..|a| - 1], a[|a| - 1];
      assert x in multiset(b);
      var k :| 0 <= k < |b| && b[k] == x;
      var rest := b[..k] + b[k + 1..];
      assert a == init + [x];
      RemoveAtCounts(b, k);
      MultisetCancel(multiset(init), multiset(rest), x);
      SumPricesPermutation(init, rest);
      SumPricesRemoveAt(b, k);
    }
  }

  /** Taking out the item at `k` takes one copy of it out of the multiset. */
  lemma RemoveAtCounts(b: seq<Product>, k: nat)
    requires k < |b|
    ensures multiset(b[..k] + b[k + 1..]) + multiset{b[k]} == multiset(b)
  {
    assert b == b[..k] + [b[k]] + b[k + 1..];
  }

  /** One copy of `x` on both sides cancels. */
  lemma MultisetCancel(m: multiset<Product>, n: multiset<Product>, x: Product)
    requires m + multiset{x} == n + multiset{x}
    ensures m == n
  {
    assert m == (m + multiset{x}) - multiset{x};
  }

  /** Taking out the item at `k` takes its price off the total. */
  lemma SumPricesRemoveAt(b: seq<Product>, k: nat)
    requires k < |b|
    ensures SumPrices(b) == SumPrices(b[..k] + b[k + 1..]) + b[k].price
  {
    var front, x, back := b[..k], b[k], b[k + 1..];
    assert b == (front + [x]) + back;
    assert (front + [x])[..|front|] == front;
    SumPricesAppend(front + [x], back);
    SumPricesAppend(front, back);
  }

  const OrderIdPrefix := "order_"

  /** `order_${Date.now()}`. */
  function OrderId(now: nat): (id: string)
    ensures |id| > |OrderIdPrefix| && id[..|OrderIdPrefix|] == OrderIdPrefix
  {
    OrderIdPrefix + Decimal(now)
  }

  /** Two orders get the same id exactly when they are stamped in the same millisecond. */
  lemma OrderIdsCollideOnlyOnSameStamp(m: nat, n: nat)
    ensures OrderId(m) == OrderId(n) <==> m == n
  {
    if OrderId(m) == OrderId(n) {
      assert Decimal(m) == OrderId(m)[|OrderIdPrefix|..];
      assert Decimal(n) == OrderId(n)[|OrderIdPrefix|..];
      DecimalInjective(m, n);
    }
  }

  class OrderStore {
    var isProcessing: bool
    var confirmation: Option<Order>

    constructor ()
      ensures !isProcessing && confirmation == None
    {
      isProcessing := false;
      confirmation := None;
    }

    /** `submitOrder(payload, items)`. An empty list throws before anything
        changes; otherwise the processing flag is raised for the simulated
        latency, the order is recorded as the confirmation, and the flag is
        lowered again. `now` is `Date.now()`, `createdAt` the time of `new Date()`. */
    method SubmitOrder(payload: CheckoutPayload, items: seq<Product>, now: nat, createdAt: int)
      returns (r: Result<Order>)
      modifies this
      ensures items == [] ==>
        r == Err(EmptyOrder) && isProcessing == old(isProcessing) && confirmation == old(confirmation)
      ensures items != [] ==>
        && r.Ok?
        && r.value.total == SumPrices(items)
        && r.value.items == items && r.value.payload == payload
        && r.value.id == OrderId(now) && r.value.createdAt == createdAt
        && confirmation == Some(r.value)
        && !isProcessing
    {
      if |items| == 0 {
        return Err(EmptyOrder);
      }
      isProcessing := true;
      var total := SumPrices(items);
      var order := Order(OrderId(now), items, total, payload, createdAt);
      confirmation := Some(order);
      isProcessing := false;
      r := Ok(order);
    }

    method Reset()
      modifies this`confirmation
      ensures confirmation == None
    {
      confirmation := None;
    }
  }
}
