/** The shopping cart (src/modules/cart/stores/useCartStore.ts): a list of
    (product snapshot, quantity) lines kept in local storage under the key
    'nailshop:cart', with at most one line per product id. */
module CartStore {
  import opened Shared
  import opened Seqs
  import opened NailTypes

  /** A cart line owns a copy of the product taken when it was added. */
  datatype CartLine = CartLine(product: Product, quantity: int)

  function LineId(l: CartLine): string
  {
    l.product.id
  }

  function LineTotal(l: CartLine): int
  {
    l.product.price * l.quantity
  }

  /** At most one line per product id. */
  predicate UniqueLines(lines: seq<CartLine>)
  {
    KeysDistinct(lines, LineId)
  }

  predicate AllPositive(lines: seq<CartLine>)
  {
    forall i :: 0 <= i < |lines| ==> lines[i].quantity >= 1
  }

  /** `loadCart`: the stored list, or an empty cart when the key is absent,
      the text does not parse, or it is not an array. */
  function LoadCart(raw: Stored<CartLine>): seq<CartLine>
  {
    match raw
    case List(lines) => lines
    case _ => []
  }

  /** `items.find((item) => item.product.id === id)`, as the index of the first match. */
  function LineIndex(lines: seq<CartLine>, id: string): (r: Option<nat>)
    ensures r.Some? ==> r.value < |lines| && lines[r.value].product.id == id
    ensures r.Some? ==> forall j :: 0 <= j < r.value ==> lines[j].product.id != id
    ensures r.None? <==> forall j :: 0 <= j < |lines| ==> lines[j].product.id != id
  {
    if lines == [] then None
    else if lines[0].product.id == id then Some(0)
    else match LineIndex(lines[1..], id)
      case None => None
      case Some(k) => Some(k + 1)
  }

  /** The cart after `addItem(product, quantity)`: the existing line for the
      product grows by `quantity`, otherwise a new line goes in front. */
  function AddLine(lines: seq<CartLine>, product: Product, quantity: int): (r: seq<CartLine>)
    ensures LineIndex(lines, product.id).Some? ==>
      var i := LineIndex(lines, product.id).value;
      && |r| == |lines|
      && r[i].product == lines[i].product
      && r[i].quantity == lines[i].quantity + quantity
      && forall j :: 0 <= j < |r| && j != i ==> r[j] == lines[j]
    ensures LineIndex(lines, product.id).None? ==>
      |r| == |lines| + 1 && r[0] == CartLine(product, quantity) && r[1..] == lines
  {
    match LineIndex(lines, product.id)
    case Some(i) => lines[i := CartLine(lines[i].product, lines[i].quantity + quantity)]
    case None => [CartLine(product, quantity)] + lines
  }

  function OtherThan(id: string): CartLine -> bool
  {
    (l: CartLine) => l.product.id != id
  }

  /** The cart after `removeItem(id)`: the lines of other products, in order. */
  function WithoutProduct(lines: seq<CartLine>, id: string): (r: seq<CartLine>)
    ensures forall l :: l in r <==> l in lines && l.product.id != id
  {
    Filter(lines, OtherThan(id))
  }

  /** `target.quantity = n` on the first line of product `id`, if there is one. */
  function SetQuantity(lines: seq<CartLine>, id: string, n: int): (r: seq<CartLine>)
    ensures |r| == |lines|
    ensures forall j :: 0 <= j < |r| ==> r[j].product == lines[j].product
    ensures LineIndex(lines, id).None? ==> r == lines
    ensures LineIndex(lines, id).Some? ==>
      var i := LineIndex(lines, id).value;
      r[i].quantity == n && forall j :: 0 <= j < |r| && j != i ==> r[j] == lines[j]
  {
    match LineIndex(lines, id)
    case Some(i) => lines[i := CartLine(lines[i].product, n)]
    case None => lines
  }

  /** `Number.isFinite(q) ? Math.floor(q) : 0`, with None for NaN and the infinities. */
  function Sanitize(q: Option<real>): (n: int)
    ensures q.None? ==> n == 0
    ensures q.Some? ==> n as real <= q.value < n as real + 1.0
  {
    match q
    case Some(x) => x.Floor
    case None => 0
  }

  /** `itemCount`: the sum of the line quantities. */
  function TotalQuantity(lines: seq<CartLine>): int
  {
    if lines == [] then 0 else lines[0].quantity + TotalQuantity(lines[1..])
  }

  /** `subtotal`: the sum of price times quantity over the lines. */
  function Subtotal(lines: seq<CartLine>): int
  {
    if lines == [] then 0 else LineTotal(lines[0]) + Subtotal(lines[1..])
  }

  /** With quantities of at least one the item count is at least the number of
      lines; with no negative price or quantity the subtotal is not negative. */
  lemma {:induction false} TotalsBounds(lines: seq<CartLine>)
    ensures AllPositive(lines) ==> TotalQuantity(lines) >= |lines|
    ensures (forall i :: 0 <= i < |lines| ==> lines[i].product.price >= 0 && lines[i].quantity >= 0) ==>
      Subtotal(lines) >= 0
  {
    if lines != [] {
      TotalsBounds(lines[1..]);
      assert forall i :: 1 <= i < |lines| ==> lines[1..][i - 1] == lines[i];
    }
  }

  /** Replacing one line changes the totals by the difference of the two lines. */
  lemma {:induction false} TotalsAfterReplace(lines: seq<CartLine>, i: nat, l: CartLine)
    requires i < |lines|
    ensures TotalQuantity(lines[i := l]) == TotalQuantity(lines) - lines[i].quantity + l.quantity
    ensures Subtotal(lines[i := l]) == Subtotal(lines) - LineTotal(lines[i]) + LineTotal(l)
  {
    if i > 0 {
      TotalsAfterReplace(lines[1..], i - 1, l);
      assert lines[i := l][1..] == lines[1..][i - 1 := l];
    }
  }

  /** With no line for `id`, removing it changes nothing. */
  lemma WithoutAbsentProduct(lines: seq<CartLine>, id: string)
    requires LineIndex(lines, id).None?
    ensures WithoutProduct(lines, id) == lines
  {
    FilterAll(lines, OtherThan(id));
  }

  lemma TailUnique(lines: seq<CartLine>)
    requires lines != [] && UniqueLines(lines)
    ensures UniqueLines(lines[1..])
    ensures forall j :: 0 <= j < |lines[1..]| ==> lines[1..][j].product.id != lines[0].product.id
  {
    forall i, j | 0 <= i < j < |lines[1..]|
      ensures LineId(lines[1..][i]) != LineId(lines[1..][j])
    {
      assert lines[1..][i] == lines[i + 1] && lines[1..][j] == lines[j + 1];
    }
    forall j | 0 <= j < |lines[1..]| ensures lines[1..][j].product.id != lines[0].product.id {
      assert LineId(lines[0]) != LineId(lines[j + 1]);
    }
  }

  /** In a cart with one line per product, removing a product takes exactly its
      line's quantity and value off the totals. */
  lemma {:induction false} TotalsAfterRemove(lines: seq<CartLine>, id: string)
    requires UniqueLines(lines) && LineIndex(lines, id).Some?
    ensures var i := LineIndex(lines, id).value;
      && TotalQuantity(WithoutProduct(lines, id)) == TotalQuantity(lines) - lines[i].quantity
      && Subtotal(WithoutProduct(lines, id)) == Subtotal(lines) - LineTotal(lines[i])
      && |WithoutProduct(lines, id)| == |lines| - 1
  {
    TailUnique(lines);
    var rest := lines[1..];
    if lines[0].product.id == id {
      assert LineIndex(rest, id).None?;
      WithoutAbsentProduct(rest, id);
      assert WithoutProduct(lines, id) == rest;
    } else {
      TotalsAfterRemove(rest, id);
      assert WithoutProduct(lines, id) == [lines[0]] + WithoutProduct(rest, id);
    }
  }

  /** Adding changes the item count by the quantity added and the subtotal by
      that quantity times the price of the line's snapshot: the existing line's
      copy if there is one, the given product otherwise. */
  lemma TotalsAfterAdd(lines: seq<CartLine>, product: Product, quantity: int)
    ensures TotalQuantity(AddLine(lines, product, quantity)) == TotalQuantity(lines) + quantity
    ensures Subtotal(AddLine(lines, product, quantity)) == Subtotal(lines) +
      match LineIndex(lines, product.id)
      case Some(i) => lines[i].product.price * quantity
      case None => product.price * quantity
  {
    match LineIndex(lines, product.id)
    case Some(i) =>
      TotalsAfterReplace(lines, i, CartLine(lines[i].product, lines[i].quantity + quantity));
    case None =>
  }

  /** Removing keeps the other products' lines in their order, each as often as before. */
  lemma RemoveKeepsOthers(lines: seq<CartLine>, id: string, l: CartLine)
    ensures IsSubsequence(WithoutProduct(lines, id), lines)
    ensures multiset(WithoutProduct(lines, id))[l] ==
      if l.product.id != id then multiset(lines)[l] else 0
  {
    FilterIsSubsequence(lines, OtherThan(id));
    FilterCounts(lines, OtherThan(id), l);
  }

  /** Setting a quantity changes the item count by the difference to the old one. */
  lemma TotalsAfterSet(lines: seq<CartLine>, id: string, n: int)
    requires LineIndex(lines, id).Some?
    ensures var i := LineIndex(lines, id).value;
      && TotalQuantity(SetQuantity(lines, id, n)) == TotalQuantity(lines) - lines[i].quantity + n
      && Subtotal(SetQuantity(lines, id, n)) == Subtotal(lines) + lines[i].product.price * (n - lines[i].quantity)
  {
    var i := LineIndex(lines, id).value;
    TotalsAfterReplace(lines, i, CartLine(lines[i].product, n));
  }

  /** Each operation keeps at most one line per product id. */
  lemma AddKeepsUnique(lines: seq<CartLine>, product: Product, quantity: int)
    requires UniqueLines(lines)
    ensures UniqueLines(AddLine(lines, product, quantity))
  {
    var r := AddLine(lines, product, quantity);
    if LineIndex(lines, product.id).None? {
      forall i, j | 0 <= i < j < |r| ensures LineId(r[i]) != LineId(r[j]) {
        assert r[j] == lines[j - 1];
        if i > 0 {
          assert r[i] == lines[i - 1];
        }
      }
    } else {
      forall i, j | 0 <= i < j < |r| ensures LineId(r[i]) != LineId(r[j]) {
        assert LineId(r[i]) == LineId(lines[i]) && LineId(r[j]) == LineId(lines[j]);
      }
    }
  }

  lemma RemoveKeepsUnique(lines: seq<CartLine>, id: string)
    requires UniqueLines(lines)
    ensures UniqueLines(WithoutProduct(lines, id))
    ensures LineIndex(WithoutProduct(lines, id), id).None?
  {
    FilterKeysDistinct(lines, OtherThan(id), LineId);
    var r := WithoutProduct(lines, id);
    assert forall j :: 0 <= j < |r| ==> r[j] in r;
  }

  lemma SetKeepsUnique(lines: seq<CartLine>, id: string, n: int)
    requires UniqueLines(lines)
    ensures UniqueLines(SetQuantity(lines, id, n))
  {
    var r := SetQuantity(lines, id, n);
    forall i, j | 0 <= i < j < |r| ensures LineId(r[i]) != LineId(r[j]) {
      assert LineId(r[i]) == LineId(lines[i]) && LineId(r[j]) == LineId(lines[j]);
    }
  }

  /** Quantities stay positive as long as every added quantity is. */
  lemma AddKeepsPositive(lines: seq<CartLine>, product: Product, quantity: int)
    requires AllPositive(lines) && quantity >= 1
    ensures AllPositive(AddLine(lines, product, quantity))
  {
    var r := AddLine(lines, product, quantity);
    if LineIndex(lines, product.id).None? {
      forall j | 0 <= j < |r| ensures r[j].quantity >= 1 {
        if j > 0 {
          assert r[j] == lines[j - 1];
        }
      }
    }
  }

  lemma RemoveKeepsPositive(lines: seq<CartLine>, id: string)
    requires AllPositive(lines)
    ensures AllPositive(WithoutProduct(lines, id))
  {
    var r := WithoutProduct(lines, id);
    forall j | 0 <= j < |r| ensures r[j].quantity >= 1 {
      assert r[j] in lines;
    }
  }

  /** Adding the same new product twice leaves one line holding both quantities. */
  lemma AddTwice(lines: seq<CartLine>, product: Product, m: int, n: int)
    requires LineIndex(lines, product.id).None?
    ensures AddLine(AddLine(lines, product, m), product, n) == [CartLine(product, m + n)] + lines
  {
    var once := AddLine(lines, product, m);
    assert LineIndex(once, product.id) == Some(0);
  }

  /** A worked example of the two totals: lines of 1000 yen x 2 and 500 yen x 1. */
  lemma TotalsExample(a: Product, b: Product)
    requires a.price == 1000 && b.price == 500
    ensures var lines := [CartLine(a, 2), CartLine(b, 1)];
      Subtotal(lines) == 2500 && TotalQuantity(lines) == 3
  {
    var lines := [CartLine(a, 2), CartLine(b, 1)];
    assert lines[1..] == [CartLine(b, 1)] && lines[1..][1..] == [];
    assert LineTotal(lines[0]) == 2000 && LineTotal(lines[1]) == 500;
    assert Subtotal(lines[1..]) == 500 && TotalQuantity(lines[1..]) == 1;
  }

  /** The cart store. `stored` is what local storage holds under the cart's key. */
  class Cart {
    var items: seq<CartLine>
    var lastAddedTitle: Option<string>
    ghost var stored: Stored<CartLine>

    /** The store as created: the lines `loadCart` reads from storage. */
    constructor (raw: Stored<CartLine>)
      ensures items == LoadCart(raw) && lastAddedTitle == None && stored == raw
      ensures raw.List? ==> items == raw.elems
      ensures !raw.List? ==> items == []
    {
      items := LoadCart(raw);
      lastAddedTitle := None;
      stored := raw;
    }

    /** `persist`: write the whole line list to storage. */
    ghost method Persist()
      modifies this`stored
      ensures stored == List(items) && LoadCart(stored) == items
    {
      stored := List(items);
    }

    /** `addItem(product, quantity = 1)`. */
    method AddItem(product: Product, quantity: int := 1)
      modifies this
      ensures items == AddLine(old(items), product, quantity)
      ensures lastAddedTitle == Some(product.title)
      ensures stored == List(items) && LoadCart(stored) == items
      ensures old(UniqueLines(items)) ==> UniqueLines(items)
      ensures old(AllPositive(items)) && quantity >= 1 ==> AllPositive(items)
      ensures TotalQuantity(items) == old(TotalQuantity(items)) + quantity
    {
      ghost var before := items;
      var found := LineIndex(items, product.id);
      if found.Some? {
        var i := found.value;
        items := items[i := CartLine(items[i].product, items[i].quantity + quantity)];
      } else {
        items := [CartLine(product, quantity)] + items;
      }
      Persist();
      lastAddedTitle := Some(product.title);
      TotalsAfterAdd(before, product, quantity);
      if UniqueLines(before) {
        AddKeepsUnique(before, product, quantity);
      }
      if AllPositive(before) && quantity >= 1 {
        AddKeepsPositive(before, product, quantity);
      }
    }

    method RemoveItem(id: string)
      modifies this
      ensures items == WithoutProduct(old(items), id)
      ensures lastAddedTitle == old(lastAddedTitle)
      ensures stored == List(items) && LoadCart(stored) == items
      ensures old(UniqueLines(items)) ==> UniqueLines(items) && !HasItem(id)
      ensures old(AllPositive(items)) ==> AllPositive(items)
    {
      ghost var before := items;
      items := Filter(items, OtherThan(id));
      Persist();
      if UniqueLines(before) {
        RemoveKeepsUnique(before, id);
      }
      if AllPositive(before) {
        RemoveKeepsPositive(before, id);
      }
    }

    method UpdateQuantity(id: string, quantity: Option<real>)
      modifies this
      ensures lastAddedTitle == old(lastAddedTitle)
      ensures Sanitize(quantity) <= 0 ==>
        items == WithoutProduct(old(items), id) && stored == List(items)
      ensures Sanitize(quantity) > 0 && old(LineIndex(items, id)).Some? ==>
        items == SetQuantity(old(items), id, Sanitize(quantity)) && stored == List(items)
      ensures Sanitize(quantity) > 0 && old(LineIndex(items, id)).None? ==>
        items == old(items) && stored == old(stored)
      ensures old(UniqueLines(items)) ==> UniqueLines(items)
      ensures old(AllPositive(items)) ==> AllPositive(items)
    {
      var sanitized := Sanitize(quantity);
      if sanitized <= 0 {
        RemoveItem(id);
        return;
      }
      var target := LineIndex(items, id);
      if target.Some? {
        ghost var before := items;
        var i := target.value;
        items := items[i := CartLine(items[i].product, sanitized)];
        Persist();
        if UniqueLines(before) {
          SetKeepsUnique(before, id, sanitized);
        }
      }
    }

    method Clear()
      modifies this
      ensures items == [] && lastAddedTitle == old(lastAddedTitle)
      ensures stored == List([])
    {
      items := [];
      Persist();
    }

    method ResetLastAdded()
      modifies this`lastAddedTitle
      ensures lastAddedTitle == None
    {
      lastAddedTitle := None;
    }

    /** `itemCount`. */
    function ItemCount(): (n: int)
      reads this
      ensures n == TotalQuantity(items)
      ensures items == [] ==> n == 0
      ensures AllPositive(items) ==> n >= |items|
    {
      TotalsBounds(items);
      TotalQuantity(items)
    }

    /** `subtotal`. */
    function CartSubtotal(): (t: int)
      reads this
      ensures t == Subtotal(items)
      ensures items == [] ==> t == 0
      ensures (forall i :: 0 <= i < |items| ==> items[i].product.price >= 0 && items[i].quantity >= 0) ==>
        t >= 0
    {
      TotalsBounds(items);
      Subtotal(items)
    }

    /** `hasItem(id)`: some line holds that product. */
    function HasItem(id: string): (r: bool)
      reads this
      ensures r <==> exists l :: l in items && l.product.id == id
    {
      LineIndex(items, id).Some?
    }
  }
}
