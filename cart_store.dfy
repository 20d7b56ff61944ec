/** The cart aggregator: an ordered list of cart entries, at most one per menu
    item, with the add/remove/set-quantity/clear mutators and the three folds
    the pages read (items in cart, price of cart, quantity of one item). */
module CartStore {
  import opened ShopTypes
  import Seqs

  function EntryId(e: CartItem): string { e.menuItem.id }

  /** The price of one cart line, at the price cached when the item was added. */
  function LineTotal(e: CartItem): Cents { e.menuItem.price * e.quantity }

  predicate UniqueIds(items: seq<CartItem>)
  {
    forall i, j :: 0 <= i < j < |items| ==> EntryId(items[i]) != EntryId(items[j])
  }

  predicate Positive(items: seq<CartItem>)
  {
    forall i :: 0 <= i < |items| ==> items[i].quantity > 0
  }

  /** The cart invariant: one entry per menu-item id, and every quantity at least 1. */
  predicate WellFormed(items: seq<CartItem>)
  {
    UniqueIds(items) && Positive(items)
  }

  predicate Contains(items: seq<CartItem>, id: string)
  {
    exists i :: 0 <= i < |items| && EntryId(items[i]) == id
  }

  predicate PricesNonNegative(items: seq<CartItem>)
  {
    forall i :: 0 <= i < |items| ==> items[i].menuItem.price >= 0
  }

  // ---------------------------------------------------------------------------
  // Queries: the three folds over `items`
  // ---------------------------------------------------------------------------

  /** `items.find(item => item.menuItem._id === id)`. */
  function Find(items: seq<CartItem>, id: string): (r: Option<CartItem>)
    ensures r.None? <==> !Contains(items, id)
    ensures r.Some? ==> r.value in items && EntryId(r.value) == id
  {
    if items == [] then None
    else if EntryId(items[0]) == id then Some(items[0])
    else
      assert forall i :: 1 <= i < |items| ==> items[i] == items[1..][i - 1];
      Find(items[1..], id)
  }

  /** `find` returns the first entry carrying the id, whatever follows it. */
  lemma {:induction false} FindFirst(items: seq<CartItem>, id: string, k: int)
    requires 0 <= k < |items| && EntryId(items[k]) == id
    requires forall i :: 0 <= i < k ==> EntryId(items[i]) != id
    ensures Find(items, id) == Some(items[k])
  {
    if k > 0 {
      FindFirst(items[1..], id, k - 1);
    }
  }

  /** Under the invariant, `find` returns the one entry carrying the id. */
  lemma {:induction false} FindUnique(items: seq<CartItem>, id: string, k: int)
    requires UniqueIds(items)
    requires 0 <= k < |items| && EntryId(items[k]) == id
    ensures Find(items, id) == Some(items[k])
  {
    if k > 0 {
      assert EntryId(items[0]) != id;
      FindUnique(items[1..], id, k - 1);
    }
  }

  /** `getItemQuantity`: the matching entry's quantity, or 0 when there is none. */
  function ItemQuantity(items: seq<CartItem>, id: string): (q: int)
    ensures !Contains(items, id) ==> q == 0
    ensures Contains(items, id) ==>
      exists i :: 0 <= i < |items| && EntryId(items[i]) == id && items[i].quantity == q
    ensures Positive(items) ==> (q > 0 <==> Contains(items, id))
  {
    match Find(items, id)
    case Some(e) => e.quantity
    case None => 0
  }

  /** `getTotalItems`: the left fold `total + item.quantity` from 0. */
  function TotalItems(items: seq<CartItem>): (n: int)
    ensures Positive(items) ==> n >= |items|
  {
    if items == [] then 0
    else
      assert Positive(items) ==> Positive(items[..|items| - 1]);
      TotalItems(items[..|items| - 1]) + items[|items| - 1].quantity
  }

  /** `getTotalPrice`: the left fold `total + item.menuItem.price * item.quantity` from 0. */
  function TotalPrice(items: seq<CartItem>): (p: Cents)
    ensures Positive(items) && PricesNonNegative(items) ==> p >= 0
  {
    if items == [] then 0
    else
      var last := items[|items| - 1];
      assert Positive(items) ==> last.quantity > 0;
      assert PricesNonNegative(items) ==> last.menuItem.price >= 0;
      assert Positive(items) ==> Positive(items[..|items| - 1]);
      assert PricesNonNegative(items) ==> PricesNonNegative(items[..|items| - 1]);
      TotalPrice(items[..|items| - 1]) + LineTotal(last)
  }

  /** Both totals are additive over concatenation. */
  lemma {:induction false} TotalsConcat(a: seq<CartItem>, b: seq<CartItem>)
    ensures TotalItems(a + b) == TotalItems(a) + TotalItems(b)
    ensures TotalPrice(a + b) == TotalPrice(a) + TotalPrice(b)
  {
    if b == [] {
      assert a + b == a;
    } else {
      assert (a + b)[..|a + b| - 1] == a + b[..|b| - 1];
      assert (a + b)[|a + b| - 1] == b[|b| - 1];
      TotalsConcat(a, b[..|b| - 1]);
    }
  }

  lemma TotalsSingle(e: CartItem)
    ensures TotalItems([e]) == e.quantity && TotalPrice([e]) == LineTotal(e)
  {
    assert [e][..0] == [];
  }

  /** One entry between two stretches contributes exactly its own share to each total. */
  lemma TotalsAround(pre: seq<CartItem>, e: CartItem, post: seq<CartItem>)
    ensures TotalItems(pre + ([e] + post)) == TotalItems(pre) + e.quantity + TotalItems(post)
    ensures TotalPrice(pre + ([e] + post)) == TotalPrice(pre) + LineTotal(e) + TotalPrice(post)
  {
    TotalsConcat(pre, [e] + post);
    TotalsConcat([e], post);
    TotalsSingle(e);
  }

  /** Replacing one entry changes each total by the difference of that entry's share. */
  lemma TotalsReplaceAt(items: seq<CartItem>, k: int, e: CartItem)
    requires 0 <= k < |items|
    ensures TotalItems(items[k := e]) == TotalItems(items) - items[k].quantity + e.quantity
    ensures TotalPrice(items[k := e]) == TotalPrice(items) - LineTotal(items[k]) + LineTotal(e)
  {
    var pre, post := items[..k], items[k + 1..];
    assert items == pre + ([items[k]] + post);
    assert items[k := e] == pre + ([e] + post);
    TotalsAround(pre, items[k], post);
    TotalsAround(pre, e, post);
  }

  /** Cutting one entry out takes exactly that entry's share off each total. */
  lemma TotalsDropAt(items: seq<CartItem>, k: int)
    requires 0 <= k < |items|
    ensures TotalItems(items[..k] + items[k + 1..]) == TotalItems(items) - items[k].quantity
    ensures TotalPrice(items[..k] + items[k + 1..]) == TotalPrice(items) - LineTotal(items[k])
  {
    Seqs.SplitAt(items, k);
    TotalsAround(items[..k], items[k], items[k + 1..]);
    TotalsConcat(items[..k], items[k + 1..]);
  }

  // ---------------------------------------------------------------------------
  // Mutators, as the new list each one builds and hands to `set`
  // ---------------------------------------------------------------------------

  function Incremented(e: CartItem): CartItem { e.(quantity := e.quantity + 1) }

  function SetQuantity(q: int): CartItem -> CartItem { (e: CartItem) => e.(quantity := q) }

  predicate InCart(e: CartItem) { e.quantity > 0 }

  /** `addItem`: bump the entry that has the item's id, or append a fresh entry of quantity 1. */
  function Added(items: seq<CartItem>, m: MenuItem): (r: seq<CartItem>)
    ensures |r| == if Contains(items, m.id) then |items| else |items| + 1
  {
    if Find(items, m.id).Some? then Seqs.MapMatching(items, EntryId, m.id, Incremented)
    else items + [CartItem(m, 1)]
  }

  /** `removeItem`: keep every entry whose id differs. */
  function Removed(items: seq<CartItem>, id: string): (r: seq<CartItem>)
    ensures |r| <= |items|
    ensures !Contains(r, id)
  {
    Seqs.RemoveKeyMembers(items, EntryId, id);
    var r := Seqs.RemoveKey(items, EntryId, id);
    assert forall i :: 0 <= i < |r| ==> r[i] in r;
    r
  }

  /** `updateQuantity`: set the quantity of the matching entries, then drop every entry
      whose quantity is not positive. */
  function QuantityUpdated(items: seq<CartItem>, id: string, q: int): (r: seq<CartItem>)
    ensures |r| <= |items|
    ensures Positive(r)
  {
    var mapped := Seqs.MapMatching(items, EntryId, id, SetQuantity(q));
    Seqs.FilterMembers(mapped, InCart);
    var r := Seqs.Filter(mapped, InCart);
    assert forall i :: 0 <= i < |r| ==> r[i] in r;
    r
  }

  // ---------------------------------------------------------------------------
  // What each mutator does to the list
  // ---------------------------------------------------------------------------

  /** Adding an item already in the cart raises that entry by exactly one and touches nothing else. */
  lemma AddExisting(items: seq<CartItem>, m: MenuItem, k: int)
    requires UniqueIds(items)
    requires 0 <= k < |items| && EntryId(items[k]) == m.id
    ensures Added(items, m) == items[k := Incremented(items[k])]
  {
    var r := Seqs.MapMatching(items, EntryId, m.id, Incremented);
    Seqs.MapMatchingAt(items, EntryId, m.id, Incremented);
    assert Find(items, m.id).Some?;
    assert |r| == |items|;
    forall i | 0 <= i < |items|
      ensures r[i] == items[k := Incremented(items[k])][i]
    {
      if i != k {
        assert EntryId(items[i]) != m.id by {
          if i < k { assert EntryId(items[i]) != EntryId(items[k]); }
          else { assert EntryId(items[k]) != EntryId(items[i]); }
        }
      }
    }
  }

  /** Adding an item not in the cart appends a one-quantity entry at the end. */
  lemma AddNew(items: seq<CartItem>, m: MenuItem)
    requires !Contains(items, m.id)
    ensures Added(items, m) == items + [CartItem(m, 1)]
  {
  }

  /** Removing an id present at position `k` cuts out exactly that entry, keeping the rest in order. */
  lemma RemovePresent(items: seq<CartItem>, id: string, k: int)
    requires UniqueIds(items)
    requires 0 <= k < |items| && EntryId(items[k]) == id
    ensures Removed(items, id) == items[..k] + items[k + 1..]
  {
    forall i | 0 <= i < |items| && i != k
      ensures EntryId(items[i]) != id
    {
      if i < k { assert EntryId(items[i]) != EntryId(items[k]); }
      else { assert EntryId(items[k]) != EntryId(items[i]); }
    }
    Seqs.RemoveKeyAt(items, EntryId, id, k);
  }

  /** Removing an id that is not in the cart is a no-op. */
  lemma RemoveAbsent(items: seq<CartItem>, id: string)
    requires !Contains(items, id)
    ensures Removed(items, id) == items
  {
    Seqs.RemoveKeyMembers(items, EntryId, id);
  }

  /** After `removeItem(id)` nothing in the cart carries `id`. */
  lemma RemoveLeavesNone(items: seq<CartItem>, id: string)
    ensures !Contains(Removed(items, id), id)
    ensures ItemQuantity(Removed(items, id), id) == 0
  {
    var r := Removed(items, id);
    Seqs.RemoveKeyMembers(items, EntryId, id);
    forall i | 0 <= i < |r| ensures EntryId(r[i]) != id {
      assert r[i] in r;
    }
  }

  /** Setting a positive quantity on an entry that is present overwrites that entry's quantity in place. */
  lemma UpdatePositive(items: seq<CartItem>, id: string, q: int, k: int)
    requires WellFormed(items)
    requires 0 <= k < |items| && EntryId(items[k]) == id
    requires q > 0
    ensures QuantityUpdated(items, id, q) == items[k := items[k].(quantity := q)]
  {
    var set_q := SetQuantity(q);
    var mapped := Seqs.MapMatching(items, EntryId, id, set_q);
    Seqs.MapMatchingAt(items, EntryId, id, set_q);
    assert mapped == items[k := items[k].(quantity := q)] by {
      forall i | 0 <= i < |items|
        ensures mapped[i] == items[k := items[k].(quantity := q)][i]
      {
        if i != k {
          if i < k { assert EntryId(items[i]) != EntryId(items[k]); }
          else { assert EntryId(items[k]) != EntryId(items[i]); }
        }
      }
    }
    Seqs.FilterKeepsAll(mapped, InCart);
  }

  /** Setting a quantity of 0 or less on an entry that is present removes that entry. */
  lemma UpdateNonPositive(items: seq<CartItem>, id: string, q: int, k: int)
    requires WellFormed(items)
    requires 0 <= k < |items| && EntryId(items[k]) == id
    requires q <= 0
    ensures QuantityUpdated(items, id, q) == items[..k] + items[k + 1..]
    ensures QuantityUpdated(items, id, q) == Removed(items, id)
  {
    var set_q := SetQuantity(q);
    var mapped := Seqs.MapMatching(items, EntryId, id, set_q);
    Seqs.MapMatchingAt(items, EntryId, id, set_q);
    forall i | 0 <= i < |items| && i != k
      ensures mapped[i] == items[i]
    {
      if i < k { assert EntryId(items[i]) != EntryId(items[k]); }
      else { assert EntryId(items[k]) != EntryId(items[i]); }
    }
    Seqs.FilterDropsOne(mapped, InCart, k);
    assert mapped[..k] == items[..k];
    assert mapped[k + 1..] == items[k + 1..];
    RemovePresent(items, id, k);
  }

  /** Updating an id that is not in the cart changes nothing. */
  lemma UpdateAbsent(items: seq<CartItem>, id: string, q: int)
    requires Positive(items)
    requires !Contains(items, id)
    ensures QuantityUpdated(items, id, q) == items
  {
    Seqs.MapMatchingAbsent(items, EntryId, id, SetQuantity(q));
    Seqs.FilterKeepsAll(items, InCart);
  }

  // ---------------------------------------------------------------------------
  // The invariant is kept by every mutator
  // ---------------------------------------------------------------------------

  lemma ReplaceKeepsWellFormed(items: seq<CartItem>, k: int, e: CartItem)
    requires WellFormed(items)
    requires 0 <= k < |items| && EntryId(e) == EntryId(items[k]) && e.quantity > 0
    ensures WellFormed(items[k := e])
  {
  }

  lemma DropKeepsWellFormed(items: seq<CartItem>, k: int)
    requires WellFormed(items)
    requires 0 <= k < |items|
    ensures WellFormed(items[..k] + items[k + 1..])
  {
    var r := items[..k] + items[k + 1..];
    forall i | 0 <= i < |r| ensures r[i] == items[if i < k then i else i + 1] { }
  }

  lemma {:induction false} AddKeepsWellFormed(items: seq<CartItem>, m: MenuItem)
    requires WellFormed(items)
    ensures WellFormed(Added(items, m))
  {
    if Contains(items, m.id) {
      var k :| 0 <= k < |items| && EntryId(items[k]) == m.id;
      AddExisting(items, m, k);
      ReplaceKeepsWellFormed(items, k, Incremented(items[k]));
    } else {
      AddNew(items, m);
    }
  }

  lemma {:induction false} RemoveKeepsWellFormed(items: seq<CartItem>, id: string)
    requires WellFormed(items)
    ensures WellFormed(Removed(items, id))
  {
    if Contains(items, id) {
      var k :| 0 <= k < |items| && EntryId(items[k]) == id;
      RemovePresent(items, id, k);
      DropKeepsWellFormed(items, k);
    } else {
      RemoveAbsent(items, id);
    }
  }

  lemma {:induction false} UpdateKeepsWellFormed(items: seq<CartItem>, id: string, q: int)
    requires WellFormed(items)
    ensures WellFormed(QuantityUpdated(items, id, q))
  {
    if Contains(items, id) {
      var k :| 0 <= k < |items| && EntryId(items[k]) == id;
      if q > 0 {
        UpdatePositive(items, id, q, k);
        ReplaceKeepsWellFormed(items, k, items[k].(quantity := q));
      } else {
        UpdateNonPositive(items, id, q, k);
        DropKeepsWellFormed(items, k);
      }
    } else {
      UpdateAbsent(items, id, q);
    }
  }

  // ---------------------------------------------------------------------------
  // What each mutator does to the three queries
  // ---------------------------------------------------------------------------

  /** Every id other than `id` finds the same entry in `a` as in `b`. */
  ghost predicate AgreesExcept(a: seq<CartItem>, b: seq<CartItem>, id: string)
  {
    forall other :: other != id ==> Find(a, other) == Find(b, other)
  }

  /** The unit price `addItem` adds to the total: the cached price of the entry if there is one. */
  function UnitPrice(items: seq<CartItem>, m: MenuItem): Cents
  {
    match Find(items, m.id)
    case Some(e) => e.menuItem.price
    case None => m.price
  }

  /** What the entry for `id` contributes to the total price (0 when there is none). */
  function EntryTotal(items: seq<CartItem>, id: string): Cents
  {
    match Find(items, id)
    case Some(e) => LineTotal(e)
    case None => 0
  }

  lemma FindAfterReplace(items: seq<CartItem>, k: int, e: CartItem, other: string)
    requires WellFormed(items)
    requires 0 <= k < |items| && EntryId(e) == EntryId(items[k]) && e.quantity > 0
    requires other != EntryId(e)
    ensures Find(items[k := e], other) == Find(items, other)
  {
    ReplaceKeepsWellFormed(items, k, e);
    if Contains(items, other) {
      var j :| 0 <= j < |items| && EntryId(items[j]) == other;
      FindUnique(items, other, j);
      FindUnique(items[k := e], other, j);
    } else {
      var r := items[k := e];
      assert !Contains(r, other) by {
        forall i | 0 <= i < |r| ensures EntryId(r[i]) != other {
          if i == k { assert EntryId(r[i]) == EntryId(items[k]); }
        }
      }
    }
  }

  lemma FindAfterDrop(items: seq<CartItem>, k: int, other: string)
    requires WellFormed(items)
    requires 0 <= k < |items| && other != EntryId(items[k])
    ensures Find(items[..k] + items[k + 1..], other) == Find(items, other)
  {
    var r := items[..k] + items[k + 1..];
    DropKeepsWellFormed(items, k);
    if Contains(items, other) {
      var j :| 0 <= j < |items| && EntryId(items[j]) == other;
      var j' := if j < k then j else j - 1;
      assert r[j'] == items[j];
      FindUnique(items, other, j);
      FindUnique(r, other, j');
    } else {
      forall i | 0 <= i < |r| ensures EntryId(r[i]) != other {
        if i < k { assert r[i] == items[i]; } else { assert r[i] == items[i + 1]; }
      }
    }
  }

  lemma FindAfterAppend(items: seq<CartItem>, e: CartItem, other: string)
    requires UniqueIds(items) && !Contains(items, EntryId(e))
    requires other != EntryId(e)
    ensures Find(items + [e], other) == Find(items, other)
  {
    var r := items + [e];
    assert UniqueIds(r);
    if Contains(items, other) {
      var j :| 0 <= j < |items| && EntryId(items[j]) == other;
      FindUnique(items, other, j);
      FindUnique(r, other, j);
    } else {
      assert !Contains(r, other);
    }
  }

  /** One more of an entry costs one more unit price. */
  lemma IncrementedLineTotal(e: CartItem)
    ensures LineTotal(Incremented(e)) == LineTotal(e) + e.menuItem.price
  {
    var p, q := e.menuItem.price, e.quantity;
    assert p * (q + 1) == p * q + p;
  }

  /** `addItem(m)` raises the item's quantity and the item count by one, raises the price by the
      entry's cached unit price, and leaves every other entry as it was. */
  lemma {:induction false} AddEffect(items: seq<CartItem>, m: MenuItem)
    requires WellFormed(items)
    ensures ItemQuantity(Added(items, m), m.id) == ItemQuantity(items, m.id) + 1
    ensures TotalItems(Added(items, m)) == TotalItems(items) + 1
    ensures TotalPrice(Added(items, m)) == TotalPrice(items) + UnitPrice(items, m)
    ensures AgreesExcept(Added(items, m), items, m.id)
  {
    if Contains(items, m.id) {
      var k :| 0 <= k < |items| && EntryId(items[k]) == m.id;
      AddExistingEffect(items, m, k);
    } else {
      AddNewEffect(items, m);
    }
  }

  lemma AddExistingEffect(items: seq<CartItem>, m: MenuItem, k: int)
    requires WellFormed(items)
    requires 0 <= k < |items| && EntryId(items[k]) == m.id
    ensures ItemQuantity(Added(items, m), m.id) == ItemQuantity(items, m.id) + 1
    ensures TotalItems(Added(items, m)) == TotalItems(items) + 1
    ensures TotalPrice(Added(items, m)) == TotalPrice(items) + UnitPrice(items, m)
    ensures AgreesExcept(Added(items, m), items, m.id)
  {
    var e := Incremented(items[k]);
    var r := items[k := e];
    AddExisting(items, m, k);
    ReplaceKeepsWellFormed(items, k, e);
    FindUnique(items, m.id, k);
    FindUnique(r, m.id, k);
    TotalsReplaceAt(items, k, e);
    IncrementedLineTotal(items[k]);
    forall other | other != m.id ensures Find(r, other) == Find(items, other) {
      FindAfterReplace(items, k, e, other);
    }
  }

  lemma AddNewEffect(items: seq<CartItem>, m: MenuItem)
    requires WellFormed(items)
    requires !Contains(items, m.id)
    ensures ItemQuantity(Added(items, m), m.id) == ItemQuantity(items, m.id) + 1
    ensures TotalItems(Added(items, m)) == TotalItems(items) + 1
    ensures TotalPrice(Added(items, m)) == TotalPrice(items) + UnitPrice(items, m)
    ensures AgreesExcept(Added(items, m), items, m.id)
  {
    var e := CartItem(m, 1);
    var r := items + [e];
    AddNew(items, m);
    assert UniqueIds(r);
    FindUnique(r, m.id, |items|);
    TotalsConcat(items, [e]);
    TotalsSingle(e);
    forall other | other != m.id ensures Find(r, other) == Find(items, other) {
      FindAfterAppend(items, e, other);
    }
  }

  /** `removeItem(id)` takes the entry's quantity and line price off the totals and leaves every
      other entry as it was. */
  lemma {:induction false} RemoveEffect(items: seq<CartItem>, id: string)
    requires WellFormed(items)
    ensures ItemQuantity(Removed(items, id), id) == 0
    ensures TotalItems(Removed(items, id)) == TotalItems(items) - ItemQuantity(items, id)
    ensures TotalPrice(Removed(items, id)) == TotalPrice(items) - EntryTotal(items, id)
    ensures AgreesExcept(Removed(items, id), items, id)
  {
    var r := Removed(items, id);
    RemoveLeavesNone(items, id);
    if Contains(items, id) {
      var k :| 0 <= k < |items| && EntryId(items[k]) == id;
      RemovePresent(items, id, k);
      FindUnique(items, id, k);
      TotalsDropAt(items, k);
      forall other | other != id ensures Find(r, other) == Find(items, other) {
        FindAfterDrop(items, k, other);
      }
    } else {
      RemoveAbsent(items, id);
    }
  }

  /** `updateQuantity(id, q)` leaves the entry for `id` at quantity `q` when it was present and `q`
      is positive, and gone otherwise; the totals move by exactly that entry's change, and every
      other entry stays as it was. */
  lemma {:induction false} UpdateEffect(items: seq<CartItem>, id: string, q: int)
    requires WellFormed(items)
    ensures ItemQuantity(QuantityUpdated(items, id, q), id) ==
      if Contains(items, id) && q > 0 then q else 0
    ensures TotalItems(QuantityUpdated(items, id, q)) ==
      TotalItems(items) - ItemQuantity(items, id) + ItemQuantity(QuantityUpdated(items, id, q), id)
    ensures TotalPrice(QuantityUpdated(items, id, q)) ==
      TotalPrice(items) - EntryTotal(items, id) + EntryTotal(QuantityUpdated(items, id, q), id)
    ensures AgreesExcept(QuantityUpdated(items, id, q), items, id)
  {
    if Contains(items, id) {
      var k :| 0 <= k < |items| && EntryId(items[k]) == id;
      if q > 0 {
        UpdatePositiveEffect(items, id, q, k);
      } else {
        UpdateNonPositiveEffect(items, id, q, k);
      }
    } else {
      UpdateAbsent(items, id, q);
    }
  }

  lemma UpdatePositiveEffect(items: seq<CartItem>, id: string, q: int, k: int)
    requires WellFormed(items)
    requires 0 <= k < |items| && EntryId(items[k]) == id && q > 0
    ensures ItemQuantity(QuantityUpdated(items, id, q), id) == q
    ensures TotalItems(QuantityUpdated(items, id, q)) == TotalItems(items) - ItemQuantity(items, id) + q
    ensures TotalPrice(QuantityUpdated(items, id, q)) ==
      TotalPrice(items) - EntryTotal(items, id) + EntryTotal(QuantityUpdated(items, id, q), id)
    ensures AgreesExcept(QuantityUpdated(items, id, q), items, id)
  {
    var e := items[k].(quantity := q);
    var r := items[k := e];
    UpdatePositive(items, id, q, k);
    FindUnique(items, id, k);
    ReplaceKeepsWellFormed(items, k, e);
    FindUnique(r, id, k);
    TotalsReplaceAt(items, k, e);
    forall other | other != id ensures Find(r, other) == Find(items, other) {
      FindAfterReplace(items, k, e, other);
    }
  }

  lemma UpdateNonPositiveEffect(items: seq<CartItem>, id: string, q: int, k: int)
    requires WellFormed(items)
    requires 0 <= k < |items| && EntryId(items[k]) == id && q <= 0
    ensures ItemQuantity(QuantityUpdated(items, id, q), id) == 0
    ensures TotalItems(QuantityUpdated(items, id, q)) == TotalItems(items) - ItemQuantity(items, id)
    ensures TotalPrice(QuantityUpdated(items, id, q)) == TotalPrice(items) - EntryTotal(items, id)
    ensures EntryTotal(QuantityUpdated(items, id, q), id) == 0
    ensures AgreesExcept(QuantityUpdated(items, id, q), items, id)
  {
    var r := items[..k] + items[k + 1..];
    UpdateNonPositive(items, id, q, k);
    FindUnique(items, id, k);
    RemoveLeavesNone(items, id);
    TotalsDropAt(items, k);
    forall other | other != id ensures Find(r, other) == Find(items, other) {
      FindAfterDrop(items, k, other);
    }
  }

  /** `n` calls of `addItem(m)` in a row. */
  function AddedTimes(items: seq<CartItem>, m: MenuItem, n: nat): seq<CartItem>
  {
    if n == 0 then items else Added(AddedTimes(items, m, n - 1), m)
  }

  /** One `addItem(m)` on a well-formed cart, as the repeated adds below use it. */
  lemma AddOnce(items: seq<CartItem>, m: MenuItem)
    requires WellFormed(items)
    ensures WellFormed(Added(items, m))
    ensures ItemQuantity(Added(items, m), m.id) == ItemQuantity(items, m.id) + 1
    ensures Contains(Added(items, m), m.id)
  {
    AddKeepsWellFormed(items, m);
    AddEffect(items, m);
    assert ItemQuantity(items, m.id) >= 0;
  }

  /** `n` adds of the same item raise its quantity by `n`, keep the invariant, and (for `n > 0`)
      leave the item in the cart, so in exactly one entry. */
  lemma {:induction false} AddTimesEffect(items: seq<CartItem>, m: MenuItem, n: nat)
    requires WellFormed(items)
    ensures WellFormed(AddedTimes(items, m, n))
    ensures ItemQuantity(AddedTimes(items, m, n), m.id) == ItemQuantity(items, m.id) + n
    ensures n > 0 ==> Contains(AddedTimes(items, m, n), m.id)
  {
    if n > 0 {
      var prev := AddedTimes(items, m, n - 1);
      var cur := AddedTimes(items, m, n);
      assert cur == Added(prev, m);
      AddTimesEffect(items, m, n - 1);
      AddOnce(prev, m);
      assert ItemQuantity(cur, m.id) == ItemQuantity(prev, m.id) + 1;
    }
  }

  /** Item A at 10.00 added twice and item B at 5.50 added once: three items, 25.50 in all. */
  lemma TwoOfOneAndOneOfAnother(a: MenuItem, b: MenuItem)
    requires a.id != b.id && a.price == 1000 && b.price == 550
    ensures TotalItems(Added(Added(Added([], a), a), b)) == 3
    ensures TotalPrice(Added(Added(Added([], a), a), b)) == 2550
  {
    var c1 := Added([], a);
    var c2 := Added(c1, a);
    AddEffect([], a);
    AddKeepsWellFormed([], a);
    AddEffect(c1, a);
    assert Find(c1, a.id).Some?;
    AddKeepsWellFormed(c1, a);
    AddEffect(c2, b);
    assert !Contains(c2, b.id) by {
      assert Find(c2, b.id) == Find(c1, b.id);
    }
  }

  // ---------------------------------------------------------------------------
  // The store
  // ---------------------------------------------------------------------------

  /** `useCartStore`: the cart entries, oldest first. */
  class Cart {
    var items: seq<CartItem>

    ghost predicate Valid()
      reads this
    {
      WellFormed(items)
    }

    constructor ()
      ensures Valid() && items == []
    {
      items := [];
    }

    method AddItem(m: MenuItem)
      requires Valid()
      modifies this
      ensures Valid()
      ensures items == Added(old(items), m)
      ensures GetItemQuantity(m.id) == old(GetItemQuantity(m.id)) + 1
      ensures GetTotalItems() == old(GetTotalItems()) + 1
      ensures GetTotalPrice() == old(GetTotalPrice() + UnitPrice(items, m))
    {
      AddKeepsWellFormed(items, m);
      AddEffect(items, m);
      items := Added(items, m);
    }

    method RemoveItem(id: string)
      requires Valid()
      modifies this
      ensures Valid()
      ensures items == Removed(old(items), id)
      ensures GetItemQuantity(id) == 0
      ensures GetTotalItems() == old(GetTotalItems() - GetItemQuantity(id))
    {
      RemoveKeepsWellFormed(items, id);
      RemoveEffect(items, id);
      items := Removed(items, id);
    }

    method UpdateQuantity(id: string, quantity: int)
      requires Valid()
      modifies this
      ensures Valid()
      ensures items == QuantityUpdated(old(items), id, quantity)
      ensures GetItemQuantity(id) == if old(Contains(items, id)) && quantity > 0 then quantity else 0
      ensures GetTotalItems() == old(GetTotalItems() - GetItemQuantity(id)) + GetItemQuantity(id)
    {
      UpdateKeepsWellFormed(items, id, quantity);
      UpdateEffect(items, id, quantity);
      items := QuantityUpdated(items, id, quantity);
    }

    method ClearCart()
      modifies this
      ensures Valid()
      ensures items == []
      ensures GetTotalItems() == 0 && GetTotalPrice() == 0
    {
      items := [];
    }

    /** `getTotalItems`: at least one per entry, so zero exactly when the cart is empty. */
    function GetTotalItems(): (n: int)
      reads this
      ensures Valid() ==> n >= |items|
      ensures Valid() ==> (n == 0 <==> items == [])
    {
      TotalItems(items)
    }

    /** `getTotalPrice`: never negative while no cached price is. */
    function GetTotalPrice(): (p: Cents)
      reads this
      ensures Valid() && PricesNonNegative(items) ==> p >= 0
    {
      TotalPrice(items)
    }

    /** `getItemQuantity`: positive exactly for the ids in the cart. */
    function GetItemQuantity(id: string): (q: int)
      reads this
      ensures Valid() ==> (q > 0 <==> Contains(items, id))
      ensures !Contains(items, id) ==> q == 0
    {
      ItemQuantity(items, id)
    }
  }
}
