/**
 * The shopping cart (`CartService`): the items keyed by product id in
 * insertion order, the item being edited, the chosen shipping method and
 * address, and a cached subtotal. Every state change notifies the
 * listeners of the cart's `NotifiableService`.
 *
 * Cart items are objects shared between the cart and its callers: the
 * cart stores the very object it is given, `add` grows a stored object's
 * quantity in place, and the current item can be the stored object. The
 * model names each item object by a reference into the store `objects`,
 * which holds every object's current value, so that sharing and in-place
 * updates are explicit.
 */
module Cart {
  import opened Wrappers
  import opened JsBuiltins
  import opened Products
  import opened CartPricing
  import opened Service
  import SM = ShippingMethods

  /** A `CartItem` object: its index in the cart's object store. Two
      references are the same object iff they are equal. */
  type ItemRef = nat

  /** What the object `r` is worth in the store `objects`; a dangling
      reference, which a valid cart never holds, is worth 0. */
  function TotalIn(objects: seq<Line>): ItemRef -> int {
    (r: ItemRef) => if r < |objects| then LineTotal(objects[r]) else 0
  }

  /** Creating objects changes no existing object's worth. */
  lemma TotalInGrow(objects: seq<Line>, extra: seq<Line>, refs: seq<ItemRef>)
    requires forall j :: 0 <= j < |refs| ==> refs[j] < |objects|
    ensures SumBy(refs, TotalIn(objects + extra)) == SumBy(refs, TotalIn(objects))
  {
    forall j | 0 <= j < |refs| ensures TotalIn(objects + extra)(refs[j]) == TotalIn(objects)(refs[j]) {
      assert (objects + extra)[refs[j]] == objects[refs[j]];
    }
    SumByAgree(refs, TotalIn(objects + extra), TotalIn(objects));
  }

  /** `line` with `more` added to its quantity. */
  function AddedTo(line: Line, more: int): Line {
    line.(quantity := line.quantity + more)
  }

  /** Growing the quantity of an object stored under one key only adds
      the worth of the extra quantity to the sum. */
  lemma GrowInPlace(ks: seq<string>, items: map<string, ItemRef>, objects: seq<Line>, id: string, more: int)
    requires Unique(ks) && (forall k :: k in items <==> k in ks)
    requires id in items && items[id] < |objects|
    requires forall k :: k in items && k != id ==> items[k] != items[id]
    ensures var e := items[id];
      SumBy(ValuesAt(ks, items), TotalIn(objects[e := AddedTo(objects[e], more)]))
      == SumBy(ValuesAt(ks, items), TotalIn(objects)) + LineTotal(objects[e].(quantity := more))
  {
    var e := items[id];
    var grown := objects[e := AddedTo(objects[e], more)];
    var refs := ValuesAt(ks, items);
    var i := IndexIn(ks, id);
    UniqueIsDistinct(ks);
    forall j | 0 <= j < |refs| && j != i ensures TotalIn(objects)(refs[j]) == TotalIn(grown)(refs[j]) {
      ValuesAtIndex(ks, items, j);
      assert ks[j] != id;
    }
    ValuesAtIndex(ks, items, i);
    SumByChangeAt(refs, i, TotalIn(objects), TotalIn(grown));
    LineTotalAddsQuantities(objects[e], more);
  }

  /** The position of `id` in `ks`. */
  function IndexIn(ks: seq<string>, id: string): (i: nat)
    requires id in ks
    ensures i < |ks| && ks[i] == id
  {
    if ks[0] == id then 0 else 1 + IndexIn(ks[1..], id)
  }

  /** No key occurs twice: each key is new when it is appended. This is
      `Distinct`, stated one key at a time (see `UniqueIsDistinct`). */
  ghost predicate Unique(ks: seq<string>) {
    ks == [] || (ks[|ks| - 1] !in ks[..|ks| - 1] && Unique(ks[..|ks| - 1]))
  }

  lemma {:induction false} UniqueIsDistinct(ks: seq<string>)
    ensures Unique(ks) <==> Distinct(ks)
  {
    if ks != [] {
      var init, last := ks[..|ks| - 1], ks[|ks| - 1];
      UniqueIsDistinct(init);
      if Distinct(ks) {
        assert Distinct(init) by {
          forall i, j | 0 <= i < j < |init| ensures init[i] != init[j] {
            assert init[i] == ks[i] && init[j] == ks[j];
          }
        }
        forall i | 0 <= i < |init| ensures init[i] != last {
          assert init[i] == ks[i];
        }
      }
      if Unique(ks) {
        forall i, j | 0 <= i < j < |ks| ensures ks[i] != ks[j] {
          assert ks[i] == init[i];
          if j < |init| {
            assert ks[j] == init[j];
          }
        }
      }
    }
  }

  lemma AppendKeepsUnique(ks: seq<string>, k: string)
    requires Unique(ks) && k !in ks
    ensures Unique(ks + [k])
    ensures forall x :: x in ks + [k] <==> x in ks || x == k
  {
    assert (ks + [k])[..|ks|] == ks;
  }

  lemma RemoveAtKeepsUnique(ks: seq<string>, i: nat)
    requires Unique(ks) && i < |ks|
    ensures Unique(ks[..i] + ks[i + 1..])
    ensures forall k :: k in ks[..i] + ks[i + 1..] <==> k in ks && k != ks[i]
  {
    UniqueIsDistinct(ks);
    DistinctRemoveAt(ks, i);
    UniqueIsDistinct(ks[..i] + ks[i + 1..]);
  }

  lemma DistinctRemoveAt(ks: seq<string>, i: nat)
    requires Distinct(ks) && i < |ks|
    ensures Distinct(ks[..i] + ks[i + 1..])
    ensures forall k :: k in ks[..i] + ks[i + 1..] <==> k in ks && k != ks[i]
  {
    var r := ks[..i] + ks[i + 1..];
    forall k | k in ks && k != ks[i] ensures k in r {
      var j :| 0 <= j < |ks| && ks[j] == k;
      if j < i {
        assert r[j] == k;
      } else {
        assert r[j - 1] == k;
      }
    }
    forall j | 0 <= j < |r| ensures r[j] != ks[i] && r[j] in ks {
      if j < i {
        assert r[j] == ks[j];
      } else {
        assert r[j - 1 + 1] == ks[j + 1];
      }
    }
    forall a, b | 0 <= a < b < |r| ensures r[a] != r[b] {
      var a' := if a < i then a else a + 1;
      var b' := if b < i then b else b + 1;
      assert r[a] == ks[a'];
      assert r[b] == ks[b'];
    }
  }

  /** The values `vals` holds under the keys `ks`, in the order of `ks`
      (what iterating a JavaScript `Map` yields). */
  function ValuesAt<V>(ks: seq<string>, vals: map<string, V>): (vs: seq<V>)
    requires forall k :: k in ks ==> k in vals
    ensures |vs| == |ks|
  {
    if ks == [] then [] else ValuesAt(ks[..|ks| - 1], vals) + [vals[ks[|ks| - 1]]]
  }

  /** The `j`-th value is the one under the `j`-th key. */
  lemma {:induction false} ValuesAtIndex<V>(ks: seq<string>, vals: map<string, V>, j: nat)
    requires forall k :: k in ks ==> k in vals
    requires j < |ks|
    ensures ValuesAt(ks, vals)[j] == vals[ks[j]]
  {
    if j < |ks| - 1 {
      ValuesAtIndex(ks[..|ks| - 1], vals, j);
    }
  }

  lemma ValuesAtIndices<V>(ks: seq<string>, vals: map<string, V>)
    requires forall k :: k in ks ==> k in vals
    ensures forall j :: 0 <= j < |ks| ==> ValuesAt(ks, vals)[j] == vals[ks[j]]
  {
    forall j | 0 <= j < |ks| ensures ValuesAt(ks, vals)[j] == vals[ks[j]] {
      ValuesAtIndex(ks, vals, j);
    }
  }

  /** Only the values under the keys `ks` matter. */
  lemma {:induction false} ValuesAtAgree<V>(ks: seq<string>, vals: map<string, V>, other: map<string, V>)
    requires forall k :: k in ks ==> k in vals && k in other && vals[k] == other[k]
    ensures ValuesAt(ks, vals) == ValuesAt(ks, other)
  {
    if ks != [] {
      ValuesAtAgree(ks[..|ks| - 1], vals, other);
    }
  }

  /** Storing a value under a new key adds its worth to the sum. */
  lemma ValuesAtAppend<V>(ks: seq<string>, vals: map<string, V>, k: string, v: V, f: V -> int)
    requires forall x :: x in ks ==> x in vals
    requires k !in ks
    ensures SumBy(ValuesAt(ks + [k], vals[k := v]), f) == SumBy(ValuesAt(ks, vals), f) + f(v)
  {
    assert (ks + [k])[..|ks|] == ks;
    ValuesAtAgree(ks, vals[k := v], vals);
    assert ValuesAt(ks + [k], vals[k := v]) == ValuesAt(ks, vals) + [v];
    SumAppend(ValuesAt(ks, vals), [v], f);
    SumSingleton(v, f);
  }

  /** The values under the keys without position `i` are the values
      without position `i`. */
  lemma ValuesAtRemoved<V>(ks: seq<string>, vals: map<string, V>, i: nat)
    requires forall x :: x in ks ==> x in vals
    requires i < |ks|
    ensures forall x :: x in ks[..i] + ks[i + 1..] ==> x in vals
    ensures ValuesAt(ks[..i] + ks[i + 1..], vals) == ValuesAt(ks, vals)[..i] + ValuesAt(ks, vals)[i + 1..]
  {
    var rest := ks[..i] + ks[i + 1..];
    assert forall x :: x in rest ==> x in ks;
    var before := ValuesAt(ks, vals);
    var after := ValuesAt(rest, vals);
    forall j | 0 <= j < |after| ensures after[j] == (before[..i] + before[i + 1..])[j] {
      ValuesAtIndex(rest, vals, j);
      if j < i {
        assert rest[j] == ks[j];
        ValuesAtIndex(ks, vals, j);
      } else {
        assert rest[j] == ks[j + 1];
        ValuesAtIndex(ks, vals, j + 1);
      }
    }
  }

  /** Deleting a key that is not listed changes no listed value. */
  lemma ValuesAtWithout<V>(ks: seq<string>, vals: map<string, V>, d: string)
    requires forall x :: x in ks ==> x in vals
    requires d !in ks
    ensures forall x :: x in ks ==> x in vals - {d}
    ensures ValuesAt(ks, vals - {d}) == ValuesAt(ks, vals)
  {
    ValuesAtAgree(ks, vals - {d}, vals);
  }

  /** Deleting the key at position `i` takes its value's worth off the sum. */
  lemma ValuesAtRemoveAt<V>(ks: seq<string>, vals: map<string, V>, i: nat, f: V -> int)
    requires forall x :: x in ks ==> x in vals
    requires Unique(ks) && i < |ks|
    ensures forall x :: x in ks[..i] + ks[i + 1..] ==> x in vals - {ks[i]}
    ensures SumBy(ValuesAt(ks[..i] + ks[i + 1..], vals - {ks[i]}), f) == SumBy(ValuesAt(ks, vals), f) - f(vals[ks[i]])
  {
    RemoveAtKeepsUnique(ks, i);
    var rest := ks[..i] + ks[i + 1..];
    UniqueIsDistinct(ks);
    forall j | 0 <= j < |rest| ensures rest[j] != ks[i] {
      if j < i { assert rest[j] == ks[j]; } else { assert rest[j] == ks[j + 1]; }
    }
    ValuesAtRemoved(ks, vals, i);
    ValuesAtWithout(rest, vals, ks[i]);
    ValuesAtIndex(ks, vals, i);
    SumRemoveAt(ValuesAt(ks, vals), i, f);
  }

  /** Replacing the value under the key at position `i` replaces its worth
      in the sum. */
  lemma ValuesAtReplace<V>(ks: seq<string>, vals: map<string, V>, i: nat, v: V, f: V -> int)
    requires forall x :: x in ks ==> x in vals
    requires Unique(ks) && i < |ks|
    ensures SumBy(ValuesAt(ks, vals[ks[i] := v]), f) == SumBy(ValuesAt(ks, vals), f) - f(vals[ks[i]]) + f(v)
  {
    var before := ValuesAt(ks, vals);
    var after := ValuesAt(ks, vals[ks[i] := v]);
    UniqueIsDistinct(ks);
    assert after == before[i := v] by {
      forall j | 0 <= j < |after| ensures after[j] == before[i := v][j] {
        ValuesAtIndex(ks, vals, j);
        ValuesAtIndex(ks, vals[ks[i] := v], j);
      }
    }
    ValuesAtIndex(ks, vals, i);
    SumReplaceAt(before, i, v, f);
  }

  class CartService {
    /** Every cart item object, by reference: `objects[r]` is the current
        value of object `r`. */
    var objects: seq<Line>
    /** The keys of the item map in insertion order (a JavaScript `Map`
        iterates in insertion order and keeps a key's place when its value
        is replaced). */
    var keys: seq<string>
    var items: map<string, ItemRef>
    var shippingMethod: Option<SM.ShippingMethod>
    var shippingAddress: ShippingAddress
    var cachedSubtotal: Option<int>
    var currentItem: Option<ItemRef>
    /** The listener registry this cart inherits from. */
    const notifier: NotifiableService

    ghost predicate KeysValid()
      reads this`keys, this`items
    {
      Unique(keys) && forall k :: k in items <==> k in keys
    }

    /** Every reference the cart holds names an object. */
    ghost predicate RefsValid()
      reads this`items, this`currentItem, this`objects
    {
      && (forall k :: k in items ==> items[k] < |objects|)
      && (currentItem.Some? ==> currentItem.value < |objects|)
    }

    /** The stored objects, in iteration order. */
    ghost function Stored(): seq<ItemRef>
      requires KeysValid()
      reads this`keys, this`items
    {
      ValuesAt(keys, items)
    }

    /** The sum of the line totals of the stored objects. */
    ghost function Subtotal(): int
      requires KeysValid()
      reads this`keys, this`items, this`objects
    {
      SumBy(Stored(), TotalIn(objects))
    }

    /** The cache, when filled, holds the subtotal of the stored objects. */
    ghost predicate Valid()
      reads this`keys, this`items, this`objects, this`currentItem, this`cachedSubtotal, notifier`listeners
    {
      && KeysValid()
      && RefsValid()
      && notifier.Valid()
      && (cachedSubtotal.Some? ==> cachedSubtotal.value == Subtotal())
    }

    /** The product id of the object `r`. */
    function ItemId(r: ItemRef): string
      requires r < |objects|
      reads this`objects
    {
      objects[r].product.id
    }

    /** What `getSubtotal(withCurrentItem)` returns: the subtotal, plus the
        current item when asked for and its product is not in the cart. */
    ghost function SubtotalWith(withCurrentItem: bool): int
      requires KeysValid() && RefsValid()
      reads this`keys, this`items, this`objects, this`currentItem
    {
      Subtotal()
      + if withCurrentItem && currentItem.Some? && ItemId(currentItem.value) !in items
        then LineTotal(objects[currentItem.value]) else 0
    }

    /** No other key holds the object stored under `id`. */
    ghost predicate StoredOnce(id: string)
      reads this`items
    {
      id in items && forall k :: k in items && k != id ==> items[k] != items[id]
    }

    lemma StoredInRange()
      requires KeysValid() && RefsValid()
      ensures forall j :: 0 <= j < |Stored()| ==> Stored()[j] < |objects|
    {
      ValuesAtIndices(keys, items);
    }

    constructor ()
      ensures Valid() && fresh(notifier) && notifier.listeners == []
      ensures objects == [] && keys == [] && items == map[] && cachedSubtotal == None && currentItem == None
      ensures shippingMethod == None && shippingAddress == DefaultAddress
    {
      objects := [];
      keys := [];
      items := map[];
      shippingMethod := None;
      shippingAddress := DefaultAddress;
      cachedSubtotal := None;
      currentItem := None;
      notifier := new NotifiableService();
    }

    /** Creates an item object holding `line`, as a caller does before
        handing it to the cart; the cart's contents do not change. */
    method NewItem(line: Line) returns (r: ItemRef)
      requires Valid()
      modifies this`objects
      ensures Valid() && r == |old(objects)| && objects == old(objects) + [line]
      ensures Subtotal() == old(Subtotal())
    {
      StoredInRange();
      TotalInGrow(objects, [line], Stored());
      r := |objects|;
      objects := objects + [line];
    }

    /** Makes `item` the current item; when an item with its product id is
        in the cart, `item` replaces it there (keeping its place). */
    method SetCurrentItem(item: ItemRef)
      requires Valid() && item < |objects|
      modifies this`currentItem, this`items, this`cachedSubtotal, notifier`calls, notifier`rounds
      ensures Valid() && notifier.NotifiedOnce()
      ensures currentItem == Some(item) && keys == old(keys) && cachedSubtotal == None
      ensures ItemId(item) !in old(items) ==> items == old(items)
      ensures ItemId(item) in old(items) ==>
        && items == old(items)[ItemId(item) := item]
        && Subtotal() == old(Subtotal()) - old(LineTotal(objects[items[ItemId(item)]])) + LineTotal(objects[item])
    {
      var id := objects[item].product.id;
      if id in items {
        StoreUnder(id, item);
      }
      currentItem := Some(item);
      cachedSubtotal := None;
      notifier.Notify();
    }

    /** `items.set(id, item)` for a key already in the cart: the key keeps
        its place and `item`'s worth replaces the old object's. */
    method StoreUnder(id: string, item: ItemRef)
      requires Valid() && id in items && item < |objects|
      modifies this`items, this`cachedSubtotal
      ensures Valid() && keys == old(keys) && cachedSubtotal == None
      ensures items == old(items)[id := item]
      ensures Subtotal() == old(Subtotal()) - old(LineTotal(objects[items[id]])) + LineTotal(objects[item])
    {
      ValuesAtReplace(keys, items, IndexIn(keys, id), item, TotalIn(objects));
      items := items[id := item];
      cachedSubtotal := None;
    }

    /** Merges `patch` into the item stored under `id`, as a new object
        kept under `id` even when the patch changes the product; an unknown
        `id` changes nothing. */
    method UpdateItem(id: string, patch: ItemPatch)
      requires Valid()
      modifies this`objects, this`items, this`cachedSubtotal, notifier`calls, notifier`rounds
      ensures Valid() && keys == old(keys)
      ensures id !in old(items) ==>
        objects == old(objects) && items == old(items) && cachedSubtotal == old(cachedSubtotal) && unchanged(notifier)
      ensures id in old(items) ==>
        && objects == old(objects) + [MergeLine(old(objects[items[id]]), patch)]
        && items == old(items)[id := |old(objects)|]
        && cachedSubtotal == None && notifier.NotifiedOnce()
        && Subtotal() == old(Subtotal()) - old(LineTotal(objects[items[id]])) + LineTotal(objects[items[id]])
    {
      if id in items {
        var merged := MergeLine(objects[items[id]], patch);
        StoredInRange();
        TotalInGrow(objects, [merged], Stored());
        var replacement: ItemRef := |objects|;
        objects := objects + [merged];
        StoreUnder(id, replacement);
        notifier.Notify();
      }
    }

    /** Merges `patch` into the current item, as a new object, which then
        replaces the cart's item with its (possibly new) product id. */
    method UpdateCurrentItem(patch: ItemPatch)
      requires Valid()
      modifies this`objects, this`currentItem, this`items, this`cachedSubtotal, notifier`calls, notifier`rounds
      ensures Valid() && keys == old(keys)
      ensures old(currentItem).None? ==>
        && objects == old(objects) && currentItem == None && items == old(items)
        && cachedSubtotal == old(cachedSubtotal) && unchanged(notifier)
      ensures old(currentItem).Some? ==>
        && objects == old(objects) + [MergeLine(old(objects[currentItem.value]), patch)]
        && currentItem == Some(|old(objects)|)
        && (ItemId(currentItem.value) in old(items) ==> items == old(items)[ItemId(currentItem.value) := currentItem.value])
        && (ItemId(currentItem.value) !in old(items) ==> items == old(items))
        && cachedSubtotal == None && notifier.NotifiedOnce()
    {
      if currentItem.None? {
        return;
      }
      var merged := MergeLine(objects[currentItem.value], patch);
      var replacement: ItemRef := |objects|;
      objects := objects + [merged];
      currentItem := Some(replacement);
      if merged.product.id in items {
        items := items[merged.product.id := replacement];
      }
      cachedSubtotal := None;
      notifier.Notify();
    }

    /** Merges `patch` into the shipping address. */
    method UpdateShippingAddress(patch: AddressPatch)
      requires Valid()
      modifies this`shippingAddress, this`cachedSubtotal, notifier`calls, notifier`rounds
      ensures Valid() && notifier.NotifiedOnce() && cachedSubtotal == None
      ensures shippingAddress == MergeAddress(old(shippingAddress), patch)
    {
      shippingAddress := MergeAddress(shippingAddress, patch);
      cachedSubtotal := None;
      notifier.Notify();
    }

    /** Merges `patch` into the shipping method; without a method nothing
        happens. */
    method UpdateShippingMethod(patch: MethodPatch)
      requires Valid()
      modifies this`shippingMethod, this`cachedSubtotal, notifier`calls, notifier`rounds
      ensures Valid()
      ensures old(shippingMethod).None? ==>
        shippingMethod == None && cachedSubtotal == old(cachedSubtotal) && unchanged(notifier)
      ensures old(shippingMethod).Some? ==>
        && shippingMethod == Some(MergeMethod(old(shippingMethod).value, patch))
        && cachedSubtotal == None && notifier.NotifiedOnce()
    {
      if shippingMethod.None? {
        return;
      }
      shippingMethod := Some(MergeMethod(shippingMethod.value, patch));
      cachedSubtotal := None;
      notifier.Notify();
    }

    /** Whether the cart holds an item under the current item's product id.
        Exactly then `getSubtotal(true)` leaves the current item out, so it
        is never counted twice. */
    predicate IsCurrentItemInCart()
      requires KeysValid() && RefsValid()
      reads this`keys, this`items, this`currentItem, this`objects
      ensures IsCurrentItemInCart() <==> currentItem.Some? && ItemId(currentItem.value) in keys
      ensures IsCurrentItemInCart() || currentItem.None? ==> SubtotalWith(true) == SubtotalWith(false)
      ensures currentItem.Some? && !IsCurrentItemInCart() ==>
        SubtotalWith(true) == SubtotalWith(false) + LineTotal(objects[currentItem.value])
    {
      currentItem.Some? && ItemId(currentItem.value) in items
    }

    /** Adds the current item (the object itself) unless there is none or
        its product is already in the cart. The subtotal that counts the
        current item does not change. */
    method AddCurrentItemToCart()
      requires Valid()
      modifies this`keys, this`items, this`objects, this`cachedSubtotal, notifier`calls, notifier`rounds
      ensures Valid() && objects == old(objects) && currentItem == old(currentItem)
      ensures old(currentItem).None? || old(IsCurrentItemInCart()) ==>
        keys == old(keys) && items == old(items) && cachedSubtotal == old(cachedSubtotal) && unchanged(notifier)
      ensures old(currentItem).Some? && !old(IsCurrentItemInCart()) ==>
        && keys == old(keys) + [ItemId(currentItem.value)]
        && items == old(items)[ItemId(currentItem.value) := currentItem.value]
        && IsCurrentItemInCart()
        && cachedSubtotal == None && notifier.NotifiedOnce()
        && SubtotalWith(true) == old(SubtotalWith(true))
    {
      if currentItem.None? || IsCurrentItemInCart() {
        return;
      }
      Add(currentItem.value);
      cachedSubtotal := None;
    }

    /** Removes the cart's item under the current item's product id. When
        that item is the current item itself, the subtotal that counts the
        current item does not change. */
    method RemoveCurrentItemFromCart()
      requires Valid()
      modifies this`keys, this`items, this`cachedSubtotal, notifier`calls, notifier`rounds
      ensures Valid() && !IsCurrentItemInCart()
      ensures old(IsCurrentItemInCart()) ==>
        && keys == old(keys[..IndexIn(keys, ItemId(currentItem.value))] + keys[IndexIn(keys, ItemId(currentItem.value)) + 1..])
        && items == old(items) - {ItemId(currentItem.value)}
        && Subtotal() == old(Subtotal()) - old(LineTotal(objects[items[ItemId(currentItem.value)]]))
        && cachedSubtotal == None && notifier.NotifiedOnce()
      ensures !old(IsCurrentItemInCart()) ==>
        keys == old(keys) && items == old(items) && cachedSubtotal == old(cachedSubtotal) && unchanged(notifier)
      ensures old(IsCurrentItemInCart()) && old(items[ItemId(currentItem.value)]) == currentItem.value ==>
        SubtotalWith(true) == old(SubtotalWith(true))
    {
      if currentItem.Some? {
        Remove(objects[currentItem.value].product.id);
      }
    }

    /** Removes the current item when it is in the cart, adds it otherwise. */
    method ToggleCurrentItemInCart()
      requires Valid()
      modifies this`keys, this`items, this`objects, this`cachedSubtotal, notifier`calls, notifier`rounds
      ensures Valid() && objects == old(objects) && currentItem == old(currentItem)
      ensures currentItem.Some? ==> IsCurrentItemInCart() == !old(IsCurrentItemInCart())
      ensures currentItem.None? ==>
        keys == old(keys) && items == old(items) && cachedSubtotal == old(cachedSubtotal) && unchanged(notifier)
      ensures old(IsCurrentItemInCart()) ==>
        && keys == old(keys[..IndexIn(keys, ItemId(currentItem.value))] + keys[IndexIn(keys, ItemId(currentItem.value)) + 1..])
        && items == old(items) - {ItemId(currentItem.value)}
        && Subtotal() == old(Subtotal()) - old(LineTotal(objects[items[ItemId(currentItem.value)]]))
        && cachedSubtotal == None && notifier.NotifiedOnce()
      ensures currentItem.Some? && !old(IsCurrentItemInCart()) ==>
        && keys == old(keys) + [ItemId(currentItem.value)]
        && items == old(items)[ItemId(currentItem.value) := currentItem.value]
        && SubtotalWith(true) == old(SubtotalWith(true))
        && cachedSubtotal == None && notifier.NotifiedOnce()
    {
      if IsCurrentItemInCart() {
        RemoveCurrentItemFromCart();
      } else {
        AddCurrentItemToCart();
      }
    }

    /** Adds `item` under its product id. When an object is already stored
        there, that object's quantity grows in place by `item`'s quantity
        and `item` itself is not stored; otherwise `item` is appended. */
    method Add(item: ItemRef)
      requires Valid() && item < |objects|
      modifies this`keys, this`items, this`objects, this`cachedSubtotal, notifier`calls, notifier`rounds
      ensures Valid() && currentItem == old(currentItem) && cachedSubtotal == None && notifier.NotifiedOnce()
      ensures |objects| == |old(objects)| && ItemId(item) == old(ItemId(item))
      ensures ItemId(item) in old(items) ==>
        && keys == old(keys) && items == old(items)
        && objects == old(objects[items[ItemId(item)] := AddedTo(objects[items[ItemId(item)]], objects[item].quantity)])
      ensures ItemId(item) !in old(items) ==>
        && keys == old(keys) + [ItemId(item)] && items == old(items)[ItemId(item) := item] && objects == old(objects)
        && Subtotal() == old(Subtotal()) + LineTotal(objects[item])
      ensures old(StoredOnce(ItemId(item))) ==>
        Subtotal() == old(Subtotal()) + old(LineTotal(objects[items[ItemId(item)]].(quantity := objects[item].quantity)))
    {
      var id := objects[item].product.id;
      if id in items {
        GrowStored(id, objects[item].quantity);
      } else {
        Append(id, item);
      }
      notifier.Notify();
    }

    /** Grows the quantity of the object stored under `id` in place. */
    method GrowStored(id: string, more: int)
      requires Valid() && id in items
      modifies this`objects, this`cachedSubtotal
      ensures Valid() && cachedSubtotal == None
      ensures objects == old(objects[items[id] := AddedTo(objects[items[id]], more)])
      ensures old(StoredOnce(id)) ==>
        Subtotal() == old(Subtotal()) + old(LineTotal(objects[items[id]].(quantity := more)))
    {
      var existing := items[id];
      if StoredOnce(id) {
        GrowInPlace(keys, items, objects, id, more);
      }
      objects := objects[existing := AddedTo(objects[existing], more)];
      cachedSubtotal := None;
    }

    /** Stores `item` under the new key `id`, at the end of the order. */
    method Append(id: string, item: ItemRef)
      requires Valid() && id !in items && item < |objects|
      modifies this`keys, this`items, this`cachedSubtotal
      ensures Valid() && cachedSubtotal == None
      ensures keys == old(keys) + [id] && items == old(items)[id := item]
      ensures Subtotal() == old(Subtotal()) + LineTotal(objects[item])
    {
      ValuesAtAppend(keys, items, id, item, TotalIn(objects));
      AppendKeepsUnique(keys, id);
      keys := keys + [id];
      items := items[id := item];
      cachedSubtotal := None;
    }

    /** `items.has(id)`: exactly the listed keys. */
    predicate Has(id: string)
      requires KeysValid()
      reads this`keys, this`items
      ensures Has(id) <==> id in keys
    {
      id in items
    }

    /** Removes the item stored under `id`; an unknown `id` changes nothing. */
    method Remove(id: string)
      requires Valid()
      modifies this`keys, this`items, this`cachedSubtotal, notifier`calls, notifier`rounds
      ensures Valid() && id !in items
      ensures id !in old(items) ==>
        keys == old(keys) && items == old(items) && cachedSubtotal == old(cachedSubtotal) && unchanged(notifier)
      ensures id in old(items) ==>
        && keys == old(keys[..IndexIn(keys, id)] + keys[IndexIn(keys, id) + 1..])
        && items == old(items) - {id}
        && Subtotal() == old(Subtotal()) - old(LineTotal(objects[items[id]]))
        && cachedSubtotal == None && notifier.NotifiedOnce()
    {
      if id in items {
        var i := IndexIn(keys, id);
        RemoveAtKeepsUnique(keys, i);
        ValuesAtRemoveAt(keys, items, i, TotalIn(objects));
        keys := keys[..i] + keys[i + 1..];
        items := items - {id};
        cachedSubtotal := None;
        notifier.Notify();
      }
    }

    /** Empties the cart; an empty cart is left alone, without notifying. */
    method Clear()
      requires Valid()
      modifies this`keys, this`items, this`cachedSubtotal, notifier`calls, notifier`rounds
      ensures Valid() && keys == [] && items == map[] && Subtotal() == 0
      ensures old(keys) == [] ==> cachedSubtotal == old(cachedSubtotal) && unchanged(notifier)
      ensures old(keys) != [] ==> cachedSubtotal == None && notifier.NotifiedOnce()
    {
      EmptyCartHasNoLines(this);
      if |items| > 0 {
        keys := [];
        items := map[];
        cachedSubtotal := None;
        notifier.Notify();
      }
    }

    /** The subtotal, from the cache or by summing the stored items
        (filling the cache), plus the current item when asked for and its
        product is not in the cart. */
    method GetSubtotal(withCurrentItem: bool) returns (subtotal: int)
      requires Valid()
      modifies this`cachedSubtotal
      ensures Valid() && cachedSubtotal == Some(Subtotal())
      ensures subtotal == SubtotalWith(withCurrentItem)
    {
      if cachedSubtotal.None? {
        var sum := SumItems();
        cachedSubtotal := Some(sum);
      }
      subtotal := cachedSubtotal.value;
      if withCurrentItem && currentItem.Some? && !Has(objects[currentItem.value].product.id) {
        var extra := GetItemTotal(currentItem.value);
        subtotal := subtotal + extra;
      }
    }

    /** The loop of `getSubtotal`: the line totals of the stored items,
        summed in iteration order. */
    method SumItems() returns (sum: int)
      requires KeysValid() && RefsValid()
      ensures sum == Subtotal()
    {
      sum := 0;
      var i := 0;
      while i < |keys|
        invariant 0 <= i <= |keys|
        invariant sum == SumBy(Stored()[..i], TotalIn(objects))
      {
        var total := GetItemTotal(items[keys[i]]);
        ValuesAtIndex(keys, items, i);
        assert Stored()[..i + 1][..i] == Stored()[..i];
        sum := sum + total;
        i := i + 1;
      }
      assert Stored()[..i] == Stored();
    }

    /** The total of one item: the product's price and discount (or 0),
        overridden along the variant path, times the quantity. */
    method GetItemTotal(item: ItemRef) returns (total: int)
      requires item < |objects|
      ensures total == LineTotal(objects[item])
    {
      var product, variant, quantity := objects[item].product, objects[item].variant, objects[item].quantity;
      var price := product.price;
      var discount := product.discount.GetOr(0);
      if variant.Some? && variant.value != "" {
        var parts := Split(variant.value, '/');
        var currentVariant := product.variant;
        var i := 0;
        while i < |parts|
          invariant 0 <= i <= |parts|
          invariant Walk(currentVariant, parts[i..], Pricing(price, discount))
                 == Walk(product.variant, parts, BasePricing(product))
        {
          if currentVariant.None? {
            break;
          }
          var option := FindOption(currentVariant.value.options, parts[i]);
          if option.None? {
            break;
          }
          assert parts[i..][1..] == parts[i + 1..];
          price := option.value.price.GetOr(price);
          discount := option.value.discount.GetOr(discount);
          currentVariant := option.value.child;
          i := i + 1;
        }
      }
      total := (price - discount) * quantity;
      TimesIsProduct(price - discount, quantity);
    }

    /** Chooses the shipping method: a store with default rates becomes a
        published, public method of price 0 named after the store; a method
        with rates is taken as is; anything else is an error and changes
        nothing. */
    method SetShippingMethod(source: ShippingSource) returns (outcome: Outcome<string>)
      requires Valid()
      modifies this`shippingMethod, notifier`calls, notifier`rounds
      ensures Valid()
      ensures source.FromStore? && source.store.defaultShippingRates.Some? ==>
        && outcome == Pass && notifier.NotifiedOnce()
        && shippingMethod == Some(MethodFromStore(source.store, source.store.defaultShippingRates.value))
      ensures source.FromMethod? && source.shippingMethod.rates.Some? ==>
        outcome == Pass && shippingMethod == Some(source.shippingMethod) && notifier.NotifiedOnce()
      ensures outcome.Fail? <==>
        (source.FromStore? && source.store.defaultShippingRates.None?)
        || (source.FromMethod? && source.shippingMethod.rates.None?)
      ensures outcome.Fail? ==>
        outcome.error == "Invalid shipping method" && shippingMethod == old(shippingMethod) && unchanged(notifier)
    {
      match source
      case FromStore(store) =>
        if store.defaultShippingRates.Some? {
          shippingMethod := Some(MethodFromStore(store, store.defaultShippingRates.value));
          notifier.Notify();
          outcome := Pass;
        } else {
          outcome := Fail("Invalid shipping method");
        }
      case FromMethod(m) =>
        if m.rates.Some? {
          shippingMethod := Some(m);
          notifier.Notify();
          outcome := Pass;
        } else {
          outcome := Fail("Invalid shipping method");
        }
    }

    /** The shipping types the method's row for the address's state offers,
        in the order pickup, home, store. */
    method GetAvailableShippingTypes() returns (types: seq<CartShippingType>)
      ensures forall t :: t in types <==> shippingMethod.Some? && Offers(shippingMethod.value, shippingAddress.state, t)
      ensures forall i, j :: 0 <= i < j < |types| ==> Column(types[i]) < Column(types[j])
    {
      if shippingMethod.None? {
        return [];
      }
      if shippingMethod.value.rates.None? {
        NoRowNoOffers(shippingMethod.value, shippingAddress.state);
        return [];
      }
      var state := StateNumber(shippingAddress.state, DefaultRadix);
      var stateRates := StateRow(shippingMethod.value.rates.value, state);
      if stateRates.None? {
        NoRowNoOffers(shippingMethod.value, shippingAddress.state);
        return [];
      }
      types := [];
      if Entry(stateRates.value, 0).Some? {
        types := types + [Pickup];
      }
      if Entry(stateRates.value, 1).Some? {
        types := types + [Home];
      }
      if Entry(stateRates.value, 2).Some? {
        types := types + [Store];
      }
      OffersOfStateRow(shippingMethod.value, shippingAddress.state, stateRates.value, types);
    }

    /** Replaces the address and notifies only when its city, state or
        shipping type differs; otherwise the new address is dropped, even
        if its name, phone or street differ. */
    method SetShippingAddress(address: ShippingAddress)
      requires Valid()
      modifies this`shippingAddress, notifier`calls, notifier`rounds
      ensures Valid()
      ensures old(shippingAddress).city != address.city || old(shippingAddress).state != address.state
              || old(shippingAddress).kind != address.kind ==>
        shippingAddress == address && notifier.NotifiedOnce()
      ensures old(shippingAddress).city == address.city && old(shippingAddress).state == address.state
              && old(shippingAddress).kind == address.kind ==>
        shippingAddress == old(shippingAddress) && unchanged(notifier)
    {
      if shippingAddress.city != address.city || shippingAddress.state != address.state
         || shippingAddress.kind != address.kind {
        shippingAddress := address;
        notifier.Notify();
      }
    }

    /** The shipping price for the current method and address. */
    function GetShippingPrice(): (price: int)
      reads this`shippingMethod, this`shippingAddress
      ensures shippingMethod.None? ==> price == 0
      ensures shippingAddress.kind == Store ==>
        price == ShippingPriceOf(shippingMethod, shippingAddress.(kind := Home))
    {
      ShippingPriceOf(shippingMethod, shippingAddress)
    }

    /** The subtotal plus the shipping price. */
    method GetTotal(withCurrentItem: bool) returns (total: int)
      requires Valid()
      modifies this`cachedSubtotal
      ensures Valid() && cachedSubtotal == Some(Subtotal())
      ensures total == SubtotalWith(withCurrentItem) + ShippingPriceOf(shippingMethod, shippingAddress)
    {
      var subtotal := GetSubtotal(withCurrentItem);
      total := subtotal + GetShippingPrice();
    }

    /** The stored item objects themselves (not copies), in iteration order. */
    function GetAll(): (all: seq<ItemRef>)
      requires KeysValid()
      reads this`keys, this`items
      ensures |all| == |keys|
      ensures forall j :: 0 <= j < |keys| ==> all[j] == items[keys[j]]
    {
      ValuesAtIndices(keys, items);
      ValuesAt(keys, items)
    }

    predicate IsEmpty()
      reads this`items
    {
      |items| == 0
    }
  }

  /** A cart is empty exactly when it has no keys, and then its subtotal
      is 0. */
  lemma EmptyCartHasNoLines(cart: CartService)
    requires cart.KeysValid()
    ensures cart.IsEmpty() <==> cart.keys == []
    ensures cart.IsEmpty() ==> cart.Stored() == [] && cart.Subtotal() == 0
  {
    if cart.keys != [] {
      assert cart.keys[0] in cart.items;
    } else {
      assert cart.items.Keys == {};
    }
  }

  /** The draft committed to the cart is the stored object itself, so a
      later `add` of the same product grows the draft's quantity too. */
  method DraftAliasingExample(product: Product) returns (cart: CartService, draft: ItemRef)
    ensures cart.Valid() && cart.currentItem == Some(draft) && cart.items == map[product.id := draft]
    ensures cart.objects[draft] == Line(product, 3, None)
    ensures cart.Subtotal() == LineTotal(Line(product, 3, None))
  {
    cart := new CartService();
    draft := cart.NewItem(Line(product, 1, None));
    cart.SetCurrentItem(draft);
    assert cart.keys == [] && cart.Subtotal() == 0;
    cart.AddCurrentItemToCart();
    assert cart.Subtotal() == LineTotal(Line(product, 1, None));
    var again := cart.NewItem(Line(product, 2, None));
    assert cart.StoredOnce(product.id);
    cart.Add(again);
    LineTotalAddsQuantities(Line(product, 1, None), 2);
  }
}
