/**
 * The cart store: an ordered list holding one entry per unit added, so a product
 * appears once for every time it was added. This module gives the pure meaning of
 * the store's queries and of its two removals; the mutating operations live on
 * `ShopPage.Shop` and are proved against these functions.
 */
module CartStore {
  import opened Catalog

  /** How many entries of `cart` are named `name` (the `filter(...).length` quantity). */
  function Count(cart: seq<Product>, name: string): (n: nat)
    ensures n <= |cart|
    ensures n == 0 <==> FirstIndex(cart, name) == -1
  {
    if cart == [] then 0
    else (if cart[0].name == name then 1 else 0) + Count(cart[1..], name)
  }

  /** `findIndex` by name: the index of the first entry named `name`, or -1 when there is none. */
  function FirstIndex(cart: seq<Product>, name: string): (k: int)
    ensures -1 <= k < |cart|
    ensures k == -1 ==> forall i :: 0 <= i < |cart| ==> cart[i].name != name
    ensures 0 <= k ==> cart[k].name == name && forall i :: 0 <= i < k ==> cart[i].name != name
  {
    if cart == [] then -1
    else if cart[0].name == name then 0
    else
      var k := FirstIndex(cart[1..], name);
      if k == -1 then -1 else k + 1
  }

  /** Reference meaning of "remove one unit": drop the first entry named `name`, if any. */
  function RemoveFirst(cart: seq<Product>, name: string): (r: seq<Product>)
    ensures |r| <= |cart|
  {
    if cart == [] then []
    else if cart[0].name == name then cart[1..]
    else [cart[0]] + RemoveFirst(cart[1..], name)
  }

  /** Reference meaning of "remove every unit": keep the entries not named `name`, in order. */
  function WithoutName(cart: seq<Product>, name: string): (r: seq<Product>)
    ensures |r| <= |cart|
    ensures forall i :: 0 <= i < |r| ==> r[i].name != name
  {
    if cart == [] then []
    else if cart[0].name == name then WithoutName(cart[1..], name)
    else [cart[0]] + WithoutName(cart[1..], name)
  }

  /** Counting distributes over concatenation; with `b == [p]` this is what one add does to every count. */
  lemma {:induction false} CountAppend(a: seq<Product>, b: seq<Product>, name: string)
    ensures Count(a + b, name) == Count(a, name) + Count(b, name)
  {
    if a == [] {
      assert a + b == b;
    } else {
      assert (a + b)[1..] == a[1..] + b;
      CountAppend(a[1..], b, name);
    }
  }

  /** Adding one unit of `p` raises the count of `p.name` by one and leaves every other count alone. */
  lemma AddCounts(cart: seq<Product>, p: Product, name: string)
    ensures Count(cart + [p], name) == Count(cart, name) + (if p.name == name then 1 else 0)
  {
    CountAppend(cart, [p], name);
    assert [p][1..] == [];
  }

  /** After one add, `findIndex` still finds an earlier entry first; only a previously absent name can land on the new one. */
  lemma FirstIndexAppend(cart: seq<Product>, p: Product, name: string)
    ensures FirstIndex(cart + [p], name)
            == if FirstIndex(cart, name) != -1 then FirstIndex(cart, name) else if p.name == name then |cart| else -1
  {
    var k := FirstIndex(cart, name);
    if k != -1 {
      assert (cart + [p])[k] == cart[k];
    } else {
      assert (cart + [p])[|cart|] == p;
    }
  }

  /** The splice at `findIndex` performs exactly RemoveFirst; so the remaining entries keep their order. */
  lemma {:induction false} RemoveFirstIsSplice(cart: seq<Product>, name: string)
    ensures var k := FirstIndex(cart, name);
            RemoveFirst(cart, name) == if k == -1 then cart else cart[..k] + cart[k + 1..]
  {
    if cart != [] && cart[0].name != name {
      RemoveFirstIsSplice(cart[1..], name);
      var k := FirstIndex(cart[1..], name);
      if k != -1 {
        SpliceAfterHead(cart, k);
      }
    }
  }

  /** Splicing index `k` out of the tail, then putting the head back, splices index `k + 1` out of the whole. */
  lemma SpliceAfterHead(cart: seq<Product>, k: nat)
    requires k + 1 < |cart|
    ensures [cart[0]] + (cart[1..][..k] + cart[1..][k + 1..]) == cart[..k + 1] + cart[k + 2..]
  {
    assert cart[1..][..k] + cart[1..][k + 1..] == cart[1..k + 1] + cart[k + 2..];
    assert [cart[0]] + cart[1..k + 1] == cart[..k + 1];
  }

  /** Removing one unit: a no-op when nothing matches, otherwise the length drops by exactly one. */
  lemma {:induction false} RemoveFirstLength(cart: seq<Product>, name: string)
    ensures Count(cart, name) == 0 ==> RemoveFirst(cart, name) == cart
    ensures |RemoveFirst(cart, name)| == if Count(cart, name) == 0 then |cart| else |cart| - 1
  {
    if cart != [] && cart[0].name != name {
      RemoveFirstLength(cart[1..], name);
      assert [cart[0]] + cart[1..] == cart;
    }
  }

  /** Removing one unit of `name` lowers its count by one (if it was present) and no other count changes. */
  lemma {:induction false} RemoveFirstCounts(cart: seq<Product>, name: string, other: string)
    ensures Count(RemoveFirst(cart, name), other)
            == if other == name && Count(cart, name) > 0 then Count(cart, other) - 1 else Count(cart, other)
  {
    if cart != [] && cart[0].name != name {
      RemoveFirstCounts(cart[1..], name, other);
      CountAppend([cart[0]], RemoveFirst(cart[1..], name), other);
      assert [cart[0]][1..] == [];
    }
  }

  /** Removing every unit of `name` leaves none of it and leaves every other count alone. */
  lemma {:induction false} WithoutNameCounts(cart: seq<Product>, name: string, other: string)
    ensures Count(WithoutName(cart, name), other) == if other == name then 0 else Count(cart, other)
  {
    if cart != [] {
      WithoutNameCounts(cart[1..], name, other);
      if cart[0].name != name {
        CountAppend([cart[0]], WithoutName(cart[1..], name), other);
        assert [cart[0]][1..] == [];
      }
    }
  }

  /** The filter keeps exactly the entries with another name, each as often as before. */
  lemma {:induction false} WithoutNameKeepsOthers(cart: seq<Product>, name: string, x: Product)
    ensures multiset(WithoutName(cart, name))[x] == if x.name == name then 0 else multiset(cart)[x]
  {
    if cart != [] {
      WithoutNameKeepsOthers(cart[1..], name, x);
      assert cart == [cart[0]] + cart[1..];
    }
  }

  /** The filter preserves relative order: it distributes over concatenation. */
  lemma {:induction false} WithoutNameConcat(a: seq<Product>, b: seq<Product>, name: string)
    ensures WithoutName(a + b, name) == WithoutName(a, name) + WithoutName(b, name)
  {
    if a == [] {
      assert a + b == b;
    } else {
      assert (a + b)[1..] == a[1..] + b;
      WithoutNameConcat(a[1..], b, name);
    }
  }

  /** Removing every unit twice is the same as removing it once. */
  lemma {:induction false} WithoutNameIdempotent(cart: seq<Product>, name: string)
    ensures WithoutName(WithoutName(cart, name), name) == WithoutName(cart, name)
  {
    if cart != [] {
      WithoutNameIdempotent(cart[1..], name);
      if cart[0].name != name {
        var rest := WithoutName(cart[1..], name);
        assert ([cart[0]] + rest)[0] == cart[0];
        assert ([cart[0]] + rest)[1..] == rest;
      }
    }
  }
}
