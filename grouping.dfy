/**
 * Grouping of the cart for display: the `reduce` that folds the entries into one
 * group per distinct product name (first-seen order), the per-group subtotal,
 * the grand total, and the item-count badge. The cart view and the order
 * confirmation both use this one grouping.
 */
module Grouping {
  import opened Catalog
  import opened CartStore

  /** A displayed cart line: the first entry seen with this name, and how many entries share the name. */
  datatype Group = Group(item: Product, quantity: nat)

  /** The `acc[item.name]` lookup: index of the group named `name`, or -1 when the accumulator has none. */
  function GroupIndex(groups: seq<Group>, name: string): (k: int)
    ensures -1 <= k < |groups|
    ensures k == -1 ==> forall i :: 0 <= i < |groups| ==> groups[i].item.name != name
    ensures 0 <= k ==> groups[k].item.name == name
  {
    if groups == [] then -1
    else if groups[0].item.name == name then 0
    else
      var k := GroupIndex(groups[1..], name);
      if k == -1 then -1 else k + 1
  }

  /** The reducer: create the group with quantity 0 when the name is new, then increment it. */
  function Step(acc: seq<Group>, item: Product): (r: seq<Group>)
    ensures |r| == (if GroupIndex(acc, item.name) == -1 then |acc| + 1 else |acc|)
  {
    var k := GroupIndex(acc, item.name);
    var created := if k == -1 then acc + [Group(item, 0)] else acc;
    var j := if k == -1 then |acc| else k;
    created[j := created[j].(quantity := created[j].quantity + 1)]
  }

  /** `cart.reduce(Step, {})`, a left fold: the groups of a cart are those of its prefix, stepped by the last entry. */
  function GroupBy(cart: seq<Product>): (r: seq<Group>)
    ensures |r| <= |cart|
    ensures cart != [] ==> r != []
  {
    if cart == [] then [] else Step(GroupBy(cart[..|cart| - 1]), cart[|cart| - 1])
  }

  /** `item.price * item.quantity` */
  function Subtotal(g: Group): (s: nat)
    ensures g.quantity > 0 ==> s >= g.item.price
    ensures s == 0 <==> g.item.price == 0 || g.quantity == 0
  {
    g.item.price * g.quantity
  }

  /** The grand total: the sum of the groups' subtotals. */
  function GrandTotal(groups: seq<Group>): nat
  {
    if groups == [] then 0 else Subtotal(groups[0]) + GrandTotal(groups[1..])
  }

  /** The sum of the groups' quantities. */
  function TotalQuantity(groups: seq<Group>): nat
  {
    if groups == [] then 0 else groups[0].quantity + TotalQuantity(groups[1..])
  }

  /** The sum of the prices of all cart entries, one per unit. */
  function SumPrices(cart: seq<Product>): nat
  {
    if cart == [] then 0 else SumPrices(cart[..|cart| - 1]) + cart[|cart| - 1].price
  }

  /** Entries that share a name share a price (names are the catalog's key). */
  predicate PricesConsistent(cart: seq<Product>)
  {
    forall i, j :: 0 <= i < |cart| && 0 <= j < |cart| && cart[i].name == cart[j].name ==> cart[i].price == cart[j].price
  }

  /** Every group is the first entry seen with its name and counts the entries with that name. */
  ghost predicate FirstSeenCounts(groups: seq<Group>, cart: seq<Product>)
  {
    forall i :: 0 <= i < |groups| ==> FirstSeenGroup(groups[i], cart)
  }

  /** `g` is the first entry of `cart` with its name and counts the entries with that name. */
  ghost predicate FirstSeenGroup(g: Group, cart: seq<Product>)
  {
    var k := FirstIndex(cart, g.item.name);
    0 <= k && g.item == cart[k] && g.quantity == Count(cart, g.item.name)
  }

  /** The groups are in first-seen order (so no two share a name). */
  ghost predicate FirstSeenOrder(groups: seq<Group>, cart: seq<Product>)
  {
    forall i, j :: 0 <= i < j < |groups| ==>
      FirstIndex(cart, groups[i].item.name) < FirstIndex(cart, groups[j].item.name)
  }

  /** Every entry of the cart belongs to some group. */
  ghost predicate Covers(groups: seq<Group>, cart: seq<Product>)
  {
    forall k :: 0 <= k < |cart| ==> GroupIndex(groups, cart[k].name) != -1
  }

  /** `groups` is the grouping of `cart`. */
  ghost predicate GroupsOf(groups: seq<Group>, cart: seq<Product>)
  {
    FirstSeenCounts(groups, cart) && FirstSeenOrder(groups, cart) && Covers(groups, cart)
  }

  /** A name without a group does not occur in the cart. */
  lemma AbsentName(groups: seq<Group>, cart: seq<Product>, name: string)
    requires Covers(groups, cart)
    requires GroupIndex(groups, name) == -1
    ensures FirstIndex(cart, name) == -1 && Count(cart, name) == 0
  {
    forall m | 0 <= m < |cart| ensures cart[m].name != name {
      assert GroupIndex(groups, cart[m].name) != -1;
    }
  }

  /** Names of distinct groups differ. */
  lemma DistinctNames(groups: seq<Group>, cart: seq<Product>, i: nat, k: nat)
    requires FirstSeenOrder(groups, cart)
    requires i < |groups| && k < |groups| && i != k
    ensures groups[i].item.name != groups[k].item.name
  {
    if i < k {
      assert FirstIndex(cart, groups[i].item.name) < FirstIndex(cart, groups[k].item.name);
    } else {
      assert FirstIndex(cart, groups[k].item.name) < FirstIndex(cart, groups[i].item.name);
    }
  }

  /** After a step every entry, old or new, still belongs to a group. */
  lemma StepCovers(groups: seq<Group>, cart: seq<Product>, p: Product)
    requires Covers(groups, cart)
    ensures Covers(Step(groups, p), cart + [p])
  {
    var cart' := cart + [p];
    var groups' := Step(groups, p);
    var k := GroupIndex(groups, p.name);
    assert |groups'| == if k == -1 then |groups| + 1 else |groups|;
    assert forall i :: 0 <= i < |groups'| ==> groups'[i].item.name == (if i < |groups| then groups[i].item.name else p.name);
    forall m | 0 <= m < |cart'| ensures GroupIndex(groups', cart'[m].name) != -1 {
      var g := if m < |cart| then GroupIndex(groups, cart[m].name) else if k == -1 then |groups| else k;
      assert groups'[g].item.name == cart'[m].name;
    }
  }

  /** A step keeps the items of the existing groups and adds a group for `p` exactly when its name is new. */
  lemma StepItems(groups: seq<Group>, p: Product)
    ensures var k := GroupIndex(groups, p.name);
            && |Step(groups, p)| == (if k == -1 then |groups| + 1 else |groups|)
            && (forall i :: 0 <= i < |groups| ==> Step(groups, p)[i].item == groups[i].item)
            && (k == -1 ==> Step(groups, p)[|groups|] == Group(p, 1))
  {
  }

  /** A step keeps the groups in first-seen order. */
  lemma StepOrder(groups: seq<Group>, cart: seq<Product>, p: Product)
    requires FirstSeenCounts(groups, cart) && FirstSeenOrder(groups, cart) && Covers(groups, cart)
    ensures FirstSeenOrder(Step(groups, p), cart + [p])
  {
    var cart' := cart + [p];
    var groups' := Step(groups, p);
    StepItems(groups, p);
    if GroupIndex(groups, p.name) == -1 {
      AbsentName(groups, cart, p.name);
      FirstIndexAppend(cart, p, p.name);
    }
    forall i, j | 0 <= i < j < |groups'|
      ensures FirstIndex(cart', groups'[i].item.name) < FirstIndex(cart', groups'[j].item.name)
    {
      assert FirstSeenGroup(groups[i], cart);
      FirstIndexAppend(cart, p, groups[i].item.name);
      if j < |groups| {
        FirstIndexAppend(cart, p, groups[j].item.name);
        assert FirstIndex(cart, groups[i].item.name) < FirstIndex(cart, groups[j].item.name);
      }
    }
  }

  /** After a step, group `i` is still the first-seen entry of its name, with the right count. */
  lemma StepCountsAt(groups: seq<Group>, cart: seq<Product>, p: Product, i: nat)
    requires i < |Step(groups, p)|
    requires i < |groups| ==> FirstSeenGroup(groups[i], cart)
    requires i < |groups| && i != GroupIndex(groups, p.name) ==> groups[i].item.name != p.name
    requires GroupIndex(groups, p.name) == -1 ==> FirstIndex(cart, p.name) == -1
    ensures FirstSeenGroup(Step(groups, p)[i], cart + [p])
  {
    var k := GroupIndex(groups, p.name);
    var g := Step(groups, p)[i];
    FirstIndexAppend(cart, p, g.item.name);
    AddCounts(cart, p, g.item.name);
    if i == |groups| {
      assert k == -1 && g == Group(p, 1);
    } else if i != k {
      assert g == groups[i];
    }
  }

  /** A step keeps every group the first-seen entry of its name, with the right count. */
  lemma StepCounts(groups: seq<Group>, cart: seq<Product>, p: Product)
    requires FirstSeenCounts(groups, cart) && FirstSeenOrder(groups, cart) && Covers(groups, cart)
    ensures FirstSeenCounts(Step(groups, p), cart + [p])
  {
    var k := GroupIndex(groups, p.name);
    if k == -1 {
      AbsentName(groups, cart, p.name);
    }
    forall i | 0 <= i < |Step(groups, p)|
      ensures FirstSeenGroup(Step(groups, p)[i], cart + [p])
    {
      if i < |groups| && i != k && k != -1 {
        DistinctNames(groups, cart, i, k);
      }
      StepCountsAt(groups, cart, p, i);
    }
  }

  /** One reducer step keeps the accumulator the grouping of the entries folded so far. */
  lemma StepPreserves(groups: seq<Group>, cart: seq<Product>, p: Product)
    requires GroupsOf(groups, cart)
    ensures GroupsOf(Step(groups, p), cart + [p])
  {
    StepCovers(groups, cart, p);
    StepOrder(groups, cart, p);
    StepCounts(groups, cart, p);
  }

  /** The fold yields the grouping of the whole cart. */
  lemma {:induction false} GroupByCorrect(cart: seq<Product>)
    ensures GroupsOf(GroupBy(cart), cart)
  {
    if cart != [] {
      var prefix, p := cart[..|cart| - 1], cart[|cart| - 1];
      GroupByCorrect(prefix);
      assert prefix + [p] == cart;
      assert GroupBy(cart) == Step(GroupBy(prefix), p);
      StepPreserves(GroupBy(prefix), prefix, p);
    }
  }

  /** Each displayed group counts exactly the cart entries with its name, so it is at least 1. */
  lemma GroupQuantity(cart: seq<Product>, i: nat)
    requires i < |GroupBy(cart)|
    ensures GroupBy(cart)[i].quantity == Count(cart, GroupBy(cart)[i].item.name) >= 1
  {
    GroupByCorrect(cart);
  }

  /** Each group carries the first cart entry with its name (the spread of the first item seen). */
  lemma GroupFirstSeen(cart: seq<Product>, i: nat)
    requires i < |GroupBy(cart)|
    ensures 0 <= FirstIndex(cart, GroupBy(cart)[i].item.name)
    ensures GroupBy(cart)[i].item == cart[FirstIndex(cart, GroupBy(cart)[i].item.name)]
  {
    GroupByCorrect(cart);
  }

  /** Groups appear in the order their names first occur in the cart; hence their names are distinct. */
  lemma GroupOrder(cart: seq<Product>, i: nat, j: nat)
    requires i < j < |GroupBy(cart)|
    ensures FirstIndex(cart, GroupBy(cart)[i].item.name) < FirstIndex(cart, GroupBy(cart)[j].item.name)
    ensures GroupBy(cart)[i].item.name != GroupBy(cart)[j].item.name
  {
    GroupByCorrect(cart);
  }

  /** A name has a group exactly when the cart holds at least one entry with that name. */
  lemma GroupMembership(cart: seq<Product>, name: string)
    ensures GroupIndex(GroupBy(cart), name) != -1 <==> Count(cart, name) > 0
  {
    var groups := GroupBy(cart);
    GroupByCorrect(cart);
    var g := GroupIndex(groups, name);
    if g != -1 {
      assert FirstIndex(cart, groups[g].item.name) >= 0;
    } else {
      AbsentName(groups, cart, name);
    }
  }

  /** Appending a group adds its quantity and its subtotal. */
  lemma {:induction false} SumsAppend(groups: seq<Group>, g: Group)
    ensures TotalQuantity(groups + [g]) == TotalQuantity(groups) + g.quantity
    ensures GrandTotal(groups + [g]) == GrandTotal(groups) + Subtotal(g)
  {
    if groups == [] {
      assert [g][1..] == [];
    } else {
      assert (groups + [g])[1..] == groups[1..] + [g];
      SumsAppend(groups[1..], g);
    }
  }

  /** Replacing one group changes the sums by the difference of its quantity and subtotal. */
  lemma {:induction false} SumsUpdate(groups: seq<Group>, j: nat, g: Group)
    requires j < |groups|
    ensures TotalQuantity(groups[j := g]) == TotalQuantity(groups) - groups[j].quantity + g.quantity
    ensures GrandTotal(groups[j := g]) == GrandTotal(groups) - Subtotal(groups[j]) + Subtotal(g)
  {
    if j > 0 {
      assert groups[j := g][1..] == groups[1..][j - 1 := g];
      SumsUpdate(groups[1..], j - 1, g);
    } else {
      assert groups[j := g][1..] == groups[1..];
    }
  }

  /** One reducer step adds one unit, and the price of the group it lands in. */
  lemma StepSums(groups: seq<Group>, p: Product)
    ensures TotalQuantity(Step(groups, p)) == TotalQuantity(groups) + 1
    ensures GrandTotal(Step(groups, p))
            == GrandTotal(groups) + (var k := GroupIndex(groups, p.name); if k == -1 then p.price else groups[k].item.price)
  {
    var k := GroupIndex(groups, p.name);
    var created := if k == -1 then groups + [Group(p, 0)] else groups;
    var j := if k == -1 then |groups| else k;
    var g := created[j];
    if k == -1 {
      SumsAppend(groups, Group(p, 0));
    }
    assert Step(groups, p) == created[j := g.(quantity := g.quantity + 1)];
    SumsUpdate(created, j, g.(quantity := g.quantity + 1));
    SubtotalOneMore(g);
  }

  /** One more unit in a group adds one unit price to its subtotal. */
  lemma SubtotalOneMore(g: Group)
    ensures Subtotal(g.(quantity := g.quantity + 1)) == Subtotal(g) + g.item.price
  {
    assert g.item.price * (g.quantity + 1) == g.item.price * g.quantity + g.item.price;
  }

  /** The badge (the cart length) equals the sum of the displayed quantities. */
  lemma {:induction false} TotalQuantityIsLength(cart: seq<Product>)
    ensures TotalQuantity(GroupBy(cart)) == |cart|
  {
    if cart != [] {
      TotalQuantityIsLength(cart[..|cart| - 1]);
      StepSums(GroupBy(cart[..|cart| - 1]), cart[|cart| - 1]);
    }
  }

  /** With one price per name, the grand total of the groups is the sum of the entries' prices. */
  lemma {:induction false} GrandTotalIsSumOfPrices(cart: seq<Product>)
    requires PricesConsistent(cart)
    ensures GrandTotal(GroupBy(cart)) == SumPrices(cart)
  {
    if cart != [] {
      var prefix, p := cart[..|cart| - 1], cart[|cart| - 1];
      var groups := GroupBy(prefix);
      assert PricesConsistent(prefix) by {
        forall i, j | 0 <= i < |prefix| && 0 <= j < |prefix| && prefix[i].name == prefix[j].name
          ensures prefix[i].price == prefix[j].price
        {
          assert prefix[i] == cart[i] && prefix[j] == cart[j];
        }
      }
      GrandTotalIsSumOfPrices(prefix);
      StepSums(groups, p);
      var k := GroupIndex(groups, p.name);
      if k != -1 {
        GroupByCorrect(prefix);
        var f := FirstIndex(prefix, groups[k].item.name);
        assert groups[k].item == prefix[f] == cart[f];
        assert cart[f].name == cart[|cart| - 1].name;
      }
    }
  }

  /** The `forEach` that accumulates `total += item.price * item.quantity` over the groups. */
  method SumSubtotals(groups: seq<Group>) returns (total: nat)
    ensures total == GrandTotal(groups)
  {
    total := 0;
    for i := 0 to |groups|
      invariant total == GrandTotal(groups[..i])
    {
      SumsAppend(groups[..i], groups[i]);
      assert groups[..i + 1] == groups[..i] + [groups[i]];
      var itemTotal := groups[i].item.price * groups[i].quantity;
      total := total + itemTotal;
    }
    assert groups[..|groups|] == groups;
  }
}
