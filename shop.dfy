/**
 * The page's state and its cart operations: the cart store, the loaded catalog,
 * one card per product, the cart panel (badge, empty/content views, lines, total)
 * and the order-confirmation modal. Every cart mutation is followed by a refresh
 * of the cart panel and of the affected product cards, and `Valid()` states that
 * all of these views agree with the cart.
 */
module ShopPage {
  import opened Catalog
  import opened CartStore
  import opened Grouping
  import opened ProductButton

  /** The cart panel: item-count badge, which view is shown, the displayed lines and the displayed total. */
  datatype CartPanel = CartPanel(badge: nat, emptyShown: bool, contentShown: bool, lines: seq<Group>, total: nat)

  /** The confirmation summary: the grouped lines and the order total at the time it was built. */
  datatype Receipt = Receipt(lines: seq<Group>, total: nat)

  /** The panel reflects `cart`. An empty cart leaves the total text as it was, since that view hides it. */
  ghost predicate PanelShows(panel: CartPanel, cart: seq<Product>)
  {
    && panel.badge == |cart|
    && panel.emptyShown == (cart == [])
    && panel.contentShown == (cart != [])
    && panel.lines == GroupBy(cart)
    && (cart != [] ==> panel.total == GrandTotal(GroupBy(cart)))
  }

  /** Every rendered card shows its product's count in `cart`. */
  ghost predicate CardsInStep(cards: map<string, Card>, cart: seq<Product>)
  {
    forall n :: n in cards ==> ShowsQuantity(cards[n], Count(cart, n))
  }

  /** When only the count of `name` may have changed, re-syncing that one card brings all cards in step. */
  lemma SyncOneCard(cards: map<string, Card>, before: seq<Product>, after: seq<Product>, name: string)
    requires CardsInStep(cards, before)
    requires forall n :: n != name ==> Count(after, n) == Count(before, n)
    ensures CardsInStep(if name in cards then cards[name := UpdatedCard(cards[name], after, name)] else cards, after)
  {
  }

  /** The names the rendered cards are found by. */
  ghost function CardNames(products: seq<Product>): set<string>
  {
    set p | p in products :: p.name
  }

  class Shop {
    var cart: seq<Product>
    var products: seq<Product>
    var cards: map<string, Card>
    var panel: CartPanel
    var modalActive: bool
    var receipt: Receipt

    /** Every rendered card and the cart panel are in step with the cart. */
    ghost predicate Valid()
      reads this
    {
      && cards.Keys == CardNames(products)
      && CardsInStep(cards, cart)
      && PanelShows(panel, cart)
    }

    /** The page before the catalog arrives: nothing rendered, an empty cart, the modal hidden. */
    constructor ()
      ensures Valid()
      ensures cart == [] && products == [] && cards == map[] && !modalActive
    {
      cart := [];
      products := [];
      cards := map[];
      panel := CartPanel(0, true, false, [], 0);
      modalActive := false;
      receipt := Receipt([], 0);
    }

    /** Renders one card per product, each in add mode. Called once, at load, before any cart operation. */
    method Render(data: seq<Product>)
      requires Valid() && products == [] && cart == []
      modifies this`products, this`cards
      ensures Valid()
      ensures products == data
      ensures forall n :: n in cards ==> cards[n] == NewCard
    {
      products := data;
      for i := 0 to |data|
        invariant products == data
        invariant cards.Keys == CardNames(data[..i])
        invariant forall n :: n in cards ==> cards[n] == NewCard
      {
        assert data[..i + 1] == data[..i] + [data[i]];
        cards := cards[data[i].name := NewCard];
      }
      assert data[..|data|] == data;
    }

    /** Refreshes the badge, the empty or content view, the lines and the total from the cart. */
    method UpdateCartUI()
      modifies this`panel
      ensures PanelShows(panel, cart)
      ensures cart == [] ==> panel.total == old(panel.total)
    {
      var totalItems := |cart|;
      if |cart| == 0 {
        panel := panel.(badge := totalItems, emptyShown := true, contentShown := false, lines := []);
        return;
      }
      var groupedItems := GroupBy(cart);
      var total := SumSubtotals(groupedItems);
      panel := CartPanel(totalItems, false, true, groupedItems, total);
    }

    /** Applies the button rule to the card of `name`; does nothing when no card has that name. */
    method UpdateProductButton(name: string)
      modifies this`cards
      ensures cards.Keys == old(cards).Keys
      ensures cards == if name in old(cards) then old(cards)[name := UpdatedCard(old(cards)[name], cart, name)] else old(cards)
    {
      if name !in cards {
        return;
      }
      cards := cards[name := UpdatedCard(cards[name], cart, name)];
    }

    /** Adds one unit of `product` at the end of the cart. */
    method AddToCart(product: Product)
      requires Valid()
      modifies this`cart, this`panel, this`cards
      ensures Valid()
      ensures cart == old(cart) + [product]
      ensures cards == if product.name in old(cards)
                       then old(cards)[product.name := UpdatedCard(old(cards)[product.name], cart, product.name)]
                       else old(cards)
    {
      ghost var before := cart;
      cart := cart + [product];
      UpdateCartUI();
      UpdateProductButton(product.name);
      forall n | n != product.name ensures Count(cart, n) == Count(before, n) {
        AddCounts(before, product, n);
      }
      SyncOneCard(old(cards), before, cart, product.name);
    }

    /** Removes one unit of `name` (its first entry); with no entry of that name nothing at all happens. */
    method RemoveFromCart(name: string)
      requires Valid()
      modifies this`cart, this`panel, this`cards
      ensures Valid()
      ensures cart == RemoveFirst(old(cart), name)
      ensures cards == if name in old(cards) && Count(old(cart), name) > 0
                       then old(cards)[name := UpdatedCard(old(cards)[name], cart, name)]
                       else old(cards)
      ensures cart == [] ==> panel.total == old(panel.total)
      ensures Count(old(cart), name) == 0 ==> cart == old(cart) && panel == old(panel) && cards == old(cards)
    {
      ghost var before := cart;
      var index := FirstIndex(cart, name);
      if index != -1 {
        cart := cart[..index] + cart[index + 1..];
        UpdateCartUI();
        UpdateProductButton(name);
        assert cart == RemoveFirst(before, name) by {
          RemoveFirstIsSplice(before, name);
        }
        forall n | n != name ensures Count(cart, n) == Count(before, n) {
          RemoveFirstCounts(before, name, n);
        }
        SyncOneCard(old(cards), before, cart, name);
      } else {
        RemoveFirstLength(cart, name);
      }
    }

    /** Removes every unit of `name`, keeping the other entries in order. */
    method RemoveAllFromCart(name: string)
      requires Valid()
      modifies this`cart, this`panel, this`cards
      ensures Valid()
      ensures cart == WithoutName(old(cart), name)
      ensures cards == if name in old(cards) then old(cards)[name := UpdatedCard(old(cards)[name], cart, name)] else old(cards)
      ensures cart == [] ==> panel.total == old(panel.total)
    {
      ghost var before := cart;
      cart := WithoutName(cart, name);
      UpdateCartUI();
      UpdateProductButton(name);
      forall n | n != name ensures Count(cart, n) == Count(before, n) {
        WithoutNameCounts(before, name, n);
      }
      SyncOneCard(old(cards), before, cart, name);
    }

    /**
     * Opens the confirmation with the grouped cart and its total; `shown` is false
     * when the cart is empty, in which case the user is only alerted and nothing changes.
     */
    method ShowConfirmation() returns (shown: bool)
      requires Valid()
      modifies this`modalActive, this`receipt
      ensures Valid()
      ensures shown <==> cart != []
      ensures !shown ==> modalActive == old(modalActive) && receipt == old(receipt)
      ensures shown ==> modalActive && receipt == Receipt(GroupBy(cart), GrandTotal(GroupBy(cart)))
      ensures shown ==> receipt.lines == panel.lines && receipt.total == panel.total
    {
      if |cart| == 0 {
        return false;
      }
      var groupedItems := GroupBy(cart);
      var total := SumSubtotals(groupedItems);
      receipt := Receipt(groupedItems, total);
      modalActive := true;
      shown := true;
    }

    /** Hides the confirmation modal. */
    method CloseConfirmation()
      modifies this`modalActive
      ensures !modalActive
    {
      modalActive := false;
    }

    /** Empties the cart and returns every rendered card to add mode. */
    method ResetCart()
      requires Valid()
      modifies this`cart, this`panel, this`cards
      ensures Valid()
      ensures cart == []
      ensures panel.total == old(panel.total)
      ensures cards.Keys == old(cards).Keys
      ensures forall n :: n in cards ==> cards[n] == UpdatedCard(old(cards)[n], [], n)
      ensures forall n :: n in cards ==> cards[n].addShown && !cards[n].stepperShown && !cards[n].highlighted
    {
      cart := [];
      UpdateCartUI();
      for i := 0 to |products|
        invariant cart == [] && PanelShows(panel, cart) && panel.total == old(panel.total)
        invariant cards.Keys == old(cards).Keys
        invariant forall n :: n in cards ==>
          cards[n] == if n in CardNames(products[..i]) then UpdatedCard(old(cards)[n], [], n) else old(cards)[n]
      {
        assert products[..i + 1] == products[..i] + [products[i]];
        UpdateProductButton(products[i].name);
      }
      assert products[..|products|] == products;
    }

    /** "Start New Order": hides the confirmation, then resets the cart. */
    method StartNewOrder()
      requires Valid()
      modifies this`modalActive, this`cart, this`panel, this`cards
      ensures Valid()
      ensures !modalActive && cart == []
      ensures panel.total == old(panel.total)
      ensures cards.Keys == old(cards).Keys
      ensures forall n :: n in cards ==> cards[n] == UpdatedCard(old(cards)[n], [], n)
      ensures forall n :: n in cards ==> cards[n].addShown && !cards[n].stepperShown
    {
      CloseConfirmation();
      ResetCart();
    }
  }
}

/**
 * A client of the page: two waffles at 500 cents and one creme brulee at 350 cents,
 * then removing the creme brulee line, then confirming and starting a new order.
 */
module ShopExample {
  import opened Catalog
  import opened CartStore
  import opened Grouping
  import opened ShopPage

  const Waffle := Product("Waffle", "Waffle", 500, Image("waffle-desktop.jpg", "waffle-thumbnail.jpg"))
  const Brulee := Product("Creme Brulee", "Creme Brulee", 350, Image("brulee-desktop.jpg", "brulee-thumbnail.jpg"))

  /** The cart views of the example, computed from the pure definitions. */
  lemma ExampleViews()
    ensures GroupBy([Waffle, Waffle, Brulee]) == [Group(Waffle, 2), Group(Brulee, 1)]
    ensures GrandTotal(GroupBy([Waffle, Waffle, Brulee])) == 1350
    ensures WithoutName([Waffle, Waffle, Brulee], Brulee.name) == [Waffle, Waffle]
    ensures GroupBy([Waffle, Waffle]) == [Group(Waffle, 2)]
    ensures GrandTotal(GroupBy([Waffle, Waffle])) == 1000
  {
    assert GroupBy([Waffle]) == [Group(Waffle, 1)];
    assert GroupBy([Waffle, Waffle]) == [Group(Waffle, 2)];
    assert [Waffle, Waffle, Brulee][..2] == [Waffle, Waffle];
    assert GroupIndex([Group(Waffle, 2)], Brulee.name) == -1;
    assert GrandTotal([Group(Brulee, 1)]) == 350;
    assert WithoutName([Brulee], Brulee.name) == [];
    assert WithoutName([Waffle, Brulee], Brulee.name) == [Waffle];
  }

  /** Add two waffles and a creme brulee: badge 3, two lines, total 1350. */
  method TwoProductOrder()
  {
    ExampleViews();
    var shop := new Shop();
    shop.Render([Waffle, Brulee]);
    FillCart(shop);
    assert shop.panel.badge == 3;
    assert shop.panel.lines == [Group(Waffle, 2), Group(Brulee, 1)] && shop.panel.total == 1350;
    RemoveBruleeLine(shop);
    ConfirmAndStartOver(shop);
  }

  /** Two clicks on the waffle's add control and one on the creme brulee's. */
  method FillCart(shop: Shop)
    requires shop.Valid() && shop.cart == [] && shop.products == [Waffle, Brulee]
    modifies shop
    ensures shop.Valid() && shop.cart == [Waffle, Waffle, Brulee] && shop.products == [Waffle, Brulee]
  {
    AddTwice(shop, Waffle);
    shop.AddToCart(Brulee);
  }

  /** Two clicks on the same add control put two entries of `p` in the cart. */
  method AddTwice(shop: Shop, p: Product)
    requires shop.Valid()
    modifies shop
    ensures shop.Valid() && shop.cart == old(shop.cart) + [p, p] && shop.products == old(shop.products)
  {
    shop.AddToCart(p);
    shop.AddToCart(p);
  }

  /** The creme brulee line's remove control: its card is back in add mode, total 1000. */
  method RemoveBruleeLine(shop: Shop)
    requires shop.Valid() && shop.cart == [Waffle, Waffle, Brulee] && shop.products == [Waffle, Brulee]
    modifies shop
    ensures shop.Valid() && shop.cart == [Waffle, Waffle] && shop.products == [Waffle, Brulee]
  {
    ExampleViews();
    assert Brulee in shop.products;
    shop.RemoveAllFromCart(Brulee.name);
    assert shop.cards[Waffle.name] == old(shop.cards)[Waffle.name];
    assert shop.panel.lines == [Group(Waffle, 2)] && shop.panel.total == 1000;
    assert shop.cards[Brulee.name].addShown;
  }

  /** Confirming shows the 1000 total; starting a new order empties everything; confirming again is refused. */
  method ConfirmAndStartOver(shop: Shop)
    requires shop.Valid() && shop.cart == [Waffle, Waffle] && shop.products == [Waffle, Brulee]
    modifies shop
  {
    ExampleViews();
    assert Waffle in shop.products;
    assert Count(shop.cart, Waffle.name) == 2;
    var shown := shop.ShowConfirmation();
    assert shown && shop.modalActive && shop.receipt.total == 1000;
    shop.StartNewOrder();
    assert !shop.modalActive && shop.cart == [];
    assert shop.cards[Waffle.name].addShown && shop.cards[Waffle.name].shownQuantity == 2;
    shown := shop.ShowConfirmation();
    assert !shown;
  }
}
