/**
 * The per-product card state the page derives from the cart: the "add to cart"
 * control, the quantity stepper with its displayed count, and the image highlight.
 */
module ProductButton {
  import opened Catalog
  import opened CartStore
  import opened Grouping

  /** What a product card shows. `shownQuantity` is the stepper's text, kept even while the stepper is hidden. */
  datatype Card = Card(addShown: bool, stepperShown: bool, shownQuantity: nat, highlighted: bool)

  /** A freshly rendered card: add control visible, stepper hidden reading 0, no highlight. */
  const NewCard := Card(true, false, 0, false)

  /** The card reflects quantity `q`: stepper with `q` and highlight when positive, the add control otherwise. */
  predicate ShowsQuantity(card: Card, q: nat)
  {
    if q > 0 then !card.addShown && card.stepperShown && card.shownQuantity == q && card.highlighted
    else card.addShown && !card.stepperShown && !card.highlighted
  }

  /** The button rule applied to a card for product `name`: the quantity is the product's count in the cart. */
  function UpdatedCard(card: Card, cart: seq<Product>, name: string): (r: Card)
    ensures ShowsQuantity(r, Count(cart, name))
    ensures Count(cart, name) == 0 ==> r.shownQuantity == card.shownQuantity
  {
    var quantity := Count(cart, name);
    if quantity > 0 then Card(false, true, quantity, true)
    else card.(addShown := true, stepperShown := false, highlighted := false)
  }

  /** A card in step with the cart agrees with the cart view: add mode exactly when the product has no line, else the line's quantity. */
  lemma CardAgreesWithGroups(cart: seq<Product>, name: string, card: Card)
    requires ShowsQuantity(card, Count(cart, name))
    ensures card.addShown <==> GroupIndex(GroupBy(cart), name) == -1
    ensures var g := GroupIndex(GroupBy(cart), name);
            g != -1 ==> card.stepperShown && card.shownQuantity == GroupBy(cart)[g].quantity
  {
    GroupMembership(cart, name);
    var g := GroupIndex(GroupBy(cart), name);
    if g != -1 {
      GroupQuantity(cart, g);
    }
  }
}
