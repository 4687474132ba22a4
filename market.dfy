/** The market routes: a seller escrows resources into an offer, buyers take
    part or all of it for a price, and the seller may cancel for a refund. */
module Market {
  import opened Ledger
  import opened Store

  /** The reply of a purchase. */
  datatype Purchase = Purchase(quantity: int, totalPrice: int, remaining: int)

  /** `if (offer.seller_id)`: a null seller (an NPC offer) is not paid, and
      neither is a seller id of 0, which is falsy too. */
  predicate PaysSeller(o: Offer) {
    o.seller.Some? && o.seller.value != 0
  }

  /** Inserting an offer under the next serial id, and moving resources, keeps the invariants. */
  lemma ValidAfterOfferInsert(w: World, resources: Balances, offer: Offer)
    requires WorldValid(w)
    ensures WorldValid(w.(resources := resources, offers := w.offers[w.serial.offer := offer],
                          serial := w.serial.(offer := w.serial.offer + 1)))
  {
  }

  /** Removing or rewriting offers, and moving resources, keeps the invariants. */
  lemma ValidAfterOfferWrites(w: World, resources: Balances, offers: map<OfferId, Offer>)
    requires WorldValid(w)
    requires offers.Keys <= w.offers.Keys
    ensures WorldValid(w.(resources := resources, offers := offers))
  {
  }

  /** `POST /offers` on the database as a value. */
  function CreateOffer(w: World, user: UserId, resource: ResourceType, quantity: int,
                       priceType: ResourceType, price: int): (r: (Result<(OfferId, Offer)>, World))
    requires WorldValid(w)
    ensures WorldValid(r.1)
    ensures r.0.Err? ==> r.1 == w
  {
    match KingdomOf(w.kingdoms, user)
    case None => (Err(KingdomNotFound), w)
    case Some(k) =>
      if (k, resource) !in w.resources || w.resources[(k, resource)] < quantity then (Err(NotEnoughResources), w)
      else
        var id := w.serial.offer;
        var offer := Offer(Some(k), resource, quantity, priceType, price);
        ValidAfterOfferInsert(w, Adjust(w.resources, k, resource, -quantity), offer);
        (Ok((id, offer)), w.(resources := Adjust(w.resources, k, resource, -quantity),
                            offers := w.offers[id := offer],
                            serial := w.serial.(offer := id + 1)))
  }

  /** The state of the offer book after `quantity` of offer id is bought:
      the rest stays on offer, or the offer is deleted when nothing is left. */
  function Remaining(offers: map<OfferId, Offer>, id: OfferId, quantity: int): (r: map<OfferId, Offer>)
    requires id in offers
  {
    var left := offers[id].quantity - quantity;
    if left > 0 then offers[id := offers[id].(quantity := left)] else offers - {id}
  }

  /** The three ledger updates of a purchase: the buyer pays, receives the
      goods, and a player seller is paid. */
  function Settled(b: Balances, buyer: KingdomId, o: Offer, quantity: int): Balances {
    var total := o.price * quantity;
    var paid := Adjust(Adjust(b, buyer, o.priceType, -total), buyer, o.resource, quantity);
    if PaysSeller(o) then Adjust(paid, o.seller.value, o.priceType, total) else paid
  }

  /** `POST /offers/:offerId/buy` on the database as a value. */
  function BuyOffer(w: World, user: UserId, id: OfferId, quantity: int): (r: (Result<Purchase>, World))
    requires WorldValid(w)
    ensures WorldValid(r.1)
    ensures r.0.Err? ==> r.1 == w
  {
    if id !in w.offers then (Err(OfferNotFound), w)
    else
      var o := w.offers[id];
      if o.quantity < quantity then (Err(NotEnoughQuantity), w)
      else
        match KingdomOf(w.kingdoms, user)
        case None => (Err(KingdomNotFound), w)
        case Some(buyer) =>
          var total := o.price * quantity;
          if (buyer, o.priceType) !in w.resources || w.resources[(buyer, o.priceType)] < total then
            (Err(NotEnoughResourcesToPay), w)
          else
            ValidAfterOfferWrites(w, Settled(w.resources, buyer, o, quantity), Remaining(w.offers, id, quantity));
            (Ok(Purchase(quantity, total, o.quantity - quantity)),
             w.(resources := Settled(w.resources, buyer, o, quantity), offers := Remaining(w.offers, id, quantity)))
  }

  /** `DELETE /offers/:offerId` on the database as a value. The ownership
      query matches no kingdom for a null seller, so an NPC offer is never
      cancelled. */
  function CancelOffer(w: World, user: UserId, id: OfferId): (r: (Result<()>, World))
    requires WorldValid(w)
    ensures WorldValid(r.1)
    ensures r.0.Err? ==> r.1 == w
  {
    if id !in w.offers then (Err(OfferNotFound), w)
    else
      var o := w.offers[id];
      if o.seller.None? || !Owns(w.kingdoms, user, o.seller.value) then (Err(NotAuthorized), w)
      else
        ValidAfterOfferWrites(w, Adjust(w.resources, o.seller.value, o.resource, o.quantity), w.offers - {id});
        (Ok(()), w.(resources := Adjust(w.resources, o.seller.value, o.resource, o.quantity),
                    offers := w.offers - {id}))
  }

  /** The create route, query by query. */
  method HandleCreateOffer(db: Db, user: UserId, resource: ResourceType, quantity: int,
                           priceType: ResourceType, price: int) returns (r: Result<(OfferId, Offer)>)
    requires db.Valid()
    modifies db
    ensures db.Valid()
    ensures (r, db.Snapshot()) == CreateOffer(old(db.Snapshot()), user, resource, quantity, priceType, price)
  {
    var seller := KingdomOf(db.kingdoms, user);
    if seller.None? {
      return Err(KingdomNotFound);
    }
    var k := seller.value;
    if (k, resource) !in db.resources || db.resources[(k, resource)] < quantity {
      return Err(NotEnoughResources);
    }
    var id, offer := Escrow(db, k, resource, quantity, priceType, price);
    r := Ok((id, offer));
  }

  /** The writes of an accepted offer: the escrow debit, then the insert. */
  method Escrow(db: Db, k: KingdomId, resource: ResourceType, quantity: int, priceType: ResourceType, price: int)
    returns (id: OfferId, offer: Offer)
    requires db.Valid()
    modifies db`resources, db`offers, db`serial
    ensures db.Valid()
    ensures id == old(db.serial.offer) && offer == Offer(Some(k), resource, quantity, priceType, price)
    ensures db.Snapshot() == old(db.Snapshot()).(resources := Adjust(old(db.resources), k, resource, -quantity),
                                                 offers := old(db.offers)[id := offer],
                                                 serial := old(db.serial).(offer := id + 1))
  {
    ghost var w := db.Snapshot();
    db.resources := Adjust(db.resources, k, resource, -quantity);
    id := db.serial.offer;
    offer := Offer(Some(k), resource, quantity, priceType, price);
    db.offers := db.offers[id := offer];
    db.serial := db.serial.(offer := id + 1);
    assert db.Snapshot() == w.(resources := db.resources, offers := w.offers[id := offer], serial := w.serial.(offer := id + 1));
    ValidAfterOfferInsert(w, db.resources, offer);
  }

  /** The buy route, query by query. */
  method HandleBuyOffer(db: Db, user: UserId, id: OfferId, quantity: int) returns (r: Result<Purchase>)
    requires db.Valid()
    modifies db
    ensures db.Valid()
    ensures (r, db.Snapshot()) == BuyOffer(old(db.Snapshot()), user, id, quantity)
  {
    if id !in db.offers {
      return Err(OfferNotFound);
    }
    var o := db.offers[id];
    if o.quantity < quantity {
      return Err(NotEnoughQuantity);
    }
    var buyer := KingdomOf(db.kingdoms, user);
    if buyer.None? {
      return Err(KingdomNotFound);
    }
    var b := buyer.value;
    var total := o.price * quantity;
    if (b, o.priceType) !in db.resources || db.resources[(b, o.priceType)] < total {
      return Err(NotEnoughResourcesToPay);
    }
    Trade(db, b, id, quantity);
    r := Ok(Purchase(quantity, total, o.quantity - quantity));
  }

  /** The writes of an accepted purchase, in the order the route issues them. */
  method Trade(db: Db, buyer: KingdomId, id: OfferId, quantity: int)
    requires db.Valid()
    requires id in db.offers
    modifies db`resources, db`offers
    ensures db.Valid()
    ensures db.Snapshot() == old(db.Snapshot()).(resources := Settled(old(db.resources), buyer, old(db.offers)[id], quantity),
                                                 offers := Remaining(old(db.offers), id, quantity))
  {
    ghost var w := db.Snapshot();
    var o := db.offers[id];
    var total := o.price * quantity;
    var resources := Adjust(db.resources, buyer, o.priceType, -total);
    resources := Adjust(resources, buyer, o.resource, quantity);
    if PaysSeller(o) {
      resources := Adjust(resources, o.seller.value, o.priceType, total);
    }
    db.resources := resources;
    var left := o.quantity - quantity;
    if left > 0 {
      db.offers := db.offers[id := o.(quantity := left)];
    } else {
      db.offers := db.offers - {id};
    }
    assert db.Snapshot() == w.(resources := db.resources, offers := db.offers);
    ValidAfterOfferWrites(w, db.resources, db.offers);
  }

  /** The cancel route, query by query. */
  method HandleCancelOffer(db: Db, user: UserId, id: OfferId) returns (r: Result<()>)
    requires db.Valid()
    modifies db
    ensures db.Valid()
    ensures (r, db.Snapshot()) == CancelOffer(old(db.Snapshot()), user, id)
  {
    if id !in db.offers {
      return Err(OfferNotFound);
    }
    var o := db.offers[id];
    if o.seller.None? || !Owns(db.kingdoms, user, o.seller.value) {
      return Err(NotAuthorized);
    }
    Refund(db, id);
    r := Ok(());
  }

  /** The writes of an accepted cancel: the refund, then the delete. */
  method Refund(db: Db, id: OfferId)
    requires db.Valid()
    requires id in db.offers && db.offers[id].seller.Some?
    modifies db`resources, db`offers
    ensures db.Valid()
    ensures var o := old(db.offers)[id];
      db.Snapshot() == old(db.Snapshot()).(resources := Adjust(old(db.resources), o.seller.value, o.resource, o.quantity),
                                           offers := old(db.offers) - {id})
  {
    ghost var w := db.Snapshot();
    var o := db.offers[id];
    db.resources := Adjust(db.resources, o.seller.value, o.resource, o.quantity);
    db.offers := db.offers - {id};
    assert db.Snapshot() == w.(resources := db.resources, offers := db.offers);
    ValidAfterOfferWrites(w, db.resources, db.offers);
  }

  /** An offer is created exactly when the user has a kingdom holding a row
      of the offered type with at least the offered quantity; the seller's
      row then drops by exactly that quantity, every other row is unchanged,
      and the new offer, under a fresh id, holds the quantity in escrow. */
  lemma CreateOfferOutcome(w: World, user: UserId, resource: ResourceType, quantity: int,
                           priceType: ResourceType, price: int)
    requires WorldValid(w)
    ensures var (r, w') := CreateOffer(w, user, resource, quantity, priceType, price);
      var k := KingdomOf(w.kingdoms, user);
      && (r.Ok? <==> k.Some? && (k.value, resource) in w.resources && w.resources[(k.value, resource)] >= quantity)
      && (k.None? ==> r == Err(KingdomNotFound))
      && (r.Ok? ==>
            && r.value.0 !in w.offers
            && r.value.1 == Offer(Some(k.value), resource, quantity, priceType, price)
            && w'.offers == w.offers[r.value.0 := r.value.1]
            && w'.resources.Keys == w.resources.Keys
            && w'.resources[(k.value, resource)] == w.resources[(k.value, resource)] - quantity
            && (forall key :: key in w.resources && key != (k.value, resource) ==> w'.resources[key] == w.resources[key]))
  {
  }

  /** A purchase succeeds exactly when the offer exists and holds at least
      the requested quantity, and the user has a kingdom whose row of the
      price type covers the total price. */
  lemma BuyOfferAccepted(w: World, user: UserId, id: OfferId, quantity: int)
    requires WorldValid(w)
    ensures var r := BuyOffer(w, user, id, quantity).0;
      var k := KingdomOf(w.kingdoms, user);
      r.Ok? <==>
        && id in w.offers && w.offers[id].quantity >= quantity && k.Some?
        && (k.value, w.offers[id].priceType) in w.resources
        && w.resources[(k.value, w.offers[id].priceType)] >= w.offers[id].price * quantity
  {
  }

  /** After a purchase the offer holds what was left, or is gone when nothing was. */
  lemma BuyOfferLeavesRest(w: World, user: UserId, id: OfferId, quantity: int)
    requires WorldValid(w)
    requires BuyOffer(w, user, id, quantity).0.Ok?
    ensures var (r, w') := BuyOffer(w, user, id, quantity);
      var left := w.offers[id].quantity - quantity;
      && r.value == Purchase(quantity, w.offers[id].price * quantity, left)
      && (id in w'.offers <==> left > 0)
      && (left > 0 ==> w'.offers[id] == w.offers[id].(quantity := left))
      && (forall other :: other != id ==> (other in w'.offers <==> other in w.offers))
      && (forall other :: other != id && other in w.offers ==> w'.offers[other] == w.offers[other])
  {
  }

  /** Every row after the three ledger updates of a purchase, for any offer:
      the buyer's price-type row pays the total, the buyer's offered-type row
      gets the goods, and the seller's price-type row is paid only when the
      seller id is truthy; the three may fall on one row, and then add up. */
  lemma SettledAt(b: Balances, buyer: KingdomId, o: Offer, quantity: int, key: (KingdomId, ResourceType))
    requires key in b
    ensures var total := o.price * quantity;
      && Settled(b, buyer, o, quantity).Keys == b.Keys
      && Settled(b, buyer, o, quantity)[key] == b[key]
           - (if key == (buyer, o.priceType) then total else 0)
           + (if key == (buyer, o.resource) then quantity else 0)
           + (if PaysSeller(o) && key == (o.seller.value, o.priceType) then total else 0)
  {
  }

  /** The balances after any accepted purchase, with no condition on the
      offer's types or on who sells it: exactly the three movements of
      `SettledAt`, on the rows that exist, and no row added or removed. */
  lemma BuyOfferBalances(w: World, user: UserId, id: OfferId, quantity: int)
    requires WorldValid(w)
    requires BuyOffer(w, user, id, quantity).0.Ok?
    ensures var w' := BuyOffer(w, user, id, quantity).1;
      var o := w.offers[id];
      var buyer := KingdomOf(w.kingdoms, user).value;
      var total := o.price * quantity;
      && w'.resources.Keys == w.resources.Keys
      && forall key :: key in w.resources ==>
           w'.resources[key] == w.resources[key]
             - (if key == (buyer, o.priceType) then total else 0)
             + (if key == (buyer, o.resource) then quantity else 0)
             + (if PaysSeller(o) && key == (o.seller.value, o.priceType) then total else 0)
  {
    var o := w.offers[id];
    var buyer := KingdomOf(w.kingdoms, user).value;
    forall key | key in w.resources
      ensures Settled(w.resources, buyer, o, quantity)[key] == w.resources[key]
             - (if key == (buyer, o.priceType) then o.price * quantity else 0)
             + (if key == (buyer, o.resource) then quantity else 0)
             + (if PaysSeller(o) && key == (o.seller.value, o.priceType) then o.price * quantity else 0)
    {
      SettledAt(w.resources, buyer, o, quantity, key);
    }
    SettledAt(w.resources, buyer, o, quantity, (buyer, o.priceType));
  }

  /** The goods a purchase takes leave the offer and reach the buyer's row:
      when the buyer has a row of the offered type and is not the one paid in
      that type, the row plus what stays on offer is unchanged. */
  lemma BuyOfferMovesGoods(w: World, user: UserId, id: OfferId, quantity: int)
    requires WorldValid(w)
    requires BuyOffer(w, user, id, quantity).0.Ok?
    requires var o := w.offers[id];
      && (KingdomOf(w.kingdoms, user).value, o.resource) in w.resources
      && o.resource != o.priceType
    ensures var w' := BuyOffer(w, user, id, quantity).1;
      var o := w.offers[id];
      var key := (KingdomOf(w.kingdoms, user).value, o.resource);
      w'.resources[key] + (if id in w'.offers then w'.offers[id].quantity else 0)
        == w.resources[key] + o.quantity
  {
    BuyOfferBalances(w, user, id, quantity);
  }

  /** The price a purchase pays leaves the buyer's row and, when the seller
      is a player holding a row of the price type, reaches the seller's row:
      the two rows keep their sum. */
  lemma BuyOfferPaysSeller(w: World, user: UserId, id: OfferId, quantity: int)
    requires WorldValid(w)
    requires BuyOffer(w, user, id, quantity).0.Ok?
    requires var o := w.offers[id];
      && PaysSeller(o) && o.seller.value != KingdomOf(w.kingdoms, user).value
      && (o.seller.value, o.priceType) in w.resources && o.resource != o.priceType
    ensures var w' := BuyOffer(w, user, id, quantity).1;
      var o := w.offers[id];
      var buyer, seller := (KingdomOf(w.kingdoms, user).value, o.priceType), (o.seller.value, o.priceType);
      && w'.resources[buyer] == w.resources[buyer] - o.price * quantity
      && w'.resources[seller] == w.resources[seller] + o.price * quantity
      && w'.resources[buyer] + w'.resources[seller] == w.resources[buyer] + w.resources[seller]
  {
    BuyOfferBalances(w, user, id, quantity);
  }

  /** Nobody is paid for an NPC offer: the buyer's payment leaves the game. */
  lemma BuyNpcOfferPaysNobody(w: World, user: UserId, id: OfferId, quantity: int)
    requires WorldValid(w)
    requires BuyOffer(w, user, id, quantity).0.Ok?
    requires w.offers[id].seller.None? && w.offers[id].resource != w.offers[id].priceType
    ensures var w' := BuyOffer(w, user, id, quantity).1;
      var o := w.offers[id];
      var buyer := KingdomOf(w.kingdoms, user).value;
      && w'.resources[(buyer, o.priceType)] == w.resources[(buyer, o.priceType)] - o.price * quantity
      && (forall key :: key in w.resources && key.0 != buyer ==> w'.resources[key] == w.resources[key])
  {
    BuyOfferBalances(w, user, id, quantity);
  }

  /** An NPC offer is never cancelled, by anyone. */
  lemma NpcOfferNotCancelled(w: World, user: UserId, id: OfferId)
    requires WorldValid(w)
    requires id in w.offers && w.offers[id].seller.None?
    ensures CancelOffer(w, user, id) == (Err(NotAuthorized), w)
  {
  }

  /** A cancel succeeds exactly when the offer exists and its seller is a
      kingdom the user owns; the whole remaining quantity then returns to the
      seller's row and the offer is deleted. */
  lemma CancelOfferOutcome(w: World, user: UserId, id: OfferId)
    requires WorldValid(w)
    ensures var (r, w') := CancelOffer(w, user, id);
      && (r.Ok? <==> id in w.offers && w.offers[id].seller.Some? && Owns(w.kingdoms, user, w.offers[id].seller.value))
      && (r.Ok? ==>
            var o := w.offers[id];
            && w'.offers == w.offers - {id}
            && w'.resources == Adjust(w.resources, o.seller.value, o.resource, o.quantity))
  {
  }

  /** Creating an offer and cancelling it at once gives the seller back
      exactly what was escrowed: the resources and the offer book are as
      before (only the offer serial has moved on). */
  lemma CreateThenCancelRestores(w: World, user: UserId, resource: ResourceType, quantity: int,
                                 priceType: ResourceType, price: int)
    requires WorldValid(w)
    requires CreateOffer(w, user, resource, quantity, priceType, price).0.Ok?
    ensures var (r, w1) := CreateOffer(w, user, resource, quantity, priceType, price);
      var (c, w2) := CancelOffer(w1, user, r.value.0);
      && c == Ok(())
      && w2.resources == w.resources
      && w2.offers == w.offers
  {
    var (r, w1) := CreateOffer(w, user, resource, quantity, priceType, price);
    var k := KingdomOf(w.kingdoms, user).value;
    var id := r.value.0;
    assert id !in w.offers;
    AdjustUndo(w.resources, k, resource, -quantity);
    assert w1.offers - {id} == w.offers;
  }
}
