/**
 * The checkout page's form state: name, notes and delivery method, hydrated from the
 * saved draft, saved again after every change, with delivery gated on the cart subtotal.
 */
module CheckoutPage {

  import CartStore
  import CheckoutStore
  import MiniCartDrawer

  class Page {
    var name: string
    var notes: string
    var deliveryMethod: string
    const drafts: CheckoutStore.DraftStore
    const cart: CartStore.Store

    /** The initial form state: empty name and notes, pickup. */
    constructor (drafts: CheckoutStore.DraftStore, cart: CartStore.Store)
      ensures name == "" && notes == "" && deliveryMethod == CheckoutStore.Pickup
      ensures this.drafts == drafts && this.cart == cart
    {
      name, notes, deliveryMethod := "", "", CheckoutStore.Pickup;
      this.drafts := drafts;
      this.cart := cart;
    }

    /** `subtotal >= 25`, over the cart's current subtotal. */
    predicate DeliveryAllowed()
      reads this, cart
    {
      MiniCartDrawer.DeliveryAllowed(cart.Total())
    }

    /** The autosave effect: write the whole triple. */
    method Autosave(now: int, writeFails: bool)
      modifies drafts
      ensures drafts.slot == CheckoutStore.AfterSave(
        drafts.hasWindow, old(drafts.slot), writeFails, name, notes, deliveryMethod, now)
    {
      drafts.Save(name, notes, deliveryMethod, now, writeFails);
    }

    /**
     * Mounting: load the draft once; without one the fields keep their values, with one
     * each missing field falls back to `""`, `""` or `pickup`. The method is restored as
     * stored, even `delivery` below the threshold. Then the triple is saved.
     */
    method Mount(now: int, writeFails: bool)
      modifies this, drafts
      ensures var d := CheckoutStore.LoadDraft(drafts.hasWindow, old(drafts.slot));
        if d.None? then
          name == old(name) && notes == old(notes) && deliveryMethod == old(deliveryMethod)
        else
          && name == d.value.name.GetOr("") && notes == d.value.notes.GetOr("")
          && deliveryMethod == d.value.deliveryMethod.GetOr(CheckoutStore.Pickup)
      ensures drafts.slot == CheckoutStore.AfterSave(
        drafts.hasWindow, old(drafts.slot), writeFails, name, notes, deliveryMethod, now)
    {
      var d := drafts.Load();
      if d.Some? {
        name := d.value.name.GetOr("");
        notes := d.value.notes.GetOr("");
        deliveryMethod := d.value.deliveryMethod.GetOr(CheckoutStore.Pickup);
      }
      Autosave(now, writeFails);
    }

    /** Typing a name: a changed value is saved with the other two fields. */
    method EditName(value: string, now: int, writeFails: bool)
      modifies this, drafts
      ensures name == value && notes == old(notes) && deliveryMethod == old(deliveryMethod)
      ensures drafts.slot == if value == old(name) then old(drafts.slot) else
        CheckoutStore.AfterSave(drafts.hasWindow, old(drafts.slot), writeFails, name, notes, deliveryMethod, now)
    {
      if value != name {
        name := value;
        Autosave(now, writeFails);
      }
    }

    /** Typing notes: a changed value is saved with the other two fields. */
    method EditNotes(value: string, now: int, writeFails: bool)
      modifies this, drafts
      ensures notes == value && name == old(name) && deliveryMethod == old(deliveryMethod)
      ensures drafts.slot == if value == old(notes) then old(drafts.slot) else
        CheckoutStore.AfterSave(drafts.hasWindow, old(drafts.slot), writeFails, name, notes, deliveryMethod, now)
    {
      if value != notes {
        notes := value;
        Autosave(now, writeFails);
      }
    }

    /** The Pickup button: always selectable. */
    method SelectPickup(now: int, writeFails: bool)
      modifies this, drafts
      ensures deliveryMethod == CheckoutStore.Pickup && name == old(name) && notes == old(notes)
      ensures drafts.slot == if old(deliveryMethod) == CheckoutStore.Pickup then old(drafts.slot) else
        CheckoutStore.AfterSave(drafts.hasWindow, old(drafts.slot), writeFails, name, notes, deliveryMethod, now)
    {
      if deliveryMethod != CheckoutStore.Pickup {
        deliveryMethod := CheckoutStore.Pickup;
        Autosave(now, writeFails);
      }
    }

    /** The Delivery button: it takes effect only when the subtotal reaches 25. */
    method SelectDelivery(now: int, writeFails: bool)
      modifies this, drafts
      ensures deliveryMethod == if DeliveryAllowed() then CheckoutStore.Delivery else old(deliveryMethod)
      ensures name == old(name) && notes == old(notes)
      ensures drafts.slot == if deliveryMethod == old(deliveryMethod) then old(drafts.slot) else
        CheckoutStore.AfterSave(drafts.hasWindow, old(drafts.slot), writeFails, name, notes, deliveryMethod, now)
    {
      if DeliveryAllowed() && deliveryMethod != CheckoutStore.Delivery {
        deliveryMethod := CheckoutStore.Delivery;
        Autosave(now, writeFails);
      }
    }

    /**
     * "Clear cart": empties the cart, after which the cart's save effect writes the empty
     * cart, so it stays empty when the shop page loads it again; the form and the saved
     * draft are left alone.
     */
    method ClearCart(writeFails: bool)
      modifies cart
      ensures cart.items == []
      ensures cart.slot == if writeFails then old(cart.slot) else CartStore.SaveCart([])
      ensures !writeFails ==> CartStore.LoadCart(true, cart.slot) == []
      ensures name == old(name) && notes == old(notes) && deliveryMethod == old(deliveryMethod)
      ensures drafts.slot == old(drafts.slot)
    {
      cart.Clear();
      cart.Persist(writeFails);
    }
  }
}
