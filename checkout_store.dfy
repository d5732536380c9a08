/**
 * The checkout draft store: load, save and clear over one browser storage entry.
 * Only `updatedAt` is checked on load; the other fields come back as stored.
 */
module CheckoutStore {

  import opened Wrappers

  /** The two values of the delivery method type; a stored method is not checked against them. */
  const Pickup := "pickup"
  const Delivery := "delivery"

  /**
   * What `JSON.parse` gives for the stored text: a falsy or non-object value, or an
   * object whose fields may be missing; `updatedAt` is `None` when it is not a number.
   */
  datatype ParsedDraft =
    | NonObject
    | DraftObject(name: Option<string>, notes: Option<string>, deliveryMethod: Option<string>, updatedAt: Option<int>)

  /** The browser storage entry under the draft key. */
  datatype DraftSlot = Absent | Corrupt | Stored(value: ParsedDraft)

  /** The draft `loadCheckoutDraft` returns: the parsed object as it is. */
  datatype CheckoutDraft = CheckoutDraft(name: Option<string>, notes: Option<string>, deliveryMethod: Option<string>, updatedAt: int)

  /**
   * `loadCheckoutDraft`: null without a window, with nothing stored, with text that does
   * not parse, or with a value that is falsy or whose `updatedAt` is not a number;
   * otherwise the stored fields, none of them checked but `updatedAt`.
   */
  function LoadDraft(hasWindow: bool, slot: DraftSlot): (d: Option<CheckoutDraft>)
    ensures d.Some? <==>
      hasWindow && slot.Stored? && slot.value.DraftObject? && slot.value.updatedAt.Some?
    ensures d.Some? ==>
      && d.value.name == slot.value.name && d.value.notes == slot.value.notes
      && d.value.deliveryMethod == slot.value.deliveryMethod && d.value.updatedAt == slot.value.updatedAt.value
  {
    if !hasWindow then None
    else match slot
      case Absent => None
      case Corrupt => None
      case Stored(NonObject) => None
      case Stored(DraftObject(name, notes, deliveryMethod, updatedAt)) =>
        match updatedAt
        case None => None
        case Some(t) => Some(CheckoutDraft(name, notes, deliveryMethod, t))
  }

  /** The entry `saveCheckoutDraft` writes: the whole record, stamped with `now`. */
  function SavedSlot(name: string, notes: string, deliveryMethod: string, now: int): DraftSlot {
    Stored(DraftObject(Some(name), Some(notes), Some(deliveryMethod), Some(now)))
  }

  /**
   * The entry after `saveCheckoutDraft`: without a window, or when the write throws,
   * the old entry stays (the error is swallowed); otherwise the new record replaces it.
   */
  function AfterSave(hasWindow: bool, slot: DraftSlot, writeFails: bool,
                     name: string, notes: string, deliveryMethod: string, now: int): (s: DraftSlot)
    ensures !hasWindow || writeFails ==> s == slot
    ensures hasWindow && !writeFails ==>
      LoadDraft(true, s) == Some(CheckoutDraft(Some(name), Some(notes), Some(deliveryMethod), now))
  {
    if !hasWindow || writeFails then slot else SavedSlot(name, notes, deliveryMethod, now)
  }

  /** The entry after `clearCheckoutDraft`: removed, unless there is no window or removal throws. */
  function AfterClear(hasWindow: bool, slot: DraftSlot, removeFails: bool): (s: DraftSlot)
    ensures !hasWindow || removeFails ==> s == slot
    ensures hasWindow && !removeFails ==> LoadDraft(hasWindow, s) == None
  {
    if !hasWindow || removeFails then slot else Absent
  }

  /** A successful save replaces the whole record: nothing of the earlier entry survives. */
  lemma SaveOverwrites(earlier: DraftSlot, other: DraftSlot, name: string, notes: string, deliveryMethod: string, now: int)
    ensures AfterSave(true, earlier, false, name, notes, deliveryMethod, now) ==
            AfterSave(true, other, false, name, notes, deliveryMethod, now)
  {
  }

  /** The store over the draft entry; `hasWindow` says whether the code runs in a browser. */
  class DraftStore {
    const hasWindow: bool
    var slot: DraftSlot

    constructor (hasWindow: bool, slot: DraftSlot)
      ensures this.hasWindow == hasWindow && this.slot == slot
    {
      this.hasWindow := hasWindow;
      this.slot := slot;
    }

    method Load() returns (d: Option<CheckoutDraft>)
      ensures d == LoadDraft(hasWindow, slot)
      ensures d.Some? ==> hasWindow && slot.Stored?
    {
      d := LoadDraft(hasWindow, slot);
    }

    method Save(name: string, notes: string, deliveryMethod: string, now: int, writeFails: bool)
      modifies this
      ensures slot == AfterSave(hasWindow, old(slot), writeFails, name, notes, deliveryMethod, now)
    {
      slot := AfterSave(hasWindow, slot, writeFails, name, notes, deliveryMethod, now);
    }

    method Clear(removeFails: bool)
      modifies this
      ensures slot == AfterClear(hasWindow, old(slot), removeFails)
    {
      slot := AfterClear(hasWindow, slot, removeFails);
    }
  }
}
