/** The responder's inventory: the item form, the requests that save or
    toggle an item, and the list reload. */
module ResponderInventory {
  import opened Wrappers
  import opened Strings
  import opened Payloads

  datatype Item = Item(
    id: string, name: Option<string>, sku: Option<string>, quantity: Option<nat>,
    unit: Option<string>, notes: Option<string>, available: bool)

  /** The modal's text fields; `available` is "available" or "unavailable". */
  datatype Form = Form(name: string, sku: string, quantity: string, unit: string, notes: string, available: string)

  /** The body of a save. `quantity` is `None` when `Number` of the field
      is not a whole number. */
  datatype ItemPayload = ItemPayload(
    name: string, sku: string, quantity: Option<nat>, unit: string, notes: string, available: bool)

  datatype Request =
    | Put(id: string, payload: ItemPayload)
    | Post(payload: ItemPayload)
    | PutAvailable(id: string, available: bool)
    | Delete(id: string)

  /** `openCreate`'s form. */
  const EmptyForm := Form("", "", "1", "", "", "available")

  /** `openEdit`'s form: missing strings become empty, the quantity is
      printed (0 when missing) and the flag becomes its word. */
  function EditForm(it: Item): (f: Form)
    ensures f.name == OrElse(it.name, "") && f.sku == OrElse(it.sku, "")
    ensures f.unit == OrElse(it.unit, "") && f.notes == OrElse(it.notes, "")
    ensures f.available == (if it.available then "available" else "unavailable")
  {
    Form(OrElse(it.name, ""), OrElse(it.sku, ""), NatToString(it.quantity.GetOr(0)),
         OrElse(it.unit, ""), OrElse(it.notes, ""), if it.available then "available" else "unavailable")
  }

  predicate AllDigits(s: string) {
    forall i :: 0 <= i < |s| ==> IsDigit(s[i])
  }

  /** `Number(form.quantity || 0)` for an empty field or a digit string. */
  function Quantity(s: string): (q: Option<nat>)
    ensures s == [] ==> q == Some(0)
    ensures s != [] && AllDigits(s) ==> q == Some(DigitsValue(s))
    ensures s != [] && !AllDigits(s) ==> q.None?
  {
    if s == [] then Some(0)
    else if AllDigits(s) then Some(DigitsValue(s))
    else None
  }

  function PayloadOf(f: Form): (p: ItemPayload)
    ensures p.name == f.name && p.sku == f.sku && p.unit == f.unit && p.notes == f.notes
    ensures p.quantity == Quantity(f.quantity)
    ensures p.available <==> f.available == "available"
  {
    ItemPayload(f.name, f.sku, Quantity(f.quantity), f.unit, f.notes, f.available == "available")
  }

  /** Saving an unchanged edit form writes back the item's own quantity
      (0 when missing) and its own availability: the modal has no
      availability control, so an edit never flips it. */
  lemma EditThenSaveKeepsItem(it: Item)
    ensures var p := PayloadOf(EditForm(it));
      && p.quantity == Some(it.quantity.GetOr(0))
      && p.available == it.available
      && (Truthy(it.name) ==> p.name == it.name.value)
  {
    DigitsValueOfNatToString(it.quantity.GetOr(0));
  }

  /** A fresh form saves one available unit. */
  lemma CreateFormPayload()
    ensures PayloadOf(EmptyForm) == ItemPayload("", "", Some(1), "", "", true)
  {
    assert Quantity("1") == Some(DigitsValue("1"));
    assert DigitsValue("1") == 10 * DigitsValue("") + DigitValue('1');
  }

  class InventoryScreen {
    var items: seq<Item>
    var loading: bool
    var modalOpen: bool
    var editing: Option<Item>
    var form: Form

    constructor ()
      ensures items == [] && !loading && !modalOpen && editing.None? && form == EmptyForm
    {
      items := [];
      loading := false;
      modalOpen := false;
      editing := None;
      form := EmptyForm;
    }

    /** `load`: the server's list (or none); a failure keeps the list. */
    method Load(resp: Response<seq<Item>>)
      modifies this`items, this`loading
      ensures !loading
      ensures resp.Ok? ==> items == resp.data.GetOr([])
      ensures resp.Failed? ==> items == old(items)
    {
      loading := true;
      if resp.Ok? {
        items := resp.data.GetOr([]);
      }
      loading := false;
    }

    method OpenCreate()
      modifies this`editing, this`form, this`modalOpen
      ensures editing.None? && form == EmptyForm && modalOpen
    {
      editing := None;
      form := EmptyForm;
      modalOpen := true;
    }

    method OpenEdit(it: Item)
      modifies this`editing, this`form, this`modalOpen
      ensures editing == Some(it) && form == EditForm(it) && modalOpen
    {
      editing := Some(it);
      form := EditForm(it);
      modalOpen := true;
    }

    /** `save`: refused without a name, with no request. Otherwise a PUT of
        the edited item or a POST of a new one; when it succeeds the modal
        closes and the list reloads, when it fails the modal stays. */
    method Save(saveOk: bool, reload: Response<seq<Item>>) returns (request: Option<Request>)
      modifies this`modalOpen, this`items, this`loading
      ensures form.name == [] ==>
        request.None? && modalOpen == old(modalOpen) && items == old(items) && loading == old(loading)
      ensures form.name != [] && editing.Some? ==> request == Some(Put(editing.value.id, PayloadOf(form)))
      ensures form.name != [] && editing.None? ==> request == Some(Post(PayloadOf(form)))
      ensures form.name != [] && saveOk ==>
        !modalOpen && !loading && items == (if reload.Ok? then reload.data.GetOr([]) else old(items))
      ensures form.name != [] && !saveOk ==>
        modalOpen == old(modalOpen) && items == old(items) && loading == old(loading)
    {
      request := None;
      if form.name == [] {
        return;
      }
      var payload := PayloadOf(form);
      if editing.Some? {
        request := Some(Put(editing.value.id, payload));
      } else {
        request := Some(Post(payload));
      }
      if saveOk {
        modalOpen := false;
        Load(reload);
      }
    }

    /** `toggle`: asks for the opposite availability, then reloads. */
    method Toggle(it: Item, putOk: bool, reload: Response<seq<Item>>) returns (request: Request)
      modifies this`items, this`loading
      ensures request == PutAvailable(it.id, !it.available)
      ensures putOk ==> !loading && items == (if reload.Ok? then reload.data.GetOr([]) else old(items))
      ensures !putOk ==> items == old(items) && loading == old(loading)
    {
      request := PutAvailable(it.id, !it.available);
      if putOk {
        Load(reload);
      }
    }

    /** `remove`: only a confirmed delete is sent; a success reloads. */
    method Remove(id: string, confirmed: bool, deleteOk: bool, reload: Response<seq<Item>>)
      returns (request: Option<Request>)
      modifies this`items, this`loading
      ensures confirmed <==> request == Some(Delete(id))
      ensures !confirmed ==> request.None?
      ensures !(confirmed && deleteOk) ==> items == old(items) && loading == old(loading)
      ensures confirmed && deleteOk ==> !loading && items == (if reload.Ok? then reload.data.GetOr([]) else old(items))
    {
      request := None;
      if confirmed {
        request := Some(Delete(id));
        if deleteOk {
          Load(reload);
        }
      }
    }
  }
}
