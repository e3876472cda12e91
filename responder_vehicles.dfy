/** The responder's vehicles: the vehicle form, the save and toggle
    requests, and the list reload. */
module ResponderVehicles {
  import opened Wrappers
  import opened Seqs
  import opened Payloads

  datatype Vehicle = Vehicle(
    id: string, plateNumber: Option<string>, model: Option<string>, color: Option<string>, active: bool)

  /** The modal's fields; `active` is "active" or "inactive". */
  datatype Form = Form(plateNumber: string, model: string, color: string, active: string)

  datatype VehiclePayload = VehiclePayload(plateNumber: string, model: string, color: string, active: bool)

  datatype Request =
    | Put(id: string, payload: VehiclePayload)
    | Post(payload: VehiclePayload)
    | PutActive(id: string, active: bool)
    | Delete(id: string)

  const EmptyForm := Form("", "", "", "active")

  function EditForm(v: Vehicle): (f: Form)
    ensures f.plateNumber == OrElse(v.plateNumber, "") && f.model == OrElse(v.model, "")
    ensures f.color == OrElse(v.color, "")
    ensures f.active == (if v.active then "active" else "inactive")
  {
    Form(OrElse(v.plateNumber, ""), OrElse(v.model, ""), OrElse(v.color, ""), if v.active then "active" else "inactive")
  }

  function PayloadOf(f: Form): (p: VehiclePayload)
    ensures p.plateNumber == f.plateNumber && p.model == f.model && p.color == f.color
    ensures p.active <==> f.active == "active"
  {
    VehiclePayload(f.plateNumber, f.model, f.color, f.active == "active")
  }

  /** Saving an unchanged edit form keeps the vehicle's flag and its present
      fields; a fresh form saves an active vehicle. */
  lemma EditThenSaveKeepsVehicle(v: Vehicle)
    ensures var p := PayloadOf(EditForm(v));
      && p.active == v.active
      && (Truthy(v.plateNumber) ==> p.plateNumber == v.plateNumber.value)
      && (Truthy(v.model) ==> p.model == v.model.value)
      && (Truthy(v.color) ==> p.color == v.color.value)
    ensures PayloadOf(EmptyForm).active
  {
  }

  /** The predicate of `load`'s filter, which keeps every vehicle. */
  predicate KeepAll(v: Vehicle) {
    true
  }

  /** The list `load` shows: the response filtered by `KeepAll`. */
  function Loaded(data: Option<seq<Vehicle>>): seq<Vehicle> {
    Filter(data.GetOr([]), KeepAll)
  }

  /** The filter keeps every vehicle, in order. */
  lemma LoadedKeepsAll(data: Option<seq<Vehicle>>)
    ensures Loaded(data) == data.GetOr([])
  {
    FilterAll(data.GetOr([]), KeepAll);
  }

  class VehiclesScreen {
    var vehicles: seq<Vehicle>
    var loading: bool
    var modalOpen: bool
    var editing: Option<Vehicle>
    var form: Form

    constructor ()
      ensures vehicles == [] && !loading && !modalOpen && editing.None? && form == EmptyForm
    {
      vehicles := [];
      loading := false;
      modalOpen := false;
      editing := None;
      form := EmptyForm;
    }

    method Load(resp: Response<seq<Vehicle>>)
      modifies this`vehicles, this`loading
      ensures !loading
      ensures resp.Ok? ==> vehicles == resp.data.GetOr([])
      ensures resp.Failed? ==> vehicles == old(vehicles)
    {
      loading := true;
      if resp.Ok? {
        LoadedKeepsAll(resp.data);
        vehicles := Loaded(resp.data);
      }
      loading := false;
    }

    method OpenCreate()
      modifies this`editing, this`form, this`modalOpen
      ensures editing.None? && form == EmptyForm && modalOpen
    {
      editing := None;
      form := EmptyForm;
      modalOpen := true;
    }

    method OpenEdit(v: Vehicle)
      modifies this`editing, this`form, this`modalOpen
      ensures editing == Some(v) && form == EditForm(v) && modalOpen
    {
      editing := Some(v);
      form := EditForm(v);
      modalOpen := true;
    }

    /** `save`: there is no validation. A PUT of the edited vehicle or a POST
        of a new one; a success closes the modal and reloads. */
    method Save(saveOk: bool, reload: Response<seq<Vehicle>>) returns (request: Request)
      modifies this`modalOpen, this`vehicles, this`loading
      ensures editing.Some? ==> request == Put(editing.value.id, PayloadOf(form))
      ensures editing.None? ==> request == Post(PayloadOf(form))
      ensures saveOk ==>
        !modalOpen && !loading && vehicles == (if reload.Ok? then reload.data.GetOr([]) else old(vehicles))
      ensures !saveOk ==> modalOpen == old(modalOpen) && vehicles == old(vehicles) && loading == old(loading)
    {
      var payload := PayloadOf(form);
      if editing.Some? {
        request := Put(editing.value.id, payload);
      } else {
        request := Post(payload);
      }
      if saveOk {
        modalOpen := false;
        Load(reload);
      }
    }

    /** `toggle`: asks for the opposite flag, then reloads. */
    method Toggle(v: Vehicle, putOk: bool, reload: Response<seq<Vehicle>>) returns (request: Request)
      modifies this`vehicles, this`loading
      ensures request == PutActive(v.id, !v.active)
      ensures putOk ==> !loading && vehicles == (if reload.Ok? then reload.data.GetOr([]) else old(vehicles))
      ensures !putOk ==> vehicles == old(vehicles) && loading == old(loading)
    {
      request := PutActive(v.id, !v.active);
      if putOk {
        Load(reload);
      }
    }

    /** `remove`: only a confirmed delete is sent; a success reloads. */
    method Remove(id: string, confirmed: bool, deleteOk: bool, reload: Response<seq<Vehicle>>)
      returns (request: Option<Request>)
      modifies this`vehicles, this`loading
      ensures confirmed <==> request == Some(Delete(id))
      ensures !confirmed ==> request.None?
      ensures !(confirmed && deleteOk) ==> vehicles == old(vehicles) && loading == old(loading)
      ensures confirmed && deleteOk ==>
        !loading && vehicles == (if reload.Ok? then reload.data.GetOr([]) else old(vehicles))
    {
      request := None;
      if confirmed {
        request := Some(Delete(id));
        if deleteOk {
          Load(reload);
        }
      }
    }
  }
}
