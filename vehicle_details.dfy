/** The vehicle details panel: editable fields initialised from the vehicle
    record, the brand, model and fuel pickers reconciled with the fetched
    lists, and the save that merges the server's answer into the record. */
module VehicleDetails {
  import opened Common
  import Api

  /** A JSON value as far as this panel looks at it. */
  datatype Val = VStr(s: string) | VNum(n: int) | VNull | VUndefined

  /** JavaScript truthiness of a value. */
  predicate Truthful(v: Val)
  {
    (v.VStr? && v.s != "") || (v.VNum? && v.n != 0)
  }

  /** A record: its own keys and their values (key order is not modelled). */
  type Record = map<string, Val>

  /** `record.key`, undefined when the key is absent. */
  function Get(r: Record, key: string): Val
  {
    if key in r then r[key] else VUndefined
  }

  /** `value || ""`, how every editable field is initialised. */
  function FieldInit(v: Val): (r: Val)
    ensures Truthful(v) ==> r == v
    ensures !Truthful(v) ==> r == VStr("")
    ensures !r.VNull? && !r.VUndefined?
  {
    if Truthful(v) then v else VStr("")
  }

  /** Initialising twice is initialising once; null, undefined, 0 and "" all
      show as an empty box. */
  lemma FieldInitIdempotent(v: Val)
    ensures FieldInit(FieldInit(v)) == FieldInit(v)
    ensures FieldInit(VNull) == FieldInit(VUndefined) == FieldInit(VNum(0)) == FieldInit(VStr("")) == VStr("")
  {
  }

  datatype Model = Model(id: int, name: string)
  datatype Brand = Brand(id: int, name: string, models: seq<Model>)
  datatype FuelType = FuelType(name: string)

  datatype PanelState = PanelState(
    mileage: Val, vin: Val, year: Val, engineCapacity: Val, weight: Val,
    brands: seq<Brand>, fuelTypes: seq<FuelType>,
    selectedBrand: string, models: seq<Model>, selectedModel: string, selectedFuelType: string,
    loading: bool)

  /** The panel as first rendered for a vehicle. */
  function Initial(vehicle: Record): (s: PanelState)
    ensures s.mileage == FieldInit(Get(vehicle, "mileage")) && s.vin == FieldInit(Get(vehicle, "vin"))
    ensures s.year == FieldInit(Get(vehicle, "year")) && s.engineCapacity == FieldInit(Get(vehicle, "engine_capacity"))
    ensures s.weight == FieldInit(Get(vehicle, "weight"))
    ensures s.brands == [] && s.fuelTypes == [] && s.models == []
    ensures s.selectedBrand == "" && s.selectedModel == "" && s.selectedFuelType == "" && !s.loading
  {
    PanelState(FieldInit(Get(vehicle, "mileage")), FieldInit(Get(vehicle, "vin")), FieldInit(Get(vehicle, "year")),
               FieldInit(Get(vehicle, "engine_capacity")), FieldInit(Get(vehicle, "weight")),
               [], [], "", [], "", "", false)
  }

  /** The first brand whose id text is `id`. */
  function BrandById(brands: seq<Brand>, id: string): (r: Option<Brand>)
    ensures r.Some? ==> r.value in brands && IntToString(r.value.id) == id
    ensures r.None? ==> forall i :: 0 <= i < |brands| ==> IntToString(brands[i].id) != id
  {
    Find(brands, (b: Brand) => IntToString(b.id) == id)
  }

  /** The first model whose id text is `id`. */
  function ModelById(models: seq<Model>, id: string): (r: Option<Model>)
    ensures r.Some? ==> r.value in models && IntToString(r.value.id) == id
    ensures r.None? ==> forall i :: 0 <= i < |models| ==> IntToString(models[i].id) != id
  {
    Find(models, (m: Model) => IntToString(m.id) == id)
  }

  /** The reconciliation effect on the brand selection: no brand clears the
      models and the model; a found brand with models that lack the selected
      model clears the model; otherwise the model is kept. */
  function Reconciled(s: PanelState): (r: PanelState)
    ensures s.selectedBrand == "" ==> r.models == [] && r.selectedModel == ""
    ensures s.selectedBrand != "" && BrandById(s.brands, s.selectedBrand).None? ==>
              r.models == [] && r.selectedModel == s.selectedModel
    ensures s.selectedBrand != "" && BrandById(s.brands, s.selectedBrand).Some? ==>
              r.models == BrandById(s.brands, s.selectedBrand).value.models
    ensures s.selectedBrand != "" && BrandById(s.brands, s.selectedBrand).Some? ==>
              (r.selectedModel == "" <==>
                 (s.selectedModel == "" || (r.models != [] && ModelById(r.models, s.selectedModel).None?)))
    ensures r.selectedModel == "" || r.selectedModel == s.selectedModel
    ensures r == s.(models := r.models, selectedModel := r.selectedModel)
  {
    if s.selectedBrand == "" then s.(models := [], selectedModel := "")
    else match BrandById(s.brands, s.selectedBrand)
      case None => s.(models := [])
      case Some(b) =>
        if |b.models| > 0 && ModelById(b.models, s.selectedModel).None? then s.(models := b.models, selectedModel := "")
        else s.(models := b.models)
  }

  /** Running the effect again changes nothing, so it does not matter whether
      React re-runs it for an unchanged selection. */
  lemma ReconciledIdempotent(s: PanelState)
    ensures Reconciled(Reconciled(s)) == Reconciled(s)
  {
  }

  /** A model kept after reconciliation with a found brand that has models is
      one of that brand's models. */
  lemma KeptModelBelongsToBrand(s: PanelState)
    requires s.selectedBrand != "" && BrandById(s.brands, s.selectedBrand).Some?
    requires BrandById(s.brands, s.selectedBrand).value.models != []
    requires Reconciled(s).selectedModel != ""
    ensures ModelById(Reconciled(s).models, Reconciled(s).selectedModel).Some?
  {
  }

  /** The brands effect's own updates on a state that already holds the
      fetched list: the vehicle's brand, found by name, is selected with its
      models, then the vehicle's model, found by name among them. */
  function Preselected(s: PanelState, vehicle: Record): (r: PanelState)
    ensures r == s.(selectedBrand := r.selectedBrand, models := r.models, selectedModel := r.selectedModel)
  {
    match Find(s.brands, (b: Brand) => Get(vehicle, "brand") == VStr(b.name))
    case None => s
    case Some(b) =>
      var s1 := s.(selectedBrand := IntToString(b.id), models := b.models);
      match Find(b.models, (m: Model) => Get(vehicle, "vehicle_model") == VStr(m.name))
      case None => s1
      case Some(m) => s1.(selectedModel := IntToString(m.id))
  }

  /** The brands effect, given how the brand request settled, followed by the
      reconciliation it triggers. */
  function BrandsFetched(s: PanelState, vehicle: Record, reply: Outcome<seq<Brand>>): (r: PanelState)
    ensures !reply.Ok? ==> r == s
    ensures reply.Ok? ==> r.brands == reply.data
  {
    if !reply.Ok? then s else Reconciled(Preselected(s.(brands := reply.data), vehicle))
  }

  predicate DistinctIds(brands: seq<Brand>)
  {
    forall i, j :: 0 <= i < |brands| && 0 <= j < |brands| && brands[i].id == brands[j].id ==> i == j
  }

  /** With distinct brand ids, a vehicle whose brand and model names are in the list
      comes up with that brand, its models, and that model selected. */
  lemma VehicleBrandAndModelSelected(s: PanelState, vehicle: Record, brands: seq<Brand>, k: int, j: int)
    requires DistinctIds(brands) && 0 <= k < |brands|
    requires 0 <= j < |brands[k].models|
    requires Get(vehicle, "brand") == VStr(brands[k].name)
    requires forall i :: 0 <= i < k ==> brands[i].name != brands[k].name
    requires Get(vehicle, "vehicle_model") == VStr(brands[k].models[j].name)
    requires forall i :: 0 <= i < j ==> brands[k].models[i].name != brands[k].models[j].name
    ensures var r := BrandsFetched(s, vehicle, Ok(brands));
            r.selectedBrand == IntToString(brands[k].id) && r.models == brands[k].models &&
            r.selectedModel == IntToString(brands[k].models[j].id)
  {
    var b := brands[k];
    var m := b.models[j];
    FindFirstMatch(brands, (x: Brand) => Get(vehicle, "brand") == VStr(x.name), k);
    FindFirstMatch(b.models, (x: Model) => Get(vehicle, "vehicle_model") == VStr(x.name), j);
    var found := BrandById(brands, IntToString(b.id));
    assert found.Some? by {
      assert IntToString(brands[k].id) == IntToString(b.id);
    }
    var i :| 0 <= i < |brands| && brands[i] == found.value;
    IntToStringInjective(brands[i].id, b.id);
    var fm := ModelById(b.models, IntToString(m.id));
    assert fm.Some? by {
      assert IntToString(b.models[j].id) == IntToString(m.id);
    }
  }

  /** `Find` returns the element at the first index where `p` holds. */
  lemma {:induction false} FindFirstMatch<T>(s: seq<T>, p: T -> bool, k: int)
    requires 0 <= k < |s| && p(s[k]) && forall i :: 0 <= i < k ==> !p(s[i])
    ensures Find(s, p) == Some(s[k])
  {
    if k > 0 {
      FindFirstMatch(s[1..], p, k - 1);
    }
  }

  /** The fuel types effect: the vehicle's fuel type is selected only when a
      fetched fuel type has that name. */
  function FuelTypesFetched(s: PanelState, vehicle: Record, reply: Outcome<seq<FuelType>>): (r: PanelState)
    ensures !reply.Ok? ==> r == s
    ensures reply.Ok? ==> r.fuelTypes == reply.data
    ensures reply.Ok? && r.selectedFuelType != s.selectedFuelType ==>
              VStr(r.selectedFuelType) == Get(vehicle, "fuel_type") &&
              exists i :: 0 <= i < |reply.data| && reply.data[i].name == r.selectedFuelType
    ensures r == s.(fuelTypes := r.fuelTypes, selectedFuelType := r.selectedFuelType)
  {
    if !reply.Ok? then s
    else match Find(reply.data, (f: FuelType) => Get(vehicle, "fuel_type") == VStr(f.name))
      case None => s.(fuelTypes := reply.data)
      case Some(f) => s.(fuelTypes := reply.data, selectedFuelType := f.name)
  }

  /** As written, the fuel types come from `apiService.fuelTypes`, which the
      client does not define: the list stays empty and no fuel type is ever
      selected from the vehicle. */
  lemma FuelTypesAsWritten(vehicle: Record, reply: Outcome<seq<FuelType>>)
    ensures var s := Initial(vehicle);
            FuelTypesFetched(s, vehicle, Api.CallAsWritten("fuelTypes", "getAll", reply)) == s
  {
    assert ("fuelTypes", "getAll") !in Api.ApiServiceMembers;
  }

  // ---------------------------------------------------------------------------
  // Saving

  /** The body sent: the edited fields and the selections (the model as its id text). */
  datatype SaveBody = SaveBody(mileage: Val, vin: Val, fuelType: string, vehicleModel: string, year: Val,
                               engineCapacity: Val, weight: Val)

  function BodyOf(s: PanelState): SaveBody
  {
    SaveBody(s.mileage, s.vin, s.selectedFuelType, s.selectedModel, s.year, s.engineCapacity, s.weight)
  }

  /** The name of the selected model, falling back to the vehicle's own. */
  function ModelName(s: PanelState, vehicle: Record): (v: Val)
    ensures ModelById(s.models, s.selectedModel).Some? && ModelById(s.models, s.selectedModel).value.name != "" ==>
              v == VStr(ModelById(s.models, s.selectedModel).value.name)
    ensures ModelById(s.models, s.selectedModel).None? || ModelById(s.models, s.selectedModel).value.name == "" ==>
              v == Get(vehicle, "vehicle_model")
  {
    match ModelById(s.models, s.selectedModel)
    case Some(m) => if m.name != "" then VStr(m.name) else Get(vehicle, "vehicle_model")
    case None => Get(vehicle, "vehicle_model")
  }

  /** The name of the selected brand, falling back to the vehicle's own. */
  function BrandName(s: PanelState, vehicle: Record): (v: Val)
    ensures BrandById(s.brands, s.selectedBrand).Some? && BrandById(s.brands, s.selectedBrand).value.name != "" ==>
              v == VStr(BrandById(s.brands, s.selectedBrand).value.name)
    ensures BrandById(s.brands, s.selectedBrand).None? || BrandById(s.brands, s.selectedBrand).value.name == "" ==>
              v == Get(vehicle, "brand")
  {
    match BrandById(s.brands, s.selectedBrand)
    case Some(b) => if b.name != "" then VStr(b.name) else Get(vehicle, "brand")
    case None => Get(vehicle, "brand")
  }

  const OverriddenKeys: set<string> := {"fuel_type", "vehicle_model", "brand"}

  /** The record handed to `onVehicleUpdate`: the vehicle, overridden by the
      server's data, overridden by the fuel type, model and brand the panel
      shows. */
  function Merged(vehicle: Record, data: Record, s: PanelState): (r: Record)
    ensures r.Keys == vehicle.Keys + data.Keys + OverriddenKeys
    ensures r["fuel_type"] == VStr(s.selectedFuelType)
    ensures r["vehicle_model"] == ModelName(s, vehicle) && r["brand"] == BrandName(s, vehicle)
    ensures forall k :: k in data && k !in OverriddenKeys ==> r[k] == data[k]
    ensures forall k :: k in vehicle && k !in data && k !in OverriddenKeys ==> r[k] == vehicle[k]
  {
    vehicle + data + map["fuel_type" := VStr(s.selectedFuelType),
                         "vehicle_model" := ModelName(s, vehicle),
                         "brand" := BrandName(s, vehicle)]
  }

  /** With nothing selected the saved record keeps the vehicle's own model
      and brand (no id text is empty), and the fuel type becomes "". */
  lemma NoSelectionKeepsNames(vehicle: Record, data: Record, s: PanelState)
    requires s.selectedModel == "" && s.selectedBrand == "" && s.selectedFuelType == ""
    ensures Merged(vehicle, data, s)["vehicle_model"] == Get(vehicle, "vehicle_model")
    ensures Merged(vehicle, data, s)["brand"] == Get(vehicle, "brand")
    ensures Merged(vehicle, data, s)["fuel_type"] == VStr("")
  {
  }

  /** What a save does: the record reported to the page (none on failure) and
      whether the error toast shows. */
  datatype Save = Save(body: SaveBody, updated: Option<Record>, failed: bool)

  function Saved(s: PanelState, vehicle: Record, reply: Outcome<Record>): (r: Save)
    ensures r.body == BodyOf(s)
    ensures r.updated.Some? <==> reply.Ok?
    ensures r.failed <==> !reply.Ok?
    ensures reply.Ok? ==> r.updated == Some(Merged(vehicle, reply.data, s))
  {
    if reply.Ok? then Save(BodyOf(s), Some(Merged(vehicle, reply.data, s)), false)
    else Save(BodyOf(s), None, true)
  }

  /** As written, the save calls `apiService.vehicles.update`, which the
      client does not define: every save shows the error toast and the page
      is never told of a change. */
  lemma SaveAsWrittenAlwaysFails(s: PanelState, vehicle: Record, reply: Outcome<Record>)
    ensures Saved(s, vehicle, Api.CallAsWritten("vehicles", "update", reply)).failed
    ensures Saved(s, vehicle, Api.CallAsWritten("vehicles", "update", reply)).updated.None?
  {
    assert ("vehicles", "update") !in Api.ApiServiceMembers;
  }

  // ---------------------------------------------------------------------------
  // A new vehicle prop

  /** The keys the field effect reads, in its dependency list. */
  const FieldKeys: seq<string> := ["mileage", "vin", "year", "engine_capacity", "weight"]

  /** Whether two records differ in the values under some of `keys`: the
      dependency check React makes before re-running an effect. */
  predicate Differs(before: Record, after: Record, keys: seq<string>)
  {
    exists i :: 0 <= i < |keys| && Get(before, keys[i]) != Get(after, keys[i])
  }

  /** The field effect: every editable box re-read from the record, whatever
      was typed into it. */
  function Refilled(s: PanelState, vehicle: Record): (r: PanelState)
    ensures var i := Initial(vehicle);
            r.mileage == i.mileage && r.vin == i.vin && r.year == i.year &&
            r.engineCapacity == i.engineCapacity && r.weight == i.weight
    ensures r.(mileage := s.mileage, vin := s.vin, year := s.year,
               engineCapacity := s.engineCapacity, weight := s.weight) == s
  {
    s.(mileage := FieldInit(Get(vehicle, "mileage")), vin := FieldInit(Get(vehicle, "vin")),
       year := FieldInit(Get(vehicle, "year")), engineCapacity := FieldInit(Get(vehicle, "engine_capacity")),
       weight := FieldInit(Get(vehicle, "weight")))
  }

  /** The panel after its `vehicle` prop changes from `before` to `after`:
      each of the three prop-keyed effects re-runs when one of its keys
      changed, the fields first, then the brand and fuel fetches as they
      settle (the two touch disjoint state, so their order does not matter). */
  function PropChanged(s: PanelState, before: Record, after: Record,
                       brandsReply: Outcome<seq<Brand>>, fuelReply: Outcome<seq<FuelType>>): PanelState
  {
    var s1 := if Differs(before, after, FieldKeys) then Refilled(s, after) else s;
    var s2 := if Differs(before, after, ["brand", "vehicle_model"]) then BrandsFetched(s1, after, brandsReply) else s1;
    if Differs(before, after, ["fuel_type"]) then FuelTypesFetched(s2, after, fuelReply) else s2
  }

  /** A new record that changes any editable field discards everything typed
      into the boxes: all five show the new record's values. */
  lemma PropChangeDiscardsTyping(s: PanelState, before: Record, after: Record,
                                 brandsReply: Outcome<seq<Brand>>, fuelReply: Outcome<seq<FuelType>>)
    requires Differs(before, after, FieldKeys)
    ensures var r := PropChanged(s, before, after, brandsReply, fuelReply);
            r.mileage == FieldInit(Get(after, "mileage")) && r.vin == FieldInit(Get(after, "vin")) &&
            r.year == FieldInit(Get(after, "year")) &&
            r.engineCapacity == FieldInit(Get(after, "engine_capacity")) &&
            r.weight == FieldInit(Get(after, "weight"))
  {
  }

  /** A new record that leaves every editable field as it was keeps what was
      typed; one that also leaves brand, model and fuel type alone changes
      nothing at all. */
  lemma OtherPropChangesKeepTyping(s: PanelState, before: Record, after: Record,
                                   brandsReply: Outcome<seq<Brand>>, fuelReply: Outcome<seq<FuelType>>)
    requires !Differs(before, after, FieldKeys)
    ensures var r := PropChanged(s, before, after, brandsReply, fuelReply);
            r.mileage == s.mileage && r.vin == s.vin && r.year == s.year &&
            r.engineCapacity == s.engineCapacity && r.weight == s.weight
    ensures !Differs(before, after, ["brand", "vehicle_model", "fuel_type"]) ==>
              PropChanged(s, before, after, brandsReply, fuelReply) == s
  {
    if !Differs(before, after, ["brand", "vehicle_model", "fuel_type"]) {
      assert !Differs(before, after, ["brand", "vehicle_model"]) by {
        forall i | 0 <= i < 2
          ensures Get(before, ["brand", "vehicle_model"][i]) == Get(after, ["brand", "vehicle_model"][i])
        {
          assert ["brand", "vehicle_model"][i] == ["brand", "vehicle_model", "fuel_type"][i];
        }
      }
      assert !Differs(before, after, ["fuel_type"]) by {
        assert ["fuel_type"][0] == ["brand", "vehicle_model", "fuel_type"][2];
      }
    }
  }

  datatype TextField = Mileage | Vin | Year | EngineCapacity | Weight

  class Panel {
    var mileage: Val
    var vin: Val
    var year: Val
    var engineCapacity: Val
    var weight: Val
    var brands: seq<Brand>
    var fuelTypes: seq<FuelType>
    var selectedBrand: string
    var models: seq<Model>
    var selectedModel: string
    var selectedFuelType: string
    var loading: bool
    var vehicle: Record

    function State(): PanelState
      reads this
    {
      PanelState(mileage, vin, year, engineCapacity, weight, brands, fuelTypes,
                 selectedBrand, models, selectedModel, selectedFuelType, loading)
    }

    /** The first render, then the reconciliation effect's first run. */
    constructor (vehicle: Record)
      ensures State() == Reconciled(Initial(vehicle)) && this.vehicle == vehicle
    {
      this.vehicle := vehicle;
      mileage := FieldInit(Get(vehicle, "mileage"));
      vin := FieldInit(Get(vehicle, "vin"));
      year := FieldInit(Get(vehicle, "year"));
      engineCapacity := FieldInit(Get(vehicle, "engine_capacity"));
      weight := FieldInit(Get(vehicle, "weight"));
      brands, fuelTypes := [], [];
      selectedBrand, models, selectedModel, selectedFuelType := "", [], "", "";
      loading := false;
    }

    /** The reconciliation effect. */
    method Reconcile()
      modifies this
      ensures vehicle == old(vehicle)
      ensures State() == Reconciled(old(State()))
    {
      if selectedBrand == "" {
        models, selectedModel := [], "";
      } else {
        var brand := BrandById(brands, selectedBrand);
        if brand.None? {
          models := [];
        } else {
          models := brand.value.models;
          if |models| > 0 && ModelById(models, selectedModel).None? {
            selectedModel := "";
          }
        }
      }
    }

    /** The brands effect, then the reconciliation it triggers. */
    method FetchBrands(reply: Outcome<seq<Brand>>)
      modifies this
      ensures vehicle == old(vehicle)
      ensures State() == BrandsFetched(old(State()), vehicle, reply)
    {
      if !reply.Ok? {
        return;
      }
      brands := reply.data;
      var pre := Preselected(State(), vehicle);
      selectedBrand, models, selectedModel := pre.selectedBrand, pre.models, pre.selectedModel;
      Reconcile();
    }

    /** The fuel types effect. */
    method FetchFuelTypes(reply: Outcome<seq<FuelType>>)
      modifies this
      ensures vehicle == old(vehicle)
      ensures State() == FuelTypesFetched(old(State()), vehicle, reply)
    {
      if !reply.Ok? {
        return;
      }
      fuelTypes := reply.data;
      var v := vehicle;
      var fuel := Find(fuelTypes, (f: FuelType) => Get(v, "fuel_type") == VStr(f.name));
      if fuel.Some? {
        selectedFuelType := fuel.value.name;
      }
    }

    /** The host page hands down a new record (after a save, the merged one):
        the three effects keyed on the prop re-run where their keys changed,
        given how the two fetches settle. */
    method VehicleChanged(after: Record, brandsReply: Outcome<seq<Brand>>, fuelReply: Outcome<seq<FuelType>>)
      modifies this
      ensures vehicle == after
      ensures State() == PropChanged(old(State()), old(vehicle), after, brandsReply, fuelReply)
    {
      var before := vehicle;
      var fieldsChanged := Differs(before, after, FieldKeys);
      var pickersChanged := Differs(before, after, ["brand", "vehicle_model"]);
      var fuelChanged := Differs(before, after, ["fuel_type"]);
      vehicle := after;
      if fieldsChanged {
        Refill();
      }
      if pickersChanged {
        FetchBrands(brandsReply);
      }
      if fuelChanged {
        FetchFuelTypes(fuelReply);
      }
    }

    /** The field effect: every box re-read from the current record. */
    method Refill()
      modifies this
      ensures vehicle == old(vehicle)
      ensures State() == Refilled(old(State()), vehicle)
    {
      mileage := FieldInit(Get(vehicle, "mileage"));
      vin := FieldInit(Get(vehicle, "vin"));
      year := FieldInit(Get(vehicle, "year"));
      engineCapacity := FieldInit(Get(vehicle, "engine_capacity"));
      weight := FieldInit(Get(vehicle, "weight"));
    }

    /** The brand picker, then the reconciliation effect. */
    method SelectBrand(value: string)
      modifies this
      ensures vehicle == old(vehicle)
      ensures State() == Reconciled(old(State()).(selectedBrand := value))
    {
      selectedBrand := value;
      Reconcile();
    }

    method SelectModel(value: string)
      modifies this
      ensures vehicle == old(vehicle)
      ensures State() == old(State()).(selectedModel := value)
    {
      selectedModel := value;
    }

    method SelectFuelType(value: string)
      modifies this
      ensures vehicle == old(vehicle)
      ensures State() == old(State()).(selectedFuelType := value)
    {
      selectedFuelType := value;
    }

    /** Typing in one of the text boxes. */
    method Edit(field: TextField, text: string)
      modifies this
      ensures vehicle == old(vehicle)
      ensures field == Mileage ==> State() == old(State()).(mileage := VStr(text))
      ensures field == Vin ==> State() == old(State()).(vin := VStr(text))
      ensures field == Year ==> State() == old(State()).(year := VStr(text))
      ensures field == EngineCapacity ==> State() == old(State()).(engineCapacity := VStr(text))
      ensures field == Weight ==> State() == old(State()).(weight := VStr(text))
    {
      match field
      case Mileage => mileage := VStr(text);
      case Vin => vin := VStr(text);
      case Year => year := VStr(text);
      case EngineCapacity => engineCapacity := VStr(text);
      case Weight => weight := VStr(text);
    }

    /** `handleSave`, given how the update request settled. */
    method HandleSave(reply: Outcome<Record>) returns (r: Save)
      modifies this
      ensures vehicle == old(vehicle)
      ensures r == Saved(old(State()), vehicle, reply)
      ensures State() == old(State()).(loading := false)
    {
      loading := true;
      var body := SaveBody(mileage, vin, selectedFuelType, selectedModel, year, engineCapacity, weight);
      if reply.Ok? {
        var shown := State().(loading := false);
        r := Save(body, Some(Merged(vehicle, reply.data, shown)), false);
      } else {
        r := Save(body, None, true);
      }
      loading := false;
    }
  }
}
