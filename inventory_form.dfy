/** The add/edit form's submit handler (src/pages/InventoryForm.tsx): how the
    record is assembled from the form and which store operation it goes to. */
module InventoryForm {
  import opened EquipmentTypes
  import Storage
  import Auth
  import Dashboard
  import opened Seqs

  /** The values the form holds on submit. The type comes from a select
      that has no validation rule and no default, so it may be unset;
      `peripherals` may be missing; `createdAt` is the one loaded from the
      record in edit mode. */
  datatype FormData = FormData(
    name: string,
    equipmentType: Option<EquipmentType>,
    brand: string,
    model: string,
    serialNumber: string,
    processor: Option<string>,
    ram: Option<string>,
    storage: Option<string>,
    peripherals: Option<seq<string>>,
    supplier: string,
    purchaseDate: string,
    warrantyExpiration: string,
    location: string,
    assignedUser: string,
    status: Status,
    createdAt: string)

  /** The route carries a (non-empty) identifier: the form edits that record. */
  predicate IsEdit(routeId: Option<string>)
  {
    routeId.Some? && routeId.value != ""
  }

  /** The record carries the form's values for every field the user edits. */
  predicate CarriesFormValues(r: Equipment, data: FormData)
  {
    && r.name == data.name && data.equipmentType == Some(r.equipmentType)
    && r.brand == data.brand && r.model == data.model && r.serialNumber == data.serialNumber
    && r.processor == data.processor && r.ram == data.ram && r.storage == data.storage
    && r.supplier == data.supplier && r.purchaseDate == data.purchaseDate
    && r.warrantyExpiration == data.warrantyExpiration
    && r.location == data.location && r.assignedUser == data.assignedUser && r.status == data.status
  }

  // ----- The handler as written: the type is never checked -----

  /** What the handler as written hands to the store on an add, reduced to
      the two things the unset type affects: the record's type slot, and the
      creation text the store logs for it. */
  datatype UncheckedAdd = UncheckedAdd(typeSlot: Option<EquipmentType>, changes: string)

  /** How a template literal prints the type slot: the type's name, or
      "undefined" when the slot is empty. */
  function InterpolatedType(t: Option<EquipmentType>): (s: string)
    ensures t.Some? ==> s == TypeName(t.value)
    ensures s == "undefined" <==> t.None?
  {
    match t
    case Some(v) => TypeName(v)
    case None => "undefined"
  }

  /** An add as the handler is written: the form's type slot goes to the
      store as it is, and the store interpolates it into the creation text.
      When the type is set this is exactly what the checked handler logs. */
  function UncheckedSubmitAdd(data: FormData): (a: UncheckedAdd)
    ensures a.typeSlot == data.equipmentType
    ensures a.changes == "Equipo creado: " + data.name + " (" + InterpolatedType(data.equipmentType) + ")"
    ensures forall routeId, freshId, now :: !IsEdit(routeId) && data.equipmentType.Some? ==>
      AssembleRecord(data, routeId, freshId, now).Some? &&
      a.changes == Storage.CreationSummary(AssembleRecord(data, routeId, freshId, now).value)
  {
    UncheckedAdd(data.equipmentType,
      "Equipo creado: " + data.name + " (" + InterpolatedType(data.equipmentType) + ")")
  }

  /** Submitting a new "PC-01" without touching the type select: the log
      reads "Equipo creado: PC-01 (undefined)" and the stored type slot is
      counted under none of the five per-type counters of the dashboard. */
  lemma UntypedAddAsWritten(data: FormData)
    requires data.equipmentType.None? && data.name == "PC-01"
    ensures UncheckedSubmitAdd(data).changes == "Equipo creado: PC-01 (undefined)"
    ensures forall k :: 0 <= k < |AllTypes| ==>
      |Filter([UncheckedSubmitAdd(data).typeSlot], (slot: Option<EquipmentType>) => slot == Some(AllTypes[k]))| == 0
  {
    forall k | 0 <= k < |AllTypes|
      ensures |Filter([UncheckedSubmitAdd(data).typeSlot], (slot: Option<EquipmentType>) => slot == Some(AllTypes[k]))| == 0
    {
      var slots := [UncheckedSubmitAdd(data).typeSlot];
      assert slots[1..] == [];
    }
  }

  // ----- The handler as intended: the type is required -----

  /** `equipmentData`: the form's values, the route identifier in edit mode
      or a fresh one in add mode, peripherals defaulting to none, the
      creation time kept on edit and set to now on add, and the update time
      always now. The label marks the type as required, so a form without a
      type assembles no record. */
  function AssembleRecord(data: FormData, routeId: Option<string>, freshId: string, now: string): (r: Option<Equipment>)
    ensures r.None? <==> data.equipmentType.None?
    ensures r.Some? ==> CarriesFormValues(r.value, data)
    ensures r.Some? && IsEdit(routeId) ==> r.value.id == routeId.value && r.value.createdAt == data.createdAt
    ensures r.Some? && !IsEdit(routeId) ==> r.value.id == freshId && r.value.createdAt == now
    ensures r.Some? && data.peripherals.None? ==> r.value.peripherals == []
    ensures r.Some? && data.peripherals.Some? ==> r.value.peripherals == data.peripherals.value
    ensures r.Some? ==> r.value.updatedAt == now
  {
    match data.equipmentType
    case None => None
    case Some(t) =>
      var id := if IsEdit(routeId) then routeId.value else freshId;
      var createdAt := if IsEdit(routeId) then data.createdAt else now;
      Some(Equipment(id, data.name, t, data.brand, data.model, data.serialNumber,
        data.processor, data.ram, data.storage, data.peripherals.GetOr([]),
        data.supplier, data.purchaseDate, data.warrantyExpiration,
        data.location, data.assignedUser, data.status, createdAt, now))
  }

  /** An accepted add logs the type the user chose, never "undefined", and
      the dashboard's counter for that type rises by one. */
  lemma AcceptedAddIsCountedByType(st: Storage.StoreState, data: FormData, routeId: Option<string>, freshId: string,
                                   now: string, user: string, entryId: string, logTime: string)
    requires !IsEdit(routeId) && data.equipmentType.Some?
    ensures var rec := AssembleRecord(data, routeId, freshId, now);
      && rec.Some?
      && var after := Storage.AddStep(st, rec.value, user, entryId, logTime);
      && after.history[0].changes == "Equipo creado: " + data.name + " (" + TypeName(data.equipmentType.value) + ")"
      && after.history[0].changes != "Equipo creado: " + data.name + " (undefined)"
      && Dashboard.CountType(after.equipment, data.equipmentType.value)
         == Dashboard.CountType(st.equipment, data.equipmentType.value) + 1
  {
    var t := data.equipmentType.value;
    var rec := AssembleRecord(data, routeId, freshId, now).value;
    var after := Storage.AddStep(st, rec, user, entryId, logTime);
    assert |TypeName(t)| != |"undefined"|;
    FilterAppend(st.equipment, [rec], (x: Equipment) => x.equipmentType == t);
    assert after.equipment == st.equipment + [rec];
  }

  /** An edit submitted from a form loaded with the record at position `k`
      replaces that record in place: same identifier, same creation time,
      update time now, the form's values, every other record untouched, and
      identifiers stay unique. */
  lemma EditReplacesLoadedRecord(st: Storage.StoreState, data: FormData, routeId: Option<string>, freshId: string,
                                 now: string, user: string, entryId: string, logTime: string, k: int)
    requires IsEdit(routeId) && Storage.IsFirstMatch(st.equipment, routeId.value, k)
    requires data.createdAt == st.equipment[k].createdAt
    requires Storage.UniqueIds(st.equipment)
    ensures AssembleRecord(data, routeId, freshId, now).Some? ==>
      var rec := AssembleRecord(data, routeId, freshId, now).value;
      var after := Storage.UpdateStep(st, rec.id, rec, user, entryId, logTime);
      && |after.equipment| == |st.equipment|
      && after.equipment[k].id == st.equipment[k].id
      && after.equipment[k].createdAt == st.equipment[k].createdAt
      && after.equipment[k].updatedAt == now
      && CarriesFormValues(after.equipment[k], data)
      && (forall j :: 0 <= j < |st.equipment| && j != k ==> after.equipment[j] == st.equipment[j])
      && Storage.UniqueIds(after.equipment)
  {
    var r := AssembleRecord(data, routeId, freshId, now);
    if r.Some? {
      Storage.UpdateKeepsIdsUnique(st, r.value.id, r.value, user, entryId, logTime);
    }
  }

  /** An add whose fresh identifier is not yet stored keeps identifiers
      unique and appends the assembled record. */
  lemma AddAppendsFreshRecord(st: Storage.StoreState, data: FormData, routeId: Option<string>, freshId: string,
                              now: string, user: string, entryId: string, logTime: string)
    requires !IsEdit(routeId) && Storage.UniqueIds(st.equipment) && !Storage.HasId(st.equipment, freshId)
    ensures AssembleRecord(data, routeId, freshId, now).Some? ==>
      var rec := AssembleRecord(data, routeId, freshId, now).value;
      var after := Storage.AddStep(st, rec, user, entryId, logTime);
      && after.equipment[|st.equipment|].id == freshId
      && after.equipment[|st.equipment|].createdAt == now
      && Storage.UniqueIds(after.equipment)
  {
    var r := AssembleRecord(data, routeId, freshId, now);
    if r.Some? {
      Storage.AddKeepsIdsUnique(st, r.value, user, entryId, logTime);
    }
  }

  /** `onSubmit`: nothing without a signed-in user or without a type;
      otherwise exactly one store call, an update addressed by the record's
      own identifier in edit mode and an add in add mode. `freshId` and
      `now` stand for the platform's random identifier and clock; `entryId`
      and `logTime` for the ones the store draws for the history entry. */
  method OnSubmit(store: Storage.EquipmentStore, user: Option<Auth.User>, data: FormData, routeId: Option<string>,
                  freshId: string, now: string, entryId: string, logTime: string)
    modifies store
    ensures user.None? || data.equipmentType.None? ==> unchanged(store)
    ensures user.Some? && data.equipmentType.Some? && IsEdit(routeId) ==>
      var rec := AssembleRecord(data, routeId, freshId, now).value;
      store.State() == Storage.UpdateStep(old(store.State()), rec.id, rec, user.value.username, entryId, logTime)
    ensures user.Some? && data.equipmentType.Some? && !IsEdit(routeId) ==>
      store.State() == Storage.AddStep(old(store.State()), AssembleRecord(data, routeId, freshId, now).value,
                                       user.value.username, entryId, logTime)
  {
    if user.None? {
      return;
    }
    var assembled := AssembleRecord(data, routeId, freshId, now);
    if assembled.None? {
      return;
    }
    var equipmentData := assembled.value;
    if IsEdit(routeId) {
      store.UpdateEquipment(equipmentData.id, equipmentData, user.value.username, entryId, logTime);
    } else {
      store.AddEquipment(equipmentData, user.value.username, entryId, logTime);
    }
  }
}
