/** The record shapes of the inventory: one `Equipment` per physical asset
    and one `HistoryEntry` per create, update or delete. */
module EquipmentTypes {

  /** An optional field (a `?:` property that may be absent). */
  datatype Option<T> = None | Some(value: T)
  {
    /** The value, or `default` when absent (the `x || default` idiom). */
    function GetOr(default: T): T
    {
      match this
      case Some(v) => v
      case None => default
    }
  }

  /** The kind of asset; closed to exactly five values. */
  datatype EquipmentType = Desktop | Laptop | Server | Printer | Other

  /** The state of an asset; closed to exactly three values. */
  datatype Status = Active | Maintenance | Inactive

  /** What a history entry records; closed to exactly three values. */
  datatype Action = Create | Update | Delete

  /** One tracked asset. Dates and timestamps are kept as the strings the
      application stores. */
  datatype Equipment = Equipment(
    id: string,
    name: string,
    equipmentType: EquipmentType,
    brand: string,
    model: string,
    serialNumber: string,
    processor: Option<string>,
    ram: Option<string>,
    storage: Option<string>,
    peripherals: seq<string>,
    supplier: string,
    purchaseDate: string,
    warrantyExpiration: string,
    location: string,
    assignedUser: string,
    status: Status,
    createdAt: string,
    updatedAt: string)

  /** One entry of the change log: exactly seven fields. */
  datatype HistoryEntry = HistoryEntry(
    id: string,
    equipmentId: string,
    equipmentName: string,
    action: Action,
    changes: string,
    user: string,
    timestamp: string)

  /** Every type, in the order the dashboard lists them. */
  const AllTypes: seq<EquipmentType> := [Desktop, Laptop, Server, Printer, Other]

  /** Every status. */
  const AllStatuses: seq<Status> := [Active, Maintenance, Inactive]

  /** The string a type is stored (and interpolated) as. */
  function TypeName(t: EquipmentType): string
  {
    match t
    case Desktop => "desktop"
    case Laptop => "laptop"
    case Server => "server"
    case Printer => "printer"
    case Other => "other"
  }

  /** The string a status is stored (and interpolated) as. */
  function StatusName(s: Status): string
  {
    match s
    case Active => "active"
    case Maintenance => "maintenance"
    case Inactive => "inactive"
  }

  /** The type enumeration is closed: exactly the five listed values,
      each once, each with its own name. */
  lemma TypesAreClosed(t: EquipmentType)
    ensures t in AllTypes && |AllTypes| == 5
    ensures forall i, j :: 0 <= i < j < |AllTypes| ==> TypeName(AllTypes[i]) != TypeName(AllTypes[j])
  {
  }

  /** The status enumeration is closed: exactly the three listed values,
      and two statuses are equal exactly when their names are. */
  lemma StatusesAreClosed(s: Status, s': Status)
    ensures s in AllStatuses && |AllStatuses| == 3
    ensures s == s' <==> StatusName(s) == StatusName(s')
  {
  }
}
