/** The domain vocabulary of the logistics front end: the user roles, the
    status and severity enumerations and the record shapes of the static
    tables. Every enumeration is a datatype, so a value outside its declared
    set cannot be written; each one also carries the exact label the
    interface displays, and a parser that recovers the value from the label. */
module Types {

  datatype Option<+T> = None | Some(value: T)

  /** The persona selected on the landing page, or `Landing` when none is. */
  datatype Role = Customer | Driver | Partner | Dispatcher | Landing

  /** The identifier the role carries as a string (the union member itself). */
  function RoleId(r: Role): string {
    match r
    case Customer => "customer"
    case Driver => "driver"
    case Partner => "partner"
    case Dispatcher => "dispatcher"
    case Landing => "landing"
  }

  /** Reads a role back from its identifier; any other string is not a role. */
  function ParseRole(s: string): (r: Option<Role>)
    ensures r.Some? ==> RoleId(r.value) == s
  {
    if s == "customer" then Some(Customer)
    else if s == "driver" then Some(Driver)
    else if s == "partner" then Some(Partner)
    else if s == "dispatcher" then Some(Dispatcher)
    else if s == "landing" then Some(Landing)
    else None
  }

  lemma ParseRoleId(r: Role)
    ensures ParseRole(RoleId(r)) == Some(r)
  {
    match r
    case Customer =>
    case Driver => assert "driver" != "customer" by { assert |"driver"| != |"customer"|; }
    case Partner =>
      assert "partner"[0] != "customer"[0] && "partner"[0] != "driver"[0];
    case Dispatcher =>
      assert "dispatcher"[0] != "customer"[0] && "dispatcher"[1] != "driver"[1] && "dispatcher"[0] != "partner"[0];
    case Landing =>
      assert "landing"[0] != "customer"[0] && "landing"[0] != "driver"[0];
      assert "landing"[0] != "partner"[0] && "landing"[0] != "dispatcher"[0];
  }

  /** Distinct roles have distinct identifiers. */
  lemma RoleIdInjective(a: Role, b: Role)
    ensures RoleId(a) == RoleId(b) ==> a == b
  {
    ParseRoleId(a);
    ParseRoleId(b);
  }

  datatype ShipmentStatus =
    | InTransit | Delivered | Pending | PickedUp | Delayed | Processing | Manifested
  {
    function Label(): string {
      match this
      case InTransit => "IN TRANSIT"
      case Delivered => "DELIVERED"
      case Pending => "PENDING"
      case PickedUp => "PICKED UP"
      case Delayed => "DELAYED"
      case Processing => "PROCESSING"
      case Manifested => "MANIFESTED"
    }
  }

  /** The union types exist only at compile time, so nothing parses a shipment status
      at run time; this inverse of `Label` serves to show the labels are
      pairwise distinct. */
  function ParseShipmentStatus(s: string): (r: Option<ShipmentStatus>)
    ensures r.Some? ==> r.value.Label() == s
  {
    if s == "IN TRANSIT" then Some(InTransit)
    else if s == "DELIVERED" then Some(Delivered)
    else if s == "PENDING" then Some(Pending)
    else if s == "PICKED UP" then Some(PickedUp)
    else if s == "DELAYED" then Some(Delayed)
    else if s == "PROCESSING" then Some(Processing)
    else if s == "MANIFESTED" then Some(Manifested)
    else None
  }

  /** Every shipment status is recovered from its label, so the labels are distinct. */
  lemma ParseShipmentStatusLabel(st: ShipmentStatus)
    ensures ParseShipmentStatus(st.Label()) == Some(st)
  {
  }

  datatype VehicleStatus = Good | DueSoon | Overdue | Active | Warning | Service
  {
    function Label(): string {
      match this
      case Good => "GOOD"
      case DueSoon => "DUE SOON"
      case Overdue => "OVERDUE"
      case Active => "ACTIVE"
      case Warning => "WARNING"
      case Service => "SERVICE"
    }
  }

  /** The union types exist only at compile time, so nothing parses a vehicle status
      at run time; this inverse of `Label` serves to show the labels are
      pairwise distinct. */
  function ParseVehicleStatus(s: string): (r: Option<VehicleStatus>)
    ensures r.Some? ==> r.value.Label() == s
  {
    if s == "GOOD" then Some(Good)
    else if s == "DUE SOON" then Some(DueSoon)
    else if s == "OVERDUE" then Some(Overdue)
    else if s == "ACTIVE" then Some(Active)
    else if s == "WARNING" then Some(Warning)
    else if s == "SERVICE" then Some(Service)
    else None
  }

  lemma ParseVehicleStatusLabel(st: VehicleStatus)
    ensures ParseVehicleStatus(st.Label()) == Some(st)
  {
  }

  datatype Severity = Critical | SeverityWarning | Info
  {
    function Label(): string {
      match this
      case Critical => "CRITICAL"
      case SeverityWarning => "WARNING"
      case Info => "INFO"
    }
  }

  /** The union types exist only at compile time, so nothing parses a alert severity
      at run time; this inverse of `Label` serves to show the labels are
      pairwise distinct. */
  function ParseSeverity(s: string): (r: Option<Severity>)
    ensures r.Some? ==> r.value.Label() == s
  {
    if s == "CRITICAL" then Some(Critical)
    else if s == "WARNING" then Some(SeverityWarning)
    else if s == "INFO" then Some(Info)
    else None
  }

  lemma ParseSeverityLabel(sv: Severity)
    ensures ParseSeverity(sv.Label()) == Some(sv)
  {
  }

  /** Numbers in the tables are whole; `progress`, `health` and
      `utilization` are percentages. Optional fields are `Option`s. */
  datatype Shipment = Shipment(
    id: string, origin: string, destination: string, status: ShipmentStatus,
    eta: string, weight: string, carrier: Option<string>, progress: int)

  datatype Vehicle = Vehicle(id: string, status: VehicleStatus, health: int, dueIn: Option<string>)

  /** `category` is the record's `type` field (a reserved word here). */
  datatype WarehouseZone = WarehouseZone(
    id: string, name: string, category: string, skuCount: int, utilization: int, unit: Option<string>)

  /** `severity` is the record's `type` field. */
  datatype Alert = Alert(id: string, severity: Severity, title: string, message: string, time: string)
}
