/** The shared vocabulary of the dashboard (types/index.ts): the roles, the alert
    and oil enumerations, and the `PERMISSIONS` capability matrix. */
module Types {

  // ---------------------------------------------------------------- roles

  datatype Role = Operator | PlantManager | HqExec | Quality | Accounting | ExternalViewer | Admin

  /** The `UserRole` union in declaration order. */
  const AllRoles: seq<Role> := [Operator, PlantManager, HqExec, Quality, Accounting, ExternalViewer, Admin]

  /** `UserRole` has exactly seven distinct values, and `AllRoles` lists each of them once. */
  lemma RolesAreSeven()
    ensures |AllRoles| == 7
    ensures forall i, j :: 0 <= i < j < |AllRoles| ==> AllRoles[i] != AllRoles[j]
    ensures forall r: Role :: r in AllRoles
  {
    forall r: Role ensures r in AllRoles {
      match r
      case Operator => assert AllRoles[0] == r;
      case PlantManager => assert AllRoles[1] == r;
      case HqExec => assert AllRoles[2] == r;
      case Quality => assert AllRoles[3] == r;
      case Accounting => assert AllRoles[4] == r;
      case ExternalViewer => assert AllRoles[5] == r;
      case Admin => assert AllRoles[6] == r;
    }
  }

  /** The wire name of a role. */
  function RoleText(r: Role): string
  {
    match r
    case Operator => "operator"
    case PlantManager => "plant_manager"
    case HqExec => "hq_exec"
    case Quality => "quality"
    case Accounting => "accounting"
    case ExternalViewer => "external_viewer"
    case Admin => "admin"
  }

  // ------------------------------------------------------ enumerations

  datatype AlertSeverity = P1 | P2
  datatype AlertStatus = Open | Ack | Closed
  datatype OilType = Light | Heavy | Residue

  function SeverityText(s: AlertSeverity): string
  {
    match s
    case P1 => "P1"
    case P2 => "P2"
  }

  function StatusText(s: AlertStatus): string
  {
    match s
    case Open => "open"
    case Ack => "ack"
    case Closed => "closed"
  }

  function OilText(o: OilType): string
  {
    match o
    case Light => "light"
    case Heavy => "heavy"
    case Residue => "residue"
  }

  /** The wire names tell the values apart, so a string query parameter selects at most one value. */
  lemma WireNamesAreDistinct()
    ensures forall a: AlertStatus, b: AlertStatus :: StatusText(a) == StatusText(b) ==> a == b
    ensures forall a: AlertSeverity, b: AlertSeverity :: SeverityText(a) == SeverityText(b) ==> a == b
    ensures forall a: OilType, b: OilType :: OilText(a) == OilText(b) ==> a == b
  {
  }

  /** The plant every API route falls back to when the `plantId` parameter is missing. */
  const DefaultPlant: string := "okayama"

  // -------------------------------------------------- permission matrix

  /** The eleven capability keys of a `PERMISSIONS` row. */
  datatype Capability =
    | CanViewDashboard | CanViewAlerts | CanAckAlerts | CanEditThresholds
    | CanViewInventory | CanViewQuality | CanEditQuality | CanViewShipments
    | CanExportData | CanAccessAdmin | CanViewExternal

  const AllCapabilities: seq<Capability> :=
    [ CanViewDashboard, CanViewAlerts, CanAckAlerts, CanEditThresholds,
      CanViewInventory, CanViewQuality, CanEditQuality, CanViewShipments,
      CanExportData, CanAccessAdmin, CanViewExternal ]

  /** One row of `PERMISSIONS`: a boolean for every capability key, none left undefined. */
  datatype PermissionRow = PermissionRow(
    canViewDashboard: bool,
    canViewAlerts: bool,
    canAckAlerts: bool,
    canEditThresholds: bool,
    canViewInventory: bool,
    canViewQuality: bool,
    canEditQuality: bool,
    canViewShipments: bool,
    canExportData: bool,
    canAccessAdmin: bool,
    canViewExternal: bool)

  /** `row[key]`. */
  function Lookup(row: PermissionRow, c: Capability): bool
  {
    match c
    case CanViewDashboard => row.canViewDashboard
    case CanViewAlerts => row.canViewAlerts
    case CanAckAlerts => row.canAckAlerts
    case CanEditThresholds => row.canEditThresholds
    case CanViewInventory => row.canViewInventory
    case CanViewQuality => row.canViewQuality
    case CanEditQuality => row.canEditQuality
    case CanViewShipments => row.canViewShipments
    case CanExportData => row.canExportData
    case CanAccessAdmin => row.canAccessAdmin
    case CanViewExternal => row.canViewExternal
  }

  /** `PERMISSIONS[role]`, the constant table, row by row. */
  function Permissions(r: Role): PermissionRow
  {
    match r
    case Operator =>
      PermissionRow(true, true, true, false, true, false, false, false, false, false, false)
    case PlantManager =>
      PermissionRow(true, true, true, true, true, true, false, true, true, false, false)
    case HqExec =>
      PermissionRow(true, true, false, false, true, true, false, true, true, false, false)
    case Quality =>
      PermissionRow(false, false, false, false, false, true, true, false, true, false, false)
    case Accounting =>
      PermissionRow(false, false, false, false, false, false, false, true, true, false, false)
    case ExternalViewer =>
      PermissionRow(false, false, false, false, false, false, false, false, false, false, true)
    case Admin =>
      PermissionRow(true, true, true, true, true, true, true, true, true, true, true)
  }

  /** `PERMISSIONS[role][key]`, as a matrix `Role × Capability -> bool`. */
  function PermissionsMatrix(r: Role, c: Capability): bool
  {
    Lookup(Permissions(r), c)
  }

  /** `admin` holds every capability, so every other row is contained in admin's. */
  lemma AdminHoldsEverything()
    ensures forall c: Capability :: PermissionsMatrix(Admin, c)
    ensures forall r: Role, c: Capability :: PermissionsMatrix(r, c) ==> PermissionsMatrix(Admin, c)
  {
  }

  /** `external_viewer` holds exactly one capability, `canViewExternal`. */
  lemma ExternalViewerHoldsOnlyExternal()
    ensures forall c: Capability :: PermissionsMatrix(ExternalViewer, c) <==> c == CanViewExternal
  {
  }

  /** `canAccessAdmin` is granted to `admin` and to no other role. */
  lemma OnlyAdminAccessesAdmin()
    ensures forall r: Role :: PermissionsMatrix(r, CanAccessAdmin) <==> r == Admin
  {
  }

  /** `canEditQuality` is held by `quality` and `admin` only. */
  lemma QualityEditors()
    ensures forall r: Role :: PermissionsMatrix(r, CanEditQuality) <==> r == Quality || r == Admin
  {
  }

  /** Alerts may be acknowledged by `operator`, `plant_manager` and `admin`, and by no one else
      (in particular not by `hq_exec`). */
  lemma AlertAcknowledgers()
    ensures forall r: Role :: PermissionsMatrix(r, CanAckAlerts) <==> r in {Operator, PlantManager, Admin}
    ensures !PermissionsMatrix(HqExec, CanAckAlerts)
  {
  }
}
