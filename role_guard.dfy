/** The access evaluator and guard of components/RoleGuard.tsx.

    RoleGuard is typed against a `ROLE_PERMISSIONS` table with sixteen keys
    (`UserPermissions`) that types/index.ts does not define; the only table the
    repository has is `PERMISSIONS`, keyed by the eleven `canX` capabilities.
    The evaluator is therefore modelled over an arbitrary total matrix
    `(Role, K) -> bool`; `Types.PermissionsMatrix` is one instance of it. */
module RoleGuard {
  import opened Wrappers
  import opened Types
  import opened Seqs
  import opened Strings

  /** The sixteen keys of `UserPermissions`, the type of the `requiredPermission` prop. */
  datatype GuardPermission =
    | ViewDashboard | ViewAlerts | AckAlerts | ViewTanks | ManageTanks | ViewQuality
    | ManageQuality | ViewShipments | ManageShipments | ViewLineage | ViewReports
    | ManageUsers | SystemAdmin | ViewFinancial | ManageIntegrations | UploadData

  /** The access decision (`hasAccess`): a required permission is looked up in the matrix and
      the allowed roles are then ignored; otherwise an allowed-role list (even an empty one)
      decides by membership; with neither, access is open. */
  function HasAccess<K>(matrix: (Role, K) -> bool, role: Role,
                        requiredPermission: Option<K>, allowedRoles: Option<seq<Role>>): (granted: bool)
    ensures requiredPermission.Some? ==> (granted <==> matrix(role, requiredPermission.value))
    ensures requiredPermission.None? && allowedRoles.Some? ==> (granted <==> role in allowedRoles.value)
    ensures requiredPermission.None? && allowedRoles.None? ==> granted
  {
    if requiredPermission.Some? then matrix(role, requiredPermission.value)
    else if allowedRoles.Some? then role in allowedRoles.value
    else true
  }

  /** What the guard renders. `AccessDenied` is the red alert; it names the required permission
      and lists the allowed roles whenever those props were given. */
  datatype Rendered<N, K> =
    | Children(children: N)
    | Fallback(fallback: N)
    | AccessDenied(requiredPermission: Option<K>, allowedRoles: Option<seq<Role>>)
    | Nothing

  /** `<RoleGuard>`: `fallback` is `None` when the prop is absent or falsy, `showAlert` is
      `None` when the prop is absent (it then defaults to true). */
  function Guard<N, K>(children: N, requiredPermission: Option<K>, allowedRoles: Option<seq<Role>>,
                       matrix: (Role, K) -> bool, currentUserRole: Role,
                       fallback: Option<N>, showAlert: Option<bool>): (r: Rendered<N, K>)
    ensures HasAccess(matrix, currentUserRole, requiredPermission, allowedRoles) <==> r == Children(children)
    ensures !HasAccess(matrix, currentUserRole, requiredPermission, allowedRoles) && fallback.Some? ==>
              r == Fallback(fallback.value)
    ensures !HasAccess(matrix, currentUserRole, requiredPermission, allowedRoles) && fallback.None? ==>
              r == (if showAlert.GetOr(true) then AccessDenied(requiredPermission, allowedRoles) else Nothing)
  {
    if HasAccess(matrix, currentUserRole, requiredPermission, allowedRoles) then Children(children)
    else if fallback.Some? then Fallback(fallback.value)
    else if showAlert.GetOr(true) then AccessDenied(requiredPermission, allowedRoles)
    else Nothing
  }

  /** `usePermission(permission, userRole)`. */
  function UsePermission<K>(matrix: (Role, K) -> bool, permission: K, userRole: Role): (granted: bool)
    ensures granted == HasAccess(matrix, userRole, Some(permission), None)
    ensures forall roles: Option<seq<Role>> :: granted == HasAccess(matrix, userRole, Some(permission), roles)
  {
    matrix(userRole, permission)
  }

  /** `useRole(userRole).isRole(role)`: the one-role case of `isAnyRole`. */
  function IsRole(userRole: Role, role: Role): (r: bool)
    ensures r <==> IsAnyRole(userRole, [role])
  {
    userRole == role
  }

  /** `useRole(userRole).isAnyRole(roles)`: the guard's allowed-roles branch. */
  function IsAnyRole(userRole: Role, roles: seq<Role>): (r: bool)
    ensures r <==> userRole in roles
    ensures forall m: (Role, Capability) -> bool :: r == HasAccess(m, userRole, None, Some(roles))
  {
    userRole in roles
  }

  /** `getRoleName`: the Japanese display name of every role. */
  function RoleName(r: Role): string
  {
    match r
    case Operator => "オペレーター"
    case PlantManager => "プラント管理者"
    case HqExec => "本社役員"
    case Quality => "品質管理"
    case Accounting => "経理"
    case ExternalViewer => "外部閲覧者"
    case Admin => "システム管理者"
  }

  /** Every role has a display name, and no two roles share one. */
  lemma RoleNamesAreDistinct()
    ensures forall r: Role :: RoleName(r) != ""
    ensures forall a: Role, b: Role :: RoleName(a) == RoleName(b) ==> a == b
  {
  }

  /** `getPermissionName`: the display name of every `UserPermissions` key. */
  function PermissionName(p: GuardPermission): string
  {
    match p
    case ViewDashboard => "ダッシュボード閲覧"
    case ViewAlerts => "アラート閲覧"
    case AckAlerts => "アラート対応"
    case ViewTanks => "タンク状況閲覧"
    case ManageTanks => "タンク管理"
    case ViewQuality => "品質データ閲覧"
    case ManageQuality => "品質データ管理"
    case ViewShipments => "出荷情報閲覧"
    case ManageShipments => "出荷情報管理"
    case ViewLineage => "系譜情報閲覧"
    case ViewReports => "レポート閲覧"
    case ManageUsers => "ユーザー管理"
    case SystemAdmin => "システム管理"
    case ViewFinancial => "財務情報閲覧"
    case ManageIntegrations => "外部連携管理"
    case UploadData => "データアップロード"
  }

  /** No two permission keys share a display name. */
  lemma PermissionNamesAreDistinct()
    ensures forall p: GuardPermission :: PermissionName(p) != ""
    ensures forall p: GuardPermission, q: GuardPermission :: PermissionName(p) == PermissionName(q) ==> p == q
  {
  }

  function RoleNameOf(): Role -> string
  {
    (r: Role) => RoleName(r)
  }

  /** The roles part of the denial alert: display names joined with ", ". */
  function AllowedRolesText(roles: seq<Role>): string
  {
    Join(Map(roles, RoleNameOf()), ", ")
  }

  const DeniedLine: string := "この機能にアクセスする権限がありません。"
  const PermissionLabel: string := "必要な権限: "
  const RolesLabel: string := "許可ロール: "

  /** The text lines of the denial alert: the refusal, then the permission line when a
      permission was required, then the role line when a role list (even an empty one, which
      is truthy) was given. */
  function DenialLines(requiredPermission: Option<GuardPermission>, allowedRoles: Option<seq<Role>>): (lines: seq<string>)
    ensures |lines| == 1 + (if requiredPermission.Some? then 1 else 0) + (if allowedRoles.Some? then 1 else 0)
    ensures lines[0] == DeniedLine
    ensures requiredPermission.Some? ==> lines[1] == PermissionLabel + PermissionName(requiredPermission.value)
    ensures allowedRoles.Some? ==> lines[|lines| - 1] == RolesLabel + AllowedRolesText(allowedRoles.value)
  {
    [DeniedLine]
    + (if requiredPermission.Some? then [PermissionLabel + PermissionName(requiredPermission.value)] else [])
    + (if allowedRoles.Some? then [RolesLabel + AllowedRolesText(allowedRoles.value)] else [])
  }

  /** Read on its commas, the role text gives back each allowed role's name in order, every
      name after the first behind one space. */
  lemma AllowedRolesReadBack(roles: seq<Role>)
    requires |roles| > 0
    ensures var pieces := Split(AllowedRolesText(roles), ',');
      && |pieces| == |roles|
      && pieces[0] == RoleName(roles[0])
      && forall i :: 0 < i < |roles| ==> pieces[i] == " " + RoleName(roles[i])
  {
    var names := Map(roles, RoleNameOf());
    JoinLongSeparator(names, ',', " ");
    assert [','] + " " == ", ";
    var parts := Prefixed(names, " ");
    forall k | 0 <= k < |parts| ensures ',' !in parts[k] {
      RoleNameHasNoComma(roles[k]);
    }
    SplitJoin(parts, ',');
  }

  lemma RoleNameHasNoComma(r: Role)
    ensures ',' !in RoleName(r) && ',' !in " " + RoleName(r)
  {
  }

  /** A non-empty role list is told apart by its text: two alerts that show the same roles
      line were given the same list. */
  lemma AllowedRolesTextIdentifies(a: seq<Role>, b: seq<Role>)
    requires |a| > 0 && |b| > 0
    requires AllowedRolesText(a) == AllowedRolesText(b)
    ensures a == b
  {
    AllowedRolesReadBack(a);
    AllowedRolesReadBack(b);
    var pa, pb := Split(AllowedRolesText(a), ','), Split(AllowedRolesText(b), ',');
    RoleNamesAreDistinct();
    forall i | 0 <= i < |a| ensures a[i] == b[i] {
      if i > 0 {
        assert pa[i][1..] == RoleName(a[i]);
        assert pb[i][1..] == RoleName(b[i]);
      }
    }
  }

  // ------------------------------------- the guard over PERMISSIONS

  /** With the repository's matrix, `admin` passes every permission requirement. */
  lemma AdminPassesEveryPermissionGuard(p: Capability, roles: Option<seq<Role>>)
    ensures HasAccess(PermissionsMatrix, Admin, Some(p), roles)
  {
  }

  /** Sample decisions with the repository's matrix: an operator may acknowledge alerts, quality
      may not open the admin area, an external viewer is not among `[hq_exec, admin]`, and an
      executive may view shipments but not acknowledge alerts. */
  lemma SampleDecisions()
    ensures HasAccess(PermissionsMatrix, Operator, Some(CanAckAlerts), None)
    ensures !HasAccess(PermissionsMatrix, Quality, Some(CanAccessAdmin), None)
    ensures !HasAccess(PermissionsMatrix, ExternalViewer, None, Some([HqExec, Admin]))
    ensures HasAccess(PermissionsMatrix, HqExec, Some(CanViewShipments), None)
    ensures !HasAccess(PermissionsMatrix, HqExec, Some(CanAckAlerts), None)
  {
  }

  /** Widening the allowed-role list never revokes access, and an empty list admits nobody. */
  lemma AllowedRolesMonotone<K>(matrix: (Role, K) -> bool, role: Role, small: seq<Role>, large: seq<Role>)
    requires forall q :: q in small ==> q in large
    ensures HasAccess(matrix, role, None, Some(small)) ==> HasAccess(matrix, role, None, Some(large))
    ensures !HasAccess(matrix, role, None, Some([]))
  {
  }
}
