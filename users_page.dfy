/** app/admin/users/page.tsx: the user list held in component state, the create, update,
    delete and toggle handlers, and the statistics computed from the list. */
module UsersPage {
  import opened Wrappers
  import opened Types
  import opened Seqs
  import RoleGuard

  /** The page's own `User` record; timestamps are integer milliseconds. */
  datatype User = User(
    id: string,
    name: string,
    email: string,
    role: Role,
    plantIds: seq<string>,
    isActive: bool,
    lastLoginTs: Option<int>,
    createdTs: int)

  /** `newUser: Partial<User>` as the create form edits it. */
  datatype UserDraft = UserDraft(
    name: string,
    email: string,
    role: Option<Role>,
    plantIds: Option<seq<string>>,
    isActive: Option<bool>)

  /** The form's reset value. */
  const EmptyDraft: UserDraft := UserDraft("", "", Some(Operator), Some([]), Some(true))

  /** `!newUser.name || !newUser.email || !newUser.role` rejects the draft. */
  predicate DraftIsComplete(d: UserDraft)
  {
    d.name != "" && d.email != "" && d.role.Some?
  }

  /** The user built from a complete draft. `newId` stands for `user-${Date.now()}` and `now` for
      the creation time. `isActive: newUser.isActive || true` is true whatever the draft says. */
  function NewUser(d: UserDraft, newId: string, now: int): (u: User)
    requires DraftIsComplete(d)
    ensures u.id == newId && u.name == d.name && u.email == d.email && u.role == d.role.value
    ensures u.plantIds == d.plantIds.GetOr([])
    ensures u.isActive
    ensures u.lastLoginTs.None? && u.createdTs == now
  {
    User(newId, d.name, d.email, d.role.value, d.plantIds.GetOr([]), d.isActive.GetOr(false) || true, None, now)
  }

  function ReplacingById(edited: User): User -> User
  {
    (u: User) => if u.id == edited.id then edited else u
  }

  function IdIsNot(id: string): User -> bool
  {
    (u: User) => u.id != id
  }

  function HasId(id: string): User -> bool
  {
    (u: User) => u.id == id
  }

  function AnyUser(): User -> bool
  {
    (u: User) => true
  }

  function ToggledIfId(id: string): User -> User
  {
    (u: User) => if u.id == id then u.(isActive := !u.isActive) else u
  }

  /** `users.map(user => user.id === editingUser.id ? editingUser : user)`. */
  function ReplaceById(users: seq<User>, edited: User): (r: seq<User>)
    ensures |r| == |users|
    ensures forall i :: 0 <= i < |users| ==> r[i] == if users[i].id == edited.id then edited else users[i]
  {
    Map(users, ReplacingById(edited))
  }

  /** `users.filter(u => u.id !== userId)`: exactly the users with that id are dropped, each
      other user stays as often as it was there, in order. */
  function RemoveById(users: seq<User>, id: string): (r: seq<User>)
    ensures forall i :: 0 <= i < |r| ==> r[i].id != id && r[i] in users
    ensures forall i :: 0 <= i < |users| && users[i].id != id ==> users[i] in r
    ensures IsSubsequence(r, users)
    ensures |r| == |users| - |Filter(users, HasId(id))|
  {
    FilterIsSubsequence(users, IdIsNot(id));
    FilterCountDisjoint(users, IdIsNot(id), HasId(id), AnyUser());
    FilterKeepsAll(users, AnyUser());
    Filter(users, IdIsNot(id))
  }

  /** `users.map(user => user.id === userId ? { ...user, isActive: !user.isActive } : user)`. */
  function ToggleById(users: seq<User>, id: string): (r: seq<User>)
    ensures |r| == |users|
    ensures forall i :: 0 <= i < |users| ==>
              r[i] == if users[i].id == id then users[i].(isActive := !users[i].isActive) else users[i]
  {
    Map(users, ToggledIfId(id))
  }

  /** Deleting an id that no user has leaves the list as it is. */
  lemma RemoveAbsentIsNoOp(users: seq<User>, id: string)
    requires forall i :: 0 <= i < |users| ==> users[i].id != id
    ensures RemoveById(users, id) == users
  {
    FilterKeepsAll(users, IdIsNot(id));
  }

  /** Toggling the same id twice restores the list. */
  lemma ToggleTwiceRestores(users: seq<User>, id: string)
    ensures ToggleById(ToggleById(users, id), id) == users
  {
  }

  // ------------------------------------------------------------ statistics

  datatype RoleCount = RoleCount(role: Role, roleLabel: string, count: nat)

  datatype UserStats = UserStats(total: nat, active: nat, byRole: seq<RoleCount>)

  function IsActive(): User -> bool
  {
    (u: User) => u.isActive
  }

  function HasRole(r: Role): User -> bool
  {
    (u: User) => u.role == r
  }

  function HasRoleIn(roles: seq<Role>): User -> bool
  {
    (u: User) => u.role in roles
  }

  /** One entry per role of `roles`, in that order. The labels are the `roleLabels` table,
      which is the same table as `getRoleName`. */
  function CountsByRole(users: seq<User>, roles: seq<Role>): (r: seq<RoleCount>)
    ensures |r| == |roles|
    ensures forall i :: 0 <= i < |roles| ==> r[i].role == roles[i] && r[i].count == |Filter(users, HasRole(roles[i]))|
    decreases |roles|
  {
    if roles == [] then []
    else [RoleCount(roles[0], RoleGuard.RoleName(roles[0]), |Filter(users, HasRole(roles[0]))|)]
         + CountsByRole(users, roles[1..])
  }

  function SumCounts(counts: seq<RoleCount>): nat
    decreases |counts|
  {
    if counts == [] then 0 else counts[0].count + SumCounts(counts[1..])
  }

  /** `userStats`: the number of users, how many are active, and per role of the `roleLabels`
      order how many users hold it. */
  function Stats(users: seq<User>): (s: UserStats)
    ensures s.total == |users| && s.active <= s.total
    ensures s.active == |Filter(users, IsActive())|
    ensures |s.byRole| == |AllRoles|
    ensures forall i :: 0 <= i < |AllRoles| ==>
      s.byRole[i].role == AllRoles[i] && s.byRole[i].count <= s.total
  {
    UserStats(|users|, |Filter(users, IsActive())|, CountsByRole(users, AllRoles))
  }

  /** For roles listed without repetition, the per-role counts add up to the number of users
      whose role is listed. */
  lemma {:induction false} CountsAddUp(users: seq<User>, roles: seq<Role>)
    requires forall i, j :: 0 <= i < j < |roles| ==> roles[i] != roles[j]
    ensures SumCounts(CountsByRole(users, roles)) == |Filter(users, HasRoleIn(roles))|
    decreases |roles|
  {
    if roles == [] {
      FilterDropsAll(users, HasRoleIn(roles));
    } else {
      CountsAddUp(users, roles[1..]);
      assert CountsByRole(users, roles)[1..] == CountsByRole(users, roles[1..]);
      assert roles[0] !in roles[1..];
      forall u | u in users ensures HasRoleIn(roles)(u) == (HasRole(roles[0])(u) || HasRoleIn(roles[1..])(u)) {
        assert roles == [roles[0]] + roles[1..];
      }
      FilterCountDisjoint(users, HasRole(roles[0]), HasRoleIn(roles[1..]), HasRoleIn(roles));
    }
  }

  /** `total` is the list length, `active` never exceeds it, there is one count per role in the
      `roleLabels` order, and the per-role counts sum to `total`. */
  lemma StatsAreConsistent(users: seq<User>)
    ensures var s := Stats(users);
      && s.total == |users|
      && s.active <= s.total
      && |s.byRole| == 7
      && (forall i :: 0 <= i < 7 ==> s.byRole[i].role == AllRoles[i])
      && SumCounts(s.byRole) == s.total
  {
    RolesAreSeven();
    CountsAddUp(users, AllRoles);
    FilterKeepsAll(users, HasRoleIn(AllRoles));
  }

  // ---------------------------------------------------------------- state

  /** The page's component state. */
  class UsersPageState {
    var users: seq<User>
    var newUser: UserDraft
    var editingUser: Option<User>
    var isDialogOpen: bool

    constructor (seed: seq<User>)
      ensures users == seed && newUser == EmptyDraft && editingUser == None && !isDialogOpen
    {
      users := seed;
      newUser := EmptyDraft;
      editingUser := None;
      isDialogOpen := false;
    }

    /** `handleCreateUser`: an incomplete draft changes nothing; a complete one appends exactly one
        user, resets the form and closes the dialog. */
    method CreateUser(newId: string, now: int) returns (created: bool)
      modifies this
      ensures created <==> DraftIsComplete(old(newUser))
      ensures !created ==> users == old(users) && newUser == old(newUser) && isDialogOpen == old(isDialogOpen)
      ensures created ==> users == old(users) + [NewUser(old(newUser), newId, now)]
                          && newUser == EmptyDraft && !isDialogOpen
      ensures editingUser == old(editingUser)
    {
      if !DraftIsComplete(newUser) {
        return false;
      }
      var user := NewUser(newUser, newId, now);
      users := users + [user];
      newUser := EmptyDraft;
      isDialogOpen := false;
      created := true;
    }

    /** `handleUpdateUser`: without a user being edited nothing happens; otherwise every user with
        the edited id is replaced, editing ends and the dialog closes. */
    method UpdateUser()
      modifies this
      ensures old(editingUser).None? ==>
                users == old(users) && editingUser == None && isDialogOpen == old(isDialogOpen)
      ensures old(editingUser).Some? ==>
                users == ReplaceById(old(users), old(editingUser).value) && editingUser == None && !isDialogOpen
      ensures newUser == old(newUser)
    {
      if editingUser.None? {
        return;
      }
      users := ReplaceById(users, editingUser.value);
      editingUser := None;
      isDialogOpen := false;
    }

    /** `handleDeleteUser`: removes exactly the users with the id; an absent id changes nothing. */
    method DeleteUser(userId: string)
      modifies this
      ensures users == RemoveById(old(users), userId)
      ensures (forall i :: 0 <= i < |old(users)| ==> old(users)[i].id != userId) ==> users == old(users)
      ensures newUser == old(newUser) && editingUser == old(editingUser) && isDialogOpen == old(isDialogOpen)
    {
      if exists i :: 0 <= i < |users| && users[i].id == userId {
        users := RemoveById(users, userId);
      } else {
        RemoveAbsentIsNoOp(users, userId);
      }
    }

    /** `toggleUserStatus`: flips `isActive` of the users with the id and of no one else. */
    method ToggleUserStatus(userId: string)
      modifies this
      ensures users == ToggleById(old(users), userId)
      ensures newUser == old(newUser) && editingUser == old(editingUser) && isDialogOpen == old(isDialogOpen)
    {
      users := ToggleById(users, userId);
    }
  }
}
