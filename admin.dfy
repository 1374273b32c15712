/** The admin page: the user list, the Active/Inactive toggle, the overview
    counts and the role colour table. */
module Admin {
  import opened Seqs
  import opened Types

  function Flipped(st: ActiveStatus): (r: ActiveStatus)
    ensures r != st
  {
    if st == Active then Inactive else Active
  }

  /** One user after a toggle of `id`: only a matching user's status flips. */
  function Toggled(u: User, id: string): (r: User)
    ensures u.id == id ==> r == u.(status := Flipped(u.status))
    ensures u.id != id ==> r == u
  {
    if u.id == id then u.(status := if u.status == Active then Inactive else Active) else u
  }

  /** The list after a toggle of `id`: every user with that id has its status
      flipped, nothing else changes, and length and order stay. */
  function ToggleStatus(users: seq<User>, id: string): (r: seq<User>)
    ensures |r| == |users|
    ensures forall i :: 0 <= i < |users| ==> r[i] == Toggled(users[i], id)
  {
    Map(users, (u: User) => Toggled(u, id))
  }

  /** Toggling the same id twice gives back the original list. */
  lemma ToggleTwiceRestores(users: seq<User>, id: string)
    ensures ToggleStatus(ToggleStatus(users, id), id) == users
  {
    var twice := ToggleStatus(ToggleStatus(users, id), id);
    assert forall i :: 0 <= i < |users| ==> twice[i] == users[i];
  }

  /** Toggling an id no user has changes nothing. */
  lemma ToggleAbsentIsNoOp(users: seq<User>, id: string)
    requires forall i :: 0 <= i < |users| ==> users[i].id != id
    ensures ToggleStatus(users, id) == users
  {
  }

  predicate UniqueUserIds(users: seq<User>) {
    forall i, j :: 0 <= i < j < |users| ==> users[i].id != users[j].id
  }

  predicate IsActive(u: User) {
    u.status == Active
  }

  /** `data.filter(u => u.status === 'Active').length`: the number of
      positions holding an Active user. */
  function ActiveCount(users: seq<User>): (n: nat)
    ensures n == |set i | 0 <= i < |users| && users[i].status == Active|
    ensures n <= |users|
  {
    FilterLengthCountsPositions(users, IsActive);
    assert Positions(users, IsActive) == set i | 0 <= i < |users| && users[i].status == Active by {
      forall i | 0 <= i < |users| ensures IsActive(users[i]) == (users[i].status == Active) { }
    }
    |Filter(users, IsActive)|
  }

  /** `data.filter(u => u.role === 'Admin').length`: the number of positions
      holding an Admin. */
  function AdminCount(users: seq<User>): (n: nat)
    ensures n == |set i | 0 <= i < |users| && users[i].role == Admin|
    ensures n <= |users|
  {
    var admin := (u: User) => u.role == Admin;
    FilterLengthCountsPositions(users, admin);
    assert Positions(users, admin) == set i | 0 <= i < |users| && users[i].role == Admin by {
      forall i | 0 <= i < |users| ensures admin(users[i]) == (users[i].role == Admin) { }
    }
    |Filter(users, admin)|
  }

  lemma ActiveFilterUnfold(users: seq<User>)
    requires users != []
    ensures |Filter(users, IsActive)| == (if users[0].status == Active then 1 else 0) + |Filter(users[1..], IsActive)|
  {
  }

  lemma ToggleUnfold(users: seq<User>, id: string)
    requires users != []
    ensures ToggleStatus(users, id) == [Toggled(users[0], id)] + ToggleStatus(users[1..], id)
  {
    var t := ToggleStatus(users, id);
    var rest := ToggleStatus(users[1..], id);
    assert forall i :: 0 <= i < |rest| ==> rest[i] == Toggled(users[i + 1], id);
    assert t == [Toggled(users[0], id)] + rest;
  }

  /** The induction behind `ToggleMovesActiveCountByOne`, on the filtered lists. */
  lemma {:induction false} ToggleMovesActiveFilterByOne(users: seq<User>, k: nat)
    requires UniqueUserIds(users) && k < |users|
    ensures |Filter(ToggleStatus(users, users[k].id), IsActive)|
            == if users[k].status == Active then |Filter(users, IsActive)| - 1 else |Filter(users, IsActive)| + 1
  {
    var id := users[k].id;
    var t := ToggleStatus(users, id);
    ToggleUnfold(users, id);
    assert t[0] == Toggled(users[0], id) && t[1..] == ToggleStatus(users[1..], id);
    ActiveFilterUnfold(users);
    ActiveFilterUnfold(t);
    if k == 0 {
      assert forall i :: 0 <= i < |users[1..]| ==> users[1..][i].id != id by {
        forall i | 0 <= i < |users[1..]| ensures users[1..][i].id != id {
          assert users[1..][i] == users[i + 1];
        }
      }
      ToggleAbsentIsNoOp(users[1..], id);
    } else {
      assert users[1..][k - 1] == users[k];
      assert UniqueUserIds(users[1..]) by {
        forall i, j | 0 <= i < j < |users[1..]| ensures users[1..][i].id != users[1..][j].id {
          assert users[1..][i] == users[i + 1] && users[1..][j] == users[j + 1];
        }
      }
      ToggleMovesActiveFilterByOne(users[1..], k - 1);
    }
  }

  /** With unique ids, toggling a present user moves the active count by
      exactly one: down if the user was Active, up otherwise. */
  lemma ToggleMovesActiveCountByOne(users: seq<User>, k: nat)
    requires UniqueUserIds(users) && k < |users|
    ensures ActiveCount(ToggleStatus(users, users[k].id))
            == if users[k].status == Active then ActiveCount(users) - 1 else ActiveCount(users) + 1
  {
    ToggleMovesActiveFilterByOne(users, k);
  }

  /** The three overview cards. */
  datatype Overview = Overview(totalUsers: nat, activeUsers: nat, adminUsers: nat)

  function OverviewOf(users: seq<User>): (o: Overview)
    ensures o.totalUsers == |users|
    ensures o.activeUsers == ActiveCount(users) && o.adminUsers == AdminCount(users)
    ensures o.activeUsers <= o.totalUsers && o.adminUsers <= o.totalUsers
  {
    Overview(|users|, ActiveCount(users), AdminCount(users))
  }

  /** The toast after a toggle, chosen from the status the row showed before it. */
  function ToastMessage(user: User): (msg: string)
    ensures msg == "User deactivated" <==> user.status == Active
    ensures msg == "User activated" <==> user.status != Active
  {
    "User " + (if user.status == Active then "deactivated" else "activated")
  }

  const ROLE_COLORS: map<string, string> := map[
    "Admin" := "bg-red-100 text-red-800",
    "Technical Director" := "bg-blue-100 text-blue-800",
    "Reviewer" := "bg-green-100 text-green-800",
    "User" := "bg-gray-100 text-gray-800"
  ]

  /** Every role has a colour, and the table has no other keys. */
  lemma RoleColorsCoverRoles()
    ensures forall r: Role :: r.Label() in ROLE_COLORS
    ensures |ROLE_COLORS| == 4
  {
    assert ROLE_COLORS.Keys == {"Admin", "Technical Director", "Reviewer", "User"};
  }

  class AdminPage {
    var data: seq<User>

    constructor (initial: seq<User>)
      ensures data == initial
    {
      data := initial;
    }

    function Cards(): (o: Overview)
      reads this
      ensures o.totalUsers == |data|
      ensures o.activeUsers == ActiveCount(data) && o.adminUsers == AdminCount(data)
      ensures o.activeUsers <= o.totalUsers && o.adminUsers <= o.totalUsers
    {
      OverviewOf(data)
    }

    /** The row's toggle action: the list is replaced by its toggled copy and
        the toast names what happened to `user`. */
    method HandleToggleStatus(user: User) returns (toast: string)
      modifies this
      ensures data == ToggleStatus(old(data), user.id)
      ensures toast == ToastMessage(user)
      ensures UniqueUserIds(old(data)) && user in old(data) ==>
        Cards().activeUsers == if user.status == Active then old(Cards().activeUsers) - 1 else old(Cards().activeUsers) + 1
    {
      if UniqueUserIds(data) && user in data {
        var k :| 0 <= k < |data| && data[k] == user;
        ToggleMovesActiveCountByOne(data, k);
      }
      data := ToggleStatus(data, user.id);
      toast := ToastMessage(user);
    }
  }
}
