/** The admin panel's in-memory user table: the filtered view, the overview
    counts and the rewrites `handleUserAction` makes (admin_panel.js). */
module UserDirectory {
  import opened Text

  /** A user as the panel holds it. */
  datatype PanelUser = PanelUser(
    id: int, name: string, handle: string, email: string, role: string, status: string,
    lastSeen: string, joined: string, devices: int, aiUsage: int, storageUsed: real)

  /** The search box matches the name, the handle or the e-mail address,
      compared in lower case. */
  predicate MatchesSearch(u: PanelUser, query: string) {
    var q := ToLower(query);
    Contains(ToLower(u.name), q) || Contains(ToLower(u.handle), q) || Contains(ToLower(u.email), q)
  }

  /** A user is shown when the search matches and each filter is `'all'` or
      equal to the user's status or role. */
  predicate Shown(u: PanelUser, query: string, status: string, role: string) {
    MatchesSearch(u, query) && (status == "all" || u.status == status) && (role == "all" || u.role == role)
  }

  /** `filteredUsers`: the users shown, in table order. */
  function FilteredUsers(users: seq<PanelUser>, query: string, status: string, role: string)
    : (r: seq<PanelUser>)
    ensures forall u :: u in r <==> u in users && Shown(u, query, status, role)
    ensures multiset(r) <= multiset(users)
  {
    if users == [] then []
    else
      var rest := FilteredUsers(users[1..], query, status, role);
      assert users == [users[0]] + users[1..];
      if Shown(users[0], query, status, role) then [users[0]] + rest else rest
  }

  /** The filter works user by user: filtering two tables one after the
      other is filtering each; with `FilteredOne` this fixes the result, so the
      shown users keep their table order and their repetitions. */
  lemma {:induction false} FilteredUsersSplits(xs: seq<PanelUser>, ys: seq<PanelUser>,
                                               query: string, status: string, role: string)
    ensures FilteredUsers(xs + ys, query, status, role)
         == FilteredUsers(xs, query, status, role) + FilteredUsers(ys, query, status, role)
  {
    if xs != [] {
      assert (xs + ys)[1..] == xs[1..] + ys;
      FilteredUsersSplits(xs[1..], ys, query, status, role);
    } else {
      assert xs + ys == ys;
    }
  }

  /** A single user is listed iff shown. */
  lemma FilteredOne(u: PanelUser, query: string, status: string, role: string)
    ensures FilteredUsers([u], query, status, role) == if Shown(u, query, status, role) then [u] else []
  {
    assert [u][1..] == [];
  }

  /** An empty search with both filters at `'all'` shows every user. */
  lemma {:induction false} EverythingShown(users: seq<PanelUser>)
    ensures FilteredUsers(users, "", "all", "all") == users
  {
    if users != [] {
      EverythingShown(users[1..]);
      ContainsEmpty(ToLower(users[0].name));
      assert ToLower("") == "";
      assert users == [users[0]] + users[1..];
    }
  }

  /** The two columns the overview counts by. */
  datatype Column = StatusColumn | RoleColumn

  function ColumnOf(u: PanelUser, c: Column): string {
    match c
    case StatusColumn => u.status
    case RoleColumn => u.role
  }

  /** The number of users whose column `c` holds `value`
      (`data.users.filter(u => u.status === value).length` and the role twin). */
  function CountWith(users: seq<PanelUser>, c: Column, value: string): (n: nat)
    ensures n <= |users|
    ensures n == 0 <==> forall i :: 0 <= i < |users| ==> ColumnOf(users[i], c) != value
  {
    if users == [] then 0
    else (if ColumnOf(users[0], c) == value then 1 else 0) + CountWith(users[1..], c, value)
  }

  /** The sum of the users' AI usage. */
  function SumAiUsage(users: seq<PanelUser>): int {
    if users == [] then 0 else users[0].aiUsage + SumAiUsage(users[1..])
  }

  /** The overview counters of `stats` (the storage total is a float sum and
      is not modelled). */
  datatype Stats = Stats(totalUsers: nat, activeUsers: nat, suspendedUsers: nat, totalAIUsage: int, admins: nat)

  function StatsOf(users: seq<PanelUser>): (s: Stats)
    ensures s.totalUsers == |users|
    ensures s.activeUsers == CountWith(users, StatusColumn, "online")
    ensures s.suspendedUsers == CountWith(users, StatusColumn, "suspended")
    ensures s.admins == CountWith(users, RoleColumn, "admin") && s.totalAIUsage == SumAiUsage(users)
    ensures s.activeUsers + s.suspendedUsers <= s.totalUsers
  {
    OnlineAndSuspendedDisjoint(users);
    Stats(|users|, CountWith(users, StatusColumn, "online"), CountWith(users, StatusColumn, "suspended"),
          SumAiUsage(users), CountWith(users, RoleColumn, "admin"))
  }

  /** No user is both online and suspended, so the two counts add up to at
      most the number of users. */
  lemma {:induction false} OnlineAndSuspendedDisjoint(users: seq<PanelUser>)
    ensures CountWith(users, StatusColumn, "online") + CountWith(users, StatusColumn, "suspended") <= |users|
  {
    if users != [] {
      OnlineAndSuspendedDisjoint(users[1..]);
      assert "online" != "suspended";
    }
  }

  /** A count is the length of the table filtered by that status or role
      with the search box empty and the other filter at `'all'`. */
  lemma {:induction false} CountIsFilteredLength(users: seq<PanelUser>, c: Column, value: string)
    requires value != "all"
    ensures CountWith(users, c, value)
         == |FilteredUsers(users, "", if c == StatusColumn then value else "all",
                           if c == RoleColumn then value else "all")|
  {
    if users != [] {
      CountIsFilteredLength(users[1..], c, value);
      ContainsEmpty(ToLower(users[0].name));
      assert ToLower("") == "";
    }
  }

  /** Suspend and activate: the users with the id get the new status, the
      others stay as they are, in the same order. */
  function SetStatusById(users: seq<PanelUser>, id: int, status: string): (r: seq<PanelUser>)
    ensures |r| == |users|
    ensures forall i :: 0 <= i < |users| ==>
      r[i] == if users[i].id == id then users[i].(status := status) else users[i]
  {
    seq(|users|, i requires 0 <= i < |users| =>
      if users[i].id == id then users[i].(status := status) else users[i])
  }

  /** The last status change wins. */
  lemma StatusChangesOverwrite(users: seq<PanelUser>, id: int, first: string, second: string)
    ensures SetStatusById(SetStatusById(users, id, first), id, second) == SetStatusById(users, id, second)
  {
  }

  /** Changing a status changes neither the number of users nor the AI usage
      total. */
  lemma {:induction false} StatusChangeKeepsUsage(users: seq<PanelUser>, id: int, status: string)
    ensures SumAiUsage(SetStatusById(users, id, status)) == SumAiUsage(users)
  {
    if users != [] {
      var r := SetStatusById(users, id, status);
      StatusChangeKeepsUsage(users[1..], id, status);
      assert r[1..] == SetStatusById(users[1..], id, status);
    }
  }

  /** Suspending a user who was online moves one user from the online count
      to the suspended count, when ids are distinct. */
  lemma {:induction false} SuspendMovesCount(users: seq<PanelUser>, k: nat)
    requires k < |users| && users[k].status == "online"
    requires forall j :: 0 <= j < |users| && j != k ==> users[j].id != users[k].id
    ensures var r := SetStatusById(users, users[k].id, "suspended");
      CountWith(r, StatusColumn, "suspended") == CountWith(users, StatusColumn, "suspended") + 1
      && CountWith(r, StatusColumn, "online") + 1 == CountWith(users, StatusColumn, "online")
  {
    var id := users[k].id;
    var r := SetStatusById(users, id, "suspended");
    assert r[1..] == SetStatusById(users[1..], id, "suspended");
    if k == 0 {
      UnchangedWithoutId(users[1..], id, "suspended");
    } else {
      SuspendMovesCount(users[1..], k - 1);
    }
  }

  lemma UnchangedWithoutId(users: seq<PanelUser>, id: int, status: string)
    requires forall j :: 0 <= j < |users| ==> users[j].id != id
    ensures SetStatusById(users, id, status) == users
  {
  }

  /** Delete: every user with the id is dropped, the others stay in order. */
  function RemoveById(users: seq<PanelUser>, id: int): (r: seq<PanelUser>)
    ensures forall u :: u in r <==> u in users && u.id != id
    ensures multiset(r) <= multiset(users)
  {
    if users == [] then []
    else
      var rest := RemoveById(users[1..], id);
      assert users == [users[0]] + users[1..];
      if users[0].id != id then [users[0]] + rest else rest
  }

  /** Delete works user by user: deleting from two tables one after the other
      is deleting from each; with `RemoveOneUser` this fixes the result, so
      the kept users stay in their order and with their repetitions. */
  lemma {:induction false} RemoveByIdSplits(xs: seq<PanelUser>, ys: seq<PanelUser>, id: int)
    ensures RemoveById(xs + ys, id) == RemoveById(xs, id) + RemoveById(ys, id)
  {
    if xs != [] {
      assert (xs + ys)[1..] == xs[1..] + ys;
      RemoveByIdSplits(xs[1..], ys, id);
    } else {
      assert xs + ys == ys;
    }
  }

  /** A single user is kept iff the id differs. */
  lemma RemoveOneUser(u: PanelUser, id: int)
    ensures RemoveById([u], id) == if u.id != id then [u] else []
  {
    assert [u][1..] == [];
  }

  /** Deleting an id that no user has changes nothing. */
  lemma {:induction false} RemoveMissingId(users: seq<PanelUser>, id: int)
    requires forall j :: 0 <= j < |users| ==> users[j].id != id
    ensures RemoveById(users, id) == users
  {
    if users != [] {
      RemoveMissingId(users[1..], id);
      assert users == [users[0]] + users[1..];
    }
  }
}
