/** The record tables of the dashboard document and the endpoints that change
    them: `_next_id`, `_add_log_entry`, and the user and invite handlers of
    server.py. Records are typed here; the document holds them as JSON
    objects with these fields. */
module DashboardStore {
  import opened Wrappers

  /** What the clock contributes: a day number for `joined` and the invite
      expiry, and the rendered timestamp of a log entry. */
  datatype Clock = Clock(day: int, stamp: string)

  datatype User = User(
    id: int, name: string, handle: string, email: string, role: string, status: string,
    lastSeen: string, joined: int, devices: int, aiUsage: int, storageUsed: real)

  datatype Invite = Invite(
    id: int, code: string, createdBy: string, uses: int, maxUses: int, expiresAt: int, status: string)

  datatype LogEntry = LogEntry(
    id: int, timestamp: string, user: string, action: string, ip: string, status: string)

  /** The body of `POST /api/users` (`UserCreate`). */
  datatype UserCreate = UserCreate(name: string, handle: string, email: string, role: string)

  /** The fields a `PATCH /api/users/{id}` body sets (`UserUpdate` with
      `exclude_unset`); `None` is a field the body leaves out. */
  datatype UserUpdate = UserUpdate(
    name: Option<string>, handle: Option<string>, email: Option<string>, role: Option<string>,
    status: Option<string>, lastSeen: Option<string>, devices: Option<int>, aiUsage: Option<int>,
    storageUsed: Option<real>)

  /** A handler's answer: its value, or the `HTTPException` it raises. */
  datatype Outcome<T> = Done(value: T) | Refused(code: int, detail: string)

  /** The log keeps the newest 200 entries. */
  const LogCap: nat := 200

  /** The ids of a table, in table order, read by `idOf`. */
  function Ids<T>(items: seq<T>, idOf: T -> int): (r: seq<int>)
    ensures |r| == |items| && forall i :: 0 <= i < |items| ==> r[i] == idOf(items[i])
  {
    seq(|items|, i requires 0 <= i < |items| => idOf(items[i]))
  }

  const UserId: User -> int := (u: User) => u.id
  const InviteId: Invite -> int := (v: Invite) => v.id
  const LogId: LogEntry -> int := (e: LogEntry) => e.id

  /** `_next_id(items)`: one more than the largest id, or 1 for no items. */
  function NextId(ids: seq<int>): (r: int)
    ensures forall i :: 0 <= i < |ids| ==> ids[i] < r
    ensures ids == [] ==> r == 1
    ensures ids != [] ==> r - 1 in ids
  {
    if ids == [] then 1
    else
      var rest := NextId(ids[1..]);
      if ids[1..] == [] || ids[0] >= rest - 1 then
        assert ids[0] in ids;
        ids[0] + 1
      else
        assert rest - 1 in ids[1..];
        rest
  }

  /** No id occurs twice. */
  predicate DistinctIds(ids: seq<int>) {
    forall i, j :: 0 <= i < j < |ids| ==> ids[i] != ids[j]
  }

  /** Adding an item with the next id keeps the ids distinct. */
  lemma NextIdKeepsDistinct(ids: seq<int>)
    requires DistinctIds(ids)
    ensures DistinctIds(ids + [NextId(ids)])
  {
    var all := ids + [NextId(ids)];
    forall i, j | 0 <= i < j < |all| ensures all[i] != all[j] {
      if j == |ids| {
        assert all[i] == ids[i];
      } else {
        assert all[i] == ids[i] && all[j] == ids[j];
      }
    }
  }

  /** `items.insert(0, entry); items = items[:cap]`. */
  function PrependCapped<T>(entry: T, items: seq<T>, cap: nat): (r: seq<T>)
    requires cap > 0
    ensures |r| == if |items| + 1 <= cap then |items| + 1 else cap
    ensures r[0] == entry
    ensures forall i :: 1 <= i < |r| ==> r[i] == items[i - 1]
  {
    ([entry] + items)[..if |items| + 1 <= cap then |items| + 1 else cap]
  }

  /** The log lists its entries newest first: ids strictly fall. */
  predicate NewestFirst(logs: seq<LogEntry>) {
    forall i :: 0 < i < |logs| ==> logs[i - 1].id > logs[i].id
  }

  /** A log entry with the next id goes in front of a newest-first log and
      the log stays newest first. */
  lemma AddLogKeepsNewestFirst(logs: seq<LogEntry>, entry: LogEntry)
    requires NewestFirst(logs)
    requires entry.id == NextId(Ids(logs, LogId))
    ensures NewestFirst(PrependCapped(entry, logs, LogCap))
  {
    var r := PrependCapped(entry, logs, LogCap);
    forall i | 0 < i < |r| ensures r[i - 1].id > r[i].id {
      if i == 1 {
        assert r[1] == logs[0] && Ids(logs, LogId)[0] == logs[0].id;
      } else {
        assert r[i - 1] == logs[i - 2] && r[i] == logs[i - 1];
      }
    }
  }

  /** The index of the first item with id `id`, or `|ids|` when none has it
      (`next(u for u in users if u["id"] == user_id)` and the `enumerate`
      loops). */
  function FirstIndex(ids: seq<int>, id: int): (k: nat)
    ensures k <= |ids|
    ensures k < |ids| ==> ids[k] == id
    ensures forall j :: 0 <= j < k ==> ids[j] != id
    ensures k == |ids| <==> id !in ids
  {
    if ids == [] then 0
    else if ids[0] == id then 0
    else 1 + FirstIndex(ids[1..], id)
  }

  /** The search loop that finds the first item with a given id. */
  method FindById(ids: seq<int>, id: int) returns (k: nat)
    ensures k == FirstIndex(ids, id)
  {
    k := 0;
    while k < |ids| && ids[k] != id
      invariant k <= |ids|
      invariant forall j :: 0 <= j < k ==> ids[j] != id
    {
      k := k + 1;
    }
    FirstIndexUnique(ids, id, k);
  }

  /** The first index is the only index that is matched with no match before it. */
  lemma {:induction false} FirstIndexUnique(ids: seq<int>, id: int, k: nat)
    requires k <= |ids| && (k < |ids| ==> ids[k] == id)
    requires forall j :: 0 <= j < k ==> ids[j] != id
    ensures k == FirstIndex(ids, id)
  {
    if ids != [] && ids[0] != id {
      FirstIndexUnique(ids[1..], id, k - 1);
    }
  }

  /** `items.pop(k)`: the item at `k` gone, the others in order. */
  function RemoveAt<T>(items: seq<T>, k: nat): (r: seq<T>)
    requires k < |items|
    ensures |r| == |items| - 1
    ensures forall j :: 0 <= j < k ==> r[j] == items[j]
    ensures forall j :: k <= j < |r| ==> r[j] == items[j + 1]
    ensures multiset(r) + multiset{items[k]} == multiset(items)
  {
    assert items == items[..k] + [items[k]] + items[k + 1..];
    items[..k] + items[k + 1..]
  }

  /** Removing an item keeps the ids of the rest distinct, and with distinct
      ids removing the first match removes the id altogether. */
  lemma RemoveFirstClearsId<T>(items: seq<T>, idOf: T -> int, id: int)
    requires DistinctIds(Ids(items, idOf))
    requires id in Ids(items, idOf)
    ensures var r := Ids(RemoveAt(items, FirstIndex(Ids(items, idOf), id)), idOf);
      id !in r && DistinctIds(r)
  {
    var ids := Ids(items, idOf);
    var k := FirstIndex(ids, id);
    var r := Ids(RemoveAt(items, k), idOf);
    forall j | 0 <= j < |r| ensures r[j] != id && r[j] == ids[if j < k then j else j + 1] {
      if j >= k {
        assert r[j] == ids[j + 1] && ids[k] == id;
      }
    }
  }

  /** The entry `create_user` appends. */
  function NewUser(id: int, request: UserCreate, today: int): (u: User)
    ensures u.id == id && u.name == request.name && u.handle == request.handle && u.email == request.email
    ensures u.role == (if request.role == "" then "user" else request.role) && u.role != ""
    ensures u.status == "online" && u.lastSeen == "Just now" && u.joined == today
    ensures u.devices == 0 && u.aiUsage == 0 && u.storageUsed == 0.0
  {
    User(id, request.name, request.handle, request.email,
         if request.role == "" then "user" else request.role,
         "online", "Just now", today, 0, 0, 0.0)
  }

  /** The update sets no field at all (`if not updates`). */
  predicate EmptyUpdate(u: UserUpdate) {
    u.name.None? && u.handle.None? && u.email.None? && u.role.None? && u.status.None?
    && u.lastSeen.None? && u.devices.None? && u.aiUsage.None? && u.storageUsed.None?
  }

  /** `user.update(updates)`: each field the body sets is replaced. */
  function ApplyUpdate(user: User, u: UserUpdate): (r: User)
    ensures r.id == user.id && r.joined == user.joined
    ensures r.name == u.name.GetOr(user.name) && r.handle == u.handle.GetOr(user.handle)
    ensures r.email == u.email.GetOr(user.email) && r.role == u.role.GetOr(user.role)
    ensures r.status == u.status.GetOr(user.status) && r.lastSeen == u.lastSeen.GetOr(user.lastSeen)
    ensures r.devices == u.devices.GetOr(user.devices) && r.aiUsage == u.aiUsage.GetOr(user.aiUsage)
    ensures r.storageUsed == u.storageUsed.GetOr(user.storageUsed)
    ensures EmptyUpdate(u) ==> r == user
  {
    user.(name := u.name.GetOr(user.name), handle := u.handle.GetOr(user.handle),
          email := u.email.GetOr(user.email), role := u.role.GetOr(user.role),
          status := u.status.GetOr(user.status), lastSeen := u.lastSeen.GetOr(user.lastSeen),
          devices := u.devices.GetOr(user.devices), aiUsage := u.aiUsage.GetOr(user.aiUsage),
          storageUsed := u.storageUsed.GetOr(user.storageUsed))
  }

  /** Applying the same update twice is applying it once. */
  lemma ApplyUpdateIdempotent(user: User, u: UserUpdate)
    ensures ApplyUpdate(ApplyUpdate(user, u), u) == ApplyUpdate(user, u)
  {
  }

  /** The entry `create_invite` appends. */
  function NewInvite(id: int, code: string, createdBy: string, maxUses: int, expiresDays: int, today: int)
    : (v: Invite)
    ensures v.id == id && v.code == code && v.createdBy == createdBy && v.maxUses == maxUses
    ensures v.uses == 0 && v.status == "active"
    ensures v.expiresAt == today + (if expiresDays < 1 then 1 else expiresDays) && v.expiresAt > today
  {
    Invite(id, code, createdBy, 0, maxUses, today + if expiresDays < 1 then 1 else expiresDays, "active")
  }

  /** The record tables of `dashboard_state` and the profile handle that
      signs new invites (`None` when the profile has no `handle`). */
  class Store {
    var users: seq<User>
    var invites: seq<Invite>
    var logs: seq<LogEntry>
    var profileHandle: Option<string>

    /** What the endpoints keep: user ids and invite ids stay distinct, and
        the log holds at most 200 entries, newest first. A loaded document
        need not satisfy it; once it does, every endpoint keeps it. */
    predicate Valid()
      reads this
    {
      DistinctIds(Ids(users, UserId)) && DistinctIds(Ids(invites, InviteId))
      && NewestFirst(logs) && |logs| <= LogCap
    }

    constructor (users0: seq<User>, invites0: seq<Invite>, logs0: seq<LogEntry>, handle: Option<string>)
      ensures users == users0 && invites == invites0 && logs == logs0 && profileHandle == handle
    {
      users := users0;
      invites := invites0;
      logs := logs0;
      profileHandle := handle;
    }

    /** `_add_log_entry(action, user, status)`. */
    method AddLogEntry(action: string, user: string, status: string, clock: Clock)
      modifies this
      ensures logs == PrependCapped(LogEntry(NextId(Ids(old(logs), LogId)), clock.stamp, user, action, "localhost", status),
                                    old(logs), LogCap)
      ensures |logs| <= LogCap && logs[0].action == action
      ensures NewestFirst(old(logs)) ==> NewestFirst(logs)
      ensures users == old(users) && invites == old(invites) && profileHandle == old(profileHandle)
    {
      var entry := LogEntry(NextId(Ids(logs, LogId)), clock.stamp, user, action, "localhost", status);
      if NewestFirst(logs) {
        AddLogKeepsNewestFirst(logs, entry);
      }
      logs := [entry] + logs;
      logs := logs[..if |logs| <= LogCap then |logs| else LogCap];
    }

    /** `create_user(user)`. */
    method CreateUser(request: UserCreate, clock: Clock) returns (entry: User)
      modifies this
      ensures entry == NewUser(NextId(Ids(old(users), UserId)), request, clock.day)
      ensures entry.id !in Ids(old(users), UserId)
      ensures users == old(users) + [entry]
      ensures logs == PrependCapped(LogEntry(NextId(Ids(old(logs), LogId)), clock.stamp, request.handle,
                                             "User created: " + request.handle, "localhost", "success"),
                                    old(logs), LogCap)
      ensures invites == old(invites) && profileHandle == old(profileHandle)
      ensures old(Valid()) ==> Valid()
    {
      entry := NewUser(NextId(Ids(users, UserId)), request, clock.day);
      if DistinctIds(Ids(users, UserId)) {
        NextIdKeepsDistinct(Ids(users, UserId));
      }
      assert Ids(users + [entry], UserId) == Ids(users, UserId) + [entry.id];
      users := users + [entry];
      AddLogEntry("User created: " + request.handle, request.handle, "success", clock);
    }

    /** `modify_user(user_id, user_update)`. */
    method ModifyUser(userId: int, update: UserUpdate, clock: Clock) returns (result: Outcome<User>)
      modifies this
      ensures EmptyUpdate(update) ==> result == Refused(400, "No changes provided") && unchanged(this)
      ensures !EmptyUpdate(update) && userId !in Ids(old(users), UserId) ==>
        result == Refused(404, "User not found") && unchanged(this)
      ensures !EmptyUpdate(update) && userId in Ids(old(users), UserId) ==>
        var k := FirstIndex(Ids(old(users), UserId), userId);
        var changed := ApplyUpdate(old(users)[k], update);
        result == Done(changed)
        && users == old(users)[k := changed]
        && logs == PrependCapped(LogEntry(NextId(Ids(old(logs), LogId)), clock.stamp, changed.handle,
                                          "User updated: " + changed.handle, "localhost", "success"),
                                 old(logs), LogCap)
        && invites == old(invites) && profileHandle == old(profileHandle)
      ensures old(Valid()) ==> Valid()
    {
      if EmptyUpdate(update) {
        return Refused(400, "No changes provided");
      }
      var k := FindById(Ids(users, UserId), userId);
      if k == |users| {
        return Refused(404, "User not found");
      }
      var changed := ApplyUpdate(users[k], update);
      assert Ids(users[k := changed], UserId) == Ids(users, UserId);
      users := users[k := changed];
      AddLogEntry("User updated: " + changed.handle, changed.handle, "success", clock);
      return Done(changed);
    }

    /** `remove_user(user_id)`. */
    method RemoveUser(userId: int, clock: Clock) returns (result: Outcome<User>)
      modifies this
      ensures userId !in Ids(old(users), UserId) ==> result == Refused(404, "User not found") && unchanged(this)
      ensures userId in Ids(old(users), UserId) ==>
        var k := FirstIndex(Ids(old(users), UserId), userId);
        result == Done(old(users)[k])
        && users == RemoveAt(old(users), k)
        && logs == PrependCapped(LogEntry(NextId(Ids(old(logs), LogId)), clock.stamp, "system",
                                          "User deleted: " + old(users)[k].handle, "localhost", "success"),
                                 old(logs), LogCap)
        && invites == old(invites) && profileHandle == old(profileHandle)
      ensures old(Valid()) ==> Valid()
    {
      var k := FindById(Ids(users, UserId), userId);
      if k == |users| {
        return Refused(404, "User not found");
      }
      if DistinctIds(Ids(users, UserId)) {
        RemoveFirstClearsId(users, UserId, userId);
      }
      var deleted := users[k];
      users := RemoveAt(users, k);
      AddLogEntry("User deleted: " + deleted.handle, "system", "success", clock);
      return Done(deleted);
    }

    /** `create_invite(invite)`; `code` is the random `_generate_invite_code()`. */
    method CreateInvite(maxUses: int, expiresDays: int, code: string, clock: Clock) returns (entry: Invite)
      modifies this
      ensures entry == NewInvite(NextId(Ids(old(invites), InviteId)), code, old(profileHandle).GetOr("system"),
                                 maxUses, expiresDays, clock.day)
      ensures entry.id !in Ids(old(invites), InviteId)
      ensures invites == old(invites) + [entry]
      ensures logs == PrependCapped(LogEntry(NextId(Ids(old(logs), LogId)), clock.stamp, "system",
                                             "Invite created: " + code, "localhost", "success"),
                                    old(logs), LogCap)
      ensures users == old(users) && profileHandle == old(profileHandle)
      ensures old(Valid()) ==> Valid()
    {
      entry := NewInvite(NextId(Ids(invites, InviteId)), code, profileHandle.GetOr("system"),
                         maxUses, expiresDays, clock.day);
      if DistinctIds(Ids(invites, InviteId)) {
        NextIdKeepsDistinct(Ids(invites, InviteId));
      }
      assert Ids(invites + [entry], InviteId) == Ids(invites, InviteId) + [entry.id];
      invites := invites + [entry];
      AddLogEntry("Invite created: " + code, "system", "success", clock);
    }

    /** `delete_invite(invite_id)`. */
    method DeleteInvite(inviteId: int, clock: Clock) returns (result: Outcome<Invite>)
      modifies this
      ensures inviteId !in Ids(old(invites), InviteId) ==> result == Refused(404, "Invite not found") && unchanged(this)
      ensures inviteId in Ids(old(invites), InviteId) ==>
        var k := FirstIndex(Ids(old(invites), InviteId), inviteId);
        result == Done(old(invites)[k])
        && invites == RemoveAt(old(invites), k)
        && logs == PrependCapped(LogEntry(NextId(Ids(old(logs), LogId)), clock.stamp, "system",
                                          "Invite deleted: " + old(invites)[k].code, "localhost", "success"),
                                 old(logs), LogCap)
        && users == old(users) && profileHandle == old(profileHandle)
      ensures old(Valid()) ==> Valid()
    {
      var k := FindById(Ids(invites, InviteId), inviteId);
      if k == |invites| {
        return Refused(404, "Invite not found");
      }
      if DistinctIds(Ids(invites, InviteId)) {
        RemoveFirstClearsId(invites, InviteId, inviteId);
      }
      var removed := invites[k];
      invites := RemoveAt(invites, k);
      AddLogEntry("Invite deleted: " + removed.code, "system", "success", clock);
      return Done(removed);
    }
  }
}
