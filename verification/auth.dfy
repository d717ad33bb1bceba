/**
 Devices and their login sessions. One identifier stands for a row and for the token its cookie carries;
 a cookie whose signature does not verify is absent.
 */
module Auth {
  import opened Basics
  import opened Ordering
  import opened Text

  const DAY := 24 * 3600 * 1_000_000_000
  const RETENTION := DAY
  const STALE_AGE := 90 * DAY
  const CLEANUP_LIMIT := 128

  datatype Device = Device(createdAt: int, lastSeen: int, blockedAt: Option<int>)

  datatype Session = Session(device: Id, createdAt: int, lastSeen: int, expiresAt: int, revokedAt: Option<int>)

  type Devices = map<Id, Device>
  type Sessions = map<Id, Session>

  datatype Error =
    | PasswordNotSet | PasswordRequired | InvalidPassword | InvalidSession
    | SessionExpired | SessionRevoked | DeviceBlocked | DeviceNotFound

  datatype Tables = Tables(devices: Devices, sessions: Sessions)

  datatype Contents = Contents(password: Option<string>, t: Tables)

  function Verify(password: Option<string>, attempt: string): Option<Error> {
    if password.None? then Some(PasswordNotSet) else if password.value != attempt then Some(InvalidPassword) else None
  }

  function Revoked(s: Session, now: int): Session {
    if s.revokedAt.Some? then s else s.(revokedAt := Some(now))
  }

  function RevokeAll(sessions: Sessions, now: int): Sessions {
    map id | id in sessions :: Revoked(sessions[id], now)
  }

  function RevokeDevice(sessions: Sessions, device: Id, now: int): Sessions {
    map id | id in sessions :: if sessions[id].device == device then Revoked(sessions[id], now) else sessions[id]
  }

  predicate Blocked(devices: Devices, id: Id) {
    id in devices && devices[id].blockedAt.Some?
  }

  // The device of a login: the one its cookie names, or a new one.
  function LoginDevice(t: Tables, cookie: Option<Id>, newId: Id): Id {
    if cookie.Some? && cookie.value in t.devices then cookie.value else newId
  }

  // The transaction of a login whose password was right.
  function Issue(t: Tables, cookie: Option<Id>, newDevice: Id, newSession: Id, ttl: int, now: int): Result<Tables, Error> {
    var id := LoginDevice(t, cookie, newDevice);
    if Blocked(t.devices, id) then Err(DeviceBlocked) else
    var device := if id in t.devices then t.devices[id].(lastSeen := now) else Device(now, now, None);
    var expires := now + if ttl <= 0 then DAY else ttl;
    Ok(Tables(t.devices[id := device], t.sessions[newSession := Session(id, now, now, expires, None)]))
  }

  // What an authentication reads: the device of the session, or the first thing wrong with it.
  function Authenticate(t: Tables, cookie: Option<Id>, now: int): Result<Id, Error> {
    if cookie.None? || cookie.value !in t.sessions then Err(InvalidSession) else
    var s := t.sessions[cookie.value];
    if s.device !in t.devices then Err(InvalidSession)
    else if t.devices[s.device].blockedAt.Some? then Err(DeviceBlocked)
    else if s.revokedAt.Some? then Err(SessionRevoked)
    else if s.expiresAt <= now then Err(SessionExpired)
    else Ok(s.device)
  }

  function TouchSession(t: Tables, id: Id, now: int): Tables {
    if id in t.sessions then t.(sessions := t.sessions[id := t.sessions[id].(lastSeen := now)]) else t
  }

  function TouchDevice(t: Tables, id: Id, now: int): Tables {
    if id in t.devices then t.(devices := t.devices[id := t.devices[id].(lastSeen := now)]) else t
  }

  function OpenSessions(sessions: Sessions, device: Id): set<Id> {
    set id | id in sessions && sessions[id].device == device && sessions[id].revokedAt.None?
  }

  function Logout(sessions: Sessions, cookie: Option<Id>, now: int): Sessions {
    if cookie.None? || cookie.value !in sessions then sessions
    else sessions[cookie.value := Revoked(sessions[cookie.value], now)]
  }

  function Block(t: Tables, device: Id, now: int): Result<Tables, Error> {
    if device !in t.devices then Err(DeviceNotFound) else
    var row := t.devices[device];
    Ok(Tables(if row.blockedAt.Some? then t.devices else t.devices[device := row.(blockedAt := Some(now))],
              RevokeDevice(t.sessions, device, now)))
  }

  function Unblock(t: Tables, device: Id): Result<Tables, Error> {
    if device !in t.devices then Err(DeviceNotFound)
    else Ok(t.(devices := t.devices[device := t.devices[device].(blockedAt := None)]))
  }

  /// Cleanup: the oldest rows that are due, at most the limit of them

  predicate SessionDue(s: Session, now: int) {
    (s.revokedAt.Some? && s.revokedAt.value <= now - RETENTION) || s.expiresAt <= now - RETENTION
  }

  function SessionAge(s: Session): int {
    if s.revokedAt.Some? then s.revokedAt.value else s.expiresAt
  }

  predicate DeviceDue(t: Tables, id: Id, now: int)
    requires id in t.devices
  {
    t.devices[id].blockedAt.None? && t.devices[id].lastSeen < now - STALE_AGE
    && forall s :: s in t.sessions ==> t.sessions[s].device != id
  }

  // `picked` are the oldest of `due`, as many as the limit allows; rows of one age may go in any order.
  ghost predicate Oldest(due: set<Id>, age: map<Id, int>, picked: set<Id>)
    requires due <= age.Keys
  {
    && picked <= due
    && |picked| == (if |due| <= CLEANUP_LIMIT then |due| else CLEANUP_LIMIT)
    && forall p, r :: p in picked && r in due && r !in picked ==> age[p] <= age[r]
  }

  function DueSessions(t: Tables, now: int): set<Id> {
    set id | id in t.sessions && SessionDue(t.sessions[id], now)
  }

  function DueDevices(t: Tables, now: int): set<Id> {
    set id | id in t.devices && DeviceDue(t, id, now)
  }

  ghost predicate SessionsCleaned(t: Tables, next: Tables, now: int) {
    exists gone :: Oldest(DueSessions(t, now), SessionAges(t), gone) && next == t.(sessions := t.sessions - gone)
  }

  ghost predicate DevicesCleaned(t: Tables, next: Tables, now: int) {
    exists gone :: Oldest(DueDevices(t, now), DeviceAges(t), gone) && next == t.(devices := t.devices - gone)
  }

  function SessionAges(t: Tables): map<Id, int> {
    map id | id in t.sessions :: SessionAge(t.sessions[id])
  }

  function DeviceAges(t: Tables): map<Id, int> {
    map id | id in t.devices :: t.devices[id].lastSeen
  }

  ghost predicate CleanedUp(t: Tables, next: Tables, now: int) {
    exists mid :: SessionsCleaned(t, mid, now) && DevicesCleaned(mid, next, now)
  }

  function Older(age: map<Id, int>): (Id, Id) -> bool {
    (a, b) =>
      var x := if a in age then age[a] else 0;
      var y := if b in age then age[b] else 0;
      x < y || (x == y && a < b)
  }

  // Everything picked is at least as old as everything left.
  ghost predicate Divides(age: map<Id, int>, picked: set<Id>, rest: set<Id>)
    requires picked <= age.Keys && rest <= age.Keys
  {
    forall p, r :: p in picked && r in rest ==> age[p] <= age[r]
  }

  lemma OldestIsLeast(age: map<Id, int>, rest: set<Id>, m: Id)
    requires rest <= age.Keys && IsLeast(Older(age), m, rest)
    ensures forall r :: r in rest ==> age[m] <= age[r]
  {
  }

  lemma OlderTotal(age: map<Id, int>)
    ensures StrictTotal(Older(age))
  {
  }

  lemma Picked(due: set<Id>, age: map<Id, int>, picked: set<Id>, rest: set<Id>)
    requires due <= age.Keys && picked + rest == due && picked !! rest && Divides(age, picked, rest)
    requires |picked| <= CLEANUP_LIMIT && (rest == {} || |picked| == CLEANUP_LIMIT)
    ensures Oldest(due, age, picked)
  {
    assert |due| == |picked| + |rest|;
  }

  method PickOldest(due: set<Id>, age: map<Id, int>) returns (picked: set<Id>)
    requires due <= age.Keys
    ensures Oldest(due, age, picked)
  {
    picked := {};
    var rest := due;
    OlderTotal(age);
    while rest != {} && |picked| < CLEANUP_LIMIT
      invariant picked + rest == due && picked !! rest && |picked| <= CLEANUP_LIMIT
      invariant Divides(age, picked, rest)
      decreases rest
    {
      var m := Least(Older(age), rest);
      OldestIsLeast(age, rest, m);
      picked, rest := picked + {m}, rest - {m};
    }
    Picked(due, age, picked, rest);
  }

  class AuthDb {
    var password: Option<string>
    var devices: Devices
    var sessions: Sessions

    ghost function Rows(): Tables
      reads this
    {
      Tables(devices, sessions)
    }

    method SetPassword(next: string, now: int) returns (r: Result<(), Error>)
      modifies this
      ensures r == if TrimSpace(next) == "" then Err(PasswordRequired) else Ok(())
      ensures r.Err? ==> password == old(password) && Rows() == old(Rows())
      ensures r.Ok? ==> password == Some(next) && Rows() == old(Rows()).(sessions := RevokeAll(old(sessions), now))
    {
      if TrimSpace(next) == "" { return Err(PasswordRequired); }
      password := Some(next);
      sessions := RevokeAll(sessions, now);
      return Ok(());
    }

    // `between` is what others make of everything after the current password was checked.
    method ChangePassword(current: string, next: string, now: int, between: Contents -> Contents) returns (r: Result<(), Error>)
      modifies this
      ensures Verify(old(password), current).Some? ==>
        r == Err(Verify(old(password), current).value) && password == old(password) && Rows() == old(Rows())
      ensures Verify(old(password), current).None? ==>
        var found := between(Contents(old(password), old(Rows())));
        if TrimSpace(next) == "" then r == Err(PasswordRequired) && password == found.password && Rows() == found.t
        else r == Ok(()) && password == Some(next) && Rows() == found.t.(sessions := RevokeAll(found.t.sessions, now))
    {
      var wrong := Verify(password, current);
      if wrong.Some? { return Err(wrong.value); }
      var found := between(Contents(password, Tables(devices, sessions)));
      password, devices, sessions := found.password, found.t.devices, found.t.sessions;
      r := SetPassword(next, now);
    }

    method Cleanup(now: int)
      modifies this`devices, this`sessions
      ensures CleanedUp(old(Rows()), Rows(), now)
    {
      ghost var before := Rows();
      var t := Tables(devices, sessions);
      var gone := PickOldest(DueSessions(t, now), SessionAges(t));
      sessions := sessions - gone;
      ghost var mid := Rows();
      assert SessionsCleaned(before, mid, now);
      t := Tables(devices, sessions);
      gone := PickOldest(DueDevices(t, now), DeviceAges(t));
      devices := devices - gone;
      assert DevicesCleaned(mid, Rows(), now);
    }

    // `between` is what others make of everything between the check of the password and the transaction. A
    // session is opened with a password that is no longer set exactly when they have set another.
    method Login(attempt: string, cookie: Option<Id>, newDevice: Id, newSession: Id, ttl: int, now: int,
                 between: Contents -> Contents) returns (r: Result<Id, Error>)
      modifies this
      ensures old(password) != Some(attempt) ==>
        && r == Err(if old(password).None? then PasswordNotSet else InvalidPassword)
        && password == old(password) && Rows() == old(Rows())
      ensures old(password) == Some(attempt) ==>
        var found := between(Contents(old(password), old(Rows())));
        var known := cookie.Some? && cookie.value in found.t.devices;
        && password == found.password
        && (known && found.t.devices[cookie.value].blockedAt.Some? ==> r == Err(DeviceBlocked) && Rows() == found.t)
        && (known && found.t.devices[cookie.value].blockedAt.None? ==>
              && r == Ok(newSession)
              && CleanedUp(Tables(found.t.devices[cookie.value := found.t.devices[cookie.value].(lastSeen := now)],
                                  found.t.sessions[newSession := Session(cookie.value, now, now, now + if ttl <= 0 then DAY else ttl, None)]),
                           Rows(), now))
        && (!known && newDevice !in found.t.devices ==>
              && r == Ok(newSession)
              && CleanedUp(Tables(found.t.devices[newDevice := Device(now, now, None)],
                                  found.t.sessions[newSession := Session(newDevice, now, now, now + if ttl <= 0 then DAY else ttl, None)]),
                           Rows(), now))
      ensures old(password) == Some(attempt) ==>
        var issued := Issue(between(Contents(old(password), old(Rows()))).t, cookie, newDevice, newSession, ttl, now);
        if issued.Ok? then r == Ok(newSession) && CleanedUp(issued.value, Rows(), now) else r == Err(issued.error)
      ensures r.Ok? ==>
        (password != Some(attempt) <==> between(Contents(old(password), old(Rows()))).password != old(password))
    {
      var wrong := Verify(password, attempt);
      if wrong.Some? { return Err(wrong.value); }
      var found := between(Contents(password, Tables(devices, sessions)));
      password, devices, sessions := found.password, found.t.devices, found.t.sessions;
      var issued := Issue(found.t, cookie, newDevice, newSession, ttl, now);
      if issued.Err? { return Err(issued.error); }
      devices, sessions := issued.value.devices, issued.value.sessions;
      Cleanup(now);
      return Ok(newSession);
    }

    // `before` and `between` are what others make of the tables before the first and the second touch.
    method AuthenticateSession(cookie: Option<Id>, now: int, before: Tables -> Tables, between: Tables -> Tables) returns (r: Result<Id, Error>)
      modifies this`devices, this`sessions
      ensures var found := Authenticate(old(Rows()), cookie, now);
        if found.Ok? then
          cookie.Some? && r == Ok(cookie.value)
          && Rows() == TouchDevice(between(TouchSession(before(old(Rows())), cookie.value, now)), found.value, now)
        else
          r == Err(found.error) && Rows() == old(Rows())
    {
      if cookie.None? || cookie.value !in sessions { return Err(InvalidSession); }
      var id := cookie.value;
      var s := sessions[id];
      if s.device !in devices { return Err(InvalidSession); }
      if devices[s.device].blockedAt.Some? { return Err(DeviceBlocked); }
      if s.revokedAt.Some? { return Err(SessionRevoked); }
      if s.expiresAt <= now { return Err(SessionExpired); }
      var t := before(Tables(devices, sessions));
      devices, sessions := t.devices, t.sessions;
      if id in sessions { sessions := sessions[id := sessions[id].(lastSeen := now)]; }
      t := between(Tables(devices, sessions));
      devices, sessions := t.devices, t.sessions;
      if s.device in devices { devices := devices[s.device := devices[s.device].(lastSeen := now)]; }
      return Ok(id);
    }

    method LogoutSession(cookie: Option<Id>, now: int)
      modifies this`devices, this`sessions
      ensures cookie.None? ==> Rows() == old(Rows())
      ensures cookie.Some? ==> CleanedUp(old(Rows()).(sessions := Logout(old(sessions), cookie, now)), Rows(), now)
    {
      if cookie.None? { return; }
      sessions := Logout(sessions, cookie, now);
      Cleanup(now);
    }

    method MutateDevice(device: Id, now: int, blocked: bool) returns (r: Result<(), Error>)
      modifies this`devices, this`sessions
      ensures var changed := if blocked then Block(old(Rows()), device, now) else Unblock(old(Rows()), device);
        if changed.Ok? then r == Ok(()) && CleanedUp(changed.value, Rows(), now)
        else r == Err(changed.error) && Rows() == old(Rows())
    {
      if device !in devices { return Err(DeviceNotFound); }
      var row := devices[device];
      if blocked {
        if row.blockedAt.None? { devices := devices[device := row.(blockedAt := Some(now))]; }
        sessions := RevokeDevice(sessions, device, now);
      } else {
        devices := devices[device := row.(blockedAt := None)];
      }
      Cleanup(now);
      return Ok(());
    }

    method RevokeDeviceSessions(device: Id, now: int) returns (r: Result<(), Error>)
      modifies this`devices, this`sessions
      ensures r.Err? <==>
        && device !in old(devices)
        && forall id :: id in old(sessions) && old(sessions)[id].device == device ==> old(sessions)[id].revokedAt.Some?
      ensures r.Err? ==> r == Err(DeviceNotFound) && Rows() == old(Rows())
      ensures r.Ok? ==> CleanedUp(old(Rows()).(sessions := RevokeDevice(old(sessions), device, now)), Rows(), now)
    {
      assert forall id :: id in OpenSessions(sessions, device) <==>
        id in sessions && sessions[id].device == device && sessions[id].revokedAt.None?;
      if OpenSessions(sessions, device) == {} && device !in devices { return Err(DeviceNotFound); }
      sessions := RevokeDevice(sessions, device, now);
      Cleanup(now);
      return Ok(());
    }
  }

  /// What the transactions come to, row by row

  // A session that is still open is closed at `now`; a revocation stays where it was.
  lemma RevokesOpen(sessions: Sessions, cookie: Option<Id>, device: Id, now: int)
    ensures var all, one, own := RevokeAll(sessions, now), Logout(sessions, cookie, now), RevokeDevice(sessions, device, now);
      && all.Keys == one.Keys == own.Keys == sessions.Keys
      && forall id :: id in sessions ==>
           var closed := sessions[id].(revokedAt := if sessions[id].revokedAt.Some? then sessions[id].revokedAt else Some(now));
           && all[id] == closed
           && one[id] == (if cookie == Some(id) then closed else sessions[id])
           && own[id] == (if sessions[id].device == device then closed else sessions[id])
  {
  }

  // Blocking marks the device once and closes its open sessions; unblocking takes the mark away and brings
  // no session back. An unknown device is refused.
  lemma BlockIsUndone(t: Tables, device: Id, now: int)
    ensures device !in t.devices ==>
      Block(t, device, now) == Err(DeviceNotFound) && Unblock(t, device) == Err(DeviceNotFound)
    ensures device in t.devices ==>
      && Block(t, device, now).Ok? && Unblock(t, device).Ok?
      && (var b := Block(t, device, now).value;
          && b.devices.Keys == t.devices.Keys && b.sessions.Keys == t.sessions.Keys
          && (forall d :: d in t.devices && d != device ==> b.devices[d] == t.devices[d])
          && b.devices[device] == t.devices[device].(blockedAt :=
               if t.devices[device].blockedAt.Some? then t.devices[device].blockedAt else Some(now))
          && forall s :: s in t.sessions ==>
               b.sessions[s] == if t.sessions[s].device == device && t.sessions[s].revokedAt.None? then
                   t.sessions[s].(revokedAt := Some(now)) else t.sessions[s])
      && (var u := Unblock(t, device).value;
          u.sessions == t.sessions && u.devices == t.devices[device := t.devices[device].(blockedAt := None)])
  {
  }

  // The first thing wrong decides, in this order: no such session, its device gone, blocked, revoked, expired.
  lemma AuthenticateErrors(t: Tables, cookie: Option<Id>, now: int)
    ensures var r := Authenticate(t, cookie, now);
      && (r == Err(InvalidSession) <==>
            cookie.None? || cookie.value !in t.sessions || t.sessions[cookie.value].device !in t.devices)
      && (cookie.Some? && cookie.value in t.sessions && t.sessions[cookie.value].device in t.devices ==>
            var s := t.sessions[cookie.value];
            && (r == Err(DeviceBlocked) <==> t.devices[s.device].blockedAt.Some?)
            && (r == Err(SessionRevoked) <==> t.devices[s.device].blockedAt.None? && s.revokedAt.Some?)
            && (r == Err(SessionExpired) <==>
                  t.devices[s.device].blockedAt.None? && s.revokedAt.None? && s.expiresAt <= now)
            && (r.Ok? ==> r.value == s.device))
      && (r.Err? ==> r.error in {InvalidSession, DeviceBlocked, SessionRevoked, SessionExpired})
  {
  }

  // A touch moves the time one row was last seen, and adds no row.
  lemma TouchesOne(t: Tables, id: Id, now: int)
    ensures var s, d := TouchSession(t, id, now), TouchDevice(t, id, now);
      && s.devices == t.devices && d.sessions == t.sessions
      && s.sessions.Keys == t.sessions.Keys && d.devices.Keys == t.devices.Keys
      && (forall i :: i in t.sessions ==> s.sessions[i] == if i == id then t.sessions[i].(lastSeen := now) else t.sessions[i])
      && (forall i :: i in t.devices ==> d.devices[i] == if i == id then t.devices[i].(lastSeen := now) else t.devices[i])
  {
  }

  // The sessions a cleanup is after: revoked, or else expired, a day ago or earlier.
  ghost predicate AreDue(t: Tables, now: int, due: set<Id>) {
    forall id :: id in due <==>
      && id in t.sessions
      && ((t.sessions[id].revokedAt.Some? && t.sessions[id].revokedAt.value <= now - DAY) || t.sessions[id].expiresAt <= now - DAY)
  }

  // The devices it is after: not blocked, without a session, and not seen for more than 90 days.
  ghost predicate AreStale(t: Tables, now: int, stale: set<Id>) {
    forall id :: id in stale <==>
      && id in t.devices && t.devices[id].blockedAt.None? && t.devices[id].lastSeen < now - 90 * DAY
      && forall s :: s in t.sessions ==> t.sessions[s].device != id
  }

  lemma SameMembers(a: set<Id>, b: set<Id>)
    requires forall id :: id in a <==> id in b
    ensures a == b
  {
  }

  // A cleanup removes the due sessions, and then the devices that are stale with the sessions left: of each
  // all of them up to 128, and none that is younger than one it leaves.
  lemma CleanupExact(t: Tables, next: Tables, now: int, due: set<Id>, stale: set<Id>) returns (ended: set<Id>, gone: set<Id>)
    requires CleanedUp(t, next, now) && AreDue(t, now, due) && AreStale(t.(sessions := next.sessions), now, stale)
    ensures next.sessions == t.sessions - ended && ended <= due && |ended| == (if |due| <= 128 then |due| else 128)
    ensures forall p, q :: p in ended && q in due && q !in ended ==>
      (if t.sessions[p].revokedAt.Some? then t.sessions[p].revokedAt.value else t.sessions[p].expiresAt)
      <= (if t.sessions[q].revokedAt.Some? then t.sessions[q].revokedAt.value else t.sessions[q].expiresAt)
    ensures next.devices == t.devices - gone && gone <= stale && |gone| == (if |stale| <= 128 then |stale| else 128)
    ensures forall p, q :: p in gone && q in stale && q !in gone ==> t.devices[p].lastSeen <= t.devices[q].lastSeen
  {
    var mid :| SessionsCleaned(t, mid, now) && DevicesCleaned(mid, next, now);
    ended := SessionsCleanedExact(t, mid, now, due);
    assert mid == t.(sessions := next.sessions);
    gone := DevicesCleanedExact(mid, next, now, stale);
  }

  lemma SessionsCleanedExact(t: Tables, mid: Tables, now: int, due: set<Id>) returns (ended: set<Id>)
    requires SessionsCleaned(t, mid, now) && AreDue(t, now, due)
    ensures mid == t.(sessions := t.sessions - ended) && ended <= due && |ended| == (if |due| <= 128 then |due| else 128)
    ensures forall p, q :: p in ended && q in due && q !in ended ==>
      (if t.sessions[p].revokedAt.Some? then t.sessions[p].revokedAt.value else t.sessions[p].expiresAt)
      <= (if t.sessions[q].revokedAt.Some? then t.sessions[q].revokedAt.value else t.sessions[q].expiresAt)
  {
    SameMembers(DueSessions(t, now), due);
    ended :| Oldest(DueSessions(t, now), SessionAges(t), ended) && mid == t.(sessions := t.sessions - ended);
    forall p, q | p in ended && q in due && q !in ended ensures SessionAges(t)[p] <= SessionAges(t)[q] { }
  }

  lemma DevicesCleanedExact(mid: Tables, next: Tables, now: int, stale: set<Id>) returns (gone: set<Id>)
    requires DevicesCleaned(mid, next, now) && AreStale(mid, now, stale)
    ensures next == mid.(devices := mid.devices - gone) && gone <= stale && |gone| == (if |stale| <= 128 then |stale| else 128)
    ensures forall p, q :: p in gone && q in stale && q !in gone ==> mid.devices[p].lastSeen <= mid.devices[q].lastSeen
  {
    SameMembers(DueDevices(mid, now), stale);
    gone :| Oldest(DueDevices(mid, now), DeviceAges(mid), gone) && next == mid.(devices := mid.devices - gone);
    forall p, q | p in gone && q in stale && q !in gone ensures DeviceAges(mid)[p] <= DeviceAges(mid)[q] { }
  }

  /// Runs: each transaction, each touch and each statement of a cleanup is a step, with a reading of the
  /// clock that may be old. A touch may come at any time after an authentication has read the rows.

  // History: the sessions ever issued, with their device and expiry, and those something has ended since.
  datatype Grant = Grant(device: Id, expiresAt: int)

  // `checked` are the attempts that were right, by the session each is to open.
  datatype World = World(
    password: Option<string>, t: Tables, checked: map<Id, string>, issued: map<Id, Grant>, ended: set<Id>, clock: int)

  datatype Event =
    | Check(session: Id, attempt: string, now: int)
    | Login(cookie: Option<Id>, newDevice: Id, newSession: Id, ttl: int, now: int)
    | SeeSession(session: Id, now: int)
    | SeeDevice(device: Id, now: int)
    | Leave(cookie: Option<Id>, now: int)
    | BlockDevice(device: Id, now: int)
    | UnblockDevice(device: Id, now: int)
    | RevokeSessions(device: Id, now: int)
    | PasswordSet(next: string, now: int)
    | CleanSessions(gone: set<Id>, now: int)
    | CleanDevices(gone: set<Id>, now: int)
    | Pass(now: int)

  ghost predicate Enabled(w: World, e: Event) {
    && (if e.Pass? then w.clock <= e.now else e.now <= w.clock)
    && match e
       case Check(session, attempt, _) => session !in w.checked && session !in w.issued && Verify(w.password, attempt).None?
       case Login(_, newDevice, newSession, _, _) => FreshDevice(w, newDevice) && newSession in w.checked && newSession !in w.issued
       case PasswordSet(next, _) => TrimSpace(next) != ""
       case CleanSessions(gone, now) => Oldest(DueSessions(w.t, now), SessionAges(w.t), gone)
       case CleanDevices(gone, now) => Oldest(DueDevices(w.t, now), DeviceAges(w.t), gone)
       case _ => true
  }

  ghost predicate FreshDevice(w: World, device: Id) {
    device !in w.t.devices && forall id :: id in w.issued ==> w.issued[id].device != device
  }

  function OfDevice(issued: map<Id, Grant>, device: Id): set<Id> {
    set id | id in issued && issued[id].device == device
  }

  ghost function Next(w: World, e: Event): World {
    match e
    case Check(session, attempt, _) => w.(checked := w.checked[session := attempt])
    case Login(cookie, newDevice, newSession, ttl, now) =>
      (match Issue(w.t, cookie, newDevice, newSession, ttl, now)
       case Err(_) => w
       case Ok(t) =>
         var s := t.sessions[newSession];
         w.(t := t, issued := w.issued[newSession := Grant(s.device, s.expiresAt)]))
    case SeeSession(session, now) => w.(t := TouchSession(w.t, session, now))
    case SeeDevice(device, now) => w.(t := TouchDevice(w.t, device, now))
    case Leave(cookie, now) =>
      w.(t := w.t.(sessions := Logout(w.t.sessions, cookie, now)),
         ended := if cookie.Some? then w.ended + ({cookie.value} * w.issued.Keys) else w.ended)
    case BlockDevice(device, now) =>
      (match Block(w.t, device, now)
       case Err(_) => w
       case Ok(t) => w.(t := t, ended := w.ended + OfDevice(w.issued, device)))
    case UnblockDevice(device, _) => (match Unblock(w.t, device) case Err(_) => w case Ok(t) => w.(t := t))
    case RevokeSessions(device, now) =>
      w.(t := w.t.(sessions := RevokeDevice(w.t.sessions, device, now)), ended := w.ended + OfDevice(w.issued, device))
    case PasswordSet(next, now) =>
      w.(password := Some(next), t := w.t.(sessions := RevokeAll(w.t.sessions, now)), ended := w.ended + w.issued.Keys)
    case CleanSessions(gone, _) => w.(t := w.t.(sessions := w.t.sessions - gone))
    case CleanDevices(gone, _) => w.(t := w.t.(devices := w.t.devices - gone))
    case Pass(now) => w.(clock := now)
  }

  ghost predicate Reaches(w: World, events: seq<Event>, last: World)
    decreases |events|
  {
    if events == [] then last == w
    else Enabled(w, events[0]) && Reaches(Next(w, events[0]), events[1..], last)
  }

  // The other steps do to the tables what their statements say, at whatever time they come.
  lemma StepsAreStatements(w: World, e: Event)
    requires Enabled(w, e)
    ensures var t, n := w.t, Next(w, e);
      && (e.SeeSession? && e.session in t.sessions ==>
            n.t == t.(sessions := t.sessions[e.session := t.sessions[e.session].(lastSeen := e.now)]))
      && (e.SeeDevice? && e.device in t.devices ==>
            n.t == t.(devices := t.devices[e.device := t.devices[e.device].(lastSeen := e.now)]))
      && (e.UnblockDevice? && e.device in t.devices ==>
            n.t == t.(devices := t.devices[e.device := t.devices[e.device].(blockedAt := None)]))
      && (e.CleanSessions? ==> SessionsCleaned(t, n.t, e.now) && t.sessions.Keys - n.t.sessions.Keys == e.gone)
      && (e.CleanDevices? ==> DevicesCleaned(t, n.t, e.now) && t.devices.Keys - n.t.devices.Keys == e.gone)
      && n.clock == (if e.Pass? then e.now else w.clock)
  {
    if e.CleanSessions? {
      assert Oldest(DueSessions(w.t, e.now), SessionAges(w.t), e.gone);
    } else if e.CleanDevices? {
      assert Oldest(DueDevices(w.t, e.now), DeviceAges(w.t), e.gone);
    }
  }

  // A step may act on the present reading of the clock.
  lemma PresentEnabled(w: World, device: Id)
    ensures Enabled(w, BlockDevice(device, w.clock)) && Enabled(w, Pass(w.clock))
  {
  }

  /// Invariants

  ghost predicate KeptSession(w: World, id: Id)
    requires id in w.t.sessions
  {
    var s := w.t.sessions[id];
    && id in w.issued && w.issued[id] == Grant(s.device, s.expiresAt)
    && s.device in w.t.devices
    && (s.revokedAt.Some? <==> id in w.ended)
  }

  // What the tables say about every session ever issued is what happened to it.
  ghost predicate Faithful(w: World) {
    && w.ended <= w.issued.Keys
    && (forall id :: id in w.t.sessions ==> KeptSession(w, id))
    && (forall id :: id in w.issued && id !in w.t.sessions ==> id in w.ended || w.issued[id].expiresAt <= w.clock - RETENTION)
    && (forall id :: id in w.issued && Blocked(w.t.devices, w.issued[id].device) ==> id in w.ended)
  }

  lemma LoginFaithful(w: World, e: Event)
    requires Faithful(w) && Enabled(w, e) && e.Login?
    ensures Faithful(Next(w, e))
  {
    var n := Next(w, e);
    forall id | id in n.t.sessions ensures KeptSession(n, id) { assert id in w.t.sessions ==> KeptSession(w, id); }
  }

  lemma CleanFaithful(w: World, e: Event)
    requires Faithful(w) && Enabled(w, e) && (e.CleanSessions? || e.CleanDevices?)
    ensures Faithful(Next(w, e))
  {
    var n := Next(w, e);
    forall id | id in n.t.sessions ensures KeptSession(n, id) { assert KeptSession(w, id); }
    if e.CleanSessions? {
      forall id | id in e.gone ensures id in w.ended || w.issued[id].expiresAt <= n.clock - RETENTION { assert KeptSession(w, id); }
    }
  }

  lemma RevokeFaithful(w: World, e: Event)
    requires Faithful(w) && Enabled(w, e) && (e.Leave? || e.BlockDevice? || e.RevokeSessions? || e.PasswordSet?)
    ensures Faithful(Next(w, e))
  {
    var n := Next(w, e);
    forall id | id in n.t.sessions ensures KeptSession(n, id) { assert KeptSession(w, id); }
  }

  lemma StepFaithful(w: World, e: Event)
    requires Faithful(w) && Enabled(w, e)
    ensures Faithful(Next(w, e))
  {
    match e
    case Login(_, _, _, _, _) => LoginFaithful(w, e);
    case CleanSessions(_, _) => CleanFaithful(w, e);
    case CleanDevices(_, _) => CleanFaithful(w, e);
    case Leave(_, _) => RevokeFaithful(w, e);
    case BlockDevice(_, _) => RevokeFaithful(w, e);
    case RevokeSessions(_, _) => RevokeFaithful(w, e);
    case PasswordSet(_, _) => RevokeFaithful(w, e);
    case _ =>
      var n := Next(w, e);
      forall id | id in n.t.sessions ensures KeptSession(n, id) { assert KeptSession(w, id); }
  }

  lemma {:induction false} RunFaithful(w: World, events: seq<Event>, last: World)
    requires Faithful(w) && Reaches(w, events, last)
    ensures Faithful(last)
    decreases |events|
  {
    if events != [] {
      StepFaithful(w, events[0]);
      RunFaithful(Next(w, events[0]), events[1..], last);
    }
  }

  function Begin(now: int): World {
    World(None, Tables(map[], map[]), map[], map[], {}, now)
  }

  // In every reachable state a session authenticates if and only if it was issued, nothing has ended it
  // since (a logout, a block or revocation of its device, a password change), and it has not expired. The
  // reading of the clock may be up to a day old, which is how long a cleanup keeps expired sessions.
  lemma AuthenticatesIff(start: int, events: seq<Event>, w: World, id: Id, now: int)
    requires Reaches(Begin(start), events, w) && now >= w.clock - RETENTION
    ensures Authenticate(w.t, Some(id), now).Ok? <==> id in w.issued && id !in w.ended && w.issued[id].expiresAt > now
  {
    RunFaithful(Begin(start), events, w);
    assert id in w.t.sessions ==> KeptSession(w, id);
  }

  // A login whose cookie names a device of the table opens its session there and adds no device, and opens
  // none on a blocked one; any other login adds exactly the new device and opens its session on that.
  lemma LoginOpens(w: World, e: Event)
    requires e.Login? && Enabled(w, e)
    ensures var n := Next(w, e);
      var session := (id: Id) => Session(id, e.now, e.now, e.now + if e.ttl <= 0 then DAY else e.ttl, None);
      if e.cookie.Some? && e.cookie.value in w.t.devices then
        if w.t.devices[e.cookie.value].blockedAt.Some? then n == w
        else
          && n.t.devices == w.t.devices[e.cookie.value := w.t.devices[e.cookie.value].(lastSeen := e.now)]
          && n.t.sessions == w.t.sessions[e.newSession := session(e.cookie.value)]
      else
        && n.t.devices == w.t.devices[e.newDevice := Device(e.now, e.now, None)]
        && n.t.sessions == w.t.sessions[e.newSession := session(e.newDevice)]
  {
  }

  /// Logins that overlap a password change

  // The password the last of the changes sets, if there is any.
  function LastSet(events: seq<Event>): Option<string> {
    if events == [] then None
    else if events[|events| - 1].PasswordSet? then Some(events[|events| - 1].next)
    else LastSet(events[..|events| - 1])
  }

  lemma {:induction false} LastSetCons(e: Event, events: seq<Event>)
    ensures LastSet([e] + events) ==
      if LastSet(events).Some? then LastSet(events) else if e.PasswordSet? then Some(e.next) else None
  {
    var all := [e] + events;
    if events == [] {
      assert all[..|all| - 1] == [];
    } else {
      LastSetCons(e, events[..|events| - 1]);
      assert all[..|all| - 1] == [e] + events[..|events| - 1];
    }
  }

  lemma {:induction false} PasswordAfter(w: World, events: seq<Event>, last: World)
    requires Reaches(w, events, last)
    ensures last.password == if LastSet(events).Some? then LastSet(events) else w.password
    ensures forall id :: id in w.checked ==> id in last.checked && last.checked[id] == w.checked[id]
    decreases |events|
  {
    if events != [] {
      LastSetCons(events[0], events[1..]);
      assert [events[0]] + events[1..] == events;
      PasswordAfter(Next(w, events[0]), events[1..], last);
    }
  }

  lemma {:induction false} ReachesOn(w: World, a: seq<Event>, mid: World, b: seq<Event>, last: World)
    requires Reaches(w, a, mid) && Reaches(mid, b, last)
    ensures Reaches(w, a + b, last)
    decreases |a|
  {
    if a == [] {
      assert a + b == b;
    } else {
      ReachesOn(Next(w, a[0]), a[1..], mid, b, last);
      assert (a + b)[1..] == a[1..] + b;
    }
  }

  // A login checks the password, others act, and the login opens its session. The session is opened with a
  // password no longer set if and only if the last change in between set another; the change does not end it,
  // so it authenticates until it expires.
  lemma StaleLoginIff(start: int, before: seq<Event>, w: World, check: Event, between: seq<Event>, mid: World, open: Event, now: int)
    requires Reaches(Begin(start), before, w) && check.Check? && Enabled(w, check)
    requires Reaches(Next(w, check), between, mid) && open.Login? && open.newSession == check.session && Enabled(mid, open)
    requires Issue(mid.t, open.cookie, open.newDevice, open.newSession, open.ttl, open.now).Ok?
    ensures var last := Next(mid, open);
      && check.session in last.checked && check.session in last.issued
      && (last.password != Some(last.checked[check.session]) <==> LastSet(between).Some? && LastSet(between).value != check.attempt)
      && (now >= last.clock - RETENTION ==>
            (Authenticate(last.t, Some(check.session), now).Ok? <==> last.issued[check.session].expiresAt > now))
  {
    var last := Next(mid, open);
    PasswordAfter(Next(w, check), between, mid);
    RunFaithful(Begin(start), before, w);
    StepFaithful(w, check);
    RunFaithful(Next(w, check), between, mid);
    assert Reaches(last, [], last);
    assert Reaches(w, [check] + between, mid) by { assert ([check] + between)[1..] == between; }
    assert Reaches(mid, [open], last) by { assert [open][1..] == []; }
    ReachesOn(Begin(start), before, w, [check] + between, mid);
    ReachesOn(Begin(start), before + ([check] + between), mid, [open], last);
    if now >= last.clock - RETENTION {
      AuthenticatesIff(start, before + ([check] + between) + [open], last, check.session, now);
    }
  }

  // Such a login: the password is "a", is checked, is changed to "b", and only then the session is opened.
  lemma ReplacedPasswordOpens() returns (events: seq<Event>, last: World)
    ensures Reaches(Begin(0), events, last) && last.password == Some("b") && 1 in last.checked && last.checked[1] == "a"
    ensures Authenticate(last.t, Some(1), 0) == Ok(2)
  {
    var w, before := ChangedAfterCheck();
    var open := Login(None, 2, 1, 0, 0);
    last := Next(w, open);
    assert Reaches(last, [], last);
    assert [open][1..] == [] && Reaches(w, [open], last);
    ReachesOn(Begin(0), before, w, [open], last);
    events := before + [open];
  }

  lemma ChangedAfterCheck() returns (w: World, events: seq<Event>)
    ensures Reaches(Begin(0), events, w) && w == World(Some("b"), Tables(map[], map[]), map[1 := "a"], map[], {}, 0)
  {
    var set1, check, set2 := PasswordSet("a", 0), Check(1, "a", 0), PasswordSet("b", 0);
    var w1 := Next(Begin(0), set1);
    var w2 := Next(w1, check);
    w := Next(w2, set2);
    assert Reaches(w, [], w);
    assert [set2][1..] == [] && Reaches(w2, [set2], w);
    assert [check, set2][1..] == [set2] && Reaches(w1, [check, set2], w);
    events := [set1, check, set2];
    assert events[1..] == [check, set2];
  }

  // A blocked device has no session that is not revoked.
  lemma BlockedHasNone(start: int, events: seq<Event>, w: World, id: Id)
    requires Reaches(Begin(start), events, w) && id in w.t.sessions && Blocked(w.t.devices, w.t.sessions[id].device)
    ensures w.t.sessions[id].revokedAt.Some?
  {
    RunFaithful(Begin(start), events, w);
    assert KeptSession(w, id);
  }

  // Nothing un-ends a session, and nothing changes what it was issued for.
  lemma {:induction false} EndedForGood(w: World, events: seq<Event>, last: World)
    requires Reaches(w, events, last)
    ensures w.ended <= last.ended && w.issued.Keys <= last.issued.Keys
    ensures forall id :: id in w.issued ==> last.issued[id] == w.issued[id]
    ensures w.clock <= last.clock
    decreases |events|
  {
    if events != [] { EndedForGood(Next(w, events[0]), events[1..], last); }
  }

  // A session issued before a password change, or before its device was blocked, never authenticates again.
  lemma NeverAgain(start: int, before: seq<Event>, w: World, e: Event, later: seq<Event>, last: World, id: Id, now: int)
    requires Reaches(Begin(start), before, w) && Enabled(w, e) && Reaches(Next(w, e), later, last)
    requires id in w.issued
    requires e.PasswordSet? || (e.BlockDevice? && e.device == w.issued[id].device)
    ensures Authenticate(last.t, Some(id), now).Err?
  {
    RunFaithful(Begin(start), before, w);
    StepFaithful(w, e);
    RunFaithful(Next(w, e), later, last);
    EndedForGood(Next(w, e), later, last);
    assert id in w.t.sessions ==> KeptSession(w, id);
    assert id in last.t.sessions ==> KeptSession(last, id);
    if id !in Next(w, e).ended {
      // Its device is gone, which a device with sessions never is: the session was cleaned up.
      assert id !in w.t.sessions;
      CleanedStays(w, e, later, last, id);
    }
  }

  lemma {:induction false} GoneStays(w: World, events: seq<Event>, last: World, id: Id)
    requires Reaches(w, events, last) && id in w.issued && id !in w.t.sessions
    ensures id !in last.t.sessions
    decreases |events|
  {
    if events != [] { GoneStays(Next(w, events[0]), events[1..], last, id); }
  }

  lemma CleanedStays(w: World, e: Event, later: seq<Event>, last: World, id: Id)
    requires Enabled(w, e) && Reaches(Next(w, e), later, last) && id in w.issued && id !in w.t.sessions
    ensures id !in last.t.sessions
  {
    GoneStays(Next(w, e), later, last, id);
  }

  // The tables never un-revoke a session they keep, nor change when it was revoked.
  lemma {:induction false} RevocationStands(w: World, events: seq<Event>, last: World, id: Id)
    requires Reaches(w, events, last) && Faithful(w) && id in w.t.sessions && w.t.sessions[id].revokedAt.Some?
    ensures id in last.t.sessions ==> last.t.sessions[id].revokedAt == w.t.sessions[id].revokedAt
    decreases |events|
  {
    if events != [] {
      var n := Next(w, events[0]);
      assert KeptSession(w, id);
      StepFaithful(w, events[0]);
      if id in n.t.sessions { RevocationStands(n, events[1..], last, id); } else { GoneStays(n, events[1..], last, id); }
    }
  }

  // A cleanup removes no session that could still authenticate, no blocked device and no device that has
  // sessions, and at most the limit of each.
  lemma CleanupIsSafe(t: Tables, next: Tables, now: int)
    requires CleanedUp(t, next, now)
    ensures forall id :: id in t.sessions && id !in next.sessions ==> Authenticate(t, Some(id), now).Err?
    ensures forall id :: id in t.devices && id !in next.devices ==>
      t.devices[id].blockedAt.None? && forall s :: s in next.sessions ==> next.sessions[s].device != id
    ensures forall id :: id in next.sessions ==> id in t.sessions && next.sessions[id] == t.sessions[id]
    ensures forall id :: id in next.devices ==> id in t.devices && next.devices[id] == t.devices[id]
  {
    var mid :| SessionsCleaned(t, mid, now) && DevicesCleaned(mid, next, now);
    var gone :| Oldest(DueSessions(t, now), SessionAges(t), gone) && mid == t.(sessions := t.sessions - gone);
    var left :| Oldest(DueDevices(mid, now), DeviceAges(mid), left) && next == mid.(devices := mid.devices - left);
    forall id | id in t.devices && id !in next.devices
      ensures t.devices[id].blockedAt.None? && forall s :: s in next.sessions ==> next.sessions[s].device != id {
      assert id in left && DeviceDue(mid, id, now);
    }
  }
}
