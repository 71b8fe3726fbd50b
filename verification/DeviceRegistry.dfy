/** The device table and each member's device-list version. */
module DeviceRegistry {
  import opened SymbolicCrypto

  const DEVICE_CAP := 2
  const DAY := 86_400_000_000
  const WEB_HEARTBEAT_EXPIRY := 14 * DAY

  type Email = string
  type DeviceId = string

  /** A refresh token, by name. */
  type Jti = nat

  datatype Status = Active | Revoked | Expired

  datatype Device = Device(owner: Email, status: Status, platform: string, lastSeen: Option<int>,
                           refreshJti: Option<Jti>)

  datatype DeviceError = DeviceNotFound | NotDeviceOwner | DeviceRevoked | DeviceLimitReached | ConstraintFailed

  datatype Registry = Registry(members: set<Email>, devices: map<DeviceId, Device>, versions: map<Email, nat>)

  function VersionOf(s: Registry, m: Email): nat {
    if m in s.versions then s.versions[m] else 0
  }

  function Bumped(s: Registry, m: Email): Registry {
    s.(versions := s.versions[m := VersionOf(s, m) + 1])
  }

  function ActiveIds(s: Registry, m: Email): set<DeviceId> {
    set d | d in s.devices && s.devices[d].owner == m && s.devices[d].status == Active
  }

  function Marked(devices: map<DeviceId, Device>, ids: set<DeviceId>, to: Status): map<DeviceId, Device> {
    map d | d in devices :: if d in ids then devices[d].(status := to) else devices[d]
  }

  predicate KnownPlatform(platform: string) {
    platform == "android" || platform == "web"
  }

  // ---------------------------------------------------------------------
  // What each operation does to the tables.

  function Registered(s: Registry, m: Email, d: DeviceId, platform: string, now: int): Result<Registry, DeviceError> {
    if d in s.devices then
      var row := s.devices[d];
      if row.owner != m then Err(DeviceNotFound)
      else if row.status == Revoked then Err(DeviceRevoked)
      else if !KnownPlatform(platform) then Err(ConstraintFailed)
      else
        var back := row.(status := Active, platform := platform, lastSeen := Some(now));
        var touched := s.(devices := s.devices[d := back]);
        Ok(if row.status == Expired then Bumped(touched, m) else touched)
    else if |ActiveIds(s, m)| >= DEVICE_CAP then Err(DeviceLimitReached)
    else if !KnownPlatform(platform) || m !in s.members then Err(ConstraintFailed)
    else Ok(Bumped(s.(devices := s.devices[d := Device(m, Active, platform, Some(now), None)]), m))
  }

  function AdminRevoked(s: Registry, d: DeviceId): Result<Registry, DeviceError> {
    if d !in s.devices then Err(DeviceNotFound)
    else if s.devices[d].status == Revoked then Ok(s)
    else Ok(Bumped(s.(devices := Marked(s.devices, {d}, Revoked)), s.devices[d].owner))
  }

  function SelfRevoked(s: Registry, d: DeviceId, caller: Email): Result<Registry, DeviceError> {
    if d in s.devices && s.devices[d].owner != caller then Err(NotDeviceOwner) else AdminRevoked(s, d)
  }

  function AllRevoked(s: Registry, m: Email): Registry {
    var ids := ActiveIds(s, m);
    if ids == {} then s else Bumped(s.(devices := Marked(s.devices, ids, Revoked)), m)
  }

  function Silent(s: Registry, now: int): set<DeviceId> {
    set d | d in s.devices && s.devices[d].platform == "web" && s.devices[d].status == Active &&
            (s.devices[d].lastSeen == None || s.devices[d].lastSeen.value < now - WEB_HEARTBEAT_EXPIRY)
  }

  function StaleExpired(s: Registry, now: int): Registry {
    s.(devices := Marked(s.devices, Silent(s, now), Expired))
  }

  function WithJti(s: Registry, d: DeviceId, jti: Jti): Registry {
    if d in s.devices then s.(devices := s.devices[d := s.devices[d].(refreshJti := Some(jti))]) else s
  }

  function Heartbeat(s: Registry, d: DeviceId, now: int): Registry {
    if d in s.devices then s.(devices := s.devices[d := s.devices[d].(lastSeen := Some(now))]) else s
  }

  // ---------------------------------------------------------------------
  // The service.

  class DeviceService {
    const members: set<Email>
    var devices: map<DeviceId, Device>
    var versions: map<Email, nat>

    function Tables(): Registry
      reads this
    {
      Registry(members, devices, versions)
    }

    constructor (members: set<Email>)
      ensures Tables() == Registry(members, map[], map[])
    {
      this.members := members;
      devices := map[];
      versions := map[];
    }

    method BumpDeviceVersion(m: Email) returns (version: nat)
      modifies this
      ensures Tables() == Bumped(old(Tables()), m) && version == VersionOf(Tables(), m)
    {
      versions := versions[m := (if m in versions then versions[m] else 0) + 1];
      version := versions[m];
    }

    /** Login: a refused login leaves the tables as they were. */
    method RegisterOrTouchDevice(m: Email, d: DeviceId, platform: string, now: int) returns (r: Result<Status,
                                 DeviceError>)
      modifies this
      ensures match Registered(old(Tables()), m, d, platform, now)
              case Ok(s) => r == Ok(Active) && Tables() == s
              case Err(e) => r == Err(e) && Tables() == old(Tables())
    {
      if d in devices {
        var existing := devices[d];
        if existing.owner != m { return Err(DeviceNotFound); }
        if existing.status == Revoked { return Err(DeviceRevoked); }
        if platform !in ["android", "web"] { return Err(ConstraintFailed); }
        devices := devices[d := existing.(status := Active, platform := platform, lastSeen := Some(now))];
        if existing.status == Expired {
          var _ := BumpDeviceVersion(m);
        }
        return Ok(Active);
      }
      var active := set id | id in devices && devices[id].owner == m && devices[id].status == Active;
      assert active == ActiveIds(Tables(), m);
      if |active| >= DEVICE_CAP { return Err(DeviceLimitReached); }
      if platform !in ["android", "web"] || m !in members { return Err(ConstraintFailed); }
      devices := devices[d := Device(m, Active, platform, Some(now), None)];
      var _ := BumpDeviceVersion(m);
      return Ok(Active);
    }

    /** One UPDATE per id, as executemany runs them. */
    method MarkEach(ids: set<DeviceId>, to: Status)
      modifies this
      ensures Tables() == old(Tables()).(devices := Marked(old(devices), ids, to))
    {
      var left := ids;
      while left != {}
        invariant left <= ids && versions == old(versions)
        invariant devices == Marked(old(devices), ids - left, to)
        decreases |left|
      {
        var d :| d in left;
        if d in devices {
          devices := devices[d := devices[d].(status := to)];
        }
        left := left - {d};
      }
      assert ids - left == ids;
    }

    /** A member revoking a device of their own; the row as it was comes back. */
    method RevokeDevice(d: DeviceId, caller: Email) returns (r: Result<Device, DeviceError>)
      modifies this
      ensures match SelfRevoked(old(Tables()), d, caller)
              case Ok(s) => d in old(devices) && r == Ok(old(devices)[d]) && Tables() == s
              case Err(e) => r == Err(e) && Tables() == old(Tables())
    {
      if d !in devices { return Err(DeviceNotFound); }
      var row := devices[d];
      if row.owner != caller { return Err(NotDeviceOwner); }
      if row.status != Revoked {
        devices := devices[d := row.(status := Revoked)];
        assert devices == Marked(old(devices), {d}, Revoked);
        var _ := BumpDeviceVersion(caller);
      }
      return Ok(row);
    }

    method AdminRevokeDevice(d: DeviceId) returns (r: Result<Device, DeviceError>)
      modifies this
      ensures match AdminRevoked(old(Tables()), d)
              case Ok(s) => d in old(devices) && r == Ok(old(devices)[d]) && Tables() == s
              case Err(e) => r == Err(e) && Tables() == old(Tables())
    {
      if d !in devices { return Err(DeviceNotFound); }
      var row := devices[d];
      if row.status != Revoked {
        devices := devices[d := row.(status := Revoked)];
        assert devices == Marked(old(devices), {d}, Revoked);
        var _ := BumpDeviceVersion(row.owner);
      }
      return Ok(row);
    }

    method RevokeAllDevices(m: Email) returns (ids: set<DeviceId>)
      modifies this
      ensures ids == ActiveIds(old(Tables()), m) && Tables() == AllRevoked(old(Tables()), m)
    {
      ids := set d | d in devices && devices[d].owner == m && devices[d].status == Active;
      assert ids == ActiveIds(Tables(), m);
      if ids == {} { return; }
      MarkEach(ids, Revoked);
      var _ := BumpDeviceVersion(m);
    }

    method ExpireStaleWebDevices(now: int) returns (ids: set<DeviceId>)
      modifies this
      ensures ids == Silent(old(Tables()), now) && Tables() == StaleExpired(old(Tables()), now)
    {
      var cutoff := now - WEB_HEARTBEAT_EXPIRY;
      ids := set d | d in devices && devices[d].platform == "web" && devices[d].status == Active &&
                     (devices[d].lastSeen == None || devices[d].lastSeen.value < cutoff);
      assert ids == Silent(Tables(), now);
      if ids != {} {
        MarkEach(ids, Expired);
      } else {
        assert Marked(devices, ids, Expired) == devices;
      }
    }

    method SetRefreshJti(d: DeviceId, jti: Jti)
      modifies this
      ensures Tables() == WithJti(old(Tables()), d, jti)
    {
      if d in devices { devices := devices[d := devices[d].(refreshJti := Some(jti))]; }
    }

    method TouchHeartbeat(d: DeviceId, now: int)
      modifies this
      ensures Tables() == Heartbeat(old(Tables()), d, now)
    {
      if d in devices { devices := devices[d := devices[d].(lastSeen := Some(now))]; }
    }
  }

  // ---------------------------------------------------------------------
  // Runs: any calls in any order, refused ones included.

  datatype Call =
    | Register(m: Email, d: DeviceId, platform: string, now: int)
    | Revoke(d: DeviceId, caller: Email)
    | AdminRevoke(d: DeviceId)
    | RevokeAll(m: Email)
    | ExpireStale(now: int)
    | SetJti(d: DeviceId, jti: Jti)
    | Touch(d: DeviceId, now: int)

  function Kept(s: Registry, r: Result<Registry, DeviceError>): Registry {
    if r.Ok? then r.value else s
  }

  function After(s: Registry, c: Call): Registry {
    match c
    case Register(m, d, platform, now) => Kept(s, Registered(s, m, d, platform, now))
    case Revoke(d, caller) => Kept(s, SelfRevoked(s, d, caller))
    case AdminRevoke(d) => Kept(s, AdminRevoked(s, d))
    case RevokeAll(m) => AllRevoked(s, m)
    case ExpireStale(now) => StaleExpired(s, now)
    case SetJti(d, jti) => WithJti(s, d, jti)
    case Touch(d, now) => Heartbeat(s, d, now)
  }

  function AfterAll(s: Registry, calls: seq<Call>): Registry {
    if calls == [] then s else After(AfterAll(s, calls[..|calls| - 1]), calls[|calls| - 1])
  }

  /** How member `m` sees device `d`. */
  function Standing(s: Registry, m: Email, d: DeviceId): Option<Status> {
    if d in s.devices && s.devices[d].owner == m then Some(s.devices[d].status) else None
  }

  /** A change the member's peers must hear of: a device came into the trusted list,
      or one was revoked. */
  ghost predicate Matters(s: Registry, t: Registry, m: Email) {
    exists d :: Arrived(s, t, m, d)
  }

  predicate Arrived(s: Registry, t: Registry, m: Email, d: DeviceId) {
    Standing(t, m, d) != Standing(s, m, d) && Standing(t, m, d) != Some(Expired)
  }

  /** The version moves by one at exactly the steps that matter to the member's peers. */
  lemma VersionIsChangeSignal(s: Registry, c: Call, m: Email)
    ensures VersionOf(After(s, c), m) == VersionOf(s, m) + (if Matters(s, After(s, c), m) then 1 else 0)
  {
    var t := After(s, c);
    if VersionOf(t, m) != VersionOf(s, m) {
      match c
      case Register(_, d, _, _) => assert Arrived(s, t, m, d);
      case Revoke(d, _) => assert Arrived(s, t, m, d);
      case AdminRevoke(d) => assert Arrived(s, t, m, d);
      case RevokeAll(_) =>
        var d :| d in ActiveIds(s, m);
        assert Arrived(s, t, m, d);
    }
  }

  /** One step never moves a device between members, never loses one, never brings a
      revoked one back, and expires only active ones. */
  lemma StepKeeps(s: Registry, c: Call, d: DeviceId)
    requires d in s.devices
    ensures d in After(s, c).devices && After(s, c).devices[d].owner == s.devices[d].owner
    ensures s.devices[d].status == Revoked ==> After(s, c).devices[d].status == Revoked
    ensures s.devices[d].status != Active && After(s, c).devices[d].status == Expired ==> s.devices[d].status == Expired
  {}

  /** Over any run: rows stay, owners stay, a revoked device stays revoked. */
  lemma {:induction false} RevokedForGood(s: Registry, calls: seq<Call>, d: DeviceId)
    requires d in s.devices
    ensures d in AfterAll(s, calls).devices && AfterAll(s, calls).devices[d].owner == s.devices[d].owner
    ensures s.devices[d].status == Revoked ==> AfterAll(s, calls).devices[d].status == Revoked
  {
    if calls != [] {
      RevokedForGood(s, calls[..|calls| - 1], d);
      StepKeeps(AfterAll(s, calls[..|calls| - 1]), calls[|calls| - 1], d);
    }
  }

  /** How many steps of a run matter to the member's peers. */
  ghost function Telling(s: Registry, calls: seq<Call>, m: Email): nat {
    if calls == [] then 0
    else
      var before := AfterAll(s, calls[..|calls| - 1]);
      Telling(s, calls[..|calls| - 1], m) + (if Matters(before, After(before, calls[|calls| - 1]), m) then 1 else 0)
  }

  /** The version counts those steps exactly, so it never decreases. */
  lemma {:induction false} VersionCountsTellingSteps(s: Registry, calls: seq<Call>, m: Email)
    ensures VersionOf(AfterAll(s, calls), m) == VersionOf(s, m) + Telling(s, calls, m)
  {
    if calls != [] {
      VersionCountsTellingSteps(s, calls[..|calls| - 1], m);
      VersionIsChangeSignal(AfterAll(s, calls[..|calls| - 1]), calls[|calls| - 1], m);
    }
  }

  /** Equal versions at two times: every device active later was active before, and
      whatever left the list was expired, never revoked. */
  lemma {:induction false} EqualVersionsTrustworthy(s: Registry, calls: seq<Call>, m: Email, d: DeviceId)
    requires VersionOf(AfterAll(s, calls), m) == VersionOf(s, m)
    ensures Standing(AfterAll(s, calls), m, d) == Some(Active) ==> Standing(s, m, d) == Some(Active)
    ensures Standing(AfterAll(s, calls), m, d) != Standing(s, m, d) ==>
              Standing(s, m, d) == Some(Active) && Standing(AfterAll(s, calls), m, d) == Some(Expired)
  {
    if calls != [] {
      var before := AfterAll(s, calls[..|calls| - 1]);
      var after := AfterAll(s, calls);
      VersionCountsTellingSteps(s, calls, m);
      VersionCountsTellingSteps(s, calls[..|calls| - 1], m);
      EqualVersionsTrustworthy(s, calls[..|calls| - 1], m, d);
      assert !Arrived(before, after, m, d);
      if d in before.devices {
        StepKeeps(before, calls[|calls| - 1], d);
      }
    }
  }

  // ---------------------------------------------------------------------
  // What one call does to one device.

  /** A login goes through exactly on a known platform, for a device of one's own that is
      not revoked, or for a new device of a member with fewer than two active ones. */
  lemma LoginExactlyWhen(s: Registry, m: Email, d: DeviceId, platform: string, now: int)
    ensures Registered(s, m, d, platform, now).Ok? <==>
              && platform in ["android", "web"]
              && (d in s.devices ==> s.devices[d].owner == m && s.devices[d].status != Revoked)
              && (d !in s.devices ==> m in s.members && |ActiveIds(s, m)| < 2)
    ensures d in s.devices && s.devices[d].owner != m ==> Registered(s, m, d, platform, now) == Err(DeviceNotFound)
    ensures Registered(s, m, d, platform, now) == Err(DeviceRevoked) <==> Standing(s, m, d) == Some(Revoked)
    ensures Registered(s, m, d, platform, now) == Err(DeviceLimitReached) <==> d !in s.devices && |ActiveIds(s, m)| >= 2
  {}

  /** It then leaves the device active, on that platform and seen just now, with whatever
      token it had. */
  lemma LoginLeaves(s: Registry, m: Email, d: DeviceId, platform: string, now: int)
    requires Registered(s, m, d, platform, now).Ok?
    ensures var t := Registered(s, m, d, platform, now).value;
            && t.members == s.members && t.devices.Keys == s.devices.Keys + {d}
            && var jti := if d in s.devices then s.devices[d].refreshJti else None;
               t.devices[d] == Device(m, Active, platform, Some(now), jti)
  {}

  /** Only its owner revokes a device, or an admin; and nothing else changes. */
  lemma RevokedExactlyWhen(s: Registry, d: DeviceId, caller: Email)
    ensures d !in s.devices ==> SelfRevoked(s, d, caller) == Err(DeviceNotFound) == AdminRevoked(s, d)
    ensures d in s.devices && s.devices[d].owner != caller ==> SelfRevoked(s, d, caller) == Err(NotDeviceOwner)
    ensures d in s.devices && s.devices[d].owner == caller ==> SelfRevoked(s, d, caller) == AdminRevoked(s, d)
    ensures d in s.devices ==> AdminRevoked(s, d).Ok? && AdminRevoked(s, d).value.devices ==
                                                         s.devices[d := s.devices[d].(status := Revoked)]
  {
    if d in s.devices {
      assert Marked(s.devices, {d}, Revoked) == s.devices[d := s.devices[d].(status := Revoked)];
      if s.devices[d].status == Revoked {
        assert s.devices[d := s.devices[d].(status := Revoked)] == s.devices;
      }
    }
  }

  /** Revoking a person revokes their active devices and leaves every other row alone. */
  lemma AllRevokedExactly(s: Registry, m: Email, d: DeviceId)
    requires d in s.devices
    ensures var t, row := AllRevoked(s, m), s.devices[d];
            && t.devices.Keys == s.devices.Keys
            && t.devices[d] == if Standing(s, m, d) == Some(Active) then row.(status := Revoked) else row
  {
    if Standing(s, m, d) == Some(Active) { assert d in ActiveIds(s, m); }
  }

  // ---------------------------------------------------------------------
  // Silence.

  predicate SilentRow(row: Device, now: int) {
    row.platform == "web" && (row.lastSeen.Some? ==> row.lastSeen.value + 14 * 86_400_000_000 < now)
  }

  /** The sweep expires an active web device exactly when it was never seen, or last seen
      more than fourteen days ago; it leaves every other row alone. */
  lemma SweepExpiresExactlyWhen(s: Registry, now: int, d: DeviceId)
    requires d in s.devices
    ensures var t, row := StaleExpired(s, now), s.devices[d];
            && t.devices.Keys == s.devices.Keys && t.versions == s.versions
            && t.devices[d] == if row.status == Active && SilentRow(row, now) then row.(status := Expired) else row
  {}

  /** The last time a device was seen in a run: by a login of its own or a heartbeat. */
  function SeenAt(s: Registry, calls: seq<Call>, d: DeviceId): Option<int>
    requires d in s.devices
  {
    if calls == [] then s.devices[d].lastSeen
    else
      match calls[|calls| - 1]
      case Touch(id, now) => if id == d then Some(now) else SeenAt(s, calls[..|calls| - 1], d)
      case Register(m, id, platform, now) =>
        if id == d && m == s.devices[d].owner && platform in ["android", "web"] then Some(now)
        else SeenAt(s, calls[..|calls| - 1], d)
      case _ => SeenAt(s, calls[..|calls| - 1], d)
  }

  /** The platform a device last logged in on. */
  function PlatformAt(s: Registry, calls: seq<Call>, d: DeviceId): string
    requires d in s.devices
  {
    if calls == [] then s.devices[d].platform
    else
      match calls[|calls| - 1]
      case Register(m, id, platform, _) =>
        if id == d && m == s.devices[d].owner && platform in ["android", "web"] then platform
        else PlatformAt(s, calls[..|calls| - 1], d)
      case _ => PlatformAt(s, calls[..|calls| - 1], d)
  }

  predicate Revokes(c: Call, d: DeviceId, owner: Email) {
    (c.Revoke? && c.d == d && c.caller == owner) || (c.AdminRevoke? && c.d == d) || (c.RevokeAll? && c.m == owner)
  }

  /** A sweep at this moment finds the device silent on the web. */
  predicate FoundSilent(s: Registry, calls: seq<Call>, d: DeviceId, now: int)
    requires d in s.devices
  {
    SilentRow(s.devices[d].(platform := PlatformAt(s, calls, d), lastSeen := SeenAt(s, calls, d)), now)
  }

  /** Over any run that does not revoke it, an active device stays active as long as no
      sweep finds it silent: a device that logs in or refreshes at least every fourteen
      days is never expired, nor is one that is not on the web. */
  lemma {:induction false} DeviceInUseStaysActive(s: Registry, calls: seq<Call>, d: DeviceId)
    requires d in s.devices && s.devices[d].status == Active
    requires forall i :: 0 <= i < |calls| ==> !Revokes(calls[i], d, s.devices[d].owner)
    requires forall i :: 0 <= i < |calls| && calls[i].ExpireStale? ==> !FoundSilent(s, calls[..i], d, calls[i].now)
    ensures var t := AfterAll(s, calls);
            && d in t.devices && t.devices[d].owner == s.devices[d].owner && t.devices[d].status == Active
            && t.devices[d].lastSeen == SeenAt(s, calls, d) && t.devices[d].platform == PlatformAt(s, calls, d)
  {
    if calls != [] {
      var n := |calls| - 1;
      forall i | 0 <= i < n
        ensures calls[..n][i] == calls[i] && calls[..n][..i] == calls[..i]
      {}
      DeviceInUseStaysActive(s, calls[..n], d);
      var t := AfterAll(s, calls[..n]);
      assert calls[..n] == calls[..|calls| - 1];
      StepOnActive(t, calls[n], d);
    }
  }

  predicate LogsIn(c: Call, d: DeviceId, owner: Email) {
    c.Register? && c.d == d && c.m == owner && c.platform in ["android", "web"]
  }

  lemma StepOnActive(t: Registry, c: Call, d: DeviceId)
    requires d in t.devices && t.devices[d].status == Active && !Revokes(c, d, t.devices[d].owner)
    ensures var row, after := t.devices[d], After(t, c);
            && d in after.devices && after.devices[d].owner == row.owner
            && (c.ExpireStale? ==> after.devices[d] == if SilentRow(row, c.now) then row.(status := Expired) else row)
            && (!c.ExpireStale? ==> after.devices[d].status == Active)
            && (c.Touch? && c.d == d ==> after.devices[d] == row.(lastSeen := Some(c.now)))
            && (LogsIn(c, d, row.owner) ==>
                  after.devices[d] == row.(platform := c.platform, lastSeen := Some(c.now)))
            && (!(c.Touch? && c.d == d) && !LogsIn(c, d, row.owner) ==>
                  after.devices[d].lastSeen == row.lastSeen && after.devices[d].platform == row.platform)
  {
    if c.RevokeAll? { AllRevokedExactly(t, c.m, d); }
    if c.ExpireStale? { SweepExpiresExactlyWhen(t, c.now, d); }
  }

  /** And the sweep that finds it silent does expire it. */
  lemma SilentDeviceExpires(s: Registry, calls: seq<Call>, d: DeviceId, now: int)
    requires d in s.devices && s.devices[d].status == Active
    requires forall i :: 0 <= i < |calls| ==> !Revokes(calls[i], d, s.devices[d].owner)
    requires forall i :: 0 <= i < |calls| && calls[i].ExpireStale? ==> !FoundSilent(s, calls[..i], d, calls[i].now)
    ensures var t := AfterAll(s, calls + [ExpireStale(now)]);
            d in t.devices && t.devices[d].status == if FoundSilent(s, calls, d, now) then Expired else Active
  {
    DeviceInUseStaysActive(s, calls, d);
    assert (calls + [ExpireStale(now)])[..|calls|] == calls;
    SweepExpiresExactlyWhen(AfterAll(s, calls), now, d);
  }

  // ---------------------------------------------------------------------
  // The cap of two.

  /** A login that brings an expired device back while two are already active. */
  predicate OverCap(s: Registry, c: Call, m: Email) {
    && c.Register? && c.m == m && KnownPlatform(c.platform)
    && Standing(s, m, c.d) == Some(Expired) && |ActiveIds(s, m)| >= DEVICE_CAP
  }

  /** A login either leaves the tables alone or leaves this device active, and touches
      no other. */
  lemma LoginStanding(s: Registry, m: Email, d: DeviceId, platform: string, now: int)
    ensures var t := After(s, Register(m, d, platform, now));
            || t == s
            || (&& Standing(t, m, d) == Some(Active) && (d in s.devices ==> s.devices[d].owner == m)
                && t.devices.Keys == s.devices.Keys + {d}
                && forall id :: id in s.devices && id != d ==> t.devices[id] == s.devices[id])
  {}

  lemma LoginActive(s: Registry, m: Email, d: DeviceId, platform: string, now: int, who: Email)
    ensures var t := After(s, Register(m, d, platform, now));
            ActiveIds(t, who) == ActiveIds(s, who) + (if who == m && Standing(t, m, d) == Some(Active) then {d} else {})
  {
    LoginStanding(s, m, d, platform, now);
    hide After;
    var t := After(s, Register(m, d, platform, now));
    forall id
      ensures id in ActiveIds(t, who) <==>
                id in ActiveIds(s, who) || (id == d && who == m && Standing(t, m, d) == Some(Active))
    {}
  }

  lemma OthersActive(s: Registry, c: Call, m: Email)
    requires !c.Register?
    ensures ActiveIds(After(s, c), m) <= ActiveIds(s, m)
  {}

  /** Only a login adds to the active list, and then only the device logging in. */
  lemma ActiveIdsAfter(s: Registry, c: Call, m: Email)
    ensures c.Register? && c.m == m && Standing(After(s, c), m, c.d) == Some(Active) ==>
              ActiveIds(After(s, c), m) == ActiveIds(s, m) + {c.d}
    ensures !(c.Register? && c.m == m && Standing(After(s, c), m, c.d) == Some(Active)) ==>
              ActiveIds(After(s, c), m) <= ActiveIds(s, m)
  {
    hide After, ActiveIds;
    match c
    case Register(_, d, platform, now) => LoginActive(s, c.m, d, platform, now, m);
    case _ => OthersActive(s, c, m);
  }

  lemma Fewer(a: set<DeviceId>, b: set<DeviceId>)
    requires a <= b
    ensures |a| <= |b|
  {
    if a != {} {
      var x :| x in a;
      Fewer(a - {x}, b - {x});
    }
  }

  /** A member within the cap stays within it at a step exactly when the step is not
      such a login: inserting a device respects the cap, reactivating one does not. */
  lemma CapKeptExactlyWhen(s: Registry, c: Call, m: Email)
    requires |ActiveIds(s, m)| <= DEVICE_CAP
    ensures |ActiveIds(After(s, c), m)| <= DEVICE_CAP <==> !OverCap(s, c, m)
  {
    ActiveIdsAfter(s, c, m);
    if OverCap(s, c, m) {
      assert c.d !in ActiveIds(s, m);
    } else if ActiveIds(After(s, c), m) <= ActiveIds(s, m) {
      Fewer(ActiveIds(After(s, c), m), ActiveIds(s, m));
    }
  }

  lemma {:induction false} CapHoldsWithoutReactivation(s: Registry, calls: seq<Call>, m: Email)
    requires |ActiveIds(s, m)| <= DEVICE_CAP
    requires forall i :: 0 <= i < |calls| ==> !OverCap(AfterAll(s, calls[..i]), calls[i], m)
    ensures |ActiveIds(AfterAll(s, calls), m)| <= DEVICE_CAP
  {
    if calls != [] {
      var n := |calls| - 1;
      forall i | 0 <= i < n
        ensures !OverCap(AfterAll(s, calls[..n][..i]), calls[..n][i], m)
      {
        assert calls[..n][..i] == calls[..i];
      }
      CapHoldsWithoutReactivation(s, calls[..n], m);
      CapKeptExactlyWhen(AfterAll(s, calls[..n]), calls[n], m);
    }
  }

  function Phone(m: Email, status: Status, platform: string, at: int): Device {
    Device(m, status, platform, Some(at), None)
  }

  lemma FirstLogins(m: Email)
    ensures AfterAll(Registry({m}, map[], map[]), [Register(m, "a", "web", 0)]) ==
              Registry({m}, map["a" := Phone(m, Active, "web", 0)], map[m := 1])
    ensures After(Registry({m}, map["a" := Phone(m, Active, "web", 0)], map[m := 1]), ExpireStale(15 * DAY))
         == Registry({m}, map["a" := Phone(m, Expired, "web", 0)], map[m := 1])
  {
    var s := Registry({m}, map[], map[]);
    assert ActiveIds(s, m) == {};
    assert AfterAll(s, [Register(m, "a", "web", 0)][..0]) == s;
    assert Silent(Registry({m}, map["a" := Phone(m, Active, "web", 0)], map[m := 1]), 15 * DAY) == {"a"};
  }

  lemma NewLogin(s: Registry, m: Email, d: DeviceId, now: int)
    requires d !in s.devices && m in s.members && |ActiveIds(s, m)| < DEVICE_CAP
    ensures var t := After(s, Register(m, d, "web", now));
            && t.members == s.members && t.devices == s.devices[d := Phone(m, Active, "web", now)]
            && ActiveIds(t, m) == ActiveIds(s, m) + {d}
  {
    ActiveIdsAfter(s, Register(m, d, "web", now), m);
  }

  /** The cap does break: a device falls silent and expires, two others log in, and
      the expired one logs in again. */
  lemma CapCanBreak(m: Email)
    ensures var late := 15 * DAY;
            var calls := [Register(m, "a", "web", 0), ExpireStale(late), Register(m, "b", "web", late),
                          Register(m, "c", "web", late), Register(m, "a", "web", late)];
            ActiveIds(AfterAll(Registry({m}, map[], map[]), calls), m) == {"a", "b", "c"}
  {
    hide AfterAll, After, ActiveIds;
    var s, late := Registry({m}, map[], map[]), 15 * DAY;
    FirstLogins(m);
    OneMore(s, [Register(m, "a", "web", 0)], ExpireStale(late));
    var two := [Register(m, "a", "web", 0)] + [ExpireStale(late)];
    assert two == [Register(m, "a", "web", 0), ExpireStale(late)];
    OnlyExpired(m);
    NewLogin(AfterAll(s, two), m, "b", late);
    OneMore(s, two, Register(m, "b", "web", late));
    var three := two + [Register(m, "b", "web", late)];
    assert three == [Register(m, "a", "web", 0), ExpireStale(late), Register(m, "b", "web", late)];
    NewLogin(AfterAll(s, three), m, "c", late);
    OneMore(s, three, Register(m, "c", "web", late));
    var four := three + [Register(m, "c", "web", late)];
    Reactivated(AfterAll(s, four), m, late);
    OneMore(s, four, Register(m, "a", "web", late));
    assert four + [Register(m, "a", "web", late)]
        == [Register(m, "a", "web", 0), ExpireStale(late), Register(m, "b", "web", late),
            Register(m, "c", "web", late), Register(m, "a", "web", late)];
  }

  lemma OneMore(s: Registry, calls: seq<Call>, c: Call)
    ensures AfterAll(s, calls + [c]) == After(AfterAll(s, calls), c)
  {
    assert (calls + [c])[..|calls|] == calls;
  }

  lemma OnlyExpired(m: Email)
    ensures ActiveIds(Registry({m}, map["a" := Phone(m, Expired, "web", 0)], map[m := 1]), m) == {}
  {}

  lemma Reactivated(s: Registry, m: Email, now: int)
    requires Standing(s, m, "a") == Some(Expired)
    ensures ActiveIds(After(s, Register(m, "a", "web", now)), m) == ActiveIds(s, m) + {"a"}
  {
    ActiveIdsAfter(s, Register(m, "a", "web", now), m);
  }
}
