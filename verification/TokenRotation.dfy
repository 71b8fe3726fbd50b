/** Refresh-token rotation: any number of Session objects over one localStorage
    and one Web Lock, against a server that revokes every device of the account
    when it is shown a refresh token it has already rotated away from. */
module TokenRotation {
  import opened SymbolicCrypto
  import DeviceRegistry

  type Email = DeviceRegistry.Email
  type DeviceId = DeviceRegistry.DeviceId
  type Registry = DeviceRegistry.Registry

  const EXPIRY_SKEW_MS := 30000

  /** An access token is told apart by its expiry only: two minted for one device
      in the same second are the same text. */
  type Access = int

  predicate IsUsable(token: Option<Access>, now: int) {
    token.Some? && token.value - EXPIRY_SKEW_MS > now
  }

  /** A refresh token is named by its jti. */
  datatype Tokens = Tokens(access: Access, refresh: nat)

  datatype Storage = Storage(access: Option<Access>, refresh: Option<nat>)

  datatype Response = Granted(tokens: Tokens) | Unauthorized | Failed

  // ---------------------------------------------------------------------
  // The server's half.

  datatype Device = Device(active: bool, jti: Option<nat>, minted: nat, reuse: bool)

  /** What token_refresh does with a refresh token; `valid` is whether its signature
      and expiry check out. A device without a recorded jti gets one free pass. */
  function Refreshed(d: Device, jti: nat, valid: bool, access: Access): (Device, Response) {
    if !valid || !d.active then (d, Unauthorized)
    else if d.jti.Some? && d.jti.value != jti then (d.(active := false, reuse := true), Unauthorized)
    else (d.(jti := Some(d.minted), minted := d.minted + 1), Granted(Tokens(access, d.minted)))
  }

  function LoggedIn(d: Device): Device {
    d.(active := true, jti := Some(d.minted), minted := d.minted + 1)
  }

  // ---------------------------------------------------------------------
  // The same over the device tables, where reuse revokes the whole account.

  predicate ActiveFor(s: Registry, m: Email, d: DeviceId) {
    d in s.devices && s.devices[d].owner == m && s.devices[d].status == DeviceRegistry.Active
  }

  function RecordedJti(s: Registry, d: DeviceId): Option<nat> {
    if d in s.devices then s.devices[d].refreshJti else None
  }

  /** One device of the tables; `minted` tokens so far, and whether reuse was ever seen. */
  function DeviceView(s: Registry, m: Email, d: DeviceId, minted: nat, reuse: bool): Device {
    Device(ActiveFor(s, m, d), RecordedJti(s, d), minted, reuse)
  }

  /** The token presented is valid, the device active, and the token not the recorded one. */
  predicate Superseded(s: Registry, m: Email, d: DeviceId, presented: nat, valid: bool) {
    valid && ActiveFor(s, m, d) && RecordedJti(s, d).Some? && RecordedJti(s, d).value != presented
  }

  function AfterRefresh(s: Registry, minted: nat, m: Email, d: DeviceId,
                        presented: nat, valid: bool, now: int): Registry
  {
    if !valid || !ActiveFor(s, m, d) then s
    else if Superseded(s, m, d, presented, valid) then DeviceRegistry.AllRevoked(s, m)
    else DeviceRegistry.WithJti(DeviceRegistry.Heartbeat(s, d, now), d, minted)
  }

  /** The calls a refresh makes on the device tables. */
  function RefreshCalls(s: Registry, minted: nat, m: Email, d: DeviceId, presented: nat, valid: bool, now: int)
    : seq<DeviceRegistry.Call>
  {
    if !valid || !ActiveFor(s, m, d) then []
    else if Superseded(s, m, d, presented, valid) then [DeviceRegistry.RevokeAll(m)]
    else [DeviceRegistry.Touch(d, now), DeviceRegistry.SetJti(d, minted)]
  }

  /** A refresh is those calls, so what holds over runs of the device tables holds here:
      a refresh counts as having seen the device. */
  lemma RefreshIsCalls(s: Registry, minted: nat, m: Email, d: DeviceId, presented: nat, valid: bool, now: int)
    ensures AfterRefresh(s, minted, m, d, presented, valid, now)
         == DeviceRegistry.AfterAll(s, RefreshCalls(s, minted, m, d, presented, valid, now))
  {
    var calls := RefreshCalls(s, minted, m, d, presented, valid, now);
    if |calls| == 1 { assert calls[..0] == []; }
    if |calls| == 2 {
      assert calls[..1][..0] == [];
      assert DeviceRegistry.AfterAll(s, calls[..1]) == DeviceRegistry.After(s, calls[0]);
    }
  }

  /** After a granted refresh no sweep of the next fourteen days expires the device. */
  lemma RefreshKeepsAlive(s: Registry, minted: nat, m: Email, d: DeviceId, presented: nat, now: int, later: int)
    requires ActiveFor(s, m, d) && !Superseded(s, m, d, presented, true) && later <= now + 14 * 86_400_000_000
    ensures var t := AfterRefresh(s, minted, m, d, presented, true, now);
            && ActiveFor(DeviceRegistry.StaleExpired(t, later), m, d)
            && t.devices[d] == s.devices[d].(lastSeen := Some(now), refreshJti := Some(minted))
            && forall id :: id in s.devices && id != d ==> id in t.devices && t.devices[id] == s.devices[id]
  {
    DeviceRegistry.SweepExpiresExactlyWhen(AfterRefresh(s, minted, m, d, presented, true, now), later, d);
  }

  /** Seen from one device, a refresh over the tables is the refresh above. */
  lemma RefreshIsRotation(s: Registry, minted: nat, reuse: bool, m: Email, d: DeviceId,
                          presented: nat, valid: bool, access: Access, now: int)
    ensures var t := AfterRefresh(s, minted, m, d, presented, valid, now);
            var (after, r) := Refreshed(DeviceView(s, m, d, minted, reuse), presented, valid, access);
            var minted' := if r.Granted? then minted + 1 else minted;
            after == DeviceView(t, m, d, minted', reuse || Superseded(s, m, d, presented, valid))
  {
    if Superseded(s, m, d, presented, valid) { assert d in DeviceRegistry.ActiveIds(s, m); }
  }

  /** Reuse leaves the member without any active device, moves the version the member's
      peers watch by one, and touches nobody else. */
  lemma ReuseRevokesEveryDevice(s: Registry, minted: nat, m: Email, d: DeviceId,
                                presented: nat, now: int, other: DeviceId)
    requires Superseded(s, m, d, presented, true)
    ensures var t := AfterRefresh(s, minted, m, d, presented, true, now);
            && DeviceRegistry.ActiveIds(t, m) == {}
            && (forall id :: id in DeviceRegistry.ActiveIds(s, m) ==> t.devices[id].status == DeviceRegistry.Revoked)
            && DeviceRegistry.VersionOf(t, m) == DeviceRegistry.VersionOf(s, m) + 1
            && (other in s.devices && s.devices[other].owner != m ==>
                  other in t.devices && t.devices[other] == s.devices[other])
  {
    assert d in DeviceRegistry.ActiveIds(s, m);
    assert other in s.devices && s.devices[other].owner != m ==> other !in DeviceRegistry.ActiveIds(s, m);
  }

  class AuthServer {
    const service: DeviceRegistry.DeviceService
    var minted: nat
    ghost var reuse: bool

    ghost function Value(m: Email, d: DeviceId): Device
      reads this, service
    {
      DeviceView(service.Tables(), m, d, minted, reuse)
    }

    constructor (service: DeviceRegistry.DeviceService)
      ensures this.service == service && minted == 0 && !reuse
    {
      this.service, minted, reuse := service, 0, false;
    }

    /** Login, once the code is verified: the device is registered and gets its first
        token; a refused login changes nothing. */
    method OtpVerified(m: Email, d: DeviceId, platform: string, access: Access, now: int)
      returns (r: Result<Tokens, DeviceRegistry.DeviceError>)
      modifies this, service
      ensures r.Ok? ==> Value(m, d) == LoggedIn(old(Value(m, d))) && r.value == Tokens(access, old(minted))
      ensures match DeviceRegistry.Registered(old(service.Tables()), m, d, platform, now)
              case Ok(s) =>
                r.Ok? && service.Tables() == DeviceRegistry.WithJti(s, d, old(minted)) && minted == old(minted) + 1
              case Err(e) => r == Err(e) && service.Tables() == old(service.Tables()) && minted == old(minted)
    {
      var status := service.RegisterOrTouchDevice(m, d, platform, now);
      if status.Err? { return Err(status.error); }
      var jti := minted;
      minted := minted + 1;
      service.SetRefreshJti(d, jti);
      r := Ok(Tokens(access, jti));
    }

    method TokenRefresh(m: Email, d: DeviceId, presented: nat, valid: bool, access: Access, now: int)
      returns (r: Response)
      modifies this, service
      ensures service.Tables() == AfterRefresh(old(service.Tables()), old(minted), m, d, presented, valid, now)
      ensures reuse == (old(reuse) || Superseded(old(service.Tables()), m, d, presented, valid))
      ensures (Value(m, d), r) == Refreshed(old(Value(m, d)), presented, valid, access)
    {
      RefreshIsRotation(service.Tables(), minted, reuse, m, d, presented, valid, access, now);
      if !valid { return Unauthorized; }
      if d !in service.devices || service.devices[d].owner != m || service.devices[d].status != DeviceRegistry.Active {
        return Unauthorized;
      }
      var stored := service.devices[d].refreshJti;
      if stored.Some? && presented != stored.value {
        reuse := true;
        var _ := service.RevokeAllDevices(m);
        return Unauthorized;
      }
      service.TouchHeartbeat(d, now);
      var jti := minted;
      minted := minted + 1;
      service.SetRefreshJti(d, jti);
      r := Granted(Tokens(access, jti));
    }
  }

  // ---------------------------------------------------------------------
  // The browser's half.

  /** What the critical section does before its first await. */
  datatype Entry = Adopt(token: Access) | Ended | Ask(refresh: nat)

  function EntryOf(mine: Option<Access>, store: Storage, now: int): Entry {
    if IsUsable(store.access, now) && store.access != mine then Adopt(store.access.value)
    else if store.refresh.None? then Ended
    else Ask(store.refresh.value)
  }

  function Settled(store: Storage, r: Response): Storage {
    match r
    case Granted(t) => Storage(Some(t.access), Some(t.refresh))
    case Unauthorized => Storage(None, None)
    case Failed => store
  }

  class LocalStorage {
    var access: Option<Access>
    var refresh: Option<nat>

    function Value(): Storage
      reads this
    {
      Storage(access, refresh)
    }

    constructor (access: Option<Access>, refresh: Option<nat>)
      ensures Value() == Storage(access, refresh)
    {
      this.access, this.refresh := access, refresh;
    }

    method PersistSession(t: Tokens)
      modifies this
      ensures Value() == Storage(Some(t.access), Some(t.refresh))
    {
      refresh := Some(t.refresh);
      access := Some(t.access);
    }

    method ClearSession()
      modifies this
      ensures Value() == Storage(None, None)
    {
      refresh := None;
      access := None;
    }
  }

  class Session {
    var accessToken: Option<Access>
    const storage: LocalStorage

    constructor (storage: LocalStorage, now: int)
      ensures this.storage == storage
      ensures accessToken == if IsUsable(storage.access, now) then storage.access else None
    {
      this.storage := storage;
      accessToken := if IsUsable(storage.access, now) then storage.access else None;
    }

    method EnterCritical(now: int) returns (e: Entry)
      modifies this
      ensures e == EntryOf(old(accessToken), storage.Value(), now)
      ensures accessToken == if e.Adopt? then Some(e.token) else old(accessToken)
    {
      var stored := storage.access;
      if IsUsable(stored, now) && stored != accessToken {
        accessToken := stored;
        return Adopt(stored.value);
      }
      if storage.refresh.None? {
        return Ended;
      }
      e := Ask(storage.refresh.value);
    }

    /** Adopting a grant, ending on a 401, and leaving everything on other errors. */
    method Settle(r: Response)
      modifies this, storage
      ensures storage.Value() == Settled(old(storage.Value()), r)
      ensures accessToken == if r.Granted? then Some(r.tokens.access) else old(accessToken)
    {
      match r
      case Granted(t) =>
        accessToken := Some(t.access);
        storage.PersistSession(t);
      case Unauthorized =>
        storage.ClearSession();
      case Failed =>
    }
  }

  // ---------------------------------------------------------------------
  // The interleavings.

  /** Where a Session object's refresh is: not running, waiting for the lock, with
      its request on the way, or with the response on the way back. */
  datatype Phase = Idle | Waiting | Requested(refresh: nat) | Responded(r: Response)

  datatype Tab = Tab(access: Option<Access>, phase: Phase)

  type TabId = nat

  datatype World = World(device: Device, store: Storage, lock: Option<TabId>, tabs: map<TabId, Tab>,
                         login: Option<Tokens>, now: int, hasLocks: bool)

  datatype Action =
    | OpenTab(t: TabId)
    | WantRefresh(t: TabId)
    | Enter(t: TabId)
    | ServerHandles(t: TabId, valid: bool, access: Access)
    | RequestLost(t: TabId)
    | ResponseLost(t: TabId)
    | Receive(t: TabId)
    | SignOut
    | Deactivate
    | LoginAccepted(access: Access)
    | LoginAdopted
    | Wait(ms: nat)

  predicate InFlight(w: World, t: TabId) {
    t in w.tabs && (w.tabs[t].phase.Requested? || w.tabs[t].phase.Responded?)
  }

  function WithTab(w: World, t: TabId, tab: Tab): World {
    w.(tabs := w.tabs[t := tab])
  }

  function Step(w: World, act: Action): World {
    match act
    case OpenTab(t) =>
      if t in w.tabs then w
      else WithTab(w, t, Tab(if IsUsable(w.store.access, w.now) then w.store.access else None, Idle))
    case WantRefresh(t) =>
      if t in w.tabs && w.tabs[t].phase == Idle then WithTab(w, t, w.tabs[t].(phase := Waiting)) else w
    case Enter(t) =>
      if t !in w.tabs || w.tabs[t].phase != Waiting || (w.hasLocks && w.lock.Some?) then w
      else
        (match EntryOf(w.tabs[t].access, w.store, w.now)
         case Adopt(a) => WithTab(w, t, Tab(Some(a), Idle))
         case Ended => WithTab(w, t, w.tabs[t].(phase := Idle))
         case Ask(r) => WithTab(w, t, w.tabs[t].(phase := Requested(r))).(lock := if w.hasLocks then Some(t) else None))
    case ServerHandles(t, valid, access) =>
      if t !in w.tabs || !w.tabs[t].phase.Requested? then w
      else
        var r := Refreshed(w.device, w.tabs[t].phase.refresh, valid, access);
        WithTab(w, t, w.tabs[t].(phase := Responded(r.1))).(device := r.0)
    case RequestLost(t) =>
      if t in w.tabs && w.tabs[t].phase.Requested? then WithTab(w, t, w.tabs[t].(phase := Responded(Failed))) else w
    case ResponseLost(t) =>
      if t in w.tabs && w.tabs[t].phase.Responded? then WithTab(w, t, w.tabs[t].(phase := Responded(Failed))) else w
    case Receive(t) =>
      if t !in w.tabs || !w.tabs[t].phase.Responded? then w
      else
        var r := w.tabs[t].phase.r;
        WithTab(w, t, Tab(if r.Granted? then Some(r.tokens.access) else w.tabs[t].access, Idle))
          .(store := Settled(w.store, r), lock := if w.lock == Some(t) then None else w.lock)
    case SignOut => w.(store := Storage(None, None))
    case Deactivate => w.(device := w.device.(active := false))
    case LoginAccepted(access) => w.(device := LoggedIn(w.device), login := Some(Tokens(access, w.device.minted)))
    case LoginAdopted =>
      if w.login.None? then w
      else w.(store := Storage(Some(w.login.value.access), Some(w.login.value.refresh)), login := None)
    case Wait(ms) => w.(now := w.now + ms)
  }

  /** No tab open, nothing in flight, and whatever refresh token is stored is the
      current one, or predates recorded jtis. */
  predicate Fresh(w: World) {
    && w.lock.None? && w.tabs == map[] && w.login.None? && !w.device.reuse
    && (w.store.refresh.Some? ==> w.device.jti.None? || w.device.jti == w.store.refresh)
  }

  function Run(w: World, acts: seq<Action>): World {
    if acts == [] then w else Step(Run(w, acts[..|acts| - 1]), acts[|acts| - 1])
  }

  /** What the protocol relies on: no response is lost, and no login overlaps a
      refresh or another login on this device. */
  predicate Calm(w: World, act: Action) {
    match act
    case ResponseLost(t) => !(t in w.tabs && w.tabs[t].phase.Responded? && w.tabs[t].phase.r.Granted?)
    case LoginAccepted(_) => w.login.None? && w.lock.None?
    case Enter(_) => w.login.None?
    case _ => true
  }

  predicate CalmRun(w: World, acts: seq<Action>) {
    acts == [] || (CalmRun(w, acts[..|acts| - 1]) && Calm(Run(w, acts[..|acts| - 1]), acts[|acts| - 1]))
  }

  // ---------------------------------------------------------------------
  // The invariant: the lock holder alone is in flight, and what is stored, or on
  // its way back, is the server's current token.

  predicate Current(w: World, r: nat) {
    w.device.jti.None? || w.device.jti == Some(r)
  }

  predicate StoreCurrent(w: World) {
    w.store.refresh.Some? ==> Current(w, w.store.refresh.value)
  }

  predicate HolderInv(w: World, t: TabId)
    requires t in w.tabs
  {
    match w.tabs[t].phase
    case Requested(r) => Current(w, r) && StoreCurrent(w)
    case Responded(Granted(g)) => w.device.jti == Some(g.refresh)
    case Responded(_) => StoreCurrent(w)
    case _ => false
  }

  predicate Inv(w: World) {
    && w.hasLocks && !w.device.reuse
    && (forall t :: t in w.tabs && InFlight(w, t) ==> w.lock == Some(t))
    && (w.login.Some? ==> w.device.jti == Some(w.login.value.refresh) && w.lock.None?)
    && (if w.lock.Some? then w.lock.value in w.tabs && HolderInv(w, w.lock.value)
        else w.login.None? ==> StoreCurrent(w))
  }

  lemma StepInv(w: World, act: Action)
    requires Inv(w) && Calm(w, act)
    ensures Inv(Step(w, act))
  {
    var v := Step(w, act);
    assert forall t :: t in v.tabs && InFlight(v, t) && !InFlight(w, t) ==> act == Enter(t);
  }

  lemma {:induction false} RunInv(w: World, acts: seq<Action>)
    requires Fresh(w) && w.hasLocks && CalmRun(w, acts)
    ensures Inv(Run(w, acts))
  {
    if acts != [] {
      var n := |acts| - 1;
      RunInv(w, acts[..n]);
      StepInv(Run(w, acts[..n]), acts[n]);
    }
  }

  /** Safety: with the lock, and as long as the assumptions hold, no interleaving
      whatever makes the server see a superseded token. */
  lemma ReuseNeverDetected(w: World, acts: seq<Action>)
    requires Fresh(w) && w.hasLocks && CalmRun(w, acts)
    ensures !Run(w, acts).device.reuse
  {
    RunInv(w, acts);
  }

  /** Any request on its way carries the server's current token, and only one is. */
  lemma RequestsCarryCurrentToken(w: World, acts: seq<Action>, t: TabId)
    requires Fresh(w) && w.hasLocks && CalmRun(w, acts)
    requires var v := Run(w, acts); t in v.tabs && v.tabs[t].phase.Requested?
    ensures var v := Run(w, acts);
            && Current(v, v.tabs[t].phase.refresh)
            && forall u :: InFlight(v, u) ==> u == t
  {
    RunInv(w, acts);
  }

  /** So a tab is signed out only by a server that really ended the session. */
  lemma SignedOutOnlyWhenEnded(w: World, acts: seq<Action>, t: TabId, valid: bool, access: Access)
    requires Fresh(w) && w.hasLocks && CalmRun(w, acts)
    requires var v := Run(w, acts); t in v.tabs && v.tabs[t].phase.Requested?
    ensures var v := Run(w, acts);
            Refreshed(v.device, v.tabs[t].phase.refresh, valid, access).1.Unauthorized? <==> !valid || !v.device.active
  {
    RunInv(w, acts);
  }

  predicate Unexpired(access: Access, at: int) {
    at < access
  }

  /** An access token is usable exactly when it is unexpired at every moment of the next
      thirty seconds. */
  lemma UsableExactlyWhen(access: Access, now: int)
    ensures IsUsable(Some(access), now) <==> forall later :: now <= later <= now + 30000 ==> Unexpired(access, later)
    ensures !IsUsable(None, now)
  {
    assert Unexpired(access, now + 30000) <==> now + 30000 < access;
  }

  /** Another tab's tokens are free for the taking. */
  predicate Adoptable(w: World, t: TabId) {
    t in w.tabs && w.store.access.Some? && w.store.access != w.tabs[t].access && w.store.access.value > w.now + 30000
  }

  /** A tab that gets its turn adopts the stored access token when another tab put a usable
      one there, without asking the server; asks the server, with the stored refresh
      token, only when there is none to adopt; and gives up when nothing is stored. */
  lemma TurnTakenExactlyWhen(w: World, t: TabId)
    requires t in w.tabs && w.tabs[t].phase == Waiting && (w.hasLocks ==> w.lock.None?)
    ensures var v := Step(w, Enter(t));
            && t in v.tabs && v.device == w.device && v.store == w.store
            && (Adoptable(w, t) ==> v.tabs[t] == Tab(w.store.access, Idle) && v.lock == w.lock)
            && (!Adoptable(w, t) && w.store.refresh.Some? ==>
                  && v.tabs[t] == Tab(w.tabs[t].access, Requested(w.store.refresh.value))
                  && (w.hasLocks ==> v.lock == Some(t)))
            && (!Adoptable(w, t) && w.store.refresh.None? ==>
                  v.tabs[t] == Tab(w.tabs[t].access, Idle) && v.lock == w.lock)
  {}

  /** A tab opened while a usable access token is stored starts with it. */
  lemma NewTabStartsWith(w: World, t: TabId)
    requires t !in w.tabs
    ensures var v := Step(w, OpenTab(t));
            && t in v.tabs && v.tabs[t].phase == Idle && v.store == w.store
            && (v.tabs[t].access.Some? <==> w.store.access.Some? && w.store.access.value > w.now + 30000)
            && (v.tabs[t].access.Some? ==> v.tabs[t].access == w.store.access)
  {}

  /** A grant replaces both stored tokens; a refusal clears them; any other failure
      leaves them. Either way the lock is given up. */
  lemma AnswerIsStored(w: World, t: TabId, r: Response)
    requires t in w.tabs && w.tabs[t].phase == Responded(r)
    ensures var v := Step(w, Receive(t));
            && v.lock != Some(t) && t in v.tabs && v.tabs[t].phase == Idle
            && (r.Granted? ==> v.store == Storage(Some(r.tokens.access), Some(r.tokens.refresh)))
            && (r.Granted? ==> v.tabs[t].access == Some(r.tokens.access))
            && (r == Failed ==> v.store == w.store && v.tabs[t].access == w.tabs[t].access)
            && (r == Unauthorized ==> v.store == Storage(None, None))
  {}

  /** What the server grants is the new current token, with the access token asked for. */
  lemma GrantIsCurrent(d: Device, jti: nat, access: Access)
    requires d.active && (d.jti.Some? ==> d.jti.value == jti)
    ensures var (after, r) := Refreshed(d, jti, true, access);
            && r.Granted? && r.tokens.access == access && after.jti == Some(r.tokens.refresh)
            && r.tokens.refresh >= d.minted && after.minted > r.tokens.refresh && after.active && after.reuse == d.reuse
  {}

  /** Reuse is detected, in any world at all, exactly when a request the server is
      handling carries a valid token of an active device that is not the recorded
      one. */
  lemma ReuseExactlyWhenSuperseded(w: World, act: Action)
    requires !w.device.reuse
    ensures Step(w, act).device.reuse <==>
              && act.ServerHandles? && act.t in w.tabs && w.tabs[act.t].phase.Requested?
              && act.valid && w.device.active && !Current(w, w.tabs[act.t].phase.refresh)
  {}

  // ---------------------------------------------------------------------
  // Each assumption is needed: dropping it, reuse is reachable from an ordinary
  // signed-in browser.

  const SIGNED_IN := World(Device(true, Some(0), 1, false), Storage(None, Some(0)), None, map[], None, 0, true)

  function After(w: World, acts: seq<Action>): World
    decreases |acts|
  {
    if acts == [] then w else After(Step(w, acts[0]), acts[1..])
  }

  lemma {:induction false} AfterIsRun(w: World, acts: seq<Action>)
    ensures After(w, acts) == Run(w, acts)
    decreases |acts|
  {
    if acts != [] {
      AfterIsRun(Step(w, acts[0]), acts[1..]);
      RunFromSecond(w, acts);
    }
  }

  lemma {:induction false} RunFromSecond(w: World, acts: seq<Action>)
    requires acts != []
    ensures Run(Step(w, acts[0]), acts[1..]) == Run(w, acts)
    decreases |acts|
  {
    if |acts| == 1 {
      assert acts[..0] == [];
      assert Run(w, acts[..0]) == w;
    } else {
      var front := acts[..|acts| - 1];
      RunFromSecond(w, front);
      assert front[1..] == acts[1..][..|acts| - 2];
    }
  }

  lemma TwoSteps(w: World, acts: seq<Action>)
    requires |acts| >= 2
    ensures After(w, acts) == After(Step(Step(w, acts[0]), acts[1]), acts[2..])
  {
    assert acts[1..][1..] == acts[2..];
  }

  /** Two tabs that both hold the token when neither waits for the other. */
  const NO_LOCKS := SIGNED_IN.(hasLocks := false)
  const TWO_TABS := [OpenTab(1), OpenTab(2), WantRefresh(1), WantRefresh(2), Enter(1), Enter(2),
                     ServerHandles(1, true, 900000), ServerHandles(2, true, 900000)]

  function BothTabs(phase: Phase): World {
    NO_LOCKS.(tabs := map[1 := Tab(None, phase), 2 := Tab(None, phase)])
  }

  lemma BothTabsAsk()
    ensures Step(Step(NO_LOCKS, OpenTab(1)), OpenTab(2)) == BothTabs(Idle)
    ensures Step(Step(BothTabs(Idle), WantRefresh(1)), WantRefresh(2)) == BothTabs(Waiting)
    ensures Step(Step(BothTabs(Waiting), Enter(1)), Enter(2)) == BothTabs(Requested(0))
  {}

  lemma BothServed()
    ensures var first := Step(BothTabs(Requested(0)), ServerHandles(1, true, 900000));
            Step(first, ServerHandles(2, true, 900000)).device.reuse
  {}

  lemma WithoutLocksReuseIsReachable()
    ensures Fresh(NO_LOCKS) && Run(NO_LOCKS, TWO_TABS).device.reuse
  {
    AfterIsRun(NO_LOCKS, TWO_TABS);
    BothTabsAsk();
    BothServed();
    hide Step, Run, BothTabs;
    TwoSteps(NO_LOCKS, TWO_TABS);
    TwoSteps(BothTabs(Idle), TWO_TABS[2..]);
    TwoSteps(BothTabs(Waiting), TWO_TABS[2..][2..]);
    TwoSteps(BothTabs(Requested(0)), TWO_TABS[2..][2..][2..]);
  }

  /** A grant that never arrives leaves the superseded token in storage. */
  const ROTATES := [OpenTab(1), WantRefresh(1), Enter(1), ServerHandles(1, true, 900000)]
  const LOSES_GRANT := [ResponseLost(1), Receive(1)]
  const ASKS_AGAIN := [WantRefresh(1), Enter(1), ServerHandles(1, true, 900000)]

  const GRANTED := World(Device(true, Some(1), 2, false), Storage(None, Some(0)), Some(1),
                         map[1 := Tab(None, Responded(Granted(Tokens(900000, 1))))], None, 0, true)
  const STALE := GRANTED.(lock := None, tabs := map[1 := Tab(None, Idle)])

  lemma {:induction false} AfterAppend(w: World, a: seq<Action>, b: seq<Action>)
    ensures After(w, a + b) == After(After(w, a), b)
    decreases |a|
  {
    if a == [] {
      assert a + b == b;
    } else {
      assert (a + b)[1..] == a[1..] + b;
      AfterAppend(Step(w, a[0]), a[1..], b);
    }
  }

  lemma TokenRotates()
    ensures After(SIGNED_IN, ROTATES) == GRANTED
  {
    TwoSteps(SIGNED_IN, ROTATES);
    var w1 := SIGNED_IN.(tabs := map[1 := Tab(None, Waiting)]);
    assert Step(Step(SIGNED_IN, OpenTab(1)), WantRefresh(1)) == w1;
    TwoSteps(w1, ROTATES[2..]);
    assert Step(Step(w1, Enter(1)), ServerHandles(1, true, 900000)) == GRANTED;
  }

  lemma StaleTokenIsSentAgain()
    ensures After(GRANTED, LOSES_GRANT) == STALE && After(STALE, ASKS_AGAIN).device.reuse
  {
    TwoSteps(GRANTED, LOSES_GRANT);
    TwoSteps(STALE, ASKS_AGAIN);
    var asking := STALE.(lock := Some(1), tabs := map[1 := Tab(None, Requested(0))]);
    assert Step(Step(STALE, WantRefresh(1)), Enter(1)) == asking;
  }

  lemma LostGrantReuseIsReachable()
    ensures Fresh(SIGNED_IN) && Run(SIGNED_IN, ROTATES + LOSES_GRANT + ASKS_AGAIN).device.reuse
  {
    AfterIsRun(SIGNED_IN, ROTATES + LOSES_GRANT + ASKS_AGAIN);
    AfterAppend(SIGNED_IN, ROTATES + LOSES_GRANT, ASKS_AGAIN);
    AfterAppend(SIGNED_IN, ROTATES, LOSES_GRANT);
    TokenRotates();
    StaleTokenIsSentAgain();
    hide After, Run;
  }

  /** A login accepted while a refresh is on its way supersedes its token. */
  const RACING_LOGIN := [OpenTab(1), WantRefresh(1), Enter(1), LoginAccepted(900000),
                         ServerHandles(1, true, 900000), Receive(1)]

  lemma RacingLoginReuseIsReachable()
    ensures Fresh(SIGNED_IN) && Run(SIGNED_IN, RACING_LOGIN).device.reuse
  {
    AfterIsRun(SIGNED_IN, RACING_LOGIN);
    TwoSteps(SIGNED_IN, RACING_LOGIN);
    var w1 := SIGNED_IN.(tabs := map[1 := Tab(None, Waiting)]);
    assert Step(Step(SIGNED_IN, OpenTab(1)), WantRefresh(1)) == w1;
    TwoSteps(w1, RACING_LOGIN[2..]);
    var w2 := SIGNED_IN.(device := Device(true, Some(1), 2, false), lock := Some(1),
                         tabs := map[1 := Tab(None, Requested(0))],
                         login := Some(Tokens(900000, 1)));
    assert Step(Step(w1, Enter(1)), LoginAccepted(900000)) == w2;
    TwoSteps(w2, RACING_LOGIN[2..][2..]);
  }
}
