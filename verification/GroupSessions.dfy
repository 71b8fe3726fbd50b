/** The pairwise sessions of a group call over whole runs: how long one lasts, which
    genuine room keys it opens, and how a call reaches a split. */
module GroupSessions {
  import opened SymbolicCrypto
  import opened X3dh
  import opened TransportChains
  import opened Rotation
  import opened GroupClients
  import opened GroupRuns

  // ---------------------------------------------------------------------
  // A session lasts, and only moves forward.

  /** What ends the session of `at` with `peer`. */
  predicate Drops(e: Event, at: Id, peer: Id) {
    (e.Reconnects? || (e.ResetArrives? && e.from == peer)) && e.at == at
  }

  predicate Has(w: World, at: Id, peer: Id) {
    at in w.clients && peer in w.clients[at].sessions
  }

  /** Same session, no earlier index. */
  predicate Continues(s: Session, t: Session) {
    t.binding == s.binding && Origin(t.chain.key) == Origin(s.chain.key) && s.chain.index <= t.chain.index
  }

  /** The seed a chain or message key was walked from. */
  function Origin(t: Term): Term {
    match t
    case MessageKey(c) => Origin(c)
    case NextChain(c) => Origin(c)
    case _ => t
  }

  lemma {:induction false} OriginKept(key: Term, steps: nat)
    ensures Origin(Ratcheted(key, steps)) == Origin(key)
  {
    if steps > 0 { OriginKept(key, steps - 1); }
  }

  lemma WalkedContinues(s: Session, gen: int)
    ensures Continues(s, s.(chain := Walked(s.chain, gen)))
  {
    if gen >= s.chain.index { OriginKept(s.chain.key, gen - s.chain.index); }
  }

  lemma SealedForContinues(c: Client, to: Id, key: RoomKey, gen: int, fetch: Option<Fetch>, peer: Id)
    requires peer in c.sessions
    ensures var d := SealedFor(c, to, key, gen, fetch).0;
            peer in d.sessions && Continues(c.sessions[peer], d.sessions[peer])
  {
    WalkedContinues(c.sessions[peer], gen);
  }

  lemma GotRoomKeyContinues(c: Client, from: Id, gen: int, blob: Blob, init: Option<InitialMessage>,
                            onFile: Option<OnFile>,
                            peer: Id)
    requires peer in c.sessions
    ensures var d := GotRoomKey(c, from, gen, blob, init, onFile).client;
            peer in d.sessions && Continues(c.sessions[peer], d.sessions[peer])
  {
    WalkedContinues(c.sessions[peer], gen);
  }

  lemma GotResetContinues(c: Client, from: Id, now: int, fetch: Option<Fetch>, peer: Id)
    requires peer in c.sessions && from != peer
    ensures var d := GotReset(c, from, now, fetch).client;
            peer in d.sessions && Continues(c.sessions[peer], d.sessions[peer])
  {
    if !Cooling(c, from, now) && c.roomKey.Some? {
      SealedForContinues(c.(honored := c.honored[from := now], sessions := c.sessions - {from}), from,
                         c.roomKey.value, c.generation, fetch, peer);
    }
  }

  lemma ActorContinues(cast: Cast, w: World, e: Event, peer: Id)
    requires cast.rotator in w.clients && May(cast, w, e) && Actor(cast, e) in w.clients
    requires var c := w.clients[Actor(cast, e)]; c.me == Actor(cast, e) && peer in c.sessions && !Drops(e, c.me, peer)
    ensures var c, d := w.clients[Actor(cast, e)], NewClient(cast, w, e);
            peer in d.sessions && Continues(c.sessions[peer], d.sessions[peer])
  {
    hide Decided, Others, News, Elected, ProofShowable, Agrees, SealedFor, GotReset, GotRoomKey;
    var c := w.clients[Actor(cast, e)];
    match e
    case SealNext(fetch) => SealedForContinues(c, w.job.value.left[0], w.job.value.key, w.job.value.gen, fetch, peer);
    case RoomKeyArrives(_, from, gen, blob, init, onFile) =>
      GotRoomKeyContinues(c, from, gen, blob, init, onFile, peer);
    case ResetArrives(_, from, now, fetch) => GotResetContinues(c, from, now, fetch, peer);
    case _ =>
  }

  lemma EventContinues(cast: Cast, w: World, e: Event, at: Id, peer: Id)
    requires Good(cast, w) && May(cast, w, e) && Has(w, at, peer) && !Drops(e, at, peer)
    ensures Has(Happens(cast, w, e), at, peer)
    ensures Continues(w.clients[at].sessions[peer], Happens(cast, w, e).clients[at].sessions[peer])
  {
    HappensToActor(cast, w, e);
    if at == Actor(cast, e) { ActorContinues(cast, w, e, peer); }
  }

  /** Over any stretch of a call without a reconnect of `at` or a reset from `peer`,
      the session of `at` with `peer` stays and its index never falls. */
  lemma {:induction false} SessionLasts(cast: Cast, events: seq<Event>, i: nat, j: nat, at: Id, peer: Id)
    requires cast.rotator in cast.people && i <= j <= |events| && Has(After(cast, events[..i]), at, peer)
    requires forall k :: i <= k < j ==> !Drops(events[k], at, peer)
    ensures Has(After(cast, events[..j]), at, peer)
    ensures Continues(After(cast, events[..i]).clients[at].sessions[peer],
                      After(cast, events[..j]).clients[at].sessions[peer])
  {
    if i < j {
      SessionLasts(cast, events, i, j - 1, at, peer);
      AfterGood(cast, events[..j - 1]);
      assert events[..j][..j - 1] == events[..j - 1];
      var w := After(cast, events[..j - 1]);
      hide Happens, Good, May, Has, Continues, Drops;
      assert After(cast, events[..j]) == Next(cast, w, events[j - 1]);
      if May(cast, w, events[j - 1]) { EventContinues(cast, w, events[j - 1], at, peer); }
      assert Continues(w.clients[at].sessions[peer], w.clients[at].sessions[peer]);
    }
  }

  /** The room key was taken in: its proof goes out. */
  predicate Took(h: Handled) {
    exists m :: m in h.out && m.FingerprintMessage?
  }

  /** This event makes `at` take in a room key on its session with `peer`. */
  ghost predicate TakesIn(cast: Cast, w: World, e: Event, at: Id, peer: Id) {
    && May(cast, w, e) && e.RoomKeyArrives? && e.at == at && e.from == peer
    && Took(GotRoomKey(w.clients[at], peer, e.gen, e.blob, e.init, e.onFile))
  }

  lemma TookMeans(c: Client, from: Id, gen: int, blob: Blob, init: Option<InitialMessage>, onFile: Option<OnFile>)
    ensures var h := GotRoomKey(c, from, gen, blob, init, onFile);
            && h.client.me == c.me
            && (Took(h) ==> from in h.client.sessions && h.client.sessions[from].chain.index == gen)
            && (Took(h) && from in c.sessions ==> c.sessions[from].chain.index <= gen)
            && (from in c.sessions ==> from in h.client.sessions && h.client.sessions[from].chain.index >= gen)
  {}

  /** This event has `at` process a room-key message on its session with `peer`, opened
      or refused. */
  ghost predicate Processes(cast: Cast, w: World, e: Event, at: Id, peer: Id) {
    && May(cast, w, e) && e.RoomKeyArrives? && e.at == at && e.from == peer
    && (Has(w, at, peer) || TakesIn(cast, w, e, at, peer))
  }

  /** Afterwards the index of the session is at least that generation. */
  lemma ProcessedMovesIndex(cast: Cast, w: World, e: Event, at: Id, peer: Id)
    requires Good(cast, w) && Processes(cast, w, e, at, peer)
    ensures Has(Happens(cast, w, e), at, peer)
    ensures Happens(cast, w, e).clients[at].sessions[peer].chain.index >= e.gen
  {
    MeIsMe(cast, w, at);
    TookMeans(w.clients[at], peer, e.gen, e.blob, e.init, e.onFile);
    hide May, GotRoomKey, Good;
  }

  /** And it stays there for as long as the session lasts. */
  lemma IndexStaysAbove(cast: Cast, events: seq<Event>, i: nat, j: nat, at: Id, peer: Id)
    requires cast.rotator in cast.people && i < j <= |events|
    requires Processes(cast, After(cast, events[..i]), events[i], at, peer)
    requires forall k :: i < k < j ==> !Drops(events[k], at, peer)
    ensures Has(After(cast, events[..j]), at, peer)
    ensures After(cast, events[..j]).clients[at].sessions[peer].chain.index >= events[i].gen
  {
    var v := After(cast, events[..i]);
    AfterGood(cast, events[..i]);
    ProcessedMovesIndex(cast, v, events[i], at, peer);
    assert events[..i + 1][..i] == events[..i];
    hide Good, May, Happens, GotRoomKey, Drops;
    assert After(cast, events[..i + 1]) == Happens(cast, v, events[i]);
    SessionLasts(cast, events, i + 1, j, at, peer);
  }

  /** On one session, over any run, the room keys taken in have non-decreasing
      generations; and none is taken in below a generation processed before, even if
      that message was refused. */
  lemma GenerationsNeverFall(cast: Cast, events: seq<Event>, i: nat, j: nat, v: World, w: World, at: Id, peer: Id)
    requires cast.rotator in cast.people && i < j < |events|
    requires v == After(cast, events[..i]) && Processes(cast, v, events[i], at, peer)
    requires w == After(cast, events[..j]) && TakesIn(cast, w, events[j], at, peer)
    requires forall k :: i < k < j ==> !Drops(events[k], at, peer)
    ensures events[i].gen <= events[j].gen
  {
    IndexStaysAbove(cast, events, i, j, at, peer);
    hide May, After, Drops;
    var e := events[j];
    TookMeans(w.clients[at], peer, e.gen, e.blob, e.init, e.onFile);
  }

  // ---------------------------------------------------------------------
  // Which genuine room keys open.

  /** A chain key that is its seed walked this many steps. */
  predicate Walk(key: Term, steps: int) {
    match key
    case ChainOf(_, _) => steps == 0
    case NextChain(c) => Walk(c, steps - 1)
    case _ => false
  }

  lemma {:induction false} WalkOn(key: Term, steps: int, more: nat)
    requires Walk(key, steps)
    ensures Walk(Ratcheted(key, more), steps + more)
  {
    if more > 0 { WalkOn(key, steps, more - 1); }
  }

  lemma {:induction false} WalkDetermined(a: Term, b: Term, steps: int)
    requires Walk(a, steps) && Walk(b, steps)
    ensures Origin(a) == Origin(b) <==> a == b
  {
    if a.NextChain? && b.NextChain? {
      WalkDetermined(a.chain, b.chain, steps - 1);
    } else {
      WalkNonNegative(a, steps);
      WalkNonNegative(b, steps);
    }
  }

  lemma {:induction false} WalkNonNegative(a: Term, steps: int)
    requires Walk(a, steps)
    ensures steps >= 0 && (steps == 0 <==> a.ChainOf?)
  {
    if a.NextChain? { WalkNonNegative(a.chain, steps - 1); }
  }

  predicate SessionFormed(s: Session) {
    Walk(s.chain.key, s.chain.index)
  }

  predicate MessageFormed(m: Message) {
    m.RoomKeyMessage? ==>
      m.blob.generation == m.generation && m.blob.key.MessageKey? && Walk(m.blob.key.chain, m.generation)
  }

  predicate ClientFormed(c: Client) {
    forall p :: p in c.sessions ==> SessionFormed(c.sessions[p])
  }

  ghost predicate AllFormed(w: World) {
    && (forall id :: id in w.clients ==> ClientFormed(w.clients[id]))
    && (forall p :: p in w.wire ==> MessageFormed(p.message))
  }

  /** The session a room-key message is read in: the one there, or the one its initial
      message sets up. */
  function ReadIn(c: Client, from: Id, init: Option<InitialMessage>, onFile: Option<OnFile>): Option<Session> {
    if from in c.sessions then Some(c.sessions[from])
    else if init.None? || Greeted(c, from, init.value, onFile).None? then None
    else Some(Greeted(c, from, init.value, onFile).value.sessions[from])
  }

  lemma SealedForFormed(c: Client, to: Id, key: RoomKey, gen: int, fetch: Option<Fetch>)
    requires ClientFormed(c)
    ensures var (d, m) := SealedFor(c, to, key, gen, fetch);
            ClientFormed(d) && (m.Some? ==> MessageFormed(m.value))
  {
    if Ensured(c, to, fetch).Some? {
      var s := Ensured(c, to, fetch).value.0.sessions[to];
      assert SessionFormed(s);
      if gen >= s.chain.index { WalkOn(s.chain.key, s.chain.index, gen - s.chain.index); }
    }
  }

  lemma GotRoomKeyFormed(c: Client, from: Id, gen: int, blob: Blob, init: Option<InitialMessage>,
                         onFile: Option<OnFile>)
    requires ClientFormed(c)
    ensures var h := GotRoomKey(c, from, gen, blob, init, onFile);
            ClientFormed(h.client) && forall m :: m in h.out ==> MessageFormed(m)
  {
    ReadInFormed(c, from, init, onFile);
    GotRoomKeySessions(c, from, gen, blob, init, onFile);
    var s := ReadIn(c, from, init, onFile);
    hide GotRoomKey, Greeted, ReadIn, Walk, Took;
    if s.Some? && gen >= s.value.chain.index {
      WalkOn(s.value.chain.key, s.value.chain.index, gen - s.value.chain.index);
    }
  }

  /** What a room-key message does to the sessions, and what it sends. */
  lemma GotRoomKeySessions(c: Client, from: Id, gen: int, blob: Blob, init: Option<InitialMessage>,
                           onFile: Option<OnFile>)
    ensures var h, s := GotRoomKey(c, from, gen, blob, init, onFile), ReadIn(c, from, init, onFile);
            && (s.Some? ==> h.client.sessions == c.sessions[from := s.value.(chain := Walked(s.value.chain, gen))])
            && (s.None? ==> h.client.sessions == c.sessions)
            && forall m :: m in h.out ==> !m.RoomKeyMessage?
  {}

  lemma ReadInFormed(c: Client, from: Id, init: Option<InitialMessage>, onFile: Option<OnFile>)
    requires ClientFormed(c)
    ensures ReadIn(c, from, init, onFile).Some? ==> SessionFormed(ReadIn(c, from, init, onFile).value)
  {}

  lemma GotResetFormed(c: Client, from: Id, now: int, fetch: Option<Fetch>)
    requires ClientFormed(c)
    ensures var h := GotReset(c, from, now, fetch);
            ClientFormed(h.client) && forall m :: m in h.out ==> MessageFormed(m)
  {
    if !Cooling(c, from, now) && c.roomKey.Some? {
      SealedForFormed(c.(honored := c.honored[from := now], sessions := c.sessions - {from}), from,
                      c.roomKey.value, c.generation, fetch);
    }
  }

  lemma EventFormed(cast: Cast, w: World, e: Event)
    requires cast.rotator in w.clients && May(cast, w, e) && AllFormed(w)
    ensures AllFormed(Happens(cast, w, e))
  {
    match e
    case SealNext(fetch) =>
      SealedForFormed(w.clients[cast.rotator], w.job.value.left[0], w.job.value.key, w.job.value.gen, fetch);
    case RoomKeyArrives(at, from, gen, blob, init, onFile) =>
      GotRoomKeyFormed(w.clients[at], from, gen, blob, init, onFile);
    case ResetArrives(at, from, now, fetch) => GotResetFormed(w.clients[at], from, now, fetch);
    case _ =>
  }

  lemma {:induction false} AfterFormed(cast: Cast, events: seq<Event>)
    requires cast.rotator in cast.people
    ensures AllFormed(After(cast, events))
  {
    if events != [] {
      var n := |events| - 1;
      AfterFormed(cast, events[..n]);
      hide AllFormed, May, Happens;
      var w := After(cast, events[..n]);
      if cast.rotator in w.clients && May(cast, w, events[n]) { EventFormed(cast, w, events[n]); }
    }
  }

  /** Sealed on a session set up by the same handshake as this one. */
  predicate SameHandshake(blob: Blob, s: Session) {
    Origin(blob.key) == Origin(s.chain.key) && blob.binding == s.binding
  }

  lemma OpensOrNot(c: Client, from: Id, m: Message, onFile: Option<OnFile>)
    requires m.RoomKeyMessage?
    ensures var h := GotRoomKey(c, from, m.generation, m.blob, m.init, onFile);
            var s := ReadIn(c, from, m.init, onFile);
            && (Took(h) <==> s.Some? && OpenedBy(m, s.value))
            && (Took(h) ==> h.client.roomKey == Some(m.blob.roomKey) && h.client.generation == m.generation)
  {
    var h := GotRoomKey(c, from, m.generation, m.blob, m.init, onFile);
    if h.out != [] { assert h.out[0] in h.out; }
  }

  predicate OpenedBy(m: Message, s: Session)
    requires m.RoomKeyMessage?
  {
    var k := KeyFor(s.chain, m.generation);
    k.Ok? && Opens(m.blob, k.value, s.binding, m.generation)
  }

  lemma OpenedExactlyWhen(m: Message, s: Session)
    requires m.RoomKeyMessage? && MessageFormed(m) && SessionFormed(s)
    ensures OpenedBy(m, s) <==> SameHandshake(m.blob, s) && s.chain.index <= m.generation
  {
    if s.chain.index <= m.generation {
      WalkOn(s.chain.key, s.chain.index, m.generation - s.chain.index);
      OriginKept(s.chain.key, m.generation - s.chain.index);
      WalkDetermined(m.blob.key.chain, Walked(s.chain, m.generation).key, m.generation);
    }
  }

  /** A room-key message somebody really sent opens, in any reachable call, if and only
      if there is a session to read it in, set up by the handshake it was sealed on, and
      that session has not moved past its generation. */
  lemma GenuineRoomKeyOpensExactlyWhen(cast: Cast, events: seq<Event>, w: World, c: Client, p: Packet,
                                       onFile: Option<OnFile>)
    requires cast.rotator in cast.people && w == After(cast, events) && c.me in w.clients && c == w.clients[c.me]
    requires p in w.wire && p.message.RoomKeyMessage?
    ensures var m := p.message;
            var h := GotRoomKey(c, p.from, m.generation, m.blob, m.init, onFile);
            var s := ReadIn(c, p.from, m.init, onFile);
            && (Took(h) <==> s.Some? && SameHandshake(m.blob, s.value) && s.value.chain.index <= m.generation)
            && (Took(h) ==> h.client.roomKey == Some(m.blob.roomKey) && h.client.generation == m.generation)
  {
    AfterFormed(cast, events);
    hide After, GotRoomKey, SameHandshake, OpenedBy, Greeted, Took, Walk;
    assert MessageFormed(p.message);
    OpensOrNot(c, p.from, p.message, onFile);
    var s := ReadIn(c, p.from, p.message.init, onFile);
    if s.Some? {
      ReadInFormed(c, p.from, p.message.init, onFile);
      OpenedExactlyWhen(p.message, s.value);
    }
  }

  /** The first room key sealed on a session just started. */
  lemma SealedFresh(r: Client, to: Id, key: RoomKey, gen: nat, fetch: Fetch)
    requires to !in r.sessions && Initiate(r.identity, fetch.bundle, fetch.eph).Ok?
    ensures var (a, init) := Initiate(r.identity, fetch.bundle, fetch.eph).value;
            var k := MessageKey(Ratcheted(ChainOf(a.secret, a.bootstrap), gen));
            SealedFor(r, to, key, gen, Some(fetch)).1
              == Some(RoomKeyMessage(to, gen, Blob(k, a.binding, gen, key), Some(init)))
  {}

  /** The session its initial message sets up at the receiver, when it is answered. */
  lemma ReadInFresh(r: Identity, from: Id, c: Client, fetch: Fetch, onFile: OnFile)
    requires from !in c.sessions && Initiate(r, fetch.bundle, fetch.eph).Ok?
    requires onFile == OnFile(r.signing, SignedBy(r.signing, r.dh))
    ensures var init := Initiate(r, fetch.bundle, fetch.eph).value.1;
            var answer := Respond(c.identity, init);
            ReadIn(c, from, Some(init), Some(onFile)) == if answer.Ok? then Some(SessionFrom(answer.value)) else None
  {}

  /** A session started from the receiver's published bundle is answered exactly while
      the one-time prekey it used is unspent, and then it is the same handshake. */
  lemma FreshSessionAnsweredExactlyWhen(r: Client, c: Client, published: Identity, key: RoomKey, gen: nat,
                                        fetch: Fetch, onFile: OnFile)
    requires c.me !in r.sessions && r.me !in c.sessions && Shows(fetch.bundle, published)
    requires c.identity == published.(oneTime := c.identity.oneTime)
    requires forall id :: id in c.identity.oneTime ==>
               id in published.oneTime && c.identity.oneTime[id] == published.oneTime[id]
    requires onFile == OnFile(r.identity.signing, SignedBy(r.identity.signing, r.identity.dh))
    ensures var m := SealedFor(r, c.me, key, gen, Some(fetch)).1;
            && m.Some? && m.value.RoomKeyMessage?
            && var s := ReadIn(c, r.me, m.value.init, Some(onFile));
               && (s.Some? <==> fetch.bundle.oneTime.Some? ==> fetch.bundle.oneTime.value.id in c.identity.oneTime)
               && (s.Some? ==> SameHandshake(m.value.blob, s.value) && s.value.chain.index == 0)
  {
    AgreementLaw(r.identity, published, fetch.bundle, fetch.eph);
    SealedFresh(r, c.me, key, gen, fetch);
    ReadInFresh(r.identity, r.me, c, fetch, onFile);
    hide SealedFor, ReadIn;
    if fetch.bundle.oneTime.Some? ==> fetch.bundle.oneTime.value.id in c.identity.oneTime {
      AgreementLaw(r.identity, c.identity, fetch.bundle, fetch.eph);
      var a := Initiate(r.identity, fetch.bundle, fetch.eph).value.0;
      OriginKept(ChainOf(a.secret, a.bootstrap), gen);
    }
  }

  lemma ForgeryRefused(cast: Cast, minted: seq<RoomKey>, wire: set<Packet>, at: Id, c: Client, from: Id, gen: int,
                       blob: Blob)
    requires ClientGood(cast, minted, wire, at, c) && from in c.sessions && !Inside(cast, blob.key)
    ensures var h := GotRoomKey(c, from, gen, blob, None, None);
            h.out == [] && h.client.roomKey == c.roomKey
  {
    var s := c.sessions[from];
    if gen >= s.chain.index { WalkedInside(cast, s.chain.key, gen - s.chain.index); }
  }

  /** The chain moves before the tag is checked: one forged message in the rotator's
      name, refused as it is, blocks every genuine room key of a lower generation. */
  lemma OneForgeryBlocks(cast: Cast, events: seq<Event>, w: World, v: World, at: Id, gen: int, blob: Blob, m: Message,
                         onFile: Option<OnFile>)
    requires cast.rotator in cast.people && w == After(cast, events)
    requires at != cast.rotator && Has(w, at, cast.rotator) && !Inside(cast, blob.key)
    requires v == Next(cast, w, RoomKeyArrives(at, cast.rotator, gen, blob, None, None))
    requires m.RoomKeyMessage? && m.generation < gen
    ensures Has(v, at, cast.rotator) && v.clients[at].roomKey == w.clients[at].roomKey
    ensures !Took(GotRoomKey(v.clients[at], cast.rotator, m.generation, m.blob, m.init, onFile))
  {
    var c, e := w.clients[at], RoomKeyArrives(at, cast.rotator, gen, blob, None, None);
    AfterGood(cast, events);
    MeIsMe(cast, w, at);
    ForgeryRefused(cast, w.minted, w.wire, at, c, cast.rotator, gen, blob);
    TookMeans(c, cast.rotator, gen, blob, None, None);
    assert May(cast, w, e);
    hide Good, GotRoomKey, After, May;
    var h := GotRoomKey(c, cast.rotator, gen, blob, None, None);
    assert Next(cast, w, e) == Put(w, h.client, h.out);
    TookMeans(h.client, cast.rotator, m.generation, m.blob, m.init, onFile);
  }

  // ---------------------------------------------------------------------
  // How a call splits once its rotator loses its state.

  function TwoPeople(cast: Cast, a: Id): seq<Participant> {
    [Participant(cast.rotator, Some(0)), Participant(a, Some(1))]
  }

  lemma RotatorIsElected(cast: Cast, a: Id)
    requires a != cast.rotator
    ensures Elected(TwoPeople(cast, a)) == Some(cast.rotator) && Others(TwoPeople(cast, a), cast.rotator) == [a]
  {
    var ps := TwoPeople(cast, a);
    BelowIsStrictTotal(cast.rotator, cast.rotator);
    assert First(ps[0], ps);
    ElectedIsMinimum(ps, cast.rotator);
    assert Others(ps[..1], cast.rotator) == [] by { assert Others(ps[..1][..0], cast.rotator) == []; }
  }

  lemma OneMoreEvent(cast: Cast, events: seq<Event>, e: Event)
    ensures After(cast, events + [e]) == Next(cast, After(cast, events), e)
  {
    assert (events + [e])[..|events|] == events;
  }

  lemma DeliveryToOne(c: Client, a: Id, key: RoomKey, fetches: map<Id, Fetch>)
    requires a in fetches
    ensures var (d, m) := SealedFor(c, a, key, 0, Some(fetches[a]));
            m.Some? ==> SealedForEach(c, [a], key, 0, fetches) == Delivery(d, [m.value], [])
  {
    assert [a][..0] == [];
    assert SealedForEach(c, [a][..0], key, 0, fetches) == Delivery(c, [], []);
  }

  lemma RotatedToOne(r: Client, a: Id, view: seq<Participant>, key: RoomKey, fetch: Fetch)
    requires Others(view, r.me) == [a] && r.generation == -1
    requires SealedFor(Begun(Noted(r, view), [a]), a, key, 0, Some(fetch)).1.Some?
    ensures var d := Rotated(Noted(r, view), view, key, map[a := fetch]);
            && d.out != [] && d.out[0] == SealedFor(Begun(Noted(r, view), [a]), a, key, 0, Some(fetch)).1.value
            && d.client.me == r.me && d.client.generation == 0 && d.client.roomKey == Some(key)
  {
    var c0 := Begun(Noted(r, view), [a]);
    DeliveryToOne(c0, a, key, map[a := fetch]);
    SealingKeepsOne(c0, a, key, 0, Some(fetch));
    hide SealedFor, SealedForEach, Others;
  }

  lemma FirstRotationSent(cast: Cast, a: Id, fetch: Fetch, k: RoomKey) returns (events: seq<Event>)
    requires cast.rotator in cast.people && a in cast.people && a != cast.rotator && Shows(fetch.bundle, cast.people[a])
    ensures var w0 := Opening(cast);
            var view := TwoPeople(cast, a);
            var d := Rotated(Noted(w0.clients[cast.rotator], view), view, k, map[a := fetch]);
            After(cast, events) == Put(w0, d.client, d.out).(minted := [k])
  {
    var view := TwoPeople(cast, a);
    RotatorIsElected(cast, a);
    var w0 := Opening(cast);
    var fetches := map[a := fetch];
    StepwiseRotationIsRotate(cast, w0, view, k, fetches);
    assert FetchOf(fetches, a) == Some(fetch) && w0.minted + [k] == [k] && After(cast, []) == w0;
    hide Others, Elected, Rotated, Next, Noted;
    var e1, e2, e3 := Membership(cast.rotator, view, k), SealNext(Some(fetch)), Commit;
    OneMoreEvent(cast, [], e1);
    OneMoreEvent(cast, [e1], e2);
    OneMoreEvent(cast, [e1] + [e2], e3);
    assert [] + [e1] == [e1];
    var w1 := Next(cast, w0, e1);
    assert SealSteps(cast, w1, [a], 0, fetches) == w1;
    events := [e1] + [e2] + [e3];
  }

  /** The first rotation of any two-party call, delivered: generation 0 at both ends. */
  lemma FirstRotation(cast: Cast, a: Id, fetch: Fetch, k: RoomKey) returns (events: seq<Event>)
    requires cast.rotator in cast.people && a in cast.people && a != cast.rotator && Shows(fetch.bundle, cast.people[a])
    ensures Holding(After(cast, events), a, 0, k) && Holding(After(cast, events), cast.rotator, 0, k)
  {
    var view := TwoPeople(cast, a);
    RotatorIsElected(cast, a);
    var sent := FirstRotationSent(cast, a, fetch, k);
    var w0 := Opening(cast);
    var r, c := w0.clients[cast.rotator], w0.clients[a];
    var c0 := Begun(Noted(r, view), [a]);
    var onFile := OnFile(r.identity.signing, SignedBy(r.identity.signing, r.identity.dh));
    FirstDelivery(c0, c, k, fetch, onFile);
    RotatedToOne(r, a, view, k, fetch);
    var m := SealedFor(c0, a, k, 0, Some(fetch)).1.value;
    var d := Rotated(Noted(r, view), view, k, map[a := fetch]);
    hide Others, Elected, Rotated, SealedFor, SealedForEach, GotRoomKey, After, Next;
    var w := After(cast, sent);
    assert Packet(cast.rotator, m) in w.wire;
    Redelivered(cast, w, a, m, Some(onFile));
    var e := RoomKeyArrives(a, cast.rotator, m.generation, m.blob, m.init, Some(onFile));
    OneMoreEvent(cast, sent, e);
    events := sent + [e];
  }

  lemma FirstDelivery(r: Client, c: Client, key: RoomKey, fetch: Fetch, onFile: OnFile)
    requires r.sessions == map[] && c.sessions == map[] && Shows(fetch.bundle, c.identity)
    requires onFile == OnFile(r.identity.signing, SignedBy(r.identity.signing, r.identity.dh))
    ensures var m := SealedFor(r, c.me, key, 0, Some(fetch)).1;
            && m.Some? && m.value.RoomKeyMessage? && m.value.to == c.me
            && var h := GotRoomKey(c, r.me, m.value.generation, m.value.blob, m.value.init, Some(onFile));
               h.client.me == c.me && h.client.generation == 0 && h.client.roomKey == Some(key)
  {
    AgreementLaw(r.identity, c.identity, fetch.bundle, fetch.eph);
  }

  /** So the split is real: some run of any two-party call, followed by the reconnect the
      rules exclude, leaves the two clients at one generation with different keys. */
  lemma SplitIsReachable(cast: Cast, a: Id, fetch: Fetch, k: RoomKey, key: RoomKey) returns (events: seq<Event>)
    requires cast.rotator in cast.people && a in cast.people && a != cast.rotator
    requires Shows(fetch.bundle, cast.people[a]) && k != key
    ensures var w := After(cast, events);
            && cast.rotator in w.clients
            && var back := Put(w, Joined(cast.rotator, w.clients[cast.rotator].identity), []).(job := None);
               var minting := Next(cast, back, Membership(cast.rotator, [Participant(cast.rotator, None)], key));
               var v := Next(cast, minting, Commit);
               Holding(v, a, 0, k) && Holding(v, cast.rotator, 0, key)
  {
    events := FirstRotation(cast, a, fetch, k);
    RotatorReconnectSplits(cast, After(cast, events), a, k, key);
  }
}
