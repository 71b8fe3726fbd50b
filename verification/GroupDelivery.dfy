/** Who is reached by a group client's operations, and with what: recipients, counts,
    slots, verdicts and refusals, in terms of the people in the call. */
module GroupDelivery {
  import opened SymbolicCrypto
  import opened X3dh
  import opened TransportChains
  import opened Rotation
  import opened GroupClients
  import opened GroupRuns
  import opened GroupSessions
  import Keyring

  // ---------------------------------------------------------------------
  // Everybody else.

  predicate InCall(ps: seq<Participant>, id: Id) {
    exists i :: 0 <= i < |ps| && ps[i].identity == id
  }

  /** The others are all the people in the call but oneself, each as often as listed. */
  lemma OthersExactly(ps: seq<Participant>, me: Id, id: Id)
    ensures multiset(Others(ps, me))[id] == if id == me then 0 else multiset(IdsOf(ps))[id]
    ensures id in Others(ps, me) <==> id != me && InCall(ps, id)
  {
    OthersCount(ps, me, id);
    assert id in multiset(Others(ps, me)) <==> id in Others(ps, me);
    assert id in multiset(IdsOf(ps)) <==> id in IdsOf(ps);
    hide Others;
    if InCall(ps, id) {
      var i :| 0 <= i < |ps| && ps[i].identity == id;
      assert IdsOf(ps)[i] == id;
    }
  }

  lemma {:induction false} OthersCount(ps: seq<Participant>, me: Id, id: Id)
    ensures multiset(Others(ps, me))[id] == if id == me then 0 else multiset(IdsOf(ps))[id]
  {
    if ps != [] {
      OthersCount(ps[..|ps| - 1], me, id);
      assert IdsOf(ps) == IdsOf(ps[..|ps| - 1]) + [ps[|ps| - 1].identity];
    }
  }

  function Named(ps: seq<Participant>): set<Id> {
    set i | 0 <= i < |ps| :: ps[i].identity
  }

  predicate Distinct(ps: seq<Participant>) {
    forall i, j :: 0 <= i < j < |ps| ==> ps[i].identity != ps[j].identity
  }

  /** When nobody is listed twice, their number is that of the identities but our own. */
  lemma {:induction false} OthersNumber(ps: seq<Participant>, me: Id)
    requires Distinct(ps)
    ensures |Others(ps, me)| == |Named(ps) - {me}|
  {
    if ps != [] {
      var n := |ps| - 1;
      assert forall i :: 0 <= i < n ==> ps[..n][i] == ps[i];
      OthersNumber(ps[..n], me);
      NamedGrows(ps);
      hide Named, Distinct;
      OneMoreBut(Named(ps[..n]), ps[n].identity, me);
    } else {
      assert Named(ps) == {};
    }
  }

  lemma OneMoreBut(s: set<Id>, x: Id, me: Id)
    requires x !in s
    ensures |(s + {x}) - {me}| == |s - {me}| + (if x == me then 0 else 1)
  {
    assert x == me ==> (s + {x}) - {me} == s - {me};
    assert x != me ==> (s + {x}) - {me} == (s - {me}) + {x};
  }

  lemma NamedGrows(ps: seq<Participant>)
    requires ps != [] && Distinct(ps)
    ensures var n := |ps| - 1; Named(ps) == Named(ps[..n]) + {ps[n].identity} && ps[n].identity !in Named(ps[..n])
  {
    var n := |ps| - 1;
    assert forall i :: 0 <= i < n ==> ps[..n][i] == ps[i];
  }

  // ---------------------------------------------------------------------
  // Sessions.

  /** A session with a peer is there, or is started, exactly when there was one or the
      bundle fetched is one its owner signed; otherwise none is left. */
  lemma EnsuredExactlyWhen(c: Client, peer: Id, fetch: Option<Fetch>)
    ensures Ensured(c, peer, fetch).Some? <==> peer in c.sessions || (fetch.Some? && Signed(fetch.value.bundle))
    ensures peer !in c.sessions && !(fetch.Some? && Signed(fetch.value.bundle)) ==>
              forall key, gen :: SealedFor(c, peer, key, gen, fetch) == (c, None)
  {
    if fetch.Some? { StartedExactlyWhenSigned(c.identity, fetch.value.bundle, fetch.value.eph); }
  }

  /** No session is set up for a claimed sender unless identity key, DH key and signature
      are those on file, and the handshake is answered. */
  lemma GreetedExactlyWhen(c: Client, from: Id, init: InitialMessage, onFile: Option<OnFile>)
    ensures Greeted(c, from, init, onFile).Some? <==>
              || from in c.sessions
              || (&& onFile.Some? && onFile.value.identityKey == init.identityKey
                  && init.identityDh == Some(onFile.value.identityDh.key)
                  && onFile.value.identityDh.sig == Signature(onFile.value.identityKey, onFile.value.identityDh.key)
                  && Respond(c.identity, init).Ok?)
  {}

  /** This peer can be sent a key of this generation. */
  predicate Reachable(c: Client, peer: Id, gen: int, fetch: Option<Fetch>) {
    if peer in c.sessions then c.sessions[peer].chain.index <= gen
    else 0 <= gen && fetch.Some? && Signed(fetch.value.bundle)
  }

  lemma SealedForExactlyWhen(c: Client, peer: Id, key: RoomKey, gen: int, fetch: Option<Fetch>)
    ensures var (d, m) := SealedFor(c, peer, key, gen, fetch);
            && (m.Some? <==> Reachable(c, peer, gen, fetch))
            && (m.Some? ==> peer in d.sessions && d.sessions[peer].chain.index == gen)
            && (m.None? && peer in c.sessions ==> d == c)
            && (m.None? && peer in d.sessions ==> d.sessions[peer].chain.index > gen)
            && d.sessions.Keys <= c.sessions.Keys + {peer} && c.sessions.Keys <= d.sessions.Keys
            && forall p :: p in c.sessions && p != peer ==> d.sessions[p] == c.sessions[p]
  {
    if fetch.Some? { StartedExactlyWhenSigned(c.identity, fetch.value.bundle, fetch.value.eph); }
  }

  /** What is sealed on a session can be opened on it: same handshake, its generation. */
  lemma SealedOnItsSession(c: Client, peer: Id, key: RoomKey, gen: int, fetch: Option<Fetch>)
    requires SealedFor(c, peer, key, gen, fetch).1.Some? && ClientFormed(c)
    ensures var (d, m) := SealedFor(c, peer, key, gen, fetch);
            && m.value.RoomKeyMessage? && peer in d.sessions && SameHandshake(m.value.blob, d.sessions[peer])
            && (peer in c.sessions ==> Continues(c.sessions[peer], d.sessions[peer]) && m.value.init == None)
  {
    if peer in c.sessions { SealedForContinues(c, peer, key, gen, fetch, peer); }
    var s := Ensured(c, peer, fetch).value.0.sessions[peer];
    OriginKept(s.chain.key, gen - s.chain.index);
  }

  // ---------------------------------------------------------------------
  // A rotation reaches everybody it can.

  predicate Addressed(out: seq<Message>, id: Id, key: RoomKey, gen: int) {
    exists m :: m in out && m.RoomKeyMessage? && m.to == id && m.generation == gen && m.blob.roomKey == key
  }

  lemma {:induction false} SealedForEachReaches(c: Client, peers: seq<Id>, key: RoomKey, gen: int,
                                                fetches: map<Id, Fetch>, id: Id)
    ensures var d := SealedForEach(c, peers, key, gen, fetches);
            && (Reachable(d.client, id, gen, FetchOf(fetches, id)) <==> Reachable(c, id, gen, FetchOf(fetches, id)))
            && (id in d.failed <==> id in peers && !Reachable(c, id, gen, FetchOf(fetches, id)))
            && (Addressed(d.out, id, key, gen) <==> id in peers && Reachable(c, id, gen, FetchOf(fetches, id)))
            && forall m :: m in d.out ==>
                 m.RoomKeyMessage? && m.generation == gen && m.blob.roomKey == key && m.to in peers
  {
    if peers != [] {
      var n := |peers| - 1;
      var peer := peers[n];
      SealedForEachReaches(c, peers[..n], key, gen, fetches, id);
      SealedForEachReaches(c, peers[..n], key, gen, fetches, peer);
      assert peers == peers[..n] + [peer];
      var d := SealedForEach(c, peers[..n], key, gen, fetches);
      SealedForExactlyWhen(d.client, peer, key, gen, FetchOf(fetches, peer));
      SealingKeepsOne(d.client, peer, key, gen, FetchOf(fetches, peer));
      hide SealedFor;
      var (c1, m) := SealedFor(d.client, peer, key, gen, FetchOf(fetches, peer));
      if m.Some? { AddressedAppend(d.out, m.value, id, key, gen); }
      assert id != peer ==> (id in c1.sessions <==> id in d.client.sessions);
    }
  }

  lemma AddressedAppend(out: seq<Message>, m: Message, id: Id, key: RoomKey, gen: int)
    requires m.RoomKeyMessage? && m.generation == gen && m.blob.roomKey == key
    ensures Addressed(out + [m], id, key, gen) <==> Addressed(out, id, key, gen) || m.to == id
  {
    if Addressed(out, id, key, gen) {
      var o :| o in out && o.RoomKeyMessage? && o.to == id && o.generation == gen && o.blob.roomKey == key;
      assert o in out + [m];
    }
    assert m in out + [m];
  }

  /** A rotation sends the new key of the next generation to every other participant who
      can be reached and to nobody else, reports the rest, expects all of them to answer,
      and says itself that it holds the key. */
  lemma RotatedReachesEverybody(c: Client, ps: seq<Participant>, key: RoomKey, fetches: map<Id, Fetch>, id: Id)
    ensures var d, gen := Rotated(c, ps, key, fetches), c.generation + 1;
            var wanted := id != c.me && InCall(ps, id);
            && (Addressed(d.out, id, key, gen) <==> wanted && Reachable(c, id, gen, FetchOf(fetches, id)))
            && (id in d.failed <==> wanted && !Reachable(c, id, gen, FetchOf(fetches, id)))
            && d.client.generation == gen && d.client.roomKey == Some(key)
            && d.client.convergence.Some? && d.client.convergence.value.generation == gen
            && d.client.convergence.value.expected == |Others(ps, c.me)|
            && d.client.convergence.value.own == Some(Digest4(key))
            && FingerprintMessage(gen, Some(Proof(key, gen, c.me))) in d.out
  {
    var others, gen := Others(ps, c.me), c.generation + 1;
    OthersExactly(ps, c.me, id);
    SealedForEachReaches(Begun(c, others), others, key, gen, fetches, id);
    SealingKeeps(Begun(c, others), others, key, gen, fetches);
    hide SealedForEach, Others;
    var sealed := SealedForEach(Begun(c, others), others, key, gen, fetches);
    var d := Rotated(c, ps, key, fetches);
    assert d.out == sealed.out + [MyProof(c, key, gen)];
    assert d.out[|sealed.out|] == MyProof(c, key, gen);
    if Addressed(sealed.out, id, key, gen) {
      var m :| m in sealed.out && m.RoomKeyMessage? && m.to == id && m.generation == gen && m.blob.roomKey == key;
      assert m in d.out;
    }
  }

  // ---------------------------------------------------------------------
  // Slots.

  predicate InSlot(c: Client, who: Option<Id>, gen: int, key: RoomKey) {
    var s := Keyring.Slot(who, Keyring.IndexOf(gen));
    s in c.ring && c.ring[s] == key
  }

  /** Applying a key fills the shared slot and that of everybody named, and leaves every
      slot of another index alone. */
  lemma RingFilled(c: Client, key: RoomKey, gen: int, peers: seq<Id>, who: Option<Id>)
    requires who.Some? ==> who.value == c.me || who.value in peers
    ensures var ring, s := RingWith(c, key, gen, peers), Keyring.Slot(who, Keyring.IndexOf(gen));
            s in ring && ring[s] == key
    ensures var ring := RingWith(c, key, gen, peers);
            forall s :: s in c.ring && s.index != Keyring.IndexOf(gen) ==> s in ring && ring[s] == c.ring[s]
  {
    assert ([c.me] + peers)[0] == c.me;
  }

  /** After a rotation the new key is in the shared slot and in that of everybody in the
      call, ourselves included, and every slot of another index is as before. */
  lemma RotatedFillsSlots(c: Client, ps: seq<Participant>, key: RoomKey, fetches: map<Id, Fetch>, who: Option<Id>)
    requires who.Some? ==> who.value == c.me || InCall(ps, who.value)
    ensures InSlot(Rotated(c, ps, key, fetches).client, who, c.generation + 1, key)
    ensures forall s :: s in c.ring && s.index != Keyring.IndexOf(c.generation + 1) ==>
              s in Rotated(c, ps, key, fetches).client.ring && Rotated(c, ps, key, fetches).client.ring[s] == c.ring[s]
  {
    var others, gen := Others(ps, c.me), c.generation + 1;
    if who.Some? { OthersExactly(ps, c.me, who.value); }
    SealingKeeps(Begun(c, others), others, key, gen, fetches);
    RingFilled(c, key, gen, others, who);
    assert Rotated(c, ps, key, fetches).client.ring == RingWith(c, key, gen, others);
    hide SealedForEach, Others, RingWith, Rotated;
  }

  /** After a room key is taken in, the same, for the people last seen in the call, or
      for the sender while nobody was seen yet. */
  lemma AcceptedFillsSlots(c: Client, from: Id, gen: int, key: RoomKey, who: Option<Id>)
    requires who.Some? ==>
               || who.value == c.me
               || (if c.participants.Some? then InCall(c.participants.value, who.value) else who.value == from)
    ensures InSlot(Accepted(c, from, gen, key), who, gen, key)
    ensures forall s :: s in c.ring && s.index != Keyring.IndexOf(gen) ==>
              s in Accepted(c, from, gen, key).ring && Accepted(c, from, gen, key).ring[s] == c.ring[s]
  {
    if who.Some? && c.participants.Some? { OthersExactly(c.participants.value, c.me, who.value); }
    hide Others, RingWith;
    RingFilled(c, key, gen, if c.participants.Some? then Others(c.participants.value, c.me) else [from], who);
  }

  /** A room key of a new generation starts its convergence, expecting every other person
      seen in the call, or one while nobody was seen; a repeat keeps what was recorded. */
  lemma AcceptedConverges(c: Client, from: Id, gen: int, key: RoomKey)
    ensures var v := Accepted(c, from, gen, key).convergence;
            var repeat := c.convergence.Some? && c.convergence.value.generation == gen;
            && v.Some? && v.value.generation == gen && v.value.own == Some(Digest4(key))
            && (repeat ==> v.value == c.convergence.value.(own := v.value.own))
            && (!repeat ==> v.value.peers == map[] && !v.value.retried)
            && (!repeat && c.participants.Some? && Distinct(c.participants.value) ==>
                  v.value.expected == |Named(c.participants.value) - {c.me}|)
            && (!repeat && c.participants.None? ==> v.value.expected == 1)
  {
    if c.participants.Some? && Distinct(c.participants.value) { OthersNumber(c.participants.value, c.me); }
  }

  // ---------------------------------------------------------------------
  // Membership.

  function Count(ps: seq<Participant>, id: Id): nat {
    if ps == [] then 0 else Count(ps[..|ps| - 1], id) + (if ps[|ps| - 1].identity == id then 1 else 0)
  }

  lemma {:induction false} CountIs(ps: seq<Participant>, id: Id)
    ensures Count(ps, id) == multiset(IdsOf(ps))[id]
  {
    if ps != [] {
      CountIs(ps[..|ps| - 1], id);
      assert IdsOf(ps) == IdsOf(ps[..|ps| - 1]) + [ps[|ps| - 1].identity];
    }
  }

  /** Membership changed exactly when somebody is listed more or less often than before. */
  lemma NewsExactlyWhen(c: Client, ps: seq<Participant>)
    requires c.participants.Some?
    ensures News(c, ps) <==> exists id :: Count(ps, id) != Count(c.participants.value, id)
  {
    var seen := c.participants.value;
    forall id
      ensures Count(ps, id) == multiset(IdsOf(ps))[id] && Count(seen, id) == multiset(IdsOf(seen))[id]
    {
      CountIs(ps, id);
      CountIs(seen, id);
    }
    if News(c, ps) {
      var id := SomeCountDiffers(multiset(IdsOf(ps)), multiset(IdsOf(seen)));
      assert Count(ps, id) != Count(seen, id);
    }
  }

  lemma SomeCountDiffers(a: multiset<Id>, b: multiset<Id>) returns (id: Id)
    requires a != b
    ensures a[id] != b[id]
  {
    assert (forall x: Id :: a[x] == b[x]) ==> a == b;
    id :| a[id] != b[id];
  }

  /** The same people once more change nothing; a change is noted by everybody, and makes
      the rotator, and nobody else, mint the key of the next generation. */
  lemma MembershipMintsExactlyWhen(cast: Cast, events: seq<Event>, w: World, at: Id, view: seq<Participant>,
                                   key: RoomKey)
    requires cast.rotator in cast.people && w == After(cast, events) && May(cast, w, Membership(at, view, key))
    ensures var v := Next(cast, w, Membership(at, view, key));
            && (!News(w.clients[at], view) ==> v == w)
            && (News(w.clients[at], view) ==> at in v.clients && v.clients[at].participants == Some(view))
            && v.minted == (if News(w.clients[at], view) && at == cast.rotator then w.minted + [key] else w.minted)
  {
    AfterGood(cast, events);
    MeIsMe(cast, w, at);
    hide Good, News;
  }

  /** A convergence under way is corrected to expect everybody else now in the call, and
      keeps what was recorded. */
  lemma NotedExpectsEverybody(c: Client, ps: seq<Participant>)
    requires c.convergence.Some?
    ensures var v := Noted(c, ps).convergence;
            && v.Some? && v.value == c.convergence.value.(expected := v.value.expected)
            && (Distinct(ps) ==> v.value.expected == |Named(ps) - {c.me}|)
  {
    if Distinct(ps) { OthersNumber(ps, c.me); }
  }

  // ---------------------------------------------------------------------
  // Resets.

  /** A reset is honoured exactly when none from that peer was in the last three seconds:
      then the session is a new one or none, and the clock of that peer starts again. */
  lemma ResetHonouredExactlyWhen(c: Client, from: Id, now: int, fetch: Option<Fetch>)
    ensures var h := GotReset(c, from, now, fetch);
            var recent := from in c.honored && now < c.honored[from] + 3000;
            var startable := fetch.Some? && Signed(fetch.value.bundle);
            var key := if c.roomKey.Some? then c.roomKey.value else 0;
            && (recent ==> h == Handled(c, [], false))
            && (!recent ==> from in h.client.honored && h.client.honored[from] == now)
            && (!recent ==> (from in h.client.sessions <==> c.roomKey.Some? && startable))
            && (!recent ==>
                  (Addressed(h.out, from, key, c.generation) <==> c.roomKey.Some? && c.generation >= 0 && startable))
  {
    var c1 := c.(honored := c.honored[from := now], sessions := c.sessions - {from});
    if c.roomKey.Some? {
      SealedForExactlyWhen(c1, from, c.roomKey.value, c.generation, fetch);
      SealingKeepsOne(c1, from, c.roomKey.value, c.generation, fetch);
      EnsuredExactlyWhen(c1, from, fetch);
      SealedForSession(c1, from, c.roomKey.value, c.generation, fetch);
      hide SealedFor;
      var (d, m) := SealedFor(c1, from, c.roomKey.value, c.generation, fetch);
      if m.Some? { assert m.value in [m.value]; }
    }
  }

  lemma SealedForSession(c: Client, peer: Id, key: RoomKey, gen: int, fetch: Option<Fetch>)
    ensures peer in SealedFor(c, peer, key, gen, fetch).0.sessions <==> Ensured(c, peer, fetch).Some?
  {}

  // ---------------------------------------------------------------------
  // One-time prekeys.

  /** Every handler leaves the one-time prekeys alone, except that an initial message that
      sets up a session uses up the one it names. */
  lemma HandlersSpendOnlyAnswered(c: Client, from: Id, gen: int, blob: Blob, init: Option<InitialMessage>,
                                  onFile: Option<OnFile>)
    ensures var d, s := GotRoomKey(c, from, gen, blob, init, onFile).client, ReadIn(c, from, init, onFile);
            d.identity == if from !in c.sessions && s.Some? then AfterRespond(c.identity, init.value) else c.identity
  {}

  lemma EventPrekeys(cast: Cast, w: World, e: Event, at: Id)
    requires Good(cast, w) && May(cast, w, e) && at in w.clients
    ensures at in Happens(cast, w, e).clients
    ensures Happens(cast, w, e).clients[at].identity.oneTime.Keys <= w.clients[at].identity.oneTime.Keys
  {
    HappensToActor(cast, w, e);
    if at == Actor(cast, e) { ActorPrekeys(cast, w, e); }
  }

  lemma ActorPrekeys(cast: Cast, w: World, e: Event)
    requires cast.rotator in w.clients && May(cast, w, e) && Actor(cast, e) in w.clients
    ensures NewClient(cast, w, e).identity.oneTime.Keys <= w.clients[Actor(cast, e)].identity.oneTime.Keys
  {
    hide Decided, Others, News, Elected, ProofShowable, Agrees, SealedFor, GotReset, GotRoomKey;
    var c := w.clients[Actor(cast, e)];
    match e
    case SealNext(fetch) => SealingKeepsOne(c, w.job.value.left[0], w.job.value.key, w.job.value.gen, fetch);
    case RoomKeyArrives(_, from, gen, blob, init, onFile) =>
      HandlersSpendOnlyAnswered(c, from, gen, blob, init, onFile);
    case ResetArrives(_, from, now, fetch) => ResetKeepsIdentity(c, from, now, fetch);
    case _ =>
  }

  lemma ResetKeepsIdentity(c: Client, from: Id, now: int, fetch: Option<Fetch>)
    ensures GotReset(c, from, now, fetch).client.identity == c.identity
  {
    if c.roomKey.Some? {
      SealingKeepsOne(c.(honored := c.honored[from := now], sessions := c.sessions - {from}), from,
                      c.roomKey.value, c.generation, fetch);
    }
  }

  lemma {:induction false} PrekeysOnlyShrink(cast: Cast, events: seq<Event>, i: nat, at: Id)
    requires cast.rotator in cast.people && i <= |events| && at in After(cast, events[..i]).clients
    ensures at in After(cast, events).clients
    ensures After(cast, events).clients[at].identity.oneTime.Keys
         <= After(cast, events[..i]).clients[at].identity.oneTime.Keys
  {
    if i < |events| {
      var n := |events| - 1;
      assert events[..n][..i] == events[..i];
      PrekeysOnlyShrink(cast, events[..n], i, at);
      AfterGood(cast, events[..n]);
      hide Good, May, Happens;
      if May(cast, After(cast, events[..n]), events[n]) { EventPrekeys(cast, After(cast, events[..n]), events[n], at); }
    } else {
      assert events[..i] == events;
    }
  }

  /** An initial message that used a one-time prekey sets up one session, ever: once it
      did, at any later point of the call, reconnects included, it is refused wherever a
      session would have to be set up for it. */
  lemma HandshakeAnsweredOnce(cast: Cast, events: seq<Event>, i: nat, e: Event, v: World, w: World, from: Id,
                              onFile: Option<OnFile>)
    requires cast.rotator in cast.people && i < |events| && e == events[i] && e.RoomKeyArrives?
    requires v == After(cast, events[..i]) && May(cast, v, e) && e.init.Some? && e.init.value.oneTimeId.Some?
    requires e.from !in v.clients[e.at].sessions && ReadIn(v.clients[e.at], e.from, e.init, e.onFile).Some?
    requires w == After(cast, events) && e.at in w.clients && from !in w.clients[e.at].sessions
    ensures Greeted(w.clients[e.at], from, e.init.value, onFile) == None
  {
    var c := v.clients[e.at];
    AfterGood(cast, events[..i]);
    MeIsMe(cast, v, e.at);
    HandlersSpendOnlyAnswered(c, e.from, e.gen, e.blob, e.init, e.onFile);
    GreetedExactlyWhen(c, e.from, e.init.value, e.onFile);
    AnsweredExactlyWhen(c.identity, e.init.value);
    PrekeyForgottenExactlyWhen(c.identity, e.init.value);
    assert events[..i + 1][..i] == events[..i];
    HappensToActor(cast, v, e);
    hide Good, Happens, GotRoomKey, Greeted, May;
    assert After(cast, events[..i + 1]) == Happens(cast, v, e);
    PrekeysOnlyShrink(cast, events, i + 1, e.at);
    GreetedExactlyWhen(w.clients[e.at], from, e.init.value, onFile);
    AnsweredExactlyWhen(w.clients[e.at].identity, e.init.value);
  }

  // ---------------------------------------------------------------------
  // Room keys refused.

  /** A room-key message is answered with an offer to rejoin exactly when there is a
      session to read it in and it does not open there; and with a request to reset exactly
      when there is none, no handshake was refused, and no request is pending. */
  lemma RejoinExactlyWhen(c: Client, from: Id, m: Message, onFile: Option<OnFile>)
    requires m.RoomKeyMessage?
    ensures var h := GotRoomKey(c, from, m.generation, m.blob, m.init, onFile);
            var s := ReadIn(c, from, m.init, onFile);
            && (h.rejoin <==> s.Some? && !OpenedBy(m, s.value))
            && (SessionReset(from) in h.out <==> from !in c.sessions && m.init == None && from !in c.pending)
            && (SessionReset(from) in h.out ==> from in h.client.pending)
  {}

  // ---------------------------------------------------------------------
  // Proofs.

  /** A proof for the generation under way is recorded: as agreeing exactly when it is the
      MAC of its sender under the room key held; nobody else's record changes. */
  lemma ProofIsRecorded(c: Client, from: Id, gen: int, proof: Option<Proof>)
    requires c.convergence.Some? && c.convergence.value.generation == gen && c.convergence.value.own.Some?
    requires c.convergence.value.own.value != FINGERPRINT_DISAGREES
    ensures var (d, a) := GotProof(c, from, gen, proof);
            var before, after := c.convergence.value, d.convergence.value;
            && a.Some? && after.peers.Keys == before.peers.Keys + {from}
            && after.own == before.own && after.expected == before.expected
            && (after.peers[from] == after.own <==> c.roomKey.Some? && proof == Some(Proof(c.roomKey.value, gen, from)))
            && forall p :: p in before.peers && p != from ==> after.peers[p] == before.peers[p]
  {
    var conv := c.convergence.value;
    var mark := if Agrees(c, from, gen, proof) then conv.own else Some(FINGERPRINT_DISAGREES);
    DecidedExactlyWhen(conv.(peers := conv.peers[from := mark]));
    hide Decided;
  }

  /** A peer's own proof of the key held here counts as agreement; when it is the last one
      expected and nobody disagreed, the verdict is "converged". */
  lemma LastProofConverges(c: Client, from: Id, gen: int)
    requires c.convergence.Some? && c.convergence.value.generation == gen && c.roomKey.Some?
    requires c.convergence.value.own == Some(Digest4(c.roomKey.value))
    requires var v := c.convergence.value; forall p :: p in v.peers && p != from ==> v.peers[p] == v.own
    ensures var (d, a) := GotProof(c, from, gen, Some(Proof(c.roomKey.value, gen, from)));
            a == Some(if |d.convergence.value.peers| >= d.convergence.value.expected then Action.Converged else Wait)
  {
    var proof := Some(Proof(c.roomKey.value, gen, from));
    ProofIsRecorded(c, from, gen, proof);
    var conv := c.convergence.value;
    var marked := conv.(peers := conv.peers[from := conv.own]);
    assert forall id :: id in marked.peers ==> marked.peers[id] == marked.own;
    ConvergedExactlyWhen(marked);
    DecidedExactlyWhen(marked);
  }

  /** A disagreement makes the rotator mint the next generation, the first time; at
      anybody else, and after the first time, it mints nothing. */
  lemma DisagreementMintsExactlyWhen(cast: Cast, events: seq<Event>, w: World, e: Event)
    requires cast.rotator in cast.people && w == After(cast, events) && e.ProofArrives? && May(cast, w, e)
    ensures var (d, a) := GotProof(w.clients[e.at], e.from, e.gen, e.proof);
            var mints := a == Some(RetryRotation) && e.at == cast.rotator && d.participants.Some?;
            Next(cast, w, e).minted == if mints then w.minted + [e.key] else w.minted
  {
    AfterGood(cast, events);
    ProofArrivesGood(cast, w, e);
    MeIsMe(cast, w, e.at);
    var (d, a) := GotProof(w.clients[e.at], e.from, e.gen, e.proof);
    if d.participants.Some? { ViewsElect(cast, w.minted, w.wire, e.at, d); }
    hide Good, GotProof, ClientGood;
  }
}
