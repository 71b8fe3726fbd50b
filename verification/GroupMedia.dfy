/** The keys frames are sealed under: what the key providers of a group call hold, over
    whole runs. */
module GroupMedia {
  import opened SymbolicCrypto
  import opened X3dh
  import opened TransportChains
  import opened Rotation
  import opened GroupClients
  import opened GroupRuns
  import Keyring

  /** Slot `index` of one identity, or of the shared entry. */
  function SlotOf(who: Option<Id>, gen: int): Keyring.Slot {
    Keyring.Slot(who, Keyring.IndexOf(gen))
  }

  /** A key minted for some generation of this index. */
  predicate MintedFor(minted: seq<RoomKey>, index: int, key: RoomKey) {
    exists g :: 0 <= g < |minted| && Keyring.IndexOf(g) == index && minted[g] == key
  }

  predicate RingMinted(minted: seq<RoomKey>, ring: Keyring.Slots) {
    forall s :: s in ring ==> MintedFor(minted, s.index, ring[s])
  }

  /** The current key is in the shared slot and in one's own. */
  predicate RingCurrent(c: Client) {
    c.roomKey.Some? ==>
      forall who | who in {None, Some(c.me)} :: Filled(c, who)
  }

  predicate Filled(c: Client, who: Option<Id>) {
    c.roomKey.Some? && SlotOf(who, c.generation) in c.ring && c.ring[SlotOf(who, c.generation)] == c.roomKey.value
  }

  predicate RingGood(minted: seq<RoomKey>, c: Client) {
    RingMinted(minted, c.ring) && RingCurrent(c)
  }

  ghost predicate RingsGood(w: World) {
    forall id :: id in w.clients ==> RingGood(w.minted, w.clients[id])
  }

  /** Who is where, with which key, and which slots. */
  predicate SameKeysHeld(c: Client, d: Client) {
    d.me == c.me && d.ring == c.ring && d.roomKey == c.roomKey && d.generation == c.generation
  }

  predicate TookKey(c: Client, d: Client, key: RoomKey, gen: int, peers: seq<Id>) {
    d.me == c.me && d.ring == RingWith(c, key, gen, peers) && d.roomKey == Some(key) && d.generation == gen
  }

  lemma RingKept(minted: seq<RoomKey>, minted': seq<RoomKey>, c: Client, d: Client)
    requires RingGood(minted, c) && minted <= minted' && SameKeysHeld(c, d)
    ensures RingGood(minted', d)
  {
    forall s | s in d.ring
      ensures MintedFor(minted', s.index, d.ring[s])
    {
      var g :| 0 <= g < |minted| && Keyring.IndexOf(g) == s.index && minted[g] == c.ring[s];
      assert minted'[g] == minted[g];
    }
    if d.roomKey.Some? { assert Filled(c, None) && Filled(c, Some(c.me)); }
  }

  lemma RingApplied(minted: seq<RoomKey>, c: Client, d: Client, key: RoomKey, gen: int, peers: seq<Id>)
    requires RingMinted(minted, c.ring) && 0 <= gen < |minted| && minted[gen] == key
    requires TookKey(c, d, key, gen, peers)
    ensures RingGood(minted, d)
  {
    forall s | s in d.ring
      ensures MintedFor(minted, s.index, d.ring[s])
    {
      if s !in c.ring || d.ring[s] != c.ring[s] { assert s.index == Keyring.IndexOf(gen); }
    }
    assert c.me in [c.me] + peers by { assert ([c.me] + peers)[0] == c.me; }
  }

  lemma GotRoomKeyShape(c: Client, from: Id, gen: int, blob: Blob, init: Option<InitialMessage>, onFile: Option<OnFile>)
    ensures var d := GotRoomKey(c, from, gen, blob, init, onFile).client;
            var peers := if c.participants.Some? then Others(c.participants.value, c.me) else [from];
            SameKeysHeld(c, d) || TookKey(c, d, blob.roomKey, gen, peers)
  {}

  lemma GotRoomKeyRing(minted: seq<RoomKey>, c: Client, from: Id, gen: int, blob: Blob, init: Option<InitialMessage>,
                       onFile: Option<OnFile>)
    requires RingGood(minted, c)
    requires var d := GotRoomKey(c, from, gen, blob, init, onFile).client; HoldsMinted(minted, d)
    ensures RingGood(minted, GotRoomKey(c, from, gen, blob, init, onFile).client)
  {
    GotRoomKeyShape(c, from, gen, blob, init, onFile);
    hide GotRoomKey, RingMinted, RingCurrent, RingWith;
    var d := GotRoomKey(c, from, gen, blob, init, onFile).client;
    if SameKeysHeld(c, d) {
      RingKept(minted, minted, c, d);
    } else {
      var peers := if c.participants.Some? then Others(c.participants.value, c.me) else [from];
      RingApplied(minted, c, d, blob.roomKey, gen, peers);
    }
  }

  lemma ResetKeepsRing(c: Client, from: Id, now: int, fetch: Option<Fetch>)
    ensures SameKeysHeld(c, GotReset(c, from, now, fetch).client)
  {
    if c.roomKey.Some? {
      SealingKeepsOne(c.(honored := c.honored[from := now], sessions := c.sessions - {from}), from,
                      c.roomKey.value, c.generation, fetch);
    }
  }

  /** Only a rotation's end, a room key arriving and a reconnect change what is held. */
  lemma ActorUntouched(cast: Cast, w: World, e: Event)
    requires cast.rotator in w.clients && May(cast, w, e) && !e.Commit? && !e.RoomKeyArrives? && !e.Reconnects?
    ensures SameKeysHeld(w.clients[Actor(cast, e)], NewClient(cast, w, e))
  {
    hide Decided, Others, News, Elected, ProofShowable, Agrees, SealedFor, GotReset;
    var c := w.clients[Actor(cast, e)];
    match e
    case SealNext(fetch) => SealingKeepsOne(c, w.job.value.left[0], w.job.value.key, w.job.value.gen, fetch);
    case ResetArrives(_, from, now, fetch) => ResetKeepsRing(c, from, now, fetch);
    case _ =>
  }

  lemma UntouchedBy(cast: Cast, w: World, e: Event, id: Id)
    requires Good(cast, w) && May(cast, w, e) && id in w.clients
    requires !e.Commit? && !e.RoomKeyArrives? && !e.Reconnects?
    ensures w.minted <= Happens(cast, w, e).minted
    ensures id in Happens(cast, w, e).clients && SameKeysHeld(w.clients[id], Happens(cast, w, e).clients[id])
  {
    HappensToActor(cast, w, e);
    ActorUntouched(cast, w, e);
    hide Happens, Good, May, NewClient;
  }

  lemma CommitRing(cast: Cast, w: World, id: Id)
    requires Good(cast, w) && w.job.Some? && RingsGood(w) && id in w.clients
    ensures var v := Committing(w, w.clients[cast.rotator], w.job.value);
            id in v.clients && RingGood(w.minted, v.clients[id])
  {
    MeIsMe(cast, w, cast.rotator);
    assert RingGood(w.minted, w.clients[id]);
    if id == cast.rotator {
      var j := w.job.value;
      RingApplied(w.minted, w.clients[id], Committed(w.clients[id], j.key, j.gen, j.all), j.key, j.gen, j.all);
    }
  }

  lemma RoomKeyRing(cast: Cast, w: World, e: Event, id: Id)
    requires Good(cast, w) && e.RoomKeyArrives? && May(cast, w, e) && RingsGood(w) && Good(cast, Happens(cast, w, e))
    requires id in w.clients
    ensures id in Happens(cast, w, e).clients && RingGood(w.minted, Happens(cast, w, e).clients[id])
  {
    MeIsMe(cast, w, e.at);
    assert RingGood(w.minted, w.clients[id]);
    GotRoomKeyShape(w.clients[e.at], e.from, e.gen, e.blob, e.init, e.onFile);
    var v := Happens(cast, w, e);
    hide May, GotRoomKey, RingGood;
    if id == e.at {
      assert ClientGood(cast, v.minted, v.wire, id, v.clients[id]);
      GotRoomKeyRing(w.minted, w.clients[id], e.from, e.gen, e.blob, e.init, e.onFile);
    }
  }

  lemma ClientRing(cast: Cast, w: World, e: Event, id: Id)
    requires Good(cast, w) && May(cast, w, e) && RingsGood(w) && Good(cast, Happens(cast, w, e))
    requires id in w.clients
    ensures id in Happens(cast, w, e).clients && RingGood(Happens(cast, w, e).minted, Happens(cast, w, e).clients[id])
  {
    assert RingGood(w.minted, w.clients[id]);
    if e.Commit? {
      CommitRing(cast, w, id);
    } else if e.RoomKeyArrives? {
      RoomKeyRing(cast, w, e, id);
    } else if e.Reconnects? {
      MeIsMe(cast, w, e.at);
    } else {
      UntouchedBy(cast, w, e, id);
      hide RingGood, Good, May, Happens;
      RingKept(w.minted, Happens(cast, w, e).minted, w.clients[id], Happens(cast, w, e).clients[id]);
    }
  }

  lemma EventRings(cast: Cast, w: World, e: Event)
    requires Good(cast, w) && May(cast, w, e) && RingsGood(w) && Good(cast, Happens(cast, w, e))
    ensures RingsGood(Happens(cast, w, e))
  {
    var v := Happens(cast, w, e);
    HappensToActor(cast, w, e);
    hide RingGood, Good, May, Happens;
    forall id | id in v.clients
      ensures RingGood(v.minted, v.clients[id])
    {
      ClientRing(cast, w, e, id);
    }
  }

  lemma {:induction false} AfterRings(cast: Cast, events: seq<Event>)
    requires cast.rotator in cast.people
    ensures RingsGood(After(cast, events))
  {
    if events != [] {
      var n := |events| - 1;
      AfterRings(cast, events[..n]);
      AfterGood(cast, events[..n]);
      AfterGood(cast, events);
      hide RingsGood, Good, May, Happens;
      var w := After(cast, events[..n]);
      assert After(cast, events) == Next(cast, w, events[n]);
      if cast.rotator in w.clients && May(cast, w, events[n]) { EventRings(cast, w, events[n]); }
    }
  }

  /** What a client seals its frames under is the key of its generation, and any other
      client at that generation holds it in the shared slot it looks in. */
  lemma FramesOpenAtSameGeneration(cast: Cast, events: seq<Event>, w: World, a: Id, b: Id)
    requires cast.rotator in cast.people && w == After(cast, events) && a in w.clients && b in w.clients
    requires w.clients[a].roomKey.Some? && w.clients[b].roomKey.Some?
    requires w.clients[a].generation == w.clients[b].generation
    ensures var g := w.clients[a].generation;
            && 0 <= g < |w.minted|
            && SlotOf(Some(a), g) in w.clients[a].ring && w.clients[a].ring[SlotOf(Some(a), g)] == w.minted[g]
            && SlotOf(None, g) in w.clients[b].ring && w.clients[b].ring[SlotOf(None, g)] == w.minted[g]
  {
    AfterGood(cast, events);
    AfterRings(cast, events);
    MeIsMe(cast, w, a);
    MeIsMe(cast, w, b);
    assert RingGood(w.minted, w.clients[a]) && RingGood(w.minted, w.clients[b]);
    assert Filled(w.clients[a], Some(a)) && Filled(w.clients[b], None);
  }

  /** Every slot of every client holds a key minted for a generation of that slot's
      index: a frame meets a wrong key only across four generations. */
  lemma SlotsHoldTheirGenerations(cast: Cast, events: seq<Event>, w: World, a: Id, s: Keyring.Slot)
    requires cast.rotator in cast.people && w == After(cast, events) && a in w.clients && s in w.clients[a].ring
    ensures MintedFor(w.minted, s.index, w.clients[a].ring[s])
  {
    AfterRings(cast, events);
    assert RingGood(w.minted, w.clients[a]);
  }
}
