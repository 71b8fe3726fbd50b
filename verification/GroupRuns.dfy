/** Whole group calls: many clients, one elected rotator, a network that loses,
    repeats and reorders everything and may put words in the rotator's mouth. */
module GroupRuns {
  import opened SymbolicCrypto
  import opened X3dh
  import opened TransportChains
  import opened Rotation
  import opened GroupClients

  /** Everybody who may take part, with the identity each device published, and the
      one participant every view elects. */
  datatype Cast = Cast(rotator: Id, people: map<Id, Identity>)

  datatype Packet = Packet(from: Id, message: Message)

  /** A rotation under way at the rotator: who is to be sent the key, and who is left. */
  datatype Job = Job(key: RoomKey, gen: int, left: seq<Id>, all: seq<Id>)

  /** `minted[g]` is the room key drawn for generation `g`; `wire` is every packet
      ever sent. */
  datatype World = World(clients: map<Id, Client>, minted: seq<RoomKey>, job: Option<Job>, wire: set<Packet>)

  datatype Event =
    | Membership(at: Id, view: seq<Participant>, key: RoomKey)
    | SealNext(fetch: Option<Fetch>)
    | Commit
    | RoomKeyArrives(at: Id, from: Id, gen: int, blob: Blob, init: Option<InitialMessage>, onFile: Option<OnFile>)
    | ResetArrives(at: Id, from: Id, now: int, fetch: Option<Fetch>)
    | ProofArrives(at: Id, from: Id, gen: int, proof: Option<Proof>, key: RoomKey)
    | ResetTimesOut(at: Id, peer: Id)
    | Reconnects(at: Id)

  function Opening(cast: Cast): World {
    World(map id | id in cast.people :: Joined(id, cast.people[id]), [], None, {})
  }

  function Put(w: World, c: Client, out: seq<Message>): World {
    w.(clients := w.clients[c.me := c], wire := w.wire + set m | m in out :: Packet(c.me, m))
  }

  function Starts(w: World, c: Client, ps: seq<Participant>, key: RoomKey): World {
    var others := Others(ps, c.me);
    Put(w, Begun(c, others), []).(minted := w.minted + [key], job := Some(Job(key, c.generation + 1, others, others)))
  }

  function Sealing(w: World, c: Client, job: Job, fetch: Option<Fetch>): World
    requires job.left != []
  {
    var (c1, m) := SealedFor(c, job.left[0], job.key, job.gen, fetch);
    Put(w, c1, if m.Some? then [m.value] else []).(job := Some(job.(left := job.left[1..])))
  }

  function Committing(w: World, c: Client, job: Job): World {
    Put(w, Committed(c, job.key, job.gen, job.all), [MyProof(c, job.key, job.gen)]).(job := None)
  }

  // ---------------------------------------------------------------------
  // What may happen.

  /** A bundle of the peer's own keys, or no answer. */
  predicate FetchHonest(cast: Cast, peer: Id, fetch: Option<Fetch>) {
    fetch.Some? ==> peer in cast.people && fetch.value.bundle.signedPrekey.key == cast.people[peer].signedPrekey
  }

  predicate FileHonest(cast: Cast, peer: Id, onFile: Option<OnFile>) {
    onFile.Some? ==> peer in cast.people && onFile.value.identityDh.key == cast.people[peer].dh
  }

  /** Secrets two of these people share: an outsider misses at least the exchange
      between identity key and signed prekey. */
  ghost predicate Private(cast: Cast, secret: Term) {
    && secret.X3dhSecret?
    && exists a, b ::
         Pair(cast, a, b) && secret.dh1 == Ecdh(cast.people[a].dh, cast.people[b].signedPrekey)
  }

  predicate Pair(cast: Cast, a: Id, b: Id) {
    a in cast.people && b in cast.people
  }

  /** Chain and message keys of such a secret. */
  ghost predicate Inside(cast: Cast, key: Term) {
    match key
    case MessageKey(c) => Inside(cast, c)
    case NextChain(c) => Inside(cast, c)
    case ChainOf(s, _) => Private(cast, s)
    case _ => false
  }

  predicate Carries(p: Packet, blob: Blob) {
    p.message.RoomKeyMessage? && p.message.blob == blob
  }

  /** Ciphertexts the network can show: those sent, and those it sealed itself. */
  ghost predicate Showable(cast: Cast, w: World, blob: Blob) {
    !Inside(cast, blob.key) || exists p :: p in w.wire && Carries(p, blob)
  }

  /** Proofs the network can show: those sent, and those under keys that are no room key. */
  predicate ProofShowable(w: World, proof: Option<Proof>) {
    proof.Some? && proof.value.key in w.minted ==>
      Packet(proof.value.sender, FingerprintMessage(proof.value.generation, proof)) in w.wire
  }

  /** Every view elects the same rotator, rotations do not overlap, the rotator never
      reconnects. Packets reach whom they were sent to, from whom they say; beyond
      that the network may hand any room-key message to a non-rotator in the
      rotator's name, any reset to the rotator, and any proof to anyone. */
  ghost predicate May(cast: Cast, w: World, e: Event) {
    (e.SealNext? || e.Commit? || e.at in w.clients) &&
    match e
    case Membership(at, view, _) =>
      Elected(view) == Some(cast.rotator) && (at == cast.rotator && News(w.clients[at], view) ==> w.job == None)
    case SealNext(fetch) => w.job.Some? && w.job.value.left != [] && FetchHonest(cast, w.job.value.left[0], fetch)
    case Commit => w.job.Some? && w.job.value.left == []
    case RoomKeyArrives(at, from, gen, blob, init, onFile) =>
      && FileHonest(cast, from, onFile)
      && (|| Packet(from, RoomKeyMessage(at, gen, blob, init)) in w.wire
          || (from == cast.rotator != at && Showable(cast, w, blob)))
    case ResetArrives(at, from, _, fetch) =>
      FetchHonest(cast, from, fetch) && from != at && (Packet(from, SessionReset(at)) in w.wire || at == cast.rotator)
    case ProofArrives(at, from, gen, proof, _) =>
      && ProofShowable(w, proof)
      && (at == cast.rotator && RotatesOn(w.clients[at], GotProof(w.clients[at], from, gen, proof).1) ==> w.job == None)
    case ResetTimesOut(_, _) => true
    case Reconnects(at) => at != cast.rotator
  }

  ghost function Happens(cast: Cast, w: World, e: Event): World
    requires cast.rotator in w.clients && May(cast, w, e)
  {
    match e
    case Membership(at, view, key) =>
      var c := w.clients[at];
      if !News(c, view) then w
      else if Elected(view) != Some(at) then Put(w, Noted(c, view), [])
      else Starts(w, Noted(c, view), view, key)
    case SealNext(fetch) => Sealing(w, w.clients[cast.rotator], w.job.value, fetch)
    case Commit => Committing(w, w.clients[cast.rotator], w.job.value)
    case RoomKeyArrives(at, from, gen, blob, init, onFile) =>
      var h := GotRoomKey(w.clients[at], from, gen, blob, init, onFile);
      Put(w, h.client, h.out)
    case ResetArrives(at, from, now, fetch) =>
      var h := GotReset(w.clients[at], from, now, fetch);
      Put(w, h.client, h.out)
    case ProofArrives(at, from, gen, proof, key) =>
      var (c, a) := GotProof(w.clients[at], from, gen, proof);
      if RotatesOn(c, a) then Starts(w, c, c.participants.value, key) else Put(w, c, [])
    case ResetTimesOut(at, peer) => Put(w, w.clients[at].(pending := w.clients[at].pending - {peer}), [])
    case Reconnects(at) => Put(w, Joined(at, w.clients[at].identity), [])
  }

  /** What may not happen, does not. */
  ghost function Next(cast: Cast, w: World, e: Event): World {
    if cast.rotator in w.clients && May(cast, w, e) then Happens(cast, w, e) else w
  }

  ghost function After(cast: Cast, events: seq<Event>): World {
    if events == [] then Opening(cast) else Next(cast, After(cast, events[..|events| - 1]), events[|events| - 1])
  }

  // ---------------------------------------------------------------------
  // What every run keeps.

  predicate SameKeys(me: Identity, published: Identity) {
    me.dh == published.dh && me.signedPrekey == published.signedPrekey
  }

  ghost predicate SessionsPrivate(cast: Cast, c: Client) {
    forall p :: p in c.sessions ==> Inside(cast, c.sessions[p].chain.key)
  }

  predicate HoldsMinted(minted: seq<RoomKey>, c: Client) {
    if c.roomKey.Some? then 0 <= c.generation < |minted| && c.roomKey.value == minted[c.generation]
    else c.generation == -1
  }

  /** Every peer recorded as agreeing sent a proof for the very key held here. */
  predicate RecordsBacked(wire: set<Packet>, c: Client) {
    c.convergence.Some? ==>
      var v := c.convergence.value;
      if v.own.Some? then
        && c.roomKey.Some? && v.generation == c.generation && v.own.value == Digest4(c.roomKey.value)
        && forall p :: p in v.peers && v.peers[p] == v.own ==>
             Packet(p, FingerprintMessage(c.generation, Some(Proof(c.roomKey.value, c.generation, p)))) in wire
      else forall p :: p in v.peers ==> v.peers[p] in {None, Some(FINGERPRINT_DISAGREES)}
  }

  ghost predicate ClientGood(cast: Cast, minted: seq<RoomKey>, wire: set<Packet>, id: Id, c: Client) {
    && id in cast.people && c.me == id && SameKeys(c.identity, cast.people[id])
    && SessionsPrivate(cast, c) && HoldsMinted(minted, c) && RecordsBacked(wire, c)
    && (c.participants.Some? ==> Elected(c.participants.value) == Some(cast.rotator))
  }

  /** Only the rotator sends room keys, each the one minted for its generation. */
  predicate PacketGood(cast: Cast, minted: seq<RoomKey>, p: Packet) {
    match p.message
    case RoomKeyMessage(to, _, blob, _) =>
      && p.from == cast.rotator && to != cast.rotator
      && 0 <= blob.generation < |minted| && blob.roomKey == minted[blob.generation]
    case SessionReset(to) => to == cast.rotator
    case FingerprintMessage(g, proof) =>
      && proof.Some? && proof.value.generation == g && proof.value.sender == p.from
      && 0 <= g < |minted| && proof.value.key == minted[g]
  }

  predicate RotatorGood(cast: Cast, w: World) {
    && cast.rotator in w.clients
    && var r := w.clients[cast.rotator];
       if w.job.Some? then
         var j := w.job.value;
         && 0 <= j.gen == r.generation + 1 == |w.minted| - 1 && j.key == w.minted[j.gen] && cast.rotator !in j.left
         && r.convergence.Some? && r.convergence.value.generation == j.gen && r.convergence.value.own == None
       else r.generation + 1 == |w.minted|
  }

  ghost predicate Good(cast: Cast, w: World) {
    && RotatorGood(cast, w)
    && (forall id :: id in w.clients ==> ClientGood(cast, w.minted, w.wire, id, w.clients[id]))
    && (forall p :: p in w.wire ==> PacketGood(cast, w.minted, p))
  }

  // ---------------------------------------------------------------------
  // Each handler keeps it.

  lemma {:induction false} WalkedInside(cast: Cast, key: Term, steps: nat)
    requires Inside(cast, key)
    ensures Inside(cast, Ratcheted(key, steps))
  {
    if steps > 0 { WalkedInside(cast, key, steps - 1); }
  }

  lemma ClientKept(cast: Cast, minted: seq<RoomKey>, minted': seq<RoomKey>, wire: set<Packet>, wire': set<Packet>,
                   id: Id, c: Client)
    requires ClientGood(cast, minted, wire, id, c) && wire <= wire' && minted <= minted'
    ensures ClientGood(cast, minted', wire', id, c)
  {}

  lemma PacketKept(cast: Cast, minted: seq<RoomKey>, minted': seq<RoomKey>, p: Packet)
    requires PacketGood(cast, minted, p) && minted <= minted'
    ensures PacketGood(cast, minted', p)
  {}

  /** One client replaced by a good one, sending good packets. */
  lemma PutGood(cast: Cast, w: World, v: World, c: Client, out: seq<Message>)
    requires Good(cast, w) && v == Put(w, c, out).(minted := v.minted, job := v.job) && w.minted <= v.minted
    requires ClientGood(cast, v.minted, v.wire, c.me, c) && RotatorGood(cast, v)
    requires forall m :: m in out ==> PacketGood(cast, v.minted, Packet(c.me, m))
    ensures Good(cast, v)
  {
    hide RotatorGood, ClientGood, PacketGood;
    forall id | id in v.clients
      ensures ClientGood(cast, v.minted, v.wire, id, v.clients[id])
    {
      if id != c.me { ClientKept(cast, w.minted, v.minted, w.wire, v.wire, id, w.clients[id]); }
    }
    forall p | p in v.wire
      ensures PacketGood(cast, v.minted, p)
    {
      if p in w.wire { PacketKept(cast, w.minted, v.minted, p); }
    }
  }

  lemma EnsuredPrivate(cast: Cast, c: Client, peer: Id, fetch: Option<Fetch>)
    requires c.me in cast.people && SameKeys(c.identity, cast.people[c.me]) && SessionsPrivate(cast, c)
    requires FetchHonest(cast, peer, fetch)
    ensures Ensured(c, peer, fetch).Some? ==>
              var c1 := Ensured(c, peer, fetch).value.0;
              peer in c1.sessions && SessionsPrivate(cast, c1) && c1 == c.(sessions := c1.sessions)
  {
    if peer !in c.sessions && Ensured(c, peer, fetch).Some? {
      var (a, _) := Initiate(c.identity, fetch.value.bundle, fetch.value.eph).value;
      assert Pair(cast, c.me, peer);
      assert Private(cast, a.secret);
    }
  }

  lemma SealedForPrivate(cast: Cast, c: Client, peer: Id, key: RoomKey, gen: int, fetch: Option<Fetch>)
    requires c.me in cast.people && SameKeys(c.identity, cast.people[c.me]) && SessionsPrivate(cast, c)
    requires FetchHonest(cast, peer, fetch)
    ensures SessionsPrivate(cast, SealedFor(c, peer, key, gen, fetch).0)
  {
    EnsuredPrivate(cast, c, peer, fetch);
    hide SameKeys, FetchHonest, Ensured;
    if Ensured(c, peer, fetch).Some? {
      var s := Ensured(c, peer, fetch).value.0.sessions[peer];
      if KeyFor(s.chain, gen).Ok? { WalkedInside(cast, s.chain.key, gen - s.chain.index); }
    }
  }

  lemma GreetedPrivate(cast: Cast, c: Client, from: Id, init: InitialMessage, onFile: Option<OnFile>)
    requires c.me in cast.people && SameKeys(c.identity, cast.people[c.me]) && SessionsPrivate(cast, c)
    requires FileHonest(cast, from, onFile)
    ensures Greeted(c, from, init, onFile).Some? ==>
              var c1 := Greeted(c, from, init, onFile).value;
              && from in c1.sessions && SessionsPrivate(cast, c1) && SameKeys(c1.identity, cast.people[c.me])
              && c1 == c.(identity := c1.identity, sessions := c1.sessions)
  {
    if from !in c.sessions && Greeted(c, from, init, onFile).Some? {
      var a := Respond(c.identity, init).value;
      EcdhCommutes(cast.people[from].dh, c.identity.signedPrekey);
      assert Pair(cast, from, c.me);
      assert Private(cast, a.secret);
    }
  }

  /** A room key taken in by anybody is the one minted for its generation. */
  lemma AcceptedGood(cast: Cast, minted: seq<RoomKey>, wire: set<Packet>, id: Id, c: Client, from: Id, gen: int,
                     key: RoomKey)
    requires ClientGood(cast, minted, wire, id, c) && 0 <= gen < |minted| && key == minted[gen]
    ensures ClientGood(cast, minted, wire, id, Accepted(c, from, gen, key))
  {}

  predicate BlobMinted(minted: seq<RoomKey>, blob: Blob) {
    0 <= blob.generation < |minted| && blob.roomKey == minted[blob.generation]
  }

  lemma RecordsOnly(wire: set<Packet>, c: Client, d: Client)
    requires RecordsBacked(wire, c) && d.convergence == c.convergence && d.roomKey == c.roomKey
    requires d.generation == c.generation
    ensures RecordsBacked(wire, d)
  {}

  lemma GreetedGood(cast: Cast, minted: seq<RoomKey>, wire: set<Packet>, id: Id, c: Client,
                    from: Id, init: InitialMessage, onFile: Option<OnFile>)
    requires ClientGood(cast, minted, wire, id, c) && FileHonest(cast, from, onFile)
    ensures var g := Greeted(c, from, init, onFile);
            g.Some? ==> from in g.value.sessions && ClientGood(cast, minted, wire, id, g.value)
  {
    GreetedPrivate(cast, c, from, init, onFile);
    hide Greeted, SameKeys, FileHonest, RecordsBacked, SessionsPrivate;
    var g := Greeted(c, from, init, onFile);
    if g.Some? { RecordsOnly(wire, c, g.value); }
  }

  lemma WalkedGood(cast: Cast, minted: seq<RoomKey>, wire: set<Packet>, id: Id, c: Client, from: Id, gen: int)
    requires ClientGood(cast, minted, wire, id, c) && from in c.sessions
    ensures var s := c.sessions[from];
            && ClientGood(cast, minted, wire, id, c.(sessions := c.sessions[from := s.(chain := Walked(s.chain, gen))]))
            && (KeyFor(s.chain, gen).Ok? ==> Inside(cast, KeyFor(s.chain, gen).value))
  {
    var s := c.sessions[from];
    if gen >= s.chain.index { WalkedInside(cast, s.chain.key, gen - s.chain.index); }
    hide SameKeys, RecordsBacked;
    RecordsOnly(wire, c, c.(sessions := c.sessions[from := s.(chain := Walked(s.chain, gen))]));
  }

  lemma AskedGood(cast: Cast, minted: seq<RoomKey>, wire: set<Packet>, id: Id, c: Client, peer: Id)
    requires ClientGood(cast, minted, wire, id, c)
    ensures ClientGood(cast, minted, wire, id, AskedReset(c, peer).client)
  {
    hide SameKeys, RecordsBacked;
    RecordsOnly(wire, c, AskedReset(c, peer).client);
  }

  lemma GotRoomKeyGood(cast: Cast, minted: seq<RoomKey>, wire: set<Packet>, id: Id, c: Client,
                       from: Id, gen: int, blob: Blob, init: Option<InitialMessage>, onFile: Option<OnFile>)
    requires ClientGood(cast, minted, wire, id, c) && id != cast.rotator == from && FileHonest(cast, from, onFile)
    requires !Inside(cast, blob.key) || BlobMinted(minted, blob)
    ensures var h := GotRoomKey(c, from, gen, blob, init, onFile);
            && ClientGood(cast, minted, wire, id, h.client)
            && forall m :: m in h.out ==> PacketGood(cast, minted, Packet(id, m))
  {
    if init.Some? { GreetedGood(cast, minted, wire, id, c, from, init.value, onFile); }
    assert c.me == id;
    hide ClientGood, Greeted, FileHonest, Accepted, KeyFor, Walked, Inside;
    var g := if init.Some? then Greeted(c, from, init.value, onFile) else Some(c);
    if g.Some? && from in g.value.sessions {
      var c1, s := g.value, g.value.sessions[from];
      WalkedGood(cast, minted, wire, id, c1, from, gen);
      var c2 := c1.(sessions := c1.sessions[from := s.(chain := Walked(s.chain, gen))]);
      if KeyFor(s.chain, gen).Ok? && Opens(blob, KeyFor(s.chain, gen).value, s.binding, gen) {
        AcceptedGood(cast, minted, wire, id, c2, from, gen, blob.roomKey);
      }
    } else if g.Some? {
      AskedGood(cast, minted, wire, id, g.value, from);
    }
  }

  lemma GotResetGood(cast: Cast, minted: seq<RoomKey>, wire: set<Packet>, c: Client, from: Id, now: int,
                     fetch: Option<Fetch>)
    requires ClientGood(cast, minted, wire, cast.rotator, c) && from != cast.rotator && FetchHonest(cast, from, fetch)
    ensures var h := GotReset(c, from, now, fetch);
            && ClientGood(cast, minted, wire, cast.rotator, h.client)
            && h.client.generation == c.generation && h.client.convergence == c.convergence
            && forall m :: m in h.out ==> PacketGood(cast, minted, Packet(cast.rotator, m))
  {
    if !Cooling(c, from, now) && c.roomKey.Some? {
      var c1 := c.(honored := c.honored[from := now], sessions := c.sessions - {from});
      SealedForPrivate(cast, c1, from, c.roomKey.value, c.generation, fetch);
      SealingKeepsOne(c1, from, c.roomKey.value, c.generation, fetch);
      hide SealedFor;
      RecordsOnly(wire, c, SealedFor(c1, from, c.roomKey.value, c.generation, fetch).0);
    }
  }

  /** Recording one more mark, when an agreeing one has its proof on the wire. */
  lemma MarkBacked(wire: set<Packet>, c: Client, from: Id, mark: Option<string>, retried: bool)
    requires RecordsBacked(wire, c) && c.convergence.Some?
    requires var own := c.convergence.value.own;
             if own.Some? && mark == own then c.roomKey.Some? &&
               Packet(from, FingerprintMessage(c.generation, Some(Proof(c.roomKey.value, c.generation, from)))) in wire
             else mark in {None, Some(FINGERPRINT_DISAGREES)}
    ensures var v := c.convergence.value;
            RecordsBacked(wire, c.(convergence := Some(v.(peers := v.peers[from := mark], retried := retried))))
  {}

  lemma GotProofBacked(minted: seq<RoomKey>, wire: set<Packet>, c: Client, from: Id, gen: int, proof: Option<Proof>)
    requires RecordsBacked(wire, c) && HoldsMinted(minted, c) && ProofBacked(minted, wire, proof)
    ensures RecordsBacked(wire, GotProof(c, from, gen, proof).0)
  {
    if c.convergence.Some? && c.convergence.value.generation == gen {
      var v := c.convergence.value;
      var mark := if Agrees(c, from, gen, proof) then v.own else Some(FINGERPRINT_DISAGREES);
      var decided := Decided(v.(peers := v.peers[from := mark])).0;
      assert v.own.Some? ==> v.own.value != FINGERPRINT_DISAGREES;
      MarkBacked(wire, c, from, mark, decided.retried);
    }
  }

  /** A proof under a room key is one that was sent. */
  predicate ProofBacked(minted: seq<RoomKey>, wire: set<Packet>, proof: Option<Proof>) {
    proof.Some? && proof.value.key in minted ==>
      Packet(proof.value.sender, FingerprintMessage(proof.value.generation, proof)) in wire
  }

  lemma GotProofGood(cast: Cast, minted: seq<RoomKey>, wire: set<Packet>, id: Id, c: Client,
                     from: Id, gen: int, proof: Option<Proof>)
    requires ClientGood(cast, minted, wire, id, c) && ProofBacked(minted, wire, proof)
    ensures var d := GotProof(c, from, gen, proof).0;
            && ClientGood(cast, minted, wire, id, d) && d == c.(convergence := d.convergence)
            && (d.convergence.Some? <==> c.convergence.Some?)
            && (c.convergence.Some? ==>
                  && d.convergence.value.generation == c.convergence.value.generation
                  && d.convergence.value.own == c.convergence.value.own)
  {
    GotProofBacked(minted, wire, c, from, gen, proof);
    hide RecordsBacked, SessionsPrivate, Agrees;
    assert forall p :: p in c.sessions ==> true;
    var d := GotProof(c, from, gen, proof).0;
    assert d == c.(convergence := d.convergence);
  }

  lemma {:induction false} OthersLeaveMeOut(ps: seq<Participant>, me: Id)
    ensures me !in Others(ps, me)
  {
    if ps != [] { OthersLeaveMeOut(ps[..|ps| - 1], me); }
  }

  // ---------------------------------------------------------------------
  // Each event keeps it.

  lemma StartsGood(cast: Cast, w: World, c: Client, ps: seq<Participant>, key: RoomKey)
    requires Good(cast, w) && w.job == None && c.me == cast.rotator
    requires ClientGood(cast, w.minted, w.wire, cast.rotator, c) && c.generation == w.clients[cast.rotator].generation
    ensures Good(cast, Starts(w, c, ps, key))
  {
    OthersLeaveMeOut(ps, c.me);
    var v := Starts(w, c, ps, key);
    var d := Begun(c, Others(ps, c.me));
    assert w.minted <= v.minted && v.wire == w.wire;
    ClientKept(cast, w.minted, v.minted, w.wire, v.wire, cast.rotator, c);
    assert ClientGood(cast, v.minted, v.wire, cast.rotator, d);
    PutGood(cast, w, v, d, []);
  }

  lemma SealingGood(cast: Cast, w: World, fetch: Option<Fetch>)
    requires Good(cast, w) && w.job.Some? && w.job.value.left != [] && FetchHonest(cast, w.job.value.left[0], fetch)
    ensures Good(cast, Sealing(w, w.clients[cast.rotator], w.job.value, fetch))
  {
    var c, j := w.clients[cast.rotator], w.job.value;
    var peer := j.left[0];
    assert peer in j.left;
    SealedForPrivate(cast, c, peer, j.key, j.gen, fetch);
    SealingKeepsOne(c, peer, j.key, j.gen, fetch);
    hide SealedFor;
    var (d, m) := SealedFor(c, peer, j.key, j.gen, fetch);
    var v := Sealing(w, c, j, fetch);
    RecordsOnly(w.wire, c, d);
    ClientKept(cast, w.minted, v.minted, w.wire, v.wire, cast.rotator, d);
    PutGood(cast, w, v, d, if m.Some? then [m.value] else []);
  }

  lemma CommittingGood(cast: Cast, w: World)
    requires Good(cast, w) && w.job.Some?
    ensures Good(cast, Committing(w, w.clients[cast.rotator], w.job.value))
  {
    var c, j := w.clients[cast.rotator], w.job.value;
    var d, out := Committed(c, j.key, j.gen, j.all), [MyProof(c, j.key, j.gen)];
    var v := Committing(w, c, j);
    assert ClientGood(cast, v.minted, v.wire, cast.rotator, d);
    PutGood(cast, w, v, d, out);
  }

  lemma NotedGood(cast: Cast, w: World, at: Id, view: seq<Participant>)
    requires Good(cast, w) && at in w.clients && Elected(view) == Some(cast.rotator)
    ensures ClientGood(cast, w.minted, w.wire, at, Noted(w.clients[at], view))
    ensures Good(cast, Put(w, Noted(w.clients[at], view), []))
  {
    var v := Put(w, Noted(w.clients[at], view), []);
    assert v.wire == w.wire;
    PutGood(cast, w, v, Noted(w.clients[at], view), []);
  }

  lemma MembershipGood(cast: Cast, w: World, at: Id, view: seq<Participant>, key: RoomKey)
    requires Good(cast, w) && May(cast, w, Membership(at, view, key))
    ensures Good(cast, Happens(cast, w, Membership(at, view, key)))
  {
    NotedGood(cast, w, at, view);
    hide ClientGood, PacketGood;
    if News(w.clients[at], view) && Elected(view) == Some(at) {
      assert Noted(w.clients[at], view).me == at by { MeIsMe(cast, w, at); }
      StartsGood(cast, w, Noted(w.clients[at], view), view, key);
    }
  }

  lemma ViewsElect(cast: Cast, minted: seq<RoomKey>, wire: set<Packet>, id: Id, c: Client)
    requires ClientGood(cast, minted, wire, id, c) && c.participants.Some?
    ensures Elected(c.participants.value) == Some(cast.rotator) && c.me == id
  {}

  lemma MeIsMe(cast: Cast, w: World, at: Id)
    requires Good(cast, w) && at in w.clients
    ensures w.clients[at].me == at && at in cast.people
  {}

  lemma RoomKeyArrivesGood(cast: Cast, w: World, e: Event)
    requires Good(cast, w) && e.RoomKeyArrives? && May(cast, w, e)
    ensures Good(cast, Happens(cast, w, e))
  {
    var c := w.clients[e.at];
    assert PacketGood(cast, w.minted, Packet(e.from, RoomKeyMessage(e.at, e.gen, e.blob, e.init))) ||
           Packet(e.from, RoomKeyMessage(e.at, e.gen, e.blob, e.init)) !in w.wire;
    if Inside(cast, e.blob.key) && Packet(e.from, RoomKeyMessage(e.at, e.gen, e.blob, e.init)) !in w.wire {
      var p :| p in w.wire && Carries(p, e.blob);
      assert PacketGood(cast, w.minted, p);
    }
    GotRoomKeyGood(cast, w.minted, w.wire, e.at, c, e.from, e.gen, e.blob, e.init, e.onFile);
    hide ClientGood, PacketGood, GotRoomKey;
    var h := GotRoomKey(c, e.from, e.gen, e.blob, e.init, e.onFile);
    ReplaceGood(cast, w, e.at, h.client, h.out);
  }

  /** A client that is not the rotator, or one that keeps what a rotation relies on. */
  lemma ReplaceGood(cast: Cast, w: World, at: Id, d: Client, out: seq<Message>)
    requires Good(cast, w) && at in w.clients && ClientGood(cast, w.minted, w.wire, at, d)
    requires at == cast.rotator ==> d.generation == w.clients[at].generation
    requires at == cast.rotator && w.job.Some? ==> d.convergence.Some? && d.convergence.value.own == None
    requires at == cast.rotator && w.job.Some? ==>
               d.convergence.value.generation == w.clients[at].convergence.value.generation
    requires forall m :: m in out ==> PacketGood(cast, w.minted, Packet(at, m))
    ensures Good(cast, Put(w, d, out))
  {
    var v := Put(w, d, out);
    ClientKept(cast, w.minted, v.minted, w.wire, v.wire, at, d);
    PutGood(cast, w, v, d, out);
  }

  lemma ResetArrivesGood(cast: Cast, w: World, e: Event)
    requires Good(cast, w) && e.ResetArrives? && May(cast, w, e)
    ensures Good(cast, Happens(cast, w, e))
  {
    var ask := Packet(e.from, SessionReset(e.at));
    assert ask in w.wire ==> PacketGood(cast, w.minted, ask);
    GotResetGood(cast, w.minted, w.wire, w.clients[e.at], e.from, e.now, e.fetch);
    hide ClientGood, PacketGood, GotReset;
    var h := GotReset(w.clients[e.at], e.from, e.now, e.fetch);
    ReplaceGood(cast, w, e.at, h.client, h.out);
  }

  lemma ProofArrivesGood(cast: Cast, w: World, e: Event)
    requires Good(cast, w) && e.ProofArrives? && May(cast, w, e)
    ensures Good(cast, Happens(cast, w, e))
    ensures ClientGood(cast, w.minted, w.wire, e.at, GotProof(w.clients[e.at], e.from, e.gen, e.proof).0)
  {
    GotProofGood(cast, w.minted, w.wire, e.at, w.clients[e.at], e.from, e.gen, e.proof);
    MeIsMe(cast, w, e.at);
    hide ClientGood, PacketGood, GotProof;
    var (d, a) := GotProof(w.clients[e.at], e.from, e.gen, e.proof);
    if RotatesOn(d, a) {
      assert e.at == cast.rotator by { ViewsElect(cast, w.minted, w.wire, e.at, d); }
      StartsGood(cast, w, d, d.participants.value, e.key);
    } else {
      ReplaceGood(cast, w, e.at, d, []);
    }
  }

  lemma HappensGood(cast: Cast, w: World, e: Event)
    requires Good(cast, w) && May(cast, w, e)
    ensures Good(cast, Happens(cast, w, e))
  {
    match e
    case Membership(at, view, key) => MembershipGood(cast, w, at, view, key);
    case SealNext(fetch) => SealingGood(cast, w, fetch);
    case Commit => CommittingGood(cast, w);
    case RoomKeyArrives(_, _, _, _, _, _) => RoomKeyArrivesGood(cast, w, e);
    case ResetArrives(_, _, _, _) => ResetArrivesGood(cast, w, e);
    case ProofArrives(_, _, _, _, _) => ProofArrivesGood(cast, w, e);
    case ResetTimesOut(at, peer) =>
      RecordsOnly(w.wire, w.clients[at], w.clients[at].(pending := w.clients[at].pending - {peer}));
      ReplaceGood(cast, w, at, w.clients[at].(pending := w.clients[at].pending - {peer}), []);
    case Reconnects(at) =>
      MeIsMe(cast, w, at);
      ReplaceGood(cast, w, at, Joined(at, w.clients[at].identity), []);
  }

  lemma {:induction false} AfterGood(cast: Cast, events: seq<Event>)
    requires cast.rotator in cast.people
    ensures Good(cast, After(cast, events))
  {
    if events != [] {
      var n := |events| - 1;
      AfterGood(cast, events[..n]);
      hide Good, May, Happens;
      if May(cast, After(cast, events[..n]), events[n]) { HappensGood(cast, After(cast, events[..n]), events[n]); }
    }
  }

  // ---------------------------------------------------------------------
  // What the call is owed.

  ghost predicate Holding(w: World, id: Id, gen: int, key: RoomKey) {
    id in w.clients && w.clients[id].generation == gen && w.clients[id].roomKey == Some(key)
  }

  /** Any two clients at the same generation hold the same room key, whatever was
      lost, repeated, reset, reconnected, retried or made up on the way. */
  lemma SameGenerationSameKey(cast: Cast, events: seq<Event>, a: Id, b: Id, gen: int, k: RoomKey, k': RoomKey)
    requires cast.rotator in cast.people
    requires Holding(After(cast, events), a, gen, k) && Holding(After(cast, events), b, gen, k')
    ensures k == k'
  {
    AfterGood(cast, events);
  }

  /** The same across time: a generation never changes its key during a call. */
  lemma GenerationKeepsItsKey(cast: Cast, events: seq<Event>, i: nat, a: Id, b: Id, gen: int, k: RoomKey, k': RoomKey)
    requires cast.rotator in cast.people && i <= |events|
    requires Holding(After(cast, events[..i]), a, gen, k) && Holding(After(cast, events), b, gen, k')
    ensures k == k'
  {
    AfterGood(cast, events);
    AfterGood(cast, events[..i]);
    MintedGrows(cast, events, i);
  }

  lemma {:induction false} MintedGrows(cast: Cast, events: seq<Event>, i: nat)
    requires i <= |events|
    ensures After(cast, events[..i]).minted <= After(cast, events).minted
  {
    if i < |events| {
      assert events[..|events| - 1][..i] == events[..i];
      MintedGrows(cast, events[..|events| - 1], i);
    } else {
      assert events[..i] == events;
    }
  }

  /** Who sends a proof of a key holds that key then. */
  lemma {:induction false} ProofMeansHeld(cast: Cast, events: seq<Event>, id: Id, gen: int,
                                          key: RoomKey) returns (i: nat)
    requires cast.rotator in cast.people
    requires Packet(id, FingerprintMessage(gen, Some(Proof(key, gen, id)))) in After(cast, events).wire
    ensures i <= |events| && Holding(After(cast, events[..i]), id, gen, key)
  {
    var n := |events| - 1;
    var before, e := After(cast, events[..n]), events[n];
    var p := Packet(id, FingerprintMessage(gen, Some(Proof(key, gen, id))));
    if p in before.wire {
      i := ProofMeansHeld(cast, events[..n], id, gen, key);
      assert events[..n][..i] == events[..i];
    } else {
      i := |events|;
      assert events[..i] == events;
      AfterGood(cast, events[..n]);
      ProofSentWhenHeld(cast, before, e, id, gen, key);
    }
  }

  lemma ProofSentWhenHeld(cast: Cast, w: World, e: Event, id: Id, gen: int, key: RoomKey)
    requires Good(cast, w) && May(cast, w, e)
    requires var p := Packet(id, FingerprintMessage(gen, Some(Proof(key, gen, id))));
             p !in w.wire && p in Happens(cast, w, e).wire
    ensures Holding(Happens(cast, w, e), id, gen, key)
  {
    hide ClientGood, PacketGood, SealedFor, GotReset, GotRoomKey, GotProof, Begun, Noted;
    match e
    case SealNext(fetch) =>
      SealingKeepsOne(w.clients[cast.rotator], w.job.value.left[0], w.job.value.key, w.job.value.gen, fetch);
      assert false;
    case ResetArrives(at, from, now, fetch) =>
      ResetSendsNoProof(w.clients[at], from, now, fetch);
      assert false;
    case RoomKeyArrives(at, from, g, blob, init, onFile) =>
      RoomKeySendsItsProof(w.clients[at], from, g, blob, init, onFile);
      MeIsMe(cast, w, at);
    case Commit => MeIsMe(cast, w, cast.rotator);
    case _ =>
  }

  lemma ResetSendsNoProof(c: Client, from: Id, now: int, fetch: Option<Fetch>)
    ensures forall m :: m in GotReset(c, from, now, fetch).out ==> !m.FingerprintMessage?
  {
    if c.roomKey.Some? {
      SealingKeepsOne(c.(honored := c.honored[from := now], sessions := c.sessions - {from}), from, c.roomKey.value,
                      c.generation, fetch);
    }
  }

  lemma RoomKeySendsItsProof(c: Client, from: Id, gen: int, blob: Blob, init: Option<InitialMessage>,
                             onFile: Option<OnFile>)
    ensures var h := GotRoomKey(c, from, gen, blob, init, onFile);
            h.client.me == c.me && forall m :: m in h.out && m.FingerprintMessage? ==>
              m == MyProof(c, blob.roomKey, gen) && h.client.roomKey == Some(blob.roomKey) && h.client.generation == gen
  {}

  /** "Converged" is the truth: when a client that knows its own fingerprint reaches
      that verdict, at least the expected number of peers reported, and every one of
      them held this very room key at this very generation. */
  lemma ConvergedMeansHeld(cast: Cast, events: seq<Event>, w: World, at: Id, from: Id, gen: int,
                           proof: Option<Proof>, c: Client)
    requires cast.rotator in cast.people && w == After(cast, events) && at in w.clients && ProofShowable(w, proof)
    requires GotProof(w.clients[at], from, gen, proof) == (c, Some(Action.Converged)) && c.convergence.value.own.Some?
    ensures c.roomKey.Some? && c.generation == gen && |c.convergence.value.peers| >= c.convergence.value.expected
    ensures forall p :: p in c.convergence.value.peers ==> HeldOnce(cast, events, p, gen, c.roomKey.value)
  {
    AfterGood(cast, events);
    GotProofGood(cast, w.minted, w.wire, at, w.clients[at], from, gen, proof);
    VerdictOf(w.clients[at], from, gen, proof);
    hide GotProof;
    forall p | p in c.convergence.value.peers
      ensures HeldOnce(cast, events, p, gen, c.roomKey.value)
    {
      var i := ProofMeansHeld(cast, events, p, gen, c.roomKey.value);
    }
  }

  ghost predicate HeldOnce(cast: Cast, events: seq<Event>, id: Id, gen: int, key: RoomKey) {
    exists i :: 0 <= i <= |events| && Holding(After(cast, events[..i]), id, gen, key)
  }

  lemma VerdictOf(c: Client, from: Id, gen: int, proof: Option<Proof>)
    requires GotProof(c, from, gen, proof).1 == Some(Action.Converged)
    ensures var v := GotProof(c, from, gen, proof).0.convergence.value;
            && v.generation == gen && |v.peers| >= v.expected
            && (v.own.Some? ==> forall id :: id in v.peers ==> v.peers[id] == v.own)
  {
    var conv := c.convergence.value;
    var mark := if Agrees(c, from, gen, proof) then conv.own else Some(FINGERPRINT_DISAGREES);
    ConvergedExactlyWhen(conv.(peers := conv.peers[from := mark]));
  }

  /** Asked to reset, the rotator opens a new session and re-delivers; whoever asked
      then holds the rotator's key and generation. */
  lemma ResetRecovers(r: Client, c: Client, now: int, fetch: Fetch, onFile: OnFile)
    requires r.roomKey.Some? && r.generation >= 0 && r.me !in c.sessions && !Cooling(r, c.me, now)
    requires Shows(fetch.bundle, c.identity)
    requires onFile == OnFile(r.identity.signing, SignedBy(r.identity.signing, r.identity.dh))
    ensures var out := GotReset(r, c.me, now, Some(fetch)).out;
            && |out| == 1 && out[0].RoomKeyMessage? && out[0].to == c.me
            && var h := GotRoomKey(c, r.me, out[0].generation, out[0].blob, out[0].init, Some(onFile));
               && !h.rejoin && h.client.me == c.me && r.me !in h.client.pending
               && h.client.roomKey == r.roomKey && h.client.generation == r.generation
  {
    AgreementLaw(r.identity, c.identity, fetch.bundle, fetch.eph);
  }

  lemma ResetKeepsKey(c: Client, from: Id, now: int, fetch: Option<Fetch>)
    ensures var d := GotReset(c, from, now, fetch).client;
            d.me == c.me && d.roomKey == c.roomKey && d.generation == c.generation
  {
    if c.roomKey.Some? {
      SealingKeepsOne(c.(honored := c.honored[from := now], sessions := c.sessions - {from}), from, c.roomKey.value,
                      c.generation, fetch);
    }
  }

  lemma AskedFor(cast: Cast, w: World, e: Event)
    requires cast.rotator in w.clients && e.RoomKeyArrives? && May(cast, w, e) && e.from == cast.rotator
    requires e.init == None
    requires cast.rotator !in w.clients[e.at].sessions && cast.rotator !in w.clients[e.at].pending
    ensures var c := w.clients[e.at];
            Next(cast, w, e) == Put(w, c.(pending := c.pending + {cast.rotator}), [SessionReset(cast.rotator)])
  {}

  lemma AnsweredBy(cast: Cast, w: World, at: Id, now: int, fetch: Option<Fetch>)
    requires cast.rotator in w.clients && at != cast.rotator && FetchHonest(cast, at, fetch)
    ensures var h := GotReset(w.clients[cast.rotator], at, now, fetch);
            Next(cast, w, ResetArrives(cast.rotator, at, now, fetch)) == Put(w, h.client, h.out)
  {}

  lemma Redelivered(cast: Cast, w: World, at: Id, m: Message, onFile: Option<OnFile>)
    requires cast.rotator in w.clients && at in w.clients && m.RoomKeyMessage? && m.to == at
    requires Packet(cast.rotator, m) in w.wire
    requires FileHonest(cast, cast.rotator, onFile)
    ensures var h := GotRoomKey(w.clients[at], cast.rotator, m.generation, m.blob, m.init, onFile);
            Next(cast, w, RoomKeyArrives(at, cast.rotator, m.generation, m.blob, m.init, onFile)) ==
              Put(w, h.client, h.out)
  {}

  /** Two clients hold this room key at the same generation. */
  ghost predicate LevelAt(w: World, a: Id, b: Id, key: Option<RoomKey>) {
    && a in w.clients && b in w.clients && w.clients[a].generation == w.clients[b].generation
    && w.clients[a].roomKey == key == w.clients[b].roomKey
  }

  /** A lone reconnect heals, in any reachable call: a room key the client has no
      session for makes it ask, its request may reach the rotator, and what the
      rotator answers brings the client to the rotator's key and generation. */
  lemma LoneReconnectHeals(cast: Cast, events: seq<Event>, w: World, e: Event, now: int, fetch: Fetch)
    requires cast.rotator in cast.people && w == After(cast, events) && cast.rotator in w.clients
    requires e.RoomKeyArrives? && May(cast, w, e) && e.at != cast.rotator == e.from && e.init == None
    requires w.clients[cast.rotator].roomKey.Some? && !Cooling(w.clients[cast.rotator], e.at, now)
    requires cast.rotator !in w.clients[e.at].sessions && cast.rotator !in w.clients[e.at].pending
    requires Shows(fetch.bundle, w.clients[e.at].identity)
    ensures Packet(e.at, SessionReset(cast.rotator)) in Next(cast, w, e).wire
    ensures var answered := Next(cast, Next(cast, w, e), ResetArrives(cast.rotator, e.at, now, Some(fetch)));
            exists e' :: LevelAt(Next(cast, answered, e'), e.at, cast.rotator, w.clients[cast.rotator].roomKey)
  {
    var at, r, c := e.at, w.clients[cast.rotator], w.clients[e.at];
    AfterGood(cast, events);
    MeIsMe(cast, w, at);
    MeIsMe(cast, w, cast.rotator);
    Published(cast, w, at);
    Published(cast, w, cast.rotator);
    var c' := c.(pending := c.pending + {cast.rotator});
    var onFile := OnFile(r.identity.signing, SignedBy(r.identity.signing, r.identity.dh));
    ResetRecovers(r, c', now, fetch, onFile);
    ResetKeepsKey(r, at, now, Some(fetch));
    AskedFor(cast, w, e);
    hide Good, GotReset, GotRoomKey, Cooling, Next, May, Shows;
    var asked := Next(cast, w, e);
    var answer := GotReset(r, at, now, Some(fetch));
    AnsweredBy(cast, asked, at, now, Some(fetch));
    var answered := Next(cast, asked, ResetArrives(cast.rotator, at, now, Some(fetch)));
    var m := answer.out[0];
    assert Packet(cast.rotator, m) in answered.wire;
    Redelivered(cast, answered, at, m, Some(onFile));
    var e' := RoomKeyArrives(at, cast.rotator, m.generation, m.blob, m.init, Some(onFile));
    assert LevelAt(Next(cast, answered, e'), at, cast.rotator, r.roomKey);
  }

  lemma Published(cast: Cast, w: World, id: Id)
    requires Good(cast, w) && id in w.clients
    ensures SameKeys(w.clients[id].identity, cast.people[id])
    ensures w.clients[id].roomKey.Some? ==> w.clients[id].generation >= 0
  {}

  /** Why the rotator must keep its state: after a reconnect it mints generation 0
      again, beside somebody still on the first one. */
  lemma RotatorReconnectSplits(cast: Cast, w: World, a: Id, k: RoomKey, key: RoomKey)
    requires cast.rotator in w.clients && a != cast.rotator && Holding(w, a, 0, k) && k != key
    ensures var alone := [Participant(cast.rotator, None)];
            var back := Put(w, Joined(cast.rotator, w.clients[cast.rotator].identity), []).(job := None);
            var minting := Next(cast, back, Membership(cast.rotator, alone, key));
            var v := Next(cast, minting, Commit);
            Holding(v, a, 0, k) && Holding(v, cast.rotator, 0, key)
  {
    var alone := [Participant(cast.rotator, None)];
    ElectedIsMinimum(alone, cast.rotator);
    BelowIsStrictTotal(cast.rotator, cast.rotator);
    assert First(alone[0], alone);
    assert Others(alone, cast.rotator) == [] by { assert Others(alone[..0], cast.rotator) == []; }
  }

  // ---------------------------------------------------------------------
  // One event changes one client.

  /** Whose state an event changes, and to what. */
  function Actor(cast: Cast, e: Event): Id {
    if e.SealNext? || e.Commit? then cast.rotator else e.at
  }

  ghost function NewClient(cast: Cast, w: World, e: Event): Client
    requires cast.rotator in w.clients && May(cast, w, e)
  {
    var c := w.clients[Actor(cast, e)];
    match e
    case Membership(at, view, _) =>
      if !News(c, view) then c
      else if Elected(view) != Some(at) then Noted(c, view)
      else Begun(Noted(c, view), Others(view, c.me))
    case SealNext(fetch) => SealedFor(c, w.job.value.left[0], w.job.value.key, w.job.value.gen, fetch).0
    case Commit => Committed(c, w.job.value.key, w.job.value.gen, w.job.value.all)
    case RoomKeyArrives(_, from, gen, blob, init, onFile) => GotRoomKey(c, from, gen, blob, init, onFile).client
    case ResetArrives(_, from, now, fetch) => GotReset(c, from, now, fetch).client
    case ProofArrives(_, from, gen, proof, _) =>
      var (d, a) := GotProof(c, from, gen, proof);
      if RotatesOn(d, a) then Begun(d, Others(d.participants.value, d.me)) else d
    case ResetTimesOut(_, peer) => c.(pending := c.pending - {peer})
    case Reconnects(at) => Joined(at, c.identity)
  }

  lemma HappensToActor(cast: Cast, w: World, e: Event)
    requires Good(cast, w) && May(cast, w, e)
    ensures Actor(cast, e) in w.clients && NewClient(cast, w, e).me == Actor(cast, e)
    ensures Happens(cast, w, e).clients == w.clients[Actor(cast, e) := NewClient(cast, w, e)]
    ensures w.minted <= Happens(cast, w, e).minted
  {
    MeIsMe(cast, w, Actor(cast, e));
    hide Good, SealedFor, GotRoomKey, GotReset, Decided, Committed, News, Elected;
    hide FetchHonest, FileHonest, ProofShowable;
    var c := w.clients[Actor(cast, e)];
    match e
    case RoomKeyArrives(_, from, gen, blob, init, onFile) => RoomKeySendsItsProof(c, from, gen, blob, init, onFile);
    case ResetArrives(_, from, now, fetch) => ResetKeepsKey(c, from, now, fetch);
    case SealNext(fetch) => SealingKeepsOne(c, w.job.value.left[0], w.job.value.key, w.job.value.gen, fetch);
    case _ =>
  }

  // ---------------------------------------------------------------------
  // A rotation taken step by step is the rotation the client runs in one call.

  predicate FetchesHonest(cast: Cast, peers: seq<Id>, fetches: map<Id, Fetch>) {
    forall p :: p in peers ==> FetchHonest(cast, p, FetchOf(fetches, p))
  }

  function FetchOf(fetches: map<Id, Fetch>, p: Id): Option<Fetch> {
    if p in fetches then Some(fetches[p]) else None
  }

  /** The first `n` deliveries of the rotation under way. */
  ghost function SealSteps(cast: Cast, w: World, peers: seq<Id>, n: nat, fetches: map<Id, Fetch>): World
    requires n <= |peers|
  {
    if n == 0 then w
    else Next(cast, SealSteps(cast, w, peers, n - 1, fetches), SealNext(FetchOf(fetches, peers[n - 1])))
  }

  lemma PutTwice(w: World, c: Client, out: seq<Message>, c': Client, out': seq<Message>)
    requires c.me == c'.me
    ensures Put(Put(w, c, out), c', out') == Put(w, c', out + out')
  {
    assert (set m | m in out + out' :: Packet(c.me, m)) ==
             (set m | m in out :: Packet(c.me, m)) + set m | m in out' :: Packet(c.me, m);
  }

  lemma OneSeal(cast: Cast, w: World, d: Delivery, job: Job, fetch: Option<Fetch>)
    requires d.client.me == cast.rotator && job.left != [] && FetchHonest(cast, job.left[0], fetch)
    ensures var (c1, m) := SealedFor(d.client, job.left[0], job.key, job.gen, fetch);
            && c1.me == d.client.me
            && Next(cast, Put(w, d.client, d.out).(job := Some(job)), SealNext(fetch))
               == Put(w, c1, if m.Some? then d.out + [m.value] else d.out).(job := Some(job.(left := job.left[1..])))
  {
    SealingKeepsOne(d.client, job.left[0], job.key, job.gen, fetch);
    hide SealedFor, FetchHonest;
    var (c1, m) := SealedFor(d.client, job.left[0], job.key, job.gen, fetch);
    PutTwice(w, d.client, d.out, c1, if m.Some? then [m.value] else []);
    assert d.out + [] == d.out;
    PutJob(w, d.client, d.out, job);
    assert May(cast, Put(w, d.client, d.out).(job := Some(job)), SealNext(fetch));
  }

  lemma PutJob(w: World, c: Client, out: seq<Message>, job: Job)
    ensures Put(w.(job := Some(job)), c, out) == Put(w, c, out).(job := Some(job))
  {}

  lemma {:induction false} SealStepsAreDelivery(
    cast: Cast, w: World, c: Client, key: RoomKey, gen: int,
    peers: seq<Id>, all: seq<Id>, n: nat, fetches: map<Id, Fetch>)
    requires n <= |peers| && FetchesHonest(cast, peers, fetches)
    requires cast.rotator in w.clients && w.clients[cast.rotator] == c && c.me == cast.rotator
    requires w.job == Some(Job(key, gen, peers, all))
    ensures var d := SealedForEach(c, peers[..n], key, gen, fetches);
            && d.client.me == c.me
            && SealSteps(cast, w, peers, n, fetches)
               == Put(w, d.client, d.out).(job := Some(Job(key, gen, peers[n..], all)))
  {
    if n == 0 {
      assert Put(w, c, []) == w;
    } else {
      SealStepsAreDelivery(cast, w, c, key, gen, peers, all, n - 1, fetches);
      assert peers[..n][..n - 1] == peers[..n - 1];
      assert peers[n - 1..][0] == peers[n - 1] && peers[n - 1..][1..] == peers[n..];
      var d := SealedForEach(c, peers[..n - 1], key, gen, fetches);
      assert FetchHonest(cast, peers[n - 1], FetchOf(fetches, peers[n - 1]));
      hide SealedFor, FetchHonest, FetchesHonest, Next, Put, FetchOf;
      OneSeal(cast, w, d, Job(key, gen, peers[n - 1..], all), FetchOf(fetches, peers[n - 1]));
    }
  }

  lemma StepwiseRotationIsRotate(cast: Cast, w: World, view: seq<Participant>, key: RoomKey, fetches: map<Id, Fetch>)
    requires cast.rotator in w.clients && w.clients[cast.rotator].me == cast.rotator && w.job == None
    requires Elected(view) == Some(cast.rotator) && News(w.clients[cast.rotator], view)
    requires FetchesHonest(cast, Others(view, cast.rotator), fetches)
    ensures var others := Others(view, cast.rotator);
            var d := Rotated(Noted(w.clients[cast.rotator], view), view, key, fetches);
            var began := Next(cast, w, Membership(cast.rotator, view, key));
            var v := Next(cast, SealSteps(cast, began, others, |others|, fetches), Commit);
            v == Put(w, d.client, d.out).(minted := w.minted + [key])
  {
    hide Others, Elected, News, SealedForEach, SealSteps, Started, FetchesHonest;
    var c := Noted(w.clients[cast.rotator], view);
    var others := Others(view, cast.rotator);
    var gen := c.generation + 1;
    var c0 := Begun(c, others);
    var began := Next(cast, w, Membership(cast.rotator, view, key));
    var job := Job(key, gen, others, others);
    assert began == Put(w, c0, []).(minted := w.minted + [key], job := Some(job));
    SealStepsAreDelivery(cast, began, c0, key, gen, others, others, |others|, fetches);
    SealingKeeps(c0, others, key, gen, fetches);
    assert others[..|others|] == others && others[|others|..] == [];
    var d := SealedForEach(c0, others, key, gen, fetches);
    Finishing(cast, w, c0, d, key, gen, others, began);
  }

  lemma Finishing(cast: Cast, w: World, c0: Client, d: Delivery, key: RoomKey, gen: int, all: seq<Id>, began: World)
    requires d.client.me == cast.rotator == c0.me && w.job == None && began.minted == w.minted + [key]
    requires began == Put(w, c0, []).(minted := began.minted, job := began.job)
    ensures Next(cast, Put(began, d.client, d.out).(job := Some(Job(key, gen, [], all))), Commit)
         == Put(w, Committed(d.client, key, gen, all), d.out + [MyProof(d.client, key, gen)])
            .(minted := w.minted + [key])
  {
    var v := Put(began, d.client, d.out).(job := Some(Job(key, gen, [], all)));
    var c1, out := Committed(d.client, key, gen, all), [MyProof(d.client, key, gen)];
    assert May(cast, v, Commit);
    PutTwice(w, c0, [], d.client, d.out);
    assert [] + d.out == d.out;
    PutTwice(w, d.client, d.out, c1, out);
  }
}
