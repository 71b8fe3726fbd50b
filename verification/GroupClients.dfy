/** One participant's end of a group call: room keys travel over pairwise sessions,
    everybody checks that everybody holds the same one. */
module GroupClients {
  import opened SymbolicCrypto
  import opened X3dh
  import opened TransportChains
  import opened Rotation
  import Keyring

  const SESSION_RESET_COOLDOWN := 3000
  const FINGERPRINT_DISAGREES := "!!"

  /** 32 random bytes, by name. */
  type RoomKey = nat

  datatype Session = Session(chain: Chain, binding: Binding)

  /** A room key sealed under a transport key; the binding and the generation are the
      associated data. */
  datatype Blob = Blob(key: Term, binding: Binding, generation: int, roomKey: RoomKey)

  /** The MAC of generation and sender under a room key. */
  datatype Proof = Proof(key: RoomKey, generation: int, sender: Id)

  datatype Message =
    | RoomKeyMessage(to: Id, generation: int, blob: Blob, init: Option<InitialMessage>)
    | SessionReset(to: Id)
    | FingerprintMessage(generation: int, proof: Option<Proof>)

  datatype Client = Client(me: Id, identity: Identity, sessions: map<Id, Session>, generation: int,
                           roomKey: Option<RoomKey>,
                           convergence: Option<Convergence>, participants: Option<seq<Participant>>,
                           pending: set<Id>, honored: map<Id, int>, ring: Keyring.Slots)

  /** What the server answers when a bundle is fetched, with the ephemeral key to use. */
  datatype Fetch = Fetch(bundle: Bundle, eph: KeyName)

  /** The identity the server has on file for a device. */
  datatype OnFile = OnFile(identityKey: KeyName, identityDh: SignedKey)

  datatype Handled = Handled(client: Client, out: seq<Message>, rejoin: bool)

  function Joined(me: Id, identity: Identity): Client {
    Client(me, identity, map[], -1, None, None, None, {}, map[], map[])
  }

  function HexDigit(n: nat): char
    requires n < 16
  {
    "0123456789abcdef"[n]
  }

  /** Four hex digits: different keys may well share them. */
  function Digest4(key: RoomKey): (s: string)
    ensures s != FINGERPRINT_DISAGREES
  {
    var s := [HexDigit(key / 4096 % 16), HexDigit(key / 256 % 16), HexDigit(key / 16 % 16), HexDigit(key % 16)];
    assert |s| == 4;
    s
  }

  function IdsOf(ps: seq<Participant>): seq<Id> {
    seq(|ps|, i requires 0 <= i < |ps| => ps[i].identity)
  }

  function Others(ps: seq<Participant>, me: Id): seq<Id> {
    if ps == [] then []
    else
      var rest := Others(ps[..|ps| - 1], me);
      if ps[|ps| - 1].identity == me then rest else rest + [ps[|ps| - 1].identity]
  }

  // ---------------------------------------------------------------------
  // Sessions.

  function SessionFrom(a: Agreement): Session {
    Session(SeedOf(a.secret, a.bootstrap), a.binding)
  }

  /** The session with a peer, started if there is none; None when the bundle cannot
      be had or does not verify. */
  function Ensured(c: Client, peer: Id, fetch: Option<Fetch>): (r: Option<(Client, Option<InitialMessage>)>)
    ensures r.Some? ==> peer in r.value.0.sessions
  {
    if peer in c.sessions then Some((c, None))
    else if fetch == None then None
    else
      match Initiate(c.identity, fetch.value.bundle, fetch.value.eph)
      case Err(_) => None
      case Ok((a, init)) => Some((c.(sessions := c.sessions[peer := SessionFrom(a)]), Some(init)))
  }

  /** Room key and generation sealed for one peer; no message means it threw. */
  function SealedFor(c: Client, peer: Id, key: RoomKey, gen: int, fetch: Option<Fetch>): (Client, Option<Message>) {
    match Ensured(c, peer, fetch)
    case None => (c, None)
    case Some((c1, init)) =>
      var s := c1.sessions[peer];
      match KeyFor(s.chain, gen)
      case Err(_) => (c1, None)
      case Ok(k) =>
        (c1.(sessions := c1.sessions[peer := s.(chain := Walked(s.chain, gen))]),
         Some(RoomKeyMessage(peer, gen, Blob(k, s.binding, gen, key), init)))
  }

  // ---------------------------------------------------------------------
  // Rotating.

  function Begun(c: Client, others: seq<Id>): Client {
    c.(convergence := Some(Started(c.generation + 1, |others|)))
  }

  datatype Delivery = Delivery(client: Client, out: seq<Message>, failed: seq<Id>)

  /** Delivery to each peer in turn; a peer that cannot be reached is passed over. */
  function SealedForEach(c: Client, peers: seq<Id>, key: RoomKey, gen: int, fetches: map<Id, Fetch>): Delivery {
    if peers == [] then Delivery(c, [], [])
    else
      var before := SealedForEach(c, peers[..|peers| - 1], key, gen, fetches);
      var peer := peers[|peers| - 1];
      var (c1, m) := SealedFor(before.client, peer, key, gen, if peer in fetches then Some(fetches[peer]) else None);
      if m.Some? then Delivery(c1, before.out + [m.value], before.failed)
      else Delivery(c1, before.out, before.failed + [peer])
  }

  /** The key provider's slots once a room key is applied for us and these peers. */
  function RingWith(c: Client, key: RoomKey, gen: int, peers: seq<Id>): Keyring.Slots {
    Keyring.Applied(c.ring, Keyring.Call(key, gen, [c.me] + peers))
  }

  function Committed(c: Client, key: RoomKey, gen: int, others: seq<Id>): Client {
    c.(ring := RingWith(c, key, gen, others), generation := gen, roomKey := Some(key),
       convergence := if c.convergence.Some? then Some(c.convergence.value.(own := Some(Digest4(key)))) else None)
  }

  function MyProof(c: Client, key: RoomKey, gen: int): Message {
    FingerprintMessage(gen, Some(Proof(key, gen, c.me)))
  }

  function Rotated(c: Client, ps: seq<Participant>, key: RoomKey, fetches: map<Id, Fetch>): Delivery {
    var others := Others(ps, c.me);
    var gen := c.generation + 1;
    var d := SealedForEach(Begun(c, others), others, key, gen, fetches);
    Delivery(Committed(d.client, key, gen, others), d.out + [MyProof(c, key, gen)], d.failed)
  }

  /** Membership really changed: the identities are not the ones seen last. */
  predicate News(c: Client, ps: seq<Participant>) {
    c.participants == None || multiset(IdsOf(c.participants.value)) != multiset(IdsOf(ps))
  }

  function Noted(c: Client, ps: seq<Participant>): Client {
    c.(participants := Some(ps),
       convergence := if c.convergence.Some? then Some(c.convergence.value.(expected := |Others(ps, c.me)|)) else None)
  }

  // ---------------------------------------------------------------------
  // Receiving.

  predicate ClaimVerifies(onFile: Option<OnFile>, init: InitialMessage) {
    && onFile.Some? && onFile.value.identityKey == init.identityKey
    && init.identityDh == Some(onFile.value.identityDh.key)
    && Verifies(onFile.value.identityKey, onFile.value.identityDh)
  }

  /** An initial message taken in; None means it was refused with an error. */
  function Greeted(c: Client, from: Id, init: InitialMessage, onFile: Option<OnFile>): Option<Client> {
    if from in c.sessions then Some(c)
    else if !ClaimVerifies(onFile, init) then None
    else
      match Respond(c.identity, init)
      case Err(_) => None
      case Ok(a) => Some(c.(identity := AfterRespond(c.identity, init), sessions := c.sessions[from := SessionFrom(a)]))
  }

  predicate Opens(b: Blob, key: Term, binding: Binding, gen: int) {
    b.key == key && b.binding == binding && b.generation == gen
  }

  function Accepted(c: Client, from: Id, gen: int, key: RoomKey): Client {
    var expected := if c.participants.Some? then |Others(c.participants.value, c.me)| else 1;
    var conv := if c.convergence.Some? && c.convergence.value.generation == gen
                then c.convergence.value
                else Started(gen, expected);
    var peers := if c.participants.Some? then Others(c.participants.value, c.me) else [from];
    c.(pending := c.pending - {from}, generation := gen, roomKey := Some(key), ring := RingWith(c, key, gen, peers),
       convergence := Some(conv.(own := Some(Digest4(key)))))
  }

  function AskedReset(c: Client, peer: Id): Handled {
    if peer in c.pending then Handled(c, [], false)
    else Handled(c.(pending := c.pending + {peer}), [SessionReset(peer)], false)
  }

  function GotRoomKey(c: Client, from: Id, gen: int, blob: Blob, init: Option<InitialMessage>,
                      onFile: Option<OnFile>): Handled {
    match if init.Some? then Greeted(c, from, init.value, onFile) else Some(c)
    case None => Handled(c, [], false)
    case Some(c1) =>
      if from !in c1.sessions then AskedReset(c1, from)
      else
        var s := c1.sessions[from];
        match KeyFor(s.chain, gen)
        case Err(_) => Handled(c1, [], true)
        case Ok(k) =>
          var c2 := c1.(sessions := c1.sessions[from := s.(chain := Walked(s.chain, gen))]);
          if !Opens(blob, k, s.binding, gen) then Handled(c2, [], true)
          else Handled(Accepted(c2, from, gen, blob.roomKey), [MyProof(c, blob.roomKey, gen)], false)
  }

  predicate Cooling(c: Client, from: Id, now: int) {
    from in c.honored && now - c.honored[from] < SESSION_RESET_COOLDOWN
  }

  function GotReset(c: Client, from: Id, now: int, fetch: Option<Fetch>): Handled {
    if Cooling(c, from, now) then Handled(c, [], false)
    else
      var c1 := c.(honored := c.honored[from := now], sessions := c.sessions - {from});
      if c1.roomKey == None then Handled(c1, [], false)
      else
        var (c2, m) := SealedFor(c1, from, c1.roomKey.value, c1.generation, fetch);
        Handled(c2, if m.Some? then [m.value] else [], false)
  }

  predicate Agrees(c: Client, from: Id, gen: int, proof: Option<Proof>) {
    c.roomKey.Some? && proof == Some(Proof(c.roomKey.value, gen, from))
  }

  /** A proof recorded; the verdict is None when it is for another generation. */
  function GotProof(c: Client, from: Id, gen: int, proof: Option<Proof>): (Client, Option<Action>) {
    if c.convergence == None || c.convergence.value.generation != gen then (c, None)
    else
      var conv := c.convergence.value;
      var mark := if Agrees(c, from, gen, proof) then conv.own else Some(FINGERPRINT_DISAGREES);
      var (decided, a) := Decided(conv.(peers := conv.peers[from := mark]));
      (c.(convergence := Some(decided)), Some(a))
  }

  predicate RotatesOn(c: Client, a: Option<Action>) {
    a == Some(RetryRotation) && c.participants.Some? && Elected(c.participants.value) == Some(c.me)
  }

  // ---------------------------------------------------------------------
  // The object that holds it all.

  class GroupE2EE {
    const me: Id
    const keyProvider: Keyring.GroupKeyProvider
    var identity: Identity
    var sessions: map<Id, Session>
    var generation: int
    var currentRoomKey: Option<RoomKey>
    var convergence: Option<Convergence>
    var lastParticipants: Option<seq<Participant>>
    var pendingSessionResets: set<Id>
    var lastHonoredSessionReset: map<Id, int>

    function State(): Client
      reads this, keyProvider
    {
      Client(me, identity, sessions, generation, currentRoomKey, convergence, lastParticipants,
             pendingSessionResets, lastHonoredSessionReset, keyProvider.slots)
    }

    constructor (me: Id, identity: Identity, keyProvider: Keyring.GroupKeyProvider)
      ensures State() == Joined(me, identity).(ring := keyProvider.slots) && this.keyProvider == keyProvider
    {
      this.me, this.identity, this.keyProvider := me, identity, keyProvider;
      sessions, generation, currentRoomKey, convergence := map[], -1, None, None;
      lastParticipants, pendingSessionResets, lastHonoredSessionReset := None, {}, map[];
    }

    method EnsureSession(peer: Id, fetch: Option<Fetch>) returns (ok: bool, init: Option<InitialMessage>)
      modifies this
      ensures match Ensured(old(State()), peer, fetch)
              case None => !ok && State() == old(State())
              case Some((c, i)) => ok && State() == c && init == i && peer in sessions
    {
      if peer in sessions { return true, None; }
      if fetch == None { return false, None; }
      var r := Initiate(identity, fetch.value.bundle, fetch.value.eph);
      if r.Err? { return false, None; }
      sessions := sessions[peer := SessionFrom(r.value.0)];
      return true, Some(r.value.1);
    }

    method SealAndSendRoomKey(peer: Id, key: RoomKey, gen: int, fetch: Option<Fetch>) returns (m: Option<Message>)
      modifies this
      ensures (State(), m) == SealedFor(old(State()), peer, key, gen, fetch)
    {
      var ok, init := EnsureSession(peer, fetch);
      if !ok { return None; }
      var s := sessions[peer];
      var k := KeyFor(s.chain, gen);
      if k.Err? { return None; }
      sessions := sessions[peer := s.(chain := Walked(s.chain, gen))];
      return Some(RoomKeyMessage(peer, gen, Blob(k.value, s.binding, gen, key), init));
    }

    method Rotate(ps: seq<Participant>, key: RoomKey, fetches: map<Id, Fetch>) returns (out: seq<Message>,
                  failures: seq<Id>)
      modifies this, keyProvider
      ensures Delivery(State(), out, failures) == Rotated(old(State()), ps, key, fetches)
    {
      hide SealedFor, Others, Digest4;
      var gen := generation + 1;
      var others := Others(ps, me);
      convergence := Some(Started(gen, |others|));
      ghost var begun := State();
      out, failures := [], [];
      for i := 0 to |others|
        invariant Delivery(State(), out, failures) == SealedForEach(begun, others[..i], key, gen, fetches)
      {
        assert others[..i + 1][..i] == others[..i];
        var peer := others[i];
        var m := SealAndSendRoomKey(peer, key, gen, if peer in fetches then Some(fetches[peer]) else None);
        if m.Some? { out := out + [m.value]; } else { failures := failures + [peer]; }
      }
      assert others[..|others|] == others;
      SealingKeeps(begun, others, key, gen, fetches);
      keyProvider.ApplyRoomKey(key, gen, [me] + others);
      generation, currentRoomKey := gen, Some(key);
      convergence := Some(convergence.value.(own := Some(Digest4(key))));
      out := out + [FingerprintMessage(gen, Some(Proof(key, gen, me)))];
    }

    method OnMembershipChanged(ps: seq<Participant>, key: RoomKey, fetches: map<Id,
                               Fetch>) returns (out: seq<Message>, unreached: seq<Id>)
      requires ps != []
      modifies this, keyProvider
      ensures var c := old(State());
              if !News(c, ps) then State() == c && out == [] && unreached == []
              else if Elected(ps) != Some(me) then State() == Noted(c, ps) && out == [] && unreached == []
              else Delivery(State(), out, unreached) == Rotated(Noted(c, ps), ps, key, fetches)
    {
      if lastParticipants.Some? && multiset(IdsOf(lastParticipants.value)) == multiset(IdsOf(ps)) { return [], []; }
      lastParticipants := Some(ps);
      if convergence.Some? {
        convergence := Some(convergence.value.(expected := |Others(ps, me)|));
      }
      if Elected(ps) != Some(me) { return [], []; }
      out, unreached := Rotate(ps, key, fetches);
    }

    method RequestSessionReset(peer: Id) returns (out: seq<Message>)
      modifies this
      ensures Handled(State(), out, false) == AskedReset(old(State()), peer)
    {
      if peer in pendingSessionResets { return []; }
      pendingSessionResets := pendingSessionResets + {peer};
      return [SessionReset(peer)];
    }

    method HandleRoomKey(from: Id, gen: int, blob: Blob, init: Option<InitialMessage>, onFile: Option<OnFile>)
      returns (out: seq<Message>, rejoin: bool)
      modifies this, keyProvider
      ensures Handled(State(), out, rejoin) == GotRoomKey(old(State()), from, gen, blob, init, onFile)
    {
      hide Respond, AfterRespond, ClaimVerifies, KeyFor, Walked, Opens, Accepted;
      if init.Some? && from !in sessions {
        if !ClaimVerifies(onFile, init.value) { return [], false; }
        var r := Respond(identity, init.value);
        if r.Err? { return [], false; }
        identity := AfterRespond(identity, init.value);
        sessions := sessions[from := SessionFrom(r.value)];
      }
      if from !in sessions {
        out := RequestSessionReset(from);
        return out, false;
      }
      var s := sessions[from];
      var k := KeyFor(s.chain, gen);
      if k.Err? { return [], true; }
      sessions := sessions[from := s.(chain := Walked(s.chain, gen))];
      if !Opens(blob, k.value, s.binding, gen) { return [], true; }
      AcceptRoomKey(from, gen, blob.roomKey);
      return [FingerprintMessage(gen, Some(Proof(blob.roomKey, gen, me)))], false;
    }

    /** The rest of it, once the room key is open. */
    method AcceptRoomKey(from: Id, gen: int, key: RoomKey)
      modifies this, keyProvider
      ensures State() == Accepted(old(State()), from, gen, key)
    {
      hide Others, Digest4;
      pendingSessionResets := pendingSessionResets - {from};
      generation, currentRoomKey := gen, Some(key);
      var peers := if lastParticipants.Some? then Others(lastParticipants.value, me) else [from];
      keyProvider.ApplyRoomKey(key, gen, [me] + peers);
      if convergence == None || convergence.value.generation != gen {
        convergence := Some(Started(gen, if lastParticipants.Some? then |Others(lastParticipants.value, me)| else 1));
      }
      convergence := Some(convergence.value.(own := Some(Digest4(key))));
    }

    method HandleSessionReset(from: Id, now: int, fetch: Option<Fetch>) returns (out: seq<Message>)
      modifies this
      ensures Handled(State(), out, false) == GotReset(old(State()), from, now, fetch)
    {
      if from in lastHonoredSessionReset && now - lastHonoredSessionReset[from] < SESSION_RESET_COOLDOWN { return []; }
      lastHonoredSessionReset := lastHonoredSessionReset[from := now];
      sessions := sessions - {from};
      out := [];
      if currentRoomKey.Some? {
        var m := SealAndSendRoomKey(from, currentRoomKey.value, generation, fetch);
        if m.Some? { out := [m.value]; }
      }
    }

    method HandleFingerprint(from: Id, gen: int, proof: Option<Proof>, key: RoomKey, fetches: map<Id, Fetch>)
      returns (out: seq<Message>, rejoin: bool, unreached: seq<Id>)
      modifies this, keyProvider
      ensures var (c, a) := GotProof(old(State()), from, gen, proof);
              && rejoin == (a == Some(PromptRejoin))
              && if RotatesOn(c, a)
                 then Delivery(State(), out, unreached) == Rotated(c, c.participants.value, key, fetches)
                 else State() == c && out == [] && unreached == []
    {
      if convergence == None || convergence.value.generation != gen { return [], false, []; }
      var agrees := currentRoomKey.Some? && proof == Some(Proof(currentRoomKey.value, gen, from));
      var conv := convergence.value;
      var mark := if agrees then conv.own else Some(FINGERPRINT_DISAGREES);
      var (decided, action) := Decided(conv.(peers := conv.peers[from := mark]));
      convergence := Some(decided);
      if action == PromptRejoin { return [], true, []; }
      out, unreached := [], [];
      if action == RetryRotation && lastParticipants.Some? && Elected(lastParticipants.value) == Some(me) {
        out, unreached := Rotate(lastParticipants.value, key, fetches);
      }
      return out, false, unreached;
    }
  }

  /** Sealing touches nothing but sessions. */
  lemma SealingKeepsOne(c: Client, peer: Id, key: RoomKey, gen: int, fetch: Option<Fetch>)
    ensures SealedFor(c, peer, key, gen, fetch).0 == c.(sessions := SealedFor(c, peer, key, gen, fetch).0.sessions)
    ensures SealedFor(c, peer, key, gen, fetch).1.Some? ==> var m := SealedFor(c, peer, key, gen, fetch).1.value;
              && m.RoomKeyMessage? && m.to == peer && m.generation == gen
              && m.blob.roomKey == key && m.blob.generation == gen
  {}

  lemma {:induction false} SealingKeeps(c: Client, peers: seq<Id>, key: RoomKey, gen: int, fetches: map<Id, Fetch>)
    ensures var d := SealedForEach(c, peers, key, gen, fetches);
            d.client == c.(sessions := d.client.sessions)
  {
    if peers != [] {
      SealingKeeps(c, peers[..|peers| - 1], key, gen, fetches);
      var peer := peers[|peers| - 1];
      SealingKeepsOne(SealedForEach(c, peers[..|peers| - 1], key, gen, fetches).client, peer, key, gen,
                      if peer in fetches then Some(fetches[peer]) else None);
    }
  }
}
