/** One device's sessions: a ratchet per peer device, built on first use, with the
    X3DH initial message riding along until the peer has been heard from. */
module SessionManagers {
  import opened SymbolicCrypto
  import opened X3dh
  import opened DoubleRatchet

  type PeerId = nat

  datatype Cached = Cached(ratchet: State, pendingInit: Option<InitialMessage>)

  datatype Wire = Wire(env: Envelope, x3dhInit: Option<InitialMessage>)

  /** What the server holds for the claimed sender. */
  datatype OnFile = OnFile(identityKey: KeyName, identityDh: SignedKey)

  datatype SessionError =
    | FetchFailed | Handshake(x: X3dhError) | NoSession | IdentityMismatch | Ratchet(r: Refusal)

  datatype Manager = Manager(identity: Identity, sessions: map<PeerId, Cached>, stored: map<PeerId, Cached>)

  predicate SoundManager(m: Manager) {
    && Issued(m.identity)
    && (forall k :: k in m.sessions ==> Chained(m.sessions[k].ratchet) && Bounded(m.sessions[k].ratchet))
    && (forall k :: k in m.stored ==> Chained(m.stored[k].ratchet) && Bounded(m.stored[k].ratchet))
  }

  /** The cached session, or the persisted one brought back. */
  function Restored(m: Manager, k: PeerId): Manager {
    if k !in m.sessions && k in m.stored then m.(sessions := m.sessions[k := m.stored[k]]) else m
  }

  function Persisted(m: Manager, k: PeerId): Manager
    requires k in m.sessions
  {
    m.(stored := m.stored[k := m.sessions[k]])
  }

  function Outbound(m: Manager, k: PeerId, bundle: Option<Bundle>, eph: KeyName, minted: KeyName): Result<Manager,
                    SessionError> {
    var n := Restored(m, k);
    if k in n.sessions then Ok(n)
    else if bundle.None? then Err(FetchFailed)
    else
      match Initiate(n.identity, bundle.value, eph)
      case Err(e) => Err(Handshake(e))
      case Ok(r) =>
        var ratchet := Initiator(r.0.secret, bundle.value.signedPrekey.key, minted, r.0.binding);
        Ok(Persisted(n.(sessions := n.sessions[k := Cached(ratchet, Some(r.1))]), k))
  }

  function Encrypted(m: Manager, k: PeerId, plain: nat, iv: nat): Result<(Manager, Wire), SessionError>
    requires k in m.sessions
  {
    var c := m.sessions[k];
    if c.ratchet.cks.None? then Err(Ratchet(NoSendingChain))
    else
      Ok((Persisted(m.(sessions := m.sessions[k := c.(ratchet := AfterEncrypt(c.ratchet))]), k),
          Wire(Outgoing(c.ratchet, iv, plain), c.pendingInit)))
  }

  predicate ClaimHolds(file: OnFile, init: InitialMessage) {
    && file.identityKey == init.identityKey
    && Some(file.identityDh.key) == init.identityDh
    && Verifies(file.identityKey, file.identityDh)
  }

  /** The session an inbound message is read in, set up from its X3DH init if
      there is none. */
  function Inbound(m: Manager, k: PeerId, wire: Wire, file: Option<OnFile>): Result<Manager, SessionError> {
    var n := Restored(m, k);
    if k in n.sessions then Ok(n)
    else if wire.x3dhInit.None? then Err(NoSession)
    else if file.None? then Err(FetchFailed)
    else if !ClaimHolds(file.value, wire.x3dhInit.value) then Err(IdentityMismatch)
    else
      match Respond(n.identity, wire.x3dhInit.value)
      case Err(e) => Err(Handshake(e))
      case Ok(a) =>
        Ok(n.(identity := AfterRespond(n.identity, wire.x3dhInit.value),
              sessions := n.sessions[k := Cached(Responder(a.secret, n.identity.signedPrekey, a.binding), None)]))
  }

  datatype Reading = Reading(manager: Manager, outcome: Result<nat, SessionError>)

  function Decrypted(m: Manager, k: PeerId, wire: Wire, file: Option<OnFile>, minted: KeyName): Reading
    requires SoundManager(m)
  {
    match Inbound(m, k, wire, file)
    case Err(e) => Reading(m, Err(e))
    case Ok(n) =>
      InboundSound(m, k, wire, file);
      var c := n.sessions[k];
      var d := Delivered(c.ratchet, wire.env, minted);
      if d.outcome.Err? then Reading(n, Err(Ratchet(d.outcome.error)))
      else Reading(Persisted(n.(sessions := n.sessions[k := Cached(d.state, None)]), k), Ok(d.outcome.value))
  }

  lemma InboundSound(m: Manager, k: PeerId, wire: Wire, file: Option<OnFile>)
    requires SoundManager(m)
    ensures Inbound(m, k, wire, file).Ok? ==>
              SoundManager(Inbound(m, k, wire, file).value) && k in Inbound(m, k, wire, file).value.sessions
  {}

  lemma DecryptedSound(m: Manager, k: PeerId, wire: Wire, file: Option<OnFile>, minted: KeyName)
    requires SoundManager(m)
    ensures SoundManager(Decrypted(m, k, wire, file, minted).manager)
  {
    InboundSound(m, k, wire, file);
    if Inbound(m, k, wire, file).Ok? {
      DeliveredBounded(Inbound(m, k, wire, file).value.sessions[k].ratchet, wire.env, minted);
    }
  }

  // ---------------------------------------------------------------------
  // When sessions come to be.

  predicate Known(m: Manager, k: PeerId) {
    k in m.sessions || k in m.stored
  }

  /** A session to send on is there, or is started, exactly when it was cached or stored,
      or the bundle fetched is one its owner signed; and none is left otherwise. */
  lemma OutboundExactlyWhen(m: Manager, k: PeerId, bundle: Option<Bundle>, eph: KeyName, minted: KeyName)
    ensures var o := Outbound(m, k, bundle, eph, minted);
            && (o.Ok? <==> Known(m, k) || (bundle.Some? && Signed(bundle.value)))
            && (o.Ok? ==> k in o.value.sessions)
            && (!Known(m, k) && bundle.Some? && !Signed(bundle.value) ==>
                  o == Err(SessionError.Handshake(BadSignature)))
            && (!Known(m, k) && bundle.None? ==> o == Err(FetchFailed))
  {
    if bundle.Some? { StartedExactlyWhenSigned(m.identity, bundle.value, eph); }
  }

  /** No session is set up for a claimed sender unless the identity key, the DH key and
      the signature over it are those on file, and the handshake is answered. */
  lemma InboundExactlyWhen(m: Manager, k: PeerId, wire: Wire, file: Option<OnFile>)
    ensures Inbound(m, k, wire, file).Ok? <==>
              || Known(m, k)
              || (&& wire.x3dhInit.Some? && file.Some?
                  && wire.x3dhInit.value.identityKey == file.value.identityKey
                  && wire.x3dhInit.value.identityDh == Some(file.value.identityDh.key)
                  && file.value.identityDh.sig == Signature(file.value.identityKey, file.value.identityDh.key)
                  && Respond(m.identity, wire.x3dhInit.value).Ok?)
    ensures !Known(m, k) && wire.x3dhInit.None? ==> Inbound(m, k, wire, file) == Err(NoSession)
    ensures !Known(m, k) && wire.x3dhInit.Some? && file.None? ==> Inbound(m, k, wire, file) == Err(FetchFailed)
    ensures Inbound(m, k, wire, file) == Err(IdentityMismatch) ==>
              && !Known(m, k) && wire.x3dhInit.Some? && file.Some?
              && (|| wire.x3dhInit.value.identityKey != file.value.identityKey
                  || wire.x3dhInit.value.identityDh != Some(file.value.identityDh.key)
                  || file.value.identityDh.sig != Signature(file.value.identityKey, file.value.identityDh.key))
  {}

  /** Nothing one does with a peer touches the session with another. */
  lemma OthersUntouched(m: Manager, k: PeerId, other: PeerId, wire: Wire, file: Option<OnFile>, bundle: Option<Bundle>,
                        eph: KeyName, minted: KeyName, plain: nat, iv: nat)
    requires SoundManager(m) && other != k
    ensures SameFor(m, Decrypted(m, k, wire, file, minted).manager, other)
    ensures Outbound(m, k, bundle, eph, minted).Ok? ==> SameFor(m, Outbound(m, k, bundle, eph, minted).value, other)
    ensures k in m.sessions && Encrypted(m, k, plain, iv).Ok? ==> SameFor(m, Encrypted(m, k, plain, iv).value.0, other)
  {
    hide Delivered, Respond, Initiate;
  }

  predicate SameFor(m: Manager, n: Manager, k: PeerId) {
    && (k in n.sessions <==> k in m.sessions) && (k in m.sessions ==> n.sessions[k] == m.sessions[k])
    && (k in n.stored <==> k in m.stored) && (k in m.stored ==> n.stored[k] == m.stored[k])
  }

  // ---------------------------------------------------------------------
  // Reloading the page: what is persisted stays, the cache is gone.

  function Reloaded(m: Manager): Manager {
    m.(sessions := map[])
  }

  function SessionOf(m: Manager, k: PeerId): Option<Cached> {
    if k in m.sessions then Some(m.sessions[k]) else None
  }

  /** A reload shows in the session with one peer exactly when that session was cached
      and is not what was persisted last. */
  lemma ReloadInvisibleExactlyWhen(m: Manager, k: PeerId)
    ensures SessionOf(Restored(Reloaded(m), k), k) == SessionOf(Restored(m, k), k) <==>
              k !in m.sessions || (k in m.stored && m.stored[k] == m.sessions[k])
  {}

  // ---------------------------------------------------------------------

  class SessionManager {
    var identity: Identity
    var sessions: map<PeerId, Cached>
    var stored: map<PeerId, Cached>

    function Value(): Manager
      reads this
    {
      Manager(identity, sessions, stored)
    }

    constructor (identity: Identity, stored: map<PeerId, Cached>)
      ensures Value() == Manager(identity, map[], stored)
    {
      this.identity, this.stored := identity, stored;
      sessions := map[];
    }

    method Restore(k: PeerId) returns (found: bool)
      modifies this`sessions
      ensures found <==> k in old(sessions) || k in stored
      ensures Value() == Restored(old(Value()), k)
    {
      if k in sessions {
        return true;
      }
      if k !in stored {
        return false;
      }
      sessions := sessions[k := stored[k]];
      found := true;
    }

    method EnsureOutbound(k: PeerId, bundle: Option<Bundle>, eph: KeyName,
                          minted: KeyName) returns (e: Option<SessionError>)
      modifies this
      ensures e.None? ==> Outbound(old(Value()), k, bundle, eph, minted) == Ok(Value())
      ensures e.Some? ==> Outbound(old(Value()), k, bundle, eph, minted) == Err(e.value) && Value() == old(Value())
    {
      var found := Restore(k);
      if found {
        return None;
      }
      if bundle.None? {
        return Some(FetchFailed);
      }
      var r := Initiate(identity, bundle.value, eph);
      if r.Err? {
        return Some(Handshake(r.error));
      }
      var a := r.value.0;
      var ratchet := new MessageRatchet.InitSender(a.secret, bundle.value.signedPrekey.key, a.binding, minted);
      sessions := sessions[k := Cached(ratchet.Snapshot(), Some(r.value.1))];
      stored := stored[k := sessions[k]];
      e := None;
    }

    method Encrypt(k: PeerId, plain: nat, iv: nat, bundle: Option<Bundle>, eph: KeyName, minted: KeyName)
      returns (r: Result<Wire, SessionError>)
      modifies this
      ensures var o := Outbound(old(Value()), k, bundle, eph, minted);
              if o.Err? then r == Err(o.error) && Value() == old(Value())
              else
                && k in o.value.sessions
                && var x := Encrypted(o.value, k, plain, iv);
                   if x.Err? then r == Err(x.error) && Value() == o.value
                   else r == Ok(x.value.1) && Value() == x.value.0
    {
      var e := EnsureOutbound(k, bundle, eph, minted);
      if e.Some? {
        return Err(e.value);
      }
      var c := sessions[k];
      if c.ratchet.cks.None? {
        return Err(Ratchet(NoSendingChain));
      }
      sessions := sessions[k := c.(ratchet := AfterEncrypt(c.ratchet))];
      stored := stored[k := sessions[k]];
      r := Ok(Wire(Outgoing(c.ratchet, iv, plain), c.pendingInit));
    }

    /** What was read is persisted: after a success a reload finds this session. */
    method Decrypt(k: PeerId, wire: Wire, file: Option<OnFile>, minted: KeyName) returns (r: Result<nat, SessionError>)
      requires SoundManager(Value())
      modifies this
      ensures SoundManager(Value())
      ensures r == Decrypted(old(Value()), k, wire, file, minted).outcome
      ensures Value() == Decrypted(old(Value()), k, wire, file, minted).manager
      ensures r.Ok? ==> k in sessions && k in stored && stored[k] == sessions[k] && sessions[k].pendingInit.None?
    {
      DecryptedSound(Value(), k, wire, file, minted);
      InboundSound(Value(), k, wire, file);
      var found := Restore(k);
      if !found {
        if wire.x3dhInit.None? {
          return Err(NoSession);
        }
        if file.None? {
          return Err(FetchFailed);
        }
        if !ClaimHolds(file.value, wire.x3dhInit.value) {
          return Err(IdentityMismatch);
        }
        var a := Respond(identity, wire.x3dhInit.value);
        if a.Err? {
          return Err(Handshake(a.error));
        }
        var own := identity.signedPrekey;
        identity := AfterRespond(identity, wire.x3dhInit.value);
        sessions := sessions[k := Cached(Responder(a.value.secret, own, a.value.binding), None)];
      }
      var d := Delivered(sessions[k].ratchet, wire.env, minted);
      if d.outcome.Err? {
        return Err(Ratchet(d.outcome.error));
      }
      sessions := sessions[k := Cached(d.state, None)];
      stored := stored[k := sessions[k]];
      r := Ok(d.outcome.value);
    }
  }
}
