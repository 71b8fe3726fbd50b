/** X3DH key agreement (section 3 of "The X3DH Key Agreement Protocol") and the
    device identity it draws on. */
module X3dh {
  import opened SymbolicCrypto

  /** Ed25519: verifies exactly for the signer and the key that was signed. */
  datatype Signature = Signature(signer: KeyName, subject: KeyName)

  datatype SignedKey = SignedKey(key: KeyName, sig: Signature)

  predicate Verifies(signer: KeyName, k: SignedKey) {
    k.sig == Signature(signer, k.key)
  }

  datatype OneTime = OneTime(id: nat, key: KeyName)

  datatype Payload = Payload(identityKey: KeyName, identityDh: SignedKey, signedId: nat, signedPrekey: SignedKey,
                             oneTime: seq<OneTime>)

  datatype Bundle = Bundle(identityKey: KeyName, identityDh: SignedKey, signedId: nat, signedPrekey: SignedKey,
                           oneTime: Option<OneTime>)

  /** Keys travel as base64 text, which need not import as an X25519 key. */
  datatype InitialMessage = InitialMessage(identityKey: KeyName, identityDh: Option<KeyName>,
                                           ephemeral: Option<KeyName>,
                                           signedId: int, oneTimeId: Option<int>)

  datatype Agreement = Agreement(secret: Term, binding: Binding, bootstrap: Term)

  datatype X3dhError = BadSignature | SignedPrekeyRotated | NoSuchOneTimePrekey | BadKey

  datatype Identity = Identity(signing: KeyName, dh: KeyName, signedId: nat, signedPrekey: KeyName,
                               oneTime: map<int, KeyName>, nextId: nat)

  /** Every locally held one-time prekey has an id that was already issued. */
  predicate Issued(me: Identity) {
    forall id :: id in me.oneTime ==> 0 <= id < me.nextId
  }

  function Initiate(me: Identity, b: Bundle, eph: KeyName): Result<(Agreement, InitialMessage), X3dhError> {
    if !Verifies(b.identityKey, b.identityDh) || !Verifies(b.identityKey, b.signedPrekey) then Err(BadSignature)
    else
      var dh1 := Ecdh(me.dh, b.signedPrekey.key);
      var dh2 := Ecdh(eph, b.identityDh.key);
      var dh3 := Ecdh(eph, b.signedPrekey.key);
      var dh4 := if b.oneTime.Some? then Some(Ecdh(eph, b.oneTime.value.key)) else None;
      Ok((Agreement(X3dhSecret(dh1, dh2, dh3, dh4), Binding(me.signing, b.identityKey), dh3),
          InitialMessage(me.signing, Some(me.dh), Some(eph), b.signedId,
                         if b.oneTime.Some? then Some(b.oneTime.value.id) else None)))
  }

  function Respond(me: Identity, m: InitialMessage): Result<Agreement, X3dhError> {
    if m.signedId != me.signedId then Err(SignedPrekeyRotated)
    else if m.oneTimeId.Some? && m.oneTimeId.value !in me.oneTime then Err(NoSuchOneTimePrekey)
    else if m.identityDh.None? || m.ephemeral.None? then Err(BadKey)
    else
      var theirs, eph := m.identityDh.value, m.ephemeral.value;
      var dh1 := Ecdh(me.signedPrekey, theirs);
      var dh2 := Ecdh(me.dh, eph);
      var dh3 := Ecdh(me.signedPrekey, eph);
      var dh4 := if m.oneTimeId.Some? then Some(Ecdh(me.oneTime[m.oneTimeId.value], eph)) else None;
      Ok(Agreement(X3dhSecret(dh1, dh2, dh3, dh4), Binding(m.identityKey, me.signing), dh3))
  }

  /** A successful answer forgets the one-time prekey it used; a failed one
      forgets nothing. */
  function AfterRespond(me: Identity, m: InitialMessage): Identity {
    if Respond(me, m).Ok? && m.oneTimeId.Some? then me.(oneTime := me.oneTime - {m.oneTimeId.value}) else me
  }

  /** A bundle whose keys its own identity key signed. */
  predicate Signed(b: Bundle) {
    && b.identityDh.sig == Signature(b.identityKey, b.identityDh.key)
    && b.signedPrekey.sig == Signature(b.identityKey, b.signedPrekey.key)
  }

  /** A session is started exactly from a bundle both of whose keys its owner signed. */
  lemma StartedExactlyWhenSigned(me: Identity, b: Bundle, eph: KeyName)
    ensures Initiate(me, b, eph).Ok? <==> Signed(b)
    ensures !Signed(b) ==> Initiate(me, b, eph) == Err(BadSignature)
  {}

  /** One of the two private keys of an exchange is known. */
  predicate Either(privs: set<KeyName>, a: KeyName, b: KeyName) {
    a in privs || b in privs
  }

  lemma EcdhReachableExactlyWhen(privs: set<KeyName>, a: KeyName, b: KeyName)
    ensures Computable({}, privs, Ecdh(a, b)) <==> Either(privs, a, b)
  {}

  /** The shared secret is out of reach of whoever misses a single exchange: identity
      key with signed prekey, ephemeral key with identity key, ephemeral key with
      signed prekey, and, when there is one, ephemeral key with one-time prekey. */
  lemma SecretReachableExactlyWhen(me: Identity, b: Bundle, eph: KeyName, privs: set<KeyName>)
    requires Signed(b)
    ensures Computable({}, privs, Initiate(me, b, eph).value.0.secret) <==>
              && Either(privs, me.dh, b.signedPrekey.key)
              && Either(privs, eph, b.identityDh.key)
              && Either(privs, eph, b.signedPrekey.key)
              && (b.oneTime.Some? ==> Either(privs, eph, b.oneTime.value.key))
  {
    EcdhReachableExactlyWhen(privs, me.dh, b.signedPrekey.key);
    EcdhReachableExactlyWhen(privs, eph, b.identityDh.key);
    EcdhReachableExactlyWhen(privs, eph, b.signedPrekey.key);
    if b.oneTime.Some? { EcdhReachableExactlyWhen(privs, eph, b.oneTime.value.key); }
    hide Ecdh;
  }

  /** The associated data of both ends names who started and who answered, in that order,
      and what is handed on to seed the first chain is the exchange of ephemeral key and
      signed prekey. */
  lemma AgreementNamesBoth(me: Identity, b: Bundle, eph: KeyName, m: InitialMessage)
    ensures Initiate(me, b, eph).Ok? ==>
              var a := Initiate(me, b, eph).value.0;
              && a.binding == Binding(me.signing, b.identityKey)
              && a.bootstrap == Ecdh(eph, b.signedPrekey.key) == a.secret.dh3
    ensures Respond(me, m).Ok? ==>
              var a := Respond(me, m).value;
              && a.binding == Binding(m.identityKey, me.signing)
              && a.bootstrap == Ecdh(me.signedPrekey, m.ephemeral.value) == a.secret.dh3
  {}

  /** An initial message is answered exactly when it is for the current signed prekey,
      the one-time prekey it names, if any, is still held, and both its keys import. */
  lemma AnsweredExactlyWhen(me: Identity, m: InitialMessage)
    ensures Respond(me, m).Ok? <==>
              && m.signedId == me.signedId && m.identityDh.Some? && m.ephemeral.Some?
              && (m.oneTimeId.Some? ==> m.oneTimeId.value in me.oneTime)
    ensures m.signedId != me.signedId ==> Respond(me, m) == Err(SignedPrekeyRotated)
    ensures Respond(me, m) == Err(NoSuchOneTimePrekey) <==>
              m.signedId == me.signedId && m.oneTimeId.Some? && m.oneTimeId.value !in me.oneTime
  {}

  /** When a one-time prekey that a message names is forgotten: exactly when the
      message is for the current signed prekey and both its keys import. */
  lemma PrekeyForgottenExactlyWhen(me: Identity, m: InitialMessage)
    requires m.oneTimeId.Some? && m.oneTimeId.value in me.oneTime
    ensures m.oneTimeId.value !in AfterRespond(me, m).oneTime <==>
              m.signedId == me.signedId && m.identityDh.Some? && m.ephemeral.Some?
  {}

  /** So "whether or not anything above throws" does not hold: the exchanges throw on
      a key that does not import, and the prekey stays. */
  lemma PrekeySurvivesBadKey(me: Identity, m: InitialMessage)
    requires me == Identity(0, 1, 1, 2, map[7 := 3], 8)
    requires m == InitialMessage(4, Some(5), None, 1, Some(7))
    ensures Respond(me, m) == Err(BadKey) && AfterRespond(me, m).oneTime == map[7 := 3]
  {}

  /** A bundle that shows what `me` holds. */
  predicate Shows(b: Bundle, me: Identity) {
    && b.identityKey == me.signing
    && b.identityDh == SignedKey(me.dh, Signature(me.signing, me.dh))
    && b.signedId == me.signedId
    && b.signedPrekey == SignedKey(me.signedPrekey, Signature(me.signing, me.signedPrekey))
    && (b.oneTime.Some? ==> b.oneTime.value.id in me.oneTime && me.oneTime[b.oneTime.value.id] == b.oneTime.value.key)
  }

  /** The agreement law: an initial message built from a bundle of ours is
      answered, and both ends hold the same secret, associated data and
      bootstrap exchange. */
  lemma AgreementLaw(alice: Identity, bob: Identity, b: Bundle, eph: KeyName)
    requires Shows(b, bob)
    ensures Initiate(alice, b, eph).Ok?
    ensures Respond(bob, Initiate(alice, b, eph).value.1) == Ok(Initiate(alice, b, eph).value.0)
  {
    EcdhCommutes(alice.dh, bob.signedPrekey);
    EcdhCommutes(eph, bob.dh);
    EcdhCommutes(eph, bob.signedPrekey);
    if b.oneTime.Some? {
      EcdhCommutes(eph, b.oneTime.value.key);
    }
  }

  function SignedBy(signer: KeyName, key: KeyName): SignedKey {
    SignedKey(key, Signature(signer, key))
  }

  /** The one-time entries of a payload, for the ids that are still held. */
  function Offered(me: Identity, ids: seq<int>): seq<OneTime>
    requires Issued(me)
  {
    if ids == [] then []
    else
      var rest := Offered(me, ids[..|ids| - 1]);
      var id := ids[|ids| - 1];
      if id in me.oneTime then rest + [OneTime(id, me.oneTime[id])] else rest
  }

  /** What is offered: exactly the requested one-time prekeys that are still held. */
  lemma {:induction false} OfferedExactly(me: Identity, ids: seq<int>, o: OneTime)
    requires Issued(me)
    ensures o in Offered(me, ids) <==> o.id in ids && o.id in me.oneTime && me.oneTime[o.id] == o.key
  {
    if ids != [] {
      OfferedExactly(me, ids[..|ids| - 1], o);
      assert ids == ids[..|ids| - 1] + [ids[|ids| - 1]];
    }
  }

  function PayloadOf(me: Identity, ids: seq<int>): Payload
    requires Issued(me)
  {
    Payload(me.signing, SignedBy(me.signing, me.dh), me.signedId, SignedBy(me.signing, me.signedPrekey),
      Offered(me, ids))
  }

  function Range(lo: nat, hi: nat): (r: seq<int>)
    requires lo <= hi
    ensures |r| == hi - lo && forall i :: 0 <= i < |r| ==> r[i] == lo + i
  {
    seq(hi - lo, i => lo + i)
  }

  /** `me` after issuing one-time prekeys with the given private keys. */
  function WithMore(me: Identity, minted: seq<KeyName>): Identity {
    if minted == [] then me
    else
      var done := WithMore(me, minted[..|minted| - 1]);
      done.(oneTime := done.oneTime[done.nextId := minted[|minted| - 1]], nextId := done.nextId + 1)
  }

  lemma {:induction false} WithMoreIssued(me: Identity, minted: seq<KeyName>)
    requires Issued(me)
    ensures var more := WithMore(me, minted);
            && Issued(more) && more.nextId == me.nextId + |minted|
            && more == me.(oneTime := more.oneTime, nextId := more.nextId)
            && (forall id :: id in me.oneTime ==> id in more.oneTime && more.oneTime[id] == me.oneTime[id])
            && (forall id :: id in more.oneTime && id < me.nextId ==> id in me.oneTime)
  {
    if minted != [] { WithMoreIssued(me, minted[..|minted| - 1]); }
  }

  /** Each new private key is held under the next id, in order. */
  lemma {:induction false} WithMoreHolds(me: Identity, minted: seq<KeyName>, i: nat)
    requires Issued(me) && i < |minted|
    ensures me.nextId + i in WithMore(me, minted).oneTime && WithMore(me, minted).oneTime[me.nextId + i] == minted[i]
  {
    var front := minted[..|minted| - 1];
    WithMoreIssued(me, front);
    if i < |front| { WithMoreHolds(me, front, i); }
  }

  /** A top-up offers exactly the keys it made. */
  lemma TopUpOffersTheNewKeys(me: Identity, minted: seq<KeyName>, o: OneTime)
    requires Issued(me)
    ensures var more := WithMore(me, minted);
            && Issued(more) && more.nextId == me.nextId + |minted|
            && (o in PayloadOf(more, Range(me.nextId, more.nextId)).oneTime <==>
                  exists i :: 0 <= i < |minted| && o == OneTime(me.nextId + i, minted[i]))
  {
    WithMoreIssued(me, minted);
    var more := WithMore(me, minted);
    OfferedExactly(more, Range(me.nextId, more.nextId), o);
    forall i | 0 <= i < |minted|
      ensures me.nextId + i in more.oneTime && more.oneTime[me.nextId + i] == minted[i]
      ensures Range(me.nextId, more.nextId)[i] == me.nextId + i
    {
      WithMoreHolds(me, minted, i);
    }
    if o in PayloadOf(more, Range(me.nextId, more.nextId)).oneTime {
      var i :| 0 <= i < |minted| && Range(me.nextId, more.nextId)[i] == o.id;
      assert o == OneTime(me.nextId + i, minted[i]);
    }
  }

  class DeviceIdentity {
    const signing: KeyName
    const dhIdentity: KeyName
    const signedPrekeyId: nat
    const signedPrekey: KeyName
    var oneTimePrekeys: map<int, KeyName>
    var nextOneTimePrekeyId: nat

    function Value(): Identity
      reads this
    {
      Identity(signing, dhIdentity, signedPrekeyId, signedPrekey, oneTimePrekeys, nextOneTimePrekeyId)
    }

    constructor (signing: KeyName, dhIdentity: KeyName, signedPrekey: KeyName, batch: seq<KeyName>)
      ensures Issued(Value())
      ensures Value() == WithMore(Identity(signing, dhIdentity, 1, signedPrekey, map[], 0), batch)
    {
      this.signing := signing;
      this.dhIdentity := dhIdentity;
      this.signedPrekeyId := 1;
      this.signedPrekey := signedPrekey;
      oneTimePrekeys := map[];
      nextOneTimePrekeyId := 0;
      new;
      ghost var start := Value();
      for keyId := 0 to |batch|
        invariant Issued(Value()) && nextOneTimePrekeyId == keyId
        invariant Value() == WithMore(start, batch[..keyId])
      {
        oneTimePrekeys := oneTimePrekeys[keyId := batch[keyId]];
        nextOneTimePrekeyId := keyId + 1;
        assert batch[..keyId + 1][..keyId] == batch[..keyId];
      }
      assert batch[..|batch|] == batch;
    }

    method BuildPublishPayload(ids: seq<int>) returns (p: Payload)
      requires Issued(Value())
      ensures p == PayloadOf(Value(), ids)
    {
      var oneTime: seq<OneTime> := [];
      for i := 0 to |ids|
        invariant oneTime == Offered(Value(), ids[..i])
      {
        assert ids[..i + 1][..i] == ids[..i];
        if ids[i] in oneTimePrekeys {
          oneTime := oneTime + [OneTime(ids[i], oneTimePrekeys[ids[i]])];
        }
      }
      assert ids[..|ids|] == ids;
      p := Payload(signing, SignedBy(signing, dhIdentity), signedPrekeyId, SignedBy(signing, signedPrekey), oneTime);
    }

    method GenerateMoreOneTimePrekeys(minted: seq<KeyName>) returns (p: Payload)
      requires Issued(Value())
      modifies this`oneTimePrekeys, this`nextOneTimePrekeyId
      ensures Issued(Value())
      ensures Value() == WithMore(old(Value()), minted) && nextOneTimePrekeyId == old(nextOneTimePrekeyId) + |minted|
      ensures p == PayloadOf(Value(), Range(old(nextOneTimePrekeyId), nextOneTimePrekeyId))
    {
      ghost var start := Value();
      var newIds: seq<int> := [];
      for i := 0 to |minted|
        invariant Issued(Value()) && start == old(Value())
        invariant nextOneTimePrekeyId == start.nextId + i
        invariant Value() == WithMore(start, minted[..i])
        invariant newIds == Range(start.nextId, nextOneTimePrekeyId)
      {
        var keyId := nextOneTimePrekeyId;
        nextOneTimePrekeyId := keyId + 1;
        oneTimePrekeys := oneTimePrekeys[keyId := minted[i]];
        newIds := newIds + [keyId];
        assert minted[..i + 1][..i] == minted[..i];
      }
      assert minted[..|minted|] == minted;
      p := BuildPublishPayload(newIds);
    }

    method RespondToSession(m: InitialMessage) returns (r: Result<Agreement, X3dhError>)
      requires Issued(Value())
      modifies this`oneTimePrekeys
      ensures r == Respond(old(Value()), m)
      ensures Value() == AfterRespond(old(Value()), m)
      ensures Issued(Value())
      ensures r.Ok? && m.oneTimeId.Some? ==> Respond(Value(), m) == Err(NoSuchOneTimePrekey)
    {
      if m.signedId != signedPrekeyId {
        return Err(SignedPrekeyRotated);
      }
      var oneTimePair: Option<KeyName> := None;
      if m.oneTimeId.Some? {
        if m.oneTimeId.value !in oneTimePrekeys {
          return Err(NoSuchOneTimePrekey);
        }
        oneTimePair := Some(oneTimePrekeys[m.oneTimeId.value]);
      }
      if m.identityDh.None? || m.ephemeral.None? {
        return Err(BadKey);
      }
      var dh1 := Ecdh(signedPrekey, m.identityDh.value);
      var dh2 := Ecdh(dhIdentity, m.ephemeral.value);
      var dh3 := Ecdh(signedPrekey, m.ephemeral.value);
      var dh4 := if oneTimePair.Some? then Some(Ecdh(oneTimePair.value, m.ephemeral.value)) else None;
      if m.oneTimeId.Some? {
        oneTimePrekeys := oneTimePrekeys - {m.oneTimeId.value};
      }
      r := Ok(Agreement(X3dhSecret(dh1, dh2, dh3, dh4), Binding(m.identityKey, signing), dh3));
    }
  }
}
