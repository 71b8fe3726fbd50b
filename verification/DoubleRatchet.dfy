/** The per-message Double Ratchet (sections 2.6 and 3.3-3.5 of "The Double
    Ratchet Algorithm"), with the client's global cap on retained skipped keys. */
module DoubleRatchet {
  import opened SymbolicCrypto

  const MAX_SKIP := 1000
  const MAX_SKIPPED_KEYS := 2000

  /** The base64 text of a ratchet key. Only `Canonical` is what base64Encode
      prints; `atob` also decodes other spellings of the same bytes, and refuses
      the rest (or yields bytes X25519 refuses). */
  datatype KeyText = Canonical(key: KeyName) | Alias(key: KeyName, variant: nat) | Malformed(text: nat) {
    function Decode(): Option<KeyName> {
      if Malformed? then None else Some(key)
    }
  }

  datatype Header = Header(dh: KeyText, pn: int, n: int)

  /** headerBytes: session associated data followed by the header. */
  datatype Ad = Ad(session: Binding, header: Header)

  datatype Ciphertext =
    | Sealed(key: Term, iv: nat, ad: Ad, plain: nat)
    | Noise(bytes: nat)

  datatype Envelope = Envelope(header: Header, iv: nat, ct: Ciphertext)

  datatype Refusal = NoSendingChain | NoReceivingChain | TooManySkipped | BadKey | BadTag

  /** AES-GCM: opens exactly under the same key, IV and associated data. */
  function Open(key: Term, iv: nat, ct: Ciphertext, ad: Ad): (r: Result<nat, Refusal>)
    ensures r.Ok? <==> ct.Sealed? && ct.key == key && ct.iv == iv && ct.ad == ad
  {
    if ct.Sealed? && ct.key == key && ct.iv == iv && ct.ad == ad then Ok(ct.plain) else Err(BadTag)
  }

  datatype SkipId = SkipId(dh: KeyText, n: int)

  datatype Entry = Entry(id: SkipId, key: Term)

  // ---------------------------------------------------------------------
  // The insertion-ordered JavaScript Map of skipped message keys.

  function Ids(m: seq<Entry>): (ids: seq<SkipId>)
    ensures |ids| == |m| && forall i :: 0 <= i < |m| ==> ids[i] == m[i].id
  {
    seq(|m|, i requires 0 <= i < |m| => m[i].id)
  }

  predicate Distinct<T(==)>(s: seq<T>) {
    forall i, j :: 0 <= i < j < |s| ==> s[i] != s[j]
  }

  function IndexOf(m: seq<Entry>, id: SkipId): (i: nat)
    ensures i <= |m|
    ensures i < |m| ==> m[i].id == id
    ensures forall k :: 0 <= k < i ==> m[k].id != id
  {
    if m == [] then 0 else if m[0].id == id then 0 else 1 + IndexOf(m[1..], id)
  }

  predicate Has(m: seq<Entry>, id: SkipId) {
    IndexOf(m, id) < |m|
  }

  /** Map.set: an existing key keeps its position, a new one goes last. */
  function MapSet(m: seq<Entry>, id: SkipId, key: Term): seq<Entry> {
    var i := IndexOf(m, id);
    if i < |m| then m[i := Entry(id, key)] else m + [Entry(id, key)]
  }

  function Without<T>(xs: seq<T>, i: nat): (r: seq<T>)
    requires i < |xs|
    ensures |r| == |xs| - 1
    ensures forall j :: 0 <= j < |r| ==> r[j] == xs[if j < i then j else j + 1]
  {
    xs[..i] + xs[i + 1..]
  }

  function MapDelete(m: seq<Entry>, id: SkipId): seq<Entry> {
    var i := IndexOf(m, id);
    if i < |m| then Without(m, i) else m
  }

  /** Drops the oldest entries beyond the cap. */
  function Evict(m: seq<Entry>): seq<Entry> {
    if |m| > MAX_SKIPPED_KEYS then m[|m| - MAX_SKIPPED_KEYS..] else m
  }

  // ---------------------------------------------------------------------
  // Ratchet state as a value, and what each operation does to it.

  datatype State = State(
    dhs: KeyName,
    dhr: Option<KeyName>,
    root: Term,
    cks: Option<Term>,
    ckr: Option<Term>,
    ns: nat,
    nr: nat,
    pn: nat,
    skipped: seq<Entry>,
    ad: Binding)

  predicate Bounded(s: State) {
    |s.skipped| <= MAX_SKIPPED_KEYS && Distinct(Ids(s.skipped))
  }

  function Initiator(secret: Term, theirs: KeyName, minted: KeyName, ad: Binding): State {
    State(minted, Some(theirs), RootOf(secret, Ecdh(minted, theirs)), Some(ChainOf(secret, Ecdh(minted, theirs))),
          None, 0, 0, 0, [], ad)
  }

  function Responder(secret: Term, own: KeyName, ad: Binding): State {
    State(own, None, secret, None, None, 0, 0, 0, [], ad)
  }

  function Outgoing(s: State, iv: nat, plain: nat): Envelope
    requires s.cks.Some?
  {
    var header := Header(Canonical(s.dhs), s.pn, s.ns);
    Envelope(header, iv, Sealed(MessageKey(s.cks.value), iv, Ad(s.ad, header), plain))
  }

  function AfterEncrypt(s: State): State
    requires s.cks.Some?
  {
    s.(cks := Some(NextChain(s.cks.value)), ns := s.ns + 1)
  }

  /** The first loop of _skipMessageKeys. */
  function Advanced(s: State, until: int): State
    requires s.ckr.Some? && s.dhr.Some?
    decreases until - s.nr
  {
    if s.nr < until then
      Advanced(s.(ckr := Some(NextChain(s.ckr.value)),
                  skipped := MapSet(s.skipped, SkipId(Canonical(s.dhr.value), s.nr), MessageKey(s.ckr.value)),
                  nr := s.nr + 1), until)
    else s
  }

  /** A receiving chain is only ever installed together with its key. */
  predicate Chained(s: State) {
    s.ckr.Some? ==> s.dhr.Some?
  }

  function Skip(s: State, until: int): Result<State, Refusal>
    requires Chained(s)
  {
    if s.ckr.None? then Ok(s)
    else if until - s.nr > MAX_SKIP then Err(TooManySkipped)
    else
      var t := Advanced(s, until);
      Ok(t.(skipped := Evict(t.skipped)))
  }

  function DhRatchet(s: State, theirs: KeyName, minted: KeyName): State {
    var root := RootOf(s.root, Ecdh(s.dhs, theirs));
    s.(pn := s.ns, ns := 0, nr := 0, dhr := Some(theirs),
       ckr := Some(ChainOf(s.root, Ecdh(s.dhs, theirs))),
       dhs := minted,
       root := RootOf(root, Ecdh(minted, theirs)),
       cks := Some(ChainOf(root, Ecdh(minted, theirs))))
  }

  /** Brings the receiving chain to the message the header names. */
  function Steered(s: State, h: Header, minted: KeyName): (r: Result<State, Refusal>)
    requires Chained(s)
    ensures r.Ok? ==> Chained(r.value)
  {
    if s.dhr.Some? && h.dh == Canonical(s.dhr.value) then SkipChained(s, h.n); Skip(s, h.n)
    else
      match Skip(s, h.pn)
      case Err(e) => Err(e)
      case Ok(t) =>
        if h.dh.Decode().None? then Err(BadKey)
        else
          var u := DhRatchet(t, h.dh.Decode().value, minted);
          SkipChained(u, h.n);
          Skip(u, h.n)
  }

  function Consumed(s: State): State
    requires s.ckr.Some?
  {
    s.(ckr := Some(NextChain(s.ckr.value)), nr := s.nr + 1)
  }

  datatype Delivery = Delivery(state: State, outcome: Result<nat, Refusal>)

  /** What one decrypt does: the state it leaves and what it returns. */
  function Delivered(s: State, env: Envelope, minted: KeyName): (d: Delivery)
    requires Chained(s)
    ensures Chained(d.state)
    ensures d.outcome.Err? ==> d.state == s
  {
    var ad := Ad(s.ad, env.header);
    var id := SkipId(env.header.dh, env.header.n);
    if Has(s.skipped, id) then
      var r := Open(s.skipped[IndexOf(s.skipped, id)].key, env.iv, env.ct, ad);
      if r.Ok? then Delivery(s.(skipped := MapDelete(s.skipped, id)), r) else Delivery(s, r)
    else
      match Steered(s, env.header, minted)
      case Err(e) => Delivery(s, Err(e))
      case Ok(t) =>
        if t.ckr.None? then Delivery(s, Err(NoReceivingChain))
        else
          var r := Open(MessageKey(t.ckr.value), env.iv, env.ct, ad);
          if r.Ok? then Delivery(Consumed(t), r) else Delivery(s, r)
  }

  // ---------------------------------------------------------------------
  // Facts about the value functions.

  /** Whatever happens to the skipped map, the chain itself moves by exactly the
      requested number of steps. */
  lemma {:induction false} AdvancedChain(s: State, until: int)
    requires s.ckr.Some? && s.dhr.Some?
    ensures var t := Advanced(s, until);
            var k := if until > s.nr then until - s.nr else 0;
            && t.ckr == Some(Ratcheted(s.ckr.value, k)) && t.nr == s.nr + k
            && t == s.(ckr := t.ckr, nr := t.nr, skipped := t.skipped)
    decreases until - s.nr
  {
    if s.nr < until {
      var s' := s.(ckr := Some(NextChain(s.ckr.value)),
                   skipped := MapSet(s.skipped, SkipId(Canonical(s.dhr.value), s.nr), MessageKey(s.ckr.value)),
                   nr := s.nr + 1);
      AdvancedChain(s', until);
      RatchetedSum(s.ckr.value, 1, until - s.nr - 1);
      assert Ratcheted(s.ckr.value, 1) == NextChain(Ratcheted(s.ckr.value, 0));
    }
  }

  /** The key stored under a name, if any. */
  function Lookup(m: seq<Entry>, id: SkipId): Option<Term> {
    if Has(m, id) then Some(m[IndexOf(m, id)].key) else None
  }

  lemma MapSetLookup(m: seq<Entry>, id: SkipId, key: Term, q: SkipId)
    ensures Lookup(MapSet(m, id, key), q) == if q == id then Some(key) else Lookup(m, q)
  {
    var m' := MapSet(m, id, key);
    var i, j := IndexOf(m, q), IndexOf(m', q);
    assert forall k :: 0 <= k < |m| ==> m'[k].id == m[k].id;
    if i < |m| {
      assert m'[i].id == q;
      assert j == i;
    } else {
      assert q == id ==> m'[|m|].id == q;
      assert j < |m'| ==> j == |m|;
    }
  }

  /** Passing over numbers stores the key of each of them, under the current ratchet
      key and that number, and changes no other stored key. */
  lemma {:induction false} AdvancedStores(s: State, until: int, q: SkipId)
    requires s.ckr.Some? && s.dhr.Some?
    ensures Lookup(Advanced(s, until).skipped, q) ==
              if q.dh == Canonical(s.dhr.value) && s.nr <= q.n < until
              then Some(MessageKey(Ratcheted(s.ckr.value, q.n - s.nr)))
              else Lookup(s.skipped, q)
    decreases until - s.nr
  {
    hide Lookup, MapSet;
    if s.nr < until {
      var id, key := SkipId(Canonical(s.dhr.value), s.nr), MessageKey(s.ckr.value);
      MapSetLookup(s.skipped, id, key, q);
      AdvancedStores(s.(ckr := Some(NextChain(s.ckr.value)), skipped := MapSet(s.skipped, id, key), nr := s.nr + 1),
                     until, q);
      if q.n > s.nr {
        RatchetedSum(s.ckr.value, 1, q.n - s.nr - 1);
        assert Ratcheted(s.ckr.value, 1) == NextChain(Ratcheted(s.ckr.value, 0));
      }
    }
  }

  lemma SkipChained(s: State, until: int)
    requires Chained(s)
    ensures Skip(s, until).Ok? ==> Chained(Skip(s, until).value)
  {
    if s.ckr.Some? { AdvancedChain(s, until); }
  }

  lemma MapSetDistinct(m: seq<Entry>, id: SkipId, key: Term)
    requires Distinct(Ids(m))
    ensures Distinct(Ids(MapSet(m, id, key)))
  {
    var m' := MapSet(m, id, key);
    assert forall k :: 0 <= k < |m| ==> m'[k].id == m[k].id;
  }

  lemma {:induction false} AdvancedDistinct(s: State, until: int)
    requires s.ckr.Some? && s.dhr.Some? && Distinct(Ids(s.skipped))
    ensures Distinct(Ids(Advanced(s, until).skipped))
    decreases until - s.nr
  {
    if s.nr < until {
      MapSetDistinct(s.skipped, SkipId(Canonical(s.dhr.value), s.nr), MessageKey(s.ckr.value));
      AdvancedDistinct(s.(ckr := Some(NextChain(s.ckr.value)),
                          skipped := MapSet(s.skipped, SkipId(Canonical(s.dhr.value), s.nr), MessageKey(s.ckr.value)),
                          nr := s.nr + 1), until);
    }
  }

  lemma EvictDistinct(m: seq<Entry>)
    requires Distinct(Ids(m))
    ensures Distinct(Ids(Evict(m))) && |Evict(m)| <= MAX_SKIPPED_KEYS
  {
    var drop := |m| - |Evict(m)|;
    forall i | 0 <= i < |Evict(m)|
      ensures Ids(Evict(m))[i] == Ids(m)[i + drop]
    {}
  }

  lemma SkipBounded(s: State, until: int)
    requires Chained(s) && Bounded(s)
    ensures Skip(s, until).Ok? ==> Bounded(Skip(s, until).value)
  {
    if s.ckr.Some? && until - s.nr <= MAX_SKIP {
      AdvancedDistinct(s, until);
      EvictDistinct(Advanced(s, until).skipped);
    }
  }

  /** Memory bound: whatever is delivered, the retained keys stay at most
      MAX_SKIPPED_KEYS with pairwise different (dh, n) names. */
  lemma DeliveredBounded(s: State, env: Envelope, minted: KeyName)
    requires Chained(s) && Bounded(s)
    ensures Chained(Delivered(s, env, minted).state) && Bounded(Delivered(s, env, minted).state)
  {
    var h := env.header;
    var id := SkipId(h.dh, h.n);
    if Has(s.skipped, id) {
      var i := IndexOf(s.skipped, id);
      var m := MapDelete(s.skipped, id);
      assert forall k :: 0 <= k < |m| ==> Ids(m)[k] == s.skipped[if k < i then k else k + 1].id;
    } else if s.dhr.Some? && h.dh == Canonical(s.dhr.value) {
      SkipBounded(s, h.n);
    } else {
      SkipBounded(s, h.pn);
      SkipChained(s, h.pn);
      if Skip(s, h.pn).Ok? && h.dh.Decode().Some? {
        SkipBounded(DhRatchet(Skip(s, h.pn).value, h.dh.Decode().value, minted), h.n);
      }
    }
  }

  /** The header names the ratchet key this end is receiving under. */
  predicate Current(s: State, h: Header) {
    s.dhr.Some? && h.dh == Canonical(s.dhr.value)
  }

  /** The header asks for a jump of more than a thousand numbers on a chain there is. */
  predicate TooFar(s: State, h: Header) {
    if Current(s, h) then s.ckr.Some? && h.n - s.nr > 1000
    else (s.ckr.Some? && h.pn - s.nr > 1000) || (h.dh.Decode().Some? && h.n > 1000)
  }

  /** Why an envelope without a stored key is refused before its tag is looked at: a jump
      too far, a ratchet key that does not import, or no chain to receive on. */
  lemma RefusedExactlyWhy(s: State, env: Envelope, minted: KeyName)
    requires Chained(s) && !Has(s.skipped, SkipId(env.header.dh, env.header.n))
    ensures var h, r := env.header, Delivered(s, env, minted).outcome;
            && (r == Err(TooManySkipped) <==> TooFar(s, h))
            && (r == Err(BadKey) <==> !TooFar(s, h) && !Current(s, h) && h.dh.Decode().None?)
            && (r == Err(NoReceivingChain) <==> Current(s, h) && s.ckr.None?)
            && r != Err(NoSendingChain)
  {
    var h := env.header;
    if Current(s, h) {
      if s.ckr.Some? { AdvancedChain(s, h.n); }
    } else {
      if s.ckr.Some? { AdvancedChain(s, h.pn); }
      SkipChained(s, h.pn);
      if Skip(s, h.pn).Ok? && h.dh.Decode().Some? {
        AdvancedChain(DhRatchet(Skip(s, h.pn).value, h.dh.Decode().value, minted), h.n);
      }
    }
  }

  // ---------------------------------------------------------------------
  // The object itself.

  class MessageRatchet {
    var dhs: KeyName
    var dhrRaw: Option<KeyName>
    var rootKey: Term
    var cks: Option<Term>
    var ckr: Option<Term>
    var ns: nat
    var nr: nat
    var pn: nat
    var skipped: seq<Entry>
    const associatedData: Binding

    function Snapshot(): State
      reads this
    {
      State(dhs, dhrRaw, rootKey, cks, ckr, ns, nr, pn, skipped, associatedData)
    }

    predicate Valid()
      reads this
    {
      Chained(Snapshot()) && Bounded(Snapshot())
    }

    constructor InitSender(sharedSecret: Term, theirRatchetKey: KeyName, ad: Binding, minted: KeyName)
      ensures Valid() && Snapshot() == Initiator(sharedSecret, theirRatchetKey, minted, ad)
    {
      var dh := Ecdh(minted, theirRatchetKey);
      dhs, dhrRaw := minted, Some(theirRatchetKey);
      rootKey, cks, ckr := RootOf(sharedSecret, dh), Some(ChainOf(sharedSecret, dh)), None;
      ns, nr, pn, skipped := 0, 0, 0, [];
      associatedData := ad;
    }

    constructor InitReceiver(sharedSecret: Term, ownRatchetKey: KeyName, ad: Binding)
      ensures Valid() && Snapshot() == Responder(sharedSecret, ownRatchetKey, ad)
    {
      dhs, dhrRaw := ownRatchetKey, None;
      rootKey, cks, ckr := sharedSecret, None, None;
      ns, nr, pn, skipped := 0, 0, 0, [];
      associatedData := ad;
    }

    method Encrypt(plain: nat, iv: nat) returns (r: Result<Envelope, Refusal>)
      requires Valid()
      modifies this
      ensures Valid()
      ensures r.Ok? <==> old(cks).Some?
      ensures r.Err? ==> r == Err(NoSendingChain) && Snapshot() == old(Snapshot())
      ensures r.Ok? ==> r.value == Outgoing(old(Snapshot()), iv, plain) && Snapshot() == AfterEncrypt(old(Snapshot()))
    {
      if cks.None? {
        return Err(NoSendingChain);
      }
      var messageKey := MessageKey(cks.value);
      cks := Some(NextChain(cks.value));
      var header := Header(Canonical(dhs), pn, ns);
      ns := ns + 1;
      r := Ok(Envelope(header, iv, Sealed(messageKey, iv, Ad(associatedData, header), plain)));
    }

    /** A refusal of any kind leaves the ratchet exactly as it was, and no header
        whatever makes one call derive more than 2 * MAX_SKIP + 1 message keys. */
    method Decrypt(env: Envelope, minted: KeyName) returns (r: Result<nat, Refusal>, ghost derived: nat)
      requires Valid()
      modifies this
      ensures Valid()
      ensures r == Delivered(old(Snapshot()), env, minted).outcome
      ensures Snapshot() == Delivered(old(Snapshot()), env, minted).state
      ensures r.Err? ==> Snapshot() == old(Snapshot())
      ensures derived <= 2 * MAX_SKIP + 1
    {
      DeliveredBounded(Snapshot(), env, minted);
      derived := 0;
      var h := env.header;
      var ad := Ad(associatedData, h);
      var id := SkipId(h.dh, h.n);
      var at := IndexOf(skipped, id);
      if at < |skipped| {
        r := Open(skipped[at].key, env.iv, env.ct, ad);
        if r.Ok? {
          skipped := MapDelete(skipped, id);
        }
        return;
      }
      var dhs', dhr', root', cks', ckr' := dhs, dhrRaw, rootKey, cks, ckr;
      var ns', nr', pn', skipped' := ns, nr, pn, skipped;
      r, derived := Attempt(env, minted);
      if r.Err? {
        dhs, dhrRaw, rootKey, cks, ckr := dhs', dhr', root', cks', ckr';
        ns, nr, pn, skipped := ns', nr', pn', skipped';
      }
    }

    /** Trial decryption on the receiving chain; Decrypt undoes it on failure. */
    method Attempt(env: Envelope, minted: KeyName) returns (r: Result<nat, Refusal>, ghost derived: nat)
      requires Valid() && !Has(skipped, SkipId(env.header.dh, env.header.n))
      modifies this
      ensures r == Delivered(old(Snapshot()), env, minted).outcome
      ensures r.Ok? ==> Snapshot() == Delivered(old(Snapshot()), env, minted).state
      ensures derived <= 2 * MAX_SKIP + 1
    {
      var h := env.header;
      var refused: Option<Refusal>;
      ghost var first, second := 0, 0;
      derived := 0;
      if dhrRaw.None? || h.dh != Canonical(dhrRaw.value) {
        SkipChained(Snapshot(), h.pn);
        refused, first := SkipMessageKeys(h.pn);
        if refused.Some? {
          return Err(refused.value), first;
        }
        var decoded := h.dh.Decode();
        if decoded.None? {
          return Err(BadKey), first;
        }
        StepDhRatchet(decoded.value, minted);
      }
      refused, second := SkipMessageKeys(h.n);
      derived := first + second;
      if refused.Some? {
        return Err(refused.value), derived;
      }
      if ckr.None? {
        return Err(NoReceivingChain), derived;
      }
      var messageKey := MessageKey(ckr.value);
      derived := derived + 1;
      ckr := Some(NextChain(ckr.value));
      nr := nr + 1;
      r := Open(messageKey, env.iv, env.ct, Ad(associatedData, h));
    }

    method SkipMessageKeys(until: int) returns (refused: Option<Refusal>, ghost derived: nat)
      requires Chained(Snapshot())
      modifies this`ckr, this`skipped, this`nr
      ensures refused.Some? ==> Skip(old(Snapshot()), until) == Err(refused.value)
      ensures refused.None? ==> Skip(old(Snapshot()), until) == Ok(Snapshot())
      ensures derived <= MAX_SKIP
    {
      derived := 0;
      if ckr.None? {
        return None, 0;
      }
      if until - nr > MAX_SKIP {
        return Some(TooManySkipped), 0;
      }
      var dhText := Canonical(dhrRaw.value);
      while nr < until
        invariant ckr.Some? && derived == nr - old(nr)
        invariant old(nr) <= nr <= if until > old(nr) then until else old(nr)
        invariant Advanced(Snapshot(), until) == Advanced(old(Snapshot()), until)
      {
        var messageKey := MessageKey(ckr.value);
        ghost var s := Snapshot();
        ckr := Some(NextChain(ckr.value));
        skipped := MapSet(skipped, SkipId(dhText, nr), messageKey);
        nr := nr + 1;
        derived := derived + 1;
        assert Advanced(s, until) == Advanced(Snapshot(), until);
      }
      ghost var full := skipped;
      ghost var t := Snapshot();
      assert t == Advanced(old(Snapshot()), until);
      while |skipped| > MAX_SKIPPED_KEYS
        invariant Evict(skipped) == Evict(full) && Snapshot() == t.(skipped := skipped)
      {
        skipped := skipped[1..];
      }
      refused := None;
    }

    method StepDhRatchet(theirs: KeyName, minted: KeyName)
      modifies this
      ensures Snapshot() == DhRatchet(old(Snapshot()), theirs, minted)
    {
      pn := ns;
      ns := 0;
      nr := 0;
      dhrRaw := Some(theirs);
      var dh := Ecdh(dhs, theirs);
      ckr := Some(ChainOf(rootKey, dh));
      rootKey := RootOf(rootKey, dh);
      dhs := minted;
      var dh' := Ecdh(dhs, theirs);
      cks := Some(ChainOf(rootKey, dh'));
      rootKey := RootOf(rootKey, dh');
    }
  }
}
