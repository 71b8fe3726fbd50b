/** Delivery to one end of the conversation: an envelope opens only if it is a
    message the peer logged, and exactly which of those open. */
module RatchetReceive {
  import opened SymbolicCrypto
  import opened DoubleRatchet
  import opened RatchetBook
  import opened RatchetSide

  /** Nobody outside the session can seal under a session key, so a ciphertext
      under one was taken from a logged message. Headers and IVs are anything. */
  ghost predicate Presentable(b: Book, env: Envelope)
    requires WellBook(b)
  {
    env.ct.Sealed? && DerivedFrom(env.ct.key, b.secret) ==>
      exists x :: ValidSlot(b, x) && MsgAt(b, x).env.ct == env.ct
  }

  /** The terms-only core of authenticity. */
  lemma OpenedIsLogged(b: Book, e: nat, d: Term, n: nat, env: Envelope)
    requires WellBook(b) && Presentable(b, env) && e < |b.keys|
    requires Open(MessageKey(Ratcheted(ChainOf(RootAt(b, e), d), n)), env.iv, env.ct, Ad(b.ad, env.header)).Ok?
    ensures ValidSlot(b, Slot(e, n)) && MsgAt(b, Slot(e, n)) == Msg(env, env.ct.plain)
  {
    KeyDerived(b, e, d, n);
    var x :| ValidSlot(b, x) && MsgAt(b, x).env.ct == env.ct;
    KeySeparation(b, e, d, n, x);
  }

  lemma SkippedChain(s: State, until: int, base: Term, n: nat)
    requires s.ckr == Some(Ratcheted(base, n)) && s.dhr.Some? && Skip(s, until).Ok?
    ensures var k := if until > s.nr then until - s.nr else 0;
            var t := Skip(s, until).value;
            t.ckr == Some(Ratcheted(base, n + k)) && t.nr == s.nr + k &&
            t == s.(ckr := t.ckr, nr := t.nr, skipped := t.skipped)
  {
    AdvancedChain(s, until);
    RatchetedSum(base, n, if until > s.nr then until - s.nr else 0);
  }

  /** Where on the shared key tree the trial key of a header lies. */
  lemma TrialKey(s: State, b: Book, e: int, own: nat, h: Header, minted: KeyName)
    returns (at: Slot, d: Term)
    requires StateInv(s, b, e, own)
    requires Steered(s, h, minted).Ok? && Steered(s, h, minted).value.ckr.Some?
    ensures 0 <= at.ep < |b.keys| && 0 <= at.n
    ensures Steered(s, h, minted).value.ckr == Some(Ratcheted(ChainOf(RootAt(b, at.ep), d), at.n))
    ensures at.ep % 2 != own
    ensures (at.ep == e - 1 && s.nr <= at.n) || at.ep == e + 1
  {
    if s.dhr.Some? && h.dh == Canonical(s.dhr.value) {
      d := Ecdh(b.keys[e - 1], b.keys[e]);
      SkippedChain(s, h.n, ChainOf(RootAt(b, e - 1), d), s.nr);
      at := Slot(e - 1, Skip(s, h.n).value.nr);
    } else {
      if s.ckr.Some? { AdvancedChain(s, h.pn); }
      var t := Skip(s, h.pn).value;
      SkipChained(s, h.pn);
      d := Ecdh(s.dhs, h.dh.Decode().value);
      var u := DhRatchet(t, h.dh.Decode().value, minted);
      SkippedChain(u, h.n, ChainOf(RootAt(b, e + 1), d), 0);
      at := Slot(e + 1, Skip(u, h.n).value.nr);
    }
  }

  lemma StoredIsGenuine(side: Side, b: Book, t: Track, own: nat, env: Envelope, minted: KeyName) returns (x: Slot)
    requires SideInv(side, b, t, own) && Presentable(b, env)
    requires Has(side.ratchet.skipped, SkipId(env.header.dh, env.header.n))
    requires Delivered(side.ratchet, env, minted).outcome.Ok?
    ensures Theirs(b, own, x) && x in t.keptAt && x !in t.gotAt
    ensures MsgAt(b, x) == Msg(env, Delivered(side.ratchet, env, minted).outcome.value)
  {
    x := t.keptAt[IndexOf(side.ratchet.skipped, SkipId(env.header.dh, env.header.n))];
    OpenedIsLogged(b, x.ep, Ecdh(b.keys[x.ep], b.keys[x.ep + 1]), x.n, env);
  }

  lemma TrialIsGenuine(side: Side, b: Book, t: Track, own: nat, env: Envelope, minted: KeyName) returns (x: Slot)
    requires SideInv(side, b, t, own) && Presentable(b, env)
    requires !Has(side.ratchet.skipped, SkipId(env.header.dh, env.header.n))
    requires Delivered(side.ratchet, env, minted).outcome.Ok?
    ensures Theirs(b, own, x) && !Before(x, Frontier(side.ratchet, t))
    ensures MsgAt(b, x) == Msg(env, Delivered(side.ratchet, env, minted).outcome.value)
  {
    var at, d := TrialKey(side.ratchet, b, t.e, own, env.header, minted);
    hide SentInv, GotInv, KeptInv, Bounded, Steered;
    OpenedIsLogged(b, at.ep, d, at.n, env);
    x := at;
  }

  lemma AheadIsNew(side: Side, b: Book, t: Track, own: nat, x: Slot)
    requires SideInv(side, b, t, own) && !Before(x, Frontier(side.ratchet, t))
    ensures x !in t.gotAt
  {}

  /** Authenticity and replay protection: what opens is a message the peer
      logged, header, IV and all, and it had not been accepted before. */
  lemma AcceptedIsGenuine(side: Side, b: Book, t: Track, own: nat, env: Envelope, minted: KeyName)
    returns (x: Slot)
    requires SideInv(side, b, t, own) && Presentable(b, env)
    requires Delivered(side.ratchet, env, minted).outcome.Ok?
    ensures Theirs(b, own, x) && x !in t.gotAt
    ensures MsgAt(b, x) == Msg(env, Delivered(side.ratchet, env, minted).outcome.value)
    ensures x in t.keptAt || !Before(x, Frontier(side.ratchet, t))
  {
    hide SideInv, Delivered, Presentable;
    if Has(side.ratchet.skipped, SkipId(env.header.dh, env.header.n)) {
      x := StoredIsGenuine(side, b, t, own, env, minted);
    } else {
      x := TrialIsGenuine(side, b, t, own, env, minted);
      AheadIsNew(side, b, t, own, x);
    }
  }

  // ---------------------------------------------------------------------
  // The three ways a genuine message is accepted.

  lemma GotExtend(got: seq<Msg>, b: Book, gotAt: seq<Slot>, own: nat, f: Slot, g: Slot, x: Slot)
    requires WellBook(b) && GotInv(got, b, gotAt, own, f) && x !in gotAt
    requires Behind(b, own, g, x)
    requires forall y :: y in gotAt && Before(y, f) ==> Before(y, g)
    ensures GotInv(got + [MsgAt(b, x)], b, gotAt + [x], own, g)
  {}

  lemma KeptConsume(m: seq<Entry>, b: Book, keptAt: seq<Slot>, gotAt: seq<Slot>, own: nat, x: Slot)
    requires WellBook(b) && Theirs(b, own, x) && KeptInv(m, b, keptAt, gotAt, own, x)
    ensures KeptInv(m, b, keptAt, gotAt + [x], own, Slot(x.ep, x.n + 1))
    ensures forall y :: Lost(b, own, Slot(x.ep, x.n + 1), gotAt + [x], keptAt, y) ==> Lost(b, own, x, gotAt, keptAt, y)
  {
    var g := gotAt + [x];
    assert g[|gotAt|] == x;
    var h := Slot(x.ep, x.n + 1);
    forall y | Lost(b, own, h, g, keptAt, y)
      ensures Lost(b, own, x, gotAt, keptAt, y)
    {
      assert y != x && y !in gotAt;
    }
    forall i | 0 <= i < |m|
      ensures Behind(b, own, h, keptAt[i]) && keptAt[i] !in g
    {
      assert Behind(b, own, x, keptAt[i]);
    }
  }

  lemma WithoutMembers<T>(xs: seq<T>, i: nat)
    requires i < |xs|
    ensures forall y :: y in xs ==> y in Without(xs, i) || y == xs[i]
  {
    var r := Without(xs, i);
    forall y | y in xs && y != xs[i]
      ensures y in r
    {
      var j :| 0 <= j < |xs| && xs[j] == y;
      assert r[if j < i then j else j - 1] == y;
    }
  }

  lemma KeptRemove(m: seq<Entry>, b: Book, keptAt: seq<Slot>, gotAt: seq<Slot>, own: nat, f: Slot, i: nat)
    requires WellBook(b) && KeptInv(m, b, keptAt, gotAt, own, f) && i < |m|
    ensures KeptInv(Without(m, i), b, Without(keptAt, i), gotAt + [keptAt[i]], own, f)
    ensures forall y :: Lost(b, own, f, gotAt + [keptAt[i]], Without(keptAt, i), y) ==>
              Lost(b, own, f, gotAt, keptAt, y)
  {
    var k := Without(keptAt, i);
    var g := gotAt + [keptAt[i]];
    WithoutMembers(keptAt, i);
    assert g[|gotAt|] == keptAt[i];
    assert Sorted(k);
    forall j | 0 <= j < |k|
      ensures k[j] !in g
    {
      assert k[j] != keptAt[i];
    }
    forall y | Lost(b, own, f, g, k, y)
      ensures Lost(b, own, f, gotAt, keptAt, y) && (k != [] ==> Before(y, k[0]))
    {
      assert y !in gotAt && y !in keptAt;
      assert Lost(b, own, f, gotAt, keptAt, y);
    }
  }

  lemma KeptShift(m: seq<Entry>, b: Book, keptAt: seq<Slot>, gotAt: seq<Slot>, own: nat, f: Slot, g: Slot)
    requires WellBook(b) && KeptInv(m, b, keptAt, gotAt, own, f)
    requires forall x :: Theirs(b, own, x) ==> (Before(x, f) <==> Before(x, g))
    ensures KeptInv(m, b, keptAt, gotAt, own, g)
    ensures forall x :: Lost(b, own, g, gotAt, keptAt, x) <==> Lost(b, own, f, gotAt, keptAt, x)
  {
    forall x | Lost(b, own, g, gotAt, keptAt, x)
      ensures Lost(b, own, f, gotAt, keptAt, x)
    {}
  }

  function Receives(side: Side, s: State, m: Msg): Side {
    Side(s, side.sent, side.got + [m])
  }

  lemma DeliveredFromStore(s: State, b: Book, x: Slot, minted: KeyName)
    requires WellBook(b) && ValidSlot(b, x) && Chained(s) && s.ad == b.ad && Has(s.skipped, IdAt(b, x))
    requires s.skipped[IndexOf(s.skipped, IdAt(b, x))].key == KeyAt(b, x.ep, x.n)
    ensures Delivered(s, MsgAt(b, x).env, minted)
         == Delivery(s.(skipped := Without(s.skipped, IndexOf(s.skipped, IdAt(b, x)))), Ok(MsgAt(b, x).plain))
  {}

  lemma KeptAccepted(side: Side, b: Book, t: Track, own: nat, i: nat)
    returns (t': Track)
    requires SideInv(side, b, t, own) && i < |t.keptAt|
    requires Bounded(side.ratchet.(skipped := Without(side.ratchet.skipped, i)))
    ensures t'.e == t.e && t'.sentAt == t.sentAt
    ensures var s' := side.ratchet.(skipped := Without(side.ratchet.skipped, i));
            SideInv(Receives(side, s', MsgAt(b, t.keptAt[i])), b, t', own)
    ensures LosesAtCap(b, own, t, Frontier(side.ratchet, t), t', Frontier(side.ratchet, t))
  {
    var s := side.ratchet;
    var f := Frontier(s, t);
    var x := t.keptAt[i];
    KeptRemove(s.skipped, b, t.keptAt, t.gotAt, own, f, i);
    GotExtend(side.got, b, t.gotAt, own, f, f, x);
    t' := t.(gotAt := t.gotAt + [x], keptAt := Without(t.keptAt, i));
  }

  lemma DeliverKept(side: Side, b: Book, t: Track, own: nat, x: Slot, minted: KeyName)
    returns (t': Track)
    requires SideInv(side, b, t, own) && x in t.keptAt
    ensures var d := Delivered(side.ratchet, MsgAt(b, x).env, minted);
            && d.outcome == Ok(MsgAt(b, x).plain)
            && t'.e == t.e && t'.sentAt == t.sentAt
            && SideInv(Receives(side, d.state, MsgAt(b, x)), b, t', own)
            && LosesAtCap(b, own, t, Frontier(side.ratchet, t), t', Frontier(d.state, t'))
  {
    var s := side.ratchet;
    KeptLookup(s.skipped, b, t.keptAt, t.gotAt, own, Frontier(s, t), x);
    var i := IndexOf(s.skipped, IdAt(b, x));
    DeliveredFromStore(s, b, x, minted);
    DeliveredBounded(s, MsgAt(b, x).env, minted);
    t' := KeptAccepted(side, b, t, own, i);
  }

  lemma DeliveredOnChain(s: State, b: Book, e: int, own: nat, x: Slot, minted: KeyName)
    requires StateInv(s, b, e, own) && Theirs(b, own, x) && x.ep == e - 1 && s.nr <= x.n
    requires !Has(s.skipped, IdAt(b, x))
    requires Skip(s, x.n).Ok? ==>
               var v := Skip(s, x.n).value;
               && v == s.(ckr := Some(ChainAt(b, x.ep, x.n)), nr := x.n, skipped := v.skipped)
    ensures var d := Delivered(s, MsgAt(b, x).env, minted);
            && (Skip(s, x.n).Ok? ==> d == Delivery(Consumed(Skip(s, x.n).value), Ok(MsgAt(b, x).plain)))
            && (Skip(s, x.n).Err? ==> d.outcome.Err?)
            && (d.outcome.Ok? ==> StateInv(d.state, b, e, own))
  {}

  lemma ChainAccepted(side: Side, b: Book, t: Track, own: nat, x: Slot, s': State, kept: seq<Slot>)
    returns (t': Track)
    requires SideInv(side, b, t, own) && Theirs(b, own, x) && x.ep == t.e - 1 && side.ratchet.nr <= x.n
    requires KeptInv(s'.skipped, b, kept, t.gotAt, own, x) && s'.nr == x.n + 1 && Bounded(s')
    requires StateInv(s', b, t.e, own)
    requires LossAtCap(b, own, t.gotAt, t.keptAt, Frontier(side.ratchet, t), kept, x)
    ensures t'.e == t.e && t'.sentAt == t.sentAt
    ensures SideInv(Receives(side, s', MsgAt(b, x)), b, t', own)
    ensures LosesAtCap(b, own, t, Frontier(side.ratchet, t), t', Frontier(s', t'))
  {
    KeptConsume(s'.skipped, b, kept, t.gotAt, own, x);
    GotExtend(side.got, b, t.gotAt, own, Frontier(side.ratchet, t), Slot(x.ep, x.n + 1), x);
    t' := t.(gotAt := t.gotAt + [x], keptAt := kept);
    assert t'.gotAt[|t.gotAt|] == x;
  }

  lemma ChainState(s: State, b: Book, e: int, own: nat, x: Slot, minted: KeyName)
    requires StateInv(s, b, e, own) && Theirs(b, own, x) && x.ep == e - 1 && s.nr <= x.n
    requires !Has(s.skipped, IdAt(b, x)) && Skip(s, x.n).Ok?
    requires var v := Skip(s, x.n).value;
             v == s.(ckr := Some(ChainAt(b, x.ep, x.n)), nr := x.n, skipped := v.skipped)
    ensures var d := Delivered(s, MsgAt(b, x).env, minted);
            && d.outcome == Ok(MsgAt(b, x).plain)
            && d.state.nr == x.n + 1 && d.state.skipped == Skip(s, x.n).value.skipped
            && StateInv(d.state, b, e, own)
  {
    DeliveredOnChain(s, b, e, own, x, minted);
  }

  lemma DeliverChain(side: Side, b: Book, t: Track, own: nat, x: Slot, minted: KeyName)
    returns (t': Track)
    requires SideInv(side, b, t, own) && Theirs(b, own, x) && x.ep == t.e - 1 && side.ratchet.nr <= x.n
    requires x.n - side.ratchet.nr <= MAX_SKIP
    ensures var d := Delivered(side.ratchet, MsgAt(b, x).env, minted);
            && d.outcome == Ok(MsgAt(b, x).plain)
            && t'.e == t.e && t'.sentAt == t.sentAt
            && SideInv(Receives(side, d.state, MsgAt(b, x)), b, t', own)
            && LosesAtCap(b, own, t, Frontier(side.ratchet, t), t', Frontier(d.state, t'))
  {
    var s := side.ratchet;
    KeptLookup(s.skipped, b, t.keptAt, t.gotAt, own, Frontier(s, t), x);
    var kept := SkipKept(s, b, t.keptAt, t.gotAt, own, x.ep, x.n);
    ChainState(s, b, t.e, own, x, minted);
    DeliveredBounded(s, MsgAt(b, x).env, minted);
    t' := ChainAccepted(side, b, t, own, x, Delivered(s, MsgAt(b, x).env, minted).state, kept);
  }

  lemma ChainTooFar(s: State, b: Book, e: int, own: nat, x: Slot, minted: KeyName)
    requires StateInv(s, b, e, own) && Theirs(b, own, x) && x.ep == e - 1 && x.n - s.nr > MAX_SKIP
    requires !Has(s.skipped, IdAt(b, x))
    ensures Delivered(s, MsgAt(b, x).env, minted).outcome.Err?
  {
    DeliveredOnChain(s, b, e, own, x, minted);
  }

  /** The first Skip of a step into the peer's next epoch: it passes over the
      rest of the epoch being left. */
  lemma LeaveEpoch(side: Side, b: Book, t: Track, own: nat, x: Slot)
    returns (keptAt': seq<Slot>)
    requires SideInv(side, b, t, own) && Theirs(b, own, x) && x.ep == t.e + 1
    requires t.e >= 1 ==> |b.log[t.e - 1]| - side.ratchet.nr <= MAX_SKIP
    ensures var s := side.ratchet;
            && Skip(s, PnOf(b, x.ep)).Ok?
            && var v := Skip(s, PnOf(b, x.ep)).value;
            && v == s.(ckr := v.ckr, nr := v.nr, skipped := v.skipped)
            && KeptInv(v.skipped, b, keptAt', t.gotAt, own, Slot(x.ep, 0))
    ensures LossAtCap(b, own, t.gotAt, t.keptAt, Frontier(side.ratchet, t), keptAt', Slot(x.ep, 0))
    ensures |keptAt'| <= MAX_SKIPPED_KEYS
  {
    var s := side.ratchet;
    keptAt' := t.keptAt;
    if t.e >= 1 {
      keptAt' := SkipKept(s, b, t.keptAt, t.gotAt, own, t.e - 1, |b.log[t.e - 1]|);
      KeptShift(Skip(s, PnOf(b, x.ep)).value.skipped, b, keptAt', t.gotAt, own, Slot(t.e - 1, |b.log[t.e - 1]|),
                Slot(x.ep, 0));
    } else {
      KeptShift(s.skipped, b, keptAt', t.gotAt, own, Frontier(s, t), Slot(x.ep, 0));
    }
  }

  lemma EnterEpoch(s: State, b: Book, e: int, own: nat, v: State, minted: KeyName)
    requires StateInv(s, b, e, own) && e + 1 < |b.log| && minted !in b.keys
    requires v == s.(ckr := v.ckr, nr := v.nr, skipped := v.skipped)
    ensures var u := DhRatchet(v, b.keys[e + 2], minted);
            var c := OpenEpoch(b, minted);
            && Grows(b, c) && |c.keys| == e + 4
            && u.ckr == Some(ChainAt(b, e + 1, 0)) && ChainAt(c, e + 1, 0) == ChainAt(b, e + 1, 0)
            && u.root == RootAt(c, e + 3) && u.cks == Some(ChainAt(c, e + 2, 0))
  {
    var c := OpenEpoch(b, minted);
    OpenEpochGrows(b, minted);
    RootStable(b, c, e + 1);
    EcdhCommutes(minted, b.keys[e + 2]);
    assert RootAt(c, e + 2) == RootOf(RootAt(b, e + 1), Ecdh(b.keys[e + 1], b.keys[e + 2]));
    assert c.keys[e + 3] == minted;
  }

  lemma EnteredState(s: State, b: Book, e: int, own: nat, v: State, minted: KeyName, n: nat, m: seq<Entry>)
    requires StateInv(s, b, e, own) && e + 1 < |b.log| && minted !in b.keys
    requires v == s.(ckr := v.ckr, nr := v.nr, skipped := v.skipped)
    requires n < |b.log[e + 1]|
    ensures var u := DhRatchet(v, b.keys[e + 2], minted);
            && WellBook(OpenEpoch(b, minted))
            && StateInv(u.(ckr := Some(ChainAt(b, e + 1, n + 1)), nr := n + 1, skipped := m),
                        OpenEpoch(b, minted), e + 2, own)
  {
    EnterEpoch(s, b, e, own, v, minted);
    var c := OpenEpoch(b, minted);
    RootStable(b, c, e + 1);
    assert ChainAt(c, e + 1, n + 1) == ChainAt(b, e + 1, n + 1);
  }

  /** The shape of a delivery that opens a new epoch, given its first Skip. */
  lemma DeliveredOnEpoch(s: State, b: Book, e: int, own: nat, x: Slot, minted: KeyName)
    requires StateInv(s, b, e, own) && Theirs(b, own, x) && x.ep == e + 1 && minted !in b.keys
    requires !Has(s.skipped, IdAt(b, x))
    ensures var d := Delivered(s, MsgAt(b, x).env, minted);
            && (Skip(s, PnOf(b, x.ep)).Err? ==> d.outcome.Err?)
            && (Skip(s, PnOf(b, x.ep)).Ok? ==>
                  var u := DhRatchet(Skip(s, PnOf(b, x.ep)).value, b.keys[e + 2], minted);
                  && (Skip(u, x.n).Err? ==> d.outcome.Err?)
                  && (Skip(u, x.n).Ok? && Skip(u, x.n).value.ckr == Some(ChainAt(b, x.ep, x.n)) && s.ad == b.ad ==>
                        d == Delivery(Consumed(Skip(u, x.n).value), Ok(MsgAt(b, x).plain))))
  {
    assert MsgAt(b, x).env.header.dh == Canonical(b.keys[e + 2]);
    if s.dhr.Some? {
      assert b.keys[e] != b.keys[e + 2];
    }
  }

  predicate EpochGaps(s: State, b: Book, e: int, x: Slot)
    requires e - 1 < |b.log|
  {
    (e >= 1 ==> |b.log[e - 1]| - s.nr <= MAX_SKIP) && x.n <= MAX_SKIP
  }

  lemma EpochAccepted(side: Side, b: Book, t: Track, own: nat, x: Slot, minted: KeyName, s': State, kept: seq<Slot>)
    returns (t': Track)
    requires SideInv(side, b, t, own) && Theirs(b, own, x) && x.ep == t.e + 1 && minted !in b.keys
    requires KeptInv(s'.skipped, b, kept, t.gotAt, own, x) && s'.nr == x.n + 1 && Bounded(s')
    requires StateInv(s', OpenEpoch(b, minted), t.e + 2, own)
    requires LossAtCap(b, own, t.gotAt, t.keptAt, Frontier(side.ratchet, t), kept, x)
    ensures LosesAtCap(b, own, t, Frontier(side.ratchet, t), t', Frontier(s', t'))
    ensures t'.e == t.e + 2 && t'.sentAt == t.sentAt
    ensures SideInv(Receives(side, s', MsgAt(b, x)), OpenEpoch(b, minted), t', own)
  {
    KeptConsume(s'.skipped, b, kept, t.gotAt, own, x);
    GotExtend(side.got, b, t.gotAt, own, Frontier(side.ratchet, t), Slot(x.ep, x.n + 1), x);
    t' := Track(t.e + 2, t.sentAt, t.gotAt + [x], kept);
    assert t'.gotAt[|t.gotAt|] == x;
    EpochRecords(Receives(side, s', MsgAt(b, x)), b, t', own, minted);
  }

  lemma EpochSkips(side: Side, b: Book, t: Track, own: nat, x: Slot, minted: KeyName)
    returns (v: State, w: State, kept: seq<Slot>)
    requires SideInv(side, b, t, own) && Theirs(b, own, x) && x.ep == t.e + 1 && minted !in b.keys
    requires EpochGaps(side.ratchet, b, t.e, x)
    ensures var s := side.ratchet;
            && Skip(s, PnOf(b, x.ep)) == Ok(v)
            && v == s.(ckr := v.ckr, nr := v.nr, skipped := v.skipped)
            && Skip(DhRatchet(v, b.keys[t.e + 2], minted), x.n) == Ok(w)
            && w == DhRatchet(v, b.keys[t.e + 2], minted)
                    .(ckr := Some(ChainAt(b, x.ep, x.n)), nr := x.n, skipped := w.skipped)
    ensures KeptInv(w.skipped, b, kept, t.gotAt, own, x)
    ensures LossAtCap(b, own, t.gotAt, t.keptAt, Frontier(side.ratchet, t), kept, x)
  {
    var s := side.ratchet;
    var kept1 := LeaveEpoch(side, b, t, own, x);
    v := Skip(s, PnOf(b, x.ep)).value;
    EnterEpoch(s, b, t.e, own, v, minted);
    kept := SkipKept(DhRatchet(v, b.keys[t.e + 2], minted), b, kept1, t.gotAt, own, x.ep, x.n);
    w := Skip(DhRatchet(v, b.keys[t.e + 2], minted), x.n).value;
  }

  lemma EpochState(s: State, b: Book, e: int, own: nat, x: Slot, minted: KeyName, v: State, w: State)
    requires StateInv(s, b, e, own) && Theirs(b, own, x) && x.ep == e + 1 && minted !in b.keys
    requires !Has(s.skipped, IdAt(b, x))
    requires Skip(s, PnOf(b, x.ep)) == Ok(v) && v == s.(ckr := v.ckr, nr := v.nr, skipped := v.skipped)
    requires Skip(DhRatchet(v, b.keys[e + 2], minted), x.n) == Ok(w)
    requires w == DhRatchet(v, b.keys[e + 2], minted)
                  .(ckr := Some(ChainAt(b, x.ep, x.n)), nr := x.n, skipped := w.skipped)
    ensures var d := Delivered(s, MsgAt(b, x).env, minted);
            && d.outcome == Ok(MsgAt(b, x).plain)
            && d.state.nr == x.n + 1 && d.state.skipped == w.skipped
            && WellBook(OpenEpoch(b, minted)) && StateInv(d.state, OpenEpoch(b, minted), e + 2, own)
  {
    DeliveredOnEpoch(s, b, e, own, x, minted);
    EnteredState(s, b, e, own, v, minted, x.n, w.skipped);
  }

  lemma DeliverEpoch(side: Side, b: Book, t: Track, own: nat, x: Slot, minted: KeyName)
    returns (t': Track)
    requires SideInv(side, b, t, own) && Theirs(b, own, x) && x.ep == t.e + 1 && minted !in b.keys
    requires EpochGaps(side.ratchet, b, t.e, x)
    ensures var d := Delivered(side.ratchet, MsgAt(b, x).env, minted);
            && d.outcome == Ok(MsgAt(b, x).plain)
            && t'.e == t.e + 2 && t'.sentAt == t.sentAt
            && SideInv(Receives(side, d.state, MsgAt(b, x)), OpenEpoch(b, minted), t', own)
            && LosesAtCap(b, own, t, Frontier(side.ratchet, t), t', Frontier(d.state, t'))
  {
    var s := side.ratchet;
    KeptLookup(s.skipped, b, t.keptAt, t.gotAt, own, Frontier(s, t), x);
    var v, w, kept := EpochSkips(side, b, t, own, x, minted);
    EpochState(s, b, t.e, own, x, minted, v, w);
    DeliveredBounded(s, MsgAt(b, x).env, minted);
    t' := EpochAccepted(side, b, t, own, x, minted, Delivered(s, MsgAt(b, x).env, minted).state, kept);
  }

  lemma EpochTooFar(s: State, b: Book, e: int, own: nat, x: Slot, minted: KeyName)
    requires StateInv(s, b, e, own) && Theirs(b, own, x) && x.ep == e + 1 && minted !in b.keys
    requires !Has(s.skipped, IdAt(b, x)) && !EpochGaps(s, b, e, x)
    ensures Delivered(s, MsgAt(b, x).env, minted).outcome.Err?
  {
    DeliveredOnEpoch(s, b, e, own, x, minted);
  }

  lemma EpochRecords(side: Side, b: Book, t: Track, own: nat, minted: KeyName)
    requires WellBook(b) && own < 2 && minted !in b.keys && SentInv(side.sent, b, t.sentAt, own)
    requires GotInv(side.got, b, t.gotAt, own, Frontier(side.ratchet, t))
    requires KeptInv(side.ratchet.skipped, b, t.keptAt, t.gotAt, own, Frontier(side.ratchet, t))
    ensures var c := OpenEpoch(b, minted);
            && SentInv(side.sent, c, t.sentAt, own)
            && GotInv(side.got, c, t.gotAt, own, Frontier(side.ratchet, t))
            && KeptInv(side.ratchet.skipped, c, t.keptAt, t.gotAt, own, Frontier(side.ratchet, t))
  {
    var c := OpenEpoch(b, minted);
    OpenEpochGrows(b, minted);
    assert forall x :: ValidSlot(c, x) ==> ValidSlot(b, x);
    RecordsStable(side, b, c, t, own);
    forall x | ValidSlot(b, x)
      ensures ValidSlot(c, x) && MsgAt(c, x) == MsgAt(b, x)
    {
      GrowsStable(b, c, x);
    }
  }

  // ---------------------------------------------------------------------
  // The verdict on every genuine message.

  /** The two jumps a header asks of the receiving chain are within MAX_SKIP. */
  predicate GapsWithin(s: State, h: Header) {
    if s.dhr.Some? && h.dh == Canonical(s.dhr.value) then h.n - s.nr <= MAX_SKIP
    else (s.ckr.Some? ==> h.pn - s.nr <= MAX_SKIP) && h.n <= MAX_SKIP
  }

  lemma GenuineVerdict(side: Side, b: Book, t: Track, own: nat, x: Slot, minted: KeyName)
    requires SideInv(side, b, t, own) && Theirs(b, own, x) && minted !in b.keys
    ensures var env := MsgAt(b, x).env;
            var d := Delivered(side.ratchet, env, minted);
            && (d.outcome.Ok? <==>
                  if Before(x, Frontier(side.ratchet, t)) then Has(side.ratchet.skipped, IdAt(b, x))
                  else GapsWithin(side.ratchet, env.header))
  {
    var s := side.ratchet;
    var f := Frontier(s, t);
    var env := MsgAt(b, x).env;
    KeptLookup(s.skipped, b, t.keptAt, t.gotAt, own, f, x);
    if Before(x, f) {
      if x in t.keptAt {
        DeliveredFromStore(s, b, x, minted);
      } else if Delivered(s, env, minted).outcome.Ok? {
        var y := AcceptedIsGenuine(side, b, t, own, env, minted);
        MsgAtInjective(b, x, y);
        assert false;
      }
    } else if x.ep == t.e - 1 {
      if x.n - s.nr <= MAX_SKIP {
        assert Delivered(s, env, minted).outcome.Ok? by {
          var t' := DeliverChain(side, b, t, own, x, minted);
        }
      } else {
        ChainTooFar(s, b, t.e, own, x, minted);
      }
    } else {
      assert x.ep == t.e + 1;
      EpochHeader(s, b, t.e, own, x);
      if EpochGaps(s, b, t.e, x) {
        assert Delivered(s, env, minted).outcome.Ok? by {
          var t' := DeliverEpoch(side, b, t, own, x, minted);
        }
      } else {
        EpochTooFar(s, b, t.e, own, x, minted);
      }
    }
  }

  lemma EpochHeader(s: State, b: Book, e: int, own: nat, x: Slot)
    requires StateInv(s, b, e, own) && Theirs(b, own, x) && x.ep == e + 1
    ensures EpochGaps(s, b, e, x) <==> GapsWithin(s, MsgAt(b, x).env.header)
  {}
}
