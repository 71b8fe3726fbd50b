/** Two ends of one Double Ratchet session over a network that drops, duplicates,
    reorders and injects: what holds in every run. */
module RatchetRuns {
  import opened SymbolicCrypto
  import opened DoubleRatchet
  import opened RatchetBook
  import opened RatchetSide
  import opened RatchetReceive

  datatype Party = Alice | Bob {
    function Other(): Party {
      if this == Alice then Bob else Alice
    }

    function Own(): nat {
      if this == Alice then 0 else 1
    }
  }

  /** What X3DH leaves both ends with: the shared secret, the responder's signed
      prekey, the associated data, and the initiator's first ratchet key. */
  datatype Session = Session(secret: Term, signedPrekey: KeyName, first: KeyName, ad: Binding)

  type Fresh = u: Session | u.signedPrekey != u.first witness Session(Atom(0), 0, 1, Binding(0, 0))

  datatype World = World(secret: Term, alice: Side, bob: Side, next: KeyName) {
    function Side(p: Party): Side {
      if p == Alice then alice else bob
    }

    function With(p: Party, side: Side): World {
      if p == Alice then this.(alice := side) else this.(bob := side)
    }
  }

  predicate Sound(w: World) {
    Chained(w.alice.ratchet) && Chained(w.bob.ratchet)
  }

  function Start(u: Fresh): (w: World)
    ensures Sound(w)
  {
    World(u.secret,
          Side(Initiator(u.secret, u.signedPrekey, u.first, u.ad), [], []),
          Side(Responder(u.secret, u.signedPrekey, u.ad), [], []),
          u.signedPrekey + u.first + 1)
  }

  datatype Action = Send(who: Party, iv: nat, plain: nat) | Deliver(to: Party, env: Envelope)

  /** The network may present any envelope at all, except that a ciphertext under
      a key of this session must be one an end produced (see
      SymbolicCrypto.OutsidersStayOutside). */
  ghost predicate CanAppear(w: World, env: Envelope) {
    env.ct.Sealed? && DerivedFrom(env.ct.key, w.secret) ==>
      exists m: Msg :: (m in w.alice.sent || m in w.bob.sent) && m.env.ct == env.ct
  }

  /** One event. A send without a sending chain and an envelope that cannot appear
      change nothing. Every delivery attempt uses up a freshly generated key. */
  ghost function Step(w: World, act: Action): (w': World)
    requires Sound(w)
    ensures Sound(w')
  {
    match act
    case Send(p, iv, plain) =>
      var side := w.Side(p);
      if side.ratchet.cks.None? then w
      else w.With(p, side.(ratchet := AfterEncrypt(side.ratchet),
                           sent := side.sent + [Msg(Outgoing(side.ratchet, iv, plain), plain)]))
    case Deliver(p, env) =>
      if !CanAppear(w, env) then w
      else
        var side := w.Side(p);
        var d := Delivered(side.ratchet, env, w.next);
        var got := if d.outcome.Ok? then side.got + [Msg(env, d.outcome.value)] else side.got;
        w.With(p, side.(ratchet := d.state, got := got)).(next := w.next + 1)
  }

  ghost function Run(u: Fresh, acts: seq<Action>): (w: World)
    ensures Sound(w)
  {
    if acts == [] then Start(u) else Step(Run(u, acts[..|acts| - 1]), acts[|acts| - 1])
  }

  // ---------------------------------------------------------------------
  // The invariant of every run.

  /** How much later traffic the peer must have produced before a key is lost. */
  ghost predicate LossInv(b: Book, own: nat, side: Side, t: Track, peerAt: seq<Slot>) {
    forall i :: 0 <= i < |peerAt| && Lost(b, own, Frontier(side.ratchet, t), t.gotAt, t.keptAt, peerAt[i]) ==>
      |peerAt| - 1 - i >= MAX_SKIPPED_KEYS
  }

  ghost predicate PairInv(me: Side, peer: Side, b: Book, tm: Track, tp: Track, own: nat) {
    && own < 2
    && SideInv(me, b, tm, own) && SideInv(peer, b, tp, 1 - own)
    && LossInv(b, own, me, tm, tp.sentAt) && LossInv(b, 1 - own, peer, tp, tm.sentAt)
  }

  ghost predicate Inv(w: World, b: Book, ta: Track, tb: Track) {
    && PairInv(w.alice, w.bob, b, ta, tb, 0)
    && b.secret == w.secret
    && (forall i :: 0 <= i < |b.keys| ==> b.keys[i] < w.next)
    && Ascending(b.keys)
  }

  /** Ratchet keys are minted one after another, the first two apart. */
  predicate Ascending(keys: seq<KeyName>) {
    forall i, j :: 1 <= i < j < |keys| ==> keys[i] < keys[j]
  }

  ghost predicate Good(w: World) {
    exists b, ta, tb :: Inv(w, b, ta, tb)
  }

  lemma PairTurned(me: Side, peer: Side, b: Book, tm: Track, tp: Track, own: nat)
    requires PairInv(me, peer, b, tm, tp, own)
    ensures PairInv(peer, me, b, tp, tm, 1 - own)
  {}

  lemma StartInv(u: Fresh)
    ensures Good(Start(u))
  {
    var b := Book(u.secret, u.ad, [u.signedPrekey, u.first], [[]]);
    var ta := Track(0, [], [], []);
    var tb := Track(-1, [], [], []);
    EcdhCommutes(u.first, u.signedPrekey);
    assert RootAt(b, 1) == RootOf(RootAt(b, 0), Ecdh(u.signedPrekey, u.first));
    assert Inv(Start(u), b, ta, tb);
  }

  /** Slots in order, all after position i of an ordered list that contains them:
      the list has that many more. */
  lemma {:induction false} LaterCount(ks: seq<Slot>, all: seq<Slot>, i: nat)
    requires Sorted(ks) && Sorted(all) && i < |all|
    requires forall k :: 0 <= k < |ks| ==> ks[k] in all && Before(all[i], ks[k])
    ensures |all| - 1 - i >= |ks|
  {
    if ks != [] {
      var last := ks[|ks| - 1];
      var j :| 0 <= j < |all| && all[j] == last;
      var ks' := ks[..|ks| - 1];
      forall k | 0 <= k < |ks'|
        ensures ks'[k] in all[..j] && Before(all[i], ks'[k])
      {
        var l :| 0 <= l < |all| && all[l] == ks[k];
        assert Before(ks[k], last);
        assert l < j;
        assert all[..j][l] == ks'[k];
      }
      LaterCount(ks', all[..j], i);
    }
  }

  /** Which of the three ways a message that opens is accepted. */
  lemma Route(side: Side, b: Book, t: Track, own: nat, x: Slot, minted: KeyName)
    requires SideInv(side, b, t, own) && Theirs(b, own, x) && minted !in b.keys
    requires x in t.keptAt || !Before(x, Frontier(side.ratchet, t))
    requires Delivered(side.ratchet, MsgAt(b, x).env, minted).outcome.Ok?
    ensures x in t.keptAt
         || (x.ep == t.e - 1 && 0 <= x.n - side.ratchet.nr <= MAX_SKIP)
         || (x.ep == t.e + 1 && EpochGaps(side.ratchet, b, t.e, x))
  {
    var s := side.ratchet;
    if x !in t.keptAt {
      KeptLookup(s.skipped, b, t.keptAt, t.gotAt, own, Frontier(s, t), x);
      if x.ep == t.e - 1 {
        if x.n - s.nr > MAX_SKIP { ChainTooFar(s, b, t.e, own, x, minted); }
      } else {
        assert x.ep == t.e + 1;
        if !EpochGaps(s, b, t.e, x) { EpochTooFar(s, b, t.e, own, x, minted); }
      }
    }
  }

  /** The book after a delivery: a step into the peer's next epoch opens ours. */
  predicate BookAfter(b: Book, b': Book, own: nat, minted: KeyName) {
    b' == b || (b' == OpenEpoch(b, minted) && |b.log| % 2 == own)
  }

  /** A delivery explained: the new state against the new book. */
  ghost predicate Explains(side': Side, b: Book, t: Track, own: nat, f: Slot, minted: KeyName, b': Book, t': Track) {
    && SideInv(side', b', t', own)
    && LosesAtCap(b, own, t, f, t', Frontier(side'.ratchet, t'))
    && t'.sentAt == t.sentAt && BookAfter(b, b', own, minted)
  }

  ghost predicate Explained(side': Side, b: Book, t: Track, own: nat, f: Slot, minted: KeyName) {
    exists b', t' :: Explains(side', b, t, own, f, minted, b', t')
  }

  lemma DeliverSlot(side: Side, b: Book, t: Track, own: nat, x: Slot, minted: KeyName)
    requires SideInv(side, b, t, own) && Theirs(b, own, x) && minted !in b.keys
    requires x in t.keptAt || !Before(x, Frontier(side.ratchet, t))
    requires Delivered(side.ratchet, MsgAt(b, x).env, minted).outcome.Ok?
    ensures Explained(Receives(side, Delivered(side.ratchet, MsgAt(b, x).env, minted).state, MsgAt(b, x)),
                      b, t, own, Frontier(side.ratchet, t), minted)
  {
    Route(side, b, t, own, x, minted);
    var side' := Receives(side, Delivered(side.ratchet, MsgAt(b, x).env, minted).state, MsgAt(b, x));
    var f := Frontier(side.ratchet, t);
    if x in t.keptAt {
      var t' := DeliverKept(side, b, t, own, x, minted);
      assert Explains(side', b, t, own, f, minted, b, t');
    } else if x.ep == t.e - 1 {
      var t' := DeliverChain(side, b, t, own, x, minted);
      assert Explains(side', b, t, own, f, minted, b, t');
    } else {
      var t' := DeliverEpoch(side, b, t, own, x, minted);
      assert Explains(side', b, t, own, f, minted, OpenEpoch(b, minted), t');
    }
  }

  /** One delivery at either end. */
  lemma DeliverSide(side: Side, b: Book, t: Track, own: nat, env: Envelope, minted: KeyName)
    requires SideInv(side, b, t, own) && Presentable(b, env) && minted !in b.keys
    requires Delivered(side.ratchet, env, minted).outcome.Ok?
    ensures var d := Delivered(side.ratchet, env, minted);
            Explained(Receives(side, d.state, Msg(env, d.outcome.value)), b, t, own, Frontier(side.ratchet, t), minted)
  {
    var x := AcceptedIsGenuine(side, b, t, own, env, minted);
    DeliverSlot(side, b, t, own, x, minted);
  }

  /** A fuller map means later traffic, so the loss bound carries over. */
  lemma LossCarries(side: Side, peer: Side, b: Book, t: Track, side': Side, b': Book, t': Track, own: nat,
                    minted: KeyName,
                    peerAt: seq<Slot>)
    requires own < 2 && SideInv(side, b, t, own) && SideInv(side', b', t', own)
    requires LossInv(b, own, side, t, peerAt) && SentInv(peer.sent, b, peerAt, 1 - own)
    requires BookAfter(b, b', own, minted)
    requires LosesAtCap(b, own, t, Frontier(side.ratchet, t), t', Frontier(side'.ratchet, t'))
    ensures LossInv(b', own, side', t', peerAt)
  {
    hide StateInv, GotInv, WellBook, Bounded;
    var f, f' := Frontier(side.ratchet, t), Frontier(side'.ratchet, t');
    forall i | 0 <= i < |peerAt| && Lost(b', own, f', t'.gotAt, t'.keptAt, peerAt[i])
      ensures |peerAt| - 1 - i >= MAX_SKIPPED_KEYS
    {
      assert ValidSlot(b, peerAt[i]);
      assert Lost(b, own, f', t'.gotAt, t'.keptAt, peerAt[i]);
      if |t'.keptAt| == MAX_SKIPPED_KEYS {
        forall k | 0 <= k < |t'.keptAt|
          ensures t'.keptAt[k] in peerAt && Before(peerAt[i], t'.keptAt[k])
        {
          assert Theirs(b, own, t'.keptAt[k]);
        }
        LaterCount(t'.keptAt, peerAt, i);
      } else {
        assert Lost(b, own, f, t.gotAt, t.keptAt, peerAt[i]);
      }
    }
  }

  lemma LossOfOther(side: Side, b: Book, c: Book, t: Track, own: nat, peerAt: seq<Slot>)
    requires LossInv(b, own, side, t, peerAt)
    requires forall i :: 0 <= i < |peerAt| && ValidSlot(c, peerAt[i]) ==> ValidSlot(b, peerAt[i])
    ensures LossInv(c, own, side, t, peerAt)
  {
    forall i | 0 <= i < |peerAt| && Lost(c, own, Frontier(side.ratchet, t), t.gotAt, t.keptAt, peerAt[i])
      ensures |peerAt| - 1 - i >= MAX_SKIPPED_KEYS
    {
      assert Lost(b, own, Frontier(side.ratchet, t), t.gotAt, t.keptAt, peerAt[i]);
    }
  }

  lemma SentIsLogged(sent: seq<Msg>, b: Book, sentAt: seq<Slot>, own: nat, m: Msg)
    requires WellBook(b) && SentInv(sent, b, sentAt, own) && m in sent
    ensures exists x :: ValidSlot(b, x) && MsgAt(b, x) == m
  {
    var i :| 0 <= i < |sent| && sent[i] == m;
    assert ValidSlot(b, sentAt[i]) && MsgAt(b, sentAt[i]) == m;
  }

  lemma AppearsPresentable(w: World, b: Book, ta: Track, tb: Track, env: Envelope)
    requires Inv(w, b, ta, tb) && CanAppear(w, env)
    ensures Presentable(b, env)
  {
    if env.ct.Sealed? && DerivedFrom(env.ct.key, w.secret) {
      var m: Msg :| (m in w.alice.sent || m in w.bob.sent) && m.env.ct == env.ct;
      hide SentInv, GotInv, KeptInv, LossInv;
      if m in w.alice.sent {
        SentIsLogged(w.alice.sent, b, ta.sentAt, 0, m);
      } else {
        SentIsLogged(w.bob.sent, b, tb.sentAt, 1, m);
      }
    }
  }

  lemma SendLoss(side: Side, b: Book, c: Book, t: Track, own: nat, peerAt: seq<Slot>, x: Slot)
    requires LossInv(b, own, side, t, peerAt)
    requires !Before(x, Frontier(side.ratchet, t))
    requires forall i :: 0 <= i < |peerAt| ==> ValidSlot(b, peerAt[i])
    ensures LossInv(c, own, side, t, peerAt + [x])
  {
    var all := peerAt + [x];
    forall i | 0 <= i < |all| && Lost(c, own, Frontier(side.ratchet, t), t.gotAt, t.keptAt, all[i])
      ensures |all| - 1 - i >= MAX_SKIPPED_KEYS
    {
      assert i < |peerAt|;
      assert Lost(b, own, Frontier(side.ratchet, t), t.gotAt, t.keptAt, peerAt[i]);
    }
  }

  /** The epochs of party `own` read the same in both books. */
  predicate SameEpochs(b: Book, c: Book, own: nat) {
    forall e :: 0 <= e < |c.log| && e % 2 == own ==> e < |b.log| && c.log[e] == b.log[e]
  }

  lemma PostElsewhere(b: Book, e: nat, l: Logged, own: nat)
    requires WellBook(b) && |b.log| - 2 <= e < |b.log| && e % 2 != own
    ensures Grows(b, Post(b, e, l)) && SameEpochs(b, Post(b, e, l), own)
  {
    PostGrows(b, e, l);
  }

  lemma OpenElsewhere(b: Book, minted: KeyName, own: nat)
    requires WellBook(b) && minted !in b.keys && |b.log| % 2 != own
    ensures Grows(b, OpenEpoch(b, minted)) && SameEpochs(b, OpenEpoch(b, minted), own)
  {
    OpenEpochGrows(b, minted);
  }

  lemma PeerStable(peer: Side, b: Book, c: Book, t: Track, own: nat)
    requires SideInv(peer, b, t, own) && Grows(b, c) && SameEpochs(b, c, own) && |c.log| - 2 <= t.e
    ensures SideInv(peer, c, t, own)
  {
    SideStable(peer, b, c, t, own);
  }

  lemma NextUnseen(s: State, b: Book, t: Track, own: nat, e: nat)
    requires StateInv(s, b, t.e, own) && e < |b.log| && |b.log| - 2 <= e && e % 2 != own
    ensures !Before(Slot(e, |b.log[e]|), Frontier(s, t))
  {}

  lemma SideShape(side: Side, b: Book, t: Track, own: nat)
    requires SideInv(side, b, t, own)
    ensures WellBook(b) && |b.log| - 2 <= t.e < |b.log| && t.e % 2 == own
  {}

  lemma SendPeerSide(peer: Side, b: Book, tp: Track, own: nat, e: nat, l: Logged)
    requires own < 2 && SideInv(peer, b, tp, 1 - own)
    requires e < |b.log| && |b.log| - 2 <= e && e % 2 == own
    ensures SideInv(peer, Post(b, e, l), tp, 1 - own)
  {
    hide SideInv;
    SideShape(peer, b, tp, 1 - own);
    PostElsewhere(b, e, l, 1 - own);
    PeerStable(peer, b, Post(b, e, l), tp, 1 - own);
  }

  lemma SendPeer(peer: Side, b: Book, tp: Track, own: nat, e: nat, l: Logged, mineAt: seq<Slot>)
    requires own < 2 && SideInv(peer, b, tp, 1 - own) && LossInv(b, 1 - own, peer, tp, mineAt)
    requires e < |b.log| && |b.log| - 2 <= e && e % 2 == own
    requires forall i :: 0 <= i < |mineAt| ==> ValidSlot(b, mineAt[i])
    ensures SideInv(peer, Post(b, e, l), tp, 1 - own)
    ensures LossInv(Post(b, e, l), 1 - own, peer, tp, mineAt + [Slot(e, |b.log[e]|)])
  {
    SendPeerSide(peer, b, tp, own, e, l);
    NextUnseen(peer.ratchet, b, tp, 1 - own, e);
    SendLoss(peer, b, Post(b, e, l), tp, 1 - own, mineAt, Slot(e, |b.log[e]|));
  }

  function AfterSend(side: Side, iv: nat, plain: nat): Side
    requires side.ratchet.cks.Some?
  {
    side.(ratchet := AfterEncrypt(side.ratchet), sent := side.sent + [Msg(Outgoing(side.ratchet, iv, plain), plain)])
  }

  lemma SendPair(me: Side, peer: Side, b: Book, tm: Track, tp: Track, own: nat, iv: nat, plain: nat)
    returns (b': Book, tm': Track)
    requires PairInv(me, peer, b, tm, tp, own) && tm.e >= 0
    ensures PairInv(AfterSend(me, iv, plain), peer, b', tm', tp, own)
    ensures b'.secret == b.secret && b'.keys == b.keys
  {
    b' := Post(b, tm.e, Logged(iv, plain));
    SendPeer(peer, b, tp, own, tm.e, Logged(iv, plain), tm.sentAt);
    tm' := SendingSide(me, b, tm, own, iv, plain);
    OwnSendLoss(me, AfterSend(me, iv, plain), b, b', tm, tm', own, tp.sentAt);
  }

  lemma SendInv(w: World, b: Book, ta: Track, tb: Track, p: Party, iv: nat, plain: nat)
    requires Sound(w) && Inv(w, b, ta, tb)
    ensures Good(Step(w, Send(p, iv, plain)))
  {
    assert w.Side(p).ratchet.cks.Some? ==> (if p == Alice then ta.e >= 0 else tb.e >= 0);
    hide PairInv;
    var w' := Step(w, Send(p, iv, plain));
    if w.Side(p).ratchet.cks.None? {
      assert Inv(w', b, ta, tb);
    } else if p == Alice {
      var b', ta' := SendPair(w.alice, w.bob, b, ta, tb, 0, iv, plain);
      assert Inv(w', b', ta', tb);
    } else {
      PairTurned(w.alice, w.bob, b, ta, tb, 0);
      var b', tb' := SendPair(w.bob, w.alice, b, tb, ta, 1, iv, plain);
      PairTurned(w'.bob, w.alice, b', tb', ta, 1);
      assert Inv(w', b', ta, tb');
    }
  }

  lemma SendingSide(side: Side, b: Book, t: Track, own: nat, iv: nat, plain: nat)
    returns (t': Track)
    requires SideInv(side, b, t, own) && t.e >= 0
    ensures t' == t.(sentAt := t.sentAt + [Slot(t.e, side.ratchet.ns)])
    ensures SideInv(AfterSend(side, iv, plain), Post(b, t.e, Logged(iv, plain)), t', own)
  {
    t' := SideSends(side, b, t, own, iv, plain);
  }

  lemma OwnSendLoss(side: Side, side': Side, b: Book, c: Book, t: Track, t': Track, own: nat, peerAt: seq<Slot>)
    requires LossInv(b, own, side, t, peerAt)
    requires t'.e == t.e && t'.gotAt == t.gotAt && t'.keptAt == t.keptAt && side'.ratchet.nr == side.ratchet.nr
    requires forall i :: 0 <= i < |peerAt| ==> ValidSlot(b, peerAt[i])
    ensures LossInv(c, own, side', t', peerAt)
  {
    forall i | 0 <= i < |peerAt| && Lost(c, own, Frontier(side'.ratchet, t'), t'.gotAt, t'.keptAt, peerAt[i])
      ensures |peerAt| - 1 - i >= MAX_SKIPPED_KEYS
    {
      assert Lost(b, own, Frontier(side.ratchet, t), t.gotAt, t.keptAt, peerAt[i]);
    }
  }

  lemma OpenPeerSide(peer: Side, b: Book, tp: Track, own: nat, minted: KeyName)
    requires own < 2 && SideInv(peer, b, tp, 1 - own)
    requires |b.log| % 2 == own && minted !in b.keys
    ensures SideInv(peer, OpenEpoch(b, minted), tp, 1 - own)
  {
    hide SideInv;
    SideShape(peer, b, tp, 1 - own);
    OpenElsewhere(b, minted, 1 - own);
    PeerStable(peer, b, OpenEpoch(b, minted), tp, 1 - own);
  }

  lemma OpenPeer(peer: Side, b: Book, tp: Track, own: nat, minted: KeyName, mineAt: seq<Slot>)
    requires own < 2 && SideInv(peer, b, tp, 1 - own) && LossInv(b, 1 - own, peer, tp, mineAt)
    requires |b.log| % 2 == own && minted !in b.keys
    ensures SideInv(peer, OpenEpoch(b, minted), tp, 1 - own)
    ensures LossInv(OpenEpoch(b, minted), 1 - own, peer, tp, mineAt)
  {
    OpenPeerSide(peer, b, tp, own, minted);
    LossOfOther(peer, b, OpenEpoch(b, minted), tp, 1 - own, mineAt);
  }

  lemma DeliverOwn(me: Side, peer: Side, b: Book, t: Track, own: nat, env: Envelope, minted: KeyName, peerAt: seq<Slot>)
    returns (b': Book, t': Track)
    requires own < 2 && SideInv(me, b, t, own) && Presentable(b, env) && minted !in b.keys
    requires Delivered(me.ratchet, env, minted).outcome.Ok?
    requires LossInv(b, own, me, t, peerAt) && SentInv(peer.sent, b, peerAt, 1 - own)
    ensures var d := Delivered(me.ratchet, env, minted);
            var me' := Receives(me, d.state, Msg(env, d.outcome.value));
            SideInv(me', b', t', own) && LossInv(b', own, me', t', peerAt)
    ensures t'.sentAt == t.sentAt && BookAfter(b, b', own, minted)
  {
    DeliverSide(me, b, t, own, env, minted);
    var d := Delivered(me.ratchet, env, minted);
    var me' := Receives(me, d.state, Msg(env, d.outcome.value));
    b', t' :| Explains(me', b, t, own, Frontier(me.ratchet, t), minted, b', t');
    hide SideInv, SentInv, LossInv, LosesAtCap, BookAfter;
    LossCarries(me, peer, b, t, me', b', t', own, minted, peerAt);
  }

  lemma DeliverPair(me: Side, peer: Side, b: Book, tm: Track, tp: Track, own: nat, env: Envelope, minted: KeyName)
    returns (b': Book, tm': Track)
    requires PairInv(me, peer, b, tm, tp, own) && Presentable(b, env) && minted !in b.keys
    requires Delivered(me.ratchet, env, minted).outcome.Ok?
    ensures var d := Delivered(me.ratchet, env, minted);
            PairInv(Receives(me, d.state, Msg(env, d.outcome.value)), peer, b', tm', tp, own)
    ensures BookAfter(b, b', own, minted)
  {
    b', tm' := DeliverOwn(me, peer, b, tm, own, env, minted, tp.sentAt);
    if b' != b {
      OpenPeer(peer, b, tp, own, minted, tm.sentAt);
    }
  }

  lemma StepDelivers(w: World, p: Party, env: Envelope)
    requires Sound(w) && CanAppear(w, env)
    ensures var side := w.Side(p);
            var d := Delivered(side.ratchet, env, w.next);
            && (d.outcome.Ok? ==>
                  Step(w, Deliver(p, env)) ==
                    w.With(p, Receives(side, d.state, Msg(env, d.outcome.value))).(next := w.next + 1))
            && (d.outcome.Err? ==> Step(w, Deliver(p, env)) == w.(next := w.next + 1))
  {}

  lemma DeliverInv(w: World, b: Book, ta: Track, tb: Track, p: Party, env: Envelope)
    requires Sound(w) && Inv(w, b, ta, tb) && CanAppear(w, env)
    requires Delivered(w.Side(p).ratchet, env, w.next).outcome.Ok?
    ensures Good(Step(w, Deliver(p, env)))
  {
    hide PairInv;
    var w' := Step(w, Deliver(p, env));
    StepDelivers(w, p, env);
    AppearsPresentable(w, b, ta, tb, env);
    if p == Alice {
      var b', ta' := DeliverPair(w.alice, w.bob, b, ta, tb, 0, env, w.next);
      assert Inv(w', b', ta', tb);
    } else {
      PairTurned(w.alice, w.bob, b, ta, tb, 0);
      var b', tb' := DeliverPair(w.bob, w.alice, b, tb, ta, 1, env, w.next);
      PairTurned(w'.bob, w.alice, b', tb', ta, 1);
      assert Inv(w', b', ta, tb');
    }
  }

  lemma StepGood(w: World, act: Action)
    requires Sound(w) && Good(w)
    ensures Good(Step(w, act))
  {
    hide PairInv;
    var b, ta, tb :| Inv(w, b, ta, tb);
    match act
    case Send(p, iv, plain) => SendInv(w, b, ta, tb, p, iv, plain);
    case Deliver(p, env) =>
      if !CanAppear(w, env) {
      } else if Delivered(w.Side(p).ratchet, env, w.next).outcome.Ok? {
        DeliverInv(w, b, ta, tb, p, env);
      } else {
        StepDelivers(w, p, env);
        assert Inv(w.(next := w.next + 1), b, ta, tb);
      }
  }

  lemma {:induction false} RunGood(u: Fresh, acts: seq<Action>)
    ensures Good(Run(u, acts))
  {
    if acts == [] {
      StartInv(u);
    } else {
      RunGood(u, acts[..|acts| - 1]);
      StepGood(Run(u, acts[..|acts| - 1]), acts[|acts| - 1]);
    }
  }

  lemma AllPresentable(w: World, b: Book, ta: Track, tb: Track)
    requires Inv(w, b, ta, tb)
    ensures forall env :: CanAppear(w, env) ==> Presentable(b, env)
  {
    forall env | CanAppear(w, env)
      ensures Presentable(b, env)
    {
      AppearsPresentable(w, b, ta, tb, env);
    }
  }

  lemma RunPair(u: Fresh, acts: seq<Action>, p: Party) returns (b: Book, tm: Track, tp: Track)
    ensures var w := Run(u, acts);
            && PairInv(w.Side(p), w.Side(p.Other()), b, tm, tp, p.Own())
            && b.secret == w.secret && w.next !in b.keys
            && (forall i :: 0 <= i < |b.keys| ==> b.keys[i] < w.next) && Ascending(b.keys)
            && forall env :: CanAppear(w, env) ==> Presentable(b, env)
  {
    var w := Run(u, acts);
    RunGood(u, acts);
    var b', ta, tb :| Inv(w, b', ta, tb);
    b := b';
    AllPresentable(w, b, ta, tb);
    hide Run, SideInv, LossInv, CanAppear, Presentable, Good, Ascending;
    if p == Alice {
      tm, tp := ta, tb;
    } else {
      PairTurned(w.alice, w.bob, b, ta, tb, 0);
      tm, tp := tb, ta;
    }
  }

  // ---------------------------------------------------------------------
  // What every run guarantees.

  ghost predicate Accepted(w: World, p: Party, m: Msg) {
    m in w.Side(p).got
  }

  /** Something the peer sent after its i-th message has been accepted. */
  ghost predicate PassedOver(w: World, p: Party, i: nat) {
    var sent := w.Side(p.Other()).sent;
    exists j :: i < j < |sent| && Accepted(w, p, sent[j])
  }

  function Verdict(w: World, p: Party, env: Envelope): Result<nat, Refusal>
    requires Sound(w)
  {
    Delivered(w.Side(p).ratchet, env, w.next).outcome
  }

  /** Safety. Everything an end ever accepted was sent by its peer, under that
      header and with that plaintext, and no two acceptances share a header. */
  lemma AcceptedOnceAndGenuine(u: Fresh, acts: seq<Action>, p: Party)
    ensures var w := Run(u, acts);
            var got := w.Side(p).got;
            && (forall m :: m in got ==> m in w.Side(p.Other()).sent)
            && (forall i, j :: 0 <= i < j < |got| ==> got[i].env.header != got[j].env.header)
  {
    var w := Run(u, acts);
    var b, tm, tp := RunPair(u, acts, p);
    var me, peer := w.Side(p), w.Side(p.Other());
    hide Run;
    forall m | m in me.got
      ensures m in peer.sent
    {
      var i :| 0 <= i < |me.got| && me.got[i] == m;
      GotAt(me, b, tm, p.Own(), i);
      TheirsWasSent(me, peer, b, tm, tp, p.Own(), tm.gotAt[i]);
    }
    forall i, j | 0 <= i < j < |me.got|
      ensures me.got[i].env.header != me.got[j].env.header
    {
      GotApart(me, b, tm, p.Own(), i, j);
    }
  }

  lemma GotAt(me: Side, b: Book, t: Track, own: nat, i: nat)
    requires SideInv(me, b, t, own) && i < |me.got|
    ensures |t.gotAt| == |me.got| && Theirs(b, own, t.gotAt[i]) && me.got[i] == MsgAt(b, t.gotAt[i])
  {}

  lemma GotApart(me: Side, b: Book, t: Track, own: nat, i: nat, j: nat)
    requires SideInv(me, b, t, own) && i < j < |me.got|
    ensures me.got[i].env.header != me.got[j].env.header
  {
    GotAt(me, b, t, own, i);
    GotAt(me, b, t, own, j);
    if me.got[i].env.header == me.got[j].env.header { MsgAtInjective(b, t.gotAt[i], t.gotAt[j]); }
  }

  /** Whatever the network presents next, it opens only if it is, header, IV and
      ciphertext, an envelope the peer sent and this end has not accepted. */
  lemma OnlyGenuineOpens(u: Fresh, acts: seq<Action>, p: Party, env: Envelope)
    requires CanAppear(Run(u, acts), env) && Verdict(Run(u, acts), p, env).Ok?
    ensures var w := Run(u, acts);
            var m := Msg(env, Verdict(w, p, env).value);
            m in w.Side(p.Other()).sent && !Accepted(w, p, m)
  {
    var w := Run(u, acts);
    var b, tm, tp := RunPair(u, acts, p);
    var x := AcceptedIsGenuine(w.Side(p), b, tm, p.Own(), env, w.next);
    TheirsWasSent(w.Side(p), w.Side(p.Other()), b, tm, tp, p.Own(), x);
  }

  lemma TheirsWasSent(me: Side, peer: Side, b: Book, tm: Track, tp: Track, own: nat, x: Slot)
    requires PairInv(me, peer, b, tm, tp, own) && Theirs(b, own, x)
    ensures MsgAt(b, x) in peer.sent && (MsgAt(b, x) in me.got <==> x in tm.gotAt)
  {
    SideShape(me, b, tm, own);
    hide KeptInv, GotInv, StateInv, LossInv, Bounded, WellBook;
    var j := SentIndex(peer.sent, b, tp.sentAt, 1 - own, x);
    GotSlots(me, b, tm, own, x);
  }

  lemma SortedIndex(xs: seq<Slot>, i: nat, j: nat)
    requires Sorted(xs) && i < |xs| && j < |xs| && Before(xs[i], xs[j])
    ensures i < j
  {
  }

  lemma SentIndex(sent: seq<Msg>, b: Book, sentAt: seq<Slot>, own: nat, x: Slot) returns (j: nat)
    requires WellBook(b) && SentInv(sent, b, sentAt, own) && ValidSlot(b, x) && x.ep % 2 == own
    ensures j < |sent| == |sentAt| && sentAt[j] == x && sent[j] == MsgAt(b, x)
  {
    j :| 0 <= j < |sentAt| && sentAt[j] == x;
  }

  /** The last message taken off the receiving chain lies just before the frontier. */
  lemma LastAccepted(me: Side, b: Book, t: Track, own: nat, x: Slot)
    requires SideInv(me, b, t, own) && Theirs(b, own, x) && Before(x, Frontier(me.ratchet, t))
    ensures var last := Slot(t.e - 1, me.ratchet.nr - 1);
            Theirs(b, own, last) && last in t.gotAt && (x == last || Before(x, last))
  {}

  lemma PassedThenLater(me: Side, peer: Side, b: Book, tm: Track, tp: Track, own: nat, i: nat)
    requires PairInv(me, peer, b, tm, tp, own) && i < |peer.sent| && peer.sent[i] !in me.got
    requires Before(tp.sentAt[i], Frontier(me.ratchet, tm))
    ensures exists j :: i < j < |peer.sent| && peer.sent[j] in me.got
  {
    var x, last := tp.sentAt[i], Slot(tm.e - 1, me.ratchet.nr - 1);
    SideShape(me, b, tm, own);
    hide KeptInv, LossInv, Bounded, GotInv, StateInv, WellBook;
    LastAccepted(me, b, tm, own, x);
    var j := SentIndex(peer.sent, b, tp.sentAt, 1 - own, last);
    GotSlots(me, b, tm, own, x);
    GotSlots(me, b, tm, own, last);
    SortedIndex(tp.sentAt, i, j);
  }

  lemma LaterThenPassed(me: Side, peer: Side, b: Book, tm: Track, tp: Track, own: nat, i: nat, j: nat)
    requires PairInv(me, peer, b, tm, tp, own) && i < j < |peer.sent| && peer.sent[j] in me.got
    ensures Before(tp.sentAt[i], Frontier(me.ratchet, tm))
  {
    hide KeptInv, LossInv, Bounded, GotInv, StateInv, WellBook;
    GotSlots(me, b, tm, own, tp.sentAt[j]);
    assert Before(tp.sentAt[i], tp.sentAt[j]);
  }

  /** Passing over, read off the shared history. */
  lemma PassedOverSlots(me: Side, peer: Side, b: Book, tm: Track, tp: Track, own: nat, i: nat)
    requires PairInv(me, peer, b, tm, tp, own) && i < |peer.sent|
    ensures peer.sent[i] in me.got <==> tp.sentAt[i] in tm.gotAt
    ensures peer.sent[i] !in me.got ==>
              (Before(tp.sentAt[i], Frontier(me.ratchet, tm)) <==>
               exists j :: i < j < |peer.sent| && peer.sent[j] in me.got)
  {
    GotSlots(me, b, tm, own, tp.sentAt[i]);
    hide SideInv, LossInv;
    if Before(tp.sentAt[i], Frontier(me.ratchet, tm)) && peer.sent[i] !in me.got {
      PassedThenLater(me, peer, b, tm, tp, own, i);
    }
    forall j | i < j < |peer.sent| && peer.sent[j] in me.got
      ensures Before(tp.sentAt[i], Frontier(me.ratchet, tm))
    {
      LaterThenPassed(me, peer, b, tm, tp, own, i, j);
    }
  }

  lemma GotSlots(me: Side, b: Book, t: Track, own: nat, x: Slot)
    requires SideInv(me, b, t, own) && ValidSlot(b, x)
    ensures MsgAt(b, x) in me.got <==> x in t.gotAt
    ensures x in t.gotAt ==> Before(x, Frontier(me.ratchet, t))
  {
    if MsgAt(b, x) in me.got {
      var i :| 0 <= i < |me.got| && me.got[i] == MsgAt(b, x);
      MsgAtInjective(b, t.gotAt[i], x);
    }
    if x in t.gotAt {
      var i :| 0 <= i < |t.gotAt| && t.gotAt[i] == x;
      assert me.got[i] == MsgAt(b, x);
    }
  }

  /** Progress, exactly. The i-th message of the peer opens on delivery, with its
      own plaintext, if and only if it was not accepted before and: when passed
      over, its key is still held; otherwise, the jumps its header asks for are
      within MAX_SKIP. */
  lemma GenuineOpensExactlyWhen(u: Fresh, acts: seq<Action>, p: Party, i: nat)
    requires i < |Run(u, acts).Side(p.Other()).sent|
    ensures var w := Run(u, acts);
            var m := w.Side(p.Other()).sent[i];
            var v := Verdict(w, p, m.env);
            var s := w.Side(p).ratchet;
            && (v.Ok? <==>
                  && !Accepted(w, p, m)
                  && (if PassedOver(w, p, i) then Has(s.skipped, SkipId(m.env.header.dh, m.env.header.n))
                      else GapsWithin(s, m.env.header)))
            && (v.Ok? ==> v.value == m.plain)
  {
    var w := Run(u, acts);
    var b, tm, tp := RunPair(u, acts, p);
    var me, peer := w.Side(p), w.Side(p.Other());
    var x := tp.sentAt[i];
    GenuineVerdict(me, b, tm, p.Own(), x, w.next);
    PassedOverSlots(me, peer, b, tm, tp, p.Own(), i);
    SentAppears(w, p.Other(), i);
    if Verdict(w, p, peer.sent[i].env).Ok? {
      var y := AcceptedIsGenuine(me, b, tm, p.Own(), peer.sent[i].env, w.next);
      MsgAtInjective(b, x, y);
    }
  }

  lemma SentAppears(w: World, p: Party, i: nat)
    requires i < |w.Side(p).sent|
    ensures CanAppear(w, w.Side(p).sent[i].env)
  {
    var m := w.Side(p).sent[i];
    assert m in w.alice.sent || m in w.bob.sent;
  }

  /** The key of this message is stored as skipped. */
  predicate StillStored(me: Side, m: Msg) {
    Has(me.ratchet.skipped, SkipId(m.env.header.dh, m.env.header.n))
  }

  /** A passed-over message is lost only to eviction, oldest first: every key
      still held belongs to a later message, and the peer has sent at least
      MAX_SKIPPED_KEYS messages after it. */
  lemma LostOnlyToLaterTraffic(u: Fresh, acts: seq<Action>, p: Party, i: nat)
    requires i < |Run(u, acts).Side(p.Other()).sent|
    requires var w := Run(u, acts);
             var m := w.Side(p.Other()).sent[i];
             && PassedOver(w, p, i) && !Accepted(w, p, m) && Verdict(w, p, m.env).Err?
    ensures var w := Run(u, acts);
            var sent := w.Side(p.Other()).sent;
            && |sent| - 1 - i >= MAX_SKIPPED_KEYS
            && (forall j :: 0 <= j < |sent| && StillStored(w.Side(p), sent[j]) ==> i < j)
  {
    var w := Run(u, acts);
    var b, tm, tp := RunPair(u, acts, p);
    var me, peer := w.Side(p), w.Side(p.Other());
    var f := Frontier(me.ratchet, tm);
    var x := tp.sentAt[i];
    GenuineOpensExactlyWhen(u, acts, p, i);
    PassedOverSlots(me, peer, b, tm, tp, p.Own(), i);
    KeptLookup(me.ratchet.skipped, b, tm.keptAt, tm.gotAt, p.Own(), f, x);
    LostSlot(me, peer, b, tm, tp, p.Own(), i);
  }

  lemma LostSlot(me: Side, peer: Side, b: Book, tm: Track, tp: Track, own: nat, i: nat)
    requires PairInv(me, peer, b, tm, tp, own) && i < |peer.sent|
    requires Lost(b, own, Frontier(me.ratchet, tm), tm.gotAt, tm.keptAt, tp.sentAt[i])
    ensures |peer.sent| - 1 - i >= MAX_SKIPPED_KEYS
    ensures forall j :: 0 <= j < |peer.sent| && StillStored(me, peer.sent[j]) ==> i < j
  {
    assert |tp.sentAt| == |peer.sent|;
    hide SideInv;
    forall j | 0 <= j < |peer.sent| && StillStored(me, peer.sent[j])
      ensures i < j
    {
      LostBeforeStored(me, peer, b, tm, tp, own, i, j);
    }
  }

  lemma LostBeforeStored(me: Side, peer: Side, b: Book, tm: Track, tp: Track, own: nat, i: nat, j: nat)
    requires PairInv(me, peer, b, tm, tp, own) && i < |peer.sent| && j < |peer.sent| && StillStored(me, peer.sent[j])
    requires Lost(b, own, Frontier(me.ratchet, tm), tm.gotAt, tm.keptAt, tp.sentAt[i])
    ensures i < j
  {
    SideShape(me, b, tm, own);
    hide GotInv, StateInv, LossInv, Bounded, WellBook;
    KeptLookup(me.ratchet.skipped, b, tm.keptAt, tm.gotAt, own, Frontier(me.ratchet, tm), tp.sentAt[j]);
    var k :| 0 <= k < |tm.keptAt| && tm.keptAt[k] == tp.sentAt[j];
    assert Before(tp.sentAt[i], tm.keptAt[k]);
    SortedIndex(tp.sentAt, i, j);
  }
}
