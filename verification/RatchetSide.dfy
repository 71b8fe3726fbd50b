/** One end of the conversation, read against the shared history. */
module RatchetSide {
  import opened SymbolicCrypto
  import opened DoubleRatchet
  import opened RatchetBook

  datatype Side = Side(ratchet: State, sent: seq<Msg>, got: seq<Msg>)

  /** Where this end is: its sending epoch, and the slots of what it sent, what
      it accepted and what it still holds a skipped key for. */
  datatype Track = Track(e: int, sentAt: seq<Slot>, gotAt: seq<Slot>, keptAt: seq<Slot>)

  /** Messages of the peer before the frontier have been consumed or passed over. */
  function Frontier(s: State, t: Track): Slot {
    Slot(t.e - 1, s.nr)
  }

  predicate Theirs(b: Book, own: nat, x: Slot) {
    ValidSlot(b, x) && x.ep % 2 != own
  }

  predicate Behind(b: Book, own: nat, f: Slot, x: Slot) {
    Theirs(b, own, x) && Before(x, f)
  }

  /** Passed over, never accepted, and no key held for it any more. */
  predicate Lost(b: Book, own: nat, f: Slot, gotAt: seq<Slot>, keptAt: seq<Slot>, x: Slot) {
    Behind(b, own, f, x) && x !in gotAt && x !in keptAt
  }

  predicate Sorted(xs: seq<Slot>) {
    forall i, j :: 0 <= i < j < |xs| ==> Before(xs[i], xs[j])
  }

  predicate StateInv(s: State, b: Book, e: int, own: nat) {
    && WellBook(b) && own < 2
    && -1 <= e < |b.log| && |b.log| - 2 <= e && e % 2 == own
    && s.ad == b.ad
    && s.dhs == b.keys[e + 1]
    && s.root == RootAt(b, e + 1)
    && s.dhr == (if e >= 0 then Some(b.keys[e]) else None)
    && s.cks == (if e >= 0 then Some(ChainAt(b, e, s.ns)) else None)
    && s.ckr == (if e >= 1 then Some(ChainAt(b, e - 1, s.nr)) else None)
    && s.ns == (if e >= 0 then |b.log[e]| else 0)
    && s.pn == (if e >= 2 then |b.log[e - 2]| else 0)
    && (if e >= 1 then 1 <= s.nr <= |b.log[e - 1]| else s.nr == 0)
  }

  ghost predicate SentInv(sent: seq<Msg>, b: Book, sentAt: seq<Slot>, own: nat)
    requires WellBook(b)
  {
    && |sentAt| == |sent| && Sorted(sentAt)
    && (forall i :: 0 <= i < |sent| ==>
          ValidSlot(b, sentAt[i]) && sentAt[i].ep % 2 == own && sent[i] == MsgAt(b, sentAt[i]))
    && (forall x :: ValidSlot(b, x) && x.ep % 2 == own ==> x in sentAt)
  }

  ghost predicate GotInv(got: seq<Msg>, b: Book, gotAt: seq<Slot>, own: nat, f: Slot)
    requires WellBook(b)
  {
    && |gotAt| == |got| && Distinct(gotAt)
    && (forall i :: 0 <= i < |got| ==> Behind(b, own, f, gotAt[i]) && got[i] == MsgAt(b, gotAt[i]))
  }

  /** The skipped map holds exactly the right keys, oldest first, and whatever
      was lost to eviction is older than everything still held. */
  ghost predicate KeptInv(m: seq<Entry>, b: Book, keptAt: seq<Slot>, gotAt: seq<Slot>, own: nat, f: Slot)
    requires WellBook(b)
  {
    && |keptAt| == |m| && Sorted(keptAt)
    && (forall i :: 0 <= i < |m| ==>
          Behind(b, own, f, keptAt[i]) && keptAt[i] !in gotAt &&
          m[i] == Entry(IdAt(b, keptAt[i]), KeyAt(b, keptAt[i].ep, keptAt[i].n)))
    && (keptAt != [] ==> forall x :: Lost(b, own, f, gotAt, keptAt, x) ==> Before(x, keptAt[0]))
  }

  ghost predicate SideInv(side: Side, b: Book, t: Track, own: nat) {
    && StateInv(side.ratchet, b, t.e, own)
    && Bounded(side.ratchet)
    && SentInv(side.sent, b, t.sentAt, own)
    && GotInv(side.got, b, t.gotAt, own, Frontier(side.ratchet, t))
    && KeptInv(side.ratchet.skipped, b, t.keptAt, t.gotAt, own, Frontier(side.ratchet, t))
    && (t.e >= 1 ==> Slot(t.e - 1, side.ratchet.nr - 1) in t.gotAt)
  }

  // ---------------------------------------------------------------------
  // Finding a skipped key.

  lemma IndexOfFirst(m: seq<Entry>, id: SkipId, i: nat)
    requires i < |m| && m[i].id == id
    ensures Has(m, id)
  {}

  lemma KeptLookup(m: seq<Entry>, b: Book, keptAt: seq<Slot>, gotAt: seq<Slot>, own: nat, f: Slot, x: Slot)
    requires WellBook(b) && KeptInv(m, b, keptAt, gotAt, own, f) && ValidSlot(b, x)
    ensures Has(m, IdAt(b, x)) <==> x in keptAt
    ensures x in keptAt ==> keptAt[IndexOf(m, IdAt(b, x))] == x
  {
    var i := IndexOf(m, IdAt(b, x));
    if i < |m| {
      assert keptAt[i] == x;
    }
    if x in keptAt {
      var j :| 0 <= j < |keptAt| && keptAt[j] == x;
      IndexOfFirst(m, IdAt(b, x), j);
    }
  }

  // ---------------------------------------------------------------------
  // Skipping forward on the receiving chain.

  lemma {:induction false} AdvancedKept(s: State, b: Book, keptAt: seq<Slot>, gotAt: seq<Slot>, own: nat, ep: nat,
                                        until: nat)
    returns (keptAt': seq<Slot>)
    requires WellBook(b) && ep < |b.log| && ep % 2 != own
    requires s.dhr == Some(b.keys[ep + 1]) && s.ckr == Some(ChainAt(b, ep, s.nr))
    requires s.nr <= until <= |b.log[ep]|
    requires KeptInv(s.skipped, b, keptAt, gotAt, own, Slot(ep, s.nr))
    requires forall x :: x in gotAt ==> Before(x, Slot(ep, s.nr))
    ensures var t := Advanced(s, until);
            && t == s.(ckr := Some(ChainAt(b, ep, until)), nr := until, skipped := t.skipped)
            && KeptInv(t.skipped, b, keptAt', gotAt, own, Slot(ep, until))
    ensures |keptAt| <= |keptAt'|
    ensures forall x :: Lost(b, own, Slot(ep, until), gotAt, keptAt', x) ==>
              Lost(b, own, Slot(ep, s.nr), gotAt, keptAt, x)
    decreases until - s.nr
  {
    if s.nr == until {
      keptAt' := keptAt;
    } else {
      var x := Slot(ep, s.nr);
      KeptLookup(s.skipped, b, keptAt, gotAt, own, x, x);
      assert x !in keptAt;
      var s' := s.(ckr := Some(NextChain(s.ckr.value)),
                   skipped := s.skipped + [Entry(IdAt(b, x), KeyAt(b, ep, s.nr))],
                   nr := s.nr + 1);
      assert KeptInv(s'.skipped, b, keptAt + [x], gotAt, own, Slot(ep, s'.nr)) by {
        KeptExtend(s.skipped, b, keptAt, gotAt, own, x);
      }
      keptAt' := AdvancedKept(s', b, keptAt + [x], gotAt, own, ep, until);
    }
  }

  lemma KeptExtend(m: seq<Entry>, b: Book, keptAt: seq<Slot>, gotAt: seq<Slot>, own: nat, x: Slot)
    requires WellBook(b) && Theirs(b, own, x) && x !in gotAt
    requires KeptInv(m, b, keptAt, gotAt, own, x)
    ensures KeptInv(m + [Entry(IdAt(b, x), KeyAt(b, x.ep, x.n))], b, keptAt + [x], gotAt, own, Slot(x.ep, x.n + 1))
    ensures forall y :: Lost(b, own, Slot(x.ep, x.n + 1), gotAt, keptAt + [x], y) ==> Lost(b, own, x, gotAt, keptAt, y)
  {
    var k := keptAt + [x];
    var g := Slot(x.ep, x.n + 1);
    forall y | Lost(b, own, g, gotAt, k, y)
      ensures Lost(b, own, x, gotAt, keptAt, y)
    {
      assert y != k[|keptAt|];
      assert y !in keptAt;
      assert keptAt == [] ==> Before(y, x);
    }
    assert Sorted(k);
    var m' := m + [Entry(IdAt(b, x), KeyAt(b, x.ep, x.n))];
    forall i | 0 <= i < |m'|
      ensures Behind(b, own, g, k[i]) && k[i] !in gotAt && m'[i] == Entry(IdAt(b, k[i]), KeyAt(b, k[i].ep, k[i].n))
    {
      assert i < |m| ==> Behind(b, own, x, keptAt[i]);
    }
  }

  lemma KeptEvict(m: seq<Entry>, b: Book, keptAt: seq<Slot>, gotAt: seq<Slot>, own: nat, f: Slot, drop: nat)
    requires WellBook(b) && KeptInv(m, b, keptAt, gotAt, own, f) && drop <= |m|
    ensures KeptInv(m[drop..], b, keptAt[drop..], gotAt, own, f)
  {
    var k := keptAt[drop..];
    forall x | Lost(b, own, f, gotAt, k, x) && k != []
      ensures Before(x, k[0])
    {
      assert k[0] == keptAt[drop];
      if x in keptAt {
        var j :| 0 <= j < |keptAt| && keptAt[j] == x;
        assert forall l :: drop <= l < |keptAt| ==> keptAt[l] == k[l - drop];
        assert j < drop;
      } else {
        assert Lost(b, own, f, gotAt, keptAt, x);
      }
    }
  }

  /** Going from one frontier to a later one loses a key only by filling the map. */
  ghost predicate LossAtCap(b: Book, own: nat, gotAt: seq<Slot>, keptAt: seq<Slot>, f: Slot, keptAt': seq<Slot>,
                            f': Slot) {
    |keptAt'| == MAX_SKIPPED_KEYS ||
    forall x :: Lost(b, own, f', gotAt, keptAt', x) ==> Lost(b, own, f, gotAt, keptAt, x)
  }

  /** Skipping to a message the peer really sent: nothing but the chain, the
      counter and the skipped map moves, and the map stays right. */
  lemma SkipKept(s: State, b: Book, keptAt: seq<Slot>, gotAt: seq<Slot>, own: nat, ep: nat, until: nat)
    returns (keptAt': seq<Slot>)
    requires WellBook(b) && ep < |b.log| && ep % 2 != own
    requires s.dhr == Some(b.keys[ep + 1]) && s.ckr == Some(ChainAt(b, ep, s.nr))
    requires s.nr <= until <= |b.log[ep]| && until - s.nr <= MAX_SKIP
    requires KeptInv(s.skipped, b, keptAt, gotAt, own, Slot(ep, s.nr))
    requires forall x :: x in gotAt ==> Before(x, Slot(ep, s.nr))
    ensures Skip(s, until).Ok?
    ensures var t := Skip(s, until).value;
            && t == s.(ckr := Some(ChainAt(b, ep, until)), nr := until, skipped := t.skipped)
            && KeptInv(t.skipped, b, keptAt', gotAt, own, Slot(ep, until))
    ensures |s.skipped| <= MAX_SKIPPED_KEYS ==> |s.skipped| <= |keptAt'| <= MAX_SKIPPED_KEYS
    ensures LossAtCap(b, own, gotAt, keptAt, Slot(ep, s.nr), keptAt', Slot(ep, until))
  {
    keptAt' := AdvancedKept(s, b, keptAt, gotAt, own, ep, until);
    var m := Advanced(s, until).skipped;
    var drop := |m| - |Evict(m)|;
    assert Evict(m) == m[drop..];
    KeptEvict(m, b, keptAt', gotAt, own, Slot(ep, until), drop);
    keptAt' := keptAt'[drop..];
  }

  /** One delivery loses a key only by filling the map. */
  ghost predicate LosesAtCap(b: Book, own: nat, t: Track, f: Slot, t': Track, f': Slot) {
    |t'.keptAt| == MAX_SKIPPED_KEYS ||
    forall x :: Lost(b, own, f', t'.gotAt, t'.keptAt, x) ==> Lost(b, own, f, t.gotAt, t.keptAt, x)
  }

  // ---------------------------------------------------------------------
  // The book growing elsewhere does not disturb this end.

  lemma {:induction false} RecordsStable(side: Side, b: Book, c: Book, t: Track, own: nat)
    requires WellBook(b) && Grows(b, c) && own < 2
    requires var f := Frontier(side.ratchet, t);
             && GotInv(side.got, b, t.gotAt, own, f)
             && KeptInv(side.ratchet.skipped, b, t.keptAt, t.gotAt, own, f)
             && forall x :: Behind(c, own, f, x) ==> ValidSlot(b, x)
    ensures var f := Frontier(side.ratchet, t);
            && GotInv(side.got, c, t.gotAt, own, f)
            && KeptInv(side.ratchet.skipped, c, t.keptAt, t.gotAt, own, f)
  {
    forall x | ValidSlot(b, x)
      ensures ValidSlot(c, x) && MsgAt(c, x) == MsgAt(b, x) && IdAt(c, x) == IdAt(b, x) &&
              KeyAt(c, x.ep, x.n) == KeyAt(b, x.ep, x.n)
    {
      GrowsStable(b, c, x);
    }
    forall x | Lost(c, own, Frontier(side.ratchet, t), t.gotAt, t.keptAt, x)
      ensures Lost(b, own, Frontier(side.ratchet, t), t.gotAt, t.keptAt, x)
    {}
  }

  lemma StateStable(s: State, b: Book, c: Book, e: int, own: nat)
    requires StateInv(s, b, e, own) && Grows(b, c) && |c.log| - 2 <= e
    requires e >= 0 ==> c.log[e] == b.log[e]
    ensures StateInv(s, c, e, own)
  {
    RootStable(b, c, e + 1);
    if e >= 0 { RootStable(b, c, e); }
    if e >= 1 { RootStable(b, c, e - 1); }
  }

  lemma SideStable(side: Side, b: Book, c: Book, t: Track, own: nat)
    requires SideInv(side, b, t, own) && Grows(b, c) && |c.log| - 2 <= t.e
    requires forall e :: 0 <= e < |c.log| && e % 2 == own ==> e < |b.log| && c.log[e] == b.log[e]
    ensures SideInv(side, c, t, own)
  {
    StateStable(side.ratchet, b, c, t.e, own);
    RecordsStable(side, b, c, t, own);
    forall x | ValidSlot(b, x)
      ensures ValidSlot(c, x) && MsgAt(c, x) == MsgAt(b, x)
    {
      GrowsStable(b, c, x);
    }
    assert forall x :: ValidSlot(c, x) && x.ep % 2 == own ==> ValidSlot(b, x);
  }

  // ---------------------------------------------------------------------
  // Sending.

  lemma StateSends(s: State, b: Book, e: int, own: nat, iv: nat, plain: nat)
    requires StateInv(s, b, e, own) && e >= 0
    ensures var c := Post(b, e, Logged(iv, plain));
            && StateInv(AfterEncrypt(s), c, e, own)
            && ValidSlot(c, Slot(e, s.ns))
            && Msg(Outgoing(s, iv, plain), plain) == MsgAt(c, Slot(e, s.ns))
  {
    var c := Post(b, e, Logged(iv, plain));
    PostGrows(b, e, Logged(iv, plain));
    RootStable(b, c, e + 1);
    RootStable(b, c, e);
    if e >= 1 { RootStable(b, c, e - 1); }
  }

  lemma SentExtend(sent: seq<Msg>, b: Book, c: Book, sentAt: seq<Slot>, own: nat, x: Slot)
    requires WellBook(b) && Grows(b, c) && SentInv(sent, b, sentAt, own)
    requires ValidSlot(c, x) && x.ep % 2 == own
    requires forall y :: ValidSlot(c, y) && y.ep % 2 == own ==> y == x || ValidSlot(b, y)
    requires forall y :: ValidSlot(b, y) && y.ep % 2 == own ==> Before(y, x)
    ensures SentInv(sent + [MsgAt(c, x)], c, sentAt + [x], own)
  {
    forall y | ValidSlot(b, y)
      ensures ValidSlot(c, y) && MsgAt(c, y) == MsgAt(b, y)
    {
      GrowsStable(b, c, y);
    }
    assert (sentAt + [x])[|sentAt|] == x;
  }

  lemma NextSlotIsLast(s: State, b: Book, e: int, own: nat, l: Logged)
    requires StateInv(s, b, e, own) && e >= 0
    ensures forall y :: ValidSlot(Post(b, e, l), y) && y.ep % 2 == own ==> y == Slot(e, s.ns) || ValidSlot(b, y)
    ensures forall y :: ValidSlot(b, y) && y.ep % 2 == own ==> Before(y, Slot(e, s.ns))
  {}

  /** Sending posts the next message of our epoch and nothing else. */
  lemma SideSends(side: Side, b: Book, t: Track, own: nat, iv: nat, plain: nat)
    returns (t': Track)
    requires SideInv(side, b, t, own) && t.e >= 0
    ensures t' == t.(sentAt := t.sentAt + [Slot(t.e, side.ratchet.ns)])
    ensures var m := Msg(Outgoing(side.ratchet, iv, plain), plain);
            SideInv(Side(AfterEncrypt(side.ratchet), side.sent + [m], side.got),
                    Post(b, t.e, Logged(iv, plain)), t', own)
  {
    var s := side.ratchet;
    var c := Post(b, t.e, Logged(iv, plain));
    var x := Slot(t.e, s.ns);
    PostGrows(b, t.e, Logged(iv, plain));
    StateSends(s, b, t.e, own, iv, plain);
    NextSlotIsLast(s, b, t.e, own, Logged(iv, plain));
    hide StateInv, KeptInv, GotInv, WellBook, Grows, Post, Bounded, ValidSlot;
    SentExtend(side.sent, b, c, t.sentAt, own, x);
    RecordsStable(side, b, c, t, own);
    t' := t.(sentAt := t.sentAt + [x]);
  }
}
