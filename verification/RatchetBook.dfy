/** The one history both ends of a Double Ratchet conversation share: the
    ratchet keys in the order they were introduced and, for every sending epoch,
    the messages sent in it. Epoch e is sealed under the chain that hangs off the
    X25519 exchange of keys e and e + 1; even epochs belong to the initiator, odd
    ones to the responder. */
module RatchetBook {
  import opened SymbolicCrypto
  import opened DoubleRatchet

  datatype Msg = Msg(env: Envelope, plain: nat)

  datatype Logged = Logged(iv: nat, plain: nat)

  datatype Book = Book(secret: Term, ad: Binding, keys: seq<KeyName>, log: seq<seq<Logged>>)

  /** Message number n of sending epoch ep. */
  datatype Slot = Slot(ep: int, n: int)

  predicate Before(x: Slot, y: Slot) {
    x.ep < y.ep || (x.ep == y.ep && x.n < y.n)
  }

  predicate WellBook(b: Book) {
    |b.log| >= 1 && |b.keys| == |b.log| + 1 && Distinct(b.keys)
  }

  predicate ValidSlot(b: Book, x: Slot) {
    0 <= x.ep < |b.log| && 0 <= x.n < |b.log[x.ep]|
  }

  function RootAt(b: Book, e: nat): Term
    requires e < |b.keys|
  {
    if e == 0 then b.secret else RootOf(RootAt(b, e - 1), Ecdh(b.keys[e - 1], b.keys[e]))
  }

  function ChainAt(b: Book, e: nat, n: nat): Term
    requires e + 1 < |b.keys|
  {
    Ratcheted(ChainOf(RootAt(b, e), Ecdh(b.keys[e], b.keys[e + 1])), n)
  }

  function KeyAt(b: Book, e: nat, n: nat): Term
    requires e + 1 < |b.keys|
  {
    MessageKey(ChainAt(b, e, n))
  }

  /** How many messages the sender of epoch ep sent in its previous epoch. */
  function PnOf(b: Book, ep: nat): nat
    requires ep < |b.log|
  {
    if ep >= 2 then |b.log[ep - 2]| else 0
  }

  function IdAt(b: Book, x: Slot): SkipId
    requires 0 <= x.ep && x.ep + 1 < |b.keys|
  {
    SkipId(Canonical(b.keys[x.ep + 1]), x.n)
  }

  function MsgAt(b: Book, x: Slot): Msg
    requires WellBook(b) && ValidSlot(b, x)
  {
    var l := b.log[x.ep][x.n];
    var h := Header(Canonical(b.keys[x.ep + 1]), PnOf(b, x.ep), x.n);
    Msg(Envelope(h, l.iv, Sealed(KeyAt(b, x.ep, x.n), l.iv, Ad(b.ad, h), l.plain)), l.plain)
  }

  lemma MsgAtInjective(b: Book, x: Slot, y: Slot)
    requires WellBook(b) && ValidSlot(b, x) && ValidSlot(b, y)
    requires MsgAt(b, x).env.header == MsgAt(b, y).env.header
    ensures x == y
  {}

  lemma {:induction false} RootHeight(b: Book, e: nat)
    requires e < |b.keys|
    ensures Height(RootAt(b, e)) == Height(b.secret) + e
    ensures DerivedFrom(RootAt(b, e), b.secret)
  {
    if e > 0 { RootHeight(b, e - 1); }
  }

  lemma KeyDerived(b: Book, e: nat, d: Term, n: nat)
    requires e < |b.keys|
    ensures DerivedFrom(MessageKey(Ratcheted(ChainOf(RootAt(b, e), d), n)), b.secret)
  {
    RootHeight(b, e);
    RatchetedDerived(ChainOf(RootAt(b, e), d), n, b.secret);
  }

  /** A key reached from the root of epoch e, whatever exchange it came from, is
      the key of a logged message only if it is that very message's key. */
  lemma KeySeparation(b: Book, e: nat, d: Term, n: nat, x: Slot)
    requires WellBook(b) && ValidSlot(b, x) && e < |b.keys|
    requires MessageKey(Ratcheted(ChainOf(RootAt(b, e), d), n)) == KeyAt(b, x.ep, x.n)
    ensures x.ep == e && x.n == n && d == Ecdh(b.keys[x.ep], b.keys[x.ep + 1])
  {
    ChainsDisjoint(RootAt(b, e), d, n, RootAt(b, x.ep), Ecdh(b.keys[x.ep], b.keys[x.ep + 1]), x.n);
    RootHeight(b, e);
    RootHeight(b, x.ep);
  }

  // ---------------------------------------------------------------------
  // The book only grows, and what is written in it does not change.

  predicate Grows(b: Book, c: Book) {
    && WellBook(b) && WellBook(c)
    && c.secret == b.secret && c.ad == b.ad
    && b.keys <= c.keys
    && (forall e :: 0 <= e < |b.log| ==> b.log[e] <= c.log[e])
    && (forall e :: 0 <= e < |b.log| - 2 ==> c.log[e] == b.log[e])
  }

  lemma {:induction false} RootStable(b: Book, c: Book, e: nat)
    requires c.secret == b.secret && b.keys <= c.keys && e < |b.keys|
    ensures RootAt(c, e) == RootAt(b, e)
  {
    if e > 0 { RootStable(b, c, e - 1); }
  }

  lemma GrowsStable(b: Book, c: Book, x: Slot)
    requires Grows(b, c) && ValidSlot(b, x)
    ensures ValidSlot(c, x) && MsgAt(c, x) == MsgAt(b, x)
    ensures IdAt(c, x) == IdAt(b, x) && KeyAt(c, x.ep, x.n) == KeyAt(b, x.ep, x.n)
  {
    RootStable(b, c, x.ep);
  }

  function Post(b: Book, e: nat, l: Logged): Book
    requires e < |b.log|
  {
    b.(log := b.log[e := b.log[e] + [l]])
  }

  function OpenEpoch(b: Book, key: KeyName): Book {
    b.(keys := b.keys + [key], log := b.log + [[]])
  }

  lemma PostGrows(b: Book, e: nat, l: Logged)
    requires WellBook(b) && |b.log| - 2 <= e < |b.log|
    ensures Grows(b, Post(b, e, l))
  {}

  lemma OpenEpochGrows(b: Book, key: KeyName)
    requires WellBook(b) && key !in b.keys
    ensures Grows(b, OpenEpoch(b, key))
  {}
}
