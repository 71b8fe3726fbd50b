/** Forward secrecy of the Double Ratchet, in every run. */
module RatchetSecrecy {
  import opened SymbolicCrypto
  import opened DoubleRatchet
  import opened RatchetBook
  import opened RatchetSide
  import opened RatchetReceive
  import opened RatchetRuns

  function Held(o: Option<Term>): set<Term> {
    if o.Some? then {o.value} else {}
  }

  /** Every key-bearing field of a ratchet, as somebody copying it would see it. */
  function StateTerms(s: State): set<Term> {
    {s.root} + Held(s.cks) + Held(s.ckr) + set i | 0 <= i < |s.skipped| :: s.skipped[i].key
  }

  /** The root keys of epochs already entered cannot be recovered. */
  lemma {:induction false} RootGone(s: State, b: Book, t: Track, own: nat, f: Slot, privs: set<KeyName>, e: nat)
    requires StateInv(s, b, t.e, own) && KeptInv(s.skipped, b, t.keptAt, t.gotAt, own, f)
    requires !Computable(StateTerms(s), privs, b.secret)
    requires e <= t.e
    ensures !Computable(StateTerms(s), privs, RootAt(b, e))
  {
    RootHeight(b, e);
    RootHeight(b, t.e + 1);
    if e > 0 {
      RootGone(s, b, t, own, f, privs, e - 1);
    }
  }

  /** Nor can a chain key before the current index, on either chain. */
  lemma {:induction false} ChainGone(s: State, b: Book, t: Track, own: nat, f: Slot, privs: set<KeyName>, e: nat,
                                     n: nat)
    requires StateInv(s, b, t.e, own) && KeptInv(s.skipped, b, t.keptAt, t.gotAt, own, f)
    requires !Computable(StateTerms(s), privs, b.secret)
    requires e <= t.e && (e == t.e ==> n < s.ns) && (e == t.e - 1 ==> n < s.nr)
    ensures !Computable(StateTerms(s), privs, ChainAt(b, e, n))
  {
    var d := Ecdh(b.keys[e], b.keys[e + 1]);
    if ChainAt(b, e, n) in StateTerms(s) {
      ChainNotHeld(s, b, t, own, f, e, n);
    }
    if n == 0 {
      RootGone(s, b, t, own, f, privs, e);
    } else {
      ChainGone(s, b, t, own, f, privs, e, n - 1);
    }
  }

  lemma ChainNotHeld(s: State, b: Book, t: Track, own: nat, f: Slot, e: nat, n: nat)
    requires StateInv(s, b, t.e, own) && KeptInv(s.skipped, b, t.keptAt, t.gotAt, own, f)
    requires e <= t.e && (e == t.e ==> n < s.ns) && (e == t.e - 1 ==> n < s.nr)
    ensures ChainAt(b, e, n) !in StateTerms(s)
  {
    RootHeight(b, e);
    if s.cks == Some(ChainAt(b, e, n)) {
      RootHeight(b, t.e);
      ChainsDisjoint(RootAt(b, e), Ecdh(b.keys[e], b.keys[e + 1]), n,
                     RootAt(b, t.e), Ecdh(b.keys[t.e], b.keys[t.e + 1]), s.ns);
    }
    if s.ckr == Some(ChainAt(b, e, n)) {
      RootHeight(b, t.e - 1);
      ChainsDisjoint(RootAt(b, e), Ecdh(b.keys[e], b.keys[e + 1]), n,
                     RootAt(b, t.e - 1), Ecdh(b.keys[t.e - 1], b.keys[t.e]), s.nr);
    }
    ChainIsNoRoot(RootAt(b, e), Ecdh(b.keys[e], b.keys[e + 1]), n);
    ChainIsNoRoot(b.secret, b.secret, 0);
  }

  lemma {:induction false} ChainIsNoRoot(r: Term, d: Term, n: nat)
    ensures !Ratcheted(ChainOf(r, d), n).RootOf? && !Ratcheted(ChainOf(r, d), n).MessageKey?
  {
    if n > 0 { ChainIsNoRoot(r, d, n - 1); }
  }

  lemma KeyGone(s: State, b: Book, t: Track, own: nat, f: Slot, privs: set<KeyName>, x: Slot)
    requires StateInv(s, b, t.e, own) && KeptInv(s.skipped, b, t.keptAt, t.gotAt, own, f)
    requires !Computable(StateTerms(s), privs, b.secret)
    requires ValidSlot(b, x) && x !in t.keptAt
    requires x.ep <= t.e && (x.ep == t.e - 1 ==> x.n < s.nr)
    ensures !Computable(StateTerms(s), privs, KeyAt(b, x.ep, x.n))
  {
    ChainGone(s, b, t, own, f, privs, x.ep, x.n);
    var k := KeyAt(b, x.ep, x.n);
    RootHeight(b, t.e + 1);
    if i :| 0 <= i < |s.skipped| && s.skipped[i].key == k {
      var y := t.keptAt[i];
      KeySeparation(b, y.ep, Ecdh(b.keys[y.ep], b.keys[y.ep + 1]), y.n, x);
    }
  }

  /** Forward secrecy: in every reachable world, copying an end's whole ratchet
      state, together with any private keys that do not already give away the
      X3DH secret, does not let anyone compute the key of a message that end has
      sent or accepted. */
  lemma PastKeysAreGone(u: Fresh, acts: seq<Action>, p: Party, privs: set<KeyName>, m: Msg)
    requires var w := Run(u, acts);
             && (m in w.Side(p).sent || m in w.Side(p).got)
             && !Computable(StateTerms(w.Side(p).ratchet), privs, w.secret)
    ensures m.env.ct.Sealed?
    ensures !Computable(StateTerms(Run(u, acts).Side(p).ratchet), privs, m.env.ct.key)
  {
    var w := Run(u, acts);
    var b, tm, tp := RunPair(u, acts, p);
    SideKeysGone(w.Side(p), b, tm, p.Own(), privs, m);
  }

  lemma SentPast(me: Side, b: Book, t: Track, own: nat, i: nat)
    requires SideInv(me, b, t, own) && i < |me.sent|
    ensures var x := t.sentAt[i];
            && ValidSlot(b, x) && me.sent[i] == MsgAt(b, x) && x !in t.keptAt
            && x.ep <= t.e && x.ep != t.e - 1
  {
    hide GotInv, Bounded;
  }

  lemma GotPast(me: Side, b: Book, t: Track, own: nat, i: nat)
    requires SideInv(me, b, t, own) && i < |me.got|
    ensures var x := t.gotAt[i];
            && ValidSlot(b, x) && me.got[i] == MsgAt(b, x) && x !in t.keptAt
            && x.ep <= t.e && (x.ep == t.e - 1 ==> x.n < me.ratchet.nr)
  {
    hide SentInv, Bounded, StateInv;
  }

  /** What an end has sent or accepted lies behind it on the shared key tree. */
  lemma PastSlot(me: Side, b: Book, t: Track, own: nat, m: Msg) returns (x: Slot)
    requires SideInv(me, b, t, own) && (m in me.sent || m in me.got)
    ensures ValidSlot(b, x) && m == MsgAt(b, x) && x !in t.keptAt
    ensures x.ep <= t.e && (x.ep == t.e - 1 ==> x.n < me.ratchet.nr)
  {
    hide StateInv, KeptInv, Bounded;
    if m in me.sent {
      var i :| 0 <= i < |me.sent| && me.sent[i] == m;
      SentPast(me, b, t, own, i);
      x := t.sentAt[i];
    } else {
      var i :| 0 <= i < |me.got| && me.got[i] == m;
      GotPast(me, b, t, own, i);
      x := t.gotAt[i];
    }
  }

  lemma SideKeysGone(me: Side, b: Book, t: Track, own: nat, privs: set<KeyName>, m: Msg)
    requires SideInv(me, b, t, own) && (m in me.sent || m in me.got)
    requires !Computable(StateTerms(me.ratchet), privs, b.secret)
    ensures m.env.ct.Sealed? && !Computable(StateTerms(me.ratchet), privs, m.env.ct.key)
  {
    var x := PastSlot(me, b, t, own, m);
    KeyGone(me.ratchet, b, t, own, Frontier(me.ratchet, t), privs, x);
  }
}
