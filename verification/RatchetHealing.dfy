/** Recovery of the Double Ratchet: what somebody who once copied everything can no
    longer compute, in every run. */
module RatchetHealing {
  import opened SymbolicCrypto
  import opened DoubleRatchet
  import opened RatchetBook
  import opened RatchetSide
  import opened RatchetReceive
  import opened RatchetRuns
  import opened RatchetSecrecy

  /** No exchange between two keys minted at `n` or later went into this value. */
  predicate Old(t: Term, n: KeyName) {
    match t
    case Atom(_) => true
    case Shared(lo, hi) => lo < n || hi < n
    case X3dhSecret(a, b, c, d) => Old(a, n) && Old(b, n) && Old(c, n) && (d.Some? ==> Old(d.value, n))
    case RootOf(r, d) => Old(r, n) && Old(d, n)
    case ChainOf(r, d) => Old(r, n) && Old(d, n)
    case NextChain(c) => Old(c, n)
    case MessageKey(c) => Old(c, n)
  }

  /** From old values and private keys minted before `n` only old values follow. */
  lemma {:induction false} OldStaysOld(terms: set<Term>, privs: set<KeyName>, n: KeyName, t: Term)
    requires (forall k :: k in terms ==> Old(k, n)) && (forall k :: k in privs ==> k < n)
    requires Computable(terms, privs, t)
    ensures Old(t, n)
  {
    if t !in terms {
      match t
      case Shared(_, _) =>
      case X3dhSecret(a, b, c, d) =>
        OldStaysOld(terms, privs, n, a);
        OldStaysOld(terms, privs, n, b);
        OldStaysOld(terms, privs, n, c);
        if d.Some? { OldStaysOld(terms, privs, n, d.value); }
      case RootOf(r, d) => OldStaysOld(terms, privs, n, r); OldStaysOld(terms, privs, n, d);
      case ChainOf(r, d) => OldStaysOld(terms, privs, n, r); OldStaysOld(terms, privs, n, d);
      case NextChain(c) => OldStaysOld(terms, privs, n, c);
      case MessageKey(c) => OldStaysOld(terms, privs, n, c);
    }
  }

  // ---------------------------------------------------------------------
  // Everything there is to copy at one moment is old with respect to it.

  lemma {:induction false} RootOld(b: Book, n: KeyName, e: nat)
    requires e < |b.keys| && Old(b.secret, n) && forall i :: 0 <= i < |b.keys| ==> b.keys[i] < n
    ensures Old(RootAt(b, e), n)
  {
    if e > 0 { RootOld(b, n, e - 1); }
  }

  lemma {:induction false} RatchetedOld(chain: Term, steps: nat, n: KeyName)
    ensures Old(Ratcheted(chain, steps), n) == Old(chain, n)
  {
    if steps > 0 { RatchetedOld(chain, steps - 1, n); }
  }

  lemma ChainOld(b: Book, n: KeyName, e: nat, i: nat)
    requires e + 1 < |b.keys| && Old(b.secret, n) && forall j :: 0 <= j < |b.keys| ==> b.keys[j] < n
    ensures Old(ChainAt(b, e, i), n)
  {
    RootOld(b, n, e);
    RatchetedOld(ChainOf(RootAt(b, e), Ecdh(b.keys[e], b.keys[e + 1])), i, n);
  }

  lemma StateOld(side: Side, b: Book, t: Track, own: nat, n: KeyName)
    requires SideInv(side, b, t, own) && Old(b.secret, n) && forall i :: 0 <= i < |b.keys| ==> b.keys[i] < n
    ensures forall k :: k in StateTerms(side.ratchet) ==> Old(k, n)
  {
    var s := side.ratchet;
    RootOld(b, n, t.e + 1);
    if t.e >= 0 { ChainOld(b, n, t.e, s.ns); }
    if t.e >= 1 { ChainOld(b, n, t.e - 1, s.nr); }
    forall i | 0 <= i < |s.skipped|
      ensures Old(s.skipped[i].key, n)
    {
      ChainOld(b, n, t.keptAt[i].ep, t.keptAt[i].n);
    }
  }

  /** A total leak: both ends' states and the X3DH secret. */
  function LeakedTerms(w: World): set<Term> {
    StateTerms(w.alice.ratchet) + StateTerms(w.bob.ratchet) + {w.secret}
  }

  /** With it may go any private keys minted until then. */
  predicate LeakedKeys(w: World, privs: set<KeyName>) {
    forall k :: k in privs ==> k < w.next
  }

  lemma LeakIsOld(u: Fresh, acts: seq<Action>)
    requires Old(u.secret, Run(u, acts).next)
    ensures forall k :: k in LeakedTerms(Run(u, acts)) ==> Old(k, Run(u, acts).next)
  {
    var w := Run(u, acts);
    SecretKept(u, acts);
    var b, ta, tb := RunPair(u, acts, Alice);
    hide Run, Old, SideInv, LossInv, StateTerms;
    StateOld(w.alice, b, ta, 0, w.next);
    StateOld(w.bob, b, tb, 1, w.next);
  }

  lemma {:induction false} SecretKept(u: Fresh, acts: seq<Action>)
    ensures Run(u, acts).secret == u.secret
  {
    if acts != [] { SecretKept(u, acts[..|acts| - 1]); }
  }

  // ---------------------------------------------------------------------
  // Healing.

  /** Both the ratchet key this end sends under and the peer's key it answers were
      minted at `n` or later. */
  predicate Healed(s: State, n: KeyName) {
    s.dhs >= n && s.dhr.Some? && s.dhr.value >= n
  }

  lemma HealedIsNew(side: Side, b: Book, t: Track, own: nat, n: KeyName)
    requires SideInv(side, b, t, own) && Healed(side.ratchet, n)
    ensures var s := side.ratchet;
            s.cks.Some? && !Old(s.root, n) && !Old(s.cks.value, n) && !Old(MessageKey(s.cks.value), n)
  {
    RatchetedOld(ChainOf(RootAt(b, t.e), Ecdh(b.keys[t.e], b.keys[t.e + 1])), side.ratchet.ns, n);
  }

  /** The key an end seals its next message under. */
  function NextKey(s: State): Term
    requires s.cks.Some?
  {
    MessageKey(s.cks.value)
  }

  /** Recovery. After a total leak somebody who only listens cannot compute the root
      key, the sending chain or the next message key of an end, as soon as the two
      keys it works with were minted after the leak. */
  lemma HealedOutOfReach(u: Fresh, acts: seq<Action>, privs: set<KeyName>, now: seq<Action>, p: Party)
    requires Old(u.secret, Run(u, acts).next) && LeakedKeys(Run(u, acts), privs)
    requires Healed(Run(u, now).Side(p).ratchet, Run(u, acts).next)
    ensures var s := Run(u, now).Side(p).ratchet;
            var terms := LeakedTerms(Run(u, acts));
            && s.cks.Some?
            && !Computable(terms, privs, s.root)
            && !Computable(terms, privs, s.cks.value)
            && !Computable(terms, privs, NextKey(s))
  {
    var w := Run(u, acts);
    var b, t, tp := RunPair(u, now, p);
    var side := Run(u, now).Side(p);
    hide Run, Old, Healed, LossInv, LeakedTerms, StateInv;
    HealedIsNew(side, b, t, p.Own(), w.next);
    LeakIsOld(u, acts);
    forall k | k in {side.ratchet.root, side.ratchet.cks.value, NextKey(side.ratchet)}
      ensures !Computable(LeakedTerms(w), privs, k)
    {
      if Computable(LeakedTerms(w), privs, k) { OldStaysOld(LeakedTerms(w), privs, w.next, k); }
    }
  }

  lemma SkipSteers(s: State, until: int)
    requires Chained(s)
    ensures Skip(s, until).Ok? ==> Skip(s, until).value.dhs == s.dhs && Skip(s, until).value.dhr == s.dhr
  {
    if s.ckr.Some? { AdvancedChain(s, until); }
  }

  /** Which keys an end works with after a delivery that went through. */
  lemma DeliveredKeys(s: State, env: Envelope, minted: KeyName)
    requires Chained(s) && Delivered(s, env, minted).outcome.Ok? && env.header.dh.Canonical?
    ensures var s', h := Delivered(s, env, minted).state, env.header;
            if Has(s.skipped, SkipId(h.dh, h.n)) || s.dhr == Some(h.dh.key)
            then s'.dhs == s.dhs && s'.dhr == s.dhr
            else s'.dhs == minted && s'.dhr == Some(h.dh.key)
  {
    var h := env.header;
    if !Has(s.skipped, SkipId(h.dh, h.n)) {
      if s.dhr == Some(h.dh.key) {
        SkipSteers(s, h.n);
      } else {
        SkipSteers(s, h.pn);
        SkipChained(s, h.pn);
        SkipSteers(DhRatchet(Skip(s, h.pn).value, h.dh.key, minted), h.n);
      }
    }
  }

  /** The ratchet key of an accepted message, on the shared history; a stored one is not
      newer than the peer's key this end answers. */
  lemma AcceptedRatchetKey(side: Side, b: Book, t: Track, own: nat, env: Envelope, minted: KeyName) returns (i: nat)
    requires SideInv(side, b, t, own) && Presentable(b, env) && Delivered(side.ratchet, env, minted).outcome.Ok?
    ensures 1 <= i < |b.keys| && env.header.dh == Canonical(b.keys[i])
    ensures if Has(side.ratchet.skipped, SkipId(env.header.dh, env.header.n)) then i <= t.e else i >= t.e
  {
    var s := side.ratchet;
    var x := AcceptedIsGenuine(side, b, t, own, env, minted);
    hide GotInv, SentInv, Bounded, StateInv;
    KeptLookup(s.skipped, b, t.keptAt, t.gotAt, own, Frontier(s, t), x);
    i := x.ep + 1;
    assert IdAt(b, x) == SkipId(env.header.dh, env.header.n);
    assert x in t.keptAt ==> Behind(b, own, Frontier(s, t), x);
  }

  lemma NewerKeysHeal(s: State, b: Book, e: int, own: nat, n: KeyName, i: nat)
    requires StateInv(s, b, e, own) && Ascending(b.keys) && 1 <= i < |b.keys|
    ensures 0 <= e && i <= e && b.keys[i] >= n ==> Healed(s, n)
    ensures s.dhr == Some(b.keys[i]) ==> i == e
    ensures i >= e && s.dhr != Some(b.keys[i]) && Healed(s, n) ==> b.keys[i] >= n
  {}

  lemma NewRatchetKey(side: Side, b: Book, t: Track, own: nat, env: Envelope, minted: KeyName, n: KeyName)
    requires SideInv(side, b, t, own) && Presentable(b, env) && Ascending(b.keys)
    requires Delivered(side.ratchet, env, minted).outcome.Ok? && n <= minted
    ensures env.header.dh.Canonical?
    ensures var s' := Delivered(side.ratchet, env, minted).state;
            Healed(s', n) <==> Healed(side.ratchet, n) || env.header.dh.key >= n
  {
    var s := side.ratchet;
    var i := AcceptedRatchetKey(side, b, t, own, env, minted);
    NewerKeysHeal(s, b, t.e, own, n, i);
    DeliveredKeys(s, env, minted);
    hide SideInv, Delivered, Ascending, Presentable, Has;
  }

  /** When that is: an end heals at exactly the step at which it accepts a message
      whose ratchet key was minted after the leak; and what healed stays healed. */
  lemma HealsExactlyWhen(u: Fresh, acts: seq<Action>, w: World, p: Party, act: Action, n: KeyName)
    requires w == Run(u, acts) && n <= w.next
    ensures Healed(Step(w, act).Side(p).ratchet, n) <==>
              || Healed(w.Side(p).ratchet, n)
              || (&& act.Deliver? && act.to == p && CanAppear(w, act.env) && Verdict(w, p, act.env).Ok?
                  && act.env.header.dh.Canonical? && act.env.header.dh.key >= n)
  {
    var b, tm, tp := RunPair(u, acts, p);
    if act.Deliver? && act.to == p && CanAppear(w, act.env) && Verdict(w, p, act.env).Ok? {
      NewRatchetKey(w.Side(p), b, tm, p.Own(), act.env, w.next, n);
    }
  }

  lemma RunOn(u: Fresh, acts: seq<Action>, more: seq<Action>)
    requires more != []
    ensures Run(u, acts + more) == Step(Run(u, acts + more[..|more| - 1]), more[|more| - 1])
  {
    assert (acts + more)[..|acts + more| - 1] == acts + more[..|more| - 1];
  }

  lemma {:induction false} NextGrows(u: Fresh, acts: seq<Action>, more: seq<Action>)
    ensures Run(u, acts).next <= Run(u, acts + more).next
  {
    if more == [] {
      assert acts + more == acts;
    } else {
      var n := |more| - 1;
      assert (acts + more)[..|acts + more| - 1] == acts + more[..n];
      NextGrows(u, acts, more[..n]);
    }
  }

  /** Whatever happens later, an end that healed stays healed. */
  lemma {:induction false} HealedForGood(u: Fresh, acts: seq<Action>, more: seq<Action>, p: Party, n: KeyName)
    requires Healed(Run(u, acts).Side(p).ratchet, n) && n <= Run(u, acts).next
    ensures Healed(Run(u, acts + more).Side(p).ratchet, n)
  {
    if more == [] {
      assert acts + more == acts;
    } else {
      var k := |more| - 1;
      assert (acts + more)[..|acts + more| - 1] == acts + more[..k];
      HealedForGood(u, acts, more[..k], p, n);
      NextGrows(u, acts, more[..k]);
      HealsExactlyWhen(u, acts + more[..k], Run(u, acts + more[..k]), p, more[k], n);
    }
  }

  /** A step of the run sends at most one message, under the next key. */
  lemma SentGrows(w: World, act: Action, p: Party)
    requires Sound(w)
    ensures var sent, sent' := w.Side(p).sent, Step(w, act).Side(p).sent;
            && sent <= sent' && |sent'| <= |sent| + 1
            && (|sent'| > |sent| ==>
                  && w.Side(p).ratchet.cks.Some? && sent'[|sent|].env.ct.Sealed?
                  && sent'[|sent|].env.ct.key == NextKey(w.Side(p).ratchet))
  {}

  /** From then on, for good: none of the messages this end sends after healing can be
      read with what was copied. */
  lemma {:induction false} LaterMessagesOutOfReach(
    u: Fresh, leak: seq<Action>, privs: set<KeyName>, acts: seq<Action>, more: seq<Action>, p: Party, i: nat)
    requires Old(u.secret, Run(u, leak).next) && LeakedKeys(Run(u, leak), privs)
    requires Run(u, leak).next <= Run(u, acts).next
    requires Healed(Run(u, acts).Side(p).ratchet, Run(u, leak).next)
    requires |Run(u, acts).Side(p).sent| <= i < |Run(u, acts + more).Side(p).sent|
    ensures var m := Run(u, acts + more).Side(p).sent[i];
            m.env.ct.Sealed? && !Computable(LeakedTerms(Run(u, leak)), privs, m.env.ct.key)
  {
    assert more == [] ==> acts + more == acts;
    if more != [] {
      var k := |more| - 1;
      RunOn(u, acts, more);
      hide Run, Step, Healed, Old, NextKey, LeakedTerms, LeakedKeys;
      var w := Run(u, acts + more[..k]);
      SentGrows(w, more[k], p);
      if i < |w.Side(p).sent| {
        LaterMessagesOutOfReach(u, leak, privs, acts, more[..k], p, i);
      } else {
        HealedForGood(u, acts, more[..k], p, Run(u, leak).next);
        HealedOutOfReach(u, leak, privs, acts + more[..k], p);
      }
    }
  }

  /** One step of one end is not enough: whoever copied an end can follow the peer's
      first chain after the leak, whatever key the peer minted for it. */
  lemma FirstAnswerStillReadable(s: State, theirs: KeyName, minted: KeyName)
    ensures Computable({s.root}, {s.dhs}, DhRatchet(s, theirs, minted).ckr.value)
  {}
}
