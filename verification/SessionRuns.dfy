/** The first conversation between two devices: one end starts a session from a
    fetched bundle, and the other sets its own up from whichever envelope of the
    first arrives first. Every such run is a run of the bare Double Ratchet. */
module SessionRuns {
  import opened SymbolicCrypto
  import opened X3dh
  import opened DoubleRatchet
  import opened RatchetBook
  import opened RatchetSide
  import opened RatchetReceive
  import opened RatchetRuns
  import opened SessionManagers

  const INITIATOR: PeerId := 0
  const RESPONDER: PeerId := 1

  /** How the conversation starts: the two identities, a bundle that shows the
      responder's, and the keys the initiator draws. */
  datatype Opening = Opening(alice: Identity, bob: Identity, bundle: Bundle, eph: KeyName, first: KeyName)

  predicate Genuine(o: Opening) {
    && Issued(o.alice) && Issued(o.bob) && Shows(o.bundle, o.bob) && o.first != o.bob.signedPrekey
  }

  type FirstContact = o: Opening | Genuine(o)
    witness Opening(Identity(0, 0, 1, 0, map[], 0), Identity(1, 1, 1, 1, map[], 0),
                    Bundle(1, SignedKey(1, Signature(1, 1)), 1, SignedKey(1, Signature(1, 1)), None), 2, 3)

  function Handshake(o: FirstContact): (Agreement, InitialMessage) {
    AgreementLaw(o.alice, o.bob, o.bundle, o.eph);
    Initiate(o.alice, o.bundle, o.eph).value
  }

  function InitOf(o: FirstContact): InitialMessage {
    Handshake(o).1
  }

  /** The bare ratchet session this handshake stands for. */
  function Bare(o: FirstContact): Fresh {
    var a := Handshake(o).0;
    Session(a.secret, o.bundle.signedPrekey.key, o.first, a.binding)
  }

  /** Both managers, what each sent (with the init it carried) and accepted. */
  datatype Pair = Pair(alice: Manager, bob: Manager, aliceSent: seq<Msg>, carried: seq<Option<InitialMessage>>,
                       aliceGot: seq<Msg>,
                       bobSent: seq<Msg>, bobGot: seq<Msg>, next: KeyName)

  function Opened(o: FirstContact): Pair {
    var alice := Outbound(Manager(o.alice, map[], map[]), RESPONDER, Some(o.bundle), o.eph, o.first);
    AgreementLaw(o.alice, o.bob, o.bundle, o.eph);
    Pair(alice.value, Manager(o.bob, map[], map[]), [], [], [], [], [], o.bundle.signedPrekey.key + o.first + 1)
  }

  function FileOf(me: Identity): Option<OnFile> {
    Some(OnFile(me.signing, SignedBy(me.signing, me.dh)))
  }

  datatype Event =
    | AliceSends(iv: nat, plain: nat)
    | BobSends(iv: nat, plain: nat)
    | BobReceives(wire: Wire)
    | AliceReceives(wire: Wire)

  /** The bare world the pair stands for: a responder that has no session yet
      counts as a ratchet that has not been used. */
  function Core(o: FirstContact, p: Pair): World
    requires RESPONDER in p.alice.sessions
  {
    World(Bare(o).secret,
          Side(p.alice.sessions[RESPONDER].ratchet, p.aliceSent, p.aliceGot),
          Side(if INITIATOR in p.bob.sessions then p.bob.sessions[INITIATOR].ratchet
               else Responder(Bare(o).secret, Bare(o).signedPrekey, Bare(o).ad), p.bobSent, p.bobGot),
          p.next)
  }

  predicate SoundPair(p: Pair) {
    SoundManager(p.alice) && SoundManager(p.bob) && RESPONDER in p.alice.sessions
  }

  /** As for the bare ratchet; in addition any X3DH init on a wire is the one the
      initiator made. */
  ghost predicate WireCanAppear(o: FirstContact, p: Pair, wire: Wire)
    requires SoundPair(p)
  {
    CanAppear(Core(o, p), wire.env) && (wire.x3dhInit.Some? ==> wire.x3dhInit.value == InitOf(o))
  }

  /** A responder without a session does not start one of its own: a single
      initiator. */
  ghost function Happens(o: FirstContact, p: Pair, ev: Event): (p': Pair)
    requires SoundPair(p)
    ensures SoundPair(p')
  {
    match ev
    case AliceSends(iv, plain) =>
      var c := p.alice.sessions[RESPONDER];
      (match Encrypted(p.alice, RESPONDER, plain, iv)
       case Err(_) => p
       case Ok(r) =>
         p.(alice := r.0, aliceSent := p.aliceSent + [Msg(r.1.env, plain)], carried := p.carried + [r.1.x3dhInit]))
    case BobSends(iv, plain) =>
      if INITIATOR !in p.bob.sessions then p
      else
        (match Encrypted(p.bob, INITIATOR, plain, iv)
         case Err(_) => p
         case Ok(r) => p.(bob := r.0, bobSent := p.bobSent + [Msg(r.1.env, plain)]))
    case BobReceives(wire) =>
      if !WireCanAppear(o, p, wire) || Inbound(p.bob, INITIATOR, wire, FileOf(o.alice)).Err? then p
      else
        var r := Decrypted(p.bob, INITIATOR, wire, FileOf(o.alice), p.next);
        DecryptedSound(p.bob, INITIATOR, wire, FileOf(o.alice), p.next);
        p.(bob := r.manager, next := p.next + 1,
           bobGot := if r.outcome.Ok? then p.bobGot + [Msg(wire.env, r.outcome.value)] else p.bobGot)
    case AliceReceives(wire) =>
      if !WireCanAppear(o, p, wire) then p
      else
        var r := Decrypted(p.alice, RESPONDER, wire, FileOf(o.bob), p.next);
        DecryptedSound(p.alice, RESPONDER, wire, FileOf(o.bob), p.next);
        p.(alice := r.manager, next := p.next + 1,
           aliceGot := if r.outcome.Ok? then p.aliceGot + [Msg(wire.env, r.outcome.value)] else p.aliceGot)
  }

  ghost function Runs(o: FirstContact, evs: seq<Event>): (p: Pair)
    ensures SoundPair(p)
  {
    if evs == [] then Opened(o) else Happens(o, Runs(o, evs[..|evs| - 1]), evs[|evs| - 1])
  }

  // ---------------------------------------------------------------------
  // The invariant.

  ghost predicate Waiting(o: FirstContact, p: Pair)
    requires SoundPair(p)
  {
    && p.bob == Manager(o.bob, map[], map[])
    && p.alice.sessions[RESPONDER].pendingInit == Some(InitOf(o))
    && p.bobSent == [] && p.bobGot == [] && p.aliceGot == []
    && forall i :: 0 <= i < |p.carried| ==> p.carried[i] == Some(InitOf(o))
  }

  ghost predicate Follows(o: FirstContact, p: Pair, acts: seq<Action>)
    requires SoundPair(p)
  {
    Core(o, p) == Run(Bare(o), acts)
  }

  /** Until the responder has its session it is as it was at the start, the
      initiator has heard nothing, and every envelope carries the init; and the
      ratchets have done what some run of the bare ratchet does. */
  ghost predicate Settled(o: FirstContact, p: Pair) {
    && SoundPair(p)
    && |p.carried| == |p.aliceSent|
    && (INITIATOR in p.bob.sessions || Waiting(o, p))
    && exists acts :: Follows(o, p, acts)
  }

  lemma RunMore(u: Fresh, acts: seq<Action>, act: Action)
    ensures Run(u, acts + [act]) == Step(Run(u, acts), act)
  {
    assert (acts + [act])[..|acts|] == acts;
  }

  lemma OpenedSettled(o: FirstContact)
    ensures Settled(o, Opened(o))
  {
    AgreementLaw(o.alice, o.bob, o.bundle, o.eph);
    assert Follows(o, Opened(o), []);
  }

  lemma FollowsOn(o: FirstContact, p: Pair, acts: seq<Action>, act: Action, p': Pair)
    requires SoundPair(p) && SoundPair(p') && Follows(o, p, acts)
    requires Core(o, p') == Step(Core(o, p), act)
    ensures exists more :: Follows(o, p', more)
  {
    RunMore(Bare(o), acts, act);
    assert Follows(o, p', acts + [act]);
  }

  lemma AliceSendsSettled(o: FirstContact, p: Pair, iv: nat, plain: nat)
    requires Settled(o, p)
    ensures Settled(o, Happens(o, p, AliceSends(iv, plain)))
  {
    var p' := Happens(o, p, AliceSends(iv, plain));
    var acts :| Follows(o, p, acts);
    FollowsOn(o, p, acts, Send(Alice, iv, plain), p');
  }

  lemma BobSendsSettled(o: FirstContact, p: Pair, iv: nat, plain: nat)
    requires Settled(o, p)
    ensures Settled(o, Happens(o, p, BobSends(iv, plain)))
  {
    var p' := Happens(o, p, BobSends(iv, plain));
    var acts :| Follows(o, p, acts);
    if INITIATOR in p.bob.sessions {
      FollowsOn(o, p, acts, Send(Bob, iv, plain), p');
    }
  }

  /** The responder answers the genuine init, and arrives at the very ratchet the
      bare session starts it with. */
  lemma Bootstraps(o: FirstContact, p: Pair, wire: Wire)
    requires SoundPair(p) && Waiting(o, p) && wire.x3dhInit == Some(InitOf(o))
    ensures Inbound(p.bob, INITIATOR, wire, FileOf(o.alice)).Ok?
    ensures Inbound(p.bob, INITIATOR, wire, FileOf(o.alice)).value.sessions
         == map[INITIATOR := Cached(Responder(Bare(o).secret, Bare(o).signedPrekey, Bare(o).ad), None)]
  {
    AgreementLaw(o.alice, o.bob, o.bundle, o.eph);
  }

  lemma BobReceivesSettled(o: FirstContact, p: Pair, wire: Wire)
    requires Settled(o, p)
    ensures Settled(o, Happens(o, p, BobReceives(wire)))
  {
    hide Delivered, Respond, AfterRespond;
    var p' := Happens(o, p, BobReceives(wire));
    var acts :| Follows(o, p, acts);
    if WireCanAppear(o, p, wire) && Inbound(p.bob, INITIATOR, wire, FileOf(o.alice)).Ok? {
      if INITIATOR !in p.bob.sessions {
        Bootstraps(o, p, wire);
      }
      FollowsOn(o, p, acts, Deliver(Bob, wire.env), p');
    }
  }

  lemma AliceReceivesSettled(o: FirstContact, p: Pair, wire: Wire)
    requires Settled(o, p)
    ensures Settled(o, Happens(o, p, AliceReceives(wire)))
  {
    var p' := Happens(o, p, AliceReceives(wire));
    var acts :| Follows(o, p, acts);
    if WireCanAppear(o, p, wire) {
      FollowsOn(o, p, acts, Deliver(Alice, wire.env), p');
      if INITIATOR !in p.bob.sessions && Verdict(Core(o, p), Alice, wire.env).Ok? {
        OnlyGenuineOpens(Bare(o), acts, Alice, wire.env);
        assert false;
      }
    }
  }

  lemma {:induction false} RunsSettled(o: FirstContact, evs: seq<Event>)
    ensures Settled(o, Runs(o, evs))
  {
    if evs == [] {
      OpenedSettled(o);
    } else {
      var p := Runs(o, evs[..|evs| - 1]);
      RunsSettled(o, evs[..|evs| - 1]);
      match evs[|evs| - 1]
      case AliceSends(iv, plain) => AliceSendsSettled(o, p, iv, plain);
      case BobSends(iv, plain) => BobSendsSettled(o, p, iv, plain);
      case BobReceives(wire) => BobReceivesSettled(o, p, wire);
      case AliceReceives(wire) => AliceReceivesSettled(o, p, wire);
    }
  }

  // ---------------------------------------------------------------------
  // What every run guarantees.

  /** Refinement: whatever the two managers go through, their ratchets go through
      a run of the bare Double Ratchet, so everything proved of those holds here. */
  lemma ManagersRefineBareRatchet(o: FirstContact, evs: seq<Event>)
    ensures exists acts :: Core(o, Runs(o, evs)) == Run(Bare(o), acts)
  {
    RunsSettled(o, evs);
    var acts :| Follows(o, Runs(o, evs), acts);
  }

  /** While the responder has no session, every envelope the initiator has in
      flight carries its init, and so will the next one. */
  lemma InitRidesAlong(o: FirstContact, evs: seq<Event>, p: Pair)
    requires p == Runs(o, evs) && INITIATOR !in p.bob.sessions
    ensures |p.carried| == |p.aliceSent| && forall i :: 0 <= i < |p.carried| ==> p.carried[i] == Some(InitOf(o))
    ensures p.alice.sessions[RESPONDER].pendingInit == Some(InitOf(o))
  {
    RunsSettled(o, evs);
  }

  /** Whichever of the initiator's envelopes reaches a responder without a session
      first, it sets the session up, and it decrypts exactly when its number is
      within MAX_SKIP. */
  lemma FirstArrivalBootstraps(o: FirstContact, evs: seq<Event>, p: Pair, i: nat)
    requires p == Runs(o, evs) && INITIATOR !in p.bob.sessions && i < |p.aliceSent| && i < |p.carried|
    ensures var r := Decrypted(p.bob, INITIATOR, Wire(p.aliceSent[i].env, p.carried[i]), FileOf(o.alice), p.next);
            && INITIATOR in r.manager.sessions
            && (r.outcome.Ok? <==> p.aliceSent[i].env.header.n <= MAX_SKIP)
            && (r.outcome.Ok? ==> r.outcome.value == p.aliceSent[i].plain)
  {
    RunsSettled(o, evs);
    var acts :| Follows(o, p, acts);
    Bootstraps(o, p, Wire(p.aliceSent[i].env, p.carried[i]));
    GenuineOpensExactlyWhen(Bare(o), acts, Bob, i);
  }

  /** The init rides along exactly until the initiator has accepted something. */
  lemma {:induction false} InitStopsExactlyWhenHeard(o: FirstContact, evs: seq<Event>)
    ensures var p := Runs(o, evs);
            p.alice.sessions[RESPONDER].pendingInit == if p.aliceGot == [] then Some(InitOf(o)) else None
  {
    if evs != [] {
      var p := Runs(o, evs[..|evs| - 1]);
      InitStopsExactlyWhenHeard(o, evs[..|evs| - 1]);
      match evs[|evs| - 1]
      case AliceSends(_, _) =>
      case BobSends(_, _) =>
      case BobReceives(_) =>
      case AliceReceives(wire) => InitStopsAt(o, p, wire);
    }
  }

  lemma InitStopsAt(o: FirstContact, p: Pair, wire: Wire)
    requires SoundPair(p)
    requires p.alice.sessions[RESPONDER].pendingInit == if p.aliceGot == [] then Some(InitOf(o)) else None
    ensures var p' := Happens(o, p, AliceReceives(wire));
            p'.alice.sessions[RESPONDER].pendingInit == if p'.aliceGot == [] then Some(InitOf(o)) else None
  {
    hide Delivered, Respond, InitOf;
    DecryptedSound(p.alice, RESPONDER, wire, FileOf(o.bob), p.next);
  }

  // ---------------------------------------------------------------------
  // Reloads.

  /** What is persisted: the initiator's session always, the responder's from its first
      accepted envelope on; and what the responder's identity went through. */
  ghost predicate Saved(o: FirstContact, p: Pair)
    requires SoundPair(p)
  {
    && p.alice.sessions.Keys == {RESPONDER} && p.alice.stored == p.alice.sessions
    && p.bob.sessions.Keys <= {INITIATOR}
    && p.bob.stored == (if p.bobGot == [] then map[] else p.bob.sessions)
    && (p.bobGot != [] ==> INITIATOR in p.bob.sessions)
    && (p.bobGot == [] && INITIATOR in p.bob.sessions ==> p.bob.sessions[INITIATOR].ratchet.cks.None?)
    && p.bob.identity == (if INITIATOR in p.bob.sessions then AfterRespond(o.bob, InitOf(o)) else o.bob)
  }

  lemma BobReceivesSaved(o: FirstContact, p: Pair, wire: Wire)
    requires SoundPair(p) && Saved(o, p)
    ensures Saved(o, Happens(o, p, BobReceives(wire)))
  {
    if WireCanAppear(o, p, wire) && Inbound(p.bob, INITIATOR, wire, FileOf(o.alice)).Ok? {
      DecryptedSound(p.bob, INITIATOR, wire, FileOf(o.alice), p.next);
      BobReadingSaved(o, p, wire);
      hide Delivered, Decrypted, Inbound, WireCanAppear, InitOf, AfterRespond, FileOf;
      assert Saved(o, Happens(o, p, BobReceives(wire)));
    }
  }

  lemma BobReadingSaved(o: FirstContact, p: Pair, wire: Wire)
    requires SoundPair(p) && Saved(o, p) && (wire.x3dhInit.Some? ==> wire.x3dhInit.value == InitOf(o))
    requires Inbound(p.bob, INITIATOR, wire, FileOf(o.alice)).Ok?
    ensures var r := Decrypted(p.bob, INITIATOR, wire, FileOf(o.alice), p.next);
            && r.manager.sessions.Keys == {INITIATOR}
            && r.manager.stored == (if r.outcome.Ok? then r.manager.sessions else p.bob.stored)
            && (r.outcome.Err? && p.bobGot != [] ==> r.manager == p.bob)
            && (r.outcome.Err? && p.bobGot == [] ==> r.manager.sessions[INITIATOR].ratchet.cks.None?)
            && r.manager.identity == AfterRespond(o.bob, InitOf(o))
  {
    hide Delivered, Respond, AfterRespond, InitOf;
  }

  lemma AliceReceivesSaved(o: FirstContact, p: Pair, wire: Wire)
    requires SoundPair(p) && Saved(o, p)
    ensures Saved(o, Happens(o, p, AliceReceives(wire)))
  {
    hide Delivered, Respond;
    DecryptedSound(p.alice, RESPONDER, wire, FileOf(o.bob), p.next);
  }

  lemma {:induction false} RunsSaved(o: FirstContact, evs: seq<Event>)
    ensures Saved(o, Runs(o, evs))
  {
    if evs != [] {
      var p := Runs(o, evs[..|evs| - 1]);
      RunsSaved(o, evs[..|evs| - 1]);
      match evs[|evs| - 1]
      case AliceSends(_, _) =>
      case BobSends(_, _) =>
      case BobReceives(wire) => BobReceivesSaved(o, p, wire);
      case AliceReceives(wire) => AliceReceivesSaved(o, p, wire);
    }
  }

  /** A reload at any point of any run is invisible to the initiator; to the responder
      it is invisible exactly when it has no session yet or has accepted an envelope. */
  lemma ReloadsInvisibleExactlyWhen(o: FirstContact, evs: seq<Event>, p: Pair)
    requires p == Runs(o, evs)
    ensures Restored(Reloaded(p.alice), RESPONDER) == p.alice
    ensures Restored(Reloaded(p.bob), INITIATOR) == p.bob <==> INITIATOR !in p.bob.sessions || p.bobGot != []
  {
    RunsSaved(o, evs);
    hide Runs, InitOf, AfterRespond, SoundPair;
    assert p.bob.sessions.Keys <= {INITIATOR};
    assert INITIATOR !in p.bob.sessions ==> p.bob.sessions == map[];
  }

  /** In the remaining case the session is lost when its handshake used a one-time
      prekey: after a reload nothing the initiator can send is read any more. */
  lemma UnsavedSessionIsLost(o: FirstContact, evs: seq<Event>, p: Pair, wire: Wire)
    requires p == Runs(o, evs) && INITIATOR in p.bob.sessions && p.bobGot == []
    requires InitOf(o).oneTimeId.Some? && WireCanAppear(o, p, wire)
    ensures Decrypted(Reloaded(p.bob), INITIATOR, wire, FileOf(o.alice), p.next).outcome
         == Err(if wire.x3dhInit.None? then NoSession else SessionError.Handshake(NoSuchOneTimePrekey))
  {
    RunsSaved(o, evs);
    AgreementLaw(o.alice, o.bob, o.bundle, o.eph);
  }

  lemma NoiseCanAppear(o: FirstContact, p: Pair, noise: Wire)
    requires SoundPair(p) && noise.env.ct.Noise? && noise.x3dhInit == Some(InitOf(o))
    ensures WireCanAppear(o, p, noise)
  {}

  lemma NoiseSetsUp(o: FirstContact, noise: Wire)
    requires noise == Wire(Envelope(Header(Malformed(0), 0, 0), 0, Noise(0)), Some(InitOf(o)))
    ensures var p := Opened(o);
            && SoundManager(p.bob) && p.bobGot == [] && Inbound(p.bob, INITIATOR, noise, FileOf(o.alice)).Ok?
            && var r := Decrypted(p.bob, INITIATOR, noise, FileOf(o.alice), p.next);
               INITIATOR in r.manager.sessions && r.outcome.Err?
  {
    AgreementLaw(o.alice, o.bob, o.bundle, o.eph);
  }

  /** And it does come to that: the init arrives with a ciphertext that is refused. */
  lemma UnsavedSessionIsReachable(o: FirstContact, evs: seq<Event>, noise: Wire)
    requires noise == Wire(Envelope(Header(Malformed(0), 0, 0), 0, Noise(0)), Some(InitOf(o)))
    requires evs == [BobReceives(noise)]
    ensures INITIATOR in Runs(o, evs).bob.sessions && Runs(o, evs).bobGot == []
  {
    assert evs[..0] == [];
    assert Runs(o, evs) == Happens(o, Opened(o), BobReceives(noise));
    NoiseCanAppear(o, Opened(o), noise);
    NoiseSetsUp(o, noise);
    hide Runs, WireCanAppear, Inbound, Delivered, InitOf, Opened;
  }
}
