/** The pairwise transport chain of a group call: one hash chain, indexed by
    room-key generation. */
module TransportChains {
  import opened SymbolicCrypto

  datatype Chain = Chain(key: Term, index: nat)

  datatype ChainError = AlreadyAdvanced

  function SeedOf(secret: Term, bootstrap: Term): Chain {
    Chain(ChainOf(secret, bootstrap), 0)
  }

  function Walked(c: Chain, target: int): Chain {
    if target < c.index then c else Chain(Ratcheted(c.key, target - c.index), target)
  }

  function KeyFor(c: Chain, target: int): Result<Term, ChainError> {
    if target < c.index then Err(AlreadyAdvanced) else Ok(MessageKey(Walked(c, target).key))
  }

  class TransportChain {
    var chainKey: Term
    var index: nat

    function State(): Chain
      reads this
    {
      Chain(chainKey, index)
    }

    constructor (initial: Chain)
      ensures State() == initial
    {
      chainKey, index := initial.key, initial.index;
    }

    /** Walks forward to the target, keeping only the chain key it arrives at. */
    method KeyForGeneration(target: int) returns (r: Result<Term, ChainError>)
      modifies this
      ensures r == KeyFor(old(State()), target) && State() == Walked(old(State()), target)
    {
      if target < index { return Err(AlreadyAdvanced); }
      while index < target
        invariant old(index) <= index <= target
        invariant chainKey == Ratcheted(old(chainKey), index - old(index))
      {
        chainKey := NextChain(chainKey);
        index := index + 1;
      }
      return Ok(MessageKey(chainKey));
    }
  }

  // ---------------------------------------------------------------------
  // Runs of requests on one chain.

  function AfterRequests(c: Chain, targets: seq<int>): Chain {
    if targets == [] then c else Walked(AfterRequests(c, targets[..|targets| - 1]), targets[|targets| - 1])
  }

  /** What the last of a run of requests is answered. */
  function LastAnswer(c: Chain, targets: seq<int>): Result<Term, ChainError>
    requires targets != []
  {
    KeyFor(AfterRequests(c, targets[..|targets| - 1]), targets[|targets| - 1])
  }

  /** However it got there, a chain holds the seed walked to its index, and the
      index is the largest target asked for so far. */
  lemma {:induction false} WhereItStands(seed: Term, targets: seq<int>)
    ensures var c := AfterRequests(Chain(seed, 0), targets);
            && c.key == Ratcheted(seed, c.index)
            && (c.index == 0 || c.index in targets)
            && (forall t :: t in targets ==> t <= c.index)
  {
    if targets != [] {
      var n := |targets| - 1;
      WhereItStands(seed, targets[..n]);
      var before := AfterRequests(Chain(seed, 0), targets[..n]);
      if before.index <= targets[n] {
        RatchetedSum(seed, before.index, targets[n] - before.index);
      }
      assert targets == targets[..n] + [targets[n]];
    }
  }

  /** Two chains seeded alike give the same key for the same generation, whatever
      gaps, repeats and refusals came before on either side. */
  lemma SeededAlikeAnswerAlike(seed: Term, ours: seq<int>, theirs: seq<int>)
    requires ours != [] && theirs != []
    requires LastAnswer(Chain(seed, 0), ours).Ok? && LastAnswer(Chain(seed, 0), theirs).Ok?
    ensures LastAnswer(Chain(seed, 0), ours) == LastAnswer(Chain(seed, 0), theirs) <==>
              ours[|ours| - 1] == theirs[|theirs| - 1]
  {
    WhereItStands(seed, ours);
    WhereItStands(seed, theirs);
    if ours[|ours| - 1] != theirs[|theirs| - 1] {
      RatchetedApart(seed, ours[|ours| - 1], theirs[|theirs| - 1]);
    }
  }

  lemma {:induction false} RatchetedApart(seed: Term, m: nat, n: nat)
    requires m != n
    ensures Ratcheted(seed, m) != Ratcheted(seed, n)
  {
    RatchetedHeight(seed, m);
    RatchetedHeight(seed, n);
  }

  lemma {:induction false} RatchetedHeight(seed: Term, m: nat)
    ensures Height(Ratcheted(seed, m)) == Height(seed) + m
  {
    if m > 0 { RatchetedHeight(seed, m - 1); }
  }

  /** A generation is answered exactly when it is not negative and no later one was
      asked for before: the generations answered on one session never decrease. */
  lemma AnsweredExactlyWhenNotBehind(seed: Term, targets: seq<int>)
    requires targets != []
    ensures var g := targets[|targets| - 1];
            LastAnswer(Chain(seed, 0), targets).Ok? <==>
              g >= 0 && forall i :: 0 <= i < |targets| - 1 ==> targets[i] <= g
  {
    var earlier := targets[..|targets| - 1];
    WhereItStands(seed, earlier);
    assert forall i :: 0 <= i < |earlier| ==> targets[i] == earlier[i] && earlier[i] in earlier;
  }

  /** An X3DH secret made of Diffie-Hellman outputs, out of reach for the holder of
      these private keys. */
  predicate OutOfReach(privs: set<KeyName>, secret: Term) {
    && secret.X3dhSecret? && secret.dh1.Shared? && secret.dh2.Shared? && secret.dh3.Shared?
    && (secret.dh4.Some? ==> secret.dh4.value.Shared?)
    && !Computable({}, privs, secret)
  }

  lemma ChainKeyNoHelp(privs: set<KeyName>, secret: Term, kept: Term)
    requires OutOfReach(privs, secret) && kept.NextChain?
    ensures !Computable({kept}, privs, secret)
  {
    assert Computable({kept}, privs, secret.dh1) == Computable({}, privs, secret.dh1);
    assert Computable({kept}, privs, secret.dh2) == Computable({}, privs, secret.dh2);
    assert Computable({kept}, privs, secret.dh3) == Computable({}, privs, secret.dh3);
    if secret.dh4.Some? {
      assert Computable({kept}, privs, secret.dh4.value) == Computable({}, privs, secret.dh4.value);
    }
  }

  /** Forward secrecy across rotations: what the chain keeps after reaching a
      generation does not give the key of any earlier one. */
  lemma {:induction false} EarlierGenerationsGone(privs: set<KeyName>, secret: Term, bootstrap: Term, g: nat, at: nat)
    requires g < at && OutOfReach(privs, secret)
    ensures var kept := Ratcheted(ChainOf(secret, bootstrap), at);
            && !Computable({kept}, privs, MessageKey(Ratcheted(ChainOf(secret, bootstrap), g)))
            && !Computable({kept}, privs, Ratcheted(ChainOf(secret, bootstrap), g))
  {
    RatchetedApart(ChainOf(secret, bootstrap), g, at);
    assert Ratcheted(ChainOf(secret, bootstrap), at).NextChain?;
    ChainKeyNoHelp(privs, secret, Ratcheted(ChainOf(secret, bootstrap), at));
    if g > 0 {
      EarlierGenerationsGone(privs, secret, bootstrap, g - 1, at);
    }
    var kept, gone := Ratcheted(ChainOf(secret, bootstrap), at), Ratcheted(ChainOf(secret, bootstrap), g);
    assert !Computable({kept}, privs, gone);
    assert MessageKey(gone) != kept;
  }
}
