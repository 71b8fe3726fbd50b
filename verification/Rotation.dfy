/** Who mints the room key of a group call, and when the call has converged on it. */
module Rotation {
  import opened SymbolicCrypto

  type Id = string

  // ---------------------------------------------------------------------
  // The election: earliest join time first, unknown join times last, then
  // identities in order of their code units.

  datatype Participant = Participant(identity: Id, joinedAt: Option<int>)

  predicate Below(a: Id, b: Id) {
    b != [] && (a == [] || a[0] < b[0] || (a[0] == b[0] && Below(a[1..], b[1..])))
  }

  predicate Precedes(a: Participant, b: Participant) {
    if a.joinedAt != b.joinedAt then a.joinedAt.Some? && (b.joinedAt.Some? ==> a.joinedAt.value < b.joinedAt.value)
    else Below(a.identity, b.identity)
  }

  /** A stable insertion sort stands for the library's stable sort. */
  function Inserted(p: Participant, sorted: seq<Participant>): seq<Participant> {
    if sorted == [] || !Precedes(sorted[0], p) then [p] + sorted else [sorted[0]] + Inserted(p, sorted[1..])
  }

  function Sorted(ps: seq<Participant>): seq<Participant> {
    if ps == [] then [] else Inserted(ps[0], Sorted(ps[1..]))
  }

  /** None stands for the error raised on an empty list. */
  function Elected(ps: seq<Participant>): Option<Id> {
    if ps == [] then None else SortedSame(ps); Some(Sorted(ps)[0].identity)
  }

  lemma {:induction false} InsertedSame(p: Participant, sorted: seq<Participant>)
    ensures Inserted(p, sorted) != []
    ensures forall q :: q in Inserted(p, sorted) <==> q == p || q in sorted
  {
    if sorted != [] && Precedes(sorted[0], p) {
      InsertedSame(p, sorted[1..]);
      assert sorted == [sorted[0]] + sorted[1..];
    }
  }

  lemma {:induction false} SortedSame(ps: seq<Participant>)
    ensures ps != [] ==> Sorted(ps) != []
    ensures forall q :: q in Sorted(ps) <==> q in ps
  {
    if ps != [] {
      SortedSame(ps[1..]);
      InsertedSame(ps[0], Sorted(ps[1..]));
      assert ps == [ps[0]] + ps[1..];
    }
  }

  lemma {:induction false} BelowIsStrictTotal(a: Id, b: Id)
    ensures !(Below(a, b) && Below(b, a)) && !Below(a, a)
    ensures a == b || Below(a, b) || Below(b, a)
  {
    if a != [] {
      BelowIsStrictTotal(a[1..], a[1..]);
      if b != [] {
        BelowIsStrictTotal(a[1..], b[1..]);
        if a[0] == b[0] && a[1..] == b[1..] { assert a == [a[0]] + a[1..] && b == [b[0]] + b[1..]; }
      }
    }
  }

  lemma {:induction false} BelowTransitive(a: Id, b: Id, c: Id)
    requires Below(a, b) && Below(b, c)
    ensures Below(a, c)
  {
    if a != [] && a[0] == b[0] == c[0] { BelowTransitive(a[1..], b[1..], c[1..]); }
  }

  lemma PrecedesTransitive(a: Participant, b: Participant, c: Participant)
    ensures Precedes(a, b) && Precedes(b, c) ==> Precedes(a, c)
    ensures Precedes(a, b) && !Precedes(c, b) ==> Precedes(a, c)
    ensures !Precedes(a, b) && !Precedes(b, c) ==> !Precedes(a, c)
  {
    BelowIsStrictTotal(a.identity, b.identity);
    BelowIsStrictTotal(b.identity, c.identity);
    BelowIsStrictTotal(a.identity, c.identity);
    if Below(a.identity, b.identity) && Below(b.identity, c.identity) {
      BelowTransitive(a.identity, b.identity, c.identity);
    }
    if Below(c.identity, b.identity) && Below(b.identity, a.identity) {
      BelowTransitive(c.identity, b.identity, a.identity);
    }
    if Below(a.identity, c.identity) && Below(c.identity, b.identity) {
      BelowTransitive(a.identity, c.identity, b.identity);
    }
    if Below(b.identity, c.identity) && Below(c.identity, a.identity) {
      BelowTransitive(b.identity, c.identity, a.identity);
    }
  }

  predicate First(p: Participant, ps: seq<Participant>) {
    p in ps && forall q :: q in ps ==> !Precedes(q, p)
  }

  predicate InOrder(ps: seq<Participant>) {
    forall i, j :: 0 <= i < j < |ps| ==> !Precedes(ps[j], ps[i])
  }

  lemma {:induction false} InsertedInOrder(p: Participant, sorted: seq<Participant>)
    requires InOrder(sorted)
    ensures InOrder(Inserted(p, sorted))
  {
    var r := Inserted(p, sorted);
    if sorted != [] && Precedes(sorted[0], p) {
      InsertedInOrder(p, sorted[1..]);
      InsertedSame(p, sorted[1..]);
      BelowIsStrictTotal(sorted[0].identity, p.identity);
      forall j | 0 < j < |r|
        ensures !Precedes(r[j], r[0])
      {
        assert r[j] in Inserted(p, sorted[1..]);
        if r[j] in sorted[1..] { var k :| 0 <= k < |sorted[1..]| && sorted[1..][k] == r[j]; }
      }
    } else if sorted != [] {
      forall j | 0 < j < |r|
        ensures !Precedes(r[j], p)
      {
        if j > 1 { assert r[j] == sorted[j - 1]; }
        PrecedesTransitive(r[j], sorted[0], p);
      }
    }
  }

  lemma {:induction false} SortedInOrder(ps: seq<Participant>)
    ensures InOrder(Sorted(ps))
  {
    if ps != [] {
      SortedInOrder(ps[1..]);
      InsertedInOrder(ps[0], Sorted(ps[1..]));
    }
  }

  /** The election is the minimum: an identity wins exactly when one of its entries
      is preceded by no other. */
  lemma ElectedIsMinimum(ps: seq<Participant>, id: Id)
    ensures Elected(ps) == Some(id) <==> exists p :: First(p, ps) && p.identity == id
  {
    if ps != [] {
      SortedSame(ps);
      SortedInOrder(ps);
      var s := Sorted(ps);
      forall q | q in ps
        ensures !Precedes(q, s[0])
      {
        assert q in s;
        BelowIsStrictTotal(q.identity, q.identity);
      }
      assert First(s[0], ps);
      forall p | First(p, ps)
        ensures p.identity == s[0].identity
      {
        BelowIsStrictTotal(p.identity, s[0].identity);
      }
    }
  }

  /** Code units decide at the first difference, and a prefix comes first. */
  predicate DiffersAt(a: Id, b: Id, k: nat) {
    k <= |a| && k < |b| && a[..k] == b[..k] && (k == |a| || a[k] < b[k])
  }

  lemma {:induction false} BelowIsLexicographic(a: Id, b: Id)
    ensures Below(a, b) <==> exists k: nat :: DiffersAt(a, b, k)
  {
    if b != [] && (a == [] || a[0] < b[0]) {
      assert DiffersAt(a, b, 0);
    } else if a != [] && b != [] && a[0] == b[0] {
      BelowIsLexicographic(a[1..], b[1..]);
      assert a == [a[0]] + a[1..] && b == [b[0]] + b[1..];
      if k: nat :| DiffersAt(a[1..], b[1..], k) {
        assert a[..k + 1] == [a[0]] + a[1..][..k] && b[..k + 1] == [b[0]] + b[1..][..k];
        assert DiffersAt(a, b, k + 1);
      }
      if k: nat :| DiffersAt(a, b, k) {
        assert k > 0;
        assert a[1..][..k - 1] == a[..k][1..] && b[1..][..k - 1] == b[..k][1..];
        assert DiffersAt(a[1..], b[1..], k - 1);
      }
    } else {
      assert forall k: nat :: DiffersAt(a, b, k) ==> k == 0 || a[..k][0] == b[..k][0];
    }
  }

  /** The winner joined no later than anybody whose join time is known, and of those who
      joined when it did, or are unknown as it is, has the least identity. */
  lemma WinnerJoinedFirst(ps: seq<Participant>, winner: Participant, q: Participant)
    requires First(winner, ps) && q in ps
    ensures q.joinedAt.Some? ==> winner.joinedAt.Some? && winner.joinedAt.value <= q.joinedAt.value
    ensures q.joinedAt == winner.joinedAt && q.identity != winner.identity ==>
              exists k: nat :: DiffersAt(winner.identity, q.identity, k)
  {
    assert !Precedes(q, winner);
    BelowIsStrictTotal(winner.identity, q.identity);
    BelowIsLexicographic(winner.identity, q.identity);
  }

  /** Clients that see the same people elect the same rotator, in whatever order
      they list them. */
  lemma OrderDoesNotMatter(ps: seq<Participant>, qs: seq<Participant>)
    requires forall p :: p in ps <==> p in qs
    ensures Elected(ps) == Elected(qs)
  {
    assert qs == [] || qs[0] in qs;
    if ps != [] {
      assert ps[0] in qs;
      var id := Elected(ps).value;
      ElectedIsMinimum(ps, id);
      var p :| First(p, ps) && p.identity == id;
      assert First(p, qs);
      ElectedIsMinimum(qs, id);
    }
  }

  /** A participant whose join time is unknown wins only when nobody's is known. */
  lemma UnknownLosesToKnown(ps: seq<Participant>, p: Participant, q: Participant)
    requires First(p, ps) && q in ps && p.joinedAt == None
    ensures q.joinedAt == None
  {
    assert !Precedes(q, p);
  }

  /** Somebody joining takes over exactly when they come before the winner. */
  lemma NewcomerTakesOverExactlyWhen(ps: seq<Participant>, i: nat, winner: Participant, q: Participant)
    requires First(winner, ps) && i <= |ps| && q.identity != winner.identity
    ensures Elected(ps) == Some(winner.identity)
    ensures Elected(ps[..i] + [q] + ps[i..]) == Some(if Precedes(q, winner) then q.identity else winner.identity)
  {
    ElectedIsMinimum(ps, winner.identity);
    var more := ps[..i] + [q] + ps[i..];
    assert ps == ps[..i] + ps[i..];
    assert forall p :: p in more <==> p == q || p in ps;
    var first := if Precedes(q, winner) then q else winner;
    forall p | p in more
      ensures !Precedes(p, first)
    {
      PrecedesTransitive(p, winner, q);
      BelowIsStrictTotal(p.identity, p.identity);
      if Precedes(q, winner) && p in ps {
        if Precedes(p, q) { PrecedesTransitive(p, q, winner); }
      }
    }
    assert First(first, more);
    ElectedIsMinimum(more, first.identity);
  }

  // ---------------------------------------------------------------------
  // Convergence on one generation.

  datatype Action = Wait | Converged | RetryRotation | PromptRejoin

  /** A peer's entry is the fingerprint recorded for it, null included. */
  datatype Convergence = Convergence(generation: int, expected: int, own: Option<string>, peers: map<Id,
                                     Option<string>>, retried: bool)

  function Started(generation: int, expected: int): Convergence {
    Convergence(generation, expected, None, map[], false)
  }

  function Disagreeing(c: Convergence): set<Id> {
    set id | id in c.peers && c.peers[id] != c.own
  }

  function MismatchOf(c: Convergence): real {
    if c.own == None || |c.peers| == 0 then 0.0 else |Disagreeing(c)| as real / |c.peers| as real
  }

  function Decided(c: Convergence): (Convergence, Action) {
    if |c.peers| < c.expected then (c, Wait)
    else if MismatchOf(c) <= 0.0 then (c, Action.Converged)
    else if !c.retried then (c.(retried := true), RetryRotation)
    else (c, PromptRejoin)
  }

  class FingerprintConvergence {
    const generation: int
    var expectedPeerCount: int
    var ownFingerprint: Option<string>
    var peerFingerprints: map<Id, Option<string>>
    var retriedOnce: bool

    function State(): Convergence
      reads this
    {
      Convergence(generation, expectedPeerCount, ownFingerprint, peerFingerprints, retriedOnce)
    }

    constructor (generation: int, expectedPeerCount: int)
      ensures State() == Started(generation, expectedPeerCount)
    {
      this.generation, this.expectedPeerCount := generation, expectedPeerCount;
      ownFingerprint, peerFingerprints, retriedOnce := None, map[], false;
    }

    method SetOwnFingerprint(fp: string)
      modifies this
      ensures State() == old(State()).(own := Some(fp))
    {
      ownFingerprint := Some(fp);
    }

    method RecordPeerFingerprint(id: Id, fp: Option<string>)
      modifies this
      ensures State() == old(State()).(peers := old(peerFingerprints)[id := fp])
    {
      peerFingerprints := peerFingerprints[id := fp];
    }

    method MismatchFraction() returns (f: real)
      ensures f == MismatchOf(State())
    {
      if ownFingerprint == None || |peerFingerprints| == 0 { return 0.0; }
      var mismatched, left := 0, peerFingerprints.Keys;
      ghost var seen: set<Id> := {};
      while left != {}
        invariant seen !! left && seen + left == peerFingerprints.Keys
        invariant mismatched == |set id | id in seen && peerFingerprints[id] != ownFingerprint|
        decreases |left|
      {
        var id :| id in left;
        ghost var before := set p | p in seen && peerFingerprints[p] != ownFingerprint;
        if peerFingerprints[id] != ownFingerprint {
          mismatched := mismatched + 1;
          assert (set p | p in seen + {id} && peerFingerprints[p] != ownFingerprint) == before + {id};
        } else {
          assert (set p | p in seen + {id} && peerFingerprints[p] != ownFingerprint) == before;
        }
        seen, left := seen + {id}, left - {id};
      }
      assert Disagreeing(State()) == set id | id in seen && peerFingerprints[id] != ownFingerprint;
      return mismatched as real / |peerFingerprints| as real;
    }

    method Decide() returns (a: Action)
      modifies this
      ensures (State(), a) == Decided(old(State()))
    {
      if |peerFingerprints| < expectedPeerCount { return Wait; }
      var mismatch := MismatchFraction();
      if mismatch <= 0.0 { return Action.Converged; }
      if !retriedOnce {
        retriedOnce := true;
        return RetryRotation;
      }
      return PromptRejoin;
    }
  }

  /** This peer reported something else than our own fingerprint, which is known. */
  predicate Disagrees(c: Convergence, id: Id) {
    c.own.Some? && id in c.peers && c.peers[id] != c.own
  }

  lemma MismatchExactlyWhen(c: Convergence)
    ensures MismatchOf(c) <= 0.0 <==> forall id :: !Disagrees(c, id)
  {
    if id :| Disagrees(c, id) {
      assert id in Disagreeing(c);
    } else {
      assert c.own.Some? ==> Disagreeing(c) == {} by {
        assert forall id :: id in Disagreeing(c) && c.own.Some? ==> Disagrees(c, id);
      }
    }
  }

  /** The verdict: wait while somebody is missing; converged when nobody disagrees; and
      on a single disagreement already, retry the first time and offer to rejoin after. */
  lemma DecidedExactlyWhen(c: Convergence)
    ensures Decided(c).1 == Wait <==> |c.peers| < c.expected
    ensures forall id :: |c.peers| >= c.expected && Disagrees(c, id) ==>
              Decided(c) == (c.(retried := true), if c.retried then PromptRejoin else RetryRotation)
    ensures Decided(c).1 in {RetryRotation, PromptRejoin} ==> exists id :: Disagrees(c, id)
    ensures Decided(c).0 == c.(retried := c.retried || Decided(c).1 == RetryRotation)
  {
    MismatchExactlyWhen(c);
  }

  /** "Converged" means the expected number of peers reported, and once our own
      fingerprint is known, every one of them reported that one. */
  lemma ConvergedExactlyWhen(c: Convergence)
    ensures Decided(c).1 == Action.Converged <==>
            |c.peers| >= c.expected && (c.own == None || forall id :: id in c.peers ==> c.peers[id] == c.own)
  {
    MismatchExactlyWhen(c);
    if id :| Disagrees(c, id) {
      assert c.own != None && c.peers[id] != c.own;
    } else {
      assert c.own != None ==> forall id :: id in c.peers ==> c.peers[id] == c.own || Disagrees(c, id);
    }
  }

  datatype Input = SetOwn(fp: string) | Record(id: Id, mark: Option<string>) | Expect(n: int) | Ask

  /** One instance driven by any inputs, with the verdicts it gave. */
  function Driven(c: Convergence, inputs: seq<Input>): (Convergence, seq<Action>) {
    if inputs == [] then (c, [])
    else
      var before := Driven(c, inputs[..|inputs| - 1]);
      match inputs[|inputs| - 1]
      case SetOwn(fp) => (before.0.(own := Some(fp)), before.1)
      case Record(id, mark) => (before.0.(peers := before.0.peers[id := mark]), before.1)
      case Expect(n) => (before.0.(expected := n), before.1)
      case Ask => (Decided(before.0).0, before.1 + [Decided(before.0).1])
  }

  /** How often an action was the verdict. */
  function Times(verdicts: seq<Action>, a: Action): nat {
    if verdicts == [] then 0
    else Times(verdicts[..|verdicts| - 1], a) + (if verdicts[|verdicts| - 1] == a then 1 else 0)
  }

  /** One instance asks for a retry at most once, and only then offers to rejoin. */
  lemma {:induction false} RetriesOnceThenPrompts(generation: int, expected: int, inputs: seq<Input>)
    ensures var (c, verdicts) := Driven(Started(generation, expected), inputs);
            && Times(verdicts, RetryRotation) == (if c.retried then 1 else 0)
            && (PromptRejoin in verdicts ==> RetryRotation in verdicts)
            && (c.retried <==> RetryRotation in verdicts)
            && forall i, j :: 0 <= i < j < |verdicts| && verdicts[i] in {RetryRotation, PromptRejoin} ==>
                 verdicts[j] != RetryRotation
  {
    if inputs != [] {
      RetriesOnceThenPrompts(generation, expected, inputs[..|inputs| - 1]);
      var before := Driven(Started(generation, expected), inputs[..|inputs| - 1]);
      DecidedExactlyWhen(before.0);
      var after := before.1 + [Decided(before.0).1];
      assert after[..|before.1|] == before.1;
    }
  }

  /** After any inputs, asking with everybody heard from and somebody disagreeing is a
      retry if no retry was asked for before, and an offer to rejoin from then on. */
  lemma DisagreementIsAnswered(generation: int, expected: int, inputs: seq<Input>, id: Id)
    requires var c := Driven(Started(generation, expected), inputs).0; |c.peers| >= c.expected && Disagrees(c, id)
    ensures var before := Driven(Started(generation, expected), inputs).1;
            Driven(Started(generation, expected), inputs + [Ask]).1
              == before + [if RetryRotation in before then PromptRejoin else RetryRotation]
  {
    RetriesOnceThenPrompts(generation, expected, inputs);
    DecidedExactlyWhen(Driven(Started(generation, expected), inputs).0);
    assert (inputs + [Ask])[..|inputs|] == inputs;
  }
}
