/** Who holds which username, and how long a released one stays parked. Names are
    already validated and normalised; times are in microseconds. */
module Usernames {
  import opened SymbolicCrypto

  const RELEASE_COOLDOWN := 30 * 86_400_000_000

  type Email = string
  type Name = string

  datatype Release = Release(name: Name, owner: Email, at: int)

  /** The allowlist's username column, and the history table in insertion order. */
  datatype Accounts = Accounts(held: map<Email, Option<Name>>, history: seq<Release>)

  datatype UsernameError = Invalid | Taken | RecentlyReleased | NotAMember | HistoryConflict

  predicate Holds(s: Accounts, m: Email, name: Name) {
    m in s.held && s.held[m] == Some(name)
  }

  function Holders(s: Accounts, name: Name): set<Email> {
    set m | m in s.held && s.held[m] == Some(name)
  }

  /** A release that keeps this account from the name. */
  predicate Parks(r: Release, name: Name, m: Email, checkedAt: int) {
    r.name == name && r.owner != m && r.at > checkedAt - RELEASE_COOLDOWN
  }

  predicate ParkedForOthers(history: seq<Release>, name: Name, m: Email, checkedAt: int) {
    exists i :: 0 <= i < |history| && Parks(history[i], name, m, checkedAt)
  }

  predicate Listed(history: seq<Release>, name: Name, at: int) {
    exists i :: 0 <= i < |history| && history[i].name == name && history[i].at == at
  }

  /** Claiming a name: the clock is read once for the cooldown and once for the write. */
  function Claimed(s: Accounts, m: Email, name: Name, checkedAt: int, now: int): Result<Accounts, UsernameError> {
    if Holders(s, name) - {m} != {} then Err(Taken)
    else if m !in Holders(s, name) && ParkedForOthers(s.history, name, m, checkedAt) then Err(RecentlyReleased)
    else if m !in s.held then Err(NotAMember)
    else
      var mine := s.held[m];
      var held := s.held[m := Some(name)];
      if mine == None || mine.value == name then Ok(s.(held := held))
      else if Listed(s.history, mine.value, now) then Err(HistoryConflict)
      else Ok(Accounts(held, s.history + [Release(mine.value, m, now)]))
  }

  class UsernameService {
    var held: map<Email, Option<Name>>
    var history: seq<Release>

    function Tables(): Accounts
      reads this
    {
      Accounts(held, history)
    }

    constructor (members: set<Email>)
      ensures Tables() == Opened(members)
    {
      held := map m | m in members :: None;
      history := [];
    }

    method IsParkedForOthers(name: Name, m: Email, checkedAt: int) returns (parked: bool)
      ensures parked == ParkedForOthers(history, name, m, checkedAt)
    {
      var i := 0;
      while i < |history|
        invariant 0 <= i <= |history|
        invariant !ParkedForOthers(history[..i], name, m, checkedAt)
      {
        if history[i].name == name && history[i].owner != m && history[i].at > checkedAt - RELEASE_COOLDOWN {
          return true;
        }
        i := i + 1;
      }
      assert history[..i] == history;
      return false;
    }

    /** A refused claim changes neither table: the release is undone with it. */
    method SetUsername(m: Email, checked: Option<Name>, checkedAt: int, now: int) returns (r: Result<Name,
                       UsernameError>)
      modifies this
      ensures checked == None ==> r == Err(Invalid) && Tables() == old(Tables())
      ensures checked.Some? ==> match Claimed(old(Tables()), m, checked.value, checkedAt, now)
                                case Ok(s) => r == Ok(checked.value) && Tables() == s
                                case Err(e) => r == Err(e) && Tables() == old(Tables())
    {
      if checked == None { return Err(Invalid); }
      var name := checked.value;
      var holders := set e | e in held && held[e] == Some(name);
      assert holders == Holders(Tables(), name);
      if holders - {m} != {} { return Err(Taken); }
      if m !in holders {
        var parked := IsParkedForOthers(name, m, checkedAt);
        if parked { return Err(RecentlyReleased); }
      }
      var heldBefore, historyBefore := held, history;
      if m !in held { return Err(NotAMember); }
      var previous := held[m];
      if previous.Some? && previous.value != name {
        var clash := exists h <- history :: h.name == previous.value && h.at == now;
        history := history + [Release(previous.value, m, now)];
        if clash {
          history := historyBefore;
          return Err(HistoryConflict);
        }
      }
      held := held[m := Some(name)];
      return Ok(name);
    }
  }

  // ---------------------------------------------------------------------
  // One claim.

  /** Claiming the name one holds already changes nothing, however often. */
  lemma OwnNameAgain(s: Accounts, m: Email, name: Name, checkedAt: int, now: int)
    requires Holds(s, m, name) && forall e :: Holds(s, e, name) ==> e == m
    ensures Claimed(s, m, name, checkedAt, now) == Ok(s)
  {
    assert forall e :: e in Holders(s, name) ==> Holds(s, e, name);
    assert m in Holders(s, name);
    assert s.held[m := Some(name)] == s.held;
  }

  /** Why a claim is refused: somebody else holds the name; or it is free and parked; or
      the claimant is no member; or the old name has a release at this instant. */
  lemma RefusedExactlyWhy(s: Accounts, m: Email, name: Name, checkedAt: int, now: int)
    ensures Claimed(s, m, name, checkedAt, now) == Err(Taken) <==> exists e :: e != m && Holds(s, e, name)
    ensures Claimed(s, m, name, checkedAt, now) == Err(RecentlyReleased) <==>
              (forall e :: !Holds(s, e, name)) && exists r :: r in s.history && Parks(r, name, m, checkedAt)
    ensures Claimed(s, m, name, checkedAt, now) == Err(NotAMember) ==> m !in s.held
    ensures Claimed(s, m, name, checkedAt, now) == Err(HistoryConflict) ==>
              && m in s.held && s.held[m].Some? && s.held[m] != Some(name)
              && exists r :: r in s.history && r.name == s.held[m].value && r.at == now
  {
    if e :| e != m && Holds(s, e, name) {
      assert e in Holders(s, name) - {m};
    } else {
      assert Holders(s, name) - {m} == {} by {
        assert forall e :: e in Holders(s, name) ==> Holds(s, e, name);
      }
      assert m in Holders(s, name) <==> Holds(s, m, name);
      if ParkedForOthers(s.history, name, m, checkedAt) {
        var i :| 0 <= i < |s.history| && Parks(s.history[i], name, m, checkedAt);
        assert s.history[i] in s.history;
      }
    }
  }

  // ---------------------------------------------------------------------
  // Runs of claims, one after another, with a clock that never goes back.

  datatype Call = Call(m: Email, name: Name, checkedAt: int, now: int)

  function Opened(members: set<Email>): Accounts {
    Accounts(map m | m in members :: None, [])
  }

  function After(s: Accounts, c: Call): Accounts {
    match Claimed(s, c.m, c.name, c.checkedAt, c.now)
    case Ok(t) => t
    case Err(_) => s
  }

  function Run(members: set<Email>, calls: seq<Call>): Accounts {
    if calls == [] then Opened(members) else After(Run(members, calls[..|calls| - 1]), calls[|calls| - 1])
  }

  predicate Clocked(calls: seq<Call>) {
    && (forall i :: 0 <= i < |calls| ==> calls[i].checkedAt <= calls[i].now)
    && (forall i, j :: 0 <= i < j < |calls| ==> calls[i].now <= calls[j].checkedAt)
  }

  ghost predicate Unique(s: Accounts) {
    forall a, b, name :: Holds(s, a, name) && Holds(s, b, name) ==> a == b
  }

  ghost predicate Orderly(s: Accounts, clock: int) {
    && Unique(s)
    && (forall i :: 0 <= i < |s.history| ==> s.history[i].at <= clock)
    && (forall i, m :: 0 <= i < |s.history| && Holds(s, m, s.history[i].name) && m != s.history[i].owner ==>
          s.history[i].at + RELEASE_COOLDOWN <= clock)
    && (forall i, j :: 0 <= i < j < |s.history| ==>
          s.history[i].name == s.history[j].name && s.history[i].owner != s.history[j].owner ==>
            s.history[i].at + RELEASE_COOLDOWN <= s.history[j].at)
  }

  /** What a successful claim changes. */
  lemma ClaimChanges(s: Accounts, c: Call, e: Email, name: Name)
    requires After(s, c) != s
    ensures Holds(After(s, c), e, name) <==> if e == c.m then name == c.name else Holds(s, e, name)
    ensures Holds(s, e, c.name) ==> e == c.m
    ensures || After(s, c).history == s.history
            || exists o ::
                 o != c.name && Holds(s, c.m, o) && After(s, c).history == s.history + [Release(o, c.m, c.now)]
    ensures Holds(s, c.m, c.name) || !ParkedForOthers(s.history, c.name, c.m, c.checkedAt)
  {
    assert Holders(s, c.name) - {c.m} == {};
    assert e in Holders(s, c.name) ==> e == c.m || e in Holders(s, c.name) - {c.m};
    if After(s, c).history != s.history {
      assert Holds(s, c.m, s.held[c.m].value);
    }
  }

  lemma ClaimStaysOrderly(s: Accounts, clock: int, c: Call)
    requires Orderly(s, clock) && clock <= c.checkedAt <= c.now
    ensures Orderly(After(s, c), c.now)
  {
    var t := After(s, c);
    if t != s {
      hide After, Holds;
      forall a, b, name | Holds(t, a, name) && Holds(t, b, name)
        ensures a == b
      {
        ClaimChanges(s, c, a, name);
        ClaimChanges(s, c, b, name);
      }
      ClaimChanges(s, c, c.m, c.name);
      var n := |s.history|;
      forall i, m | 0 <= i < |t.history| && Holds(t, m, t.history[i].name) && m != t.history[i].owner
        ensures t.history[i].at + RELEASE_COOLDOWN <= c.now
      {
        ClaimChanges(s, c, m, t.history[i].name);
        if i < n && m == c.m && !Holds(s, c.m, c.name) {
          assert !ParkedForOthers(s.history, c.name, c.m, c.checkedAt);
        }
      }
    }
  }

  function ClockOf(calls: seq<Call>, default: int): int {
    if calls == [] then default else calls[|calls| - 1].now
  }

  lemma {:induction false} RunOrderly(members: set<Email>, calls: seq<Call>, start: int)
    requires Clocked(calls) && (calls != [] ==> start <= calls[0].checkedAt)
    ensures Orderly(Run(members, calls), ClockOf(calls, start))
  {
    if calls != [] {
      var n := |calls| - 1;
      RunOrderly(members, calls[..n], start);
      ClaimStaysOrderly(Run(members, calls[..n]), ClockOf(calls[..n], start), calls[n]);
    }
  }

  /** In every sequential run, at most one account holds a name. */
  lemma OneHolder(members: set<Email>, calls: seq<Call>, a: Email, b: Email, name: Name)
    requires Clocked(calls) && Holds(Run(members, calls), a, name) && Holds(Run(members, calls), b, name)
    ensures a == b
  {
    RunOrderly(members, calls, if calls == [] then 0 else calls[0].checkedAt);
  }

  /** `a` gave the name up at step `k` of the run. */
  predicate GaveUp(members: set<Email>, calls: seq<Call>, k: nat, a: Email, name: Name)
    requires k < |calls|
  {
    Holds(Run(members, calls[..k]), a, name) && !Holds(Run(members, calls[..k + 1]), a, name)
  }

  lemma {:induction false} GivenUpBetween(members: set<Email>, calls: seq<Call>, i: nat, a: Email,
                                          name: Name) returns (k: nat)
    requires i <= |calls| && Holds(Run(members, calls[..i]), a, name) && !Holds(Run(members, calls), a, name)
    ensures i <= k < |calls| && GaveUp(members, calls, k, a, name)
    decreases |calls|
  {
    assert calls[..|calls|] == calls;
    var n := |calls| - 1;
    if Holds(Run(members, calls[..n]), a, name) {
      assert calls[..n + 1] == calls;
      k := n;
    } else {
      assert calls[..n][..i] == calls[..i];
      k := GivenUpBetween(members, calls[..n], i, a, name);
      assert calls[..n][..k] == calls[..k] && calls[..n][..k + 1] == calls[..k + 1];
    }
  }

  lemma {:induction false} GivenUpIsRecorded(members: set<Email>, calls: seq<Call>, k: nat, a: Email, name: Name)
    requires k < |calls| && GaveUp(members, calls, k, a, name)
    ensures Release(name, a, calls[k].now) in Run(members, calls).history
  {
    var n := |calls| - 1;
    if k < n {
      assert calls[..n][..k] == calls[..k] && calls[..n][..k + 1] == calls[..k + 1];
      GivenUpIsRecorded(members, calls[..n], k, a, name);
    } else {
      assert calls[..n + 1] == calls;
    }
  }

  /** The history table is exactly the releases of the run. */
  lemma {:induction false} HistoryIsReleases(members: set<Email>, calls: seq<Call>, h: Release) returns (k: nat)
    requires h in Run(members, calls).history
    ensures k < |calls| && GaveUp(members, calls, k, h.owner, h.name) && h.at == calls[k].now
  {
    var n := |calls| - 1;
    if h in Run(members, calls[..n]).history {
      k := HistoryIsReleases(members, calls[..n], h);
      assert calls[..n][..k] == calls[..k] && calls[..n][..k + 1] == calls[..k + 1];
    } else {
      assert calls[..n + 1] == calls;
      k := n;
    }
  }

  /** A name one account held and another holds now was given up, and thirty days
      have passed since. */
  lemma ParkedThirtyDays(members: set<Email>, calls: seq<Call>, i: nat, a: Email, b: Email, name: Name) returns (k: nat)
    requires Clocked(calls) && i <= |calls| && a != b
    requires Holds(Run(members, calls[..i]), a, name) && Holds(Run(members, calls), b, name)
    ensures i <= k < |calls| && GaveUp(members, calls, k, a, name)
    ensures calls[k].now + RELEASE_COOLDOWN <= calls[|calls| - 1].now
  {
    RunOrderly(members, calls, if calls == [] then 0 else calls[0].checkedAt);
    k := GivenUpBetween(members, calls, i, a, name);
    GivenUpIsRecorded(members, calls, k, a, name);
  }

  ghost predicate OthersGaveUpLately(members: set<Email>, calls: seq<Call>, m: Email, name: Name, checkedAt: int) {
    exists k, a ::
      0 <= k < |calls| && a != m && calls[k].now > checkedAt - RELEASE_COOLDOWN && GaveUp(members, calls, k, a, name)
  }

  ghost predicate OldNameGivenUpAt(members: set<Email>, calls: seq<Call>, s: Accounts, m: Email, now: int) {
    exists k, a, o :: 0 <= k < |calls| && calls[k].now == now && Holds(s, m, o) && GaveUp(members, calls, k, a, o)
  }

  /** For a free name, a known member's claim goes through exactly when nobody else
      gave the name up less than thirty days ago, and the member's own old name has
      no release recorded at this very instant. */
  lemma FreeNameClaimedExactlyWhen(members: set<Email>, calls: seq<Call>, s: Accounts, c: Call)
    requires s == Run(members, calls) && c.m in members && Holders(s, c.name) == {}
    ensures Holds(After(s, c), c.m, c.name) <==>
              && !OthersGaveUpLately(members, calls, c.m, c.name, c.checkedAt)
              && !OldNameGivenUpAt(members, calls, s, c.m, c.now)
  {
    MembersStay(members, calls);
    assert c.m !in Holders(s, c.name);
    ParkedMeans(members, calls, c);
    ListedMeans(members, calls, c);
  }

  lemma {:induction false} MembersStay(members: set<Email>, calls: seq<Call>)
    ensures Run(members, calls).held.Keys == members
  {
    if calls != [] { MembersStay(members, calls[..|calls| - 1]); }
  }

  lemma ParkedMeans(members: set<Email>, calls: seq<Call>, c: Call)
    ensures ParkedForOthers(Run(members, calls).history, c.name, c.m, c.checkedAt) ==
              OthersGaveUpLately(members, calls, c.m, c.name, c.checkedAt)
  {
    var history := Run(members, calls).history;
    if i :| 0 <= i < |history| && Parks(history[i], c.name, c.m, c.checkedAt) {
      var k := HistoryIsReleases(members, calls, history[i]);
    }
    if OthersGaveUpLately(members, calls, c.m, c.name, c.checkedAt) {
      var k, a :|
        && 0 <= k < |calls| && a != c.m && calls[k].now > c.checkedAt - RELEASE_COOLDOWN
        && GaveUp(members, calls, k, a, c.name);
      GivenUpIsRecorded(members, calls, k, a, c.name);
    }
  }

  lemma ListedMeans(members: set<Email>, calls: seq<Call>, c: Call)
    requires c.m in Run(members, calls).held
    ensures var s := Run(members, calls);
            (s.held[c.m].Some? && Listed(s.history, s.held[c.m].value, c.now)) ==
              OldNameGivenUpAt(members, calls, s, c.m, c.now)
  {
    var s := Run(members, calls);
    if s.held[c.m].Some? {
      var o := s.held[c.m].value;
      if i :| 0 <= i < |s.history| && s.history[i].name == o && s.history[i].at == c.now {
        var k := HistoryIsReleases(members, calls, s.history[i]);
        assert Holds(s, c.m, o);
      }
      if k, a :| 0 <= k < |calls| && calls[k].now == c.now && GaveUp(members, calls, k, a, o) {
        GivenUpIsRecorded(members, calls, k, a, o);
      }
    }
  }

  /** While a name someone gave up is parked, that account may take it back. */
  lemma ReleaserMayReclaim(members: set<Email>, calls: seq<Call>, s: Accounts, at: int, c: Call)
    requires Clocked(calls) && s == Run(members, calls) && c.m in members && Holders(s, c.name) == {}
    requires Release(c.name, c.m, at) in s.history && ClockOf(calls, 0) <= c.checkedAt < at + RELEASE_COOLDOWN
    requires !OldNameGivenUpAt(members, calls, s, c.m, c.now)
    ensures Holds(After(s, c), c.m, c.name)
  {
    RunOrderly(members, calls, calls[0].checkedAt);
    var history := s.history;
    var own :| 0 <= own < |history| && history[own] == Release(c.name, c.m, at);
    forall i | 0 <= i < |history| && history[i].name == c.name && history[i].owner != c.m
      ensures history[i].at <= c.checkedAt - RELEASE_COOLDOWN
    {
      if i < own {
        assert history[i].at + RELEASE_COOLDOWN <= history[own].at;
      }
    }
    ParkedMeans(members, calls, c);
    FreeNameClaimedExactlyWhen(members, calls, s, c);
  }

  lemma OneMore(members: set<Email>, calls: seq<Call>, c: Call)
    ensures Run(members, calls + [c]) == After(Run(members, calls), c)
  {
    assert (calls + [c])[..|calls|] == calls;
  }

  function Two(a: Option<Name>, b: Option<Name>, history: seq<Release>): Accounts {
    Accounts(map["a" := a, "b" := b], history)
  }

  lemma HandedOn(t: int)
    requires t == RELEASE_COOLDOWN
    ensures After(Opened({"a", "b"}), Call("a", "n", 0, 0)) == Two(Some("n"), None, [])
    ensures After(Two(Some("n"), None, []), Call("a", "x", 1, 1)) == Two(Some("x"), None, [Release("n", "a", 1)])
    ensures After(Two(Some("x"), None, [Release("n", "a", 1)]), Call("b", "n", t + 1, t + 1)) ==
              Two(Some("x"), Some("n"), [Release("n", "a", 1)])
  {
    assert Holders(Opened({"a", "b"}), "n") == {};
    assert Holders(Two(Some("n"), None, []), "x") == {};
    assert Holders(Two(Some("x"), None, [Release("n", "a", 1)]), "n") == {};
  }

  lemma HandedBack(t: int)
    requires t == RELEASE_COOLDOWN
    ensures var s := Two(Some("x"), Some("y"), [Release("n", "a", 1), Release("n", "b", t + 2)]);
            && After(Two(Some("x"), Some("n"), [Release("n", "a", 1)]), Call("b", "y", t + 2, t + 2)) == s
            && Holders(s, "n") == {} && After(s, Call("a", "n", t + 3, t + 3)) == s
  {
    var s := Two(Some("x"), Some("y"), [Release("n", "a", 1), Release("n", "b", t + 2)]);
    assert Holders(Two(Some("x"), Some("n"), [Release("n", "a", 1)]), "y") == {};
    assert s.history[1] == Release("n", "b", t + 2);
    assert ParkedForOthers(s.history, "n", "a", t + 3);
  }

  lemma FourClaims(t: int, calls: seq<Call>)
    requires t == RELEASE_COOLDOWN && |calls| == 4
    requires calls[0] == Call("a", "n", 0, 0) && calls[1] == Call("a", "x", 1, 1)
    requires calls[2] == Call("b", "n", t + 1, t + 1) && calls[3] == Call("b", "y", t + 2, t + 2)
    ensures Run({"a", "b"}, calls[..1]) == Two(Some("n"), None, [])
    ensures Run({"a", "b"}, calls[..2]) == Two(Some("x"), None, [Release("n", "a", 1)])
    ensures Run({"a", "b"}, calls) == Two(Some("x"), Some("y"), [Release("n", "a", 1), Release("n", "b", t + 2)])
  {
    HandedOn(t);
    HandedBack(t);
    assert Run({"a", "b"}, []) == Opened({"a", "b"});
    hide Run, After, Holders, Opened, Two;
    OneMore({"a", "b"}, [], calls[0]);
    OneMore({"a", "b"}, calls[..1], calls[1]);
    OneMore({"a", "b"}, calls[..2], calls[2]);
    OneMore({"a", "b"}, calls[..3], calls[3]);
    assert [] + [calls[0]] == calls[..1];
    assert calls[..1] + [calls[1]] == calls[..2];
    assert calls[..2] + [calls[2]] == calls[..3];
    assert calls[..3] + [calls[3]] == calls;
  }

  lemma FourClaimsClocked(t: int, calls: seq<Call>, c: Call)
    requires t >= 0 && c == Call("a", "n", t + 3, t + 3)
    requires |calls| == 4 && calls[0] == Call("a", "n", 0, 0) && calls[1] == Call("a", "x", 1, 1)
    requires calls[2] == Call("b", "n", t + 1, t + 1) && calls[3] == Call("b", "y", t + 2, t + 2)
    ensures Clocked(calls + [c])
  {}

  /** Beyond that the account has no claim of its own: once another member has held
      the name and given it up, it is parked for the first one too. */
  lemma ReclaimCanBeRefused(t: int, calls: seq<Call>, c: Call)
    requires t == RELEASE_COOLDOWN && c == Call("a", "n", t + 3, t + 3)
    requires |calls| == 4 && calls[0] == Call("a", "n", 0, 0) && calls[1] == Call("a", "x", 1, 1)
    requires calls[2] == Call("b", "n", t + 1, t + 1) && calls[3] == Call("b", "y", t + 2, t + 2)
    ensures Clocked(calls + [c]) && Holders(Run({"a", "b"}, calls), "n") == {}
    ensures GaveUp({"a", "b"}, calls, 1, "a", "n") && !Holds(Run({"a", "b"}, calls + [c]), "a", "n")
  {
    FourClaims(t, calls);
    HandedBack(t);
    OneMore({"a", "b"}, calls, c);
    hide Run, After, Holders, Clocked;
    FourClaimsClocked(t, calls, c);
    assert Holds(Two(Some("n"), None, []), "a", "n");
    assert !Holds(Two(Some("x"), None, [Release("n", "a", 1)]), "a", "n");
  }
}
