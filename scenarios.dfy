/** Worked revocations of one file, each stated for every request number the
    revocation may start at. */
module Scenarios {
  import opened Types
  import opened Backoff
  import opened Revoker

  const OWNER := "me@x"
  const FILE := Item("f1", "Budget")

  const Owner := Permission("p0", "user", "owner", OWNER)
  const Link := Permission("p1", "anyone", "reader", "")
  const Ann := Permission("p2", "user", "writer", "ann@x")
  const Team := Permission("p3", "group", "writer", "team@x")
  const Bob := Permission("p4", "user", "reader", "bob@x")
  /** The signed-in user again, as a plain grantee with other letter case. */
  const Me := Permission("p5", "user", "reader", "ME@x")

  /** A Drive on which no request fails. */
  function NoFaults(q: nat): Option<int>
  {
    None
  }

  /** A Drive on which only request number `n` fails, with `status`. */
  function FailsAt(n: nat, status: int): nat -> Option<int>
  {
    q => if q == n then Some(status) else None
  }

  lemma RevocablesSnoc(ps: seq<Permission>, p: Permission, owner: string)
    ensures Revocables(ps + [p], owner) == Revocables(ps, owner) + (if Revocable(p, owner) then [p] else [])
  {
    assert (ps + [p])[..|ps|] == ps;
  }

  lemma SweepSnoc(fault: nat -> Option<int>, at: nat, t: Tally, ps: seq<Permission>, p: Permission)
    ensures Sweep(fault, at, FILE, OWNER, t, ps + [p]) == Step(fault, at, FILE, OWNER, Sweep(fault, at, FILE, OWNER, t, ps), p)
  {
    assert (ps + [p])[..|ps|] == ps;
  }

  /** A revocation whose listing succeeds at the first attempt is the sweep
      of the listed permissions after one listing request and its pause. */
  lemma RevokeListed(fault: nat -> Option<int>, at: nat, ps: seq<Permission>)
    requires fault(at).None?
    ensures Revoke(fault, at, FILE, OWNER, Some(ps)) ==
      Sweep(fault, at, FILE, OWNER, Tally(0, 0, [], [], [ListPermissions(FILE.id)], [BASE_DELAY_MS]), ps)
  {
    FirstAttemptDecides(fault, at);
    RetryPolicy(fault, at);
    assert Repeat(ListPermissions(FILE.id), 1) == [ListPermissions(FILE.id)];
  }

  /** The signed-in user's own grant is kept whatever the letter case. */
  lemma OwnGrantKept()
    ensures !Revocable(Me, OWNER) && !Revocable(Owner, OWNER)
  {
    LowerIgnoresCase(Me.email, OWNER);
  }

  lemma OthersRevocable()
    ensures Revocable(Link, OWNER) && Revocable(Ann, OWNER) && Revocable(Team, OWNER) && Revocable(Bob, OWNER)
  {
    Grantee(Ann);
    Grantee(Team);
    Grantee(Bob);
  }

  /** A grantee whose address starts with a letter other than `m` is not
      the signed-in user. */
  lemma Grantee(p: Permission)
    requires p.role != "owner" && IsGrantee(p) && |p.email| > 0 && LowerChar(p.email[0]) != 'm'
    ensures Revocable(p, OWNER)
  {
    assert Lower(p.email)[0] != Lower(OWNER)[0];
  }

  lemma KeptOfOne()
    ensures Revocables([Owner], OWNER) == []
  {
    assert [Owner] == [] + [Owner];
    OwnGrantKept();
    RevocablesSnoc([], Owner, OWNER);
  }

  lemma KeptOfTwo()
    ensures Revocables([Owner, Link], OWNER) == [Link]
  {
    assert [Owner, Link] == [Owner] + [Link];
    KeptOfOne();
    OthersRevocable();
    RevocablesSnoc([Owner], Link, OWNER);
  }

  lemma KeptOfThree()
    ensures Revocables([Owner, Link, Ann], OWNER) == [Link, Ann]
  {
    assert [Owner, Link, Ann] == [Owner, Link] + [Ann];
    KeptOfTwo();
    OthersRevocable();
    RevocablesSnoc([Owner, Link], Ann, OWNER);
  }

  lemma KeptOfFour()
    ensures Revocables([Owner, Link, Ann, Team], OWNER) == [Link, Ann, Team]
  {
    assert [Owner, Link, Ann, Team] == [Owner, Link, Ann] + [Team];
    KeptOfThree();
    OthersRevocable();
    RevocablesSnoc([Owner, Link, Ann], Team, OWNER);
  }

  lemma KeptOfFive()
    ensures Revocables([Owner, Link, Ann, Team, Me], OWNER) == [Link, Ann, Team]
  {
    assert [Owner, Link, Ann, Team, Me] == [Owner, Link, Ann, Team] + [Me];
    KeptOfFour();
    OwnGrantKept();
    RevocablesSnoc([Owner, Link, Ann, Team], Me, OWNER);
  }

  lemma KeptOfSix()
    ensures Revocables([Owner, Link, Ann, Team, Me, Bob], OWNER) == [Link, Ann, Team, Bob]
  {
    assert [Owner, Link, Ann, Team, Me, Bob] == [Owner, Link, Ann, Team, Me] + [Bob];
    KeptOfFive();
    OthersRevocable();
    RevocablesSnoc([Owner, Link, Ann, Team, Me], Bob, OWNER);
  }

  /** The permission-type column names a link by its upper-cased type. */
  lemma LinkLabel()
    ensures Label(Link) == "ANYONE" && Details(Link) == "anyone link sharing removed"
  {
    UpperOf("anyone", "ANYONE");
  }

  lemma RowsOfKept()
    ensures Rows(FILE, [Link, Ann, Team, Bob]) == [
              RemovalRecord("f1", "Budget", "ANYONE", "anyone link sharing removed"),
              RemovalRecord("f1", "Budget", "EDITOR", "ann@x"),
              RemovalRecord("f1", "Budget", "EDITOR", "team@x"),
              RemovalRecord("f1", "Budget", "VIEWER", "bob@x")]
  {
    LinkLabel();
  }

  /** A link grant, two writers and a reader are removed, the owner role and
      the signed-in user's own grant are kept: `(4, 0)` and four removal rows
      labelled ANYONE, EDITOR, EDITOR, VIEWER. */
  lemma FourRemovedWithoutFaults(at: nat)
    ensures var r := Revoke(NoFaults, at, FILE, OWNER, Some([Owner, Link, Ann, Team, Me, Bob]));
      && r.removed == 4 && r.errors == 0 && r.failures == []
      && r.removals == [
           RemovalRecord("f1", "Budget", "ANYONE", "anyone link sharing removed"),
           RemovalRecord("f1", "Budget", "EDITOR", "ann@x"),
           RemovalRecord("f1", "Budget", "EDITOR", "team@x"),
           RemovalRecord("f1", "Budget", "VIEWER", "bob@x")]
  {
    KeptOfSix();
    RowsOfKept();
    Unfaulted(at, [Owner, Link, Ann, Team, Me, Bob], [Link, Ann, Team, Bob]);
  }

  lemma Unfaulted(at: nat, ps: seq<Permission>, kept: seq<Permission>)
    requires Revocables(ps, OWNER) == kept
    ensures var r := Revoke(NoFaults, at, FILE, OWNER, Some(ps));
      r.removed == |kept| && r.errors == 0 && r.failures == [] && r.removals == Rows(FILE, kept)
  {
    RevokeWithoutFaults(NoFaults, at, FILE, OWNER, ps);
  }

  /** A reader whose deletion fails with a status that is not retried:
      one attempt, no removal, one error row naming the grantee. */
  lemma FailedRemovalIsIsolated(at: nat)
    ensures var r := Revoke(FailsAt(at + 1, 404), at, FILE, OWNER, Some([Owner, Bob]));
      && r.removed == 0 && r.errors == 1 && r.removals == []
      && r.failures == [ErrorRecord("f1", "Budget", RemoveFailed("bob@x", 404))]
      && r.sent == [ListPermissions("f1"), DeletePermission("f1", Bob)]
      && r.sleeps == [100]
  {
    var fault := FailsAt(at + 1, 404);
    var t0 := Tally(0, 0, [], [], [ListPermissions(FILE.id)], [BASE_DELAY_MS]);
    assert [Owner, Bob] == [Owner] + [Bob];
    RevokeListed(fault, at, [Owner, Bob]);
    SweepSnoc(fault, at, t0, [Owner], Bob);
    OwnGrantKept();
    SweepOverStrippedIsIdle(fault, at, FILE, OWNER, t0, [Owner]);
    FailedStep(at, t0);
  }

  lemma FailedStep(at: nat, t0: Tally)
    requires t0 == Tally(0, 0, [], [], [ListPermissions(FILE.id)], [BASE_DELAY_MS])
    ensures Step(FailsAt(at + 1, 404), at, FILE, OWNER, t0, Bob) ==
      Tally(0, 1, [], [ErrorRecord("f1", "Budget", RemoveFailed("bob@x", 404))],
            [ListPermissions("f1"), DeletePermission("f1", Bob)], [100])
  {
    var fault := FailsAt(at + 1, 404);
    Grantee(Bob);
    FirstAttemptDecides(fault, at + 1);
    RetryPolicy(fault, at + 1);
    assert Repeat(DeletePermission("f1", Bob), 1) == [DeletePermission("f1", Bob)];
  }

  /** A throttled deletion is retried after 100 ms and then succeeds: the
      deletion is sent twice, and the waits are the pause after the listing,
      the backoff and the pause after the deletion. */
  lemma ThrottledRemovalIsRetried(at: nat)
    ensures var r := Revoke(FailsAt(at + 1, 429), at, FILE, OWNER, Some([Bob]));
      && r.removed == 1 && r.errors == 0
      && r.removals == [RemovalRecord("f1", "Budget", "VIEWER", "bob@x")]
      && r.sent == [ListPermissions("f1"), DeletePermission("f1", Bob), DeletePermission("f1", Bob)]
      && r.sleeps == [100, 100, 100]
  {
    var fault := FailsAt(at + 1, 429);
    var t0 := Tally(0, 0, [], [], [ListPermissions(FILE.id)], [BASE_DELAY_MS]);
    assert [Bob] == [] + [Bob];
    RevokeListed(fault, at, [Bob]);
    SweepSnoc(fault, at, t0, [], Bob);
    ThrottledStep(at, t0);
  }

  lemma ThrottledStep(at: nat, t0: Tally)
    requires t0 == Tally(0, 0, [], [], [ListPermissions(FILE.id)], [BASE_DELAY_MS])
    ensures Step(FailsAt(at + 1, 429), at, FILE, OWNER, t0, Bob) ==
      Tally(1, 0, [RemovalRecord("f1", "Budget", "VIEWER", "bob@x")], [],
            [ListPermissions("f1"), DeletePermission("f1", Bob), DeletePermission("f1", Bob)], [100, 100, 100])
  {
    Grantee(Bob);
    ThrottledOnce(at + 1);
    assert Repeat(DeletePermission("f1", Bob), 2) == [DeletePermission("f1", Bob), DeletePermission("f1", Bob)];
  }

  /** The wrapper on a request throttled once: two attempts, a 100 ms
      backoff and the 100 ms pause. */
  lemma ThrottledOnce(at: nat)
    ensures Retry(FailsAt(at, 429), at) == Call(None, 2, [100, 100])
  {
    var fault := FailsAt(at, 429);
    RetryPolicy(fault, at);
    var c := Retry(fault, at);
    assert c.attempts == 2;
    assert Pow2(0) == 1;
  }
}
