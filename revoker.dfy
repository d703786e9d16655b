/** `remove_file_permissions`: strips every non-owner grant from one item,
    link grants and user or group grants alike, each deletion on its own so
    that one failure never stops the others. */
module Revoker {
  import opened Types
  import opened Environment
  import opened Backoff

  /** A link grant: anyone with the link, or anyone in the domain. */
  predicate IsLink(p: Permission)
  {
    p.kind == "anyone" || p.kind == "domain"
  }

  /** A grant to one user or one group. */
  predicate IsGrantee(p: Permission)
  {
    p.kind == "user" || p.kind == "group"
  }

  /** The permissions the revoker deletes: not the owner role, and either a
      link grant or a user/group grant to someone other than the signed-in
      owner, whose email is compared ignoring case. */
  predicate Revocable(p: Permission, owner: string)
  {
    p.role != "owner" && (IsLink(p) || (IsGrantee(p) && Lower(p.email) != Lower(owner)))
  }

  /** The permission-type column of a removal row. */
  function Label(p: Permission): string
  {
    if IsLink(p) then Upper(p.kind) else if p.role == "writer" then "EDITOR" else "VIEWER"
  }

  /** The details column of a removal row. */
  function Details(p: Permission): string
  {
    if IsLink(p) then p.kind + " link sharing removed" else p.email
  }

  /** What a failed deletion names in the error row. */
  function Target(p: Permission): string
  {
    if IsLink(p) then p.kind else p.email
  }

  function RemovalFor(item: Item, p: Permission): RemovalRecord
  {
    RemovalRecord(item.id, item.name, Label(p), Details(p))
  }

  /** The running result of one revocation: the `(removed, errors)` pair,
      the rows appended to the two logs, the requests sent and the waits. */
  datatype Tally = Tally(
    removed: nat,
    errors: nat,
    removals: seq<RemovalRecord>,
    failures: seq<ErrorRecord>,
    sent: seq<Request>,
    sleeps: seq<nat>)

  /** The counters agree with the rows written. */
  predicate Balanced(t: Tally)
  {
    t.removed == |t.removals| && t.errors == |t.failures|
  }

  /** Handles one permission. `at` is the run's request number of the
      revocation's first request, so this deletion starts at `at + |t.sent|`. */
  function Step(fault: nat -> Option<int>, at: nat, item: Item, owner: string, t: Tally, p: Permission): Tally
  {
    if !Revocable(p, owner) then t
    else
      var c := Retry(fault, at + |t.sent|);
      var t' := t.(sent := t.sent + Repeat(DeletePermission(item.id, p), c.attempts), sleeps := t.sleeps + c.sleeps);
      match c.raised
      case None => t'.(removed := t.removed + 1, removals := t.removals + [RemovalFor(item, p)])
      case Some(status) =>
        t'.(errors := t.errors + 1, failures := t.failures + [ErrorRecord(item.id, item.name, RemoveFailed(Target(p), status))])
  }

  /** Handles the permissions `ps` in order, starting from `t`. */
  function Sweep(fault: nat -> Option<int>, at: nat, item: Item, owner: string, t: Tally, ps: seq<Permission>): Tally
  {
    if ps == [] then t
    else Step(fault, at, item, owner, Sweep(fault, at, item, owner, t, ps[..|ps| - 1]), ps[|ps| - 1])
  }

  /** A whole revocation of `item`, whose first request is the run's `at`-th;
      `listing` is the `permissions` field of the listing response, None when
      the response is empty or has no such field. */
  function Revoke(fault: nat -> Option<int>, at: nat, item: Item, owner: string, listing: Option<seq<Permission>>): Tally
  {
    var c := Retry(fault, at);
    var listed := Tally(0, 0, [], [], Repeat(ListPermissions(item.id), c.attempts), c.sleeps);
    match c.raised
    case Some(status) => listed.(errors := 1, failures := [ErrorRecord(item.id, item.name, ListFailed(status))])
    case None =>
      match listing
      case None => listed
      case Some(ps) => Sweep(fault, at, item, owner, listed, ps)
  }

  /** The revocable permissions of `ps`, in order: each revocable entry as
      often as it is listed, and no other entry. */
  function Revocables(ps: seq<Permission>, owner: string): (r: seq<Permission>)
    ensures |r| <= |ps|
    ensures forall p :: p in r ==> p in ps && Revocable(p, owner)
    ensures forall p :: p in ps && Revocable(p, owner) ==> p in r
    ensures forall p :: multiset(r)[p] == if Revocable(p, owner) then multiset(ps)[p] else 0
  {
    if ps == [] then []
    else
      var init := Revocables(ps[..|ps| - 1], owner);
      var last := ps[|ps| - 1];
      assert ps == ps[..|ps| - 1] + [last];
      init + (if Revocable(last, owner) then [last] else [])
  }

  /** The positions in `ps` of its revocable entries, in increasing order. */
  ghost function Positions(ps: seq<Permission>, owner: string): (idx: seq<nat>)
    ensures forall k :: 0 <= k < |idx| ==> idx[k] < |ps| && Revocable(ps[idx[k]], owner)
    ensures forall k, l :: 0 <= k < l < |idx| ==> idx[k] < idx[l]
    ensures forall i :: 0 <= i < |ps| && Revocable(ps[i], owner) ==> i in idx
  {
    if ps == [] then []
    else
      var n := |ps| - 1;
      var init := Positions(ps[..n], owner);
      assert forall k :: 0 <= k < |init| ==> ps[init[k]] == ps[..n][init[k]];
      init + (if Revocable(ps[n], owner) then [n] else [])
  }

  /** Order: `Revocables` picks the entries of `ps` at the revocable positions,
      in listing order, so it is `ps` with the other entries struck out. */
  lemma {:induction false} RevocablesInOrder(ps: seq<Permission>, owner: string)
    ensures var r, idx := Revocables(ps, owner), Positions(ps, owner);
      |r| == |idx| && forall k :: 0 <= k < |r| ==> r[k] == ps[idx[k]]
  {
    if ps != [] {
      var n := |ps| - 1;
      RevocablesInOrder(ps[..n], owner);
      PicksGrow(ps, Revocables(ps[..n], owner), Positions(ps[..n], owner), Revocable(ps[n], owner));
    }
  }

  /** One more entry, picked or not, keeps the picks at their positions. */
  lemma PicksGrow(ps: seq<Permission>, r0: seq<Permission>, idx0: seq<nat>, picked: bool)
    requires |ps| > 0 && |r0| == |idx0|
    requires forall k :: 0 <= k < |idx0| ==> idx0[k] < |ps| - 1 && r0[k] == ps[..|ps| - 1][idx0[k]]
    ensures var n := |ps| - 1;
      var r, idx := r0 + (if picked then [ps[n]] else []), idx0 + (if picked then [n] else []);
      |r| == |idx| && forall k :: 0 <= k < |r| ==> r[k] == ps[idx[k]]
  {
  }

  /** `b` continues `a`: the log or stream `a` with rows appended. */
  ghost predicate Extends<T>(a: seq<T>, b: seq<T>)
  {
    |a| <= |b| && b[..|a|] == a
  }

  lemma ExtendsTransitive<T>(a: seq<T>, b: seq<T>, c: seq<T>)
    requires Extends(a, b) && Extends(b, c)
    ensures Extends(a, c)
  {
    assert c[..|a|] == c[..|b|][..|a|];
  }

  /** A sweep only appends: to the two logs, to the requests and to the waits. */
  lemma {:induction false} SweepAppends(fault: nat -> Option<int>, at: nat, item: Item, owner: string, t: Tally, ps: seq<Permission>)
    ensures var r := Sweep(fault, at, item, owner, t, ps);
      && Extends(t.removals, r.removals) && Extends(t.failures, r.failures)
      && Extends(t.sent, r.sent) && Extends(t.sleeps, r.sleeps)
  {
    if ps != [] {
      var init := ps[..|ps| - 1];
      SweepAppends(fault, at, item, owner, t, init);
      var m := Sweep(fault, at, item, owner, t, init);
      var r := Step(fault, at, item, owner, m, ps[|ps| - 1]);
      assert Extends(m.removals, r.removals) && Extends(m.failures, r.failures);
      assert Extends(m.sent, r.sent) && Extends(m.sleeps, r.sleeps);
      ExtendsTransitive(t.removals, m.removals, r.removals);
      ExtendsTransitive(t.failures, m.failures, r.failures);
      ExtendsTransitive(t.sent, m.sent, r.sent);
      ExtendsTransitive(t.sleeps, m.sleeps, r.sleeps);
    }
  }

  /** Handling permissions adds no wait longer than 800 ms: each deletion
      waits only as its wrapped call does. */
  lemma {:induction false} SweepWaitEach(fault: nat -> Option<int>, at: nat, item: Item, owner: string, t: Tally, ps: seq<Permission>)
    requires AtMost(t.sleeps, 800)
    ensures AtMost(Sweep(fault, at, item, owner, t, ps).sleeps, 800)
  {
    if ps != [] {
      var m := Sweep(fault, at, item, owner, t, ps[..|ps| - 1]);
      SweepWaitEach(fault, at, item, owner, t, ps[..|ps| - 1]);
      StepShape(fault, at, item, owner, m, ps[|ps| - 1]);
      RetryWaitEach(fault, at + |m.sent|);
      AtMostAppend(m.sleeps, Retry(fault, at + |m.sent|).sleeps, 800);
    }
  }

  /** No single wait of a revocation lasts more than 800 ms: it waits only
      in the wrapped calls of its permission listing and its deletions. */
  lemma RevokeWaitEach(fault: nat -> Option<int>, at: nat, item: Item, owner: string, listing: Option<seq<Permission>>)
    ensures AtMost(Revoke(fault, at, item, owner, listing).sleeps, 800)
  {
    var c := Retry(fault, at);
    RetryWaitEach(fault, at);
    if c.raised.None? && listing.Some? {
      SweepWaitEach(fault, at, item, owner, Tally(0, 0, [], [], Repeat(ListPermissions(item.id), c.attempts), c.sleeps),
                    listing.value);
    }
  }

  /** Exact bookkeeping: each revocable permission adds exactly 1 to
      `removed` or to `errors`, with its row in the matching log; the others
      add nothing. */
  lemma {:induction false} SweepAccounting(fault: nat -> Option<int>, at: nat, item: Item, owner: string, t: Tally, ps: seq<Permission>)
    requires Balanced(t)
    ensures var r := Sweep(fault, at, item, owner, t, ps);
      && Balanced(r)
      && r.removed + r.errors == t.removed + t.errors + |Revocables(ps, owner)|
  {
    if ps != [] {
      SweepAccounting(fault, at, item, owner, t, ps[..|ps| - 1]);
    }
  }

  /** The owner is never removed: every request a sweep sends is a deletion,
      on this item, of one of its revocable permissions. */
  lemma {:induction false} SweepSparesOwner(fault: nat -> Option<int>, at: nat, item: Item, owner: string, t: Tally, ps: seq<Permission>)
    ensures var r := Sweep(fault, at, item, owner, t, ps);
      && Extends(t.sent, r.sent)
      && forall i :: |t.sent| <= i < |r.sent| ==>
           r.sent[i].DeletePermission? && r.sent[i].fileId == item.id &&
           r.sent[i].permission in ps && Revocable(r.sent[i].permission, owner)
  {
    if ps != [] {
      var init := ps[..|ps| - 1];
      SweepSparesOwner(fault, at, item, owner, t, init);
      var m := Sweep(fault, at, item, owner, t, init);
      var r := Step(fault, at, item, owner, m, ps[|ps| - 1]);
      assert Extends(m.sent, r.sent);
      ExtendsTransitive(t.sent, m.sent, r.sent);
      forall i | |t.sent| <= i < |r.sent|
        ensures r.sent[i].DeletePermission? && r.sent[i].fileId == item.id &&
                r.sent[i].permission in ps && Revocable(r.sent[i].permission, owner)
      {
        if i < |m.sent| {
          assert r.sent[i] == m.sent[i];
          assert m.sent[i].permission in init;
        }
      }
    }
  }

  /** Error isolation: a failed deletion does not stop the sweep, so a
      deletion of every revocable permission is requested. */
  lemma {:induction false} SweepTriesEvery(fault: nat -> Option<int>, at: nat, item: Item, owner: string, t: Tally, ps: seq<Permission>)
    ensures var r := Sweep(fault, at, item, owner, t, ps);
      forall p :: p in ps && Revocable(p, owner) ==> DeletePermission(item.id, p) in r.sent
  {
    if ps != [] {
      var init := ps[..|ps| - 1];
      var last := ps[|ps| - 1];
      SweepTriesEvery(fault, at, item, owner, t, init);
      var m := Sweep(fault, at, item, owner, t, init);
      var r := Step(fault, at, item, owner, m, last);
      StepSends(fault, at, item, owner, m, last);
      forall p | p in ps && Revocable(p, owner)
        ensures DeletePermission(item.id, p) in r.sent
      {
        if p in init {
          var k :| 0 <= k < |m.sent| && m.sent[k] == DeletePermission(item.id, p);
          assert r.sent[k] == m.sent[k];
        } else {
          assert ps == init + [last];
          assert p == last;
        }
      }
    }
  }

  /** One step keeps the requests sent so far, and for a revocable
      permission its next request is the deletion of that permission. */
  lemma StepSends(fault: nat -> Option<int>, at: nat, item: Item, owner: string, t: Tally, p: Permission)
    ensures var r := Step(fault, at, item, owner, t, p);
      && |t.sent| <= |r.sent| && r.sent[..|t.sent|] == t.sent
      && (Revocable(p, owner) ==> |t.sent| < |r.sent| && r.sent[|t.sent|] == DeletePermission(item.id, p))
  {
    StepShape(fault, at, item, owner, t, p);
    RetryPolicy(fault, at + |t.sent|);
  }

  /** `row` is the removal row of one of the revocable permissions in `ps`. */
  ghost predicate RowOf(item: Item, owner: string, ps: seq<Permission>, row: RemovalRecord)
  {
    exists p :: p in ps && Revocable(p, owner) && row == RemovalFor(item, p)
  }

  /** Every removal row a sweep writes is the row of one of the item's
      revocable permissions. */
  lemma {:induction false} SweepRowsAreRevocable(fault: nat -> Option<int>, at: nat, item: Item, owner: string, t: Tally, ps: seq<Permission>)
    ensures var r := Sweep(fault, at, item, owner, t, ps);
      && |t.removals| <= |r.removals|
      && forall i :: |t.removals| <= i < |r.removals| ==> RowOf(item, owner, ps, r.removals[i])
  {
    if ps != [] {
      var init := ps[..|ps| - 1];
      var last := ps[|ps| - 1];
      SweepRowsAreRevocable(fault, at, item, owner, t, init);
      var m := Sweep(fault, at, item, owner, t, init);
      var r := Step(fault, at, item, owner, m, last);
      forall i | |t.removals| <= i < |r.removals|
        ensures RowOf(item, owner, ps, r.removals[i])
      {
        if i < |m.removals| {
          assert r.removals[i] == m.removals[i];
          assert RowOf(item, owner, init, m.removals[i]);
          var p :| p in init && Revocable(p, owner) && m.removals[i] == RemovalFor(item, p);
          assert p in ps;
        } else {
          assert Revocable(last, owner) && r.removals[i] == RemovalFor(item, last);
          assert last in ps;
        }
      }
    }
  }

  /** Idempotence: a listing in which nothing is revocable (what a fully
      successful sweep leaves behind) is left alone: no request, no row, no
      count. */
  lemma {:induction false} SweepOverStrippedIsIdle(fault: nat -> Option<int>, at: nat, item: Item, owner: string, t: Tally, ps: seq<Permission>)
    requires forall p :: p in ps ==> !Revocable(p, owner)
    ensures Sweep(fault, at, item, owner, t, ps) == t
  {
    if ps != [] {
      SweepOverStrippedIsIdle(fault, at, item, owner, t, ps[..|ps| - 1]);
    }
  }

  /** The `(removed, errors)` pair of a revocation: `(0, 1)` with one
      error row when the listing fails; `(0, 0)` when the listing has no
      permissions; otherwise one count per revocable permission, so
      `removed + errors` never exceeds the number of permissions. */
  lemma RevokeAccounting(fault: nat -> Option<int>, at: nat, item: Item, owner: string, listing: Option<seq<Permission>>)
    ensures var r := Revoke(fault, at, item, owner, listing);
      var c := Retry(fault, at);
      && Balanced(r)
      && (c.raised.Some? ==>
            r.removed == 0 && r.errors == 1 && r.removals == [] &&
            r.failures == [ErrorRecord(item.id, item.name, ListFailed(c.raised.value))])
      && (c.raised.None? && listing.None? ==> r.removed == 0 && r.errors == 0 && r.removals == [] && r.failures == [])
      && (c.raised.None? && listing.Some? ==>
            r.removed + r.errors == |Revocables(listing.value, owner)| <= |listing.value|)
  {
    var c := Retry(fault, at);
    if c.raised.None? && listing.Some? {
      SweepAccounting(fault, at, item, owner, Tally(0, 0, [], [], Repeat(ListPermissions(item.id), c.attempts), c.sleeps), listing.value);
    }
  }

  /** The removal rows of `ps`, in order. */
  function Rows(item: Item, ps: seq<Permission>): (r: seq<RemovalRecord>)
    ensures |r| == |ps|
    ensures forall i :: 0 <= i < |ps| ==> r[i] == RemovalFor(item, ps[i])
  {
    if ps == [] then [] else Rows(item, ps[..|ps| - 1]) + [RemovalFor(item, ps[|ps| - 1])]
  }

  /** When no request fails, a sweep removes every revocable permission, in
      order, and records no error. */
  lemma {:induction false} SweepWithoutFaults(fault: nat -> Option<int>, at: nat, item: Item, owner: string, t: Tally, ps: seq<Permission>)
    requires forall q :: fault(q).None?
    ensures var r := Sweep(fault, at, item, owner, t, ps);
      && r.removed == t.removed + |Revocables(ps, owner)| && r.errors == t.errors
      && r.removals == t.removals + Rows(item, Revocables(ps, owner)) && r.failures == t.failures
  {
    if ps != [] {
      var init, last := ps[..|ps| - 1], ps[|ps| - 1];
      SweepWithoutFaults(fault, at, item, owner, t, init);
      var m := Sweep(fault, at, item, owner, t, init);
      StepShape(fault, at, item, owner, m, last);
      RetryPolicy(fault, at + |m.sent|);
      var rs := Revocables(init, owner);
      if Revocable(last, owner) {
        assert Revocables(ps, owner) == rs + [last];
        assert Rows(item, rs + [last]) == Rows(item, rs) + [RemovalFor(item, last)] by {
          assert (rs + [last])[..|rs|] == rs;
        }
        Associative(t.removals, Rows(item, rs), [RemovalFor(item, last)]);
      } else {
        assert Revocables(ps, owner) == rs;
      }
    }
  }

  /** A revocation in which no request fails: every revocable permission
      of the listing is removed and logged, in order, and no error is
      recorded. */
  lemma RevokeWithoutFaults(fault: nat -> Option<int>, at: nat, item: Item, owner: string, ps: seq<Permission>)
    requires forall q :: fault(q).None?
    ensures var r := Revoke(fault, at, item, owner, Some(ps));
      && r.removed == |Revocables(ps, owner)| && r.errors == 0
      && r.removals == Rows(item, Revocables(ps, owner)) && r.failures == []
  {
    RetryPolicy(fault, at);
    var c := Retry(fault, at);
    SweepWithoutFaults(fault, at, item, owner, Tally(0, 0, [], [], Repeat(ListPermissions(item.id), c.attempts), c.sleeps), ps);
  }

  /** The owner is never removed, over a whole revocation: the first
      requests list the item's permissions, every later one deletes one of
      its revocable permissions, and each revocable one is asked for. */
  lemma RevokeSparesOwner(fault: nat -> Option<int>, at: nat, item: Item, owner: string, ps: seq<Permission>)
    ensures var r := Revoke(fault, at, item, owner, Some(ps));
      var c := Retry(fault, at);
      && c.attempts <= |r.sent|
      && (forall i :: 0 <= i < c.attempts ==> r.sent[i] == ListPermissions(item.id))
      && (forall i :: c.attempts <= i < |r.sent| ==>
            r.sent[i].DeletePermission? && r.sent[i].permission in ps && Revocable(r.sent[i].permission, owner))
      && (c.raised.None? ==> forall p :: p in ps && Revocable(p, owner) ==> DeletePermission(item.id, p) in r.sent)
  {
    var c := Retry(fault, at);
    var listed := Tally(0, 0, [], [], Repeat(ListPermissions(item.id), c.attempts), c.sleeps);
    if c.raised.None? {
      SweepSparesOwner(fault, at, item, owner, listed, ps);
      SweepTriesEvery(fault, at, item, owner, listed, ps);
      var r := Sweep(fault, at, item, owner, listed, ps);
      forall i | 0 <= i < c.attempts ensures r.sent[i] == ListPermissions(item.id) {
        assert r.sent[i] == r.sent[..|listed.sent|][i];
      }
    }
  }

  /** The removal row of a revocable permission names one of the four kinds:
      ANYONE or DOMAIN for a link grant, EDITOR for a `writer` grantee and
      VIEWER for any other grantee. */
  lemma LabelKinds(p: Permission, owner: string)
    requires Revocable(p, owner)
    ensures Label(p) == "ANYONE" <==> p.kind == "anyone"
    ensures Label(p) == "DOMAIN" <==> p.kind == "domain"
    ensures Label(p) == "EDITOR" <==> IsGrantee(p) && p.role == "writer"
    ensures Label(p) == "VIEWER" <==> IsGrantee(p) && p.role != "writer"
  {
    var l := Label(p);
    if p.kind == "anyone" {
      UpperOf("anyone", "ANYONE");
      assert l[0] == 'A';
    } else if p.kind == "domain" {
      UpperOf("domain", "DOMAIN");
      assert l[0] == 'D';
    } else if p.role == "writer" {
      assert l[0] == 'E';
    } else {
      assert l[0] == 'V';
    }
  }

  lemma UpperOf(s: string, t: string)
    requires |s| == |t| && forall i :: 0 <= i < |s| ==> UpperChar(s[i]) == t[i]
    ensures Upper(s) == t
  {
  }

  /** `Step`'s definition unfolded field by field: no property of its own,
      but the form in which `RemovePermission`'s loop body is checked
      against `Step`. */
  lemma StepShape(fault: nat -> Option<int>, at: nat, item: Item, owner: string, t: Tally, p: Permission)
    ensures var r := Step(fault, at, item, owner, t, p);
      var c := Retry(fault, at + |t.sent|);
      && (!Revocable(p, owner) ==> r == t)
      && (Revocable(p, owner) ==>
            && r.sent == t.sent + Repeat(DeletePermission(item.id, p), c.attempts)
            && r.sleeps == t.sleeps + c.sleeps
            && (c.raised.None? ==>
                  r.removed == t.removed + 1 && r.errors == t.errors &&
                  r.removals == t.removals + [RemovalFor(item, p)] && r.failures == t.failures)
            && (c.raised.Some? ==>
                  r.removed == t.removed && r.errors == t.errors + 1 && r.removals == t.removals &&
                  r.failures == t.failures + [ErrorRecord(item.id, item.name, RemoveFailed(Target(p), c.raised.value))]))
  {
  }

  lemma Associative<T>(a: seq<T>, b: seq<T>, c: seq<T>)
    ensures (a + b) + c == a + (b + c)
  {
  }

  /** The loop body of `remove_file_permissions`: handles one permission
      of `item`. The ghost parameters place the call inside a revocation:
      `t` is the revocation so far, whose first request was the run's `at`-th,
      and `removals0`, `errors0`, `log0`, `sleeps0` are the logs before it. */
  method RemovePermission(service: Service, journal: Journal, item: Item, owner: string, p: Permission,
                          ghost at: nat, ghost t: Tally, ghost removals0: seq<RemovalRecord>,
                          ghost errors0: seq<ErrorRecord>, ghost log0: seq<Request>, ghost sleeps0: seq<nat>)
    returns (removed: nat, errors: nat)
    modifies service, journal
    requires journal.removals == removals0 + t.removals && journal.errors == errors0 + t.failures
    requires service.log == log0 + t.sent && service.sleeps == sleeps0 + t.sleeps
    requires |log0| == at
    ensures var r := Step(service.fault, at, item, owner, t, p);
      && t.removed + removed == r.removed && t.errors + errors == r.errors
      && journal.removals == removals0 + r.removals && journal.errors == errors0 + r.failures
      && service.log == log0 + r.sent && service.sleeps == sleeps0 + r.sleeps
    ensures journal.stateFile == old(journal.stateFile) && journal.saves == old(journal.saves)
  {
    StepShape(service.fault, at, item, owner, t, p);
    ghost var call := Retry(service.fault, |service.log|);
    Associative(sleeps0, t.sleeps, call.sleeps);
    Associative(log0, t.sent, Repeat(DeletePermission(item.id, p), call.attempts));
    removed, errors := 0, 0;
    if p.role == "owner" {
    } else if IsLink(p) {
      var failure := CallWithRetry(service, DeletePermission(item.id, p));
      if failure.None? {
        journal.LogRemoval(RemovalRecord(item.id, item.name, Upper(p.kind), p.kind + " link sharing removed"));
        removed := 1;
      } else {
        journal.LogError(ErrorRecord(item.id, item.name, RemoveFailed(p.kind, failure.value)));
        errors := 1;
      }
    } else if IsGrantee(p) && Lower(p.email) != Lower(owner) {
      var failure := CallWithRetry(service, DeletePermission(item.id, p));
      if failure.None? {
        var roleName := if p.role == "writer" then "EDITOR" else "VIEWER";
        journal.LogRemoval(RemovalRecord(item.id, item.name, roleName, p.email));
        removed := 1;
      } else {
        journal.LogError(ErrorRecord(item.id, item.name, RemoveFailed(p.email, failure.value)));
        errors := 1;
      }
    }
  }

  /** Handles the permissions of `item`, appending to the two logs. */
  method RemoveFilePermissions(service: Service, journal: Journal, item: Item, owner: string)
    returns (removed: nat, errors: nat)
    modifies service, journal
    ensures var t := Revoke(service.fault, |old(service.log)|, item, owner, service.permissionsOf(item.id));
      && removed == t.removed && errors == t.errors
      && journal.removals == old(journal.removals) + t.removals
      && journal.errors == old(journal.errors) + t.failures
      && service.log == old(service.log) + t.sent
      && service.sleeps == old(service.sleeps) + t.sleeps
    ensures journal.stateFile == old(journal.stateFile) && journal.saves == old(journal.saves)
  {
    ghost var at := |service.log|;
    removed, errors := 0, 0;
    var raised := CallWithRetry(service, ListPermissions(item.id));
    if raised.Some? {
      journal.LogError(ErrorRecord(item.id, item.name, ListFailed(raised.value)));
      errors := errors + 1;
      return;
    }
    var listing := service.permissionsOf(item.id);
    if listing.None? {
      return;
    }
    var ps := listing.value;
    ghost var c := Retry(service.fault, at);
    ghost var start := Tally(0, 0, [], [], Repeat(ListPermissions(item.id), c.attempts), c.sleeps);
    ghost var t := start;
    for i := 0 to |ps|
      invariant t == Sweep(service.fault, at, item, owner, start, ps[..i])
      invariant removed == t.removed && errors == t.errors
      invariant journal.removals == old(journal.removals) + t.removals
      invariant journal.errors == old(journal.errors) + t.failures
      invariant service.log == old(service.log) + t.sent
      invariant service.sleeps == old(service.sleeps) + t.sleeps
      invariant journal.stateFile == old(journal.stateFile) && journal.saves == old(journal.saves)
    {
      assert ps[..i + 1] == ps[..i] + [ps[i]];
      var r, e := RemovePermission(service, journal, item, owner, ps[i], at, t,
                                   old(journal.removals), old(journal.errors), old(service.log), old(service.sleeps));
      removed, errors := removed + r, errors + e;
      t := Step(service.fault, at, item, owner, t, ps[i]);
    }
    assert ps[..|ps|] == ps;
  }
}
