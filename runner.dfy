/** `main`, after authentication: loads the run state, strips the files,
    then the folders, and deletes the state file once both walks are done. */
module Runner {
  import opened Types
  import opened Environment
  import opened Revoker
  import opened RunState
  import opened WalkSpec
  import opened Walker

  /** One walk of `process_items` as the run saw it: how it ended, the
      walk's own record (pages finished, items of the page it stopped in,
      items processed with the position of their first request, the saves
      that fell on page boundaries), the state it started from and ended
      in, the two logs and the saves around it, and the API requests, the
      waits and the polls of the shutdown flag made before and after it. */
  datatype Leg = Leg(outcome: Walk, pages: nat, partial: nat, processed: seq<Item>, starts: seq<nat>,
                     savedAt: seq<nat>, start: Snapshot, end: Snapshot,
                     removals0: seq<RemovalRecord>, removals: seq<RemovalRecord>,
                     errors0: seq<ErrorRecord>, errors: seq<ErrorRecord>,
                     saves: seq<Snapshot>, from: nat,
                     log0: seq<Request>, log: seq<Request>, sleeps0: seq<nat>, sleeps: seq<nat>,
                     polls0: nat, polls: nat)

  /** The leg is a walk of `pages` from its start, ended as it says. */
  ghost predicate Ended(leg: Leg, revoke: (nat, Item) -> Tally, pages: Option<string> -> Page)
  {
    WalkEnded(leg.outcome, revoke, pages, leg.start.pageToken, leg.start, leg.pages, leg.partial,
              leg.processed, leg.starts, leg.end, leg.removals0, leg.removals, leg.errors0, leg.errors,
              leg.saves, leg.from, leg.savedAt)
  }

  /** The leg sent the requests and made the waits of the walk of the
      `isFolder` listing from its start: the reference walk's, whose
      revocations are those of the items it processed; it ended as that walk
      does, with its polls and its page token. */
  ghost predicate Sent(leg: Leg, revoke: (nat, Item) -> Tally, fault: nat -> Option<int>,
                       pages: Option<string> -> Page, isFolder: bool, raisedAt: nat)
  {
    var w := WalkFrom(revoke, fault, pages, isFolder, leg.start.pageToken, |leg.log0|, leg.polls0, raisedAt);
    && leg.outcome == w.outcome && leg.log == leg.log0 + w.sent && leg.sleeps == leg.sleeps0 + w.waits
    && leg.polls == w.polls && leg.end.pageToken == w.token
    && |leg.starts| == |leg.processed|
    && Requested(Revocations(revoke, leg.processed, leg.starts), leg.starts, leg.log0, leg.log)
  }

  function Outcome(leg: Option<Leg>): Option<Walk>
  {
    if leg.Some? then Some(leg.value.outcome) else None
  }

  /** One run against `service`, signed in as `owner`, started at `now`.
      `files` and `folders` are the two walks (None for a walk the run did
      not make) and `foldersFrom` is the state the folder walk started
      from. */
  method Run(service: Service, journal: Journal, shutdown: Shutdown, owner: string, now: string)
    returns (state: State, ghost files: Option<Leg>, ghost folders: Option<Leg>, ghost foldersFrom: Snapshot)
    modifies service, journal, shutdown
    ensures fresh(state)
    ensures var s0 := Loaded(old(journal.stateFile), now);
      && (files.Some? <==> s0.phase == Files)
      && (folders.Some? <==> s0.phase == Folders || Outcome(files) == Some(Completed))
      && (state.phase == Files <==> files.Some? && Outcome(files) != Some(Completed))
      && (state.phase == Folders <==> folders.Some? && Outcome(folders) != Some(Completed))
      && (state.phase == Complete <==> s0.phase == Complete || Outcome(folders) == Some(Completed))
      && Rank(s0.phase) <= Rank(state.phase)
      && (folders.Some? && s0.phase == Folders ==> foldersFrom == s0)
      && (folders.Some? && s0.phase == Files ==> foldersFrom.phase == Folders && foldersFrom.pageToken == None)
      && state.startedAt == s0.startedAt
      && s0.filesProcessed <= state.filesProcessed
      && |old(journal.removals)| <= |journal.removals| && |old(journal.errors)| <= |journal.errors|
      && state.permissionsRemoved == s0.permissionsRemoved + (|journal.removals| - |old(journal.removals)|)
      && state.errors == s0.errors + (|journal.errors| - |old(journal.errors)|)
    ensures state.phase == Complete ==> journal.stateFile == None
    ensures state.phase != Complete ==> journal.stateFile == Some(state.Snapshot())
    // The file walk: a walk of the file listing from the loaded state.
    ensures files.Some? ==>
      && Ended(files.value, RevokeOf(service.fault, service.permissionsOf, owner), service.Listing(false))
      && files.value.start == Loaded(old(journal.stateFile), now)
      && files.value.removals0 == old(journal.removals) && files.value.errors0 == old(journal.errors)
      && files.value.from == |old(journal.saves)| && Extends(old(journal.saves), files.value.saves)
      && Sent(files.value, RevokeOf(service.fault, service.permissionsOf, owner), service.fault, service.Listing(false),
              false, shutdown.raisedAt)
      && files.value.log0 == old(service.log) && files.value.sleeps0 == old(service.sleeps)
      && files.value.polls0 == old(shutdown.polls)
    // The folder walk: a walk of the folder listing from `foldersFrom`.
    ensures folders.Some? ==>
      && Ended(folders.value, RevokeOf(service.fault, service.permissionsOf, owner), service.Listing(true))
      && folders.value.start == foldersFrom
      && Sent(folders.value, RevokeOf(service.fault, service.permissionsOf, owner), service.fault, service.Listing(true),
              true, shutdown.raisedAt)
    ensures folders.Some? && files.None? ==>
      && folders.value.removals0 == old(journal.removals) && folders.value.errors0 == old(journal.errors)
      && folders.value.from == |old(journal.saves)| && Extends(old(journal.saves), folders.value.saves)
      && folders.value.log0 == old(service.log) && folders.value.sleeps0 == old(service.sleeps)
      && folders.value.polls0 == old(shutdown.polls)
    // Between the walks the phase moves on, the page token is cleared and
    // the state is saved.
    ensures folders.Some? && files.Some? ==>
      && foldersFrom == files.value.end.(phase := Folders, pageToken := None)
      && folders.value.removals0 == files.value.removals && folders.value.errors0 == files.value.errors
      && folders.value.from == |files.value.saves| + 1
      && Extends(files.value.saves + [foldersFrom], folders.value.saves)
      && folders.value.log0 == files.value.log && folders.value.sleeps0 == files.value.sleeps
      && folders.value.polls0 == files.value.polls
    // A run that makes no walk sends nothing and waits for nothing.
    ensures files.None? && folders.None? ==>
      service.log == old(service.log) && service.sleeps == old(service.sleeps) && shutdown.polls == old(shutdown.polls)
    // After the last walk only the final save and the deletion of the
    // state file remain.
    ensures var last := if folders.Some? then folders else files;
      last.Some? ==>
        && journal.removals == last.value.removals && journal.errors == last.value.errors
        && service.log == last.value.log && service.sleeps == last.value.sleeps && shutdown.polls == last.value.polls
        && if last.value.outcome == Completed && last == folders then
             state.Snapshot() == last.value.end.(phase := Complete) && journal.saves == last.value.saves + [state.Snapshot()]
           else
             state.Snapshot() == last.value.end && journal.saves == last.value.saves
  {
    state := LoadState(journal.stateFile, now);
    ghost var s0 := state.Snapshot();
    files, folders, foldersFrom := None, None, s0;
    if state.phase == Files {
      var outcome, leg := WalkPhase(service, journal, state, shutdown, owner, false);
      files := Some(leg);
      if outcome != Completed {
        return;
      }
      MoveOn(journal, state, Folders, None);
      foldersFrom := state.Snapshot();
    }
    if state.phase == Folders {
      ghost var saves := journal.saves;
      var outcome, leg := WalkPhase(service, journal, state, shutdown, owner, true);
      folders := Some(leg);
      if files.Some? {
        ExtendsTransitive(files.value.saves + [foldersFrom], saves, journal.saves);
      }
      if outcome == Completed {
        MoveOn(journal, state, Complete, state.pageToken);
      }
    }
    if state.phase == Complete {
      journal.Discard();
    }
  }

  /** The move to the next phase: the state's phase and page token are set
      and the state is saved. */
  method MoveOn(journal: Journal, state: State, phase: Phase, token: Option<string>)
    modifies journal, state
    ensures state.Snapshot() == old(state.Snapshot()).(phase := phase, pageToken := token)
    ensures journal.stateFile == Some(state.Snapshot()) && journal.saves == old(journal.saves) + [state.Snapshot()]
    ensures journal.removals == old(journal.removals) && journal.errors == old(journal.errors)
  {
    state.phase := phase;
    state.pageToken := token;
    journal.Save(state.Snapshot());
  }

  /** `process_items` as `main` sees it: how the walk ended and what it did
      to the counters, the logs and the state file. */
  method WalkPhase(service: Service, journal: Journal, state: State, shutdown: Shutdown, owner: string, isFolder: bool)
    returns (outcome: Walk, ghost leg: Leg)
    modifies service, journal, state, shutdown
    ensures state.phase == old(state.phase) && state.startedAt == old(state.startedAt)
    ensures old(state.filesProcessed) <= state.filesProcessed
    ensures |old(journal.removals)| <= |journal.removals| && |old(journal.errors)| <= |journal.errors|
    ensures state.permissionsRemoved == old(state.permissionsRemoved) + (|journal.removals| - |old(journal.removals)|)
    ensures state.errors == old(state.errors) + (|journal.errors| - |old(journal.errors)|)
    ensures outcome != Completed ==> journal.stateFile == Some(state.Snapshot())
    ensures Ended(leg, RevokeOf(service.fault, service.permissionsOf, owner), service.Listing(isFolder))
    ensures && leg.outcome == outcome && leg.start == old(state.Snapshot()) && leg.end == state.Snapshot()
            && leg.removals0 == old(journal.removals) && leg.removals == journal.removals
            && leg.errors0 == old(journal.errors) && leg.errors == journal.errors
            && leg.saves == journal.saves && leg.from == |old(journal.saves)|
    ensures Sent(leg, RevokeOf(service.fault, service.permissionsOf, owner), service.fault, service.Listing(isFolder),
                 isFolder, shutdown.raisedAt)
    ensures && leg.log0 == old(service.log) && leg.log == service.log
            && leg.sleeps0 == old(service.sleeps) && leg.sleeps == service.sleeps
            && leg.polls0 == old(shutdown.polls) && leg.polls == shutdown.polls
    ensures Extends(old(journal.saves), journal.saves)
  {
    ghost var n, partial, processed, starts, savedAt, w;
    RevokeOfRevokesAs(service.fault, service.permissionsOf, owner);
    outcome, n, partial, processed, starts, savedAt, w :=
      ProcessItems(service, journal, state, shutdown, owner, RevokeOf(service.fault, service.permissionsOf, owner), isFolder);
    leg := Leg(outcome, n, partial, processed, starts, savedAt, old(state.Snapshot()), state.Snapshot(),
               old(journal.removals), journal.removals, old(journal.errors), journal.errors,
               journal.saves, |old(journal.saves)|, old(service.log), service.log, old(service.sleeps), service.sleeps,
               old(shutdown.polls), shutdown.polls);
    WalkCounts(outcome, service.fault, service.permissionsOf, owner, service.Listing(isFolder), old(state.pageToken),
               old(state.Snapshot()), n, partial, processed, starts, state.Snapshot(),
               old(journal.removals), journal.removals, old(journal.errors), journal.errors,
               journal.saves, |old(journal.saves)|, savedAt);
  }
}
