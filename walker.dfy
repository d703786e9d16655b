/** `process_items`: walks the pages of one `files().list` query (files or
    folders), strips the sharing of every item, and keeps the run state and
    the state file up to date so that an interrupted walk can resume. */
module Walker {
  import opened Types
  import opened Environment
  import opened Backoff
  import opened Revoker
  import opened RunState
  import opened WalkSpec

  /** The state is saved whenever `files_processed` reaches a multiple of this. */
  const PROGRESS_SAVE_EVERY: nat := 100
  /** The state is saved after a page once this many items were handled since
      the last such save. */
  const BATCH_SAVE_SIZE: nat := 500

  /** The body of the item loop, on `item`: counts the item, strips its
      sharing (the revocation `t`, whose first request is the run's `at`-th),
      adds the pair it returns to the counters, and saves the state when
      `files_processed` reaches a multiple of 100. */
  method ProcessItem(service: Service, journal: Journal, state: State, owner: string, ghost revoke: (nat, Item) -> Tally, item: Item)
    returns (ghost at: nat, ghost t: Tally)
    modifies service, journal, state
    requires RevokesAs(revoke, service.fault, service.permissionsOf, owner)
    ensures at == |old(service.log)| && t == revoke(at, item)
    ensures forall j :: 0 <= j < |t.sent| ==> !t.sent[j].ListItems?
    ensures state.Snapshot() == old(state.Snapshot()).(filesProcessed := old(state.filesProcessed) + 1,
                                                       permissionsRemoved := old(state.permissionsRemoved) + t.removed,
                                                       errors := old(state.errors) + t.errors)
    ensures journal.removals == old(journal.removals) + t.removals && journal.errors == old(journal.errors) + t.failures
    ensures service.log == old(service.log) + t.sent && service.sleeps == old(service.sleeps) + t.sleeps
    ensures journal.saves == old(journal.saves) +
      (if state.filesProcessed % PROGRESS_SAVE_EVERY == 0 then [state.Snapshot()] else [])
    ensures journal.stateFile ==
      (if state.filesProcessed % PROGRESS_SAVE_EVERY == 0 then Some(state.Snapshot()) else old(journal.stateFile))
  {
    state.filesProcessed := state.filesProcessed + 1;
    at := |service.log|;
    t := Revoke(service.fault, at, item, owner, service.permissionsOf(item.id));
    RevokeListsNoPage(service.fault, at, item, owner, service.permissionsOf(item.id));
    var removed, errors := RemoveFilePermissions(service, journal, item, owner);
    state.permissionsRemoved := state.permissionsRemoved + removed;
    state.errors := state.errors + errors;
    if state.filesProcessed % PROGRESS_SAVE_EVERY == 0 {
      journal.Save(state.Snapshot());
    }
  }

  /** The item loop's body on `items[i]` once the shutdown flag read false:
      the page's first `i + 1` items are now handled. */
  method HandleItem(service: Service, journal: Journal, state: State, owner: string,
                    ghost revoke: (nat, Item) -> Tally, items: seq<Item>, i: nat, ghost starts: seq<nat>,
                    ghost before: Snapshot, ghost removals0: seq<RemovalRecord>, ghost errors0: seq<ErrorRecord>,
                    ghost log0: seq<Request>, ghost saves0: seq<Snapshot>, ghost sleeps0: seq<nat>)
    returns (ghost starts': seq<nat>)
    modifies service, journal, state
    requires RevokesAs(revoke, service.fault, service.permissionsOf, owner)
    requires i < |items|
    requires PageSoFar(revoke, items, i, starts, before, state.Snapshot(), removals0, journal.removals,
                       errors0, journal.errors, log0, service.log, saves0, journal.saves)
    requires WaitedBackToBack(revoke, items[..i], |log0|, sleeps0, service.sleeps)
    ensures starts' == starts + [|old(service.log)|]
    ensures PageSoFar(revoke, items, i + 1, starts', before, state.Snapshot(), removals0, journal.removals,
                      errors0, journal.errors, log0, service.log, saves0, journal.saves)
    ensures WaitedBackToBack(revoke, items[..i + 1], |log0|, sleeps0, service.sleeps)
  {
    ghost var now, r, e, log, saves, sleeps := state.Snapshot(), journal.removals, journal.errors, service.log, journal.saves, service.sleeps;
    ghost var at, t := ProcessItem(service, journal, state, owner, revoke, items[i]);
    PageStep(revoke, items, i, starts, before, now, removals0, r, errors0, e, log0, log, saves0, saves,
             at, t, state.Snapshot(), journal.saves, PROGRESS_SAVE_EVERY);
    WaitedStep(revoke, items, i, |log0|, sleeps0, sleeps, t);
    starts' := starts + [at];
  }

  /** The loop over the items of one page. */
  method ProcessPage(service: Service, journal: Journal, state: State, shutdown: Shutdown, owner: string,
                     ghost revoke: (nat, Item) -> Tally, items: seq<Item>, batchCount: nat)
    returns (paused: bool, batch: nat, ghost done: nat, ghost starts: seq<nat>)
    modifies service, journal, state, shutdown
    requires RevokesAs(revoke, service.fault, service.permissionsOf, owner)
    ensures if paused then done < |items| else done == |items|
    ensures done == Handled(|items|, old(shutdown.polls), shutdown.raisedAt)
    ensures batch == batchCount + done
    ensures PageSoFar(revoke, items, done, starts,
                      old(state.Snapshot()), state.Snapshot(), old(journal.removals), journal.removals,
                      old(journal.errors), journal.errors, old(service.log), service.log, old(journal.saves), journal.saves)
    ensures WaitedBackToBack(revoke, items[..done], |old(service.log)|, old(service.sleeps), service.sleeps)
    ensures paused ==>
      && journal.stateFile == Some(state.Snapshot())
      && journal.saves != [] && journal.saves[|journal.saves| - 1] == state.Snapshot()
      && shutdown.polls == old(shutdown.polls) + done + 1
      && shutdown.polls == Max(old(shutdown.polls), shutdown.raisedAt) + 1
    ensures !paused ==> shutdown.polls == old(shutdown.polls) + |items|
    ensures !paused && items != [] ==> shutdown.polls <= shutdown.raisedAt
  {
    ghost var before := state.Snapshot();
    batch, paused := batchCount, false;
    starts := [];
    assert service.log + [] == service.log && service.sleeps + [] == service.sleeps;
    var i := 0;
    while i < |items| && !paused
      invariant batch == batchCount + i
      invariant PageSoFar(revoke, items, i, starts, before, state.Snapshot(),
                          old(journal.removals), journal.removals, old(journal.errors), journal.errors,
                          old(service.log), service.log, old(journal.saves), journal.saves)
      invariant WaitedBackToBack(revoke, items[..i], |old(service.log)|, old(service.sleeps), service.sleeps)
      invariant !paused ==> shutdown.polls == old(shutdown.polls) + i && (i > 0 ==> shutdown.polls <= shutdown.raisedAt)
      invariant paused ==>
        && i < |items| && i == Handled(|items|, old(shutdown.polls), shutdown.raisedAt)
        && journal.stateFile == Some(state.Snapshot())
        && journal.saves != [] && journal.saves[|journal.saves| - 1] == state.Snapshot()
        && shutdown.polls == old(shutdown.polls) + i + 1
        && shutdown.polls == Max(old(shutdown.polls), shutdown.raisedAt) + 1
      decreases |items| - i, if paused then 0 else 1
    {
      var requested := shutdown.Poll();
      if requested {
        PageSaved(revoke, items, i, starts, before, state.Snapshot(),
                  old(journal.removals), journal.removals, old(journal.errors), journal.errors,
                  old(service.log), service.log, old(journal.saves), journal.saves);
        journal.Save(state.Snapshot());
        paused := true;
      } else {
        starts := HandleItem(service, journal, state, owner, revoke, items, i, starts, before,
                             old(journal.removals), old(journal.errors), old(service.log), old(journal.saves),
                             old(service.sleeps));
        batch := batch + 1;
        i := i + 1;
      }
    }
    done := i;
  }

  /** One page of the walk, once its listing succeeded and it was not the
      empty first page: handles its items (`added`, whose revocations go
      out back to back) and, unless a shutdown was requested on the way,
      moves the state's token to the next page. */
  method WalkPage(service: Service, journal: Journal, state: State, shutdown: Shutdown, owner: string,
                  ghost revoke: (nat, Item) -> Tally, isFolder: bool,
                  batchCount: nat, ghost t0: Option<string>, ghost before: Snapshot, ghost n: nat,
                  ghost processed: seq<Item>, ghost starts: seq<nat>,
                  ghost removals0: seq<RemovalRecord>, ghost errors0: seq<ErrorRecord>, ghost from: nat, ghost savedAt: seq<nat>)
    returns (paused: bool, batch: nat, ghost partial: nat, ghost processed': seq<Item>, ghost starts': seq<nat>,
             ghost savedAt': seq<nat>, ghost added: seq<Item>)
    modifies service, journal, state, shutdown
    requires RevokesAs(revoke, service.fault, service.permissionsOf, owner)
    requires Walked(revoke, service.Listing(isFolder), t0, before, n,
                    processed, starts, state.Snapshot(), removals0, journal.removals, errors0, journal.errors,
                    journal.saves, from, savedAt)
    requires n > 0 ==> Truthy(state.pageToken)
    ensures var pages := service.Listing(isFolder);
      var items := pages(Follow(pages, t0, n)).items;
      !paused ==>
        && partial == 0
        && Walked(revoke, pages, t0, before, n + 1,
                  processed', starts', state.Snapshot(), removals0, journal.removals, errors0, journal.errors,
                  journal.saves, from, savedAt')
        && batch == batchCount + |items|
        && (items != [] ==> shutdown.polls <= shutdown.raisedAt)
    ensures var pages := service.Listing(isFolder);
      paused ==>
        && WalkEnded(Paused, revoke, pages, t0, before, n, partial,
                     processed', starts', state.Snapshot(), removals0, journal.removals, errors0, journal.errors,
                     journal.saves, from, savedAt')
        && journal.stateFile == Some(state.Snapshot())
        && shutdown.polls == Max(old(shutdown.polls), shutdown.raisedAt) + 1
    ensures var items := service.Listing(isFolder)(old(state.pageToken)).items;
      var done := Handled(|items|, old(shutdown.polls), shutdown.raisedAt);
      && added == items[..done]
      && (paused <==> done < |items|)
      && (paused ==> partial < |items|)
      && state.pageToken == if paused then old(state.pageToken) else service.Listing(isFolder)(old(state.pageToken)).nextPageToken
    ensures processed' == processed + added
    ensures AddedBackToBack(revoke, added, |old(service.log)|, starts, starts', old(service.log), service.log)
    ensures WaitedBackToBack(revoke, added, |old(service.log)|, old(service.sleeps), service.sleeps)
    ensures shutdown.polls == old(shutdown.polls) + |added| + (if paused then 1 else 0)
    ensures Extends(old(journal.saves), journal.saves)
  {
    var pages := service.Listing(isFolder);
    var items := pages(state.pageToken).items;
    ghost var mid := state.Snapshot();
    ghost var savesBefore := journal.saves;
    ghost var removalsBefore, errorsBefore := journal.removals, journal.errors;
    ghost var done: nat;
    ghost var pageStarts: seq<nat>;
    paused, batch, done, pageStarts := ProcessPage(service, journal, state, shutdown, owner, revoke, items, batchCount);
    added := items[..done];
    savedAt' := savedAt + Repeat(n, |journal.saves| - |savesBefore|);
    processed', starts' := processed + added, starts + pageStarts;
    assert AddedBackToBack(revoke, added, |old(service.log)|, starts, starts', old(service.log), service.log);
    if paused {
      partial := done;
      PagePaused(revoke, pages, t0, before, n, processed, starts, mid,
                 removals0, removalsBefore, errors0, errorsBefore, savesBefore, from, savedAt,
                 done, pageStarts, state.Snapshot(), journal.removals, journal.errors, journal.saves);
    } else {
      partial := 0;
      PageFinished(revoke, pages, t0, before, n, processed, starts, mid,
                   removals0, removalsBefore, errors0, errorsBefore, savesBefore, from, savedAt,
                   done, pageStarts, state.Snapshot(), journal.removals, journal.errors, journal.saves);
      state.SetPageToken(pages(state.pageToken).nextPageToken);
    }
  }

  /** `save_state` during a walk, at a page boundary. */
  method SaveProgress(journal: Journal, state: State, ghost revoke: (nat, Item) -> Tally,
                      ghost pages: Option<string> -> Page, ghost t0: Option<string>, ghost before: Snapshot, ghost n: nat,
                      ghost processed: seq<Item>, ghost starts: seq<nat>,
                      ghost removals0: seq<RemovalRecord>, ghost errors0: seq<ErrorRecord>, ghost from: nat, ghost savedAt: seq<nat>)
    returns (ghost savedAt': seq<nat>)
    modifies journal
    requires Walked(revoke, pages, t0, before, n, processed, starts, state.Snapshot(),
                    removals0, journal.removals, errors0, journal.errors, journal.saves, from, savedAt)
    ensures Walked(revoke, pages, t0, before, n, processed, starts, state.Snapshot(),
                   removals0, journal.removals, errors0, journal.errors, journal.saves, from, savedAt')
    ensures journal.stateFile == Some(state.Snapshot()) && journal.saves == old(journal.saves) + [state.Snapshot()]
  {
    WalkedSaved(revoke, pages, t0, before, n, processed, starts, state.Snapshot(),
                removals0, journal.removals, errors0, journal.errors, journal.saves, from, savedAt);
    journal.Save(state.Snapshot());
    savedAt' := savedAt + [n];
  }

  /** The turn whose shutdown check read the flag raised: the state is
      saved and the walk pauses at the page boundary. */
  method SaveAndPause(journal: Journal, state: State, ghost revoke: (nat, Item) -> Tally,
                      ghost pages: Option<string> -> Page, ghost t0: Option<string>, ghost before: Snapshot, ghost n: nat,
                      ghost processed: seq<Item>, ghost starts: seq<nat>,
                      ghost removals0: seq<RemovalRecord>, ghost errors0: seq<ErrorRecord>, ghost from: nat, ghost savedAt: seq<nat>)
    returns (ghost savedAt': seq<nat>)
    modifies journal
    requires Walked(revoke, pages, t0, before, n, processed, starts, state.Snapshot(),
                    removals0, journal.removals, errors0, journal.errors, journal.saves, from, savedAt)
    requires n > 0 ==> Truthy(state.pageToken)
    ensures WalkEnded(Paused, revoke, pages, t0, before, n, 0, processed, starts, state.Snapshot(),
                      removals0, journal.removals, errors0, journal.errors, journal.saves, from, savedAt')
    ensures journal.stateFile == Some(state.Snapshot()) && journal.saves == old(journal.saves) + [state.Snapshot()]
  {
    savedAt' := SaveProgress(journal, state, revoke, pages, t0, before, n,
                             processed, starts, removals0, errors0, from, savedAt);
    EndAtBoundary(Paused, revoke, pages, t0, before, n, processed, starts,
                  state.Snapshot(), removals0, journal.removals, errors0, journal.errors, journal.saves, from, savedAt');
  }

  /** The rest of a turn once the page was listed: the end of the walk on an
      empty page with no next token, otherwise the page itself, the end of
      the walk when it has no next token, and the batch save, which also
      restarts the batch count. */
  method FinishPage(service: Service, journal: Journal, state: State, shutdown: Shutdown, owner: string,
                    ghost revoke: (nat, Item) -> Tally, isFolder: bool,
                    batchCount: nat, ghost t0: Option<string>, ghost before: Snapshot, ghost n: nat,
                    ghost processed: seq<Item>, ghost starts: seq<nat>,
                    ghost removals0: seq<RemovalRecord>, ghost errors0: seq<ErrorRecord>, ghost from: nat, ghost savedAt: seq<nat>)
    returns (stop: Option<Walk>, batch: nat, ghost n': nat, ghost partial: nat, ghost processed': seq<Item>,
             ghost starts': seq<nat>, ghost savedAt': seq<nat>, ghost added: seq<Item>)
    modifies service, journal, state, shutdown
    requires RevokesAs(revoke, service.fault, service.permissionsOf, owner)
    requires Walked(revoke, service.Listing(isFolder), t0, before, n,
                    processed, starts, state.Snapshot(), removals0, journal.removals, errors0, journal.errors,
                    journal.saves, from, savedAt)
    requires n > 0 ==> Truthy(state.pageToken)
    requires shutdown.polls <= shutdown.raisedAt
    ensures stop.None? ==>
      && n' == n + 1
      && Walked(revoke, service.Listing(isFolder), t0, before, n',
                processed', starts', state.Snapshot(), removals0, journal.removals, errors0, journal.errors,
                journal.saves, from, savedAt')
      && Truthy(state.pageToken)
      && shutdown.polls <= shutdown.raisedAt
    ensures stop.None? ==>
      var items := service.Listing(isFolder)(old(state.pageToken)).items;
      if batchCount + |items| >= BATCH_SAVE_SIZE then
        batch == 0 && journal.stateFile == Some(state.Snapshot()) &&
        journal.saves != [] && journal.saves[|journal.saves| - 1] == state.Snapshot()
      else
        batch == batchCount + |items|
    ensures stop.Some? ==>
      && WalkEnded(stop.value, revoke, service.Listing(isFolder), t0, before, n', partial,
                   processed', starts', state.Snapshot(), removals0, journal.removals, errors0, journal.errors,
                   journal.saves, from, savedAt')
      && !stop.value.Aborted?
      && (stop.value == Paused ==> shutdown.polls == shutdown.raisedAt + 1)
      && (stop.value == Completed ==> shutdown.polls <= shutdown.raisedAt)
      && (stop.value != Completed ==> journal.stateFile == Some(state.Snapshot()))
    ensures var p := PageFrom(revoke, service.Listing(isFolder), old(state.pageToken), |old(service.log)|,
                              old(shutdown.polls), shutdown.raisedAt);
      stop == p.stop && service.log == old(service.log) + p.sent && service.sleeps == old(service.sleeps) + p.waits &&
      shutdown.polls == p.polls && state.pageToken == p.token
    ensures service.Listing(isFolder)(old(state.pageToken)).items == [] && !Truthy(old(state.pageToken)) ==>
      stop == Some(Completed) && added == []
    ensures processed' == processed + added
    ensures AddedBackToBack(revoke, added, |old(service.log)|, starts, starts', old(service.log), service.log)
    ensures shutdown.polls == old(shutdown.polls) + |added| + (if stop == Some(Paused) then 1 else 0)
    ensures Extends(old(journal.saves), journal.saves)
  {
    var pages := service.Listing(isFolder);
    n' := n;
    if pages(state.pageToken).items == [] && !Truthy(state.pageToken) {
      batch, partial, processed', starts', savedAt', added := batchCount, 0, processed, starts, savedAt, [];
      EndAtBoundary(Completed, revoke, pages, t0, before, n,
                    processed, starts, state.Snapshot(), removals0, journal.removals, errors0, journal.errors,
                    journal.saves, from, savedAt);
      PageEmpty(revoke, pages, state.pageToken, |service.log|, shutdown.polls, shutdown.raisedAt);
      assert processed + [] == processed && starts + [] == starts && service.log + [] == service.log;
      assert service.sleeps + [] == service.sleeps;
      return Some(Completed), batch, n', partial, processed', starts', savedAt', added;
    }
    var paused;
    paused, batch, partial, processed', starts', savedAt', added :=
      WalkPage(service, journal, state, shutdown, owner, revoke, isFolder, batchCount, t0, before, n,
               processed, starts, removals0, errors0, from, savedAt);
    PageWalked(revoke, pages, old(state.pageToken), |old(service.log)|, old(shutdown.polls), shutdown.raisedAt, added);
    if paused {
      stop := Some(Paused);
    } else {
      n' := n + 1;
      ghost var saves := journal.saves;
      stop, batch, savedAt' := EndPage(journal, state, batch, revoke, pages, t0, before, n',
                                       processed', starts', removals0, errors0, from, savedAt');
      ExtendsTransitive(old(journal.saves), saves, journal.saves);
    }
  }

  /** The empty first page with no token ends the walk at once. */
  lemma PageEmpty(revoke: (nat, Item) -> Tally, pages: Option<string> -> Page, token: Option<string>,
                  at: nat, polls: nat, raisedAt: nat)
    requires polls <= raisedAt
    requires pages(token).items == [] && !Truthy(token)
    ensures PageFrom(revoke, pages, token, at, polls, raisedAt) == Pass(Some(Completed), [], [], polls, token)
  {
  }

  /** Any other page: the items `added` before the first poll that reads
      the flag raised go out back to back, and the walk pauses inside the
      page, goes on to the next page or ends after it. */
  lemma PageWalked(revoke: (nat, Item) -> Tally, pages: Option<string> -> Page, token: Option<string>,
                   at: nat, polls: nat, raisedAt: nat, added: seq<Item>)
    requires polls <= raisedAt
    requires pages(token).items != [] || Truthy(token)
    requires added == pages(token).items[..Handled(|pages(token).items|, polls, raisedAt)]
    ensures var p := PageFrom(revoke, pages, token, at, polls, raisedAt);
      var b := BackToBack(revoke, added, at);
      var paused := |added| < |pages(token).items|;
      && p.sent == b.1 && p.waits == b.2
      && p.polls == polls + |added| + (if paused then 1 else 0)
      && p.stop == (if paused then Some(Paused) else if Truthy(pages(token).nextPageToken) then None else Some(Completed))
      && p.token == (if paused then token else pages(token).nextPageToken)
  {
  }

  /** The end of a page that was walked to its end: the walk is over when
      the page has no next token; otherwise the state is saved once the
      batch count reaches `BATCH_SAVE_SIZE`, which restarts the count. */
  method EndPage(journal: Journal, state: State, batchCount: nat, ghost revoke: (nat, Item) -> Tally,
                 ghost pages: Option<string> -> Page, ghost t0: Option<string>, ghost before: Snapshot, ghost n: nat,
                 ghost processed: seq<Item>, ghost starts: seq<nat>,
                 ghost removals0: seq<RemovalRecord>, ghost errors0: seq<ErrorRecord>, ghost from: nat, ghost savedAt: seq<nat>)
    returns (stop: Option<Walk>, batch: nat, ghost savedAt': seq<nat>)
    modifies journal
    requires n > 0
    requires Walked(revoke, pages, t0, before, n, processed, starts, state.Snapshot(),
                    removals0, journal.removals, errors0, journal.errors, journal.saves, from, savedAt)
    ensures !Truthy(state.pageToken) ==>
      && stop == Some(Completed) && batch == batchCount && journal.saves == old(journal.saves)
      && WalkEnded(Completed, revoke, pages, t0, before, n, 0, processed, starts, state.Snapshot(),
                   removals0, journal.removals, errors0, journal.errors, journal.saves, from, savedAt')
    ensures Truthy(state.pageToken) ==>
      && stop.None?
      && Walked(revoke, pages, t0, before, n, processed, starts, state.Snapshot(),
                removals0, journal.removals, errors0, journal.errors, journal.saves, from, savedAt')
      && if batchCount >= BATCH_SAVE_SIZE then
           batch == 0 && journal.stateFile == Some(state.Snapshot()) &&
           journal.saves == old(journal.saves) + [state.Snapshot()]
         else
           batch == batchCount && journal.saves == old(journal.saves)
    ensures Extends(old(journal.saves), journal.saves)
  {
    batch, savedAt' := batchCount, savedAt;
    if !Truthy(state.pageToken) {
      EndAtBoundary(Completed, revoke, pages, t0, before, n, processed, starts, state.Snapshot(),
                    removals0, journal.removals, errors0, journal.errors, journal.saves, from, savedAt);
      stop := Some(Completed);
    } else {
      if batchCount >= BATCH_SAVE_SIZE {
        savedAt' := SaveProgress(journal, state, revoke, pages, t0, before, n,
                                 processed, starts, removals0, errors0, from, savedAt);
        batch := 0;
      }
      stop := None;
    }
  }

  /** A page listing that failed after its retries with `status`: the state
      is saved, and after a 403 or 429 the walk waits a minute and goes on
      with the same page; after any other status it stops. */
  method ListingFailed(service: Service, journal: Journal, state: State, status: int,
                       ghost revoke: (nat, Item) -> Tally, ghost pages: Option<string> -> Page,
                       ghost t0: Option<string>, ghost before: Snapshot, ghost n: nat,
                       ghost processed: seq<Item>, ghost starts: seq<nat>,
                       ghost removals0: seq<RemovalRecord>, ghost errors0: seq<ErrorRecord>, ghost from: nat, ghost savedAt: seq<nat>)
    returns (stop: Option<Walk>, ghost savedAt': seq<nat>)
    modifies service, journal
    requires Walked(revoke, pages, t0, before, n, processed, starts, state.Snapshot(),
                    removals0, journal.removals, errors0, journal.errors, journal.saves, from, savedAt)
    requires n > 0 ==> Truthy(state.pageToken)
    ensures journal.stateFile == Some(state.Snapshot()) && journal.saves == old(journal.saves) + [state.Snapshot()]
    ensures service.log == old(service.log)
    ensures if status == 403 || status == 429 then
        && stop.None?
        && Walked(revoke, pages, t0, before, n, processed, starts, state.Snapshot(),
                  removals0, journal.removals, errors0, journal.errors, journal.saves, from, savedAt')
        && service.sleeps == old(service.sleeps) + [RATE_LIMIT_WAIT_MS]
      else
        && stop == Some(Aborted(status))
        && WalkEnded(Aborted(status), revoke, pages, t0, before, n, 0, processed, starts, state.Snapshot(),
                     removals0, journal.removals, errors0, journal.errors, journal.saves, from, savedAt')
        && service.sleeps == old(service.sleeps)
  {
    savedAt' := SaveProgress(journal, state, revoke, pages, t0, before, n, processed, starts, removals0, errors0, from, savedAt);
    if status == 403 || status == 429 {
      service.Sleep(RATE_LIMIT_WAIT_MS);
      stop := None;
    } else {
      EndAtBoundary(Aborted(status), revoke, pages, t0, before, n, processed, starts, state.Snapshot(),
                    removals0, journal.removals, errors0, journal.errors, journal.saves, from, savedAt');
      stop := Some(Aborted(status));
    }
  }

  /** The page listing of a turn, through the retry wrapper. */
  method ListPage(service: Service, isFolder: bool, token: Option<string>) returns (raised: Option<int>)
    modifies service
    ensures var c := Retry(service.fault, |old(service.log)|);
      && raised == c.raised && c.attempts >= 1
      && service.log == old(service.log) + Repeat(ListItems(isFolder, token), c.attempts)
      && service.sleeps == old(service.sleeps) + c.sleeps
  {
    RetryPolicy(service.fault, |service.log|);
    raised := CallWithRetry(service, ListItems(isFolder, token));
  }

  /** A turn once its shutdown check, the poll numbered `polls`, found no
      request: the page listing (`listing`) from the state's page token
      `token` with its error handling, and the page itself (`added`). The
      requests it sends follow `log`, the requests sent before the turn. */
  method ListAndWalk(service: Service, journal: Journal, state: State, shutdown: Shutdown, owner: string,
                     ghost revoke: (nat, Item) -> Tally, isFolder: bool,
                     batchCount: nat, ghost t0: Option<string>, ghost before: Snapshot, ghost n: nat,
                     ghost processed: seq<Item>, ghost starts: seq<nat>,
                     ghost removals0: seq<RemovalRecord>, ghost errors0: seq<ErrorRecord>, ghost from: nat, ghost savedAt: seq<nat>,
                     ghost token: Option<string>, ghost log: seq<Request>, ghost sleeps: seq<nat>, ghost polls: nat)
    returns (stop: Option<Walk>, batch: nat, ghost n': nat, ghost partial: nat, ghost processed': seq<Item>,
             ghost starts': seq<nat>, ghost savedAt': seq<nat>, ghost listing: seq<Request>, ghost added: seq<Item>,
             ghost c: Call, ghost p: Pass)
    modifies service, journal, state, shutdown
    requires RevokesAs(revoke, service.fault, service.permissionsOf, owner)
    requires Walked(revoke, service.Listing(isFolder), t0, before, n,
                    processed, starts, state.Snapshot(), removals0, journal.removals, errors0, journal.errors,
                    journal.saves, from, savedAt)
    requires n > 0 ==> Truthy(state.pageToken)
    requires state.pageToken == token && service.log == log && service.sleeps == sleeps
    requires polls < shutdown.raisedAt && shutdown.polls == polls + 1
    ensures stop.None? ==>
      && Walked(revoke, service.Listing(isFolder), t0, before, n',
                processed', starts', state.Snapshot(), removals0, journal.removals, errors0, journal.errors,
                journal.saves, from, savedAt')
      && (n' > 0 ==> Truthy(state.pageToken))
    ensures stop.Some? ==>
      && WalkEnded(stop.value, revoke, service.Listing(isFolder), t0, before, n', partial,
                   processed', starts', state.Snapshot(), removals0, journal.removals, errors0, journal.errors,
                   journal.saves, from, savedAt')
      && (stop.value.Aborted? ==> stop.value.status != 403 && stop.value.status != 429)
      && (stop.value != Completed ==> journal.stateFile == Some(state.Snapshot()))
    ensures c == Retry(service.fault, |log|) && c.attempts >= 1
    ensures listing == Repeat(ListItems(isFolder, token), c.attempts)
    ensures c.raised.None? && stop.None? ==> n' == n + 1
    ensures c.raised.Some? ==>
      && n' == n && added == [] && journal.stateFile == Some(state.Snapshot())
      && if c.raised.value == 403 || c.raised.value == 429 then
           stop.None? && batch == batchCount &&
           service.sleeps == old(service.sleeps) + c.sleeps + [RATE_LIMIT_WAIT_MS]
         else
           stop == Some(Aborted(c.raised.value))
    ensures stop.Some? && stop.value.Aborted? ==> c.raised == Some(stop.value.status)
    ensures p == TurnFrom(revoke, service.fault, service.Listing(isFolder), isFolder, token, |log|, polls, shutdown.raisedAt)
    ensures stop == p.stop && service.log == log + p.sent && shutdown.polls == p.polls && state.pageToken == p.token
    ensures service.sleeps == sleeps + p.waits
    ensures processed' == processed + added
    ensures AddedBackToBack(revoke, added, |log| + |listing|, starts, starts', listing, p.sent)
    ensures stop == Some(Paused) ==> shutdown.polls == Max(polls, shutdown.raisedAt) + 1
    ensures stop != Some(Paused) ==> polls < shutdown.polls <= shutdown.raisedAt
    ensures shutdown.polls <= polls + |added| + |listing| + (if stop == Some(Paused) then 1 else 0)
    ensures Extends(old(journal.saves), journal.saves)
  {
    var pages := service.Listing(isFolder);
    batch, n', partial, processed', starts', savedAt', added := batchCount, n, 0, processed, starts, savedAt, [];
    c := Retry(service.fault, |service.log|);
    listing := Repeat(ListItems(isFolder, state.pageToken), c.attempts);
    p := TurnFrom(revoke, service.fault, pages, isFolder, token, |log|, polls, shutdown.raisedAt);
    assert p == ListedFrom(revoke, service.fault, pages, isFolder, state.pageToken, |service.log|,
                           shutdown.polls, shutdown.raisedAt);
    var raised := ListPage(service, isFolder, state.pageToken);
    if raised.Some? {
      ghost var saves := journal.saves;
      stop, savedAt' := ListingFailed(service, journal, state, raised.value, revoke,
                                      pages, t0, before, n, processed, starts, removals0, errors0, from, savedAt);
      assert Extends(saves, journal.saves);
      AddedNothing(revoke, |log| + |listing|, starts, listing);
      assert processed + [] == processed;
      assert p == Pass(stop, listing, p.waits, shutdown.polls, state.pageToken);
    } else {
      ghost var listed := service.log;
      assert listed == log + listing && |listed| == |log| + |listing|;
      ghost var q := PageFrom(revoke, pages, state.pageToken, |service.log|, shutdown.polls, shutdown.raisedAt);
      assert p == q.(sent := listing + q.sent, waits := c.sleeps + q.waits);
      stop, batch, n', partial, processed', starts', savedAt', added :=
        FinishPage(service, journal, state, shutdown, owner, revoke, isFolder, batchCount, t0, before, n,
                   processed, starts, removals0, errors0, from, savedAt);
      AddedAfterListing(revoke, added, log, listing, starts, starts', q.sent);
      Associative(log, listing, q.sent);
      Associative(sleeps, c.sleeps, q.waits);
    }
  }

  /** A turn whose shutdown check reads the flag raised pauses the walk,
      having sent and waited nothing. */
  lemma TurnPaused(revoke: (nat, Item) -> Tally, fault: nat -> Option<int>, pages: Option<string> -> Page,
                   isFolder: bool, token: Option<string>, at: nat, polls: nat, raisedAt: nat)
    requires raisedAt <= polls
    ensures TurnFrom(revoke, fault, pages, isFolder, token, at, polls, raisedAt) == Pass(Some(Paused), [], [], polls + 1, token)
  {
  }

  /** A turn that handles no item adds no start and no request. */
  lemma AddedNothing(revoke: (nat, Item) -> Tally, at: nat, starts: seq<nat>, listing: seq<Request>)
    ensures AddedBackToBack(revoke, [], at, starts, starts, listing, listing)
  {
    assert BackToBack(revoke, [], at) == ([], [], []);
    assert starts + [] == starts && listing + [] == listing;
  }

  /** The items a page added after its listing, seen from before the
      listing. */
  lemma AddedAfterListing(revoke: (nat, Item) -> Tally, added: seq<Item>, log: seq<Request>, listing: seq<Request>,
                          starts: seq<nat>, starts': seq<nat>, rest: seq<Request>)
    requires AddedBackToBack(revoke, added, |log + listing|, starts, starts', log + listing, log + listing + rest)
    ensures AddedBackToBack(revoke, added, |log| + |listing|, starts, starts', listing, listing + rest)
  {
    var b := BackToBack(revoke, added, |log| + |listing|);
    assert rest == b.1 by {
      assert (log + listing + rest)[|log + listing|..] == rest;
    }
  }

  /** One turn of the walk's outer loop: the shutdown check, which saves the
      state and pauses the walk when it reads the flag raised, and otherwise
      the page listing (`listing`) with its error handling and the page
      itself (`added`). `None` means the loop goes on: after a page, or
      after a throttled listing and the wait. */
  method WalkTurn(service: Service, journal: Journal, state: State, shutdown: Shutdown, owner: string,
                  ghost revoke: (nat, Item) -> Tally, isFolder: bool,
                  batchCount: nat, ghost t0: Option<string>, ghost before: Snapshot, ghost n: nat,
                  ghost processed: seq<Item>, ghost starts: seq<nat>,
                  ghost removals0: seq<RemovalRecord>, ghost errors0: seq<ErrorRecord>, ghost from: nat, ghost savedAt: seq<nat>)
    returns (stop: Option<Walk>, batch: nat, ghost n': nat, ghost partial: nat, ghost processed': seq<Item>,
             ghost starts': seq<nat>, ghost savedAt': seq<nat>, ghost listing: seq<Request>, ghost added: seq<Item>,
             ghost c: Call, ghost p: Pass)
    modifies service, journal, state, shutdown
    requires RevokesAs(revoke, service.fault, service.permissionsOf, owner)
    requires Walked(revoke, service.Listing(isFolder), t0, before, n,
                    processed, starts, state.Snapshot(), removals0, journal.removals, errors0, journal.errors,
                    journal.saves, from, savedAt)
    requires n > 0 ==> Truthy(state.pageToken)
    ensures stop.None? ==>
      && Walked(revoke, service.Listing(isFolder), t0, before, n',
                processed', starts', state.Snapshot(), removals0, journal.removals, errors0, journal.errors,
                journal.saves, from, savedAt')
      && (n' > 0 ==> Truthy(state.pageToken))
    ensures stop.Some? ==>
      && WalkEnded(stop.value, revoke, service.Listing(isFolder), t0, before, n', partial,
                   processed', starts', state.Snapshot(), removals0, journal.removals, errors0, journal.errors,
                   journal.saves, from, savedAt')
      && (stop.value.Aborted? ==> stop.value.status != 403 && stop.value.status != 429)
      && (stop.value != Completed ==> journal.stateFile == Some(state.Snapshot()))
    ensures listing == Repeat(ListItems(isFolder, old(state.pageToken)), |listing|)
    ensures c == Retry(service.fault, |old(service.log)|)
    ensures stop.Some? && stop.value.Aborted? ==> c.raised == Some(stop.value.status)
    ensures p == TurnFrom(revoke, service.fault, service.Listing(isFolder), isFolder, old(state.pageToken),
                          |old(service.log)|, old(shutdown.polls), shutdown.raisedAt)
    ensures stop == p.stop && service.log == old(service.log) + p.sent && shutdown.polls == p.polls && state.pageToken == p.token
    ensures service.sleeps == old(service.sleeps) + p.waits
    ensures processed' == processed + added
    ensures AddedBackToBack(revoke, added, |old(service.log)| + |listing|, starts, starts', listing, p.sent)
    ensures stop == Some(Paused) ==> shutdown.polls == Max(old(shutdown.polls), shutdown.raisedAt) + 1
    ensures stop != Some(Paused) ==> old(shutdown.polls) < shutdown.polls <= shutdown.raisedAt
    ensures shutdown.polls <= old(shutdown.polls) + |added| + |listing| + (if stop == Some(Paused) then 1 else 0)
    ensures Extends(old(journal.saves), journal.saves)
  {
    ghost var token, log, polls := state.pageToken, service.log, shutdown.polls;
    var requested := shutdown.Poll();
    if requested {
      var pages := service.Listing(isFolder);
      batch, n', partial, processed', starts', listing, added := batchCount, n, 0, processed, starts, [], [];
      savedAt' := SaveAndPause(journal, state, revoke, pages, t0, before, n,
                               processed, starts, removals0, errors0, from, savedAt);
      c := Retry(service.fault, |log|);
      p := TurnFrom(revoke, service.fault, pages, isFolder, token, |log|, polls, shutdown.raisedAt);
      TurnPaused(revoke, service.fault, pages, isFolder, token, |log|, polls, shutdown.raisedAt);
      AddedNothing(revoke, |log|, starts, []);
      assert processed + [] == processed && log + [] == log && service.sleeps + [] == service.sleeps;
      stop := Some(Paused);
    } else {
      stop, batch, n', partial, processed', starts', savedAt', listing, added, c, p :=
        ListAndWalk(service, journal, state, shutdown, owner, revoke, isFolder, batchCount, t0, before, n,
                    processed, starts, removals0, errors0, from, savedAt, token, log, service.sleeps, polls);
    }
  }

  /** One turn of the walk's loop, with what the walk has done since it
      began: the items handled (`processed`, the first request of each in
      `starts`), the requests sent since `log0`, the saves since `saves0`
      and the polls since `polls0`. The reference walk `w`, begun after
      `log0` and the waits `sleeps0`, either ends with this turn or resumes
      after it. */
  method Turn(service: Service, journal: Journal, state: State, shutdown: Shutdown, owner: string,
              ghost revoke: (nat, Item) -> Tally, isFolder: bool,
              batchCount: nat, ghost t0: Option<string>, ghost before: Snapshot, ghost n: nat,
              ghost processed: seq<Item>, ghost starts: seq<nat>,
              ghost removals0: seq<RemovalRecord>, ghost errors0: seq<ErrorRecord>, ghost from: nat, ghost savedAt: seq<nat>,
              ghost log0: seq<Request>, ghost sleeps0: seq<nat>, ghost saves0: seq<Snapshot>, ghost polls0: nat,
              ghost w: WalkRun)
    returns (stop: Option<Walk>, batch: nat, ghost n': nat, ghost partial: nat, ghost processed': seq<Item>,
             ghost starts': seq<nat>, ghost savedAt': seq<nat>)
    modifies service, journal, state, shutdown
    requires RevokesAs(revoke, service.fault, service.permissionsOf, owner)
    requires Walked(revoke, service.Listing(isFolder), t0, before, n,
                    processed, starts, state.Snapshot(), removals0, journal.removals, errors0, journal.errors,
                    journal.saves, from, savedAt)
    requires n > 0 ==> Truthy(state.pageToken)
    requires |starts| == |processed|
    requires Requested(Revocations(revoke, processed, starts), starts, log0, service.log)
    requires Extends(saves0, journal.saves)
    requires shutdown.polls - polls0 <= |processed| + Listed(service.log) - Listed(log0)
    requires Resumes(w, log0, sleeps0, WalkFrom(revoke, service.fault, service.Listing(isFolder), isFolder,
                     state.pageToken, |service.log|, shutdown.polls, shutdown.raisedAt), service.log, service.sleeps)
    ensures stop.None? ==>
      && Walked(revoke, service.Listing(isFolder), t0, before, n',
                processed', starts', state.Snapshot(), removals0, journal.removals, errors0, journal.errors,
                journal.saves, from, savedAt')
      && (n' > 0 ==> Truthy(state.pageToken))
    ensures stop.Some? ==>
      && WalkEnded(stop.value, revoke, service.Listing(isFolder), t0, before, n', partial,
                   processed', starts', state.Snapshot(), removals0, journal.removals, errors0, journal.errors,
                   journal.saves, from, savedAt')
      && (stop.value.Aborted? ==> stop.value.status != 403 && stop.value.status != 429)
      && (stop.value != Completed ==> journal.stateFile == Some(state.Snapshot()))
    ensures stop.Some? && stop.value.Aborted? ==> Retry(service.fault, |old(service.log)|).raised == Some(stop.value.status)
    ensures stop.Some? ==>
      && w.outcome == stop.value && log0 + w.sent == service.log && sleeps0 + w.waits == service.sleeps
      && w.polls == shutdown.polls && w.token == state.pageToken
    ensures stop.None? ==>
      Resumes(w, log0, sleeps0, WalkFrom(revoke, service.fault, service.Listing(isFolder), isFolder,
                                         state.pageToken, |service.log|, shutdown.polls, shutdown.raisedAt),
              service.log, service.sleeps)
    ensures |starts'| == |processed'|
    ensures Requested(Revocations(revoke, processed', starts'), starts', log0, service.log)
    ensures Extends(saves0, journal.saves)
    ensures stop == Some(Paused) ==> shutdown.polls == Max(old(shutdown.polls), shutdown.raisedAt) + 1
    ensures stop != Some(Paused) ==> old(shutdown.polls) < shutdown.polls <= shutdown.raisedAt
    ensures shutdown.polls - polls0 <=
      |processed'| + Listed(service.log) - Listed(log0) + (if stop == Some(Paused) then 1 else 0)
  {
    ghost var log, sleeps, saves, token, polls := service.log, service.sleeps, journal.saves, state.pageToken, shutdown.polls;
    ghost var listing, added, c, p;
    stop, batch, n', partial, processed', starts', savedAt', listing, added, c, p :=
      WalkTurn(service, journal, state, shutdown, owner, revoke, isFolder, batchCount, t0, before, n,
               processed, starts, removals0, errors0, from, savedAt);
    TurnRequested(revoke, service.fault, service.permissionsOf, owner, processed, starts, log0, old(service.log),
                  ListItems(isFolder, old(state.pageToken)), listing, added, p.sent, service.log, processed', starts');
    ExtendsTransitive(saves0, saves, journal.saves);
    if stop.Some? {
      WalkStops(revoke, service.fault, service.Listing(isFolder), isFolder, token, log, polls, shutdown.raisedAt,
                sleeps, w, log0, sleeps0, p);
    } else {
      WalkGoesOn(revoke, service.fault, service.Listing(isFolder), isFolder, token, log, polls, shutdown.raisedAt,
                 sleeps, w, log0, sleeps0, p);
    }
  }

  /** `process_items`: walks the pages of the file query (or of the folder
      query when `isFolder`) from the state's page token, handling every item
      and advancing the token only after a whole page. Between two polls of
      the shutdown flag it handles an item or lists a page, and it stops at
      the first poll that reads the flag raised. */
  method ProcessItems(service: Service, journal: Journal, state: State, shutdown: Shutdown, owner: string,
                      ghost revoke: (nat, Item) -> Tally, isFolder: bool)
    returns (outcome: Walk, ghost pagesDone: nat, ghost partial: nat, ghost processed: seq<Item>,
             ghost starts: seq<nat>, ghost savedAt: seq<nat>, ghost w: WalkRun)
    modifies service, journal, state, shutdown
    requires RevokesAs(revoke, service.fault, service.permissionsOf, owner)
    ensures WalkEnded(outcome, revoke, service.Listing(isFolder),
                      old(state.pageToken), old(state.Snapshot()), pagesDone, partial, processed, starts, state.Snapshot(),
                      old(journal.removals), journal.removals, old(journal.errors), journal.errors,
                      journal.saves, |old(journal.saves)|, savedAt)
    ensures w == WalkFrom(revoke, service.fault, service.Listing(isFolder), isFolder, old(state.pageToken),
                          |old(service.log)|, old(shutdown.polls), shutdown.raisedAt)
    ensures outcome == w.outcome && service.log == old(service.log) + w.sent && service.sleeps == old(service.sleeps) + w.waits
    ensures shutdown.polls == w.polls && state.pageToken == w.token
    ensures |starts| == |processed|
    ensures Requested(Revocations(revoke, processed, starts), starts,
                      old(service.log), service.log)
    ensures Extends(old(journal.saves), journal.saves)
    ensures outcome == Paused ==> shutdown.polls == Max(old(shutdown.polls), shutdown.raisedAt) + 1
    ensures outcome != Paused ==> old(shutdown.polls) < shutdown.polls <= shutdown.raisedAt
    ensures shutdown.polls - old(shutdown.polls) <=
      |processed| + Listed(service.log[|old(service.log)|..]) + (if outcome == Paused then 1 else 0)
    ensures outcome.Aborted? ==> outcome.status != 403 && outcome.status != 429
    ensures outcome != Completed ==> journal.stateFile == Some(state.Snapshot())
  {
    ghost var t0 := state.pageToken;
    ghost var before := state.Snapshot();
    var batchCount: nat := 0;
    pagesDone, partial, processed, starts, savedAt := 0, 0, [], [], [];
    w := WalkFrom(revoke, service.fault, service.Listing(isFolder), isFolder, state.pageToken,
                  |service.log|, shutdown.polls, shutdown.raisedAt);
    RequestedNothing(service.log);
    while true
      invariant Walked(revoke, service.Listing(isFolder), t0, before, pagesDone,
                       processed, starts, state.Snapshot(), old(journal.removals), journal.removals,
                       old(journal.errors), journal.errors, journal.saves, |old(journal.saves)|, savedAt)
      invariant pagesDone > 0 ==> Truthy(state.pageToken)
      invariant Resumes(w, old(service.log), old(service.sleeps),
                        WalkFrom(revoke, service.fault, service.Listing(isFolder), isFolder,
                                 state.pageToken, |service.log|, shutdown.polls, shutdown.raisedAt),
                        service.log, service.sleeps)
      invariant |starts| == |processed|
      invariant Requested(Revocations(revoke, processed, starts), starts, old(service.log), service.log)
      invariant Extends(old(journal.saves), journal.saves)
      invariant old(shutdown.polls) <= shutdown.polls
      invariant shutdown.polls > old(shutdown.polls) ==> shutdown.polls <= shutdown.raisedAt
      invariant shutdown.polls - old(shutdown.polls) <= |processed| + Listed(service.log) - Listed(old(service.log))
      decreases shutdown.raisedAt - shutdown.polls
    {
      var stop;
      stop, batchCount, pagesDone, partial, processed, starts, savedAt :=
        Turn(service, journal, state, shutdown, owner, revoke, isFolder, batchCount, t0, before, pagesDone,
             processed, starts, old(journal.removals), old(journal.errors), |old(journal.saves)|, savedAt,
             old(service.log), old(service.sleeps), old(journal.saves), old(shutdown.polls), w);
      if stop.Some? {
        ListedSince(old(service.log), service.log);
        return stop.value, pagesDone, partial, processed, starts, savedAt, w;
      }
    }
  }
}
