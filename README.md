# nuke_drive: a verified model of the permission-stripping engine

`nuke_drive.py` signs in to Google Drive and removes shares from every item
the signed-in account can list. The listings filter only on the MIME type,
folders apart from everything else, and take in items from all drives
(`includeItemsFromAllDrives=True`); they do not ask for items the user owns.
It walks the file listing page by page, then the folder listing. For each
item it lists the item's permissions and deletes every grant except the owner
role and the signed-in user's own grant. Each removal goes to a CSV removal
log and each failure to a CSV error log. Progress is kept in a JSON state
file, so a run stopped with Ctrl+C can be resumed.

Every listing and every deletion goes through `api_call_with_retry`. That
wrapper makes at most five attempts, retries only on 403, 429, 500 and 503,
waits 0.1 s before the first retry and doubles the wait each time, and pauses
0.1 s after a call succeeds. The one other Drive request, the
`about().get().execute()` of `get_user_email`, is made directly.

The model is in Dafny and follows the shape of the Python code.

- `types.dfy` (module `Types`): the values. These are Drive permissions, items,
  listing pages, requests, log rows, the phase and the state-file snapshot,
  plus ASCII `str.lower`/`str.upper`.
- `environment.dfy` (module `Environment`): the collaborators, as classes
  whose fields change.
  - `Service` is the Drive API. Listings are fixed data, and a fault oracle
    decides which request raises an `HttpError`. Every request and every sleep
    is recorded.
  - `Journal` holds the two CSV logs and the state file.
  - `Shutdown` is the SIGINT flag.
- `retry.dfy` (module `Backoff`): `api_call_with_retry` as the specification
  function `Retry`, the method `CallWithRetry` that runs the loop, and the
  retry-policy lemmas.
- `revoker.dfy` (module `Revoker`): `remove_file_permissions`. `Revoke` is the
  specification function and `RemoveFilePermissions` the loop that is proved
  to follow it. The lemmas cover the owner's safety, exact bookkeeping, error
  isolation, labels and idempotence.
- `state.dfy` (module `RunState`): the state dictionary as a class, and
  `load_state` with its defaults.
- `walk_spec.dfy` (module `WalkSpec`): the specification of a walk over a
  paginated listing. It covers the pages followed, the items handled, the
  counters against the log rows, and where the state was saved. It also
  defines the reference walk `WalkFrom`, built from one turn of the loop
  (`TurnFrom`: the shutdown check, the listing through `Retry`, then the
  page). `WalkFrom` fixes how a walk ends, every request it sends, every
  wait it makes, the polls of the shutdown flag it makes and the token it
  leaves.
- `walker.dfy` (module `Walker`): `process_items` as imperative methods proved
  against `WalkSpec`. The revocation of one item is passed to them as a
  function `revoke` of the request number and the item, together with the
  fact `RevokesAs` that it agrees with `Revoke` on the Drive's faults and
  permission listings. `ProcessItems` is proved equal to `WalkFrom`.
- `runner.dfy` (module `Runner`): `main` after sign-in. It sequences the phases
  files, folders, complete.
- `scenarios.dfy` (module `Scenarios`): worked revocations of one file, proved
  for every position in the run's request stream.

Time is counted in integer milliseconds. `BASE_DELAY` is 100 ms (`Backoff.BASE_DELAY_MS`) and the 60 s
rate-limit wait is 60000 ms (`WalkSpec.RATE_LIMIT_WAIT_MS`).

## Model

| member | source | states |
|---|---|---|
| Types.Lower | nuke_drive.py:366 | `str.lower()` keeps the length and lower-cases each ASCII letter in place |
| Types.Upper | nuke_drive.py:358 | `str.upper()` keeps the length and upper-cases each ASCII letter in place |
| Types.LowerIgnoresCase | nuke_drive.py:366 | two addresses that differ only in letter case compare equal once lower-cased, so the owner check ignores case |
| Environment.Service.Send | nuke_drive.py:304 | one `execute()`: the request is appended to the request log, and the `HttpError` status it raises is the fault oracle's answer for that request number |
| Environment.Service.Sleep | nuke_drive.py:305 | `time.sleep` appends its duration to the record of waits and sends nothing |
| Environment.Journal.LogRemoval | nuke_drive.py:284-288 | appends exactly one row to the removal log; the error log and the state file are unchanged |
| Environment.Journal.LogError | nuke_drive.py:291-295 | appends exactly one row to the error log; the removal log and the state file are unchanged |
| Environment.Journal.Save | nuke_drive.py:264-268 | the state file now holds the given snapshot, and the snapshot is added to the history of saves |
| Environment.Journal.Discard | nuke_drive.py:533-534 | the state file no longer exists; the logs are unchanged |
| Environment.Shutdown.Poll | nuke_drive.py:61-65 | reading `shutdown_requested` answers true exactly from the poll numbered `raisedAt` on, when the handler has run; once set it stays set |
| Backoff.RetryFromAttempts | nuke_drive.py:302-314 | from any attempt on, the loop ends within five attempts; every attempt before the last raised a retryable status; the last attempt's outcome is the call's outcome |
| Backoff.RetryFromSleeps | nuke_drive.py:300-313 | the waits between attempts are 100·2^j ms, and a success adds the 100 ms pause |
| Backoff.RetryPolicy | nuke_drive.py:298-316 | the whole retry policy: 1 to 5 attempts; only 403/429/500/503 are retried; a retryable status is raised only on the fifth attempt; waits are 100, 200, 400, 800 ms; a success ends with a 100 ms pause |
| Backoff.FirstAttemptDecides | nuke_drive.py:307-314 | a status other than 403/429/500/503 on the first attempt is raised at once, and a first attempt that succeeds is the only one |
| Backoff.RetryWaitBounded | nuke_drive.py:300-313 | one wrapped call never waits more than 1600 ms in all |
| Backoff.RetryWaitEach | nuke_drive.py:300-313 | no single wait of a wrapped call exceeds 800 ms, the backoff before the fifth attempt |
| Backoff.TotalOfDoubling | nuke_drive.py:311-312 | doubling waits from 100 ms add up to 100·(2^n − 1) ms |
| Backoff.CallWithRetry | nuke_drive.py:298-316 | the loop sends the request once per attempt of `Retry`, sleeps exactly `Retry`'s waits and raises `Retry`'s status |
| Revoker.Revocables | nuke_drive.py:347-367 | the permissions the loop deletes: every listed permission that is not the owner role and is a link grant or a user/group grant to another address (compared ignoring case), each as often as it is listed, and nothing else |
| Revoker.Positions | nuke_drive.py:347-367 | the positions of the revocable entries of the listing, in increasing order, and every revocable entry's position among them |
| Revoker.RevocablesInOrder | nuke_drive.py:347-367 | the loop deletes in listing order: the k-th permission it deletes is the listing's entry at the k-th revocable position |
| Revoker.SweepAppends | nuke_drive.py:341-381 | handling the permissions only appends to the two logs, the requests and the waits |
| Revoker.SweepAccounting | nuke_drive.py:341-381 | each revocable permission adds exactly 1 to `removed` or to `errors`, with its row in the matching log; the counts stay equal to the row counts |
| Revoker.SweepWaitEach | nuke_drive.py:341-381 | the permission loop adds no wait longer than 800 ms: it waits only inside the wrapped deletions |
| Revoker.SweepSparesOwner | nuke_drive.py:347-367 | the owner is never deleted: every request the loop sends deletes, on this item, one of the listed permissions that is revocable |
| Revoker.SweepTriesEvery | nuke_drive.py:350-381 | error isolation: a failed deletion does not stop the loop, so every revocable permission has its deletion requested |
| Revoker.StepSends | nuke_drive.py:350-381 | handling one permission keeps the requests sent so far, and for a revocable permission the next request deletes it |
| Revoker.SweepRowsAreRevocable | nuke_drive.py:350-378 | every removal row written is the row of one of the item's revocable permissions |
| Revoker.SweepOverStrippedIsIdle | nuke_drive.py:341-381 | idempotence: over permissions none of which is revocable, the loop sends nothing, logs nothing and counts nothing |
| Revoker.RevokeAccounting | nuke_drive.py:325-387 | the returned pair: (0, 1) with one "failed to list" row when listing fails; (0, 0) when the response has no permissions; otherwise removed + errors equals the number of revocable permissions, at most the number listed |
| Revoker.RevokeWaitEach | nuke_drive.py:325-387 | a whole item's revocation waits no more than 800 ms at a time: only in the wrapped listing and deletions |
| Revoker.Rows | nuke_drive.py:358-376 | the removal rows of a list of permissions, one per permission, in order |
| Revoker.SweepWithoutFaults | nuke_drive.py:341-381 | when no request fails, every revocable permission is removed and logged in order, and no error is recorded |
| Revoker.RevokeWithoutFaults | nuke_drive.py:325-381 | over a whole item, when no request fails: removed is the number of revocable permissions, errors is 0, and the removal rows are theirs in listing order |
| Revoker.RevokeSparesOwner | nuke_drive.py:325-381 | over a whole item: the first requests are the listing and its retries; every later request deletes a listed revocable permission; when the listing succeeds, every revocable permission is asked for |
| Revoker.LabelKinds | nuke_drive.py:350-377 | the permission-type column is ANYONE or DOMAIN exactly for the link grants of that type, EDITOR exactly for `writer` grantees, VIEWER exactly for other grantees |
| Revoker.RemovePermission | nuke_drive.py:341-381 | one turn of the loop does what `Step` specifies, to the counters, the two logs, the requests and the waits |
| Revoker.RemoveFilePermissions | nuke_drive.py:325-387 | the function returns `Revoke`'s pair and appends exactly `Revoke`'s rows and requests; the state file is untouched |
| RunState.Loaded | nuke_drive.py:249-261 | a state file that exists is taken as is; without one the run starts in phase files with no token, zero counters and `started_at` now |
| RunState.LoadState | nuke_drive.py:249-261 | the loaded state object holds `Loaded` |
| RunState.State.SetPageToken | nuke_drive.py:464 | stores the page token and changes nothing else in the state |
| WalkSpec.FollowSplit | nuke_drive.py:463-464 | following m + n pages from a token is following n pages from the token reached after m |
| WalkSpec.ChainSplit | nuke_drive.py:397-464 | resuming loses nothing: the items of m + n pages are those of the first m pages followed by those of n pages from the token saved after them |
| WalkSpec.FoldsAppend | nuke_drive.py:438-443 | the totals and rows of two stretches of revocations are the sums and concatenations of each |
| WalkSpec.RevocationsAppend | nuke_drive.py:430-443 | the revocations of two runs of items, one after the other, are the revocations of each, in order |
| WalkSpec.WalkAccounting | nuke_drive.py:438-443 | across any stretch of items, the removed and error totals equal the number of removal and error rows written |
| WalkSpec.AccountedChain | nuke_drive.py:430-464 | two stretches of a walk, one after the other, add up to one stretch |
| WalkSpec.AccountedGrow | nuke_drive.py:435-443 | one more item adds 1 to `files_processed`, its pair to the two counters and its rows to the two logs |
| WalkSpec.AbsorbPageSaves | nuke_drive.py:430-461 | every save made while a page was handled holds that page's token and a count within that page |
| WalkSpec.EndAtBoundary | nuke_drive.py:405-482 | a walk stopped between pages ended there, with nothing of the next page handled |
| WalkSpec.WalkedSaved | nuke_drive.py:471-473 | a save at a page boundary keeps the walk's description |
| WalkSpec.PagePaused | nuke_drive.py:430-433 | a page stopped by a shutdown request ends the walk inside that page, with the state still holding that page's token |
| WalkSpec.PageFinished | nuke_drive.py:430-466 | a page whose items were all handled moves the walk one page on once the state takes the page's `nextPageToken` |
| WalkSpec.WalkCounts | nuke_drive.py:438-443 | however a walk ends, it keeps the phase and start time, counts every item it handled, and raises `permissions_removed` and `errors` by exactly the rows it appended to the two logs |
| WalkSpec.RevokeOfRevokesAs | nuke_drive.py:441 | the per-item call `remove_file_permissions(service, file_id, file_name, owner_email)` is `Revoke` on the Drive's faults and that item's permission listing, at every request number |
| WalkSpec.BackToBackListsNoPage | nuke_drive.py:441 | stripping items sends no page listing |
| WalkSpec.BackToBackRequested | nuke_drive.py:430-443 | the items of a page, stripped one after another, each send their requests together from their first request on, and the requests sent are exactly theirs |
| WalkSpec.BackToBackWaitEach | nuke_drive.py:430-443 | items stripped one after another wait no more than 800 ms at a time |
| WalkSpec.WaitedStep | nuke_drive.py:435-443 | the next item of a page adds its revocation's waits, from the request after the earlier items' |
| WalkSpec.PageRequested | nuke_drive.py:430-443 | a page's items, stripped after the walk's earlier requests, keep every earlier item's requests in place and add the page's items' requests after them |
| WalkSpec.TurnRequested | nuke_drive.py:412-443 | one turn of the walk, the listing attempts of a page followed by the stripping of its items, extends the walk's requests and adds one listing per attempt |
| WalkSpec.PageFrom | nuke_drive.py:424-469 | a listed page: an empty first page with no token completes the walk; otherwise items are handled until the first poll that reads the flag raised, which pauses with the page's own token and one more poll; a page handled to its end takes one poll per item and moves to the next token, and goes on only when that token is truthy; its waits are the handled items' waits, back to back |
| WalkSpec.ListedFrom | nuke_drive.py:412-482 | a turn after the shutdown check: when it goes on, the token is the next page's or, after a 403/429 listing failure, still the same one, and no poll read the flag raised; its waits are the listing's retry waits, then 60 s after a 403/429 failure or the items' waits after a listed page |
| WalkSpec.TurnFrom | nuke_drive.py:405-482 | a turn that does not stop the walk made at least one poll, each reading the flag down, which bounds the walk |
| WalkSpec.TurnAborts | nuke_drive.py:475-482 | a turn aborts exactly when the shutdown check read false and the listing call raised a status other than 403 or 429 |
| WalkSpec.TurnWaitsAMinute | nuke_drive.py:405-482 | a turn waits 60 s exactly when its shutdown check read false and its listing raised 403 or 429; every wait of a turn is that minute or a backoff of at most 800 ms |
| WalkSpec.WalkWaits | nuke_drive.py:405-482 | every wait of a whole walk is a backoff of at most 800 ms or the 60 s after a throttled listing |
| WalkSpec.WalkAborts | nuke_drive.py:475-482 | a whole walk never aborts on 403 or 429 |
| WalkSpec.TurnCompletes | nuke_drive.py:426-469 | a turn completes only on a page whose listing succeeded, leaving no truthy token |
| WalkSpec.WalkCompletes | nuke_drive.py:426-469 | a whole walk completes only with no truthy page token left |
| WalkSpec.WalkGoesOn | nuke_drive.py:405 | after a turn that does not stop it, the walk goes on as the walk from the turn's token, requests and polls |
| WalkSpec.PageStep | nuke_drive.py:435-459 | one item of the page loop: `files_processed` up by 1, the counters up by the item's pair, its rows and requests appended, and a save exactly when `files_processed` reaches a multiple of 100 |
| Walker.ProcessItem | nuke_drive.py:435-459 | one item: `files_processed` goes up by 1, the counters, logs, requests and waits go up by exactly its revocation; the page token is untouched; the state is saved exactly when `files_processed` reaches a multiple of 100, holding the state after the item |
| Walker.HandleItem | nuke_drive.py:435-461 | the item loop's body once the flag read false: the page's first i + 1 items are handled, the new item's requests starting where the log ended, with its counters, rows and the save every 100 files; its waits follow those of the items before it |
| Walker.ProcessPage | nuke_drive.py:430-461 | the items of a page are handled in order, one poll of the shutdown flag before each; the loop pauses exactly at the first poll that reads the flag raised, with the state saved; otherwise every item is handled and the batch count goes up by the page's length; the waits made are the handled items' waits, back to back |
| Walker.WalkPage | nuke_drive.py:430-466 | a finished page moves the walk one page on, with the token advanced only after the whole page; a paused page ends the walk with the state saved; the requests sent are the handled items' revocations, back to back, and so are the waits made |
| Walker.SaveProgress | nuke_drive.py:471-473 | a save between pages writes the current state and keeps the walk's description |
| Walker.SaveAndPause | nuke_drive.py:406-410 | a shutdown request seen before a listing saves the state and ends the walk paused at the page boundary |
| Walker.FinishPage | nuke_drive.py:424-473 | after a page's listing: an empty first page with no token completes the walk; a pause ends it with the state saved; otherwise the walk goes exactly one page on from the page's next token, completing there when there is none; the requests sent and the waits made are those of the reference page `PageFrom` |
| Walker.EndPage | nuke_drive.py:463-473 | between pages: with no next token the walk completes; otherwise it goes on, and the state is saved and the batch count reset to 0 exactly when at least 500 items were handled since the last such save |
| Walker.ListPage | nuke_drive.py:412-422 | the page listing is sent once per attempt of `Retry`, waits `Retry`'s waits and raises `Retry`'s status |
| Walker.ListingFailed | nuke_drive.py:475-482 | a failed listing saves the state; on 403 or 429 it waits exactly 60 s and the walk goes on where it was; any other status ends the walk as aborted with that status, with no further wait |
| Walker.ListAndWalk | nuke_drive.py:412-482 | a turn after a shutdown check that read false is the reference turn `TurnFrom`: the listing is sent once per attempt of `Retry`; a listing that succeeds is followed by its page, whose items' revocations go out back to back after the listing attempts; one that fails handles nothing and saves the state, then waits 60 s after the retries' waits on 403/429 and aborts with the status otherwise; an abort happens only on such a listing status; the waits made are `TurnFrom`'s: the retries' waits, then 60 s on 403/429 or the page items' waits |
| Walker.WalkTurn | nuke_drive.py:405-482 | one turn of the loop is the reference turn `TurnFrom` in outcome, requests, waits, polls and token: a poll that reads the flag raised saves and pauses with nothing listed or waited; otherwise as `ListAndWalk`; an abort is the listing's raised status |
| Walker.Turn | nuke_drive.py:405-482 | one pass of the walk's loop keeps what the walk has done so far (the pages followed, the items handled with their requests placed in the log after the listings, the saves extended, at most one poll per item handled and per listing sent plus the poll that pauses), and either ends the reference walk `WalkFrom` or leaves the rest of it to go; the requests and the waits so far are the start of the reference walk's |
| Walker.ProcessItems | nuke_drive.py:390-482 | the whole walk is the reference walk `WalkFrom` in outcome, requests sent, waits made, polls and final token; it completes only at a page with no next token; it pauses exactly at the first poll that reads the flag raised; a pause or an abort leaves the state saved; the token and the items handled match the pages followed; the requests sent are page listings and each item's revocation from its first request on; the counters match the rows logged |
| Runner.WalkPhase | nuke_drive.py:512-529 | one phase's walk is a walk of the file or folder listing from the state it started in, ended as returned, sending exactly the reference walk's requests (listings and each processed item's revocation) and making exactly its waits; it keeps the phase, never lowers `files_processed`, raises the counters by exactly the rows logged, and leaves the state saved unless it completed |
| Runner.Run | nuke_drive.py:485-534 | the file walk runs only in phase files and is the reference walk of the file listing from the loaded state; the folder walk runs in phase folders or right after a completed file walk, and is then the reference walk of the folder listing from that walk's end state with phase folders, no token, and that state saved; the requests, waits, logs, polls and saves carry on from one walk to the next and nothing else is sent or waited; phases only move forward and reach complete only by a completed folder walk; the state file is deleted once complete and otherwise holds the final state; the counters equal the loaded ones plus the rows logged |
| Runner.MoveOn | nuke_drive.py:514-527 | moving to the next phase sets the phase and the page token and saves the state, leaving the logs alone |
| Scenarios.OwnGrantKept | nuke_drive.py:347-367 | the owner role and the signed-in user's grant in other letter case are kept |
| Scenarios.Grantee | nuke_drive.py:364-367 | a user or group grant to another address is revocable |
| Scenarios.KeptOfSix | nuke_drive.py:341-367 | of owner, link, writer, group writer, own grant and reader, the link and the three other grantees are revocable, in order |
| Scenarios.LinkLabel | nuke_drive.py:358 | an `anyone` link is logged as ANYONE with details "anyone link sharing removed" |
| Scenarios.RowsOfKept | nuke_drive.py:358-376 | their removal rows read ANYONE, EDITOR, EDITOR, VIEWER, with the grantees' addresses |
| Scenarios.FourRemovedWithoutFaults | nuke_drive.py:325-387 | with no failure that item returns (4, 0) and those four rows |
| Scenarios.FailedRemovalIsIsolated | nuke_drive.py:372-381 | a deletion failing with 404 is tried once and gives (0, 1), one error row naming the grantee, and no removal |
| Scenarios.FailedStep | nuke_drive.py:372-381 | the failing deletion adds one error row and one request, and no pause |
| Scenarios.ThrottledRemovalIsRetried | nuke_drive.py:307-313 | a deletion throttled once with 429 is sent twice, waits 100 ms before the retry, and is then removed |
| Scenarios.ThrottledStep | nuke_drive.py:370-376 | the throttled deletion adds one removal row labelled VIEWER, two requests and two 100 ms waits |
| Scenarios.ThrottledOnce | nuke_drive.py:302-313 | a call throttled once takes two attempts, waits 100 ms, then pauses 100 ms |

## Left out

- OAuth sign-in, `get_credentials`, `build` and `get_user_email`. The signed-in address is a parameter of `Run`.
- Printing, colours, progress lines, statistics, rates, `format_duration` and the summary.
- `init_log_files` and the CSV headers. The logs are modelled as sequences of rows.
- Timestamps. Rows carry no timestamp, and `last_saved` is not modelled. `started_at` is an input and is only carried along.
- The JSON form of the state file. The file is a snapshot, and the phase is one of three values, while the JSON could hold any string.
- Case mapping is ASCII only. Python's Unicode `lower()`/`upper()` is not modelled.
- Exceptions other than `HttpError` are not modelled. Neither is the unreachable `return None` after the retry loop.
- Listings are deterministic functions of the page token. Only request failures vary, through the fault oracle indexed by request number.
- The SIGINT handler is a latch that reads true from a chosen poll on. Runs are bounded through that latch. A run that is never interrupted and keeps getting 403/429 on a listing is not modelled as an endless loop.
- The local `page_token` of `process_items` is kept in the state's `pageToken`, which the code sets at the same moment.

## Behaviour of the code the model keeps

- A listing error other than 403/429 is re-raised out of `process_items` and `main`. The model records it as the outcome `Aborted(status)`, and `Run` stops there, as `main` does.
- There is no time budget: a run ends when both walks complete, and is interrupted only by Ctrl+C or by an error it re-raises.
- A failed page listing is not counted as an error: the state is saved, and on 403/429 the walk waits 60 s and lists the same page again; any other status is re-raised.
- A pause saves the token of the page it stopped in. The next run handles that page again from its first item, and those items are counted again. `WalkSpec.WalkEnded` states what the saved state holds in that case.
