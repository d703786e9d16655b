/** The engine's collaborators, as state it changes: the Drive API client
    (modelled as fixed data plus a fault oracle), the two CSV logs together with
    the state file, and the SIGINT flag. */
module Environment {
  import opened Types

  /** The Drive API client. What each listing returns is fixed data; whether a
      request raises an `HttpError` is decided by `fault`, indexed by the number
      of requests sent so far in the run. Every attempt is recorded in `log`,
      every `time.sleep` in `sleeps` (milliseconds). */
  class Service {
    const filesPage: Option<string> -> Page
    const foldersPage: Option<string> -> Page
    const permissionsOf: string -> Option<seq<Permission>>
    const fault: nat -> Option<int>
    var log: seq<Request>
    var sleeps: seq<nat>

    constructor (filesPage: Option<string> -> Page, foldersPage: Option<string> -> Page,
                 permissionsOf: string -> Option<seq<Permission>>, fault: nat -> Option<int>)
      ensures this.filesPage == filesPage && this.foldersPage == foldersPage
      ensures this.permissionsOf == permissionsOf && this.fault == fault
      ensures log == [] && sleeps == []
    {
      this.filesPage := filesPage;
      this.foldersPage := foldersPage;
      this.permissionsOf := permissionsOf;
      this.fault := fault;
      log := [];
      sleeps := [];
    }

    /** The pages of the folder query (`folders`) or of the file query, by
        page token. */
    function Listing(folders: bool): Option<string> -> Page
    {
      if folders then foldersPage else filesPage
    }

    /** Sends one request; answers the status of the `HttpError` it raises. */
    method Send(req: Request) returns (raised: Option<int>)
      modifies this
      ensures log == old(log) + [req] && sleeps == old(sleeps)
      ensures raised == fault(|old(log)|)
    {
      raised := fault(|log|);
      log := log + [req];
    }

    method Sleep(ms: nat)
      modifies this
      ensures sleeps == old(sleeps) + [ms] && log == old(log)
    {
      sleeps := sleeps + [ms];
    }
  }

  /** The removal log, the error log and the state file. `saves` is the
      history of what was written to the state file. */
  class Journal {
    var removals: seq<RemovalRecord>
    var errors: seq<ErrorRecord>
    var stateFile: Option<Snapshot>
    ghost var saves: seq<Snapshot>

    constructor (stateFile: Option<Snapshot>)
      ensures removals == [] && errors == [] && this.stateFile == stateFile && saves == []
    {
      removals := [];
      errors := [];
      this.stateFile := stateFile;
      saves := [];
    }

    method LogRemoval(r: RemovalRecord)
      modifies this
      ensures removals == old(removals) + [r]
      ensures errors == old(errors) && stateFile == old(stateFile) && saves == old(saves)
    {
      removals := removals + [r];
    }

    method LogError(e: ErrorRecord)
      modifies this
      ensures errors == old(errors) + [e]
      ensures removals == old(removals) && stateFile == old(stateFile) && saves == old(saves)
    {
      errors := errors + [e];
    }

    method Save(s: Snapshot)
      modifies this
      ensures stateFile == Some(s) && saves == old(saves) + [s]
      ensures removals == old(removals) && errors == old(errors)
    {
      stateFile := Some(s);
      saves := saves + [s];
    }

    /** Deletes the state file. */
    method Discard()
      modifies this
      ensures stateFile == None
      ensures removals == old(removals) && errors == old(errors) && saves == old(saves)
    {
      stateFile := None;
    }
  }

  /** The global `shutdown_requested` flag. The SIGINT handler runs at some
      point of the run: every poll from number `raisedAt` on reads true. */
  class Shutdown {
    const raisedAt: nat
    var polls: nat

    constructor (raisedAt: nat)
      ensures this.raisedAt == raisedAt && polls == 0
    {
      this.raisedAt := raisedAt;
      polls := 0;
    }

    method Poll() returns (requested: bool)
      modifies this
      ensures polls == old(polls) + 1
      ensures requested <==> old(polls) >= raisedAt
    {
      requested := polls >= raisedAt;
      polls := polls + 1;
    }
  }
}
