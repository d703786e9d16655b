/** The run state: the dictionary that `load_state` returns and that the
    walker and `main` update in place and write to the state file. */
module RunState {
  import opened Types

  class State {
    var phase: Phase
    var pageToken: Option<string>
    var filesProcessed: nat
    var permissionsRemoved: nat
    var errors: nat
    var startedAt: string

    /** What `save_state` writes. */
    function Snapshot(): Snapshot
      reads this
    {
      Types.Snapshot(phase, pageToken, filesProcessed, permissionsRemoved, errors, startedAt)
    }

    constructor (s: Snapshot)
      ensures Snapshot() == s
    {
      phase := s.phase;
      pageToken := s.pageToken;
      filesProcessed := s.filesProcessed;
      permissionsRemoved := s.permissionsRemoved;
      errors := s.errors;
      startedAt := s.startedAt;
    }

    /** `state['page_token'] = token`. */
    method SetPageToken(token: Option<string>)
      modifies this
      ensures Snapshot() == old(Snapshot()).(pageToken := token)
    {
      pageToken := token;
    }
  }

  /** The state a run starts from: the saved state when the state file
      exists, otherwise a fresh one started at `now`. */
  function Loaded(stateFile: Option<Snapshot>, now: string): (s: Snapshot)
    ensures stateFile.Some? ==> s == stateFile.value
    ensures stateFile.None? ==>
      && s.phase == Files && s.pageToken == None
      && s.filesProcessed == 0 && s.permissionsRemoved == 0 && s.errors == 0
      && s.startedAt == now
  {
    match stateFile
    case Some(saved) => saved
    case None => Snapshot(Files, None, 0, 0, 0, now)
  }

  /** `load_state`: reads the state file if there is one. */
  method LoadState(stateFile: Option<Snapshot>, now: string) returns (state: State)
    ensures fresh(state) && state.Snapshot() == Loaded(stateFile, now)
  {
    match stateFile
    case Some(saved) =>
      state := new State(saved);
    case None =>
      state := new State(Snapshot(Files, None, 0, 0, 0, now));
  }
}
