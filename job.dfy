/**
 * `src/job.rs`: the shared job settings (started or stopped, and the pause
 * between runs) and the background loop that reads them.
 */
module Job {
  import opened Prelude

  /** Whether the background job runs `iverksett` on its next turn; `Stopped` by default. */
  datatype State = Stopped | Started

  const DefaultSleepMs: U64 := 1000

  /** The two settings the mutexes guard, read together. */
  datatype Settings = Settings(state: State, sleepMs: U64)

  /** What one turn of the background loop does: maybe `iverksett`, then sleep. */
  datatype Turn = Turn(iverksett: bool, sleepMs: U64)

  /** One turn of `background_job` under the given settings. */
  function NextTurn(s: Settings): (t: Turn)
    ensures t.iverksett <==> s.state == Started
    ensures t.sleepMs == s.sleepMs
  {
    Turn(s.state.Started?, s.sleepMs)
  }

  /** `JobState`: the two fields the HTTP handlers write and the background job reads. */
  class JobState {
    var state: State
    var sleepMs: U64

    /** `JobState::default()`. */
    constructor ()
      ensures state == Stopped && sleepMs == DefaultSleepMs
    {
      state, sleepMs := Stopped, DefaultSleepMs;
    }

    function Current(): Settings
      reads this
    {
      Settings(state, sleepMs)
    }
  }

  /** The spawned `background_job` task, holding a clone of the shared `Arc<JobState>`. */
  class BackgroundJob {
    const jobState: JobState

    constructor (shared: JobState)
      ensures jobState == shared
    {
      jobState := shared;
    }

    /**
     * One turn of the loop: it calls `iverksett` exactly when the shared
     * state is `Started` and sleeps for the shared `sleep_ms`; it writes
     * nothing.
     */
    method RunTurn() returns (t: Turn)
      ensures t == NextTurn(jobState.Current())
    {
      var state := jobState.state;
      var iverksett := false;
      if state == Started {
        iverksett := true;
      }
      var sleepMs := jobState.sleepMs;
      t := Turn(iverksett, sleepMs);
    }
  }

  /** `init_job`: default settings, shared between the caller and the spawned job. */
  method InitJob() returns (shared: JobState, handle: BackgroundJob)
    ensures fresh(shared) && fresh(handle)
    ensures handle.jobState == shared
    ensures shared.Current() == Settings(Stopped, DefaultSleepMs)
  {
    shared := new JobState();
    handle := new BackgroundJob(shared);
  }
}
