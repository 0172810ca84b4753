/**
 * `src/server.rs`: the handlers that toggle and inspect the background job,
 * the three `/abetal/{uid}` handlers, and `/health`.
 */
module Server {
  import opened Prelude
  import Decimal
  import Models
  import Http
  import Job

  /** A request that writes the job settings: `/start`, `/stop` or `/sleep` with `{"ms": …}`. */
  datatype Command = Start | Stop | SetSleep(ms: U64)

  /** The settings after one command: `/start` and `/stop` set only the state, `/sleep` only the pause. */
  function Apply(s: Job.Settings, c: Command): (r: Job.Settings)
    ensures c.SetSleep? ==> r.state == s.state && r.sleepMs == c.ms
    ensures !c.SetSleep? ==> r.sleepMs == s.sleepMs
    ensures c == Start ==> r.state == Job.Started
    ensures c == Stop ==> r.state == Job.Stopped
  {
    match c
    case Start => s.(state := Job.Started)
    case Stop => s.(state := Job.Stopped)
    case SetSleep(ms) => s.(sleepMs := ms)
  }

  /** The settings after a run of commands, in order. */
  function Replay(s: Job.Settings, cs: seq<Command>): Job.Settings
    decreases |cs|
  {
    if |cs| == 0 then s else Apply(Replay(s, cs[..|cs| - 1]), cs[|cs| - 1])
  }

  /** The state the last `/start` or `/stop` of the run asked for, if any. */
  function LastToggle(cs: seq<Command>): Option<Job.State>
    decreases |cs|
  {
    if |cs| == 0 then None
    else match cs[|cs| - 1]
      case Start => Some(Job.Started)
      case Stop => Some(Job.Stopped)
      case SetSleep(_) => LastToggle(cs[..|cs| - 1])
  }

  /** The pause the last `/sleep` of the run asked for, if any. */
  function LastSleep(cs: seq<Command>): Option<U64>
    decreases |cs|
  {
    if |cs| == 0 then None
    else match cs[|cs| - 1]
      case SetSleep(ms) => Some(ms)
      case _ => LastSleep(cs[..|cs| - 1])
  }

  /** Repeating a command changes nothing more: `/start`, `/stop` and `/sleep` are idempotent. */
  lemma ApplyIdempotent(s: Job.Settings, c: Command)
    ensures Apply(Apply(s, c), c) == Apply(s, c)
  {
  }

  /**
   * After any run of commands the state is the one the last `/start` or
   * `/stop` asked for (the earlier state when there is none), and the pause
   * is the last one `/sleep` asked for.
   */
  lemma {:induction false} ReplayIsLastWrite(s: Job.Settings, cs: seq<Command>)
    ensures Replay(s, cs).state == (if LastToggle(cs).Some? then LastToggle(cs).value else s.state)
    ensures Replay(s, cs).sleepMs == (if LastSleep(cs).Some? then LastSleep(cs).value else s.sleepMs)
    decreases |cs|
  {
    if |cs| > 0 {
      ReplayIsLastWrite(s, cs[..|cs| - 1]);
    }
  }

  /**
   * From the default settings, a turn of the background job runs
   * `iverksett` exactly when the last `/start` or `/stop` so far was
   * `/start`, and pauses for the last `/sleep` value, one second if none.
   */
  lemma TurnAfterCommands(cs: seq<Command>)
    ensures var t := Job.NextTurn(Replay(Job.Settings(Job.Stopped, Job.DefaultSleepMs), cs));
      && (t.iverksett <==> LastToggle(cs) == Some(Job.Started))
      && t.sleepMs == (if LastSleep(cs).Some? then LastSleep(cs).value else 1000)
  {
    ReplayIsLastWrite(Job.Settings(Job.Stopped, Job.DefaultSleepMs), cs);
  }

  /** `/health`: always 200. */
  function Health(): (r: Http.Response)
    ensures r.code == Http.Ok200
  {
    Http.Response(Http.Ok200, Http.NoBody)
  }

  /** `/start`: 200 "started"; the state becomes `Started`, the pause stays. */
  method StartJob(job: Job.JobState) returns (r: Http.Response)
    modifies job`state
    ensures job.Current() == Apply(old(job.Current()), Start)
    ensures r == Http.Response(Http.Ok200, Http.Text("started"))
  {
    job.state := Job.Started;
    r := Http.Response(Http.Ok200, Http.Text("started"));
  }

  /** `/stop`: 200 "stopped"; the state becomes `Stopped`, the pause stays. */
  method StopJob(job: Job.JobState) returns (r: Http.Response)
    modifies job`state
    ensures job.Current() == Apply(old(job.Current()), Stop)
    ensures r == Http.Response(Http.Ok200, Http.Text("stopped"))
  {
    job.state := Job.Stopped;
    r := Http.Response(Http.Ok200, Http.Text("stopped"));
  }

  /** The body `/sleep` answers with, echoing the new pause. */
  function SleepText(ms: U64): string
  {
    "sleep between jobs: " + Decimal.Show(ms) + " ms"
  }

  /** The `/sleep` answer names the pause it set: different pauses give different bodies. */
  lemma SleepTextInjective(m: U64, n: U64)
    ensures SleepText(m) == SleepText(n) ==> m == n
  {
    if SleepText(m) == SleepText(n) {
      var t := SleepText(m);
      assert t[20..|t| - 3] == Decimal.Show(m);
      assert SleepText(n)[20..|t| - 3] == Decimal.Show(n);
      Decimal.ShowInjective(m, n);
    }
  }

  /** `/sleep`: sets the pause to `ms`, keeps the state, and echoes the value. */
  method SleepJob(job: Job.JobState, ms: U64) returns (r: Http.Response)
    modifies job`sleepMs
    ensures job.Current() == Apply(old(job.Current()), SetSleep(ms))
    ensures r == Http.Response(Http.Ok200, Http.Text(SleepText(ms)))
  {
    job.sleepMs := ms;
    r := Http.Response(Http.Ok200, Http.Text(SleepText(ms)));
  }

  /** `{:?}` of a `State`: the variant name. */
  function StateName(s: Job.State): (name: string)
    ensures |name| == 7
  {
    match s
    case Stopped => "Stopped"
    case Started => "Started"
  }

  /** The body `/debug` answers with. */
  function DebugText(s: Job.Settings): string
  {
    "state: " + StateName(s.state) + " sleep_ms: " + Decimal.Show(s.sleepMs)
  }

  /** The `/debug` answer shows both settings: different settings give different bodies. */
  lemma DebugTextInjective(a: Job.Settings, b: Job.Settings)
    ensures DebugText(a) == DebugText(b) ==> a == b
  {
    if DebugText(a) == DebugText(b) {
      var t := DebugText(a);
      assert t[7..14] == StateName(a.state);
      assert DebugText(b)[7..14] == StateName(b.state);
      assert t[25..] == Decimal.Show(a.sleepMs);
      assert DebugText(b)[25..] == Decimal.Show(b.sleepMs);
      Decimal.ShowInjective(a.sleepMs, b.sleepMs);
    }
  }

  /** `/debug`: 200 with both settings, changing neither. */
  method DebugJob(job: Job.JobState) returns (r: Http.Response)
    ensures r == Http.Response(Http.Ok200, Http.Text(DebugText(job.Current())))
  {
    var state := job.state;
    var sleepMs := job.sleepMs;
    r := Http.Response(Http.Ok200, Http.Text(DebugText(Job.Settings(state, sleepMs))));
  }

  /**
   * `abetal::new`, `abetal::update` and `abetal::delete` answer the same
   * way: 200 with the status when one comes back, 202 with no body
   * otherwise.
   */
  function AbetalResponse(outcome: Option<Models.Status>): (r: Http.Response)
    ensures r.code == Http.Ok200 <==> outcome.Some?
    ensures outcome.Some? ==> r.body == Http.StatusJson(outcome.value)
    ensures outcome.None? ==> r == Http.Response(Http.Accepted202, Http.NoBody)
  {
    match outcome
    case Some(status) => Http.Response(Http.Ok200, Http.StatusJson(status))
    case None => Http.Response(Http.Accepted202, Http.NoBody)
  }
}
