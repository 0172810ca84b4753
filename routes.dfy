/**
 * `src/routes.rs`: the `abetal_*` request handlers that register a waiter,
 * publish the command and race the waiters, and the two waiter tasks that
 * turn what their receiver gets into an HTTP response.
 */
module Routes {
  import opened Prelude
  import Uuids
  import Models
  import Http
  import Kafka

  /** What `recv_timeout(30 s)` returns: a value, a timeout, or a dropped sender. */
  datatype RecvOutcome<T> = Got(value: T) | Timeout | Disconnected

  /** How a spawned waiter task ends: with a response, or by panicking. */
  datatype TaskResult = Finished(response: Http.Response) | Panicked

  /**
   * `simulering_handler`: 200 carrying the simulation when one arrives,
   * 408 on timeout, 500 when the sender is gone.
   */
  function SimuleringHandler(outcome: RecvOutcome<Models.Simulering>): (r: Http.Response)
    ensures r.code == Http.Ok200 <==> outcome.Got?
    ensures outcome.Got? ==> r.body == Http.SimuleringJson(outcome.value)
    ensures outcome.Timeout? <==> r.code == Http.RequestTimeout408
    ensures outcome.Disconnected? <==> r.code == Http.InternalServerError500
  {
    match outcome
    case Got(sim) => Http.Response(Http.Ok200, Http.SimuleringJson(sim))
    case Timeout => Http.Response(Http.RequestTimeout408, Http.NoBody)
    case Disconnected => Http.Response(Http.InternalServerError500, Http.NoBody)
  }

  /** The response `status_handler` builds from a received reply, None where `expect` panics. */
  function ReplyResponse(reply: Models.Reply): (r: Option<Http.Response>)
    ensures r.None? <==>
      reply.status == Models.Feilet && reply.error.Some? && !Http.IsValidStatusCode(reply.error.value.statusCode)
    ensures r.Some? && reply.status != Models.Feilet ==> r.value.body == Http.StatusJson(reply.status)
  {
    match reply.status
    case Ok => Some(Http.Response(Http.Ok200, Http.StatusJson(reply.status)))
    case Mottatt => Some(Http.Response(Http.Accepted202, Http.StatusJson(reply.status)))
    case HosOppdrag => Some(Http.Response(Http.Accepted202, Http.StatusJson(reply.status)))
    case Feilet =>
      match reply.error
      case None => Some(Http.Response(Http.InternalServerError500, Http.NoBody))
      case Some(error) =>
        if Http.IsValidStatusCode(error.statusCode) then Some(Http.Response(error.statusCode, Http.StringJson(error.msg)))
        else None
  }

  /**
   * `status_handler`: the first reply received decides the response, be
   * it final or not; a FEILET reply whose code `StatusCode::from_u16`
   * rejects makes the waiter panic.
   */
  function StatusHandler(outcome: RecvOutcome<Models.Reply>): (r: TaskResult)
    ensures r.Panicked? <==>
      outcome.Got? && outcome.value.status == Models.Feilet && outcome.value.error.Some? &&
      !Http.IsValidStatusCode(outcome.value.error.value.statusCode)
    ensures outcome.Timeout? ==> r == Finished(Http.Response(Http.RequestTimeout408, Http.NoBody))
    ensures outcome.Disconnected? ==> r == Finished(Http.Response(Http.InternalServerError500, Http.NoBody))
  {
    match outcome
    case Got(reply) =>
      (match ReplyResponse(reply)
       case Some(response) => Finished(response)
       case None => Panicked)
    case Timeout => Finished(Http.Response(Http.RequestTimeout408, Http.NoBody))
    case Disconnected => Finished(Http.Response(Http.InternalServerError500, Http.NoBody))
  }

  /**
   * The code for a received reply: 200 for OK, 202 for MOTTATT and
   * HOS_OPPDRAG, and for FEILET the reply's own code with its message,
   * or 500 when it carries no error.
   */
  lemma StatusHandlerCodes(reply: Models.Reply)
    requires reply.status == Models.Feilet && reply.error.Some? ==> Http.IsValidStatusCode(reply.error.value.statusCode)
    ensures StatusHandler(Got(reply)).Finished?
    ensures var code := StatusHandler(Got(reply)).response.code;
      && (code == Http.Ok200 <==> reply.status == Models.Ok || (reply.status == Models.Feilet && reply.error.Some? && reply.error.value.statusCode == 200))
      && (reply.status in {Models.Mottatt, Models.HosOppdrag} ==> code == Http.Accepted202)
      && (reply.status == Models.Feilet && reply.error.None? ==> code == Http.InternalServerError500)
      && (reply.status == Models.Feilet && reply.error.Some? ==>
            StatusHandler(Got(reply)).response == Http.Response(reply.error.value.statusCode, Http.StringJson(reply.error.value.msg)))
  {
  }

  /** A status code of the reply outside 100..=999 (0 or 1000, say) makes the waiter panic. */
  lemma WideStatusCodePanics(msg: string, doc: string)
    ensures StatusHandler(Got(Models.Reply(Models.Feilet, Some(Models.Error(0, msg, doc))))) == Panicked
    ensures StatusHandler(Got(Models.Reply(Models.Feilet, Some(Models.Error(1000, msg, doc))))) == Panicked
  {
  }

  /** A spawned waiter: `simulering_handler` or `status_handler` with what its receiver will get. */
  datatype Waiter = SimulationWaiter(sim: RecvOutcome<Models.Simulering>) | StatusWaiter(status: RecvOutcome<Models.Reply>)

  /** What a spawned waiter runs. */
  function RunWaiter(w: Waiter): TaskResult
  {
    match w
    case SimulationWaiter(o) => Finished(SimuleringHandler(o))
    case StatusWaiter(o) => StatusHandler(o)
  }

  /** `first_done.unwrap_or_else(|_| 500)`: a panicked task gives 500. */
  function Joined(t: TaskResult): (r: Http.Response)
    ensures t.Finished? ==> r == t.response
    ensures t.Panicked? ==> r.code == Http.InternalServerError500
  {
    match t
    case Finished(response) => response
    case Panicked => Http.Response(Http.InternalServerError500, Http.NoBody)
  }

  /**
   * `select_all(handlers)`: whichever waiter finishes first wins; the
   * others are returned to be aborted. Which one finishes first depends on
   * timing, so the choice is free. `select_all` panics on an empty list,
   * which the handlers never pass.
   */
  method SelectAll(handlers: seq<Waiter>) returns (first: TaskResult, index: nat, rest: seq<Waiter>)
    requires |handlers| > 0
    ensures index < |handlers| && first == RunWaiter(handlers[index])
    ensures rest == handlers[..index] + handlers[index + 1..]
  {
    index :| 0 <= index < |handlers|;
    first := RunWaiter(handlers[index]);
    rest := handlers[..index] + handlers[index + 1..];
  }

  /** `/fail`: logs an error line and answers 200. */
  function Fail(): (r: Http.Response)
    ensures r.code == Http.Ok200
  {
    Http.Response(Http.Ok200, Http.NoBody)
  }

  type ChannelId = nat

  /**
   * The two shared waiter maps, the records produced so far, and the
   * number of channels made. `hash` (xxHash32) and `serialize`
   * (serde_json) are what `produce_utbetaling` uses.
   */
  class Router {
    var statusPending: map<Uuids.Uuid, ChannelId>
    var simPending: map<Uuids.Uuid, ChannelId>
    var produced: seq<Kafka.ProducerRecord>
    var channels: nat
    const hash: seq<Prelude.Byte> -> Prelude.U64
    const serialize: Kafka.Utbetaling -> string

    /** Every sender in the maps belongs to a channel made earlier. */
    ghost predicate Valid()
      reads this
    {
      && (forall u :: u in statusPending ==> statusPending[u] < channels)
      && (forall u :: u in simPending ==> simPending[u] < channels)
    }

    constructor (hash: seq<Prelude.Byte> -> Prelude.U64, serialize: Kafka.Utbetaling -> string)
      ensures Valid()
      ensures statusPending == map[] && simPending == map[] && produced == [] && channels == 0
      ensures this.hash == hash && this.serialize == serialize
    {
      statusPending, simPending, produced, channels := map[], map[], [], 0;
      this.hash, this.serialize := hash, serialize;
    }

    /** `mpsc::channel()`: a channel no sender in either map belongs to. */
    method NewChannel() returns (ch: ChannelId)
      requires Valid()
      modifies this`channels
      ensures Valid()
      ensures ch == old(channels) && channels == old(channels) + 1
      ensures ch !in statusPending.Values && ch !in simPending.Values
    {
      ch := channels;
      channels := channels + 1;
    }

    /**
     * The registration half of the `abetal_*` handlers: a fresh status
     * channel whose sender goes under `key` (overwriting any earlier one),
     * and, when `dryrun` is set, a fresh simulation channel likewise.
     */
    method Register(key: Uuids.Uuid, dryrun: bool)
      requires Valid()
      modifies this`statusPending, this`simPending, this`channels
      ensures Valid()
      ensures statusPending == old(statusPending)[key := old(channels)]
      ensures dryrun ==> simPending == old(simPending)[key := old(channels) + 1]
      ensures !dryrun ==> simPending == old(simPending)
      ensures channels == old(channels) + (if dryrun then 2 else 1)
    {
      var statusTx := NewChannel();
      statusPending := statusPending[key := statusTx];
      if dryrun {
        var simTx := NewChannel();
        simPending := simPending[key := simTx];
      }
    }

    /**
     * `abetal_aap`, `abetal_dp`, `abetal_ts` and `abetal_tp`, which differ
     * only in the `Utbetaling` variant they produce. `key` is the
     * `Uuid::new_v4()` of the request; `statusOutcome` and `simOutcome`
     * are what the two receivers will get.
     *
     * The status sender is inserted under `key` (overwriting any earlier
     * one), the simulation sender too when `dryrun` is set, the command is
     * produced under `key`, and the waiters race: without dryrun the
     * status waiter is the only one; with dryrun either may win and the
     * other is aborted.
     */
    method Abetal(command: Models.Utbetaling, key: Uuids.Uuid,
                  statusOutcome: RecvOutcome<Models.Reply>, simOutcome: RecvOutcome<Models.Simulering>)
      returns (response: Http.Response, aborted: seq<Waiter>)
      requires Valid()
      modifies this
      ensures Valid()
      ensures statusPending == old(statusPending)[key := old(channels)]
      ensures Models.Dryrun(command) ==> simPending == old(simPending)[key := old(channels) + 1]
      ensures !Models.Dryrun(command) ==> simPending == old(simPending)
      ensures channels == old(channels) + (if Models.Dryrun(command) then 2 else 1)
      ensures produced == old(produced) + [Kafka.ProduceRecord(hash, serialize, key, Kafka.ToKafka(command))]
      ensures RaceOutcome(Models.Dryrun(command), statusOutcome, simOutcome, response, aborted)
    {
      var dryrun := Models.Dryrun(command);
      Register(key, dryrun);
      produced := produced + [Kafka.ProduceRecord(hash, serialize, key, Kafka.ToKafka(command))];
      response, aborted := Race(dryrun, statusOutcome, simOutcome);
    }
  }

  /**
   * What the race may end in: without dryrun the status waiter is the only
   * one and nothing is aborted; with dryrun either waiter may win, and the
   * other is aborted.
   */
  predicate RaceOutcome(dryrun: bool, statusOutcome: RecvOutcome<Models.Reply>, simOutcome: RecvOutcome<Models.Simulering>,
                        response: Http.Response, aborted: seq<Waiter>)
  {
    if !dryrun then response == Joined(StatusHandler(statusOutcome)) && aborted == []
    else
      || (response == SimuleringHandler(simOutcome) && aborted == [StatusWaiter(statusOutcome)])
      || (response == Joined(StatusHandler(statusOutcome)) && aborted == [SimulationWaiter(simOutcome)])
  }

  /**
   * The race half of the `abetal_*` handlers: spawn the simulation waiter
   * (dryrun only) and then the status waiter, take whichever finishes
   * first, abort the rest, and turn a panicked winner into 500.
   */
  method Race(dryrun: bool, statusOutcome: RecvOutcome<Models.Reply>, simOutcome: RecvOutcome<Models.Simulering>)
    returns (response: Http.Response, aborted: seq<Waiter>)
    ensures RaceOutcome(dryrun, statusOutcome, simOutcome, response, aborted)
  {
    var handlers: seq<Waiter> := [];
    if dryrun {
      handlers := handlers + [SimulationWaiter(simOutcome)];
    }
    handlers := handlers + [StatusWaiter(statusOutcome)];

    var first, _, rest := SelectAll(handlers);

    aborted := [];
    for i := 0 to |rest|
      invariant aborted == rest[..i]
    {
      aborted := aborted + [rest[i]];
    }

    response := Joined(first);
  }
}
