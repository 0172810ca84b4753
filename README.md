# helved-performance broker, modelled in Dafny

helved-performance is a small Rust service for load-testing the helved
disbursement pipeline. It takes a disbursement command (`Utbetaling`) for one
of four benefit types (aap, dp, ts, tp) over HTTP. It publishes the command
to that type's Kafka topic, keyed by a fresh correlation UUID and partitioned
by an xxHash32 of the key. The HTTP request then waits until a status reply,
or for dry runs a simulation, arrives on a reply topic under the same key.
Besides this request/reply broker, a background job can be started and
stopped over HTTP.

This project models that core:

- `prelude.dfy`: `Option` and `Result`, plus the integer widths the source uses (`u8`, `u16`, `u32`, `u64`, `i32`).
- `utf8.dfy`: `str::as_bytes` and `std::str::from_utf8`, as RFC 3629 UTF-8 encoding and well-formed decoding.
- `uuid.dfy`: `Uuid::to_string` (lower-case hyphenated), and `Uuid::parse_str` in all four textual forms it accepts.
- `models.dfy`: the wire types of `src/models.rs`, with the SCREAMING_SNAKE_CASE wire names of `Status` and `Periodetype`.
- `kafka.dfy`: several parts of `src/kafka.rs`.
  - The partitioner.
  - The topic and key dispatch of `produce_utbetaling`.
  - One turn of `status_consumer`: decode, deliver to the waiting sender, then sweep out entries whose cleanup receiver fired or disconnected. It is a class over the shared map.
  - One turn of `dryrun_consumer`: decode, then remove the entry and send.
- `http.dfy`, `routes.dfy`: the `abetal_*` handlers of `src/routes.rs`, as one method parameterised by the command.
  - It registers the waiters in the shared maps, produces the command and races the waiters.
  - It includes the two waiters `status_handler` and `simulering_handler`.
- `job.dfy`, `server.dfy`, `decimal.dfy`: the shared `JobState` and one turn of `background_job`.
  - The `/start`, `/stop`, `/sleep` and `/debug` handlers, as methods on the shared state.
  - The settings a run of such requests leaves behind.
  - The `/abetal/{uid}` answers and `/health`.

Foreign functions the model cannot see are parameters:
- xxHash32 is `hash: seq<Byte> -> U64`.
- serde_json's `to_string` is `serialize`, and its `from_str` is `parse`.
- What a `recv_timeout` or `try_recv` will return is a value passed in.

The timing of the race between the waiters is a nondeterministic choice.

The files of this revision do not all agree with one another:
- `src/kafka.rs` matches a `Historisk` variant that `models::Utbetaling` lacks.
- `src/kafka.rs` imports `StatusPubSub` and `SimPubSub`, which `src/routes.rs` does not declare. Its status map holds a sender with a cleanup receiver; the `PendingMap` of `src/routes.rs` holds a bare sender.
- `src/server.rs` calls `kafka::abetal`, which `src/kafka.rs` does not define.

Each file is modelled as written: `Kafka.Utbetaling` has five variants, the status listener's map holds a sender and a cleanup signal, and the outcome of `kafka::abetal` is the parameter of `Server.AbetalResponse`.

Behaviour of this revision worth knowing:
- The waiter answers on the FIRST reply it receives. MOTTATT and HOS_OPPDRAG give 202 at once; the waiter does not hold out for a final status.
- Registering a waiter under a key already present silently replaces the old sender.
- The HTTP side never removes its entries. Only the status listener's sweep removes entries, and the dry-run listener removes an entry when it delivers.
- A `continue` on a poll error or an undecodable record also skips that turn's cleanup sweep.
- The dry-run listener subscribes only to the aap and dp dry-run topics.

## Model

| member | source | states |
|---|---|---|
| Utf8.DecodeFirst | src/kafka.rs:84-87 | a decoded scalar takes 1 to 4 bytes, never more than are left, and takes exactly one byte iff the lead byte is ASCII |
| Utf8.Decode | src/kafka.rs:92-95 | whatever `from_utf8` accepts is the encoding of the text it returns, so that text is never longer than the bytes |
| Utf8.EncodeChar | src/kafka.rs:55 | a scalar encodes to 1 to 4 bytes, and to one byte exactly when it is ASCII |
| Utf8.EncodeAscii | src/kafka.rs:55 | `as_bytes` of ASCII text is one byte per character, holding that character's code |
| Utf8.DecodeFirstEncodeChar | src/kafka.rs:84-87 | the first sequence of any encoded scalar decodes to that scalar and its length, whatever follows |
| Utf8.DecodeFirstIsEncoding | src/kafka.rs:84-87 | the bytes a decoded scalar took are exactly that scalar's encoding, so overlong and surrogate forms are refused |
| Utf8.DecodeEncode | src/kafka.rs:92-95 | `from_utf8` accepts the encoding of every string and returns that string |
| Utf8.DecodeIsEncodeInverse | src/kafka.rs:84-95 | `from_utf8` returns a text exactly when the bytes are that text's encoding |
| Uuids.HexValueOfDigit | src/kafka.rs:55 | every lower-case hex digit the printer emits reads back as its value |
| Uuids.ParseByteOfHex | src/kafka.rs:84-88 | the two printed hex digits of a byte parse back to that byte |
| Uuids.ParseHex | src/kafka.rs:84-88 | a hex string that parses gives half as many bytes as it has characters |
| Uuids.ParseHexOfHex | src/kafka.rs:84-88 | parsing the hex text of any byte string gives the bytes back |
| Uuids.HexIsLowerHex | src/kafka.rs:55 | `to_string` emits only lower-case hex digits |
| Uuids.UnhyphenateHyphenate | src/kafka.rs:55 | grouping 32 hex digits 8-4-4-4-12 puts the hyphens at positions 8, 13, 18, 23, and dropping them gives the digits back |
| Uuids.ToString | src/kafka.rs:55 | `Uuid::to_string` is 36 characters long |
| Uuids.ParseStr | src/kafka.rs:84-88 | `Uuid::parse_str` accepts only texts of 32, 36, 38 or 45 characters (simple, hyphenated, braced, URN) |
| Uuids.ParseToString | src/kafka.rs:84-88 | parsing the printed form of any UUID gives that UUID |
| Uuids.ToStringInjective | src/kafka.rs:227-232 | distinct UUIDs print, and so hash, from distinct keys |
| Uuids.ToStringIsAscii | src/kafka.rs:55-57 | the record key is ASCII text |
| Uuids.KeyBytes | src/kafka.rs:55-57 | the record key is 36 bytes |
| Uuids.DecodeKey | src/kafka.rs:84-91 | a key yields a uid exactly when it is present, UTF-8, and its text parses as a UUID, and the uid is what `parse_str` gives |
| Uuids.DecodeKeyBytes | src/kafka.rs:84-91 | the listener's key decoding recovers every uid the producer wrote as a key |
| Models.StatusWireIsScreamingSnake | src/models.rs:240-247 | the wire name of every `Status` is serde's SCREAMING_SNAKE_CASE renaming of its identifier (OK, FEILET, MOTTATT, HOS_OPPDRAG) |
| Models.HosOppdragIsScreamingSnake | src/models.rs:246 | `HosOppdrag` is renamed HOS_OPPDRAG |
| Models.StatusFromWire | src/models.rs:240-247 | a text decodes to a status only if it is that status's wire name, and fails when it is no status's wire name |
| Models.StatusWireRoundTrip | src/models.rs:240-247 | a status decodes from its wire name and from no other text |
| Models.PeriodetypeWireIsScreamingSnake | src/models.rs:113-120 | the wire name of every `Periodetype` is the SCREAMING_SNAKE_CASE renaming (DAG, UKEDAG, MND, EN_GANG) |
| Models.EnGangIsScreamingSnake | src/models.rs:119 | `EnGang` is renamed EN_GANG |
| Models.PeriodetypeFromWire | src/models.rs:113-120 | a text decodes to a period type only if it is that type's wire name, and fails when it is no type's wire name |
| Models.PeriodetypeWireRoundTrip | src/models.rs:113-120 | a period type decodes from its wire name and from no other text |
| Kafka.PartitionOfHash | src/kafka.rs:227-232 | the partition is always in 0..3, whatever the digest |
| Kafka.Partition | src/kafka.rs:227-232 | `partition(key)` is always a valid partition of the three |
| Kafka.PartitionOfHashIsLow31BitsMod3 | src/kafka.rs:227-232 | truncating to `i32`, masking with 0x7fffffff and taking `% 3` is the digest's low 31 bits modulo 3 |
| Kafka.Topic | src/kafka.rs:22-53 | each variant's topic is `helved.utbetalinger-<benefit>.v1` |
| Kafka.ClientId | src/kafka.rs:22-53 | each variant's producer client id is `produce-<benefit>-utbetaling` |
| Kafka.TopicsDistinct | src/kafka.rs:22-53 | two commands share a topic, and a client id, exactly when they are of the same benefit type |
| Kafka.ToKafka | src/routes.rs:52 | the handlers only ever produce the four benefit types, never `Historisk`, each under its own benefit |
| Kafka.ReplyTopicsAreNotCommandTopics | src/kafka.rs:71 | no command topic is the status topic or a dry-run topic, so neither listener reads back a command |
| Kafka.ProduceRecord | src/kafka.rs:55-59 | the produced record's key decodes back to its uid, its partition is `partition(uid)` and lies in range, and its topic is the variant's |
| Kafka.DecodePayload | src/kafka.rs:93-104 | a payload is accepted iff present, UTF-8 and deserialisable, and the value is what deserialisation gives |
| Kafka.DecodeRecord | src/kafka.rs:84-104 | a record is accepted iff its key decodes to a uid and its payload decodes, and the pair is exactly those two results |
| Kafka.DeliveryFor | src/kafka.rs:106-108 | a decoded reply causes exactly one send when its uid has a waiter, through that waiter's sender and carrying the reply, and none otherwise |
| Kafka.Swept | src/kafka.rs:111-135 | the sweep removes exactly the entries whose receiver yields a message or is disconnected, and keeps the rest unchanged |
| Kafka.SweptIdempotent | src/kafka.rs:111-135 | a second sweep with no new signals removes nothing |
| Kafka.StatusListener.constructor | src/kafka.rs:68 | the listener starts on the given shared map and has sent nothing |
| Kafka.StatusListener.Deliver | src/kafka.rs:106-108 | a reply goes to the sender registered under its uid, or nowhere, and the map is not changed |
| Kafka.StatusListener.Sweep | src/kafka.rs:111-135 | after visiting every entry and removing the collected uids, the map is the swept map |
| Kafka.StatusListener.Iterate | src/kafka.rs:74-136 | a decoded reply is delivered and then the sweep runs; an empty poll only sweeps; an error or undecodable record changes nothing |
| Kafka.RemoveThenSend | src/kafka.rs:182-184 | the uid's entry is gone afterwards, every other entry is kept, and the uid receives one more simulation exactly when it had an entry |
| Kafka.CountForAppend | src/kafka.rs:182-184 | counting one uid's deliveries distributes over concatenation |
| Kafka.AtMostOneSimulation | src/kafka.rs:182-184 | whatever results arrive, a uid receives at most one simulation, and none once its entry is gone |
| Kafka.DryrunListener.constructor | src/kafka.rs:141 | the listener starts on the given shared map and has sent nothing |
| Kafka.DryrunListener.Deliver | src/kafka.rs:182-184 | the entry is removed before the send, and the send goes to the removed sender if there was one |
| Kafka.DryrunListener.Iterate | src/kafka.rs:148-187 | a decoded simulation is removed-then-sent; anything else leaves the map and the sends unchanged |
| Routes.SimuleringHandler | src/routes.rs:188-194 | 200 carrying the simulation exactly when one arrives, 408 exactly on timeout, 500 exactly on disconnect |
| Routes.ReplyResponse | src/routes.rs:198-208 | no response (a panic) exactly for a FEILET reply whose code `from_u16` rejects; for the other statuses the body is the status |
| Routes.StatusHandler | src/routes.rs:196-213 | the waiter panics exactly on a FEILET reply whose error code is outside 100..=999; timeout gives 408, disconnect 500 |
| Routes.StatusHandlerCodes | src/routes.rs:198-208 | a reply is answered at once: 200 for OK, 202 for MOTTATT and HOS_OPPDRAG, the error's own code and message for FEILET, 500 for FEILET without an error |
| Routes.WideStatusCodePanics | src/routes.rs:204-206 | a FEILET reply with code 0 or 1000 makes the waiter panic |
| Routes.Joined | src/routes.rs:68 | a finished waiter's response is passed on, and a panicked waiter becomes 500 |
| Routes.SelectAll | src/routes.rs:62 | the winner is one of the handlers, and the rest are all the others in order |
| Routes.Fail | src/routes.rs:26-30 | `/fail` answers 200 |
| Routes.Race | src/routes.rs:54-68 | without dryrun the answer is the status waiter's and nothing is aborted; with dryrun it is either waiter's, and the other is aborted |
| Routes.Router.constructor | src/routes.rs:19 | both waiter maps start empty, with no channel made |
| Routes.Router.NewChannel | src/routes.rs:41 | a new channel is one no sender in either map belongs to |
| Routes.Router.Register | src/routes.rs:40-50 | a fresh status sender goes under the key, replacing any earlier one, and a fresh simulation sender too iff dryrun |
| Routes.Router.Abetal | src/routes.rs:32-69 | the status sender is registered under the key, the simulation sender too iff dryrun, and the record `produce_utbetaling` builds for the command and key is produced. Then the waiters race as `Race` states |
| Job.NextTurn | src/job.rs:38-48 | a loop turn calls `iverksett` iff the state is `Started`, and sleeps for exactly `sleep_ms` |
| Job.JobState.constructor | src/job.rs:16-23 | the default state is `Stopped` with a pause of 1000 ms |
| Job.BackgroundJob.constructor | src/job.rs:34 | the spawned job holds the shared state it is given |
| Job.BackgroundJob.RunTurn | src/job.rs:40-46 | one turn does what `NextTurn` says for the shared settings, and writes nothing |
| Job.InitJob | src/job.rs:32-36 | the caller and the spawned job share one freshly made default state |
| Server.Apply | src/server.rs:42-66 | `/start` and `/stop` set only the state, and `/sleep` sets only the pause |
| Server.ApplyIdempotent | src/server.rs:42-66 | repeating `/start`, `/stop` or `/sleep` with the same value changes nothing more |
| Server.ReplayIsLastWrite | src/server.rs:42-66 | after any run of requests, the state is the last one `/start` or `/stop` set, and the pause is the last one `/sleep` set |
| Server.TurnAfterCommands | src/job.rs:40-46 | from the default, a job turn runs `iverksett` iff the last toggle was `/start`, and pauses for the last `/sleep` value or 1000 ms |
| Server.Health | src/server.rs:38-40 | `/health` answers 200 |
| Server.StartJob | src/server.rs:42-47 | the state becomes `Started`, the pause is kept, and the answer is 200 "started" |
| Server.StopJob | src/server.rs:49-54 | the state becomes `Stopped`, the pause is kept, and the answer is 200 "stopped" |
| Server.SleepTextInjective | src/server.rs:64-65 | the `/sleep` answer names the pause it set: different pauses give different answers |
| Server.SleepJob | src/server.rs:61-66 | the pause becomes `ms`, the state is kept, and the answer echoes `ms` |
| Server.DebugTextInjective | src/server.rs:68-73 | the `/debug` answer shows both settings: different settings give different answers |
| Server.DebugJob | src/server.rs:68-79 | 200 with the current settings in the text, changing nothing |
| Server.AbetalResponse | src/server.rs:91-113 | all three `/abetal/{uid}` handlers answer 200 with the status exactly when one comes back, and 202 with no body otherwise |
| Decimal.Show | src/server.rs:64-65 | `{}` of a `u64` is a non-empty run of digits with no leading zero |
| Decimal.ParseShow | src/server.rs:64-65 | the printed decimal text reads back as the number |
| Decimal.ShowInjective | src/server.rs:69-73 | different numbers print differently |

## Left out

- Kafka client construction, TLS settings and environment configuration (`producer` and `consumer`, src/kafka.rs:193-225) are I/O and library configuration.
- The internals of xxHash32 are a foreign algorithm; the digest is the parameter `hash`. The source's only test checks that the partition of a key does not change, which holds because `Partition` is a function.
- serde_json serialisation and parsing of the command and reply bodies are foreign code; they are the parameters `serialize` and `parse`. Only the `Status` and `Periodetype` wire names are modelled.
- The outcome of `producer.send` is only logged, so it is not modelled. The 5-second send timeout and the 30-second `recv_timeout` appear only through their outcomes.
- The 50 ms poll wait and the 1 ms pause of the dry-run listener are timing only.
- Concurrency: each handler and listener turn is modelled as one atomic step over the shared maps. Interleavings within a step, mutex poisoning and the effect of `abort` on a waiter that is still blocked are not modelled. The aborted waiters are returned.
- Routes.Router.Abetal: the key is passed in, so the model does not capture that `Uuid::new_v4()` is random. The model shows that a repeated key replaces the old sender.
- Job.BackgroundJob.RunTurn: the loop itself runs forever, so only one turn is modelled. `utsjekk::iverksett` is not part of this model, and a turn returns whether it would be called.
- The `/iverksett` handler (src/server.rs:81-83) forwards to `client::iverksett`, which is not part of this model.
- The log lines are not modelled: the one `/fail` writes, and those of every other handler.
- `health` in src/routes.rs:21-24 answers exactly as `Server.Health` does.
- `init_server`, `main.rs`, `client.rs`, `dto.rs` and `utsjekk.rs` are not part of this model.
- Dates and timestamps (chrono) are kept as their text. The `Stønadtype` enums of the ts and tp commands are kept as their wire names, because no behaviour of the core depends on them.
- Kafka.Utbetaling: the command type behind the `Historisk` variant is not defined in src/models.rs, so that variant carries its JSON text.
