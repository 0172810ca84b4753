/**
 * `src/kafka.rs`: the partitioner, the topic dispatch of the producer, and
 * the steps of the two reply listeners (`status_consumer` and
 * `dryrun_consumer`) that decode a polled record and hand it to the
 * waiter registered under its key.
 */
module Kafka {
  import opened Prelude
  import Utf8
  import Uuids
  import Models

  // ---------------------------------------------------------------- partition

  const NumPartitions: I32 := 3

  /** `as i32` on a `u64`: keep the low 32 bits and read them as two's complement. */
  function TruncateToI32(x: U64): I32
  {
    var low := x % 0x1_0000_0000;
    if low < 0x8000_0000 then low else low - 0x1_0000_0000
  }

  /** The 32-bit two's complement pattern of an `i32`, read as unsigned. */
  function BitPattern(h: I32): nat
  {
    if h < 0 then h + 0x1_0000_0000 else h
  }

  /** `h & 0x7fffffff`: the low 31 bits of the pattern, so the sign bit is cleared. */
  function ClearSignBit(h: I32): I32
  {
    BitPattern(h) % 0x8000_0000
  }

  /** Rust's `%` on `i32`: the remainder takes the sign of the dividend. */
  function RemI32(a: I32, b: I32): I32
    requires b > 0
  {
    var n: int := a;
    if n >= 0 then n % b else -((-n) % b)
  }

  /**
   * `partition` once the xxHash32 digest `h` (what `hasher.finish()`
   * returns) is known: truncate to `i32`, clear the sign bit, then `% 3`.
   */
  function PartitionOfHash(h: U64): (p: I32)
    ensures 0 <= p < NumPartitions
  {
    RemI32(ClearSignBit(TruncateToI32(h)), NumPartitions)
  }

  /**
   * `partition(key)`: the digest is taken over the bytes of
   * `key.to_string()`. xxHash32 with seed 0 is the parameter `hash`.
   */
  function Partition(hash: seq<Byte> -> U64, key: Uuids.Uuid): (p: I32)
    ensures 0 <= p < NumPartitions
  {
    PartitionOfHash(hash(Uuids.KeyBytes(key)))
  }

  /** The partition is the digest's low 31 bits modulo 3, whatever the upper bits were. */
  lemma PartitionOfHashIsLow31BitsMod3(h: U64)
    ensures PartitionOfHash(h) == (h % 0x8000_0000) % NumPartitions
  {
    var low := h % 0x1_0000_0000;
    assert BitPattern(TruncateToI32(h)) == low;
    assert h == (h / 0x1_0000_0000) * 0x1_0000_0000 + low;
    assert low % 0x8000_0000 == h % 0x8000_0000 by {
      ModOfMultiple(h / 0x1_0000_0000, low);
    }
  }

  lemma ModOfMultiple(q: int, r: nat)
    ensures (q * 0x1_0000_0000 + r) % 0x8000_0000 == r % 0x8000_0000
  {
    assert q * 0x1_0000_0000 + r == (2 * q) * 0x8000_0000 + r;
  }

  // ---------------------------------------------------------------- produce

  /**
   * The command as `produce_utbetaling` matches on it. This revision has a
   * fifth variant, `Historisk`; its command type is not part of this model,
   * so it is carried as the JSON text it serialises to.
   */
  datatype Utbetaling =
    | Aap(aap: Models.AapUtbetaling)
    | Dp(dp: Models.DpUtbetaling)
    | Ts(ts: Models.TsUtbetaling)
    | Tp(tp: Models.TpUtbetaling)
    | Historisk(historisk: string)

  /** The outbound topic of each variant, named after its benefit type. */
  function Topic(u: Utbetaling): (t: string)
    ensures t == "helved.utbetalinger-" + Benefit(u) + ".v1"
  {
    match u
    case Aap(_) => "helved.utbetalinger-aap.v1"
    case Dp(_) => "helved.utbetalinger-dp.v1"
    case Ts(_) => "helved.utbetalinger-ts.v1"
    case Tp(_) => "helved.utbetalinger-tp.v1"
    case Historisk(_) => "helved.utbetalinger-historisk.v1"
  }

  /** The client id of the producer created for each variant, named after its benefit type. */
  function ClientId(u: Utbetaling): (id: string)
    ensures id == "produce-" + Benefit(u) + "-utbetaling"
  {
    match u
    case Aap(_) =>
      assert "produce-" + "aap" == "produce-aap";
      assert "produce-aap" + "-utbetaling" == "produce-aap-utbetaling";
      "produce-aap-utbetaling"
    case Dp(_) =>
      assert "produce-" + "dp" == "produce-dp";
      assert "produce-dp" + "-utbetaling" == "produce-dp-utbetaling";
      "produce-dp-utbetaling"
    case Ts(_) =>
      assert "produce-" + "ts" == "produce-ts";
      assert "produce-ts" + "-utbetaling" == "produce-ts-utbetaling";
      "produce-ts-utbetaling"
    case Tp(_) =>
      assert "produce-" + "tp" == "produce-tp";
      assert "produce-tp" + "-utbetaling" == "produce-tp-utbetaling";
      "produce-tp-utbetaling"
    case Historisk(_) =>
      assert "produce-" + "historisk" == "produce-historisk";
      assert "produce-historisk" + "-utbetaling" == "produce-historisk-utbetaling";
      "produce-historisk-utbetaling"
  }

  /** The short name of a variant's benefit type, as it appears inside topic and client id. */
  function Benefit(u: Utbetaling): string
  {
    match u
    case Aap(_) => "aap"
    case Dp(_) => "dp"
    case Ts(_) => "ts"
    case Tp(_) => "tp"
    case Historisk(_) => "historisk"
  }

  /** Two commands share a topic, and a producer client id, exactly when they are of the same benefit type. */
  lemma TopicsDistinct(u: Utbetaling, v: Utbetaling)
    ensures Topic(u) == Topic(v) <==> Benefit(u) == Benefit(v)
    ensures ClientId(u) == ClientId(v) <==> Benefit(u) == Benefit(v)
  {
  }

  /** The command as the HTTP handlers hand it over: one of the four benefit types, never `Historisk`. */
  function ToKafka(u: Models.Utbetaling): (k: Utbetaling)
    ensures !k.Historisk?
    ensures Benefit(k) == (match u case Aap(_) => "aap" case Dp(_) => "dp" case Ts(_) => "ts" case Tp(_) => "tp")
  {
    match u
    case Aap(c) => Aap(c)
    case Dp(c) => Dp(c)
    case Ts(c) => Ts(c)
    case Tp(c) => Tp(c)
  }

  /**
   * The topics the two listeners read are none of the topics commands are
   * written to, so neither listener reads back a command.
   */
  lemma ReplyTopicsAreNotCommandTopics(u: Utbetaling)
    ensures Topic(u) != StatusTopic
    ensures Topic(u) !in DryrunTopics
  {
  }

  /** The record `produce_utbetaling` hands to the producer. */
  datatype ProducerRecord = ProducerRecord(topic: string, key: seq<Byte>, payload: string, partition: I32)

  /**
   * The record for command `u` under correlation key `uid`: the topic of
   * its variant, the key `uid.to_string()`, the serialised command as the
   * payload, and `partition(uid)`. Serialisation (serde_json) is the
   * parameter `serialize`.
   */
  function ProduceRecord(hash: seq<Byte> -> U64, serialize: Utbetaling -> string, uid: Uuids.Uuid, u: Utbetaling): (r: ProducerRecord)
    ensures Uuids.DecodeKey(Some(r.key)) == Some(uid)
    ensures r.partition == Partition(hash, uid) && 0 <= r.partition < NumPartitions
    ensures r.topic == Topic(u)
  {
    Uuids.DecodeKeyBytes(uid);
    ProducerRecord(Topic(u), Uuids.KeyBytes(uid), serialize(u), Partition(hash, uid))
  }

  // ---------------------------------------------------------------- consume

  /** A polled record: key and payload are both optional. */
  datatype ConsumerRecord = ConsumerRecord(key: Option<seq<Byte>>, payload: Option<seq<Byte>>)

  /** An error reported by `poll` in place of a record. */
  datatype KafkaError = KafkaError(reason: string)

  /** What one `consumer.poll(50 ms)` gives: nothing, an error, or a record. */
  type Poll = Option<Result<ConsumerRecord, KafkaError>>

  /** `payload.and_then(from_utf8)` followed by `serde_json::from_str`, the latter being `parse`. */
  function DecodePayload<T>(payload: Option<seq<Byte>>, parse: string -> Option<T>): (r: Option<T>)
    ensures r.Some? <==> payload.Some? && Utf8.Decode(payload.value).Some? && parse(Utf8.Decode(payload.value).value).Some?
    ensures r.Some? ==> r == parse(Utf8.Decode(payload.value).value)
  {
    match payload
    case None => None
    case Some(bs) =>
      match Utf8.Decode(bs)
      case None => None
      case Some(text) => parse(text)
  }

  /**
   * The decode pipeline both listeners run on a record: the key must be
   * present, UTF-8 and a UUID; the payload present, UTF-8 and decodable.
   * None means the listener skips the record.
   */
  function DecodeRecord<T>(rec: ConsumerRecord, parse: string -> Option<T>): (r: Option<(Uuids.Uuid, T)>)
    ensures r.Some? <==> Uuids.DecodeKey(rec.key).Some? && DecodePayload(rec.payload, parse).Some?
    ensures r.Some? ==> Uuids.DecodeKey(rec.key) == Some(r.value.0)
    ensures r.Some? ==> DecodePayload(rec.payload, parse) == Some(r.value.1)
  {
    match Uuids.DecodeKey(rec.key)
    case None => None
    case Some(uid) =>
      match DecodePayload(rec.payload, parse)
      case None => None
      case Some(value) => Some((uid, value))
  }

  /** The record a listener decodes, if any, from one poll; errors and skips give None. */
  function Decoded<T>(poll: Poll, parse: string -> Option<T>): Option<(Uuids.Uuid, T)>
  {
    match poll
    case Some(Ok(rec)) => DecodeRecord(rec, parse)
    case _ => None
  }

  // ---------------------------------------------------------------- status listener

  /** The topic `status_consumer` subscribes to. */
  const StatusTopic: string := "helved.status.v1"

  /** What `rx.try_recv()` finds on a waiter's cleanup receiver. */
  datatype CleanupSignal = HasMsg | Empty | Disconnected

  /** Names the channel behind a sender, so that deliveries can be told apart. */
  type ChannelId = nat

  /** A value of the status map: the waiter's reply sender and its cleanup receiver. */
  datatype Entry = Entry(tx: ChannelId, rx: CleanupSignal)

  /** One `tx.send(value)`: the uid it was looked up under, the sender's channel, the value. */
  datatype Delivery<T> = Delivery(uid: Uuids.Uuid, channel: ChannelId, value: T)

  /** The send a decoded reply causes: through the sender under its uid, or none when no one waits. */
  function DeliveryFor<T>(pending: map<Uuids.Uuid, ChannelId>, decoded: Option<(Uuids.Uuid, T)>): (ds: seq<Delivery<T>>)
    ensures |ds| <= 1
    ensures |ds| == 1 <==> decoded.Some? && decoded.value.0 in pending
    ensures |ds| == 1 ==> ds[0].uid == decoded.value.0 && ds[0].channel == pending[ds[0].uid] && ds[0].value == decoded.value.1
  {
    match decoded
    case Some((uid, value)) => if uid in pending then [Delivery(uid, pending[uid], value)] else []
    case None => []
  }

  /** The senders of a status map. */
  function Senders(m: map<Uuids.Uuid, Entry>): (r: map<Uuids.Uuid, ChannelId>)
    ensures r.Keys == m.Keys
    ensures forall u :: u in r ==> r[u] == m[u].tx
  {
    map u | u in m :: m[u].tx
  }

  /**
   * The status map after a cleanup sweep: it drops exactly the entries
   * whose cleanup receiver yields a message or is disconnected, and keeps
   * the others unchanged.
   */
  function Swept(m: map<Uuids.Uuid, Entry>): (r: map<Uuids.Uuid, Entry>)
    ensures r.Keys <= m.Keys
    ensures forall u :: u in m ==> (u in r <==> m[u].rx == Empty)
    ensures forall u :: u in r ==> r[u] == m[u]
  {
    map u | u in m && m[u].rx == Empty :: m[u]
  }

  /** A second sweep with no new signals removes nothing. */
  lemma SweptIdempotent(m: map<Uuids.Uuid, Entry>)
    ensures Swept(Swept(m)) == Swept(m)
  {
  }

  /** The state `status_consumer` works on: the shared status map and the replies sent so far. */
  class StatusListener {
    var pending: map<Uuids.Uuid, Entry>
    var sent: seq<Delivery<Models.Reply>>

    constructor (pending: map<Uuids.Uuid, Entry>)
      ensures this.pending == pending && sent == []
    {
      this.pending := pending;
      sent := [];
    }

    /** `if let Some((tx, _)) = map.get(&uid) { tx.send(reply) }`: the map itself is left as it is. */
    method Deliver(uid: Uuids.Uuid, reply: Models.Reply)
      modifies this`sent
      ensures pending == old(pending)
      ensures sent == old(sent) + DeliveryFor(Senders(pending), Some((uid, reply)))
    {
      if uid in pending {
        sent := sent + [Delivery(uid, pending[uid].tx, reply)];
      }
    }

    /**
     * The cleanup block: visit every entry (in the map's unspecified
     * order) and collect the uids whose receiver yields a message or is
     * disconnected, then remove those uids one by one.
     */
    method Sweep()
      modifies this`pending
      ensures pending == Swept(old(pending))
    {
      var uidsToRemove: seq<Uuids.Uuid> := [];
      var unvisited := pending.Keys;
      while unvisited != {}
        invariant unvisited <= pending.Keys
        invariant forall u :: u in uidsToRemove <==> u in pending && u !in unvisited && pending[u].rx != Empty
        decreases unvisited
      {
        var uid :| uid in unvisited;
        match pending[uid].rx {
          case HasMsg => uidsToRemove := uidsToRemove + [uid];
          case Disconnected => uidsToRemove := uidsToRemove + [uid];
          case Empty =>
        }
        unvisited := unvisited - {uid};
      }
      ghost var before := pending;
      for i := 0 to |uidsToRemove|
        invariant pending == map u | u in before && u !in uidsToRemove[..i] :: before[u]
      {
        assert uidsToRemove[..i + 1] == uidsToRemove[..i] + [uidsToRemove[i]];
        pending := pending - {uidsToRemove[i]};
      }
      assert uidsToRemove[..|uidsToRemove|] == uidsToRemove;
    }

    /**
     * One turn of the `status_consumer` loop after `poll` returned `poll`.
     * A decoded reply is delivered and then the sweep runs; when nothing
     * was polled only the sweep runs; a poll error or a record that fails
     * to decode is skipped with `continue`, which also skips that turn's
     * sweep. `parse` is `serde_json::from_str::<status::Reply>`.
     */
    method Iterate(poll: Poll, parse: string -> Option<Models.Reply>)
      modifies this
      ensures poll.Some? && Decoded(poll, parse).None? ==> pending == old(pending) && sent == old(sent)
      ensures poll.None? || Decoded(poll, parse).Some? ==>
        && pending == Swept(old(pending))
        && sent == old(sent) + DeliveryFor(Senders(old(pending)), Decoded(poll, parse))
    {
      if poll.Some? {
        match poll.value
        case Err(_) => return;
        case Ok(record) =>
          match DecodeRecord(record, parse)
          case None => return;
          case Some((uid, reply)) => Deliver(uid, reply);
      }
      Sweep();
    }
  }

  // ---------------------------------------------------------------- dry-run listener

  /** The topics `dryrun_consumer` subscribes to. */
  const DryrunTopics: seq<string> := ["helved.dryrun-aap.v1", "helved.dryrun-dp.v1"]

  /** The simulation map with the simulations sent so far. */
  datatype SimRegistry = SimRegistry(pending: map<Uuids.Uuid, ChannelId>, sent: seq<Delivery<Models.Simulering>>)

  /** `if let Some(tx) = map.remove(&uid) { tx.send(sim) }`: the entry goes before the send. */
  function RemoveThenSend(r: SimRegistry, uid: Uuids.Uuid, sim: Models.Simulering): (r': SimRegistry)
    ensures uid !in r'.pending
    ensures forall v :: v != uid ==> (v in r'.pending <==> v in r.pending)
    ensures forall v :: v in r'.pending ==> r'.pending[v] == r.pending[v]
    ensures CountFor(uid, r'.sent) == CountFor(uid, r.sent) + (if uid in r.pending then 1 else 0)
  {
    CountForAppend(uid, r.sent, DeliveryFor(r.pending, Some((uid, sim))));
    SimRegistry(r.pending - {uid}, r.sent + DeliveryFor(r.pending, Some((uid, sim))))
  }

  /** A run of decoded simulation records, one `RemoveThenSend` each, in order. */
  function RemoveThenSendAll(r: SimRegistry, results: seq<(Uuids.Uuid, Models.Simulering)>): SimRegistry
    decreases |results|
  {
    if results == [] then r
    else RemoveThenSendAll(RemoveThenSend(r, results[0].0, results[0].1), results[1..])
  }

  /** How many of `ds` went out for `uid`. */
  function CountFor<T>(uid: Uuids.Uuid, ds: seq<Delivery<T>>): nat
  {
    if ds == [] then 0 else (if ds[0].uid == uid then 1 else 0) + CountFor(uid, ds[1..])
  }

  lemma {:induction false} CountForAppend<T>(uid: Uuids.Uuid, a: seq<Delivery<T>>, b: seq<Delivery<T>>)
    ensures CountFor(uid, a + b) == CountFor(uid, a) + CountFor(uid, b)
  {
    if a != [] {
      assert (a + b)[0] == a[0] && (a + b)[1..] == a[1..] + b;
      CountForAppend(uid, a[1..], b);
    } else {
      assert a + b == b;
    }
  }

  /**
   * Whatever simulation results arrive later, a uid receives at most one
   * simulation, and none once its entry is gone.
   */
  lemma {:induction false} AtMostOneSimulation(r: SimRegistry, results: seq<(Uuids.Uuid, Models.Simulering)>, uid: Uuids.Uuid)
    ensures CountFor(uid, RemoveThenSendAll(r, results).sent) <= CountFor(uid, r.sent) + (if uid in r.pending then 1 else 0)
    ensures uid !in r.pending ==> CountFor(uid, RemoveThenSendAll(r, results).sent) == CountFor(uid, r.sent)
    decreases |results|
  {
    if results != [] {
      var next := RemoveThenSend(r, results[0].0, results[0].1);
      CountForAppend(uid, r.sent, DeliveryFor(r.pending, Some(results[0])));
      AtMostOneSimulation(next, results[1..], uid);
    }
  }

  /** The state `dryrun_consumer` works on. */
  class DryrunListener {
    var pending: map<Uuids.Uuid, ChannelId>
    var sent: seq<Delivery<Models.Simulering>>

    constructor (pending: map<Uuids.Uuid, ChannelId>)
      ensures this.pending == pending && sent == []
    {
      this.pending := pending;
      sent := [];
    }

    function Registry(): SimRegistry
      reads this
    {
      SimRegistry(pending, sent)
    }

    method Deliver(uid: Uuids.Uuid, sim: Models.Simulering)
      modifies this
      ensures Registry() == RemoveThenSend(old(Registry()), uid, sim)
    {
      if uid in pending {
        var tx := pending[uid];
        pending := pending - {uid};
        sent := sent + [Delivery(uid, tx, sim)];
      } else {
        pending := pending - {uid};
      }
    }

    /**
     * One turn of the `dryrun_consumer` loop: a decoded simulation is
     * handed to `Deliver`; anything else leaves the state as it is.
     * `parse` is `serde_json::from_str::<dryrun::Simulering>`.
     */
    method Iterate(poll: Poll, parse: string -> Option<Models.Simulering>)
      modifies this
      ensures Decoded(poll, parse).None? ==> Registry() == old(Registry())
      ensures Decoded(poll, parse).Some? ==>
        Registry() == RemoveThenSend(old(Registry()), Decoded(poll, parse).value.0, Decoded(poll, parse).value.1)
    {
      match Decoded(poll, parse)
      case None =>
      case Some((uid, sim)) => Deliver(uid, sim);
    }
  }
}
