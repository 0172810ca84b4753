/**
 * The wire types of `src/models.rs`: the four disbursement commands, the
 * `Utbetaling` dispatch enum over them, the status reply and the dry-run
 * simulation result, with the wire names of the `Status` and
 * `Periodetype` enums (serde's SCREAMING_SNAKE_CASE renaming).
 *
 * Dates and timestamps (chrono) are kept as their ISO text; the
 * `Stønadtype` enums of the ts and tp commands are kept as their wire
 * names.
 */
module Models {
  import opened Prelude
  import Uuids

  // ---- aap ----

  datatype AapUtbetalingsdag = AapUtbetalingsdag(meldeperiode: string, dato: string, sats: U32, utbetaltBelop: U32)

  datatype AapUtbetaling = AapUtbetaling(
    dryrun: bool,
    sakId: string,
    behandlingId: string,
    ident: string,
    utbetalinger: seq<AapUtbetalingsdag>,
    vedtakstidspunktet: string,
    saksbehandler: Option<string>,
    beslutter: Option<string>)

  // ---- dp ----

  datatype Utbetalingstype = DagpengerFerietillegg | Dagpenger

  /** `Ordinær` and `EØS` in the source. */
  datatype Rettighetstype = Ordinaer | Permittering | PermitteringFiskeindustrien | Eos

  datatype DpUtbetalingsdag = DpUtbetalingsdag(
    meldeperiode: string,
    dato: string,
    sats: U32,
    utbetaltBelop: U32,
    rettighetstype: Rettighetstype,
    utbetalingstype: Utbetalingstype)

  datatype DpUtbetaling = DpUtbetaling(
    dryrun: bool,
    sakId: string,
    behandlingId: string,
    ident: string,
    utbetalinger: seq<DpUtbetalingsdag>,
    vedtakstidspunktet: string,
    saksbehandler: Option<string>,
    beslutter: Option<string>)

  // ---- ts ----

  datatype Periodetype = Dag | Ukedag | Mnd | EnGang

  datatype TsPeriode = TsPeriode(fom: string, tom: string, belop: U32)

  datatype TsUtbetaling = TsUtbetaling(
    dryrun: bool,
    id: Uuids.Uuid,
    sakId: string,
    behandlingId: string,
    personident: string,
    stonad: string,
    vedtakstidspunkt: string,
    periodetype: Periodetype,
    perioder: seq<TsPeriode>,
    brukFagomradeTillst: bool,
    saksbehandler: Option<string>,
    beslutter: Option<string>)

  // ---- tp ----

  datatype TpPeriode = TpPeriode(meldeperiode: string, fom: string, tom: string, belop: U32)

  datatype TpUtbetaling = TpUtbetaling(
    dryrun: bool,
    sakId: string,
    behandlingId: string,
    personident: string,
    stonad: string,
    vedtakstidspunkt: string,
    perioder: seq<TpPeriode>,
    saksbehandler: Option<string>,
    beslutter: Option<string>)

  /** The command handed to the producer: one variant per benefit type. */
  datatype Utbetaling = Aap(aap: AapUtbetaling) | Dp(dp: DpUtbetaling) | Ts(ts: TsUtbetaling) | Tp(tp: TpUtbetaling)

  /** The public `dryrun` flag that every command type carries. */
  function Dryrun(u: Utbetaling): bool
  {
    match u
    case Aap(c) => c.dryrun
    case Dp(c) => c.dryrun
    case Ts(c) => c.dryrun
    case Tp(c) => c.dryrun
  }

  // ---- status ----

  datatype Status = Ok | Feilet | Mottatt | HosOppdrag

  datatype Error = Error(statusCode: U16, msg: string, doc: string)

  datatype Reply = Reply(status: Status, error: Option<Error>)

  // ---- dryrun ----

  datatype SimUtbetaling = SimUtbetaling(
    fagsystem: string,
    sakId: string,
    utbetalesTil: string,
    stonadstype: string,
    tidligereUtbetalt: I32,
    nyttBelop: I32)

  datatype SimPeriode = SimPeriode(fom: string, tom: string, utbetalinger: seq<SimUtbetaling>)

  datatype Simulering = Simulering(perioder: seq<SimPeriode>)

  // ---- wire names ----

  /** serde's SCREAMING_SNAKE_CASE renaming of a variant identifier (ASCII letters). */
  function ScreamingSnake(ident: string): string
  {
    if ident == [] then [] else [UpperAscii(ident[0])] + UnderscoreBeforeCapitals(ident, 1)
  }

  /** From position `i` on: an underscore before each capital, every letter upper-cased. */
  function UnderscoreBeforeCapitals(ident: string, i: nat): string
    requires i <= |ident|
    decreases |ident| - i
  {
    if i == |ident| then []
    else if 'A' <= ident[i] <= 'Z' then ['_', ident[i]] + UnderscoreBeforeCapitals(ident, i + 1)
    else [UpperAscii(ident[i])] + UnderscoreBeforeCapitals(ident, i + 1)
  }

  function UpperAscii(c: char): char
  {
    if 'a' <= c <= 'z' then (c as int - 32) as char else c
  }

  /** The identifiers of the `Status` variants as the source declares them. */
  function StatusIdent(s: Status): string
  {
    match s
    case Ok => "Ok"
    case Feilet => "Feilet"
    case Mottatt => "Mottatt"
    case HosOppdrag => "HosOppdrag"
  }

  /** serde's encoding of a status, its SCREAMING_SNAKE_CASE wire name. */
  function StatusToWire(s: Status): string
  {
    match s
    case Ok => "OK"
    case Feilet => "FEILET"
    case Mottatt => "MOTTATT"
    case HosOppdrag => "HOS_OPPDRAG"
  }

  /** serde's decoding of a status: a text is read only as the status whose wire name it is. */
  function StatusFromWire(w: string): (r: Option<Status>)
    ensures r.Some? ==> StatusToWire(r.value) == w
    ensures r.None? ==> forall s :: StatusToWire(s) != w
  {
    if w == "OK" then Some(Status.Ok)
    else if w == "FEILET" then Some(Feilet)
    else if w == "MOTTATT" then Some(Mottatt)
    else if w == "HOS_OPPDRAG" then Some(HosOppdrag)
    else None
  }

  function PeriodetypeIdent(p: Periodetype): string
  {
    match p
    case Dag => "Dag"
    case Ukedag => "Ukedag"
    case Mnd => "Mnd"
    case EnGang => "EnGang"
  }

  /** serde's encoding of a period type, its SCREAMING_SNAKE_CASE wire name. */
  function PeriodetypeToWire(p: Periodetype): string
  {
    match p
    case Dag => "DAG"
    case Ukedag => "UKEDAG"
    case Mnd => "MND"
    case EnGang => "EN_GANG"
  }

  /** serde's decoding of a period type: a text is read only as the type whose wire name it is. */
  function PeriodetypeFromWire(w: string): (r: Option<Periodetype>)
    ensures r.Some? ==> PeriodetypeToWire(r.value) == w
    ensures r.None? ==> forall p :: PeriodetypeToWire(p) != w
  {
    if w == "DAG" then Some(Dag)
    else if w == "UKEDAG" then Some(Ukedag)
    else if w == "MND" then Some(Mnd)
    else if w == "EN_GANG" then Some(EnGang)
    else None
  }

  /** The wire table is serde's renaming of the declared identifiers. */
  lemma StatusWireIsScreamingSnake(s: Status)
    ensures StatusToWire(s) == ScreamingSnake(StatusIdent(s))
  {
    match s
    case Ok => assert ScreamingSnake("Ok") == "OK";
    case Feilet => assert ScreamingSnake("Feilet") == "FEILET";
    case Mottatt => assert ScreamingSnake("Mottatt") == "MOTTATT";
    case HosOppdrag => HosOppdragIsScreamingSnake();
  }

  /** The two-word identifiers are evaluated word by word. */
  lemma HosOppdragIsScreamingSnake()
    ensures ScreamingSnake("HosOppdrag") == "HOS_OPPDRAG"
  {
    assert UnderscoreBeforeCapitals("HosOppdrag", 8) == "AG";
    assert UnderscoreBeforeCapitals("HosOppdrag", 6) == "DRAG";
    assert UnderscoreBeforeCapitals("HosOppdrag", 4) == "PPDRAG";
    assert UnderscoreBeforeCapitals("HosOppdrag", 3) == "_OPPDRAG";
    assert UnderscoreBeforeCapitals("HosOppdrag", 1) == "OS_OPPDRAG";
  }

  lemma PeriodetypeWireIsScreamingSnake(p: Periodetype)
    ensures PeriodetypeToWire(p) == ScreamingSnake(PeriodetypeIdent(p))
  {
    match p
    case Dag => assert ScreamingSnake("Dag") == "DAG";
    case Ukedag => assert ScreamingSnake("Ukedag") == "UKEDAG";
    case Mnd => assert ScreamingSnake("Mnd") == "MND";
    case EnGang => EnGangIsScreamingSnake();
  }

  lemma EnGangIsScreamingSnake()
    ensures ScreamingSnake("EnGang") == "EN_GANG"
  {
    assert UnderscoreBeforeCapitals("EnGang", 2) == "_GANG";
  }

  /** Encoding then decoding a status is the identity, and a name decodes only to the status it encodes. */
  lemma StatusWireRoundTrip(s: Status, w: string)
    ensures StatusFromWire(StatusToWire(s)) == Some(s)
    ensures StatusFromWire(w) == Some(s) <==> w == StatusToWire(s)
  {
  }

  lemma PeriodetypeWireRoundTrip(p: Periodetype, w: string)
    ensures PeriodetypeFromWire(PeriodetypeToWire(p)) == Some(p)
    ensures PeriodetypeFromWire(w) == Some(p) <==> w == PeriodetypeToWire(p)
  {
  }
}
