/**
 * The two campaign repositories as state machines over the same records: the in-memory one, which
 * keeps one campaign per scope and asset, and the relational one, which keeps every campaign row.
 */
module CampaignStores {
  import opened Wrappers
  import opened CampaignPolicy

  /** `cooldown` and `mergeGap` are durations in the unit of the event times. */
  datatype Config = Config(mergeGap: int, cooldown: int)

  datatype Evidence = Evidence(id: string, time: int, score: Score)

  datatype Series = Series(scope: string, asset: string)

  function SeriesOf(ev: Evidence): Series { Series(ev.score.scope, ev.score.asset) }

  /** Identities are derived from what they identify, so they are modelled by it. */
  datatype CampaignId = CampaignId(series: Series, opener: string)
  datatype AlertKey = AlertKey(campaign: CampaignId, kind: AlertType)

  datatype Order = Order(cutoff: int, feature: int, fusion: int, priority: int)

  predicate OrderLe(a: Order, b: Order) {
    if a.cutoff != b.cutoff then a.cutoff < b.cutoff
    else if a.feature != b.feature then a.feature < b.feature
    else if a.fusion != b.fusion then a.fusion < b.fusion
    else a.priority <= b.priority
  }

  function OrderOf(ev: Evidence): Order {
    Order(ev.score.cutoff.GetOr(ev.time), ev.score.featureRevision, ev.score.fusionRevision, Priority(ev.score.profile))
  }

  /** The order of the last applied evaluation; the cutoff may be absent on a migrated row. */
  datatype Campaign = Campaign(
    id: CampaignId, active: bool, stage: Stage, confidence: real, maxSeverity: Risk,
    first: int, last: int, applied: Option<Order>, version: int)

  predicate IsStale(c: Campaign, ev: Evidence) {
    c.applied.Some? && OrderLe(OrderOf(ev), c.applied.value)
  }

  predicate GapElapsed(cfg: Config, c: Campaign, ev: Evidence) {
    ev.time - c.last > cfg.mergeGap
  }

  datatype Alert = Alert(
    key: AlertKey, severity: Risk, active: bool, first: int, last: int, notified: Option<int>,
    occurrences: int, version: int)

  datatype EventType =
    | CampaignCreated | CampaignStageChanged | CampaignClosed | AlertCreated | AlertSeverityChanged | AlertRefreshed

  datatype Entity = OfCampaign(id: CampaignId) | OfAlert(key: AlertKey)

  datatype Topic = CampaignEvents | AlertEvents

  /** An outbox event. Its event id is derived from the first four of these. */
  datatype Event = Event(topic: Topic, entity: Entity, kind: EventType, evidence: string, time: int)

  datatype EventId = EventId(topic: Topic, entity: Entity, kind: EventType, evidence: string)

  function IdOf(e: Event): EventId { EventId(e.topic, e.entity, e.kind, e.evidence) }

  datatype Note = Note(key: AlertKey, severity: Risk, suppressed: bool)

  datatype Update = Update(campaign: Campaign, alerts: seq<Alert>, duplicate: bool, stale: bool, emitted: seq<Event>)

  datatype StoreError = DuplicateWithoutCampaign | MissingCampaign | LockTimeout | Policy(error: PolicyError)

  function Later(x: int, y: int): int { if x >= y then x else y }

  // ---------------------------------------------------------------- campaigns

  function Opened(ev: Evidence, a: Assessment): Campaign {
    Campaign(CampaignId(SeriesOf(ev), ev.id), true, a.next, a.confidence, ev.score.severity,
             ev.time, ev.time, Some(OrderOf(ev)), 1)
  }

  function Advanced(c: Campaign, ev: Evidence, a: Assessment): Campaign {
    c.(stage := a.next, confidence := a.confidence, maxSeverity := MaxRisk(c.maxSeverity, ev.score.severity),
       last := Later(c.last, ev.time), applied := Some(OrderOf(ev)), version := c.version + 1)
  }

  // ---------------------------------------------------------------- alerts

  /** What raising one alert leaves and tells. */
  datatype Raised = Raised(alert: Alert, suppressed: bool, kind: EventType)

  function NewAlert(key: AlertKey, time: int, severity: Risk): Alert {
    Alert(key, severity, true, time, time, Some(time), 1, 1)
  }

  /** The in-memory rule: decide first, then copy the record. */
  function RaiseInMemory(cfg: Config, alerts: map<AlertKey, Alert>, key: AlertKey, time: int, severity: Risk): Raised {
    if key !in alerts then Raised(NewAlert(key, time, severity), false, AlertCreated)
    else
      var was := alerts[key];
      var now := MaxRisk(was.severity, severity);
      var changed := now != was.severity || !was.active;
      var suppressed := !changed && was.notified.Some? && time - was.notified.value < cfg.cooldown;
      Raised(was.(severity := now, active := true, last := Later(was.last, time),
                  notified := if suppressed then was.notified else Some(time),
                  occurrences := was.occurrences + 1, version := was.version + 1),
             suppressed, if changed then AlertSeverityChanged else AlertRefreshed)
  }

  /** The relational rule: write the row, then compare it with what it was. */
  function RaiseInRow(cfg: Config, alerts: map<AlertKey, Alert>, key: AlertKey, time: int, severity: Risk): Raised {
    if key !in alerts then Raised(NewAlert(key, time, severity), false, AlertCreated)
    else
      var was := alerts[key];
      var row := was.(last := Later(was.last, time), occurrences := was.occurrences + 1, active := true,
                      severity := MaxRisk(was.severity, severity), version := was.version + 1);
      var changed := row.severity != was.severity || row.active != was.active;
      var suppressed := !changed && row.notified.Some? && time - row.notified.value < cfg.cooldown;
      Raised(if suppressed then row else row.(notified := Some(time)), suppressed,
             if changed then AlertSeverityChanged else AlertRefreshed)
  }

  /** The alert table and what has been recorded while going through the triggers. */
  datatype Alarm = Alarm(alerts: map<AlertKey, Alert>, records: seq<Alert>, notes: seq<Note>, events: seq<Event>)

  function Sounded(a: Alarm, key: AlertKey, ev: Evidence, r: Raised): Alarm {
    Alarm(a.alerts[key := r.alert], a.records + [r.alert], a.notes + [Note(key, r.alert.severity, r.suppressed)],
          a.events + (if r.suppressed then [] else [Event(AlertEvents, OfAlert(key), r.kind, ev.id, ev.time)]))
  }

  function SoundInMemory(
      cfg: Config, alerts: map<AlertKey, Alert>, id: CampaignId, ev: Evidence, triggers: seq<Trigger>): Alarm {
    if triggers == [] then Alarm(alerts, [], [], [])
    else
      var t := triggers[|triggers| - 1];
      var before := SoundInMemory(cfg, alerts, id, ev, triggers[..|triggers| - 1]);
      var key := AlertKey(id, t.kind);
      Sounded(before, key, ev, RaiseInMemory(cfg, before.alerts, key, ev.time, t.severity))
  }

  function SoundInRows(
      cfg: Config, alerts: map<AlertKey, Alert>, id: CampaignId, ev: Evidence, triggers: seq<Trigger>): Alarm {
    if triggers == [] then Alarm(alerts, [], [], [])
    else
      var t := triggers[|triggers| - 1];
      var before := SoundInRows(cfg, alerts, id, ev, triggers[..|triggers| - 1]);
      var key := AlertKey(id, t.kind);
      Sounded(before, key, ev, RaiseInRow(cfg, before.alerts, key, ev.time, t.severity))
  }

  function CampaignEvent(id: CampaignId, kind: EventType, ev: Evidence): Event {
    Event(CampaignEvents, OfCampaign(id), kind, ev.id, ev.time)
  }

  // ---------------------------------------------------------------- the in-memory repository

  datatype StageChange = StageChange(id: CampaignId, from: Stage, to: Stage)

  datatype Memory = Memory(
    campaigns: map<Series, Campaign>, alerts: map<AlertKey, Alert>, seen: set<string>,
    stageHistory: seq<StageChange>, alertHistory: seq<Note>, outbox: seq<Event>)

  const EMPTY_MEMORY := Memory(map[], map[], {}, [], [], [])

  datatype MemoryOutcome = MemoryOutcome(state: Memory, result: Result<Update, StoreError>)

  function CurrentIn(st: Memory, ev: Evidence): Option<Campaign> {
    if SeriesOf(ev) in st.campaigns then Some(st.campaigns[SeriesOf(ev)]) else None
  }

  /** The campaign the evidence continues; one idle for longer than the merge gap is dropped. */
  function ContinuedIn(cfg: Config, st: Memory, ev: Evidence): Option<Campaign> {
    var c := CurrentIn(st, ev);
    if c.Some? && GapElapsed(cfg, c.value, ev) then None else c
  }

  function StageOf(c: Option<Campaign>): Stage { if c.Some? then c.value.stage else Quiet }

  /** Stores the campaign, reports its opening or stage change, and raises the alerts. */
  function CommitInMemory(
      cfg: Config, st: Memory, ev: Evidence, existing: Option<Campaign>, a: Assessment): MemoryOutcome {
    var campaign := if existing.Some? then Advanced(existing.value, ev, a) else Opened(ev, a);
    var moved := existing.Some? && campaign.stage != existing.value.stage;
    var told := if existing.None? then [CampaignEvent(campaign.id, CampaignCreated, ev)]
                else if moved then [CampaignEvent(campaign.id, CampaignStageChanged, ev)] else [];
    var alarm := SoundInMemory(cfg, st.alerts, campaign.id, ev, a.alerts);
    MemoryOutcome(
      Memory(st.campaigns[SeriesOf(ev) := campaign], alarm.alerts, st.seen,
             st.stageHistory + (if moved then [StageChange(campaign.id, existing.value.stage, campaign.stage)] else []),
             st.alertHistory + alarm.notes, st.outbox + told + alarm.events),
      Success(Update(campaign, alarm.records, false, false, told + alarm.events)))
  }

  /** The in-memory repository tests the merge gap first and staleness second. */
  function ApplyInMemory(cfg: Config, st: Memory, ev: Evidence): MemoryOutcome {
    var current := CurrentIn(st, ev);
    if ev.id in st.seen then
      MemoryOutcome(st, if current.None? then Failure(DuplicateWithoutCampaign)
                        else Success(Update(current.value, [], true, false, [])))
    else
      var noted := st.(seen := st.seen + {ev.id});
      var existing := ContinuedIn(cfg, st, ev);
      match Assess(StageOf(existing), ev.score)
      case Failure(e) => MemoryOutcome(noted, Failure(Policy(e)))
      case Success(a) =>
        if existing.Some? && IsStale(existing.value, ev)
        then MemoryOutcome(noted, Success(Update(existing.value, [], false, true, [])))
        else CommitInMemory(cfg, noted, ev, existing, a)
  }

  // ---------------------------------------------------------------- the relational repository

  /** A row of the stage history; the row written when a campaign opens has no stage to come from. */
  datatype StageRow = StageRow(id: CampaignId, from: Option<Stage>, to: Stage)

  datatype Tables = Tables(
    rows: seq<Campaign>, evidence: map<string, CampaignId>, alerts: map<AlertKey, Alert>,
    stageHistory: seq<StageRow>, alertHistory: seq<Note>, outbox: seq<Event>)

  const EMPTY_TABLES := Tables([], map[], map[], [], [], [])

  datatype TablesOutcome = TablesOutcome(state: Tables, result: Result<Update, StoreError>)

  /** The position of the active campaign row of a series. */
  function ActiveRow(rows: seq<Campaign>, series: Series): (r: Option<nat>)
    ensures r.Some? ==> r.value < |rows| && rows[r.value].active && rows[r.value].id.series == series
    ensures r.None? ==> forall c :: c in rows && c.id.series == series ==> !c.active
  {
    if rows == [] then None
    else if rows[|rows| - 1].active && rows[|rows| - 1].id.series == series then Some(|rows| - 1)
    else
      assert rows == rows[..|rows| - 1] + [rows[|rows| - 1]];
      ActiveRow(rows[..|rows| - 1], series)
  }

  function RowOf(rows: seq<Campaign>, id: CampaignId): Option<Campaign> {
    if rows == [] then None
    else if rows[0].id == id then Some(rows[0]) else RowOf(rows[1..], id)
  }

  function Closed(c: Campaign): Campaign { c.(active := false, version := c.version + 1) }

  function CommitInTables(
      cfg: Config, st: Tables, ev: Evidence, at: Option<nat>, a: Assessment, closing: seq<Event>): TablesOutcome
    requires at.Some? ==> at.value < |st.rows|
  {
    var campaign := if at.Some? then Advanced(st.rows[at.value], ev, a) else Opened(ev, a);
    var moved := at.Some? && campaign.stage != st.rows[at.value].stage;
    var told := if at.None? then [CampaignEvent(campaign.id, CampaignCreated, ev)]
                else if moved then [CampaignEvent(campaign.id, CampaignStageChanged, ev)] else [];
    var alarm := SoundInRows(cfg, st.alerts, campaign.id, ev, a.alerts);
    TablesOutcome(
      Tables(if at.Some? then st.rows[at.value := campaign] else st.rows + [campaign],
             st.evidence[ev.id := campaign.id], alarm.alerts,
             st.stageHistory + (if at.None? then [StageRow(campaign.id, None, campaign.stage)]
                                else if moved
                                then [StageRow(campaign.id, Some(st.rows[at.value].stage), campaign.stage)]
                                else []),
             st.alertHistory + alarm.notes, st.outbox + told + alarm.events),
      Success(Update(campaign, alarm.records, false, false, closing + told + alarm.events)))
  }

  /** The relational repository tests staleness first and the merge gap second. */
  function ApplyInTables(cfg: Config, st: Tables, ev: Evidence): TablesOutcome {
    if ev.id in st.evidence then
      var row := RowOf(st.rows, st.evidence[ev.id]);
      TablesOutcome(st, if row.None? then Failure(MissingCampaign) else Success(Update(row.value, [], true, false, [])))
    else
      var at := ActiveRow(st.rows, SeriesOf(ev));
      if at.Some? && IsStale(st.rows[at.value], ev) then
        TablesOutcome(st.(evidence := st.evidence[ev.id := st.rows[at.value].id]),
                      Success(Update(st.rows[at.value], [], false, true, [])))
      else if at.Some? && GapElapsed(cfg, st.rows[at.value], ev) then
        var closed := CampaignEvent(st.rows[at.value].id, CampaignClosed, ev);
        var shut := st.(rows := st.rows[at.value := Closed(st.rows[at.value])], outbox := st.outbox + [closed]);
        (match Assess(Quiet, ev.score)
         case Failure(e) => TablesOutcome(st, Failure(Policy(e)))
         case Success(a) => CommitInTables(cfg, shut, ev, None, a, [closed]))
      else
        var stage := if at.Some? then st.rows[at.value].stage else Quiet;
        (match Assess(stage, ev.score)
         case Failure(e) => TablesOutcome(st, Failure(Policy(e)))
         case Success(a) => CommitInTables(cfg, st, ev, at, a, []))
  }
}
