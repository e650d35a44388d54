/** The two campaign repositories in the form the program runs them: records updated in place. */
module CampaignEngines {
  import opened Wrappers
  import opened CampaignPolicy
  import opened CampaignStores

  class InMemoryCampaignRepository {
    const config: Config
    var campaigns: map<Series, Campaign>
    var alerts: map<AlertKey, Alert>
    var evidenceIds: set<string>
    var stageHistory: seq<StageChange>
    var alertHistory: seq<Note>
    var outbox: seq<Event>

    ghost function State(): Memory
      reads this
    {
      Memory(campaigns, alerts, evidenceIds, stageHistory, alertHistory, outbox)
    }

    constructor (cfg: Config)
      ensures State() == EMPTY_MEMORY && config == cfg
    {
      config := cfg;
      campaigns, alerts, evidenceIds, stageHistory, alertHistory, outbox := map[], map[], {}, [], [], [];
    }

    /** Raises one alert: creates it, or climbs, refreshes or suppresses the one there is. */
    method Raise(id: CampaignId, ev: Evidence, trigger: Trigger) returns (record: Alert, told: seq<Event>)
      modifies this`alerts, this`alertHistory, this`outbox
      ensures var key := AlertKey(id, trigger.kind);
              var r := RaiseInMemory(config, old(alerts), key, ev.time, trigger.severity);
              && record == r.alert && alerts == old(alerts)[key := r.alert]
              && alertHistory == old(alertHistory) + [Note(key, r.alert.severity, r.suppressed)]
              && told == (if r.suppressed then [] else [Event(AlertEvents, OfAlert(key), r.kind, ev.id, ev.time)])
              && outbox == old(outbox) + told
    {
      var key := AlertKey(id, trigger.kind);
      var suppressed, kind := false, AlertCreated;
      if key in alerts {
        var was := alerts[key];
        var severity := MaxRisk(was.severity, trigger.severity);
        var changed := severity != was.severity || !was.active;
        suppressed := !changed && was.notified.Some? && ev.time - was.notified.value < config.cooldown;
        record := was.(severity := severity, active := true, last := Later(was.last, ev.time),
                       notified := if suppressed then was.notified else Some(ev.time),
                       occurrences := was.occurrences + 1, version := was.version + 1);
        kind := if changed then AlertSeverityChanged else AlertRefreshed;
      } else {
        record := NewAlert(key, ev.time, trigger.severity);
      }
      alerts := alerts[key := record];
      alertHistory := alertHistory + [Note(key, record.severity, suppressed)];
      told := [];
      if !suppressed {
        told := [Event(AlertEvents, OfAlert(key), kind, ev.id, ev.time)];
        outbox := outbox + told;
      }
    }

    /** Goes through the triggers in order. */
    method RaiseEach(
        id: CampaignId, ev: Evidence, triggers: seq<Trigger>) returns (records: seq<Alert>, told: seq<Event>)
      modifies this`alerts, this`alertHistory, this`outbox
      ensures var alarm := SoundInMemory(config, old(alerts), id, ev, triggers);
              && alerts == alarm.alerts && records == alarm.records && told == alarm.events
              && alertHistory == old(alertHistory) + alarm.notes && outbox == old(outbox) + alarm.events
    {
      records, told := [], [];
      for i := 0 to |triggers|
        invariant var alarm := SoundInMemory(config, old(alerts), id, ev, triggers[..i]);
                  && alerts == alarm.alerts && records == alarm.records && told == alarm.events
                  && alertHistory == old(alertHistory) + alarm.notes && outbox == old(outbox) + alarm.events
      {
        assert triggers[..i + 1][..i] == triggers[..i];
        var record, events := Raise(id, ev, triggers[i]);
        records, told := records + [record], told + events;
      }
      assert triggers[..|triggers|] == triggers;
    }

    method Apply(ev: Evidence) returns (result: Result<Update, StoreError>)
      modifies this
      ensures State() == ApplyInMemory(config, old(State()), ev).state
      ensures result == ApplyInMemory(config, old(State()), ev).result
    {
      var key := SeriesOf(ev);
      var existing := if key in campaigns then Some(campaigns[key]) else None;
      if ev.id in evidenceIds {
        if existing.None? {
          return Failure(DuplicateWithoutCampaign);
        }
        return Success(Update(existing.value, [], true, false, []));
      }
      evidenceIds := evidenceIds + {ev.id};
      if existing.Some? && ev.time - existing.value.last > config.mergeGap {
        existing := None;
      }
      var assessed := Assess(if existing.Some? then existing.value.stage else Quiet, ev.score);
      if assessed.Failure? {
        return Failure(Policy(assessed.error));
      }
      if existing.Some? && IsStale(existing.value, ev) {
        return Success(Update(existing.value, [], false, true, []));
      }
      result := Commit(ev, existing, assessed.value);
    }

    /** Stores the campaign, reports its opening or stage change, and raises the alerts. */
    method Commit(ev: Evidence, existing: Option<Campaign>, a: Assessment) returns (result: Result<Update, StoreError>)
      modifies this
      ensures State() == CommitInMemory(config, old(State()), ev, existing, a).state
      ensures result == CommitInMemory(config, old(State()), ev, existing, a).result
    {
      var campaign, kind := Opened(ev, a), CampaignCreated;
      if existing.Some? {
        campaign, kind := Advanced(existing.value, ev, a), CampaignStageChanged;
        if campaign.stage != existing.value.stage {
          stageHistory := stageHistory + [StageChange(campaign.id, existing.value.stage, campaign.stage)];
        }
      }
      campaigns := campaigns[SeriesOf(ev) := campaign];
      var emitted := [];
      if existing.None? || campaign.stage != existing.value.stage {
        emitted := [CampaignEvent(campaign.id, kind, ev)];
        outbox := outbox + emitted;
      }
      var records, told := RaiseEach(campaign.id, ev, a.alerts);
      return Success(Update(campaign, records, false, false, emitted + told));
    }
  }

  /** What a call to the relational repository comes to, given the answers of the advisory lock. */
  function ApplyLocked(cfg: Config, st: Tables, ev: Evidence, retries: nat, lock: nat -> bool): TablesOutcome {
    if exists i :: 0 <= i <= retries && lock(i) then ApplyInTables(cfg, st, ev)
    else TablesOutcome(st, Failure(LockTimeout))
  }

  class SqlCampaignRepository {
    const config: Config
    const retries: nat
    var rows: seq<Campaign>
    var evidence: map<string, CampaignId>
    var alerts: map<AlertKey, Alert>
    var stageHistory: seq<StageRow>
    var alertHistory: seq<Note>
    var outbox: seq<Event>

    ghost function State(): Tables
      reads this
    {
      Tables(rows, evidence, alerts, stageHistory, alertHistory, outbox)
    }

    constructor (cfg: Config, lockRetries: nat)
      ensures State() == EMPTY_TABLES && config == cfg && retries == lockRetries
    {
      config, retries := cfg, lockRetries;
      rows, evidence, alerts, stageHistory, alertHistory, outbox := [], map[], map[], [], [], [];
    }

    /** Tries the advisory lock once and then again for each retry allowed. */
    method Acquire(lock: nat -> bool) returns (acquired: bool, attempts: nat)
      ensures acquired <==> exists i :: 0 <= i <= retries && lock(i)
      ensures 1 <= attempts <= retries + 1 && (forall i :: 0 <= i < attempts - 1 ==> !lock(i))
      ensures acquired ==> lock(attempts - 1)
    {
      acquired, attempts := false, 0;
      while attempts < retries + 1 && !acquired
        invariant attempts <= retries + 1 && (acquired ==> attempts > 0)
        invariant forall i :: 0 <= i < attempts - 1 ==> !lock(i)
        invariant attempts > 0 ==> acquired == lock(attempts - 1)
      {
        acquired := lock(attempts);
        attempts := attempts + 1;
      }
    }

    method Upsert(id: CampaignId, ev: Evidence, trigger: Trigger) returns (record: Alert, told: seq<Event>)
      modifies this`alerts, this`alertHistory
      ensures var key := AlertKey(id, trigger.kind);
              var r := RaiseInRow(config, old(alerts), key, ev.time, trigger.severity);
              && record == r.alert && alerts == old(alerts)[key := r.alert]
              && alertHistory == old(alertHistory) + [Note(key, r.alert.severity, r.suppressed)]
              && told == (if r.suppressed then [] else [Event(AlertEvents, OfAlert(key), r.kind, ev.id, ev.time)])
    {
      var key := AlertKey(id, trigger.kind);
      var suppressed, kind := false, AlertCreated;
      if key !in alerts {
        record := NewAlert(key, ev.time, trigger.severity);
      } else {
        record := alerts[key];
        var oldSeverity, oldActive := record.severity, record.active;
        record := record.(last := Later(record.last, ev.time), occurrences := record.occurrences + 1, active := true,
                          severity := MaxRisk(record.severity, trigger.severity), version := record.version + 1);
        var changed := record.severity != oldSeverity || record.active != oldActive;
        suppressed := !changed && record.notified.Some? && ev.time - record.notified.value < config.cooldown;
        kind := if changed then AlertSeverityChanged else AlertRefreshed;
        if !suppressed {
          record := record.(notified := Some(ev.time));
        }
      }
      alerts := alerts[key := record];
      alertHistory := alertHistory + [Note(key, record.severity, suppressed)];
      told := if suppressed then [] else [Event(AlertEvents, OfAlert(key), kind, ev.id, ev.time)];
    }

    method UpsertEach(
        id: CampaignId, ev: Evidence, triggers: seq<Trigger>) returns (records: seq<Alert>, told: seq<Event>)
      modifies this`alerts, this`alertHistory, this`outbox
      ensures var alarm := SoundInRows(config, old(alerts), id, ev, triggers);
              && alerts == alarm.alerts && records == alarm.records && told == alarm.events
              && alertHistory == old(alertHistory) + alarm.notes && outbox == old(outbox) + alarm.events
    {
      records, told := [], [];
      for i := 0 to |triggers|
        invariant var alarm := SoundInRows(config, old(alerts), id, ev, triggers[..i]);
                  && alerts == alarm.alerts && records == alarm.records && told == alarm.events
                  && alertHistory == old(alertHistory) + alarm.notes && outbox == old(outbox) + alarm.events
      {
        assert triggers[..i + 1][..i] == triggers[..i];
        var record, events := Upsert(id, ev, triggers[i]);
        records, told, outbox := records + [record], told + events, outbox + events;
      }
      assert triggers[..|triggers|] == triggers;
    }

    /** One transaction: waits for the lock, then applies the evidence or gives up without a trace. */
    method Apply(ev: Evidence, lock: nat -> bool) returns (result: Result<Update, StoreError>)
      modifies this
      ensures State() == ApplyLocked(config, old(State()), ev, retries, lock).state
      ensures result == ApplyLocked(config, old(State()), ev, retries, lock).result
    {
      var acquired, _ := Acquire(lock);
      if !acquired {
        return Failure(LockTimeout);
      }
      if ev.id in evidence {
        var row := RowOf(rows, evidence[ev.id]);
        if row.None? {
          return Failure(MissingCampaign);
        }
        return Success(Update(row.value, [], true, false, []));
      }
      var at := ActiveRow(rows, SeriesOf(ev));
      if at.Some? && IsStale(rows[at.value], ev) {
        evidence := evidence[ev.id := rows[at.value].id];
        return Success(Update(rows[at.value], [], false, true, []));
      }
      var emitted := [];
      if at.Some? && ev.time - rows[at.value].last > config.mergeGap {
        // The policy never raises here; if it did, the transaction would be rolled back.
        AssessSucceeds(Quiet, ev.score);
        rows := rows[at.value := Closed(rows[at.value])];
        emitted := [CampaignEvent(rows[at.value].id, CampaignClosed, ev)];
        outbox := outbox + emitted;
        at := None;
      }
      var stage := if at.Some? then rows[at.value].stage else Quiet;
      AssessSucceeds(stage, ev.score);
      result := Commit(ev, at, Assess(stage, ev.score).value, emitted);
    }

    /** Writes the campaign row, its history, the evidence row and the alerts. */
    method Commit(
        ev: Evidence, at: Option<nat>, a: Assessment, closing: seq<Event>) returns (result: Result<Update, StoreError>)
      requires at.Some? ==> at.value < |rows|
      modifies this
      ensures State() == CommitInTables(config, old(State()), ev, at, a, closing).state
      ensures result == CommitInTables(config, old(State()), ev, at, a, closing).result
    {
      var campaign := Opened(ev, a);
      var emitted := [];
      if at.None? {
        rows := rows + [campaign];
        stageHistory := stageHistory + [StageRow(campaign.id, None, a.next)];
        emitted := [CampaignEvent(campaign.id, CampaignCreated, ev)];
      } else {
        var row := rows[at.value];
        var oldStage := row.stage;
        campaign := Advanced(row, ev, a);
        rows := rows[at.value := campaign];
        if a.next != oldStage {
          stageHistory := stageHistory + [StageRow(campaign.id, Some(oldStage), a.next)];
          emitted := [CampaignEvent(campaign.id, CampaignStageChanged, ev)];
        }
      }
      outbox := outbox + emitted;
      evidence := evidence[ev.id := campaign.id];
      var records, told := UpsertEach(campaign.id, ev, a.alerts);
      return Success(Update(campaign, records, false, false, closing + emitted + told));
    }
  }
}
