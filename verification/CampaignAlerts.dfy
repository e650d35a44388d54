/** What an alert record says of the evidence that raised it. */
module CampaignAlerts {
  import opened Wrappers
  import opened CampaignPolicy
  import opened CampaignStores
  import opened CampaignLaws
  import opened CampaignRuns

  /** With what severity the triggers raise an alert of the kind, if they do. */
  function SeverityIn(triggers: seq<Trigger>, kind: AlertType): Option<Risk> {
    if triggers == [] then None
    else
      var t := triggers[|triggers| - 1];
      if t.kind == kind then Some(t.severity) else SeverityIn(triggers[..|triggers| - 1], kind)
  }

  datatype Raise = Raise(time: int, severity: Risk)

  /** The times and severities with which a campaign's evidence raises an alert of the kind. */
  function Raises(applied: seq<Evidence>, kind: AlertType): seq<Raise> {
    if applied == [] then []
    else
      var ev := applied[|applied| - 1];
      var severity := SeverityIn(Alerts(ev.score), kind);
      Raises(applied[..|applied| - 1], kind) + (if severity.Some? then [Raise(ev.time, severity.value)] else [])
  }

  function WorstOf(raises: seq<Raise>): Risk
    requires raises != []
  {
    if |raises| == 1 then raises[0].severity
    else MaxRisk(WorstOf(raises[..|raises| - 1]), raises[|raises| - 1].severity)
  }

  function LatestOf(raises: seq<Raise>): int
    requires raises != []
  {
    if |raises| == 1 then raises[0].time
    else Later(LatestOf(raises[..|raises| - 1]), raises[|raises| - 1].time)
  }

  /** Every field but the notification time is a summary of the raises; for that one see CampaignRuns.Paced. */
  ghost predicate Summarises(alert: Alert, key: AlertKey, raises: seq<Raise>) {
    && raises != [] && alert.key == key && alert.active
    && alert.occurrences == |raises| && alert.version == |raises|
    && alert.first == raises[0].time && alert.last == LatestOf(raises) && alert.severity == WorstOf(raises)
  }

  ghost predicate TellsAt(alerts: map<AlertKey, Alert>, key: AlertKey, raises: seq<Raise>) {
    if key in alerts then Summarises(alerts[key], key, raises) else raises == []
  }

  lemma RaisingSummarises(
      cfg: Config, alerts: map<AlertKey, Alert>, key: AlertKey, time: int, severity: Risk, raises: seq<Raise>)
    requires if key in alerts then Summarises(alerts[key], key, raises) else raises == []
    ensures Summarises(RaiseInMemory(cfg, alerts, key, time, severity).alert, key, raises + [Raise(time, severity)])
  {
    var more := raises + [Raise(time, severity)];
    assert more[..|raises|] == raises;
  }

  /** Going through distinct triggers raises each alert once, from the record it had before. */
  lemma {:induction false} SoundingRaisesOnce(
      cfg: Config, alerts: map<AlertKey, Alert>, id: CampaignId, ev: Evidence, triggers: seq<Trigger>, key: AlertKey)
    requires DistinctKinds(triggers)
    ensures var after, severity := SoundInMemory(cfg, alerts, id, ev, triggers).alerts, SeverityIn(triggers, key.kind);
            if key.campaign == id && severity.Some?
            then key in after && after[key] == RaiseInMemory(cfg, alerts, key, ev.time, severity.value).alert
            else (key in after <==> key in alerts) && (key in alerts ==> after[key] == alerts[key])
  {
    if triggers != [] {
      var init, t := triggers[..|triggers| - 1], triggers[|triggers| - 1];
      SoundingRaisesOnce(cfg, alerts, id, ev, init, key);
      if t.kind == key.kind {
        NotAmong(init, key.kind);
      }
    }
  }

  lemma {:induction false} NotAmong(triggers: seq<Trigger>, kind: AlertType)
    requires forall t :: t in triggers ==> t.kind != kind
    ensures SeverityIn(triggers, kind) == None
  {
    if triggers != [] {
      assert triggers[|triggers| - 1] in triggers;
      NotAmong(triggers[..|triggers| - 1], kind);
    }
  }

  /** What one piece of evidence does to the alerts. */
  lemma ApplyRaises(cfg: Config, st: Memory, ev: Evidence)
    ensures var target := AppliesTo(cfg, st, ev);
            ApplyInMemory(cfg, st, ev).state.alerts
            == if target.None? then st.alerts
               else SoundInMemory(cfg, st.alerts, target.value, ev, Alerts(ev.score)).alerts
  {
    AssessSucceeds(StageOf(ContinuedIn(cfg, st, ev)), ev.score);
  }

  lemma RaisesOneMore(applied: seq<Evidence>, ev: Evidence, kind: AlertType)
    ensures var severity := SeverityIn(Alerts(ev.score), kind);
            Raises(applied + [ev], kind)
            == if severity.Some? then Raises(applied, kind) + [Raise(ev.time, severity.value)]
               else Raises(applied, kind)
  {
    assert (applied + [ev])[..|applied|] == applied;
  }

  /** Going through the triggers of evidence applied to a campaign keeps its alerts telling, and all others. */
  lemma SoundingTells(
      cfg: Config, alerts: map<AlertKey, Alert>, id: CampaignId, ev: Evidence, key: AlertKey, applied: seq<Evidence>)
    requires TellsAt(alerts, key, Raises(applied, key.kind))
    ensures TellsAt(SoundInMemory(cfg, alerts, id, ev, Alerts(ev.score)).alerts, key,
                    Raises(if id == key.campaign then applied + [ev] else applied, key.kind))
  {
    var severity := SeverityIn(Alerts(ev.score), key.kind);
    AlertsAreDistinct(ev.score);
    RaisesOneMore(applied, ev, key.kind);
    hide Alerts, Summarises, RaiseInMemory;
    SoundingRaisesOnce(cfg, alerts, id, ev, Alerts(ev.score), key);
    if id == key.campaign && severity.Some? {
      RaisingSummarises(cfg, alerts, key, ev.time, severity.value, Raises(applied, key.kind));
    }
  }

  lemma StepTellsAlert(cfg: Config, init: seq<Evidence>, ev: Evidence, key: AlertKey)
    requires TellsAt(RunInMemory(cfg, init).alerts, key, Raises(AppliedTo(cfg, init, key.campaign), key.kind))
    ensures TellsAt(RunInMemory(cfg, init + [ev]).alerts, key,
                    Raises(AppliedTo(cfg, init + [ev], key.campaign), key.kind))
  {
    var st := RunInMemory(cfg, init);
    var target := AppliesTo(cfg, st, ev);
    OneMoreApplied(cfg, init, ev, key.campaign);
    ApplyRaises(cfg, st, ev);
    hide ApplyInMemory, AppliesTo, AppliedTo, RunInMemory;
    if target.Some? {
      SoundingTells(cfg, st.alerts, target.value, ev, key, AppliedTo(cfg, init, key.campaign));
    }
  }

  /**
   * In every reachable state there is an alert exactly for the campaigns and kinds that some applied
   * evidence raised; it counts them, spans their times and has the worst of their severities.
   */
  lemma {:induction false} AlertsTell(cfg: Config, evs: seq<Evidence>, key: AlertKey)
    ensures TellsAt(RunInMemory(cfg, evs).alerts, key, Raises(AppliedTo(cfg, evs, key.campaign), key.kind))
  {
    if evs != [] {
      var init, ev := evs[..|evs| - 1], evs[|evs| - 1];
      assert evs == init + [ev];
      AlertsTell(cfg, init, key);
      StepTellsAlert(cfg, init, ev, key);
    }
  }
}
