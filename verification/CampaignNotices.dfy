/** Which raises of an alert are told, and as what: the notifications of every run, from its raises alone. */
module CampaignNotices {
  import opened Wrappers
  import opened CampaignPolicy
  import opened CampaignStores
  import opened CampaignLaws
  import opened CampaignRuns
  import opened CampaignAlerts
  import opened CampaignTables

  // ---------------------------------------------------------------- what is due, by times and severities

  /** One raise as it is told: the severity the alert then has, and the event sent, if one is. */
  datatype Told = Told(time: int, severity: Risk, kind: Option<EventType>)

  ghost predicate Climbs(earlier: seq<Raise>, r: Raise) {
    forall q :: q in earlier ==> Rank(q.severity) < Rank(r.severity)
  }

  /** The time of the last event sent. */
  function LastSent(told: seq<Told>): Option<int> {
    if told == [] then None
    else if told[|told| - 1].kind.Some? then Some(told[|told| - 1].time) else LastSent(told[..|told| - 1])
  }

  /**
   * The first raise is told, then every raise that is more severe than all before it, and of the others those
   * that come the cooldown or more after the last one told.
   */
  ghost function KindDue(cooldown: int, earlier: seq<Raise>, told: seq<Told>, r: Raise): Option<EventType> {
    if earlier == [] then Some(AlertCreated)
    else if Climbs(earlier, r) then Some(AlertSeverityChanged)
    else if LastSent(told).Some? && r.time - LastSent(told).value < cooldown then None
    else Some(AlertRefreshed)
  }

  ghost function Telling(cooldown: int, raises: seq<Raise>): (told: seq<Told>)
    ensures |told| == |raises|
    ensures raises != [] ==> LastSent(told).Some?
  {
    if raises == [] then []
    else
      var init, r := raises[..|raises| - 1], raises[|raises| - 1];
      var before := Telling(cooldown, init);
      var told := before + [Told(r.time, WorstOf(raises), KindDue(cooldown, init, before, r))];
      assert told[..|told| - 1] == before;
      told
  }

  /** The worst severity is that of one of the raises, and none is worse. */
  lemma {:induction false} WorstIsWorst(raises: seq<Raise>)
    requires raises != []
    ensures exists r :: r in raises && r.severity == WorstOf(raises)
    ensures forall r :: r in raises ==> Rank(r.severity) <= Rank(WorstOf(raises))
  {
    var n := |raises| - 1;
    assert raises == raises[..n] + [raises[n]] && raises[n] in raises;
    if n > 0 {
      WorstIsWorst(raises[..n]);
      var r :| r in raises[..n] && r.severity == WorstOf(raises[..n]);
      assert r in raises;
    }
  }

  // ---------------------------------------------------------------- what is in the outbox and the history

  datatype Notice = Notice(time: int, kind: EventType)

  /** The events about an alert, in order. */
  function Notices(outbox: seq<Event>, key: AlertKey): seq<Notice> {
    if outbox == [] then []
    else
      var e := outbox[|outbox| - 1];
      Notices(outbox[..|outbox| - 1], key) + (if e.entity == OfAlert(key) then [Notice(e.time, e.kind)] else [])
  }

  function Sent(told: seq<Told>): seq<Notice> {
    if told == [] then []
    else
      var t := told[|told| - 1];
      Sent(told[..|told| - 1]) + (match t.kind case None => [] case Some(kind) => [Notice(t.time, kind)])
  }

  function NotesOn(history: seq<Note>, key: AlertKey): seq<Note> {
    if history == [] then []
    else
      var n := history[|history| - 1];
      NotesOn(history[..|history| - 1], key) + (if n.key == key then [n] else [])
  }

  function Noted(told: seq<Told>, key: AlertKey): seq<Note> {
    if told == [] then []
    else
      var t := told[|told| - 1];
      Noted(told[..|told| - 1], key) + [Note(key, t.severity, t.kind.None?)]
  }

  lemma {:induction false} NoticesSplit(xs: seq<Event>, ys: seq<Event>, key: AlertKey)
    ensures Notices(xs + ys, key) == Notices(xs, key) + Notices(ys, key)
  {
    if ys == [] {
      assert xs + ys == xs;
    } else {
      assert (xs + ys)[..|xs + ys| - 1] == xs + ys[..|ys| - 1];
      NoticesSplit(xs, ys[..|ys| - 1], key);
    }
  }

  lemma {:induction false} NotesSplit(xs: seq<Note>, ys: seq<Note>, key: AlertKey)
    ensures NotesOn(xs + ys, key) == NotesOn(xs, key) + NotesOn(ys, key)
  {
    if ys == [] {
      assert xs + ys == xs;
    } else {
      assert (xs + ys)[..|xs + ys| - 1] == xs + ys[..|ys| - 1];
      NotesSplit(xs, ys[..|ys| - 1], key);
    }
  }

  lemma {:induction false} CampaignsAreNoNotices(events: seq<Event>, key: AlertKey)
    requires forall e :: e in events ==> e.entity.OfCampaign?
    ensures Notices(events, key) == []
  {
    if events != [] {
      assert events[|events| - 1] in events;
      CampaignsAreNoNotices(events[..|events| - 1], key);
    }
  }

  // ---------------------------------------------------------------- one raise, one evaluation

  /** The alert as the raises have left it, and when it was last told. */
  ghost predicate StandsAt(cooldown: int, alerts: map<AlertKey, Alert>, key: AlertKey, raises: seq<Raise>) {
    if key in alerts
    then raises != [] && alerts[key].active && alerts[key].severity == WorstOf(raises)
         && alerts[key].notified == LastSent(Telling(cooldown, raises))
    else raises == []
  }

  lemma ClimbsOverWorst(earlier: seq<Raise>, r: Raise)
    requires earlier != []
    ensures WorstOf(earlier + [r]) == MaxRisk(WorstOf(earlier), r.severity)
    ensures Climbs(earlier, r) <==> WorstOf(earlier + [r]) != WorstOf(earlier)
  {
    WorstIsWorst(earlier);
    assert (earlier + [r])[..|earlier|] == earlier;
    var q :| q in earlier && q.severity == WorstOf(earlier);
  }

  lemma TellingOneMore(cooldown: int, earlier: seq<Raise>, r: Raise)
    ensures var before := Telling(cooldown, earlier);
            Telling(cooldown, earlier + [r])
            == before + [Told(r.time, WorstOf(earlier + [r]), KindDue(cooldown, earlier, before, r))]
  {
    assert (earlier + [r])[..|earlier|] == earlier;
  }

  /**
   * Of an alert that is there already nothing is sent exactly if it is active, the raise is no more severe, and it
   * comes less than the cooldown after the last notification. One that was acknowledged is active again, and told of
   * as changed. Both repositories do the same.
   */
  lemma SuppressedIff(cfg: Config, alerts: map<AlertKey, Alert>, key: AlertKey, time: int, severity: Risk)
    requires key in alerts
    ensures var was, r := alerts[key], RaiseInMemory(cfg, alerts, key, time, severity);
            var worse := Rank(severity) > Rank(was.severity);
            && (r.suppressed <==>
                  was.active && !worse && was.notified.Some? && time < was.notified.value + cfg.cooldown)
            && r.kind == (if worse || !was.active then AlertSeverityChanged else AlertRefreshed)
            && r.alert.active && r.alert.severity == (if worse then severity else was.severity)
            && r.alert.notified == (if r.suppressed then was.notified else Some(time))
            && RaiseInRow(cfg, alerts, key, time, severity) == r
  {
  }

  /** Raising an alert once more leaves it as the fold over the raises says, and tells what is due. */
  lemma RaisedAsDue(cfg: Config, alerts: map<AlertKey, Alert>, key: AlertKey, r: Raise, earlier: seq<Raise>)
    requires StandsAt(cfg.cooldown, alerts, key, earlier)
    ensures var raised, all := RaiseInMemory(cfg, alerts, key, r.time, r.severity), earlier + [r];
            var due := KindDue(cfg.cooldown, earlier, Telling(cfg.cooldown, earlier), r);
            && StandsAt(cfg.cooldown, alerts[key := raised.alert], key, all) && raised.alert.severity == WorstOf(all)
            && due == (if raised.suppressed then None else Some(raised.kind))
  {
    var before, all := Telling(cfg.cooldown, earlier), earlier + [r];
    TellingOneMore(cfg.cooldown, earlier, r);
    assert Telling(cfg.cooldown, all)[..|before|] == before;
    if earlier != [] {
      ClimbsOverWorst(earlier, r);
    }
    hide Telling, Climbs;
  }

  /** What going through triggers adds about one alert. */
  lemma {:induction false} SoundingTellsOnce(
      cfg: Config, alerts: map<AlertKey, Alert>, id: CampaignId, ev: Evidence, triggers: seq<Trigger>, key: AlertKey)
    requires DistinctKinds(triggers)
    ensures var alarm, severity := SoundInMemory(cfg, alerts, id, ev, triggers), SeverityIn(triggers, key.kind);
            if key.campaign == id && severity.Some?
            then var r := RaiseInMemory(cfg, alerts, key, ev.time, severity.value);
                 && Notices(alarm.events, key) == (if r.suppressed then [] else [Notice(ev.time, r.kind)])
                 && NotesOn(alarm.notes, key) == [Note(key, r.alert.severity, r.suppressed)]
            else Notices(alarm.events, key) == [] && NotesOn(alarm.notes, key) == []
  {
    if triggers != [] {
      var init, t := triggers[..|triggers| - 1], triggers[|triggers| - 1];
      SoundingTellsOnce(cfg, alerts, id, ev, init, key);
      SoundingRaisesOnce(cfg, alerts, id, ev, init, AlertKey(id, t.kind));
      NotAmong(init, t.kind);
      OneMoreSounded(cfg, alerts, id, ev, init, t, key);
    }
  }

  lemma OneMoreSounded(
      cfg: Config, alerts: map<AlertKey, Alert>, id: CampaignId, ev: Evidence, init: seq<Trigger>, t: Trigger,
      key: AlertKey)
    requires var before, own := SoundInMemory(cfg, alerts, id, ev, init).alerts, AlertKey(id, t.kind);
             (own in before <==> own in alerts) && (own in alerts ==> before[own] == alerts[own])
    ensures var before, after := SoundInMemory(cfg, alerts, id, ev, init),
                                 SoundInMemory(cfg, alerts, id, ev, init + [t]);
            var own := key == AlertKey(id, t.kind);
            var r := RaiseInMemory(cfg, alerts, AlertKey(id, t.kind), ev.time, t.severity);
            && Notices(after.events, key)
               == Notices(before.events, key) + (if own && !r.suppressed then [Notice(ev.time, r.kind)] else [])
            && NotesOn(after.notes, key)
               == NotesOn(before.notes, key) + (if own then [Note(key, r.alert.severity, r.suppressed)] else [])
  {
    var before, own := SoundInMemory(cfg, alerts, id, ev, init), AlertKey(id, t.kind);
    assert (init + [t])[..|init|] == init;
    SoundedTellsOnce(before, own, ev, RaiseInMemory(cfg, before.alerts, own, ev.time, t.severity), key);
  }

  lemma SoundedTellsOnce(a: Alarm, sounded: AlertKey, ev: Evidence, r: Raised, key: AlertKey)
    ensures var next := Sounded(a, sounded, ev, r);
            && Notices(next.events, key)
               == Notices(a.events, key)
                  + (if sounded == key && !r.suppressed then [Notice(ev.time, r.kind)] else [])
            && NotesOn(next.notes, key)
               == NotesOn(a.notes, key) + (if sounded == key then [Note(key, r.alert.severity, r.suppressed)] else [])
  {
    NoticesSplit(a.events, [Event(AlertEvents, OfAlert(sounded), r.kind, ev.id, ev.time)], key);
    NotesSplit(a.notes, [Note(sounded, r.alert.severity, r.suppressed)], key);
    assert a.events + [] == a.events;
  }

  // ---------------------------------------------------------------- runs

  /** Alert, events and history notes of one key, as the fold over its raises says. */
  ghost predicate ToldAt(
      cooldown: int, alerts: map<AlertKey, Alert>, outbox: seq<Event>, history: seq<Note>, key: AlertKey,
      raises: seq<Raise>)
  {
    && StandsAt(cooldown, alerts, key, raises) && Notices(outbox, key) == Sent(Telling(cooldown, raises))
    && NotesOn(history, key) == Noted(Telling(cooldown, raises), key)
  }

  /** One raise more, as it is told. */
  lemma RaiseTells(
      cfg: Config, alerts: map<AlertKey, Alert>, outbox: seq<Event>, history: seq<Note>, key: AlertKey,
      earlier: seq<Raise>, r: Raise, next: map<AlertKey, Alert>, more: seq<Event>, longer: seq<Note>)
    requires ToldAt(cfg.cooldown, alerts, outbox, history, key, earlier)
    requires var raised := RaiseInMemory(cfg, alerts, key, r.time, r.severity);
             && key in next && next[key] == raised.alert
             && Notices(more, key)
                == Notices(outbox, key) + (if raised.suppressed then [] else [Notice(r.time, raised.kind)])
             && NotesOn(longer, key) == NotesOn(history, key) + [Note(key, raised.alert.severity, raised.suppressed)]
    ensures ToldAt(cfg.cooldown, next, more, longer, key, earlier + [r])
  {
    RaisedAsDue(cfg, alerts, key, r, earlier);
    TellingOneMore(cfg.cooldown, earlier, r);
    var before, after := Telling(cfg.cooldown, earlier), Telling(cfg.cooldown, earlier + [r]);
    assert after[..|before|] == before;
    hide Telling, RaiseInMemory, KindDue, WorstOf, Notices, NotesOn, LastSent;
  }

  /** An alert that an evaluation does not raise stays as it was told. */
  lemma SameTells(
      cooldown: int, alerts: map<AlertKey, Alert>, outbox: seq<Event>, history: seq<Note>, key: AlertKey,
      raises: seq<Raise>, next: map<AlertKey, Alert>, more: seq<Event>, longer: seq<Note>)
    requires ToldAt(cooldown, alerts, outbox, history, key, raises)
    requires (key in next <==> key in alerts) && (key in alerts ==> next[key] == alerts[key])
    requires Notices(more, key) == Notices(outbox, key) && NotesOn(longer, key) == NotesOn(history, key)
    ensures ToldAt(cooldown, next, more, longer, key, raises)
  {
  }

  /** One evaluation applied to a campaign, whatever it reports of the campaign itself. */
  lemma EvaluationTells(
      cfg: Config, alerts: map<AlertKey, Alert>, outbox: seq<Event>, history: seq<Note>, id: CampaignId, ev: Evidence,
      news: seq<Event>, key: AlertKey, applied: seq<Evidence>)
    requires ToldAt(cfg.cooldown, alerts, outbox, history, key, Raises(applied, key.kind))
    requires forall e :: e in news ==> e.entity.OfCampaign?
    ensures var alarm := SoundInMemory(cfg, alerts, id, ev, Alerts(ev.score));
            ToldAt(cfg.cooldown, alarm.alerts, outbox + news + alarm.events, history + alarm.notes, key,
                   Raises(if id == key.campaign then applied + [ev] else applied, key.kind))
  {
    var triggers := Alerts(ev.score);
    var alarm := SoundInMemory(cfg, alerts, id, ev, triggers);
    var severity, earlier := SeverityIn(triggers, key.kind), Raises(applied, key.kind);
    AlertsAreDistinct(ev.score);
    RaisesOneMore(applied, ev, key.kind);
    hide *;
    SoundingRaisesOnce(cfg, alerts, id, ev, triggers, key);
    SoundingTellsOnce(cfg, alerts, id, ev, triggers, key);
    CampaignsAreNoNotices(news, key);
    NoticesSplit(outbox, news, key);
    NoticesSplit(outbox + news, alarm.events, key);
    NotesSplit(history, alarm.notes, key);
    var more, longer := outbox + news + alarm.events, history + alarm.notes;
    assert Notices(outbox, key) + [] == Notices(outbox, key) && NotesOn(history, key) + [] == NotesOn(history, key);
    if id == key.campaign && severity.Some? {
      RaiseTells(cfg, alerts, outbox, history, key, earlier, Raise(ev.time, severity.value),
                 alarm.alerts, more, longer);
    } else {
      SameTells(cfg.cooldown, alerts, outbox, history, key, earlier, alarm.alerts, more, longer);
    }
  }

  lemma NothingTold(cooldown: int, key: AlertKey)
    ensures ToldAt(cooldown, map[], [], [], key, [])
  {
  }

  /** What a call leaves in memory, as far as alerts go. */
  lemma ApplyInMemoryAdds(cfg: Config, st: Memory, ev: Evidence) returns (news: seq<Event>)
    ensures forall e :: e in news ==> e.entity.OfCampaign?
    ensures var next, target := ApplyInMemory(cfg, st, ev).state, AppliesTo(cfg, st, ev);
            if target.None?
            then next.alerts == st.alerts && next.outbox == st.outbox && next.alertHistory == st.alertHistory
            else var alarm := SoundInMemory(cfg, st.alerts, target.value, ev, Alerts(ev.score));
                 next.alerts == alarm.alerts && next.outbox == st.outbox + news + alarm.events
                 && next.alertHistory == st.alertHistory + alarm.notes
  {
    var existing := ContinuedIn(cfg, st, ev);
    AssessSucceeds(StageOf(existing), ev.score);
    news := [];
    if AppliesTo(cfg, st, ev).Some? {
      var a := Assess(StageOf(existing), ev.score).value;
      var campaign := if existing.Some? then Advanced(existing.value, ev, a) else Opened(ev, a);
      news := if existing.None? then [CampaignEvent(campaign.id, CampaignCreated, ev)]
              else if campaign.stage != existing.value.stage
                   then [CampaignEvent(campaign.id, CampaignStageChanged, ev)] else [];
    }
  }

  /**
   * Over every run, on time or not, the notifications of an alert are those that are due by the times and
   * severities with which the evidence applied to its campaign raised it; so is what the history notes of it.
   */
  lemma {:induction false} NotificationsAreDue(cfg: Config, evs: seq<Evidence>, key: AlertKey)
    ensures var st := RunInMemory(cfg, evs);
            ToldAt(cfg.cooldown, st.alerts, st.outbox, st.alertHistory, key,
                   Raises(AppliedTo(cfg, evs, key.campaign), key.kind))
  {
    if evs == [] {
      NothingTold(cfg.cooldown, key);
    } else {
      var init, ev := evs[..|evs| - 1], evs[|evs| - 1];
      var st := RunInMemory(cfg, init);
      assert evs == init + [ev];
      NotificationsAreDue(cfg, init, key);
      OneMoreApplied(cfg, init, ev, key.campaign);
      var news := ApplyInMemoryAdds(cfg, st, ev);
      var target := AppliesTo(cfg, st, ev);
      hide RunInMemory, ApplyInMemory, AppliesTo, AppliedTo, ToldAt, SoundInMemory, Alerts, Raises;
      if target.Some? {
        EvaluationTells(cfg, st.alerts, st.outbox, st.alertHistory, target.value, ev, news, key,
                        AppliedTo(cfg, init, key.campaign));
      }
    }
  }

  lemma ApplyInTablesAdds(cfg: Config, st: Tables, ev: Evidence) returns (news: seq<Event>)
    ensures forall e :: e in news ==> e.entity.OfCampaign?
    ensures var next, target := ApplyInTables(cfg, st, ev).state, AppliesInTables(cfg, st, ev);
            if target.None?
            then next.alerts == st.alerts && next.outbox == st.outbox && next.alertHistory == st.alertHistory
            else var alarm := SoundInRows(cfg, st.alerts, target.value, ev, Alerts(ev.score));
                 next.alerts == alarm.alerts && next.outbox == st.outbox + news + alarm.events
                 && next.alertHistory == st.alertHistory + alarm.notes
  {
    var at := ActiveRow(st.rows, SeriesOf(ev));
    AssessSucceeds(Quiet, ev.score);
    news := [];
    if AppliesInTables(cfg, st, ev).Some? {
      if at.None? {
        news := ToldOf(st, ev, None, Assess(Quiet, ev.score).value);
      } else if GapElapsed(cfg, st.rows[at.value], ev) {
        var closed := CampaignEvent(st.rows[at.value].id, CampaignClosed, ev);
        news := [closed] + ToldOf(st, ev, None, Assess(Quiet, ev.score).value);
        assert forall rest :: st.outbox + [closed] + rest == st.outbox + ([closed] + rest);
      } else {
        AssessSucceeds(st.rows[at.value].stage, ev.score);
        news := ToldOf(st, ev, at, Assess(st.rows[at.value].stage, ev.score).value);
      }
    }
  }

  /** The relational repository sends and notes the same of the evidence it applies. */
  lemma {:induction false} RowNotificationsAreDue(cfg: Config, evs: seq<Evidence>, key: AlertKey)
    ensures var st := RunInTables(cfg, evs);
            ToldAt(cfg.cooldown, st.alerts, st.outbox, st.alertHistory, key,
                   Raises(AppliedInTables(cfg, evs, key.campaign), key.kind))
  {
    if evs == [] {
      NothingTold(cfg.cooldown, key);
    } else {
      var init, ev := evs[..|evs| - 1], evs[|evs| - 1];
      var st := RunInTables(cfg, init);
      assert evs == init + [ev];
      RowNotificationsAreDue(cfg, init, key);
      AppliedOneMore(cfg, init, ev, key.campaign);
      var news := ApplyInTablesAdds(cfg, st, ev);
      var target := AppliesInTables(cfg, st, ev);
      hide RunInTables, ApplyInTables, AppliesInTables, AppliedInTables, ToldAt, SoundInMemory, Alerts, Raises;
      if target.Some? {
        SoundAgrees(cfg, st.alerts, target.value, ev, Alerts(ev.score));
        hide SoundInRows;
        EvaluationTells(cfg, st.alerts, st.outbox, st.alertHistory, target.value, ev, news, key,
                        AppliedInTables(cfg, init, key.campaign));
      }
    }
  }
}
