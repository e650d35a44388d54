/** Which evidence a campaign takes up, in what order, and what is told of the campaign itself. */
module CampaignNews {
  import opened Wrappers
  import opened CampaignPolicy
  import opened CampaignStores
  import opened CampaignLaws
  import opened CampaignRuns

  // ---------------------------------------------------------------- the order of evaluations

  /** What evaluations are compared by, the most important first. */
  function Marks(ev: Evidence): seq<int> {
    [if ev.score.cutoff.Some? then ev.score.cutoff.value else ev.time, ev.score.featureRevision,
     ev.score.fusionRevision,
     match ev.score.profile case Base => 0 case Graph => 1 case Verification => 2 case GraphAndVerification => 3]
  }

  /** The first mark in which they differ is higher in the later one. */
  ghost predicate Supersedes(later: Evidence, earlier: Evidence) {
    exists p :: 0 <= p < 4 && Marks(later)[..p] == Marks(earlier)[..p] && Marks(later)[p] > Marks(earlier)[p]
  }

  lemma SupersedesIff(later: Evidence, earlier: Evidence)
    ensures Supersedes(later, earlier) <==> !OrderLe(OrderOf(later), OrderOf(earlier))
  {
    var a, b := Marks(later), Marks(earlier);
    assert a[..0] == b[..0];
    assert a[..1] == b[..1] <==> a[0] == b[0];
    assert a[..2] == b[..2] <==> a[0] == b[0] && a[1] == b[1];
    assert a[..3] == b[..3] <==> a[0] == b[0] && a[1] == b[1] && a[2] == b[2];
    if !OrderLe(OrderOf(later), OrderOf(earlier)) {
      var p := if a[0] != b[0] then 0 else if a[1] != b[1] then 1 else if a[2] != b[2] then 2 else 3;
      assert a[..p] == b[..p] && a[p] > b[p];
    }
  }

  /** The gap between the evidence and all that the campaign has taken up exceeds the merge gap. */
  ghost predicate ComesApart(cfg: Config, applied: seq<Evidence>, ev: Evidence) {
    forall e :: e in applied ==> ev.time - e.time > cfg.mergeGap
  }

  lemma {:induction false} LatestTimeIs(applied: seq<Evidence>)
    requires applied != []
    ensures (exists e :: e in applied && e.time == LatestTime(applied))
            && forall e :: e in applied ==> e.time <= LatestTime(applied)
  {
    var n := |applied| - 1;
    assert applied == applied[..n] + [applied[n]] && applied[n] in applied;
    if n > 0 {
      LatestTimeIs(applied[..n]);
      var e :| e in applied[..n] && e.time == LatestTime(applied[..n]);
      assert e in applied;
    }
  }

  lemma LastIsNewest(applied: seq<Evidence>, ev: Evidence)
    requires applied != [] && EverNewer(applied)
    ensures Supersedes(ev, applied[|applied| - 1]) <==> forall e :: e in applied ==> Supersedes(ev, e)
  {
    var last := applied[|applied| - 1];
    if Supersedes(ev, last) {
      forall e | e in applied ensures Supersedes(ev, e) {
        var i :| 0 <= i < |applied| && applied[i] == e;
        SupersedesIff(ev, last);
        SupersedesIff(ev, e);
        assert i < |applied| - 1 ==> !OrderLe(OrderOf(last), OrderOf(applied[i]));
      }
    }
    assert last in applied;
  }

  /**
   * Over every run evidence is taken up exactly if its id is new and either the current campaign of its series has
   * ended by the merge gap, or there is none, and it opens one, or it supersedes all that the campaign has taken up.
   */
  lemma TakenUpIff(cfg: Config, evs: seq<Evidence>, ev: Evidence)
    ensures var st := RunInMemory(cfg, evs);
            var s, target := SeriesOf(ev), AppliesTo(cfg, st, ev);
            && (Offered(evs, ev.id) ==> target == None)
            && (!Offered(evs, ev.id) && s !in st.campaigns ==> target == Some(CampaignId(s, ev.id)))
            && (!Offered(evs, ev.id) && s in st.campaigns ==>
                  var c := st.campaigns[s];
                  var applied := AppliedTo(cfg, evs, c.id);
                  target == if ComesApart(cfg, applied, ev) then Some(CampaignId(s, ev.id))
                            else if forall e :: e in applied ==> Supersedes(ev, e) then Some(c.id) else None)
  {
    var st := RunInMemory(cfg, evs);
    RunHasSeen(cfg, evs);
    CampaignsTell(cfg, evs);
    if SeriesOf(ev) in st.campaigns {
      var c := st.campaigns[SeriesOf(ev)];
      var applied := AppliedTo(cfg, evs, c.id);
      LatestTimeIs(applied);
      LastIsNewest(applied, ev);
      SupersedesIff(ev, applied[|applied| - 1]);
      assert ComesApart(cfg, applied, ev) <==> ev.time - c.last > cfg.mergeGap;
      hide RunInMemory, AppliedTo, Offered, Supersedes, OrderLe, ComesApart, Assess;
    }
  }

  /** And what a campaign has taken up supersedes all it took up before. */
  lemma TakenUpInOrder(cfg: Config, evs: seq<Evidence>, s: Series)
    requires s in RunInMemory(cfg, evs).campaigns
    ensures var applied := AppliedTo(cfg, evs, RunInMemory(cfg, evs).campaigns[s].id);
            forall i, j :: 0 <= i < j < |applied| ==> Supersedes(applied[j], applied[i])
  {
    CampaignsTell(cfg, evs);
    var applied := AppliedTo(cfg, evs, RunInMemory(cfg, evs).campaigns[s].id);
    assert EverNewer(applied);
    hide RunInMemory, AppliedTo;
    forall i, j | 0 <= i < j < |applied| ensures Supersedes(applied[j], applied[i]) {
      SupersedesIff(applied[j], applied[i]);
    }
  }

  // ---------------------------------------------------------------- what is told of a campaign

  datatype News = News(kind: EventType, evidence: string, time: int)
  datatype Move = Move(from: Stage, to: Stage)

  /** The events about a campaign, in order. */
  function NewsOf(outbox: seq<Event>, id: CampaignId): seq<News> {
    if outbox == [] then []
    else
      var e := outbox[|outbox| - 1];
      NewsOf(outbox[..|outbox| - 1], id)
      + (if e.entity == OfCampaign(id) then [News(e.kind, e.evidence, e.time)] else [])
  }

  function MovesOf(history: seq<StageChange>, id: CampaignId): seq<Move> {
    if history == [] then []
    else
      var h := history[|history| - 1];
      MovesOf(history[..|history| - 1], id) + (if h.id == id then [Move(h.from, h.to)] else [])
  }

  /** Its opening, and every piece of evidence that moved it to another stage. */
  function NewsDue(applied: seq<Evidence>): seq<News> {
    if applied == [] then []
    else
      var init, ev := applied[..|applied| - 1], applied[|applied| - 1];
      NewsDue(init)
      + (if init == [] then [News(CampaignCreated, ev.id, ev.time)]
         else if StageThrough(applied) != StageThrough(init) then [News(CampaignStageChanged, ev.id, ev.time)] else [])
  }

  function MovesDue(applied: seq<Evidence>): seq<Move> {
    if |applied| < 2 then []
    else
      var init := applied[..|applied| - 1];
      MovesDue(init)
      + (if StageThrough(applied) != StageThrough(init) then [Move(StageThrough(init), StageThrough(applied))] else [])
  }

  lemma {:induction false} NewsSplit(xs: seq<Event>, ys: seq<Event>, id: CampaignId)
    ensures NewsOf(xs + ys, id) == NewsOf(xs, id) + NewsOf(ys, id)
  {
    if ys == [] {
      assert xs + ys == xs;
    } else {
      assert (xs + ys)[..|xs + ys| - 1] == xs + ys[..|ys| - 1];
      NewsSplit(xs, ys[..|ys| - 1], id);
    }
  }

  lemma MovesOneMore(history: seq<StageChange>, h: StageChange, id: CampaignId)
    ensures MovesOf(history + [h], id) == MovesOf(history, id) + (if h.id == id then [Move(h.from, h.to)] else [])
  {
    assert (history + [h])[..|history|] == history;
  }

  lemma {:induction false} AlarmsAreNoNews(
      cfg: Config, alerts: map<AlertKey, Alert>, id: CampaignId, ev: Evidence, triggers: seq<Trigger>, of: CampaignId)
    ensures NewsOf(SoundInMemory(cfg, alerts, id, ev, triggers).events, of) == []
  {
    if triggers != [] {
      var init, t := triggers[..|triggers| - 1], triggers[|triggers| - 1];
      AlarmsAreNoNews(cfg, alerts, id, ev, init, of);
      var before := SoundInMemory(cfg, alerts, id, ev, init);
      var r := RaiseInMemory(cfg, before.alerts, AlertKey(id, t.kind), ev.time, t.severity);
      hide RaiseInMemory;
      NewsSplit(before.events, [Event(AlertEvents, OfAlert(AlertKey(id, t.kind)), r.kind, ev.id, ev.time)], of);
      assert before.events + [] == before.events;
    }
  }

  /** What one piece of evidence that is taken up adds to the events and moves of a campaign. */
  lemma ApplyingTells(cfg: Config, st: Memory, ev: Evidence, id: CampaignId)
    requires AppliesTo(cfg, st, ev).Some?
    ensures var existing, next := ContinuedIn(cfg, st, ev), ApplyInMemory(cfg, st, ev).state;
            var own := AppliesTo(cfg, st, ev).value == id;
            var from, to := StageOf(existing), NextStage(StageOf(existing), ev.score);
            && NewsOf(next.outbox, id)
               == NewsOf(st.outbox, id)
                  + (if own && existing.None? then [News(CampaignCreated, ev.id, ev.time)]
                     else if own && to != from then [News(CampaignStageChanged, ev.id, ev.time)] else [])
            && MovesOf(next.stageHistory, id)
               == MovesOf(st.stageHistory, id)
                  + (if own && existing.Some? && to != from then [Move(from, to)] else [])
  {
    var existing := ContinuedIn(cfg, st, ev);
    AssessSucceeds(StageOf(existing), ev.score);
    var a := Assess(StageOf(existing), ev.score).value;
    CommittingTells(cfg, st.(seen := st.seen + {ev.id}), ev, existing, a, id);
  }

  lemma CommittingTells(
      cfg: Config, st: Memory, ev: Evidence, existing: Option<Campaign>, a: Assessment, id: CampaignId)
    ensures var next := CommitInMemory(cfg, st, ev, existing, a).state;
            var own := id == if existing.Some? then existing.value.id else CampaignId(SeriesOf(ev), ev.id);
            && NewsOf(next.outbox, id)
               == NewsOf(st.outbox, id)
                  + (if own && existing.None? then [News(CampaignCreated, ev.id, ev.time)]
                     else if own && a.next != StageOf(existing) then [News(CampaignStageChanged, ev.id, ev.time)]
                     else [])
            && MovesOf(next.stageHistory, id)
               == MovesOf(st.stageHistory, id)
                  + (if own && existing.Some? && a.next != StageOf(existing)
                     then [Move(StageOf(existing), a.next)] else [])
  {
    var campaign := if existing.Some? then Advanced(existing.value, ev, a) else Opened(ev, a);
    var kind := if existing.None? then CampaignCreated else CampaignStageChanged;
    var told := if existing.None? || a.next != existing.value.stage then [CampaignEvent(campaign.id, kind, ev)] else [];
    var alarm := SoundInMemory(cfg, st.alerts, campaign.id, ev, a.alerts);
    AlarmsAreNoNews(cfg, st.alerts, campaign.id, ev, a.alerts, id);
    NewsSplit(st.outbox, told, id);
    NewsSplit(st.outbox + told, alarm.events, id);
    assert CommitInMemory(cfg, st, ev, existing, a).state.outbox == st.outbox + told + alarm.events;
    if told != [] {
      assert told[..0] == [] && NewsOf([], id) == [];
    }
    if existing.Some? {
      MovesOneMore(st.stageHistory, StageChange(campaign.id, existing.value.stage, a.next), id);
    }
    assert st.stageHistory + [] == st.stageHistory;
    hide SoundInMemory;
  }

  lemma DueOneMore(applied: seq<Evidence>, ev: Evidence)
    ensures var from, to := StageThrough(applied), NextStage(StageThrough(applied), ev.score);
            && StageThrough(applied + [ev]) == to
            && NewsDue(applied + [ev])
               == NewsDue(applied)
                  + (if applied == [] then [News(CampaignCreated, ev.id, ev.time)]
                     else if to != from then [News(CampaignStageChanged, ev.id, ev.time)] else [])
            && MovesDue(applied + [ev])
               == MovesDue(applied) + (if applied != [] && to != from then [Move(from, to)] else [])
  {
    assert (applied + [ev])[..|applied|] == applied;
  }

  /**
   * Over every run the events about a campaign are its opening and the changes of stage that the stage machine,
   * run over the evidence it took up, makes; and its stage history holds just those changes.
   */
  lemma {:induction false} NewsIsDue(cfg: Config, evs: seq<Evidence>, id: CampaignId)
    ensures var st, applied := RunInMemory(cfg, evs), AppliedTo(cfg, evs, id);
            NewsOf(st.outbox, id) == NewsDue(applied) && MovesOf(st.stageHistory, id) == MovesDue(applied)
  {
    if evs != [] {
      var init, ev := evs[..|evs| - 1], evs[|evs| - 1];
      assert evs == init + [ev];
      NewsIsDue(cfg, init, id);
      StepNews(cfg, init, ev, id);
    }
  }

  lemma StepNews(cfg: Config, init: seq<Evidence>, ev: Evidence, id: CampaignId)
    requires var st, applied := RunInMemory(cfg, init), AppliedTo(cfg, init, id);
             NewsOf(st.outbox, id) == NewsDue(applied) && MovesOf(st.stageHistory, id) == MovesDue(applied)
    ensures var st, applied := RunInMemory(cfg, init + [ev]), AppliedTo(cfg, init + [ev], id);
            NewsOf(st.outbox, id) == NewsDue(applied) && MovesOf(st.stageHistory, id) == MovesDue(applied)
  {
    var st, applied := RunInMemory(cfg, init), AppliedTo(cfg, init, id);
    var target, existing := AppliesTo(cfg, st, ev), ContinuedIn(cfg, st, ev);
    OneMoreApplied(cfg, init, ev, id);
    if target.None? {
      IgnoredTells(cfg, st, ev);
    } else {
      ApplyingTells(cfg, st, ev, id);
      if target.value == id {
        CampaignsTell(cfg, init);
        DueOneMore(applied, ev);
        assert existing.None? ==> applied == [];
        assert existing.Some? ==> applied != [] && existing.value.stage == StageThrough(applied);
      }
    }
    hide RunInMemory, AppliedTo, ApplyInMemory, NewsOf, MovesOf, NewsDue, MovesDue, StageThrough, NextStage;
  }

  lemma IgnoredTells(cfg: Config, st: Memory, ev: Evidence)
    requires AppliesTo(cfg, st, ev).None?
    ensures var next := ApplyInMemory(cfg, st, ev).state;
            next.outbox == st.outbox && next.stageHistory == st.stageHistory
  {
    AssessSucceeds(StageOf(ContinuedIn(cfg, st, ev)), ev.score);
  }

  // ---------------------------------------------------------------- what a call answers

  /** The records answered are the alerts raised, in the order of the triggers, as they are afterwards. */
  ghost predicate RecordsRaised(
      records: seq<Alert>, alerts: map<AlertKey, Alert>, id: CampaignId, triggers: seq<Trigger>) {
    && |records| == |triggers|
    && forall i :: 0 <= i < |triggers| ==>
         AlertKey(id, triggers[i].kind) in alerts && records[i] == alerts[AlertKey(id, triggers[i].kind)]
  }

  lemma {:induction false} AlarmRecords(
      cfg: Config, alerts: map<AlertKey, Alert>, id: CampaignId, ev: Evidence, triggers: seq<Trigger>)
    requires DistinctKinds(triggers)
    ensures var alarm := SoundInMemory(cfg, alerts, id, ev, triggers);
            RecordsRaised(alarm.records, alarm.alerts, id, triggers)
  {
    if triggers != [] {
      var n := |triggers| - 1;
      AlarmRecords(cfg, alerts, id, ev, triggers[..n]);
      var before := SoundInMemory(cfg, alerts, id, ev, triggers[..n]);
      var r := RaiseInMemory(cfg, before.alerts, AlertKey(id, triggers[n].kind), ev.time, triggers[n].severity);
      assert SoundInMemory(cfg, alerts, id, ev, triggers) == Sounded(before, AlertKey(id, triggers[n].kind), ev, r);
      hide SoundInMemory, RaiseInMemory;
      assert forall i :: 0 <= i < n ==> triggers[i].kind != triggers[n].kind;
    }
  }

  /**
   * A call answers with the campaign of the series as it then is, the alerts it raised and the events it added to
   * the outbox; repeated evidence raises nothing, and evidence not taken up is reported as stale.
   */
  lemma UpdateTells(cfg: Config, st: Memory, ev: Evidence)
    requires ApplyInMemory(cfg, st, ev).result.Success?
    ensures var next, u := ApplyInMemory(cfg, st, ev).state, ApplyInMemory(cfg, st, ev).result.value;
            && SeriesOf(ev) in next.campaigns && u.campaign == next.campaigns[SeriesOf(ev)]
            && next.outbox == st.outbox + u.emitted && (u.duplicate <==> ev.id in st.seen)
            && (u.stale <==> ev.id !in st.seen && AppliesTo(cfg, st, ev).None?)
            && (AppliesTo(cfg, st, ev).None? ==> u.alerts == [] && u.emitted == [])
            && (AppliesTo(cfg, st, ev).Some? ==>
                  u.campaign.id == AppliesTo(cfg, st, ev).value
                  && RecordsRaised(u.alerts, next.alerts, u.campaign.id, Alerts(ev.score)))
  {
    var existing := ContinuedIn(cfg, st, ev);
    AssessSucceeds(StageOf(existing), ev.score);
    if AppliesTo(cfg, st, ev).Some? {
      AlertsAreDistinct(ev.score);
      AlarmRecords(cfg, st.alerts, AppliesTo(cfg, st, ev).value, ev, Alerts(ev.score));
      var noted, a := st.(seen := st.seen + {ev.id}), Assess(StageOf(existing), ev.score).value;
      CommitAnswers(cfg, noted, ev, existing, a);
      hide SoundInMemory, RecordsRaised;
    }
  }

  lemma CommitAnswers(cfg: Config, st: Memory, ev: Evidence, existing: Option<Campaign>, a: Assessment)
    ensures var (next, result) :=
              (CommitInMemory(cfg, st, ev, existing, a).state, CommitInMemory(cfg, st, ev, existing, a).result);
            result.Success? && next.outbox == st.outbox + result.value.emitted
  {
    hide SoundInMemory;
  }
}
