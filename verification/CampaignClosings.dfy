/** What the relational repository tells of a campaign: its opening, its changes of stage and its closing. */
module CampaignClosings {
  import opened Wrappers
  import opened CampaignPolicy
  import opened CampaignStores
  import opened CampaignLaws
  import opened CampaignRuns
  import opened CampaignTables
  import opened CampaignNews

  ghost predicate Shut(rows: seq<Campaign>, id: CampaignId) {
    exists i :: 0 <= i < |rows| && rows[i].id == id && !rows[i].active
  }

  /** The news due, followed by the closing of a campaign that is closed: by evidence past the merge gap. */
  ghost predicate ToldUntilClosed(cfg: Config, news: seq<News>, applied: seq<Evidence>, shut: bool) {
    if shut
    then var due := NewsDue(applied);
         && applied != [] && |news| == |due| + 1 && news[..|due|] == due && news[|due|].kind == CampaignClosed
         && news[|due|].time - LatestTime(applied) > cfg.mergeGap
    else news == NewsDue(applied)
  }

  datatype Stay = Stay(from: Option<Stage>, to: Stage)

  function StaysOf(history: seq<StageRow>, id: CampaignId): seq<Stay> {
    if history == [] then []
    else
      var h := history[|history| - 1];
      StaysOf(history[..|history| - 1], id) + (if h.id == id then [Stay(h.from, h.to)] else [])
  }

  /** The stage a campaign opens in, and each it moves to. */
  function StaysDue(applied: seq<Evidence>): seq<Stay> {
    if applied == [] then []
    else
      var init := applied[..|applied| - 1];
      StaysDue(init)
      + (if init == [] then [Stay(None, StageThrough(applied))]
         else if StageThrough(applied) != StageThrough(init)
              then [Stay(Some(StageThrough(init)), StageThrough(applied))] else [])
  }

  lemma StaysOneMore(history: seq<StageRow>, h: StageRow, id: CampaignId)
    ensures StaysOf(history + [h], id) == StaysOf(history, id) + (if h.id == id then [Stay(h.from, h.to)] else [])
  {
    assert (history + [h])[..|history|] == history;
  }

  lemma StaysDueOneMore(applied: seq<Evidence>, ev: Evidence)
    ensures var from, to := StageThrough(applied), NextStage(StageThrough(applied), ev.score);
            StaysDue(applied + [ev])
            == StaysDue(applied)
               + (if applied == [] then [Stay(None, to)] else if to != from then [Stay(Some(from), to)] else [])
  {
    assert (applied + [ev])[..|applied|] == applied;
  }

  lemma OneNews(e: Event, id: CampaignId)
    ensures NewsOf([], id) == []
    ensures NewsOf([e], id) == if e.entity == OfCampaign(id) then [News(e.kind, e.evidence, e.time)] else []
  {
    assert [e][..0] == [];
  }

  lemma ToldNews(st: Tables, ev: Evidence, at: Option<nat>, a: Assessment, id: CampaignId)
    requires at.Some? ==> at.value < |st.rows|
    ensures var from := if at.Some? then st.rows[at.value].stage else Quiet;
            var own := id == if at.Some? then st.rows[at.value].id else CampaignId(SeriesOf(ev), ev.id);
            NewsOf(ToldOf(st, ev, at, a), id)
            == if own && at.None? then [News(CampaignCreated, ev.id, ev.time)]
               else if own && a.next != from then [News(CampaignStageChanged, ev.id, ev.time)] else []
  {
    var cid := if at.Some? then st.rows[at.value].id else CampaignId(SeriesOf(ev), ev.id);
    OneNews(CampaignEvent(cid, CampaignCreated, ev), id);
    OneNews(CampaignEvent(cid, CampaignStageChanged, ev), id);
    hide NewsOf;
  }

  lemma NewsAdded(outbox: seq<Event>, told: seq<Event>, alarms: seq<Event>, id: CampaignId)
    requires NewsOf(alarms, id) == []
    ensures NewsOf(outbox + (told + alarms), id) == NewsOf(outbox, id) + NewsOf(told, id)
  {
    hide *;
    NewsSplit(outbox, told + alarms, id);
    NewsSplit(told, alarms, id);
  }

  /** What a commit adds of one campaign to the events and the stage history. */
  lemma CommittingRowNews(
      cfg: Config, st: Tables, ev: Evidence, at: Option<nat>, a: Assessment, closing: seq<Event>, id: CampaignId)
    requires at.Some? ==> at.value < |st.rows|
    ensures var from := if at.Some? then st.rows[at.value].stage else Quiet;
            var own := id == if at.Some? then st.rows[at.value].id else CampaignId(SeriesOf(ev), ev.id);
            NewsOf(CommitInTables(cfg, st, ev, at, a, closing).state.outbox, id)
            == NewsOf(st.outbox, id)
               + (if own && at.None? then [News(CampaignCreated, ev.id, ev.time)]
                  else if own && a.next != from then [News(CampaignStageChanged, ev.id, ev.time)] else [])
  {
    var cid := if at.Some? then st.rows[at.value].id else CampaignId(SeriesOf(ev), ev.id);
    var events := SoundInRows(cfg, st.alerts, cid, ev, a.alerts).events;
    CommitTells(cfg, st, ev, at, a, closing);
    hide CommitInTables, SoundInRows, SoundInMemory, NewsOf, ToldOf;
    SoundAgrees(cfg, st.alerts, cid, ev, a.alerts);
    AlarmsAreNoNews(cfg, st.alerts, cid, ev, a.alerts, id);
    NewsAdded(st.outbox, ToldOf(st, ev, at, a), events, id);
    ToldNews(st, ev, at, a, id);
  }

  lemma CommittingRowStays(
      cfg: Config, st: Tables, ev: Evidence, at: Option<nat>, a: Assessment, closing: seq<Event>, id: CampaignId)
    requires at.Some? ==> at.value < |st.rows|
    ensures var from := if at.Some? then st.rows[at.value].stage else Quiet;
            var own := id == if at.Some? then st.rows[at.value].id else CampaignId(SeriesOf(ev), ev.id);
            StaysOf(CommitInTables(cfg, st, ev, at, a, closing).state.stageHistory, id)
            == StaysOf(st.stageHistory, id)
               + (if own && at.None? then [Stay(None, a.next)]
                  else if own && a.next != from then [Stay(Some(from), a.next)] else [])
  {
    hide SoundInRows;
    if at.None? {
      StaysOneMore(st.stageHistory, StageRow(CampaignId(SeriesOf(ev), ev.id), None, a.next), id);
    } else {
      var c := st.rows[at.value];
      StaysOneMore(st.stageHistory, StageRow(c.id, Some(c.stage), a.next), id);
    }
    assert st.stageHistory + [] == st.stageHistory;
    hide StaysOf;
  }

  ghost predicate RowTold(cfg: Config, st: Tables, applied: seq<Evidence>, id: CampaignId) {
    && ToldUntilClosed(cfg, NewsOf(st.outbox, id), applied, Shut(st.rows, id))
    && StaysOf(st.stageHistory, id) == StaysDue(applied)
  }

  lemma AdvancingShutsNone(rows: seq<Campaign>, at: nat, c: Campaign, id: CampaignId)
    requires at < |rows| && rows[at].active && c.active && c.id == rows[at].id && DistinctRows(rows)
    ensures Shut(rows[at := c], id) <==> Shut(rows, id)
    ensures id == c.id ==> !Shut(rows, id)
  {
    if i :| 0 <= i < |rows| && rows[i].id == id && !rows[i].active {
      assert rows[at := c][i] == rows[i];
    }
  }

  /** A campaign that the evidence continues. */
  lemma ContinuedRowTold(cfg: Config, st: Tables, ev: Evidence, at: nat, applied: seq<Evidence>, id: CampaignId)
    requires at < |st.rows| && st.rows[at].active && DistinctRows(st.rows) && RowTold(cfg, st, applied, id)
    requires id == st.rows[at].id ==> RowTells(st.rows[at], applied)
    requires Assess(st.rows[at].stage, ev.score).Success?
    ensures var a := Assess(st.rows[at].stage, ev.score).value;
            RowTold(cfg, CommitInTables(cfg, st, ev, Some(at), a, []).state,
                    if id == st.rows[at].id then applied + [ev] else applied, id)
  {
    var a := Assess(st.rows[at].stage, ev.score).value;
    var c := Advanced(st.rows[at], ev, a);
    var next := CommitInTables(cfg, st, ev, Some(at), a, []).state;
    CommittingRowNews(cfg, st, ev, Some(at), a, [], id);
    CommittingRowStays(cfg, st, ev, Some(at), a, [], id);
    AdvancingShutsNone(st.rows, at, c, id);
    assert next.rows == st.rows[at := c];
    hide CommitInTables, NewsOf, StaysOf, NewsDue, StaysDue, Shut, DistinctRows;
    if id == st.rows[at].id {
      assert applied != [] && st.rows[at].stage == StageThrough(applied);
      assert a.next == NextStage(st.rows[at].stage, ev.score);
      hide RowTells, Assess, StageThrough, NextStage, LatestTime;
      DueOneMore(applied, ev);
      StaysDueOneMore(applied, ev);
    } else {
      assert NewsOf(st.outbox, id) + [] == NewsOf(st.outbox, id);
      assert StaysOf(st.stageHistory, id) + [] == StaysOf(st.stageHistory, id);
      hide RowTells, Assess, StageThrough, NextStage, LatestTime;
    }
  }

  /** A campaign that is opened, and one of those there are already, when a new one is opened. */
  lemma OpenedRowTold(
      cfg: Config, st: Tables, ev: Evidence, applied: seq<Evidence>, id: CampaignId, closing: seq<Event>)
    requires RowTold(cfg, st, applied, id) && Assess(Quiet, ev.score).Success?
    requires id == CampaignId(SeriesOf(ev), ev.id) ==> applied == [] && !Shut(st.rows, id)
    ensures var a := Assess(Quiet, ev.score).value;
            RowTold(cfg, CommitInTables(cfg, st, ev, None, a, closing).state,
                    if id == CampaignId(SeriesOf(ev), ev.id) then applied + [ev] else applied, id)
  {
    var a := Assess(Quiet, ev.score).value;
    var next := CommitInTables(cfg, st, ev, None, a, closing).state;
    CommittingRowNews(cfg, st, ev, None, a, closing, id);
    CommittingRowStays(cfg, st, ev, None, a, closing, id);
    DueOneMore(applied, ev);
    StaysDueOneMore(applied, ev);
    assert next.rows == st.rows + [Opened(ev, a)];
    hide CommitInTables, NewsOf, StaysOf, NewsDue, StaysDue, StageThrough, NextStage;
    assert Shut(next.rows, id) <==> Shut(st.rows, id) by {
      if i :| 0 <= i < |st.rows| && st.rows[i].id == id && !st.rows[i].active {
        assert next.rows[i] == st.rows[i];
      }
    }
  }

  /** A campaign that is closed, told of with its closing; the others are told of as before. */
  lemma ClosedRowTold(cfg: Config, st: Tables, ev: Evidence, at: nat, applied: seq<Evidence>, id: CampaignId)
    requires at < |st.rows| && st.rows[at].active && DistinctRows(st.rows) && RowTold(cfg, st, applied, id)
    requires GapElapsed(cfg, st.rows[at], ev) && (id == st.rows[at].id ==> RowTells(st.rows[at], applied))
    ensures var closed := CampaignEvent(st.rows[at].id, CampaignClosed, ev);
            RowTold(cfg, st.(rows := st.rows[at := Closed(st.rows[at])], outbox := st.outbox + [closed]), applied, id)
  {
    var closed := CampaignEvent(st.rows[at].id, CampaignClosed, ev);
    var rows := st.rows[at := Closed(st.rows[at])];
    NewsSplit(st.outbox, [closed], id);
    assert [closed][..0] == [] && NewsOf([], id) == [];
    assert NewsOf([closed], id)
           == if id == st.rows[at].id then [News(CampaignClosed, ev.id, ev.time)] else [];
    hide NewsOf, StaysOf, NewsDue, StaysDue;
    if id == st.rows[at].id {
      assert rows[at].id == id && !rows[at].active;
      assert !Shut(st.rows, id);
    } else {
      assert Shut(rows, id) <==> Shut(st.rows, id) by {
        if i :| 0 <= i < |st.rows| && st.rows[i].id == id && !st.rows[i].active {
          assert rows[i] == st.rows[i];
        }
        if i :| 0 <= i < |rows| && rows[i].id == id && !rows[i].active {
          assert rows[i] == st.rows[i];
        }
      }
    }
  }

  /** What one piece of evidence does to the tables: nothing to tell, or one of three commits. */
  lemma StepIs(cfg: Config, st: Tables, ev: Evidence)
    ensures var at, next := ActiveRow(st.rows, SeriesOf(ev)), ApplyInTables(cfg, st, ev).state;
            match AppliesInTables(cfg, st, ev)
            case None =>
              next.rows == st.rows && next.outbox == st.outbox && next.stageHistory == st.stageHistory
            case Some(target) =>
              && ev.id !in st.evidence && Assess(Quiet, ev.score).Success?
              && if at.None?
                 then next == CommitInTables(cfg, st, ev, None, Assess(Quiet, ev.score).value, []).state
                      && target == CampaignId(SeriesOf(ev), ev.id)
                 else if GapElapsed(cfg, st.rows[at.value], ev)
                 then next == CommitInTables(cfg, AfterClosing(st, at.value, ev), ev, None,
                                             Assess(Quiet, ev.score).value, [ClosingOf(st, at.value, ev)]).state
                      && target == CampaignId(SeriesOf(ev), ev.id)
                 else Assess(st.rows[at.value].stage, ev.score).Success?
                      && next == CommitInTables(
                                   cfg, st, ev, at, Assess(st.rows[at.value].stage, ev.score).value, []).state
                      && target == st.rows[at.value].id
  {
    hide CommitInTables;
    AssessSucceeds(Quiet, ev.score);
    var at := ActiveRow(st.rows, SeriesOf(ev));
    if at.Some? {
      AssessSucceeds(st.rows[at.value].stage, ev.score);
    }
  }

  function ClosingOf(st: Tables, at: nat, ev: Evidence): Event
    requires at < |st.rows|
  {
    CampaignEvent(st.rows[at].id, CampaignClosed, ev)
  }

  function AfterClosing(st: Tables, at: nat, ev: Evidence): Tables
    requires at < |st.rows|
  {
    st.(rows := st.rows[at := Closed(st.rows[at])], outbox := st.outbox + [ClosingOf(st, at, ev)])
  }

  /** No evidence has been applied to the campaign, and it is not closed, whatever other row is. */
  ghost predicate Unopened(st: Tables, applied: seq<Evidence>, id: CampaignId) {
    && applied == [] && !Shut(st.rows, id)
    && forall i, c: Campaign :: 0 <= i < |st.rows| && c.id == st.rows[i].id ==> !Shut(st.rows[i := c], id)
  }

  lemma StepTellsRow(cfg: Config, st: Tables, ev: Evidence, applied: seq<Evidence>, id: CampaignId)
    requires RowTold(cfg, st, applied, id) && DistinctRows(st.rows)
    requires forall i :: 0 <= i < |st.rows| && st.rows[i].id == id ==> RowTells(st.rows[i], applied)
    requires ev.id !in st.evidence && id == CampaignId(SeriesOf(ev), ev.id) ==> Unopened(st, applied, id)
    ensures RowTold(cfg, ApplyInTables(cfg, st, ev).state,
                    if AppliesInTables(cfg, st, ev) == Some(id) then applied + [ev] else applied, id)
  {
    hide CommitInTables, ApplyInTables, AppliesInTables, Assess, RowTells, DistinctRows, Shut, Closed, NewsOf, StaysOf;
    var at := ActiveRow(st.rows, SeriesOf(ev));
    StepIs(cfg, st, ev);
    if AppliesInTables(cfg, st, ev).Some? {
      if at.None? {
        OpenedRowTold(cfg, st, ev, applied, id, []);
      } else if GapElapsed(cfg, st.rows[at.value], ev) {
        ClosedRowTold(cfg, st, ev, at.value, applied, id);
        ClosingKeepsId(st.rows[at.value]);
        OpenedRowTold(cfg, AfterClosing(st, at.value, ev), ev, applied, id, [ClosingOf(st, at.value, ev)]);
      } else {
        ContinuedRowTold(cfg, st, ev, at.value, applied, id);
      }
    }
  }

  lemma ClosingKeepsId(c: Campaign)
    ensures Closed(c).id == c.id
  {
  }

  lemma StepRowTold(cfg: Config, init: seq<Evidence>, ev: Evidence, id: CampaignId)
    requires RowTold(cfg, RunInTables(cfg, init), AppliedInTables(cfg, init, id), id)
    ensures RowTold(cfg, RunInTables(cfg, init + [ev]), AppliedInTables(cfg, init + [ev], id), id)
  {
    hide RunInTables, AppliedInTables, AppliesInTables, ApplyInTables, RowTold, RowTells, Unopened;
    var st, applied := RunInTables(cfg, init), AppliedInTables(cfg, init, id);
    AppliedOneMore(cfg, init, ev, id);
    CampaignRowsTell(cfg, init);
    if ev.id !in st.evidence {
      UnopenedIsUntold(cfg, init, ev, id);
    }
    StepTellsRow(cfg, st, ev, applied, id);
  }

  /** No evidence has been applied to a campaign that is yet to be opened, and it has no row. */
  lemma UnopenedIsUntold(cfg: Config, init: seq<Evidence>, ev: Evidence, id: CampaignId)
    requires Rooted(cfg, init) && ev.id !in RunInTables(cfg, init).evidence
    ensures id == CampaignId(SeriesOf(ev), ev.id) ==>
              Unopened(RunInTables(cfg, init), AppliedInTables(cfg, init, id), id)
  {
    var st := RunInTables(cfg, init);
    forall i | 0 <= i < |st.rows| ensures st.rows[i].id.opener != ev.id {
      assert st.rows[i] in st.rows;
    }
  }

  /**
   * Over every run the relational repository tells of a campaign its opening, every change of stage, and, of one
   * that is closed, its closing, once, by evidence past the merge gap; its stage history holds every stage.
   */
  lemma {:induction false} RowNewsIsDue(cfg: Config, evs: seq<Evidence>, id: CampaignId)
    ensures RowTold(cfg, RunInTables(cfg, evs), AppliedInTables(cfg, evs, id), id)
  {
    if evs != [] {
      assert evs == evs[..|evs| - 1] + [evs[|evs| - 1]];
      RowNewsIsDue(cfg, evs[..|evs| - 1], id);
      StepRowTold(cfg, evs[..|evs| - 1], evs[|evs| - 1], id);
    }
  }
}
