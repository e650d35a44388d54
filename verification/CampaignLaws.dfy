/** The two campaign repositories agree, and where they need not. */
module CampaignLaws {
  import opened Wrappers
  import opened CampaignPolicy
  import opened CampaignStores

  // ---------------------------------------------------------------- alerts

  /** Deciding before or after writing the row makes no difference. */
  lemma {:induction false} SoundAgrees(
      cfg: Config, alerts: map<AlertKey, Alert>, id: CampaignId, ev: Evidence, triggers: seq<Trigger>)
    ensures SoundInRows(cfg, alerts, id, ev, triggers) == SoundInMemory(cfg, alerts, id, ev, triggers)
  {
    if triggers != [] {
      SoundAgrees(cfg, alerts, id, ev, triggers[..|triggers| - 1]);
    }
  }

  // ---------------------------------------------------------------- relating the two states

  function NotClosing(events: seq<Event>): seq<Event> {
    if events == [] then []
    else NotClosing(events[..|events| - 1])
         + (if events[|events| - 1].kind == CampaignClosed then [] else [events[|events| - 1]])
  }

  function Changes(rows: seq<StageRow>): seq<StageChange> {
    if rows == [] then []
    else
      var r := rows[|rows| - 1];
      Changes(rows[..|rows| - 1]) + (match r.from case None => [] case Some(s) => [StageChange(r.id, s, r.to)])
  }

  function ActiveIn(rows: seq<Campaign>, series: Series): Option<Campaign> {
    var at := ActiveRow(rows, series);
    if at.Some? then Some(rows[at.value]) else None
  }

  function CampaignOf(st: Memory, series: Series): Option<Campaign> {
    if series in st.campaigns then Some(st.campaigns[series]) else None
  }

  /** Same active campaign in every series, same alerts, same evidence, same histories and events. */
  ghost predicate Simulates(mem: Memory, sql: Tables) {
    && (forall s :: CampaignOf(mem, s) == ActiveIn(sql.rows, s))
    && mem.alerts == sql.alerts
    && mem.seen == sql.evidence.Keys
    && mem.alertHistory == sql.alertHistory
    && mem.stageHistory == Changes(sql.stageHistory)
    && mem.outbox == NotClosing(sql.outbox)
  }

  ghost predicate OneActive(rows: seq<Campaign>) {
    forall i, j :: 0 <= i < j < |rows| && rows[i].active && rows[j].active ==> rows[i].id.series != rows[j].id.series
  }

  lemma {:induction false} NotClosingSplits(xs: seq<Event>, ys: seq<Event>)
    ensures NotClosing(xs + ys) == NotClosing(xs) + NotClosing(ys)
  {
    if ys == [] {
      assert xs + ys == xs;
    } else {
      assert (xs + ys)[..|xs + ys| - 1] == xs + ys[..|ys| - 1];
      NotClosingSplits(xs, ys[..|ys| - 1]);
    }
  }

  lemma {:induction false} NothingClosing(xs: seq<Event>)
    requires forall e :: e in xs ==> e.kind != CampaignClosed
    ensures NotClosing(xs) == xs
  {
    if xs != [] {
      assert xs[|xs| - 1] in xs;
      NothingClosing(xs[..|xs| - 1]);
    }
  }

  lemma {:induction false} AlarmsCloseNothing(
      cfg: Config, alerts: map<AlertKey, Alert>, id: CampaignId, ev: Evidence, triggers: seq<Trigger>)
    ensures forall e :: e in SoundInMemory(cfg, alerts, id, ev, triggers).events ==> e.kind != CampaignClosed
  {
    if triggers != [] {
      AlarmsCloseNothing(cfg, alerts, id, ev, triggers[..|triggers| - 1]);
    }
  }

  lemma {:induction false} ActiveRowIs(rows: seq<Campaign>, i: nat)
    requires OneActive(rows) && i < |rows| && rows[i].active
    ensures ActiveRow(rows, rows[i].id.series) == Some(i)
  {
    assert rows[i] in rows;
  }

  /** Replacing the active row by one of the same series leaves the other series alone. */
  lemma ReplacingActive(rows: seq<Campaign>, i: nat, c: Campaign, s: Series)
    requires OneActive(rows) && i < |rows| && rows[i].active && c.id == rows[i].id
    ensures OneActive(rows[i := c])
    ensures s != c.id.series ==> ActiveIn(rows[i := c], s) == ActiveIn(rows, s)
    ensures s == c.id.series ==> ActiveIn(rows[i := c], s) == if c.active then Some(c) else None
  {
    var next := rows[i := c];
    var here, there := ActiveRow(rows, s), ActiveRow(next, s);
    if s != c.id.series {
      if here.Some? {
        assert next[here.value] == rows[here.value];
        ActiveRowIs(next, here.value);
      }
    } else if c.active {
      ActiveRowIs(next, i);
    }
  }

  lemma AddingActive(rows: seq<Campaign>, c: Campaign, s: Series)
    requires OneActive(rows) && c.active && ActiveIn(rows, c.id.series).None?
    ensures OneActive(rows + [c])
    ensures ActiveIn(rows + [c], s) == if s == c.id.series then Some(c) else ActiveIn(rows, s)
  {
    assert (rows + [c])[..|rows|] == rows;
    forall i | 0 <= i < |rows| && rows[i].active ensures rows[i].id.series != c.id.series {
      assert rows[i] in rows;
    }
  }

  // ---------------------------------------------------------------- one step

  /** Committing the same assessment against the same current campaign keeps the stores in step. */
  lemma {:induction false} CommitsAgree(
      cfg: Config, mem: Memory, sql: Tables, ev: Evidence, at: Option<nat>, a: Assessment, closing: seq<Event>)
    requires OneActive(sql.rows) && at == ActiveRow(sql.rows, SeriesOf(ev))
    requires mem.alerts == sql.alerts && mem.alertHistory == sql.alertHistory
    requires mem.stageHistory == Changes(sql.stageHistory) && mem.outbox == NotClosing(sql.outbox)
    requires mem.seen == sql.evidence.Keys + {ev.id}
    requires forall s :: s != SeriesOf(ev) ==> CampaignOf(mem, s) == ActiveIn(sql.rows, s)
    ensures var existing := ActiveIn(sql.rows, SeriesOf(ev));
            Simulates(CommitInMemory(cfg, mem, ev, existing, a).state,
                      CommitInTables(cfg, sql, ev, at, a, closing).state)
    ensures OneActive(CommitInTables(cfg, sql, ev, at, a, closing).state.rows)
  {
    var existing := ActiveIn(sql.rows, SeriesOf(ev));
    var m, t := CommitInMemory(cfg, mem, ev, existing, a).state, CommitInTables(cfg, sql, ev, at, a, closing).state;
    var campaign := if existing.Some? then Advanced(existing.value, ev, a) else Opened(ev, a);
    SoundAgrees(cfg, sql.alerts, campaign.id, ev, a.alerts);
    var alarm := SoundInMemory(cfg, sql.alerts, campaign.id, ev, a.alerts);
    AlarmsCloseNothing(cfg, sql.alerts, campaign.id, ev, a.alerts);
    OutboxStaysSame(cfg, mem, sql, ev, at, a, closing);
    forall s ensures CampaignOf(m, s) == ActiveIn(t.rows, s) {
      if at.Some? {
        ReplacingActive(sql.rows, at.value, campaign, s);
      } else {
        AddingActive(sql.rows, campaign, s);
      }
    }
    if at.Some? {
      ReplacingActive(sql.rows, at.value, campaign, SeriesOf(ev));
    } else {
      AddingActive(sql.rows, campaign, SeriesOf(ev));
    }
    StageHistoryStaysSame(cfg, mem, sql, ev, at, a, closing);
  }

  lemma OutboxStaysSame(
      cfg: Config, mem: Memory, sql: Tables, ev: Evidence, at: Option<nat>, a: Assessment, closing: seq<Event>)
    requires at == ActiveRow(sql.rows, SeriesOf(ev)) && mem.alerts == sql.alerts && mem.outbox == NotClosing(sql.outbox)
    ensures var existing := ActiveIn(sql.rows, SeriesOf(ev));
            CommitInMemory(cfg, mem, ev, existing, a).state.outbox
            == NotClosing(CommitInTables(cfg, sql, ev, at, a, closing).state.outbox)
  {
    var existing := ActiveIn(sql.rows, SeriesOf(ev));
    var campaign := if existing.Some? then Advanced(existing.value, ev, a) else Opened(ev, a);
    SoundAgrees(cfg, sql.alerts, campaign.id, ev, a.alerts);
    AlarmsCloseNothing(cfg, sql.alerts, campaign.id, ev, a.alerts);
    var alarm := SoundInMemory(cfg, sql.alerts, campaign.id, ev, a.alerts);
    var told := CommitInMemory(cfg, mem, ev, existing, a).result.value.emitted;
    var mine := told[..|told| - |alarm.events|];
    assert told == mine + alarm.events;
    assert |mine| <= 1;
    NothingClosing(mine);
    NothingClosing(alarm.events);
    NotClosingSplits(sql.outbox, mine);
    NotClosingSplits(sql.outbox + mine, alarm.events);
  }

  lemma StageHistoryStaysSame(
      cfg: Config, mem: Memory, sql: Tables, ev: Evidence, at: Option<nat>, a: Assessment, closing: seq<Event>)
    requires at == ActiveRow(sql.rows, SeriesOf(ev)) && mem.stageHistory == Changes(sql.stageHistory)
    ensures var existing := ActiveIn(sql.rows, SeriesOf(ev));
            CommitInMemory(cfg, mem, ev, existing, a).state.stageHistory
            == Changes(CommitInTables(cfg, sql, ev, at, a, closing).state.stageHistory)
  {
    var t := CommitInTables(cfg, sql, ev, at, a, closing).state;
    if |t.stageHistory| > |sql.stageHistory| {
      assert t.stageHistory[..|t.stageHistory| - 1] == sql.stageHistory;
    } else {
      assert t.stageHistory == sql.stageHistory;
    }
  }

  /** The evidence arrives after the gap and yet is no newer than what the campaign has applied. */
  predicate Torn(cfg: Config, sql: Tables, ev: Evidence) {
    var c := ActiveIn(sql.rows, SeriesOf(ev));
    c.Some? && IsStale(c.value, ev) && GapElapsed(cfg, c.value, ev)
  }

  /** Identities of campaigns come from evidence already stored. */
  ghost predicate OpenersStored(sql: Tables) {
    forall c :: c in sql.rows ==> c.id.opener in sql.evidence
  }

  ghost predicate InStep(mem: Memory, sql: Tables) {
    Simulates(mem, sql) && OneActive(sql.rows) && OpenersStored(sql)
  }

  lemma StepKeepsStores(cfg: Config, mem: Memory, sql: Tables, ev: Evidence)
    requires InStep(mem, sql) && !(ev.id !in sql.evidence && Torn(cfg, sql, ev))
    ensures InStep(ApplyInMemory(cfg, mem, ev).state, ApplyInTables(cfg, sql, ev).state)
  {
    if ev.id !in sql.evidence {
      var s := SeriesOf(ev);
      var at, c := ActiveRow(sql.rows, s), ActiveIn(sql.rows, s);
      assert c == CampaignOf(mem, s) == CurrentIn(mem, ev);
      var noted := mem.(seen := mem.seen + {ev.id});
      var existing := ContinuedIn(cfg, mem, ev);
      AssessSucceeds(StageOf(existing), ev.score);
      var a := Assess(StageOf(existing), ev.score).value;
      if at.Some? && IsStale(c.value, ev) {
        assert sql.rows[at.value] in sql.rows;
      } else if at.Some? && GapElapsed(cfg, c.value, ev) {
        var closed := CampaignEvent(c.value.id, CampaignClosed, ev);
        var shut := sql.(rows := sql.rows[at.value := Closed(c.value)], outbox := sql.outbox + [closed]);
        ClosingKeeps(sql, at.value, closed);
        CommitsAgree(cfg, noted, shut, ev, None, a, [closed]);
        CommitKeepsOpeners(cfg, shut, ev, None, a, [closed]);
      } else {
        CommitsAgree(cfg, noted, sql, ev, at, a, []);
        CommitKeepsOpeners(cfg, sql, ev, at, a, []);
      }
    }
  }

  lemma ClosingKeeps(sql: Tables, i: nat, closed: Event)
    requires OneActive(sql.rows) && OpenersStored(sql) && i < |sql.rows| && sql.rows[i].active
            && closed.kind == CampaignClosed
    ensures var rows, series := sql.rows[i := Closed(sql.rows[i])], sql.rows[i].id.series;
            && OneActive(rows) && ActiveRow(rows, series) == None
            && OpenersStored(sql.(rows := rows, outbox := sql.outbox + [closed]))
            && (forall s :: s != series ==> ActiveIn(rows, s) == ActiveIn(sql.rows, s))
    ensures NotClosing(sql.outbox + [closed]) == NotClosing(sql.outbox)
  {
    var rows := sql.rows[i := Closed(sql.rows[i])];
    forall s ensures s != sql.rows[i].id.series ==> ActiveIn(rows, s) == ActiveIn(sql.rows, s) {
      ReplacingActive(sql.rows, i, Closed(sql.rows[i]), s);
    }
    ReplacingActive(sql.rows, i, Closed(sql.rows[i]), sql.rows[i].id.series);
    assert (sql.outbox + [closed])[..|sql.outbox|] == sql.outbox;
    assert sql.rows[i] in sql.rows;
  }

  lemma CommitKeepsOpeners(cfg: Config, sql: Tables, ev: Evidence, at: Option<nat>, a: Assessment, closing: seq<Event>)
    requires OpenersStored(sql) && (at.Some? ==> at.value < |sql.rows|)
    ensures OpenersStored(CommitInTables(cfg, sql, ev, at, a, closing).state)
  {
    var t := CommitInTables(cfg, sql, ev, at, a, closing).state;
    forall c | c in t.rows ensures c.id.opener in t.evidence {
      var i :| 0 <= i < |t.rows| && t.rows[i] == c;
      if i < |sql.rows| {
        assert sql.rows[i] in sql.rows;
      }
    }
  }

  /** On torn evidence the two stores part: one opens a campaign where the other ignores the evidence. */
  lemma TornEvidenceParts(cfg: Config, mem: Memory, sql: Tables, ev: Evidence)
    requires InStep(mem, sql) && ev.id !in sql.evidence && Torn(cfg, sql, ev)
    ensures !Simulates(ApplyInMemory(cfg, mem, ev).state, ApplyInTables(cfg, sql, ev).state)
  {
    var s := SeriesOf(ev);
    var at := ActiveRow(sql.rows, s);
    assert CampaignOf(mem, s) == ActiveIn(sql.rows, s);
    AssessSucceeds(Quiet, ev.score);
    var m := ApplyInMemory(cfg, mem, ev).state;
    assert CampaignOf(m, s).value.id.opener == ev.id;
    assert sql.rows[at.value] in sql.rows;
  }

  /** From states in step, one piece of new evidence keeps them in step exactly when it is not torn. */
  lemma InStepIffNotTorn(cfg: Config, mem: Memory, sql: Tables, ev: Evidence)
    requires InStep(mem, sql) && ev.id !in sql.evidence
    ensures InStep(ApplyInMemory(cfg, mem, ev).state, ApplyInTables(cfg, sql, ev).state) <==> !Torn(cfg, sql, ev)
  {
    if Torn(cfg, sql, ev) {
      TornEvidenceParts(cfg, mem, sql, ev);
    } else {
      StepKeepsStores(cfg, mem, sql, ev);
    }
  }

  // ---------------------------------------------------------------- whole runs

  function RunInMemory(cfg: Config, evs: seq<Evidence>): Memory {
    if evs == [] then EMPTY_MEMORY
    else ApplyInMemory(cfg, RunInMemory(cfg, evs[..|evs| - 1]), evs[|evs| - 1]).state
  }

  function RunInTables(cfg: Config, evs: seq<Evidence>): Tables {
    if evs == [] then EMPTY_TABLES
    else ApplyInTables(cfg, RunInTables(cfg, evs[..|evs| - 1]), evs[|evs| - 1]).state
  }

  /** The evidence cutoff is the event time, as fusion scores events. */
  predicate OnTime(ev: Evidence) {
    ev.score.cutoff.GetOr(ev.time) == ev.time
  }

  ghost predicate AllOnTime(evs: seq<Evidence>) {
    forall ev :: ev in evs ==> OnTime(ev)
  }

  ghost predicate CutoffsAreLast(st: Memory) {
    forall s :: s in st.campaigns ==>
      && st.campaigns[s].id.series == s
      && st.campaigns[s].applied.Some? && st.campaigns[s].applied.value.cutoff == st.campaigns[s].last
  }

  lemma ApplyKeepsCutoffs(cfg: Config, st: Memory, ev: Evidence)
    requires CutoffsAreLast(st) && OnTime(ev)
    ensures CutoffsAreLast(ApplyInMemory(cfg, st, ev).state)
  {
    AssessSucceeds(StageOf(ContinuedIn(cfg, st, ev)), ev.score);
  }

  lemma {:induction false} CutoffsStayLast(cfg: Config, evs: seq<Evidence>)
    requires AllOnTime(evs)
    ensures CutoffsAreLast(RunInMemory(cfg, evs))
  {
    if evs != [] {
      assert evs[|evs| - 1] in evs;
      assert AllOnTime(evs[..|evs| - 1]);
      CutoffsStayLast(cfg, evs[..|evs| - 1]);
      ApplyKeepsCutoffs(cfg, RunInMemory(cfg, evs[..|evs| - 1]), evs[|evs| - 1]);
    }
  }

  /**
   * For evidence whose cutoff is its event time the in-memory repository simulates the relational one
   * through every run, although the two test staleness and the merge gap in opposite order.
   */
  lemma {:induction false} MemorySimulatesTables(cfg: Config, evs: seq<Evidence>)
    requires cfg.mergeGap >= 0 && AllOnTime(evs)
    ensures InStep(RunInMemory(cfg, evs), RunInTables(cfg, evs))
  {
    if evs != [] {
      var init, ev := evs[..|evs| - 1], evs[|evs| - 1];
      assert ev in evs && AllOnTime(init);
      MemorySimulatesTables(cfg, init);
      CutoffsStayLast(cfg, init);
      var mem, sql := RunInMemory(cfg, init), RunInTables(cfg, init);
      assert CampaignOf(mem, SeriesOf(ev)) == ActiveIn(sql.rows, SeriesOf(ev));
      assert !Torn(cfg, sql, ev);
      StepKeepsStores(cfg, mem, sql, ev);
    } else {
      assert forall s :: ActiveIn([], s) == None;
    }
  }

  lemma {:induction false} RunsOfTwo(cfg: Config, a: Evidence, b: Evidence)
    ensures RunInMemory(cfg, [a, b]) == ApplyInMemory(cfg, ApplyInMemory(cfg, EMPTY_MEMORY, a).state, b).state
    ensures RunInTables(cfg, [a, b]) == ApplyInTables(cfg, ApplyInTables(cfg, EMPTY_TABLES, a).state, b).state
  {
    assert [a, b][..1] == [a] && [a][..0] == [];
    assert RunInMemory(cfg, [a]) == ApplyInMemory(cfg, RunInMemory(cfg, []), a).state;
    assert RunInTables(cfg, [a]) == ApplyInTables(cfg, RunInTables(cfg, []), a).state;
  }

  lemma FirstOpens(cfg: Config, ev: Evidence)
    ensures var mem, sql := ApplyInMemory(cfg, EMPTY_MEMORY, ev).state, ApplyInTables(cfg, EMPTY_TABLES, ev).state;
            && InStep(mem, sql) && sql.evidence.Keys == {ev.id}
            && ActiveIn(sql.rows, SeriesOf(ev)).Some?
            && ActiveIn(sql.rows, SeriesOf(ev)).value.applied == Some(OrderOf(ev))
            && ActiveIn(sql.rows, SeriesOf(ev)).value.last == ev.time
  {
    AssessSucceeds(Quiet, ev.score);
    assert forall s :: ActiveIn([], s) == None;
    StepKeepsStores(cfg, EMPTY_MEMORY, EMPTY_TABLES, ev);
    var campaign := Opened(ev, Assess(Quiet, ev.score).value);
    assert ApplyInTables(cfg, EMPTY_TABLES, ev).state.rows == [campaign];
  }

  /** Without that condition the stores can part on the second piece of evidence. */
  lemma StoresCanPart(score: Score)
    ensures var cfg := Config(1800, 300);
            var evs := [Evidence("first", 0, score.(cutoff := Some(1000))),
                        Evidence("second", 2000, score.(cutoff := Some(500)))];
            !Simulates(RunInMemory(cfg, evs), RunInTables(cfg, evs))
  {
    var cfg := Config(1800, 300);
    var first := Evidence("first", 0, score.(cutoff := Some(1000)));
    var second := Evidence("second", 2000, score.(cutoff := Some(500)));
    FirstOpens(cfg, first);
    RunsOfTwo(cfg, first, second);
    assert "first"[0] != "second"[0];
    TornEvidenceParts(
      cfg, ApplyInMemory(cfg, EMPTY_MEMORY, first).state, ApplyInTables(cfg, EMPTY_TABLES, first).state, second);
  }
}
