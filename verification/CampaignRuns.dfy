/** What every run of the campaign repositories keeps. */
module CampaignRuns {
  import opened Wrappers
  import opened CampaignPolicy
  import opened CampaignStores
  import opened CampaignLaws

  // ---------------------------------------------------------------- evidence counts once

  lemma ApplyNotes(cfg: Config, st: Memory, ev: Evidence)
    ensures ApplyInMemory(cfg, st, ev).state.seen == st.seen + {ev.id}
  {
  }

  lemma {:induction false} RunNotes(cfg: Config, evs: seq<Evidence>)
    ensures forall ev :: ev in evs ==> ev.id in RunInMemory(cfg, evs).seen
  {
    if evs != [] {
      RunNotes(cfg, evs[..|evs| - 1]);
      ApplyNotes(cfg, RunInMemory(cfg, evs[..|evs| - 1]), evs[|evs| - 1]);
      assert evs == evs[..|evs| - 1] + [evs[|evs| - 1]];
    }
  }

  /** Evidence that was offered before, applied or not, never changes the state again. */
  lemma RepeatsChangeNothing(cfg: Config, evs: seq<Evidence>, earlier: Evidence, again: Evidence)
    requires earlier in evs && again.id == earlier.id
    ensures RunInMemory(cfg, evs + [again]) == RunInMemory(cfg, evs)
  {
    RunNotes(cfg, evs);
    assert (evs + [again])[..|evs|] == evs;
  }

  // ---------------------------------------------------------------- what a campaign tells

  /** The campaign a piece of evidence is applied to, if it is applied at all. */
  function AppliesTo(cfg: Config, st: Memory, ev: Evidence): Option<CampaignId> {
    var existing := ContinuedIn(cfg, st, ev);
    if ev.id in st.seen then None
    else if existing.None? then Some(CampaignId(SeriesOf(ev), ev.id))
    else if IsStale(existing.value, ev) then None
    else Some(existing.value.id)
  }

  /** The evidence a run has applied to one campaign. */
  function AppliedTo(cfg: Config, evs: seq<Evidence>, id: CampaignId): seq<Evidence> {
    if evs == [] then []
    else
      var init, ev := evs[..|evs| - 1], evs[|evs| - 1];
      AppliedTo(cfg, init, id) + (if AppliesTo(cfg, RunInMemory(cfg, init), ev) == Some(id) then [ev] else [])
  }

  function Worst(applied: seq<Evidence>): Risk
    requires applied != []
  {
    if |applied| == 1 then applied[0].score.severity
    else MaxRisk(Worst(applied[..|applied| - 1]), applied[|applied| - 1].score.severity)
  }

  function LatestTime(applied: seq<Evidence>): int
    requires applied != []
  {
    if |applied| == 1 then applied[0].time
    else Later(LatestTime(applied[..|applied| - 1]), applied[|applied| - 1].time)
  }

  function StageThrough(applied: seq<Evidence>): Stage {
    if applied == [] then Quiet
    else NextStage(StageThrough(applied[..|applied| - 1]), applied[|applied| - 1].score)
  }

  ghost predicate EverNewer(applied: seq<Evidence>) {
    forall i, j :: 0 <= i < j < |applied| ==> !OrderLe(OrderOf(applied[j]), OrderOf(applied[i]))
  }

  /** Every field of the campaign record is a summary of the evidence applied to it. */
  ghost predicate Tells(c: Campaign, applied: seq<Evidence>) {
    && applied != [] && c.active
    && c.id == CampaignId(SeriesOf(applied[0]), applied[0].id)
    && c.version == |applied|
    && c.first == applied[0].time && c.last == LatestTime(applied)
    && c.maxSeverity == Worst(applied)
    && c.stage == StageThrough(applied)
    && c.confidence == StageConfidence(c.stage, applied[|applied| - 1].score)
    && c.applied == Some(OrderOf(applied[|applied| - 1]))
    && EverNewer(applied)
  }

  lemma OpenedTells(ev: Evidence, a: Assessment)
    requires Assess(Quiet, ev.score) == Success(a)
    ensures Tells(Opened(ev, a), [ev])
  {
    assert [ev][..0] == [];
  }

  lemma AdvancedTells(c: Campaign, applied: seq<Evidence>, ev: Evidence, a: Assessment)
    requires Tells(c, applied) && !IsStale(c, ev) && Assess(c.stage, ev.score) == Success(a)
    ensures Tells(Advanced(c, ev, a), applied + [ev])
  {
    var more := applied + [ev];
    assert more[..|applied|] == applied;
    forall i | 0 <= i < |applied| ensures !OrderLe(OrderOf(ev), OrderOf(more[i])) {
      var last := OrderOf(applied[|applied| - 1]);
      if i < |applied| - 1 {
        assert !OrderLe(last, OrderOf(applied[i]));
      }
    }
  }

  ghost predicate OpenersNoted(cfg: Config, evs: seq<Evidence>) {
    forall id :: AppliedTo(cfg, evs, id) != [] ==> id.opener in RunInMemory(cfg, evs).seen
  }

  ghost predicate AllTell(cfg: Config, evs: seq<Evidence>) {
    forall s :: s in RunInMemory(cfg, evs).campaigns ==>
      var c := RunInMemory(cfg, evs).campaigns[s];
      c.id.series == s && Tells(c, AppliedTo(cfg, evs, c.id))
  }

  lemma {:induction false} OpenersAreNoted(cfg: Config, evs: seq<Evidence>)
    requires AllTell(cfg, evs) || evs == []
    requires evs != [] ==> AllTell(cfg, evs[..|evs| - 1]) && OpenersNoted(cfg, evs[..|evs| - 1])
    ensures OpenersNoted(cfg, evs)
  {
    if evs != [] {
      var init, ev := evs[..|evs| - 1], evs[|evs| - 1];
      var st := RunInMemory(cfg, init);
      ApplyNotes(cfg, st, ev);
      forall id | AppliedTo(cfg, evs, id) != [] ensures id.opener in RunInMemory(cfg, evs).seen {
        if AppliedTo(cfg, init, id) == [] {
          assert AppliesTo(cfg, st, ev) == Some(id);
          var existing := ContinuedIn(cfg, st, ev);
        }
      }
    }
  }

  /** Evidence that is not applied leaves every campaign as it was. */
  lemma IgnoredKeepsCampaigns(cfg: Config, st: Memory, ev: Evidence)
    requires AppliesTo(cfg, st, ev).None?
    ensures ApplyInMemory(cfg, st, ev).state.campaigns == st.campaigns
  {
    AssessSucceeds(StageOf(ContinuedIn(cfg, st, ev)), ev.score);
  }

  lemma AppliedSetsCampaign(cfg: Config, st: Memory, ev: Evidence)
    requires AppliesTo(cfg, st, ev).Some?
    ensures var existing := ContinuedIn(cfg, st, ev);
            var a := Assess(StageOf(existing), ev.score);
            a.Success? && ApplyInMemory(cfg, st, ev).state.campaigns
            == st.campaigns[SeriesOf(ev) := if existing.Some? then Advanced(existing.value, ev, a.value)
                                            else Opened(ev, a.value)]
  {
    AssessSucceeds(StageOf(ContinuedIn(cfg, st, ev)), ev.score);
  }

  /**
   * In every reachable state each campaign's version counts the evidence applied to it, its severity
   * is their worst, its stage is the stage machine run over them, and their evaluation orders strictly
   * increase.
   */
  lemma {:induction false} CampaignsTell(cfg: Config, evs: seq<Evidence>)
    ensures AllTell(cfg, evs) && OpenersNoted(cfg, evs)
  {
    if evs != [] {
      var init, ev := evs[..|evs| - 1], evs[|evs| - 1];
      var st := RunInMemory(cfg, init);
      CampaignsTell(cfg, init);
      forall s | s in RunInMemory(cfg, evs).campaigns
        ensures var c := RunInMemory(cfg, evs).campaigns[s]; c.id.series == s && Tells(c, AppliedTo(cfg, evs, c.id))
      {
        StepTells(cfg, init, ev, s);
        assert evs == init + [ev];
      }
      OpenersAreNoted(cfg, evs);
    }
  }

  lemma OneMoreApplied(cfg: Config, init: seq<Evidence>, ev: Evidence, id: CampaignId)
    ensures AppliedTo(cfg, init + [ev], id)
            == if AppliesTo(cfg, RunInMemory(cfg, init), ev) == Some(id) then AppliedTo(cfg, init, id) + [ev]
               else AppliedTo(cfg, init, id)
    ensures RunInMemory(cfg, init + [ev]) == ApplyInMemory(cfg, RunInMemory(cfg, init), ev).state
  {
    assert (init + [ev])[..|init|] == init;
  }

  /** Evidence that is applied rewrites the campaign of its series, which then tells it too. */
  lemma {:induction false} AppliedTells(cfg: Config, init: seq<Evidence>, ev: Evidence)
    requires AllTell(cfg, init) && OpenersNoted(cfg, init) && AppliesTo(cfg, RunInMemory(cfg, init), ev).Some?
    ensures SeriesOf(ev) in RunInMemory(cfg, init + [ev]).campaigns
    ensures var c := RunInMemory(cfg, init + [ev]).campaigns[SeriesOf(ev)];
            c.id.series == SeriesOf(ev) && Tells(c, AppliedTo(cfg, init + [ev], c.id))
  {
    var st := RunInMemory(cfg, init);
    var target, existing := AppliesTo(cfg, st, ev).value, ContinuedIn(cfg, st, ev);
    var before := AppliedTo(cfg, init, target);
    OneMoreApplied(cfg, init, ev, target);
    AppliedSetsCampaign(cfg, st, ev);
    var a := Assess(StageOf(existing), ev.score).value;
    if existing.Some? {
      AdvancedTells(existing.value, before, ev, a);
    } else {
      assert before == [];
      assert before + [ev] == [ev];
      OpenedTells(ev, a);
    }
  }

  lemma {:induction false} StepTells(cfg: Config, init: seq<Evidence>, ev: Evidence, s: Series)
    requires AllTell(cfg, init) && OpenersNoted(cfg, init) && s in RunInMemory(cfg, init + [ev]).campaigns
    ensures var c := RunInMemory(cfg, init + [ev]).campaigns[s];
            c.id.series == s && Tells(c, AppliedTo(cfg, init + [ev], c.id))
  {
    var st := RunInMemory(cfg, init);
    var target := AppliesTo(cfg, st, ev);
    OneMoreApplied(cfg, init, ev, RunInMemory(cfg, init + [ev]).campaigns[s].id);
    if target.None? {
      IgnoredKeepsCampaigns(cfg, st, ev);
    } else if s == SeriesOf(ev) {
      AppliedTells(cfg, init, ev);
    } else {
      AppliedSetsCampaign(cfg, st, ev);
    }
  }

  // ---------------------------------------------------------------- errors no run meets

  ghost predicate HasRow(rows: seq<Campaign>, id: CampaignId) {
    exists i :: 0 <= i < |rows| && rows[i].id == id
  }

  ghost predicate EvidenceHasRows(st: Tables) {
    forall e :: e in st.evidence ==> HasRow(st.rows, st.evidence[e])
  }

  lemma {:induction false} RowIsFound(rows: seq<Campaign>, id: CampaignId)
    requires HasRow(rows, id)
    ensures RowOf(rows, id).Some?
  {
    if rows[0].id != id {
      var i :| 0 <= i < |rows| && rows[i].id == id;
      assert rows[1..][i - 1].id == id;
      RowIsFound(rows[1..], id);
    }
  }

  lemma ReplacedRowsRemain(rows: seq<Campaign>, i: nat, c: Campaign)
    requires i < |rows| && c.id == rows[i].id
    ensures forall id :: HasRow(rows, id) ==> HasRow(rows[i := c], id)
  {
    forall id | HasRow(rows, id) ensures HasRow(rows[i := c], id) {
      var j :| 0 <= j < |rows| && rows[j].id == id;
      assert rows[i := c][j].id == id;
    }
  }

  lemma AddedRowRemains(rows: seq<Campaign>, c: Campaign)
    ensures HasRow(rows + [c], c.id) && forall id :: HasRow(rows, id) ==> HasRow(rows + [c], id)
  {
    assert (rows + [c])[|rows|] == c;
    forall id | HasRow(rows, id) ensures HasRow(rows + [c], id) {
      var j :| 0 <= j < |rows| && rows[j].id == id;
      assert (rows + [c])[j].id == id;
    }
  }

  lemma CommitKeepsRows(cfg: Config, st: Tables, ev: Evidence, at: Option<nat>, a: Assessment, closing: seq<Event>)
    requires EvidenceHasRows(st) && (at.Some? ==> at.value < |st.rows|)
    ensures EvidenceHasRows(CommitInTables(cfg, st, ev, at, a, closing).state)
  {
    if at.Some? {
      var c := Advanced(st.rows[at.value], ev, a);
      ReplacedRowsRemain(st.rows, at.value, c);
      assert st.rows[at.value := c][at.value] == c;
    } else {
      AddedRowRemains(st.rows, Opened(ev, a));
    }
  }

  lemma ApplyKeepsRows(cfg: Config, st: Tables, ev: Evidence)
    requires EvidenceHasRows(st)
    ensures EvidenceHasRows(ApplyInTables(cfg, st, ev).state)
    ensures ApplyInTables(cfg, st, ev).result.Success?
  {
    if ev.id in st.evidence {
      RowIsFound(st.rows, st.evidence[ev.id]);
    } else {
      var at := ActiveRow(st.rows, SeriesOf(ev));
      AssessSucceeds(Quiet, ev.score);
      if at.Some? && GapElapsed(cfg, st.rows[at.value], ev) {
        var shut := Closed(st.rows[at.value]);
        ReplacedRowsRemain(st.rows, at.value, shut);
        var closed := CampaignEvent(shut.id, CampaignClosed, ev);
        CommitKeepsRows(cfg, st.(rows := st.rows[at.value := shut], outbox := st.outbox + [closed]), ev, None,
                        Assess(Quiet, ev.score).value, [closed]);
      } else {
        var stage := if at.Some? then st.rows[at.value].stage else Quiet;
        AssessSucceeds(stage, ev.score);
        CommitKeepsRows(cfg, st, ev, at, Assess(stage, ev.score).value, []);
      }
    }
  }

  /** With its lock held, the relational repository never raises: evidence always has its campaign. */
  lemma {:induction false} TablesNeverFail(cfg: Config, evs: seq<Evidence>, ev: Evidence)
    ensures EvidenceHasRows(RunInTables(cfg, evs))
    ensures ApplyInTables(cfg, RunInTables(cfg, evs), ev).result.Success?
  {
    if evs != [] {
      TablesNeverFail(cfg, evs[..|evs| - 1], evs[|evs| - 1]);
      ApplyKeepsRows(cfg, RunInTables(cfg, evs[..|evs| - 1]), evs[|evs| - 1]);
    }
    ApplyKeepsRows(cfg, RunInTables(cfg, evs), ev);
  }

  lemma ApplyKeepsSeries(cfg: Config, st: Memory, ev: Evidence)
    ensures var next := ApplyInMemory(cfg, st, ev).state.campaigns.Keys;
            next == st.campaigns.Keys + (if ev.id in st.seen then {} else {SeriesOf(ev)})
  {
    AssessSucceeds(StageOf(ContinuedIn(cfg, st, ev)), ev.score);
  }

  ghost predicate Offered(evs: seq<Evidence>, id: string) {
    exists e :: e in evs && e.id == id
  }

  /** The i-th piece of evidence is the first one offered under its id. */
  ghost predicate FirstUnderItsId(evs: seq<Evidence>, i: nat)
    requires i < |evs|
  {
    forall j :: 0 <= j < i ==> evs[j].id != evs[i].id
  }

  ghost predicate Opens(evs: seq<Evidence>, s: Series) {
    exists i :: 0 <= i < |evs| && FirstUnderItsId(evs, i) && SeriesOf(evs[i]) == s
  }

  lemma OfferedOneMore(init: seq<Evidence>, ev: Evidence, id: string)
    ensures Offered(init + [ev], id) <==> Offered(init, id) || ev.id == id
  {
    assert forall e :: e in init + [ev] <==> e in init || e == ev;
  }

  lemma OpensOneMore(init: seq<Evidence>, ev: Evidence, s: Series)
    ensures Opens(init + [ev], s) <==> Opens(init, s) || (!Offered(init, ev.id) && SeriesOf(ev) == s)
  {
    var evs, n := init + [ev], |init|;
    forall i | 0 <= i < n ensures evs[i] == init[i] && (FirstUnderItsId(evs, i) <==> FirstUnderItsId(init, i)) {
      assert forall j :: 0 <= j < i ==> evs[j] == init[j];
    }
    if !Offered(init, ev.id) {
      assert forall j :: 0 <= j < n ==> evs[j] in init;
      assert FirstUnderItsId(evs, n);
    } else {
      var e :| e in init && e.id == ev.id;
      var j :| 0 <= j < n && init[j] == e;
      assert evs[j].id == evs[n].id;
    }
  }

  /** The ids seen are those offered; the series with a campaign are those of evidence first under its id. */
  lemma {:induction false} RunHasSeen(cfg: Config, evs: seq<Evidence>)
    ensures forall id :: id in RunInMemory(cfg, evs).seen <==> Offered(evs, id)
    ensures forall s :: s in RunInMemory(cfg, evs).campaigns <==> Opens(evs, s)
  {
    if evs != [] {
      var init, ev := evs[..|evs| - 1], evs[|evs| - 1];
      var st := RunInMemory(cfg, init);
      assert evs == init + [ev];
      RunHasSeen(cfg, init);
      ApplyKeepsSeries(cfg, st, ev);
      ApplyNotes(cfg, st, ev);
      forall id ensures id in ApplyInMemory(cfg, st, ev).state.seen <==> Offered(evs, id) {
        OfferedOneMore(init, ev, id);
      }
      forall s ensures s in ApplyInMemory(cfg, st, ev).state.campaigns <==> Opens(evs, s) {
        OpensOneMore(init, ev, s);
      }
    }
  }

  /**
   * The in-memory repository raises exactly when the id was offered before, and no evidence that was
   * the first under its id was of the same scope and asset.
   */
  lemma {:induction false} MemoryFailsIff(cfg: Config, evs: seq<Evidence>, ev: Evidence)
    ensures ApplyInMemory(cfg, RunInMemory(cfg, evs), ev).result.Failure?
            <==> Offered(evs, ev.id) && !Opens(evs, SeriesOf(ev))
  {
    RunHasSeen(cfg, evs);
    AssessSucceeds(StageOf(ContinuedIn(cfg, RunInMemory(cfg, evs), ev)), ev.score);
  }

  ghost predicate IdsNameSeries(evs: seq<Evidence>) {
    forall a, b :: a in evs && b in evs && a.id == b.id ==> SeriesOf(a) == SeriesOf(b)
  }

  lemma {:induction false} SomeFirst(evs: seq<Evidence>, i: nat) returns (j: nat)
    requires i < |evs|
    ensures j <= i && evs[j].id == evs[i].id && FirstUnderItsId(evs, j)
  {
    if FirstUnderItsId(evs, i) {
      j := i;
    } else {
      var k :| 0 <= k < i && evs[k].id == evs[i].id;
      j := SomeFirst(evs, k);
    }
  }

  /** So it never raises when event ids determine their scope and asset. */
  lemma {:induction false} MemoryNeverFails(cfg: Config, evs: seq<Evidence>, ev: Evidence)
    requires IdsNameSeries(evs + [ev])
    ensures ApplyInMemory(cfg, RunInMemory(cfg, evs), ev).result.Success?
  {
    MemoryFailsIff(cfg, evs, ev);
    if e :| e in evs && e.id == ev.id {
      var i :| 0 <= i < |evs| && evs[i] == e;
      var j := SomeFirst(evs, i);
      assert evs[j] in evs + [ev] && ev in evs + [ev];
    }
  }

  /** And it can: the only id so far, offered again for a second asset, is a duplicate without a campaign. */
  lemma MemoryCanFail(cfg: Config, ev: Evidence, other: string)
    requires other != ev.score.asset
    ensures ApplyInMemory(cfg, RunInMemory(cfg, [ev]), ev.(score := ev.score.(asset := other))).result
            == Failure(DuplicateWithoutCampaign)
  {
    assert [ev][..0] == [];
    ApplyKeepsSeries(cfg, EMPTY_MEMORY, ev);
    ApplyNotes(cfg, EMPTY_MEMORY, ev);
  }

  // ---------------------------------------------------------------- event identities

  ghost predicate DistinctIds(events: seq<Event>) {
    forall i, j :: 0 <= i < j < |events| ==> IdOf(events[i]) != IdOf(events[j])
  }

  ghost predicate AllFrom(events: seq<Event>, evidence: string) {
    forall e :: e in events ==> e.evidence == evidence
  }

  lemma DistinctTogether(xs: seq<Event>, ys: seq<Event>)
    requires DistinctIds(xs) && DistinctIds(ys)
    requires forall x, y :: x in xs && y in ys ==> IdOf(x) != IdOf(y)
    ensures DistinctIds(xs + ys)
  {
    var zs := xs + ys;
    forall i, j | 0 <= i < j < |zs| ensures IdOf(zs[i]) != IdOf(zs[j]) {
      if i < |xs| <= j {
        assert zs[i] in xs && zs[j] in ys;
      }
    }
  }

  lemma {:induction false} AlarmIds(
      cfg: Config, alerts: map<AlertKey, Alert>, id: CampaignId, ev: Evidence, triggers: seq<Trigger>)
    requires DistinctKinds(triggers)
    ensures var events := SoundInRows(cfg, alerts, id, ev, triggers).events;
            && DistinctIds(events) && AllFrom(events, ev.id)
            && (forall e :: e in events ==> e.topic == AlertEvents)
            && (forall e :: e in events ==> exists t :: t in triggers && e.entity == OfAlert(AlertKey(id, t.kind)))
  {
    if triggers != [] {
      var init, last := triggers[..|triggers| - 1], triggers[|triggers| - 1];
      AlarmIds(cfg, alerts, id, ev, init);
      var before := SoundInRows(cfg, alerts, id, ev, init).events;
      var after := SoundInRows(cfg, alerts, id, ev, triggers).events;
      if after != before {
        var e := after[|before|];
        assert after == before + [e] && e.entity == OfAlert(AlertKey(id, last.kind));
        forall x | x in before ensures IdOf(x) != IdOf(e) {
          var t :| t in init && x.entity == OfAlert(AlertKey(id, t.kind));
          var i :| 0 <= i < |init| && init[i] == t;
          assert triggers[i].kind != triggers[|triggers| - 1].kind;
        }
        DistinctTogether(before, [e]);
      }
      assert last in triggers && forall t :: t in init ==> t in triggers;
    }
  }

  /** What a commit reports about the campaign itself. */
  function ToldOf(st: Tables, ev: Evidence, at: Option<nat>, a: Assessment): seq<Event>
    requires at.Some? ==> at.value < |st.rows|
  {
    if at.None? then [CampaignEvent(Opened(ev, a).id, CampaignCreated, ev)]
    else if a.next != st.rows[at.value].stage then [CampaignEvent(st.rows[at.value].id, CampaignStageChanged, ev)]
    else []
  }

  lemma CommitTells(cfg: Config, st: Tables, ev: Evidence, at: Option<nat>, a: Assessment, closing: seq<Event>)
    requires at.Some? ==> at.value < |st.rows|
    ensures var id := if at.Some? then st.rows[at.value].id else Opened(ev, a).id;
            CommitInTables(cfg, st, ev, at, a, closing).state.outbox
            == st.outbox + (ToldOf(st, ev, at, a) + SoundInRows(cfg, st.alerts, id, ev, a.alerts).events)
  {
  }

  /** What one call adds to the outbox: events of this evidence, no two alike. */
  lemma CommitIds(cfg: Config, st: Tables, ev: Evidence, at: Option<nat>, a: Assessment, closing: seq<Event>)
    requires at.Some? ==> at.value < |st.rows|
    requires DistinctKinds(a.alerts)
    ensures exists added :: CommitInTables(cfg, st, ev, at, a, closing).state.outbox == st.outbox + added
              && DistinctIds(added) && AllFrom(added, ev.id) && forall e :: e in added ==> e.kind != CampaignClosed
  {
    var id := if at.Some? then st.rows[at.value].id else Opened(ev, a).id;
    var told, events := ToldOf(st, ev, at, a), SoundInRows(cfg, st.alerts, id, ev, a.alerts).events;
    CommitTells(cfg, st, ev, at, a, closing);
    AlarmIds(cfg, st.alerts, id, ev, a.alerts);
    SoundAgrees(cfg, st.alerts, id, ev, a.alerts);
    AlarmsCloseNothing(cfg, st.alerts, id, ev, a.alerts);
    DistinctTogether(told, events);
    assert AllFrom(told + events, ev.id);
  }

  ghost predicate OutboxSound(st: Tables) {
    DistinctIds(st.outbox) && forall e :: e in st.outbox ==> e.evidence in st.evidence
  }

  lemma AppendFresh(st: Tables, next: Tables, ev: Evidence, added: seq<Event>)
    requires OutboxSound(st) && ev.id !in st.evidence && next.outbox == st.outbox + added
    requires next.evidence.Keys == st.evidence.Keys + {ev.id} && DistinctIds(added) && AllFrom(added, ev.id)
    ensures OutboxSound(next)
  {
    DistinctTogether(st.outbox, added);
  }

  lemma AppendReopened(st: Tables, next: Tables, ev: Evidence, closed: Event, added: seq<Event>)
    requires OutboxSound(st) && ev.id !in st.evidence && next.outbox == (st.outbox + [closed]) + added
    requires next.evidence.Keys == st.evidence.Keys + {ev.id} && DistinctIds(added) && AllFrom(added, ev.id)
    requires closed.kind == CampaignClosed && closed.evidence == ev.id
    requires forall e :: e in added ==> e.kind != CampaignClosed
    ensures OutboxSound(next)
  {
    DistinctTogether([closed], added);
    assert next.outbox == st.outbox + ([closed] + added);
    AppendFresh(st, next, ev, [closed] + added);
  }

  lemma ReopeningKeepsOutbox(cfg: Config, st: Tables, ev: Evidence, at: nat, a: Assessment)
    requires OutboxSound(st) && ev.id !in st.evidence && at < |st.rows| && DistinctKinds(a.alerts)
    ensures var closed := CampaignEvent(st.rows[at].id, CampaignClosed, ev);
            var shut := st.(rows := st.rows[at := Closed(st.rows[at])], outbox := st.outbox + [closed]);
            OutboxSound(CommitInTables(cfg, shut, ev, None, a, [closed]).state)
  {
    var closed := CampaignEvent(st.rows[at].id, CampaignClosed, ev);
    var shut := st.(rows := st.rows[at := Closed(st.rows[at])], outbox := st.outbox + [closed]);
    var next := CommitInTables(cfg, shut, ev, None, a, [closed]).state;
    CommitIds(cfg, shut, ev, None, a, [closed]);
    assert next.evidence.Keys == st.evidence.Keys + {ev.id};
    hide CommitInTables, DistinctIds, OutboxSound, AllFrom;
    var added :| next.outbox == shut.outbox + added && DistinctIds(added) && AllFrom(added, ev.id)
                 && forall e :: e in added ==> e.kind != CampaignClosed;
    AppendReopened(st, next, ev, closed, added);
  }

  lemma ContinuingKeepsOutbox(cfg: Config, st: Tables, ev: Evidence, at: Option<nat>, a: Assessment)
    requires OutboxSound(st) && ev.id !in st.evidence && (at.Some? ==> at.value < |st.rows|) && DistinctKinds(a.alerts)
    ensures OutboxSound(CommitInTables(cfg, st, ev, at, a, []).state)
  {
    var next := CommitInTables(cfg, st, ev, at, a, []).state;
    CommitIds(cfg, st, ev, at, a, []);
    var added :| next.outbox == st.outbox + added && DistinctIds(added) && AllFrom(added, ev.id)
                 && forall e :: e in added ==> e.kind != CampaignClosed;
    AppendFresh(st, next, ev, added);
  }

  lemma ApplyKeepsOutbox(cfg: Config, st: Tables, ev: Evidence)
    requires OutboxSound(st)
    ensures OutboxSound(ApplyInTables(cfg, st, ev).state)
  {
    if ev.id !in st.evidence {
      var at := ActiveRow(st.rows, SeriesOf(ev));
      AlertsAreDistinct(ev.score);
      var reopened := at.Some? && GapElapsed(cfg, st.rows[at.value], ev);
      var stage := if at.Some? && !reopened then st.rows[at.value].stage else Quiet;
      AssessSucceeds(stage, ev.score);
      var a := Assess(stage, ev.score).value;
      if reopened {
        ReopeningKeepsOutbox(cfg, st, ev, at.value, a);
      } else {
        ContinuingKeepsOutbox(cfg, st, ev, at, a);
      }
    }
  }

  /** No event enters the outbox twice under the same topic and id, so its unique constraint holds. */
  lemma {:induction false} OutboxIdsAreUnique(cfg: Config, evs: seq<Evidence>)
    ensures OutboxSound(RunInTables(cfg, evs))
  {
    if evs != [] {
      OutboxIdsAreUnique(cfg, evs[..|evs| - 1]);
      ApplyKeepsOutbox(cfg, RunInTables(cfg, evs[..|evs| - 1]), evs[|evs| - 1]);
    }
  }

  ghost predicate MemoryOutboxSound(st: Memory) {
    DistinctIds(st.outbox) && forall e :: e in st.outbox ==> e.evidence in st.seen
  }

  /** What the in-memory repository adds to the outbox: events of this evidence, no two alike. */
  lemma CommitInMemoryIds(cfg: Config, st: Memory, ev: Evidence, existing: Option<Campaign>, a: Assessment)
    requires DistinctKinds(a.alerts)
    ensures exists added :: CommitInMemory(cfg, st, ev, existing, a).state.outbox == st.outbox + added
              && DistinctIds(added) && AllFrom(added, ev.id)
  {
    var campaign := if existing.Some? then Advanced(existing.value, ev, a) else Opened(ev, a);
    var alarm := SoundInMemory(cfg, st.alerts, campaign.id, ev, a.alerts);
    SoundAgrees(cfg, st.alerts, campaign.id, ev, a.alerts);
    AlarmIds(cfg, st.alerts, campaign.id, ev, a.alerts);
    var told := if existing.None? then [CampaignEvent(campaign.id, CampaignCreated, ev)]
                else if campaign.stage != existing.value.stage
                     then [CampaignEvent(campaign.id, CampaignStageChanged, ev)] else [];
    DistinctTogether(told, alarm.events);
    hide SoundInMemory, SoundInRows, DistinctIds;
    assert CommitInMemory(cfg, st, ev, existing, a).state.outbox == st.outbox + (told + alarm.events);
  }

  lemma ApplyKeepsMemoryOutbox(cfg: Config, st: Memory, ev: Evidence)
    requires MemoryOutboxSound(st)
    ensures MemoryOutboxSound(ApplyInMemory(cfg, st, ev).state)
  {
    var existing := ContinuedIn(cfg, st, ev);
    AssessSucceeds(StageOf(existing), ev.score);
    if ev.id !in st.seen && !(existing.Some? && IsStale(existing.value, ev)) {
      var noted, a := st.(seen := st.seen + {ev.id}), Assess(StageOf(existing), ev.score).value;
      AlertsAreDistinct(ev.score);
      CommitInMemoryIds(cfg, noted, ev, existing, a);
      var next := CommitInMemory(cfg, noted, ev, existing, a).state;
      var added :| next.outbox == st.outbox + added && DistinctIds(added) && AllFrom(added, ev.id);
      DistinctTogether(st.outbox, added);
    }
  }

  /** Nor does one in memory, in any run, on time or not. */
  lemma {:induction false} MemoryOutboxIdsAreUnique(cfg: Config, evs: seq<Evidence>)
    ensures MemoryOutboxSound(RunInMemory(cfg, evs))
  {
    if evs != [] {
      MemoryOutboxIdsAreUnique(cfg, evs[..|evs| - 1]);
      ApplyKeepsMemoryOutbox(cfg, RunInMemory(cfg, evs[..|evs| - 1]), evs[|evs| - 1]);
    }
  }

  // ---------------------------------------------------------------- how often an alert notifies

  /** The times of the notifications of one alert. */
  function Notified(outbox: seq<Event>, key: AlertKey): seq<int> {
    if outbox == [] then []
    else
      var e := outbox[|outbox| - 1];
      Notified(outbox[..|outbox| - 1], key) + (if e.entity == OfAlert(key) then [e.time] else [])
  }

  lemma NotifiedOneMore(outbox: seq<Event>, e: Event, key: AlertKey)
    ensures Notified(outbox + [e], key) == Notified(outbox, key) + (if e.entity == OfAlert(key) then [e.time] else [])
  {
    assert (outbox + [e])[..|outbox|] == outbox;
  }

  /** Notifications beyond the first and one for each severity climbed are a cooldown apart. */
  ghost predicate Paced(cfg: Config, alert: Alert, times: seq<int>) {
    && times != [] && alert.active && alert.notified == Some(times[|times| - 1])
    && (|times| - 1 - Rank(alert.severity)) * cfg.cooldown <= times[|times| - 1] - times[0]
  }

  /** Severity only climbs, and a refresh keeps the cooldown. */
  lemma RaisingPaces(cfg: Config, alerts: map<AlertKey, Alert>, key: AlertKey, time: int, severity: Risk)
    requires key in alerts ==> alerts[key].active && alerts[key].notified.Some?
    ensures var r := RaiseInMemory(cfg, alerts, key, time, severity);
            && (key in alerts ==> Rank(r.alert.severity) >= Rank(alerts[key].severity))
            && (key in alerts && !r.suppressed && r.kind == AlertRefreshed ==>
                  time - alerts[key].notified.value >= cfg.cooldown)
            && (key in alerts && !r.suppressed && r.kind != AlertRefreshed ==>
                  Rank(r.alert.severity) > Rank(alerts[key].severity))
            && (r.suppressed ==> key in alerts && r.alert.severity == alerts[key].severity)
            && (r.suppressed ==> key in alerts && r.alert.notified == alerts[key].notified)
            && (!r.suppressed ==> r.alert.notified == Some(time))
  {
  }

  lemma OneMoreCooldown(n: int, s: int, spent: int, gap: int)
    requires n * s <= spent && s <= gap
    ensures (n + 1) * s <= spent + gap
  {
  }

  lemma FewerTimes(n: int, m: int, s: int, spent: int)
    requires n <= m && 0 <= s && m * s <= spent
    ensures n * s <= spent
  {
    assert 0 <= (m - n) * s;
    assert n * s + (m - n) * s == m * s;
  }

  lemma RaisingKeepsPace(
      cfg: Config, alerts: map<AlertKey, Alert>, times: seq<int>, key: AlertKey, time: int, severity: Risk)
    requires cfg.cooldown >= 0
    requires if key in alerts then Paced(cfg, alerts[key], times) && times[|times| - 1] <= time else times == []
    ensures var r := RaiseInMemory(cfg, alerts, key, time, severity);
            Paced(cfg, r.alert, if r.suppressed then times else times + [time])
  {
    var r := RaiseInMemory(cfg, alerts, key, time, severity);
    RaisingPaces(cfg, alerts, key, time, severity);
    if key !in alerts {
      FewerTimes(0 - Rank(severity) as int, 0, cfg.cooldown, 0);
    } else if !r.suppressed {
      var n := |times| - 1 - Rank(alerts[key].severity);
      var spent, gap := times[|times| - 1] - times[0], time - times[|times| - 1];
      if r.kind == AlertRefreshed {
        OneMoreCooldown(n, cfg.cooldown, spent, gap);
      } else {
        FewerTimes(|times| - Rank(r.alert.severity), n, cfg.cooldown, spent);
      }
    }
  }

  ghost predicate AllPaced(cfg: Config, alerts: map<AlertKey, Alert>, outbox: seq<Event>) {
    && (forall k :: k in alerts ==> Paced(cfg, alerts[k], Notified(outbox, k)))
    && (forall k :: k !in alerts ==> Notified(outbox, k) == [])
  }

  /** No alert of the campaign has notified after `time`. */
  ghost predicate NotifiedBy(alerts: map<AlertKey, Alert>, id: CampaignId, time: int) {
    forall k :: k in alerts && k.campaign == id ==> alerts[k].notified.Some? && alerts[k].notified.value <= time
  }

  lemma SoundedTells(a: Alarm, outbox: seq<Event>, key: AlertKey, ev: Evidence, r: Raised, k: AlertKey)
    ensures var was := Notified(outbox + a.events, k);
            Notified(outbox + Sounded(a, key, ev, r).events, k)
            == if k == key && !r.suppressed then was + [ev.time] else was
  {
    if r.suppressed {
      assert a.events + [] == a.events;
    } else {
      var e := Event(AlertEvents, OfAlert(key), r.kind, ev.id, ev.time);
      assert outbox + (a.events + [e]) == outbox + a.events + [e];
      NotifiedOneMore(outbox + a.events, e, k);
      assert Notified(outbox + a.events, k) + [] == Notified(outbox + a.events, k);
    }
  }

  lemma SoundedKeepsPace(cfg: Config, a: Alarm, outbox: seq<Event>, key: AlertKey, ev: Evidence, severity: Risk)
    requires cfg.cooldown >= 0 && AllPaced(cfg, a.alerts, outbox + a.events)
            && NotifiedBy(a.alerts, key.campaign, ev.time)
    ensures var next := Sounded(a, key, ev, RaiseInMemory(cfg, a.alerts, key, ev.time, severity));
            AllPaced(cfg, next.alerts, outbox + next.events) && NotifiedBy(next.alerts, key.campaign, ev.time)
  {
    var r := RaiseInMemory(cfg, a.alerts, key, ev.time, severity);
    var times := Notified(outbox + a.events, key);
    assert key in a.alerts ==> Paced(cfg, a.alerts[key], times);
    RaisingPaces(cfg, a.alerts, key, ev.time, severity);
    RaisingKeepsPace(cfg, a.alerts, times, key, ev.time, severity);
    var next := Sounded(a, key, ev, r);
    forall k ensures if k in next.alerts then Paced(cfg, next.alerts[k], Notified(outbox + next.events, k))
                     else Notified(outbox + next.events, k) == [] {
      SoundedTells(a, outbox, key, ev, r, k);
    }
  }

  lemma {:induction false} AlarmsKeepPace(
      cfg: Config, alerts: map<AlertKey, Alert>, outbox: seq<Event>, id: CampaignId, ev: Evidence,
      triggers: seq<Trigger>)
    requires cfg.cooldown >= 0 && AllPaced(cfg, alerts, outbox) && NotifiedBy(alerts, id, ev.time)
    ensures var alarm := SoundInMemory(cfg, alerts, id, ev, triggers);
            && AllPaced(cfg, alarm.alerts, outbox + alarm.events) && NotifiedBy(alarm.alerts, id, ev.time)
            && (forall k: AlertKey :: k.campaign != id ==> (k in alarm.alerts <==> k in alerts))
            && (forall k :: k in alerts && k.campaign != id ==> alarm.alerts[k] == alerts[k])
  {
    if triggers == [] {
      assert outbox + [] == outbox;
    } else {
      var init, t := triggers[..|triggers| - 1], triggers[|triggers| - 1];
      AlarmsKeepPace(cfg, alerts, outbox, id, ev, init);
      SoundedKeepsPace(cfg, SoundInMemory(cfg, alerts, id, ev, init), outbox, AlertKey(id, t.kind), ev, t.severity);
    }
  }

  /** Alerts belong to campaigns opened by evidence seen, and the current ones notified no later than it. */
  ghost predicate AlertsTimely(st: Memory) {
    && (forall k :: k in st.alerts ==> k.campaign.opener in st.seen)
    && (forall s :: s in st.campaigns ==> NotifiedBy(st.alerts, st.campaigns[s].id, st.campaigns[s].last))
    && (forall s :: s in st.campaigns ==> st.campaigns[s].id.series == s && st.campaigns[s].id.opener in st.seen)
  }

  ghost predicate Pacing(cfg: Config, st: Memory) {
    AllPaced(cfg, st.alerts, st.outbox) && AlertsTimely(st) && CutoffsAreLast(st)
  }

  lemma ToldKeepsPace(cfg: Config, alerts: map<AlertKey, Alert>, outbox: seq<Event>, told: seq<Event>)
    requires AllPaced(cfg, alerts, outbox) && |told| <= 1 && forall e :: e in told ==> e.entity.OfCampaign?
    ensures AllPaced(cfg, alerts, outbox + told)
  {
    if told == [] {
      assert outbox + told == outbox;
    } else {
      assert told == [told[0]] && told[0] in told;
      forall k ensures Notified(outbox + told, k) == Notified(outbox, k) {
        NotifiedOneMore(outbox, told[0], k);
        assert Notified(outbox, k) + [] == Notified(outbox, k);
      }
    }
  }

  /** What a commit leaves, as the pacing argument needs it. */
  lemma CommitLeaves(cfg: Config, st: Memory, ev: Evidence, existing: Option<Campaign>, a: Assessment)
    ensures var campaign := if existing.Some? then Advanced(existing.value, ev, a) else Opened(ev, a);
            var alarm := SoundInMemory(cfg, st.alerts, campaign.id, ev, a.alerts);
            var next := CommitInMemory(cfg, st, ev, existing, a).state;
            && next.campaigns == st.campaigns[SeriesOf(ev) := campaign] && next.alerts == alarm.alerts
            && next.seen == st.seen
            && exists told :: next.outbox == st.outbox + told + alarm.events && |told| <= 1
                              && forall e :: e in told ==> e.entity.OfCampaign?
  {
    var campaign := if existing.Some? then Advanced(existing.value, ev, a) else Opened(ev, a);
    var alarm := SoundInMemory(cfg, st.alerts, campaign.id, ev, a.alerts);
    var next := CommitInMemory(cfg, st, ev, existing, a).state;
    var told := if existing.None? then [CampaignEvent(campaign.id, CampaignCreated, ev)]
                else if campaign.stage != existing.value.stage
                     then [CampaignEvent(campaign.id, CampaignStageChanged, ev)] else [];
    assert next.outbox == st.outbox + told + alarm.events;
  }

  lemma CommitKeepsPace(cfg: Config, st: Memory, ev: Evidence, existing: Option<Campaign>, a: Assessment)
    requires cfg.cooldown >= 0 && Pacing(cfg, st) && ev.id in st.seen && OnTime(ev)
    requires existing.Some? ==> SeriesOf(ev) in st.campaigns && existing.value == st.campaigns[SeriesOf(ev)]
                                && !IsStale(existing.value, ev)
    requires existing.None? ==> forall k: AlertKey :: k in st.alerts ==> k.campaign.opener != ev.id
    ensures Pacing(cfg, CommitInMemory(cfg, st, ev, existing, a).state)
  {
    var campaign := if existing.Some? then Advanced(existing.value, ev, a) else Opened(ev, a);
    var next := CommitInMemory(cfg, st, ev, existing, a).state;
    var alarm := SoundInMemory(cfg, st.alerts, campaign.id, ev, a.alerts);
    CommitLeaves(cfg, st, ev, existing, a);
    var told :| && next.outbox == st.outbox + told + alarm.events && |told| <= 1
                && forall e :: e in told ==> e.entity.OfCampaign?;
    assert campaign.last == ev.time || existing.Some?;
    assert NotifiedBy(st.alerts, campaign.id, ev.time);
    ToldKeepsPace(cfg, st.alerts, st.outbox, told);
    AlarmsKeepPace(cfg, st.alerts, st.outbox + told, campaign.id, ev, a.alerts);
    CommitStaysTimely(cfg, st, campaign, alarm.alerts, ev);
  }

  lemma CommitStaysTimely(cfg: Config, st: Memory, campaign: Campaign, alerts: map<AlertKey, Alert>, ev: Evidence)
    requires AlertsTimely(st) && CutoffsAreLast(st) && ev.id in st.seen
    requires campaign.id.series == SeriesOf(ev) && campaign.id.opener in st.seen
    requires campaign.applied.Some? && campaign.applied.value.cutoff == campaign.last && ev.time <= campaign.last
    requires NotifiedBy(alerts, campaign.id, ev.time)
    requires forall k: AlertKey :: k.campaign != campaign.id ==> (k in alerts <==> k in st.alerts)
    requires forall k: AlertKey :: k in st.alerts && k.campaign != campaign.id ==> alerts[k] == st.alerts[k]
    ensures var next := Memory(st.campaigns[SeriesOf(ev) := campaign], alerts, st.seen, [], [], []);
            AlertsTimely(next) && CutoffsAreLast(next)
  {
    forall s | s in st.campaigns && s != SeriesOf(ev)
      ensures NotifiedBy(alerts, st.campaigns[s].id, st.campaigns[s].last)
    {
      assert st.campaigns[s].id != campaign.id;
      assert NotifiedBy(st.alerts, st.campaigns[s].id, st.campaigns[s].last);
    }
  }

  lemma {:induction false} ApplyKeepsPace(cfg: Config, st: Memory, ev: Evidence)
    requires cfg.cooldown >= 0 && Pacing(cfg, st) && OnTime(ev)
    ensures Pacing(cfg, ApplyInMemory(cfg, st, ev).state)
  {
    if ev.id !in st.seen {
      var existing := ContinuedIn(cfg, st, ev);
      AssessSucceeds(StageOf(existing), ev.score);
      var noted := st.(seen := st.seen + {ev.id});
      assert Pacing(cfg, noted);
      if !(existing.Some? && IsStale(existing.value, ev)) {
        CommitKeepsPace(cfg, noted, ev, existing, Assess(StageOf(existing), ev.score).value);
      }
    }
  }

  lemma {:induction false} RunsArePaced(cfg: Config, evs: seq<Evidence>)
    requires cfg.cooldown >= 0 && AllOnTime(evs)
    ensures Pacing(cfg, RunInMemory(cfg, evs))
  {
    if evs != [] {
      assert evs[|evs| - 1] in evs && AllOnTime(evs[..|evs| - 1]);
      RunsArePaced(cfg, evs[..|evs| - 1]);
      ApplyKeepsPace(cfg, RunInMemory(cfg, evs[..|evs| - 1]), evs[|evs| - 1]);
    }
  }

  /**
   * With a positive cooldown S an alert notifies at most 4 + (last - first)/S times between its first
   * and its last notification.
   */
  lemma AlertRateIsBounded(cfg: Config, evs: seq<Evidence>, key: AlertKey)
    requires cfg.cooldown > 0 && AllOnTime(evs) && key in RunInMemory(cfg, evs).alerts
    ensures var times := Notified(RunInMemory(cfg, evs).outbox, key);
            times != [] && (|times| - 4) * cfg.cooldown <= times[|times| - 1] - times[0]
  {
    RunsArePaced(cfg, evs);
    var st := RunInMemory(cfg, evs);
    PacedIsBounded(cfg, st.alerts[key], Notified(st.outbox, key));
  }

  lemma PacedIsBounded(cfg: Config, alert: Alert, times: seq<int>)
    requires cfg.cooldown > 0 && Paced(cfg, alert, times)
    ensures (|times| - 4) * cfg.cooldown <= times[|times| - 1] - times[0]
  {
    FewerTimes(|times| - 4, |times| - 1 - Rank(alert.severity), cfg.cooldown, times[|times| - 1] - times[0]);
  }
}
