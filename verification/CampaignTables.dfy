/** What the rows of the relational repository say of the evidence applied to them, over every run. */
module CampaignTables {
  import opened Wrappers
  import opened CampaignPolicy
  import opened CampaignStores
  import opened CampaignLaws
  import opened CampaignRuns
  import opened CampaignAlerts

  /** The campaign a piece of evidence is applied to, if it is applied at all. */
  function AppliesInTables(cfg: Config, st: Tables, ev: Evidence): Option<CampaignId> {
    var at := ActiveRow(st.rows, SeriesOf(ev));
    if ev.id in st.evidence then None
    else if at.None? then Some(CampaignId(SeriesOf(ev), ev.id))
    else if IsStale(st.rows[at.value], ev) then None
    else if GapElapsed(cfg, st.rows[at.value], ev) then Some(CampaignId(SeriesOf(ev), ev.id))
    else Some(st.rows[at.value].id)
  }

  /** The evidence a run has applied to one campaign. */
  function AppliedInTables(cfg: Config, evs: seq<Evidence>, id: CampaignId): seq<Evidence> {
    if evs == [] then []
    else
      var init, ev := evs[..|evs| - 1], evs[|evs| - 1];
      AppliedInTables(cfg, init, id)
      + (if AppliesInTables(cfg, RunInTables(cfg, init), ev) == Some(id) then [ev] else [])
  }

  lemma AppliedOneMore(cfg: Config, init: seq<Evidence>, ev: Evidence, id: CampaignId)
    ensures AppliedInTables(cfg, init + [ev], id)
            == if AppliesInTables(cfg, RunInTables(cfg, init), ev) == Some(id)
               then AppliedInTables(cfg, init, id) + [ev] else AppliedInTables(cfg, init, id)
    ensures RunInTables(cfg, init + [ev]) == ApplyInTables(cfg, RunInTables(cfg, init), ev).state
  {
    assert (init + [ev])[..|init|] == init;
  }

  /** A row as it was before it was closed. */
  function BeforeClosing(c: Campaign): Campaign {
    if c.active then c else c.(active := true, version := c.version - 1)
  }

  /** Closing a row counts as one more version; otherwise the row is a summary of the evidence applied. */
  ghost predicate RowTells(c: Campaign, applied: seq<Evidence>) {
    Tells(BeforeClosing(c), applied)
  }

  ghost predicate DistinctRows(rows: seq<Campaign>) {
    forall i, j :: 0 <= i < j < |rows| ==> rows[i].id != rows[j].id
  }

  ghost predicate RowsTell(cfg: Config, evs: seq<Evidence>) {
    var rows := RunInTables(cfg, evs).rows;
    forall i :: 0 <= i < |rows| ==> RowTells(rows[i], AppliedInTables(cfg, evs, rows[i].id))
  }

  /** Campaigns are named after evidence stored, and evidence was only ever applied to campaigns that have a row. */
  ghost predicate Rooted(cfg: Config, evs: seq<Evidence>) {
    && OpenersStored(RunInTables(cfg, evs)) && DistinctRows(RunInTables(cfg, evs).rows)
    && forall id :: AppliedInTables(cfg, evs, id) != [] ==> id.opener in RunInTables(cfg, evs).evidence
  }

  // ---------------------------------------------------------------- what one call does to the rows

  /** The rows after a call, by the three things it can do. */
  lemma ApplyRows(cfg: Config, st: Tables, ev: Evidence)
    ensures var at, target := ActiveRow(st.rows, SeriesOf(ev)), AppliesInTables(cfg, st, ev);
            var next := ApplyInTables(cfg, st, ev).state;
            && (target.None? ==> next.rows == st.rows && next.alerts == st.alerts
                                 && next.evidence.Keys
                                 == if ev.id in st.evidence then st.evidence.Keys else st.evidence.Keys + {ev.id})
            && (target.Some? ==>
                  && next.evidence.Keys == st.evidence.Keys + {ev.id}
                  && next.alerts == SoundInRows(cfg, st.alerts, target.value, ev, Alerts(ev.score)).alerts
                  && (if at.Some? && !GapElapsed(cfg, st.rows[at.value], ev)
                      then next.rows == st.rows[at.value :=
                             Advanced(st.rows[at.value], ev, Assess(st.rows[at.value].stage, ev.score).value)]
                      else next.rows == (if at.Some? then st.rows[at.value := Closed(st.rows[at.value])] else st.rows)
                                        + [Opened(ev, Assess(Quiet, ev.score).value)]))
  {
    var at := ActiveRow(st.rows, SeriesOf(ev));
    AssessSucceeds(Quiet, ev.score);
    if at.Some? {
      AssessSucceeds(st.rows[at.value].stage, ev.score);
    }
  }

  lemma AdvancedRowTells(c: Campaign, applied: seq<Evidence>, ev: Evidence)
    requires RowTells(c, applied) && c.active && !IsStale(c, ev)
    ensures Assess(c.stage, ev.score).Success?
            && RowTells(Advanced(c, ev, Assess(c.stage, ev.score).value), applied + [ev])
  {
    AssessSucceeds(c.stage, ev.score);
    AdvancedTells(c, applied, ev, Assess(c.stage, ev.score).value);
  }

  lemma OpenedRowTells(ev: Evidence)
    ensures Assess(Quiet, ev.score).Success? && RowTells(Opened(ev, Assess(Quiet, ev.score).value), [ev])
  {
    AssessSucceeds(Quiet, ev.score);
    OpenedTells(ev, Assess(Quiet, ev.score).value);
  }

  lemma ClosedRowTells(c: Campaign, applied: seq<Evidence>)
    requires RowTells(c, applied) && c.active
    ensures RowTells(Closed(c), applied)
  {
  }

  lemma StepStaysRooted(cfg: Config, init: seq<Evidence>, ev: Evidence)
    requires Rooted(cfg, init)
    ensures Rooted(cfg, init + [ev])
  {
    var st, evs := RunInTables(cfg, init), init + [ev];
    var target, at := AppliesInTables(cfg, st, ev), ActiveRow(st.rows, SeriesOf(ev));
    ApplyRows(cfg, st, ev);
    AppliedOneMore(cfg, init, ev, CampaignId(SeriesOf(ev), ev.id));
    var next := ApplyInTables(cfg, st, ev).state;
    RowNames(cfg, st, ev);
    forall id | AppliedInTables(cfg, evs, id) != [] ensures id.opener in next.evidence {
      AppliedOneMore(cfg, init, ev, id);
      if target == Some(id) && id.opener != ev.id {
        assert st.rows[at.value] in st.rows;
      }
    }
  }

  /** Rows keep their names, and a new one is named after the evidence. */
  lemma RowNames(cfg: Config, st: Tables, ev: Evidence)
    requires OpenersStored(st) && DistinctRows(st.rows)
    ensures OpenersStored(ApplyInTables(cfg, st, ev).state) && DistinctRows(ApplyInTables(cfg, st, ev).state.rows)
  {
    ApplyRows(cfg, st, ev);
    hide ApplyInTables, Assess, SoundInRows;
    var next := ApplyInTables(cfg, st, ev).state;
    forall i | 0 <= i < |st.rows| ensures next.rows[i].id == st.rows[i].id && st.rows[i].id.opener in st.evidence {
      assert st.rows[i] in st.rows;
    }
    forall c | c in next.rows ensures c.id.opener in next.evidence {
      var i :| 0 <= i < |next.rows| && next.rows[i] == c;
    }
  }

  /** What happens to one row that is there already. */
  lemma OldRowTells(cfg: Config, st: Tables, ev: Evidence, i: nat, applied: seq<Evidence>)
    requires DistinctRows(st.rows) && OpenersStored(st) && i < |st.rows| && RowTells(st.rows[i], applied)
    ensures i < |ApplyInTables(cfg, st, ev).state.rows|
    ensures var c := ApplyInTables(cfg, st, ev).state.rows[i];
            c.id == st.rows[i].id
            && RowTells(c, if AppliesInTables(cfg, st, ev) == Some(c.id) then applied + [ev] else applied)
  {
    var at, target, before := ActiveRow(st.rows, SeriesOf(ev)), AppliesInTables(cfg, st, ev), st.rows[i];
    ApplyRows(cfg, st, ev);
    hide ApplyInTables, Assess, SoundInRows, RowTells;
    assert before in st.rows;
    if target.Some? && at == Some(i) {
      if GapElapsed(cfg, before, ev) {
        ClosedRowTells(before, applied);
      } else {
        AdvancedRowTells(before, applied, ev);
      }
    }
  }

  lemma NewRowTells(cfg: Config, st: Tables, ev: Evidence, i: nat)
    requires |st.rows| <= i < |ApplyInTables(cfg, st, ev).state.rows|
    ensures var c := ApplyInTables(cfg, st, ev).state.rows[i];
            c.id.opener == ev.id && ev.id !in st.evidence && AppliesInTables(cfg, st, ev) == Some(c.id)
            && RowTells(c, [ev])
  {
    ApplyRows(cfg, st, ev);
    OpenedRowTells(ev);
    hide ApplyInTables, Assess, SoundInRows, RowTells;
  }

  lemma StepRowTells(cfg: Config, init: seq<Evidence>, ev: Evidence, i: nat)
    requires Rooted(cfg, init) && RowsTell(cfg, init) && i < |ApplyInTables(cfg, RunInTables(cfg, init), ev).state.rows|
    ensures var c := ApplyInTables(cfg, RunInTables(cfg, init), ev).state.rows[i];
            RowTells(c, AppliedInTables(cfg, init + [ev], c.id))
  {
    var st := RunInTables(cfg, init);
    var c := ApplyInTables(cfg, st, ev).state.rows[i];
    AppliedOneMore(cfg, init, ev, c.id);
    hide ApplyInTables, RowTells, RunInTables, AppliedInTables, AppliesInTables;
    if i < |st.rows| {
      OldRowTells(cfg, st, ev, i, AppliedInTables(cfg, init, st.rows[i].id));
    } else {
      NewRowTells(cfg, st, ev, i);
      assert AppliedInTables(cfg, init, c.id) == [] && [] + [ev] == [ev];
    }
  }

  /**
   * In every reachable state every campaign row, active or closed, is a summary of the evidence applied
   * to it: its version counts them and the closing, its severity is their worst, its stage is the stage
   * machine run over them, and their evaluation orders strictly increase.
   */
  lemma {:induction false} CampaignRowsTell(cfg: Config, evs: seq<Evidence>)
    ensures Rooted(cfg, evs) && RowsTell(cfg, evs)
    ensures forall c :: c in RunInTables(cfg, evs).rows ==>
              c.version == |AppliedInTables(cfg, evs, c.id)| + (if c.active then 0 else 1)
  {
    if evs != [] {
      var init, ev := evs[..|evs| - 1], evs[|evs| - 1];
      assert evs == init + [ev];
      CampaignRowsTell(cfg, init);
      StepStaysRooted(cfg, init, ev);
      forall i | 0 <= i < |RunInTables(cfg, evs).rows|
        ensures RowTells(RunInTables(cfg, evs).rows[i], AppliedInTables(cfg, evs, RunInTables(cfg, evs).rows[i].id))
      {
        StepRowTells(cfg, init, ev, i);
      }
    }
    assert forall i :: 0 <= i < |RunInTables(cfg, evs).rows| ==>
             RowTells(RunInTables(cfg, evs).rows[i], AppliedInTables(cfg, evs, RunInTables(cfg, evs).rows[i].id));
  }

  // ---------------------------------------------------------------- alerts

  lemma StepTellsAlertRow(cfg: Config, init: seq<Evidence>, ev: Evidence, key: AlertKey)
    requires TellsAt(RunInTables(cfg, init).alerts, key, Raises(AppliedInTables(cfg, init, key.campaign), key.kind))
    ensures TellsAt(RunInTables(cfg, init + [ev]).alerts, key,
                    Raises(AppliedInTables(cfg, init + [ev], key.campaign), key.kind))
  {
    var st := RunInTables(cfg, init);
    var target := AppliesInTables(cfg, st, ev);
    AppliedOneMore(cfg, init, ev, key.campaign);
    ApplyRows(cfg, st, ev);
    if target.Some? {
      SoundAgrees(cfg, st.alerts, target.value, ev, Alerts(ev.score));
      SoundingTells(cfg, st.alerts, target.value, ev, key, AppliedInTables(cfg, init, key.campaign));
    }
  }

  /** The alert rows too count, span and grade what has raised them. */
  lemma {:induction false} AlertRowsTell(cfg: Config, evs: seq<Evidence>, key: AlertKey)
    ensures TellsAt(RunInTables(cfg, evs).alerts, key, Raises(AppliedInTables(cfg, evs, key.campaign), key.kind))
  {
    if evs != [] {
      var init, ev := evs[..|evs| - 1], evs[|evs| - 1];
      assert evs == init + [ev];
      AlertRowsTell(cfg, init, key);
      StepTellsAlertRow(cfg, init, ev, key);
    }
  }
}
