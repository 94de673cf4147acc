/**
 * The "Run Analysis" button handler and the results display. The session is
 * the map behind `st.session_state`, restricted to the three result keys; a
 * run writes each stage's result under its key right after the stage
 * returns, stops at the first exception, and never removes a key.
 */
module Orchestrator {
  import opened Wrappers
  import opened Json
  import opened Delegate
  import opened Agents

  /** The session keys the handler writes. */
  datatype Key = BillAnalysis | WebResearch | FinalReport

  type Session = map<Key, Value>

  /** What a stage sends to the model service. */
  datatype Request =
    | BillRequest                                  // the uploaded PDF
    | ResearchRequest(query: string)               // the benchmark query
    | ReportRequest(bill: Value, research: Value)  // both earlier results

  /** The observable steps of a run: calls to the service and session writes. */
  datatype Event = Asked(request: Request) | Stored(key: Key, value: Value)

  /** What each stage yields, given what it is handed: agent 1's outcome,
      the query derivation, agent 2 and agent 3. Any of them may raise. */
  datatype Stages = Stages(
    bill: Result<Value, Failure>,
    query: Value -> Result<string, Failure>,
    research: string -> Result<Value, Failure>,
    report: (Value, Value) -> Result<Value, Failure>)

  /** The session after the run, the events in the order they happened, and
      the exception shown to the user, if one ended the run. */
  datatype RunResult = RunResult(session: Session, trace: seq<Event>, error: Option<Failure>)

  /** Where an event stands in a run that goes all the way through. */
  function Step(e: Event): nat {
    match e
    case Asked(BillRequest) => 0
    case Stored(BillAnalysis, _) => 1
    case Asked(ResearchRequest(_)) => 2
    case Stored(WebResearch, _) => 3
    case Asked(ReportRequest(_, _)) => 4
    case Stored(FinalReport, _) => 5
  }

  /** The trace is a prefix of the full sequence: ask agent 1, store its
      result, ask agent 2, store, ask agent 3, store. */
  predicate InOrder(trace: seq<Event>) {
    forall i :: 0 <= i < |trace| ==> Step(trace[i]) == i
  }

  /** The session writes of a trace, later writes winning. */
  function Writes(trace: seq<Event>): map<Key, Value>
    decreases |trace|
  {
    if trace == [] then map[]
    else
      var w := Writes(trace[..|trace| - 1]);
      var e := trace[|trace| - 1];
      if e.Stored? then w[e.key := e.value] else w
  }

  /** The session after the trace's writes are made to `s`, one by one. */
  function Apply(s: Session, trace: seq<Event>): Session
    decreases |trace|
  {
    if trace == [] then s
    else
      var p := Apply(s, trace[..|trace| - 1]);
      var e := trace[|trace| - 1];
      if e.Stored? then p[e.key := e.value] else p
  }

  lemma ApplySnoc(s: Session, t: seq<Event>, e: Event)
    ensures Apply(s, t + [e]) == if e.Stored? then Apply(s, t)[e.key := e.value] else Apply(s, t)
  {
  }

  /** Making the writes one by one is overwriting `s` with all of them. */
  lemma {:induction false} ApplyIsOverwrite(s: Session, t: seq<Event>)
    ensures Apply(s, t) == s + Writes(t)
    decreases |t|
  {
    if t == [] {
      assert s + map[] == s;
    } else {
      ApplyIsOverwrite(s, t[..|t| - 1]);
    }
  }

  /** The `try` block of the button handler (app.py:136-160): run the stages
      in order, write each result under its key right after the stage
      returns, and let the first exception end the run. Nothing written
      before the exception is undone, and no key is ever removed. */
  function Orchestrate(s: Session, st: Stages): (r: RunResult)
    ensures InOrder(r.trace) && 1 <= |r.trace| <= 6
    ensures r.error.None? <==> |r.trace| == 6
    ensures r.error.Some? ==> |r.trace| in {1, 2, 3, 5}
  {
    var t0 := [Asked(BillRequest)];
    match st.bill
    case Err(e) =>
      RunResult(s, t0, Some(e))
    case Ok(bill) =>
      var t1 := t0 + [Stored(BillAnalysis, bill)];
      var s1 := s[BillAnalysis := bill];
      match st.query(bill)
      case Err(e) =>
        RunResult(s1, t1, Some(e))
      case Ok(query) =>
        var t2 := t1 + [Asked(ResearchRequest(query))];
        match st.research(query)
        case Err(e) =>
          RunResult(s1, t2, Some(e))
        case Ok(research) =>
          var t3 := t2 + [Stored(WebResearch, research)];
          var s2 := s1[WebResearch := research];
          var t4 := t3 + [Asked(ReportRequest(bill, research))];
          match st.report(bill, research)
          case Err(e) =>
            RunResult(s2, t4, Some(e))
          case Ok(report) =>
            RunResult(s2[FinalReport := report], t4 + [Stored(FinalReport, report)], None)
  }

  /** Everything outside the repository's own logic that a run depends on:
      the service's answer to each request, `json.loads`, and `str` as used
      by the f-string that renders the rate. */
  datatype World = World(
    billReply: Reply,
    researchReply: string -> Reply,
    reportReply: (Value, Value) -> Reply,
    parse: Parser,
    show: Value -> string)

  /** The stages of `app.py` against a given world. */
  function StagesOf(w: World): Stages {
    Stages(
      StrictOutcome(w.billReply, w.parse),
      bill => DeriveQuery(bill, w.show),
      query => LenientOutcome(w.researchReply(query), w.parse),
      (bill, research) => StrictOutcome(w.reportReply(bill, research), w.parse))
  }

  /** One press of the button with a file uploaded. */
  function Run(s: Session, w: World): RunResult {
    Orchestrate(s, StagesOf(w))
  }

  /** In an ordered trace, a key has been written exactly when the trace
      got past its store event, and holds the value stored there. */
  lemma {:induction false} WritesOfInOrder(t: seq<Event>)
    requires InOrder(t)
    ensures BillAnalysis in Writes(t) <==> |t| >= 2
    ensures WebResearch in Writes(t) <==> |t| >= 4
    ensures FinalReport in Writes(t) <==> |t| >= 6
    ensures |t| >= 2 ==> Writes(t)[BillAnalysis] == t[1].value
    ensures |t| >= 4 ==> Writes(t)[WebResearch] == t[3].value
    ensures |t| >= 6 ==> Writes(t)[FinalReport] == t[5].value
    decreases |t|
  {
    if t != [] {
      var u := t[..|t| - 1];
      assert InOrder(u) by {
        forall i | 0 <= i < |u| ensures Step(u[i]) == i {
          assert u[i] == t[i];
        }
      }
      WritesOfInOrder(u);
      assert Step(t[|t| - 1]) == |t| - 1;
      if |t| > 2 { assert u[1] == t[1]; }
      if |t| > 4 { assert u[3] == t[3]; }
    }
  }

  /** The session a run leaves is the one it started from with the run's
      writes made to it one by one, which is the start session overwritten
      by everything the run stored. */
  lemma OrchestrateSession(s: Session, st: Stages)
    ensures var r := Orchestrate(s, st);
            && r.session == Apply(s, r.trace)
            && r.session == s + Writes(r.trace)
  {
    var t0 := [Asked(BillRequest)];
    ApplySnoc(s, [], Asked(BillRequest));
    assert [] + t0 == t0;
    if st.bill.Ok? {
      var bill := st.bill.value;
      var t1 := t0 + [Stored(BillAnalysis, bill)];
      ApplySnoc(s, t0, Stored(BillAnalysis, bill));
      if st.query(bill).Ok? {
        var query := st.query(bill).value;
        var t2 := t1 + [Asked(ResearchRequest(query))];
        ApplySnoc(s, t1, Asked(ResearchRequest(query)));
        if st.research(query).Ok? {
          var research := st.research(query).value;
          var t3 := t2 + [Stored(WebResearch, research)];
          ApplySnoc(s, t2, Stored(WebResearch, research));
          var t4 := t3 + [Asked(ReportRequest(bill, research))];
          ApplySnoc(s, t3, Asked(ReportRequest(bill, research)));
          if st.report(bill, research).Ok? {
            ApplySnoc(s, t4, Stored(FinalReport, st.report(bill, research).value));
          }
        }
      }
    }
    ApplyIsOverwrite(s, Orchestrate(s, st).trace);
  }

  /** Stage by stage: a stage runs only once the one before it has returned,
      its result is stored right after it returns, the next stage is handed
      exactly what was stored, and the first exception ends the run with
      that stage's error. */
  lemma OrchestrateStepByStep(s: Session, st: Stages)
    ensures var r := Orchestrate(s, st);
            && r.trace[0] == Asked(BillRequest)
            && (|r.trace| >= 2 <==> st.bill.Ok?)
            && (st.bill.Err? ==> r.error == Some(st.bill.error))
            && (st.bill.Ok? ==>
                  var bill := st.bill.value;
                  && r.trace[1] == Stored(BillAnalysis, bill)
                  && (|r.trace| >= 3 <==> st.query(bill).Ok?)
                  && (st.query(bill).Err? ==> r.error == Some(st.query(bill).error))
                  && (st.query(bill).Ok? ==>
                        var query := st.query(bill).value;
                        && r.trace[2] == Asked(ResearchRequest(query))
                        && (|r.trace| >= 4 <==> st.research(query).Ok?)
                        && (st.research(query).Err? ==> r.error == Some(st.research(query).error))
                        && (st.research(query).Ok? ==>
                              var research := st.research(query).value;
                              && r.trace[3] == Stored(WebResearch, research)
                              && r.trace[4] == Asked(ReportRequest(bill, research))
                              && (|r.trace| == 6 <==> st.report(bill, research).Ok?)
                              && (st.report(bill, research).Err? ==>
                                    r.error == Some(st.report(bill, research).error))
                              && (st.report(bill, research).Ok? ==>
                                    r.trace[5] == Stored(FinalReport, st.report(bill, research).value)))))
  {
  }

  /** A key is written in a run exactly when its stage and every stage before
      it succeeded; the first failure leaves all later keys unwritten. */
  lemma OrchestrateWritesInOrder(s: Session, st: Stages)
    ensures var r := Orchestrate(s, st);
            var w := Writes(r.trace);
            && (BillAnalysis in w <==> st.bill.Ok?)
            && (WebResearch in w <==>
                  st.bill.Ok? && st.query(st.bill.value).Ok?
                  && st.research(st.query(st.bill.value).value).Ok?)
            && (FinalReport in w <==>
                  WebResearch in w
                  && st.report(st.bill.value, st.research(st.query(st.bill.value).value).value).Ok?)
            && (st.bill.Ok? ==> w[BillAnalysis] == st.bill.value)
  {
    var r := Orchestrate(s, st);
    WritesOfInOrder(r.trace);
    OrchestrateStepByStep(s, st);
  }

  /** A run never deletes a key; keys it wrote hold the new values, and a key
      it did not write keeps whatever an earlier run left there. */
  lemma OrchestrateKeepsUnwrittenKeys(s: Session, st: Stages, k: Key)
    ensures var r := Orchestrate(s, st);
            && s.Keys <= r.session.Keys
            && (k !in Writes(r.trace) ==> (k in r.session <==> k in s))
            && (k !in Writes(r.trace) && k in s ==> k in r.session && r.session[k] == s[k])
            && (k in Writes(r.trace) ==> k in r.session && r.session[k] == Writes(r.trace)[k])
  {
    OrchestrateSession(s, st);
  }

  /** Agent 2 is asked with the benchmark query built from the rate of the
      bill that was just stored, and agent 3 with the stored bill and
      research. */
  lemma RunAsksWithStoredResults(s: Session, w: World)
    ensures var r := Run(s, w);
            && (|r.trace| > 2 ==>
                  && r.trace[1].Stored?
                  && Get(r.trace[1].value, "ratePerKwh").Some?
                  && r.trace[2] == Asked(ResearchRequest(
                       BenchmarkQuery(w.show(Get(r.trace[1].value, "ratePerKwh").value)))))
            && (|r.trace| > 4 ==>
                  && r.trace[1].Stored? && r.trace[3].Stored?
                  && r.trace[4] == Asked(ReportRequest(r.trace[1].value, r.trace[3].value)))
  {
    OrchestrateStepByStep(s, StagesOf(w));
  }

  /** Where each of the run's stages can fail: agent 1 on the call, the
      missing first text block or the parse; the query only on a bill without
      `ratePerKwh`; agent 2 only on the call; agent 3 like agent 1. */
  lemma RunFailureCauses(s: Session, w: World)
    ensures var r := Run(s, w);
            && (|r.trace| == 1 ==> r.error.Some? && r.error.value != NoRate)
            && (|r.trace| == 2 ==>
                  && r.error == Some(NoRate)
                  && r.trace[1].Stored?
                  && Get(r.trace[1].value, "ratePerKwh").None?)
            && (|r.trace| == 3 ==>
                  && r.error == Some(DelegateError)
                  && r.trace[2].Asked? && r.trace[2].request.ResearchRequest?
                  && w.researchReply(r.trace[2].request.query).Raised?)
            && (|r.trace| == 5 ==> r.error.Some? && r.error.value != NoRate)
  {
    var r := Run(s, w);
    OrchestrateStepByStep(s, StagesOf(w));
    if |r.trace| == 5 {
      var bill := r.trace[1].value;
      var research := r.trace[3].value;
      assert StagesOf(w).report(bill, research)
             == StrictOutcome(w.reportReply(bill, research), w.parse);
    }
  }

  /** Later results only exist alongside earlier ones. */
  predicate Consistent(s: Session) {
    && (WebResearch in s ==> BillAnalysis in s)
    && (FinalReport in s ==> WebResearch in s)
  }

  /** Starting from a session that respects the stage order (the empty one
      does), every run leaves one that still does. */
  lemma OrchestratePreservesConsistency(s: Session, st: Stages)
    requires Consistent(s)
    ensures Consistent(Orchestrate(s, st).session)
  {
  }

  // ---------------------------------------------------------------------
  // Display (app.py:162-212)

  /** How far a result panel gets: its gate is closed or it is never
      reached, it renders to the end, or a lookup in it raises. A raise ends
      the script, so nothing after it is rendered. */
  datatype Panel = Hidden | Rendered | Aborted

  /** The state of the three result panels after the display code ran. */
  datatype Panels = Panels(bill: Panel, research: Panel, report: Panel)

  /** The bill panel (app.py:169-178) reads `totalCost`, `usage`,
      `ratePerKwh` and `billingPeriod`; `get('insights')` never raises on a
      dict. */
  function BillPanel(v: Value): Panel {
    if HasKeys(v, {"totalCost", "usage", "ratePerKwh", "billingPeriod"}) then Rendered
    else Aborted
  }

  /** The research panel (app.py:183-189) reads `averageRate` and iterates
      over `recommendations`. */
  function ResearchPanel(v: Value): Panel {
    if HasKeys(v, {"averageRate", "recommendations"})
       && Iterable(v.fields["recommendations"])
    then Rendered
    else Aborted
  }

  /** The report panel (app.py:194-211) reads `summary` and `comparison` and
      iterates over `savings` and `nextSteps`. */
  function ReportPanel(v: Value): Panel {
    if HasKeys(v, {"summary", "comparison", "savings", "nextSteps"})
       && Iterable(v.fields["savings"]) && Iterable(v.fields["nextSteps"])
    then Rendered
    else Aborted
  }

  /** The display code: the bill panel is gated on `bill_analysis`
      (app.py:163), the other two panels are nested under that gate and gated
      on their own keys (app.py:181, 192), and a panel that raises stops
      every panel after it. */
  function Display(s: Session): (p: Panels)
    ensures p.bill == Hidden <==> BillAnalysis !in s
    ensures p.research != Hidden ==> p.bill == Rendered && WebResearch in s
    ensures p.report != Hidden ==> p.bill == Rendered && p.research != Aborted && FinalReport in s
  {
    if BillAnalysis !in s then Panels(Hidden, Hidden, Hidden)
    else if BillPanel(s[BillAnalysis]) == Aborted then Panels(Aborted, Hidden, Hidden)
    else
      var research := if WebResearch in s then ResearchPanel(s[WebResearch]) else Hidden;
      var report :=
        if research == Aborted || FinalReport !in s then Hidden else ReportPanel(s[FinalReport]);
      Panels(Rendered, research, report)
  }

  /** The record agent 2 falls back to has everything its panel reads. */
  lemma FallbackRenders()
    ensures ResearchPanel(Fallback) == Rendered
  {
  }

  /** Every stored result has what its panel reads. */
  predicate Renders(s: Session) {
    && (BillAnalysis in s ==> BillPanel(s[BillAnalysis]) == Rendered)
    && (WebResearch in s ==> ResearchPanel(s[WebResearch]) == Rendered)
    && (FinalReport in s ==> ReportPanel(s[FinalReport]) == Rendered)
  }

  function Shown(present: bool): Panel {
    if present then Rendered else Hidden
  }

  /** On a session that respects the stage order and whose results all have
      what their panels read, each panel renders exactly when its key is
      present. */
  lemma DisplayOfConsistent(s: Session)
    requires Consistent(s) && Renders(s)
    ensures Display(s) == Panels(Shown(BillAnalysis in s), Shown(WebResearch in s),
                                 Shown(FinalReport in s))
  {
  }

  /** A run takes a panel away only by storing a result whose panel, or an
      earlier one, raises: every panel reached before the run is reached
      after it unless an earlier panel raises. */
  lemma OrchestrateHidesOnlyByRaising(s: Session, st: Stages)
    ensures var before := Display(s);
            var after := Display(Orchestrate(s, st).session);
            && (before.bill != Hidden ==> after.bill != Hidden)
            && (before.research != Hidden ==>
                  after.research != Hidden || after.bill == Aborted)
            && (before.report != Hidden ==>
                  after.report != Hidden || after.bill == Aborted || after.research == Aborted)
  {
    OrchestrateSession(s, st);
  }

  /** A run that fails on a bill without `ratePerKwh` leaves that bill
      stored; its panel then raises at the rate lookup (app.py:174) and no
      research or report panel is rendered, whatever earlier runs left. */
  lemma NoRateRunHidesLaterPanels(s: Session, w: World)
    requires Run(s, w).error == Some(NoRate)
    ensures Display(Run(s, w).session) == Panels(Aborted, Hidden, Hidden)
  {
    var r := Run(s, w);
    RunFailureCauses(s, w);
    OrchestrateSession(s, StagesOf(w));
    WritesOfInOrder(r.trace);
    assert |r.trace| == 2;
    assert r.session[BillAnalysis] == r.trace[1].value;
  }

  /** A run that completes leaves exactly the three keys; each panel then
      renders when the new result has what it reads. */
  lemma CompleteRunShowsEverything(s: Session, st: Stages)
    requires Orchestrate(s, st).error.None?
    ensures var r := Orchestrate(s, st);
            && r.session.Keys == {BillAnalysis, WebResearch, FinalReport}
            && Display(r.session).bill == BillPanel(r.trace[1].value)
            && (BillPanel(r.trace[1].value) == Rendered ==>
                  Display(r.session).research == ResearchPanel(r.trace[3].value))
            && (BillPanel(r.trace[1].value) == Rendered
                && ResearchPanel(r.trace[3].value) == Rendered ==>
                  Display(r.session).report == ReportPanel(r.trace[5].value))
  {
    var r := Orchestrate(s, st);
    OrchestrateSession(s, st);
    WritesOfInOrder(r.trace);
    forall k | k in r.session.Keys
      ensures k in {BillAnalysis, WebResearch, FinalReport}
    {
      assert k.BillAnalysis? || k.WebResearch? || k.FinalReport?;
    }
  }

  /** On a fresh session, a run whose report stage fails leaves the bill and
      the research and no report; the report panel stays hidden. */
  lemma ReportFailureKeepsPartialResults(st: Stages)
    requires |Orchestrate(map[], st).trace| == 5
    ensures var r := Orchestrate(map[], st);
            && r.session.Keys == {BillAnalysis, WebResearch}
            && Display(r.session).report == Hidden
            && Display(r.session).bill == BillPanel(r.trace[1].value)
            && (BillPanel(r.trace[1].value) == Rendered ==>
                  Display(r.session).research == ResearchPanel(r.trace[3].value))
  {
    var r := Orchestrate(map[], st);
    OrchestrateSession(map[], st);
    WritesOfInOrder(r.trace);
  }

  /** After a complete run, a run that stores a new bill and then fails in
      agent 2 keeps the earlier research and report next to the new bill;
      when the new bill's panel renders, they are displayed as before. */
  lemma StaleResultsStayVisible(s: Session, st: Stages)
    requires s.Keys == {BillAnalysis, WebResearch, FinalReport}
    requires |Orchestrate(s, st).trace| == 3
    ensures var r := Orchestrate(s, st);
            && r.session[BillAnalysis] == r.trace[1].value
            && r.session[WebResearch] == s[WebResearch]
            && r.session[FinalReport] == s[FinalReport]
            && (BillPanel(r.trace[1].value) == Rendered ==>
                  && Display(r.session).research == ResearchPanel(s[WebResearch])
                  && (ResearchPanel(s[WebResearch]) == Rendered ==>
                        Display(r.session).report == ReportPanel(s[FinalReport])))
  {
    var r := Orchestrate(s, st);
    OrchestrateSession(s, st);
    WritesOfInOrder(r.trace);
  }
}
