/*
 * The dispatching part of the result intake handler: the alert record it
 * writes to the record store, the workflow executions it starts, the
 * response it returns, and the handler object that performs one invocation
 * step by step. `Step` is the pure specification of one invocation; `Run`
 * chains it over many invocations.
 */
module Handler {
  import opened Intake

  /** The fields that `details_summary` interpolates, kept apart instead of rendered as text. */
  datatype Summary = Summary(patientName: string, testName: string, value: real, level: string)

  /** The item written to the record store, keyed by its `resultId`. */
  datatype AlertRecord = AlertRecord(
    resultId: string,
    status: string,
    acknowledged: bool,
    timestamp: string,
    details: Summary)

  /** The JSON body of a response: the result on success, the fault on error. */
  datatype Body =
    | ResultBody(resultId: string, status: string, critical: bool)
    | ErrorBody(error: Fault)

  datatype Response = Response(statusCode: int, headers: map<string, string>, body: Body)

  /** The external state one invocation can change: the record store and the started executions. */
  datatype State = State(store: map<string, AlertRecord>, executions: seq<Submission>)

  /**
   * One invocation with what it cannot compute itself: the current minute
   * stamp and timestamp, and whether the store write or the workflow start fails.
   */
  datatype Invocation = Invocation(
    event: Event,
    minuteStamp: string,
    timestamp: string,
    storeFails: bool,
    triggerFails: bool)

  /** The submission after parsing, defaulting and classification. */
  datatype Prepared = Prepared(
    submission: Submission,
    testName: string,
    value: real,
    resultId: string,
    critical: bool)

  const Pending: string := "PENDING"
  const NormalStatus: string := "NORMAL"
  const AlertSent: string := "CRITICAL_ALERT_SENT"
  const AllowOrigin: string := "Access-Control-Allow-Origin"
  const AllowHeaders: string := "Access-Control-Allow-Headers"
  const AllowMethods: string := "Access-Control-Allow-Methods"

  const SuccessHeaders: map<string, string> :=
    map[AllowOrigin := "*", AllowHeaders := "Content-Type", AllowMethods := "OPTIONS,POST"]
  const ErrorHeaders: map<string, string> := map[AllowOrigin := "*"]

  function Success(data: Body): Response
  {
    Response(200, SuccessHeaders, data)
  }

  function Failure(fault: Fault): Response
  {
    Response(500, ErrorHeaders, ErrorBody(fault))
  }

  /** Everything before the dispatch: parse the event, read the value, name the result, classify it. */
  function Prepare(event: Event, minuteStamp: string): (r: Result<Prepared>)
    ensures r.Err? <==> Parse(event).Err? || ValueOf(Parse(event).value).Err?
    ensures r.Err? ==> r.fault == (if Parse(event).Err? then MalformedBody else BadValue)
    ensures r.Ok? ==>
      && Parse(event) == Ok(r.value.submission)
      && ValueOf(r.value.submission) == Ok(r.value.value)
      && r.value.testName == TestNameOf(r.value.submission)
      && r.value.resultId == ResultId(r.value.submission, minuteStamp)
      && r.value.critical == Classify(r.value.submission.isCritical, r.value.testName, r.value.value)
  {
    match Parse(event)
    case Err(f) => Err(f)
    case Ok(s) =>
      match ValueOf(s)
      case Err(f) => Err(f)
      case Ok(v) =>
        var name := TestNameOf(s);
        Ok(Prepared(s, name, v, ResultId(s, minuteStamp), Classify(s.isCritical, name, v)))
  }

  /** The summary of a critical result; the patient name, then the criticality level, must be present. */
  function Summarize(s: Submission, testName: string, value: real): (r: Result<Summary>)
    ensures r.Ok? <==> s.patientName.Some? && s.criticality.Some? && "level" in s.criticality.value
    ensures r.Ok? ==> r.value.patientName == s.patientName.value && r.value.level == s.criticality.value["level"]
    ensures r.Ok? ==> r.value.testName == testName && r.value.value == value
    ensures s.patientName.None? ==> r == Err(MissingKey("patient_name"))
    ensures s.patientName.Some? && s.criticality.None? ==> r == Err(MissingKey("criticality"))
    ensures s.patientName.Some? && s.criticality.Some? && "level" !in s.criticality.value ==>
      r == Err(MissingKey("level"))
  {
    if s.patientName.None? then Err(MissingKey("patient_name"))
    else if s.criticality.None? then Err(MissingKey("criticality"))
    else if "level" !in s.criticality.value then Err(MissingKey("level"))
    else Ok(Summary(s.patientName.value, testName, value, s.criticality.value["level"]))
  }

  /** The record a critical result is stored as. */
  function NewRecord(p: Prepared, timestamp: string, summary: Summary): AlertRecord
  {
    AlertRecord(p.resultId, Pending, false, timestamp, summary)
  }

  /**
   * One invocation of the handler: the new external state and the response.
   * A response is 200 with the full CORS headers exactly when it carries a
   * result, and 500 with only the origin header otherwise; at most one
   * execution is started, only for a critical result whose PENDING record
   * is in the store, and never on the error path.
   */
  function Step(st: State, inv: Invocation): (r: (State, Response))
    ensures r.1.statusCode == 200 || r.1.statusCode == 500
    ensures r.1.statusCode == 200 <==> r.1.body.ResultBody?
    ensures r.1.headers == if r.1.statusCode == 200 then SuccessHeaders else ErrorHeaders
    ensures r.1.body.ResultBody? ==> (r.1.body.critical <==> r.1.body.status == AlertSent)
    ensures r.1.body.ResultBody? && !r.1.body.critical ==> r.1.body.status == NormalStatus && r.0 == st
    ensures r.0.executions == st.executions ||
      (|r.0.executions| == |st.executions| + 1 && r.0.executions[..|st.executions|] == st.executions)
    ensures r.0.executions != st.executions ==>
      && r.1.body.ResultBody? && r.1.body.critical
      && r.1.body.resultId in r.0.store
      && r.0.store[r.1.body.resultId].status == Pending
      && !r.0.store[r.1.body.resultId].acknowledged
    ensures r.1.statusCode == 500 ==> r.0.executions == st.executions
    ensures r.1.statusCode == 500 && r.1.body.error != TriggerUnavailable ==> r.0 == st
  {
    match Prepare(inv.event, inv.minuteStamp)
    case Err(f) => (st, Failure(f))
    case Ok(p) =>
      if !p.critical then (st, Success(ResultBody(p.resultId, NormalStatus, false)))
      else
        match Summarize(p.submission, p.testName, p.value)
        case Err(f) => (st, Failure(f))
        case Ok(summary) =>
          if inv.storeFails then (st, Failure(StoreUnavailable))
          else
            var store := st.store[p.resultId := NewRecord(p, inv.timestamp, summary)];
            if inv.triggerFails then (State(store, st.executions), Failure(TriggerUnavailable))
            else (State(store, st.executions + [p.submission]), Success(ResultBody(p.resultId, AlertSent, true)))
  }

  /** A normal result changes nothing outside and is reported NORMAL under its id. */
  lemma NormalSubmission(st: State, inv: Invocation, p: Prepared)
    requires Prepare(inv.event, inv.minuteStamp) == Ok(p) && !p.critical
    ensures Step(st, inv) == (st, Success(ResultBody(p.resultId, NormalStatus, false)))
  {
  }

  /**
   * A critical result whose store write and workflow start both succeed adds
   * or replaces exactly one PENDING, unacknowledged record at its id, leaves
   * every other key alone, starts one execution with the submission as parsed,
   * and is reported as an alert sent.
   */
  lemma CriticalSubmission(st: State, inv: Invocation, p: Prepared, summary: Summary)
    requires Prepare(inv.event, inv.minuteStamp) == Ok(p) && p.critical
    requires Summarize(p.submission, p.testName, p.value) == Ok(summary)
    requires !inv.storeFails && !inv.triggerFails
    ensures var (st', resp) := Step(st, inv);
      && st'.store.Keys == st.store.Keys + {p.resultId}
      && st'.store[p.resultId] == AlertRecord(p.resultId, Pending, false, inv.timestamp, summary)
      && (forall k :: k in st.store && k != p.resultId ==> st'.store[k] == st.store[k])
      && st'.executions == st.executions + [p.submission]
      && resp == Success(ResultBody(p.resultId, AlertSent, true))
  {
  }

  /** The store write comes first: when it fails no execution is started, whatever the trigger would do. */
  lemma StoreFailure(st: State, inv: Invocation, p: Prepared)
    requires Prepare(inv.event, inv.minuteStamp) == Ok(p) && p.critical
    requires Summarize(p.submission, p.testName, p.value).Ok?
    requires inv.storeFails
    ensures Step(st, inv) == (st, Failure(StoreUnavailable))
  {
  }

  /**
   * The two calls are not atomic: when the workflow start fails after the
   * write, the PENDING record stays in the store with no execution started,
   * and the caller only sees the error.
   */
  lemma TriggerFailure(st: State, inv: Invocation, p: Prepared, summary: Summary)
    requires Prepare(inv.event, inv.minuteStamp) == Ok(p) && p.critical
    requires Summarize(p.submission, p.testName, p.value) == Ok(summary)
    requires !inv.storeFails && inv.triggerFails
    ensures var (st', resp) := Step(st, inv);
      && st'.store == st.store[p.resultId := AlertRecord(p.resultId, Pending, false, inv.timestamp, summary)]
      && st'.executions == st.executions
      && resp == Failure(TriggerUnavailable)
  {
  }

  /**
   * A critical result without a patient name, a criticality object or its
   * level fails while the item is built, before the store is written, with
   * the KeyError of the first missing key in the summary's order.
   */
  lemma MissingDetails(st: State, inv: Invocation, p: Prepared)
    requires Prepare(inv.event, inv.minuteStamp) == Ok(p) && p.critical
    requires || p.submission.patientName.None?
             || p.submission.criticality.None?
             || "level" !in p.submission.criticality.value
    ensures Step(st, inv).0 == st
    ensures Step(st, inv).1 == Failure(
      if p.submission.patientName.None? then MissingKey("patient_name")
      else if p.submission.criticality.None? then MissingKey("criticality")
      else MissingKey("level"))
    ensures Step(st, inv).1.headers == map[AllowOrigin := "*"]
  {
  }

  /** An undecodable body or an unconvertible value fails before anything else happens. */
  lemma EarlyFailure(st: State, inv: Invocation, f: Fault)
    requires Prepare(inv.event, inv.minuteStamp) == Err(f)
    ensures f == MalformedBody || f == BadValue
    ensures Step(st, inv) == (st, Failure(f))
  {
  }

  /**
   * The store write is an unconditional upsert: a critical resubmission under
   * an id whose record was already acknowledged puts it back to PENDING.
   */
  lemma ResubmissionResetsRecord(st: State, inv: Invocation, p: Prepared)
    requires Prepare(inv.event, inv.minuteStamp) == Ok(p) && p.critical
    requires Summarize(p.submission, p.testName, p.value).Ok?
    requires !inv.storeFails
    requires p.resultId in st.store && st.store[p.resultId].acknowledged
    ensures p.resultId in Step(st, inv).0.store
    ensures Step(st, inv).0.store[p.resultId].status == Pending
    ensures !Step(st, inv).0.store[p.resultId].acknowledged
  {
  }

  /** The explicit-id potassium alert: 7.2 is above the range, so the record is stored and the workflow started. */
  lemma HighPotassiumScenario(st: State, timestamp: string, minuteStamp: string)
    ensures var s := Submission(
        Some(Num(7.2)), Some("Potassium"), Some("R1"), None, None,
        Some("Jane Doe"), Some(map["level" := "HIGH"]));
      var (st', resp) := Step(st, Invocation(Direct(s), minuteStamp, timestamp, false, false));
      && st'.store == st.store["R1" := AlertRecord("R1", Pending, false, timestamp,
                                                    Summary("Jane Doe", "Potassium", 7.2, "HIGH"))]
      && st'.executions == st.executions + [s]
      && resp == Response(200, SuccessHeaders, ResultBody("R1", AlertSent, true))
  {
    PotassiumSpellings();
  }

  /** The boundary value 2.5 without an id: nothing happens and the synthesized id is reported NORMAL. */
  lemma BoundaryScenario(st: State, inv: Invocation)
    requires inv.event == Direct(Submission(Some(Num(2.5)), Some("potassium"), None, None, None, None, None))
    ensures Step(st, inv) == (st, Success(ResultBody("NO-ID-" + inv.minuteStamp, NormalStatus, false)))
  {
    var s := inv.event.submission;
    BoundaryPrepared(s, inv.minuteStamp);
    NormalSubmission(st, inv, Prepared(s, "potassium", 2.5, "NO-ID-" + inv.minuteStamp, false));
  }

  /** The boundary submission parses, keeps 2.5, is named by its synthesized id and is normal. */
  lemma BoundaryPrepared(s: Submission, minuteStamp: string)
    requires s == Submission(Some(Num(2.5)), Some("potassium"), None, None, None, None, None)
    ensures Prepare(Direct(s), minuteStamp) == Ok(Prepared(s, "potassium", 2.5, "NO-ID-" + minuteStamp, false))
  {
    NoIdSynthesized(s, minuteStamp);
    PotassiumSpellings();
    assert Parse(Direct(s)) == Ok(s);
    assert ValueOf(s) == Ok(2.5);
    assert TestNameOf(s) == "potassium";
    assert !Classify(None, "potassium", 2.5);
  }

  /** With neither a result id nor a patient id the id is "NO-ID", a dash and the minute stamp. */
  lemma NoIdSynthesized(s: Submission, minuteStamp: string)
    requires s.resultId.None? && s.patientId.None?
    ensures ResultId(s, minuteStamp) == "NO-ID-" + minuteStamp
  {
  }

  /** The override on a sodium result without patient details: a KeyError on the patient name and no effect. */
  lemma OverrideWithoutDetailsScenario(st: State, inv: Invocation)
    requires inv.event == Direct(Submission(Some(Num(140.0)), Some("sodium"), None, None, Some(true), None, None))
    ensures Step(st, inv) == (st, Response(500, map[AllowOrigin := "*"], ErrorBody(MissingKey("patient_name"))))
  {
  }

  // ---------------------------------------------------------------------
  // Many invocations in sequence

  /** The store write of an invocation takes place. */
  predicate Writes(inv: Invocation)
  {
    var r := Prepare(inv.event, inv.minuteStamp);
    && r.Ok? && r.value.critical
    && Summarize(r.value.submission, r.value.testName, r.value.value).Ok?
    && !inv.storeFails
  }

  /** An invocation writes its record and then starts its execution. */
  predicate Dispatches(inv: Invocation)
  {
    Writes(inv) && !inv.triggerFails
  }

  /** The id an invocation would store its record under, when it gets that far. */
  function IdOf(inv: Invocation): string
    requires Prepare(inv.event, inv.minuteStamp).Ok?
  {
    Prepare(inv.event, inv.minuteStamp).value.resultId
  }

  /** The submission an invocation forwards to the workflow, when it starts one. */
  function ForwardedBy(inv: Invocation): seq<Submission>
  {
    if Dispatches(inv) then [Prepare(inv.event, inv.minuteStamp).value.submission] else []
  }

  /** One invocation appends what it forwards to the execution log. */
  lemma StepExecutions(st: State, inv: Invocation)
    ensures Step(st, inv).0.executions == st.executions + ForwardedBy(inv)
  {
  }

  /** One invocation adds the id it writes to the store's keys. */
  lemma StepStoreKeys(st: State, inv: Invocation)
    ensures Step(st, inv).0.store.Keys == st.store.Keys + (if Writes(inv) then {IdOf(inv)} else {})
  {
  }

  /**
   * Unless the workflow start fails, one invocation starts an execution
   * exactly when it writes its record, and that record is then the PENDING,
   * unacknowledged one under the invocation's id.
   */
  lemma StepStartsIffWrites(st: State, inv: Invocation)
    requires !inv.triggerFails
    ensures Step(st, inv).0.executions != st.executions <==> Writes(inv)
    ensures Writes(inv) ==>
      && IdOf(inv) in Step(st, inv).0.store
      && Step(st, inv).0.store[IdOf(inv)].status == Pending
      && !Step(st, inv).0.store[IdOf(inv)].acknowledged
  {
  }

  /** The external state after the invocations, one after another. */
  function Run(st: State, invs: seq<Invocation>): State
    decreases |invs|
  {
    if invs == [] then st else Run(Step(st, invs[0]).0, invs[1..])
  }

  /** The submissions of the invocations that start an execution, in order. */
  function Forwarded(invs: seq<Invocation>): seq<Submission>
    decreases |invs|
  {
    if invs == [] then []
    else ForwardedBy(invs[0]) + Forwarded(invs[1..])
  }

  /** The ids of the invocations that write a record. */
  function WrittenIds(invs: seq<Invocation>): set<string>
    decreases |invs|
  {
    if invs == [] then {}
    else (if Writes(invs[0]) then {IdOf(invs[0])} else {}) + WrittenIds(invs[1..])
  }

  /** The number of invocations that write a record. */
  function WriteCount(invs: seq<Invocation>): nat
    decreases |invs|
  {
    if invs == [] then 0 else (if Writes(invs[0]) then 1 else 0) + WriteCount(invs[1..])
  }

  /** Every record sits under its own id. */
  ghost predicate WellKeyed(store: map<string, AlertRecord>)
  {
    forall k :: k in store ==> store[k].resultId == k
  }

  /** The execution log only grows, by the dispatched submissions in invocation order. */
  lemma {:induction false} RunExecutions(st: State, invs: seq<Invocation>)
    ensures Run(st, invs).executions == st.executions + Forwarded(invs)
    decreases |invs|
  {
    if invs != [] {
      var st1 := Step(st, invs[0]).0;
      RunExecutions(st1, invs[1..]);
      StepExecutions(st, invs[0]);
      assert Forwarded(invs) == ForwardedBy(invs[0]) + Forwarded(invs[1..]);
      assert st1.executions == st.executions + ForwardedBy(invs[0]);
      assert Run(st, invs) == Run(st1, invs[1..]);
    }
  }

  /** The store keeps every key it had and gains exactly the ids that were written. */
  lemma {:induction false} RunStoreKeys(st: State, invs: seq<Invocation>)
    ensures Run(st, invs).store.Keys == st.store.Keys + WrittenIds(invs)
    decreases |invs|
  {
    if invs != [] {
      RunStoreKeys(Step(st, invs[0]).0, invs[1..]);
      StepStoreKeys(st, invs[0]);
    }
  }

  /** The helper sets grow by at most one element per invocation. */
  lemma {:induction false} EffectSetsBounded(invs: seq<Invocation>)
    ensures |WrittenIds(invs)| <= |invs|
    ensures |Forwarded(invs)| <= |invs|
    decreases |invs|
  {
    if invs != [] {
      EffectSetsBounded(invs[1..]);
      var head: set<string> := if Writes(invs[0]) then {IdOf(invs[0])} else {};
      assert |head + WrittenIds(invs[1..])| <= |head| + |WrittenIds(invs[1..])|;
    }
  }

  /** n invocations add at most n keys to the store and start at most n executions. */
  lemma AtMostOneEffectEach(st: State, invs: seq<Invocation>)
    ensures |Run(st, invs).store.Keys - st.store.Keys| <= |invs|
    ensures |Run(st, invs).executions| <= |st.executions| + |invs|
  {
    RunStoreKeys(st, invs);
    RunExecutions(st, invs);
    EffectSetsBounded(invs);
    assert Run(st, invs).store.Keys - st.store.Keys <= WrittenIds(invs);
    SubsetCardinality(Run(st, invs).store.Keys - st.store.Keys, WrittenIds(invs));
  }

  lemma SubsetCardinality<T>(a: set<T>, b: set<T>)
    requires a <= b
    ensures |a| <= |b|
  {
    assert b == a + (b - a);
  }

  /** Records stay under their own ids whatever invocations follow. */
  lemma {:induction false} RunKeepsWellKeyed(st: State, invs: seq<Invocation>)
    requires WellKeyed(st.store)
    ensures WellKeyed(Run(st, invs).store)
    decreases |invs|
  {
    if invs != [] {
      var st1 := Step(st, invs[0]).0;
      assert WellKeyed(st1.store);
      RunKeepsWellKeyed(st1, invs[1..]);
    }
  }

  /**
   * Without a failing workflow start, the execution log grows by exactly as
   * many entries as invocations wrote a record, and the store gains exactly
   * the ids of those records: a record is written iff its execution is started.
   */
  lemma {:induction false} RunStartsIffWrites(st: State, invs: seq<Invocation>)
    requires forall i :: 0 <= i < |invs| ==> !invs[i].triggerFails
    ensures |Run(st, invs).executions| == |st.executions| + WriteCount(invs)
    ensures Run(st, invs).store.Keys == st.store.Keys + WrittenIds(invs)
    decreases |invs|
  {
    RunStoreKeys(st, invs);
    if invs != [] {
      var st1 := Step(st, invs[0]).0;
      assert !invs[0].triggerFails;
      StepStartsIffWrites(st, invs[0]);
      RunStartsIffWrites(st1, invs[1..]);
      assert Run(st, invs) == Run(st1, invs[1..]);
    }
  }

  // ---------------------------------------------------------------------
  // The handler object

  /** The handler with the two external services it writes to, as fields it updates in place. */
  class IntakeHandler {
    var store: map<string, AlertRecord>
    var executions: seq<Submission>

    constructor (store0: map<string, AlertRecord>, executions0: seq<Submission>)
      ensures store == store0 && executions == executions0
    {
      store := store0;
      executions := executions0;
    }

    function Snapshot(): State
      reads this
    {
      State(store, executions)
    }

    /**
     * Handles one event. The new state and the response are those of `Step`;
     * spelled out: a normal result changes nothing; the store write comes
     * before the workflow start, and an execution is started only after its
     * PENDING record is in the store; every failure is a 500.
     */
    method Handle(event: Event, minuteStamp: string, timestamp: string, storeFails: bool, triggerFails: bool)
      returns (response: Response)
      modifies this
      ensures (Snapshot(), response) ==
              Step(old(Snapshot()), Invocation(event, minuteStamp, timestamp, storeFails, triggerFails))
      ensures response.body.ResultBody? && !response.body.critical ==>
                store == old(store) && executions == old(executions)
      ensures store == old(store) || (Prepare(event, minuteStamp).Ok? &&
                store == old(store)[IdOf(Invocation(event, minuteStamp, timestamp, storeFails, triggerFails))
                                    := store[IdOf(Invocation(event, minuteStamp, timestamp, storeFails, triggerFails))]])
      ensures executions == old(executions) || executions == old(executions) + [Parse(event).value]
      ensures executions != old(executions) ==>
                && response == Success(ResultBody(response.body.resultId, AlertSent, true))
                && response.body.resultId in store
                && store[response.body.resultId].status == Pending
                && !store[response.body.resultId].acknowledged
      ensures storeFails ==> store == old(store) && executions == old(executions)
      ensures response.statusCode == 500 ==> executions == old(executions) && response.headers == ErrorHeaders
    {
      var parsed := Parse(event);
      if parsed.Err? {
        return Failure(parsed.fault);
      }
      var input := parsed.value;
      var number := ValueOf(input);
      if number.Err? {
        return Failure(number.fault);
      }
      var value := number.value;
      var testName := TestNameOf(input);
      var resultId := ResultId(input, minuteStamp);

      var isCritical := false;
      if input.isCritical == Some(true) {
        isCritical := true;
      } else if IsPotassium(testName) && (value < PotassiumLow || value > PotassiumHigh) {
        isCritical := true;
      }

      var responseData := ResultBody(resultId, NormalStatus, false);
      if isCritical {
        var summary := Summarize(input, testName, value);
        if summary.Err? {
          return Failure(summary.fault);
        }
        if storeFails {
          return Failure(StoreUnavailable);
        }
        store := store[resultId := AlertRecord(resultId, Pending, false, timestamp, summary.value)];
        if triggerFails {
          return Failure(TriggerUnavailable);
        }
        executions := executions + [input];
        responseData := responseData.(status := AlertSent);
        responseData := responseData.(critical := true);
      }
      response := Success(responseData);
    }
  }
}
