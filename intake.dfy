/*
 * The pure part of the result intake handler: what a parsed submission holds,
 * the defaults applied to its fields, the synthesis of `result_id`, and the
 * one clinical rule that decides whether a result is critical.
 */
module Intake {

  datatype Option<+T> = None | Some(value: T)

  /** Every way the handler's `try` block can fail; each ends in a 500 response. */
  datatype Fault =
    | MalformedBody             // `json.loads` of the body failed or gave no object
    | BadValue                  // `float(value)` raised
    | MissingKey(key: string)   // a subscript on the submission raised KeyError
    | StoreUnavailable          // the record store's put_item raised
    | TriggerUnavailable        // the workflow's start_execution raised

  datatype Result<+T> = Ok(value: T) | Err(fault: Fault)

  /** The raw `value` field as `float()` sees it: convertible to a number, or not. */
  datatype Number = Num(x: real) | Unconvertible

  /**
   * A decoded submission. `None` stands for a key that is absent from the
   * mapping; `criticality` is the nested object whose `level` key is read.
   */
  datatype Submission = Submission(
    value: Option<Number>,
    testName: Option<string>,
    resultId: Option<string>,
    patientId: Option<string>,
    isCritical: Option<bool>,
    patientName: Option<string>,
    criticality: Option<map<string, string>>)

  /**
   * What the handler is invoked with: either the submission itself, or a
   * wrapper whose `body` text decodes to a submission (`Some`) or does not (`None`).
   */
  datatype Event = Direct(submission: Submission) | Wrapped(body: Option<Submission>)

  const DefaultTestName: string := "unknown"
  const MissingPatientId: string := "NO-ID"
  const Potassium: string := "potassium"
  const PotassiumLow: real := 2.5
  const PotassiumHigh: real := 6.0

  /** Unwraps the event; only a body that does not decode fails. */
  function Parse(e: Event): (r: Result<Submission>)
    ensures r.Err? <==> e.Wrapped? && e.body.None?
    ensures r.Err? ==> r.fault == MalformedBody
    ensures e.Direct? ==> r == Ok(e.submission)
    ensures e.Wrapped? && e.body.Some? ==> r == Ok(e.body.value)
  {
    match e
    case Direct(s) => Ok(s)
    case Wrapped(b) => if b.Some? then Ok(b.value) else Err(MalformedBody)
  }

  /** The numeric value of the submission: 0 when absent, an error when not convertible. */
  function ValueOf(s: Submission): (r: Result<real>)
    ensures s.value.None? ==> r == Ok(0.0)
    ensures s.value.Some? && s.value.value.Num? ==> r == Ok(s.value.value.x)
    ensures s.value == Some(Unconvertible) <==> r == Err(BadValue)
    ensures r.Err? ==> r.fault == BadValue
  {
    match s.value
    case None => Ok(0.0)
    case Some(Num(x)) => Ok(x)
    case Some(Unconvertible) => Err(BadValue)
  }

  /** The test name, "unknown" when absent. */
  function TestNameOf(s: Submission): (name: string)
    ensures s.testName.Some? ==> name == s.testName.value
    ensures s.testName.None? ==> name == "unknown"
  {
    if s.testName.Some? then s.testName.value else DefaultTestName
  }

  /** The patient part of a synthesized id: the patient id, or "NO-ID" when the key is absent. */
  function PatientTag(s: Submission): string
  {
    if s.patientId.Some? then s.patientId.value else MissingPatientId
  }

  /**
   * The key of the submission: the caller's `result_id` verbatim, otherwise
   * the patient tag, a dash and the minute stamp, which can be read back
   * from the id at fixed positions.
   */
  function ResultId(s: Submission, minuteStamp: string): (id: string)
    ensures s.resultId.Some? ==> id == s.resultId.value
    ensures s.resultId.None? ==>
      && |id| == |PatientTag(s)| + 1 + |minuteStamp|
      && id[..|PatientTag(s)|] == PatientTag(s)
      && id[|PatientTag(s)|] == '-'
      && id[|PatientTag(s)| + 1..] == minuteStamp
  {
    if s.resultId.Some? then s.resultId.value else PatientTag(s) + "-" + minuteStamp
  }

  /** Lower-cases one ASCII letter and leaves every other character as it is. */
  function LowerChar(c: char): char
  {
    if 'A' <= c <= 'Z' then (c as int + 32) as char else c
  }

  /** Lower-cases a string character by character. */
  function Lower(s: string): (r: string)
    ensures |r| == |s|
    ensures forall i :: 0 <= i < |s| ==> r[i] == LowerChar(s[i])
  {
    if s == [] then [] else [LowerChar(s[0])] + Lower(s[1..])
  }

  /** The analyte test: the lower-cased name is "potassium". */
  predicate IsPotassium(testName: string)
  {
    Lower(testName) == Potassium
  }

  /**
   * The classification rule: a set `is_critical` flag always wins; otherwise
   * only a potassium result outside the closed range [2.5, 6.0] is critical.
   */
  function Classify(flag: Option<bool>, testName: string, value: real): (critical: bool)
    ensures flag == Some(true) ==> critical
    ensures flag != Some(true) && !IsPotassium(testName) ==> !critical
    ensures flag != Some(true) && IsPotassium(testName) ==>
      (critical <==> !(PotassiumLow <= value <= PotassiumHigh))
  {
    if flag == Some(true) then true
    else IsPotassium(testName) && (value < PotassiumLow || value > PotassiumHigh)
  }

  /** The name test ignores ASCII case: two names equal up to case are both potassium or neither. */
  lemma IsPotassiumIgnoresCase(a: string, b: string)
    requires |a| == |b|
    requires forall i :: 0 <= i < |a| ==> LowerChar(a[i]) == LowerChar(b[i])
    ensures IsPotassium(a) <==> IsPotassium(b)
  {
  }

  /** The lower-case spelling lowers to itself. */
  lemma LowerOfLowerCaseSpelling()
    ensures Lower("potassium") == Potassium
  {
  }

  /** The capitalised spelling lowers to "potassium": only its first letter changes. */
  lemma LowerOfCapitalisedSpelling()
    ensures Lower("Potassium") == Potassium
  {
    assert Lower("Potassium") == [LowerChar('P')] + Lower("otassium");
    assert Lower("otassium") == "otassium";
  }

  /** The upper-case spelling lowers to "potassium" letter by letter. */
  lemma LowerOfUpperCaseSpelling()
    ensures Lower("POTASSIUM") == Potassium
  {
    var r := Lower("POTASSIUM");
    assert r[0] == 'p' && r[1] == 'o' && r[2] == 't' && r[3] == 'a' && r[4] == 's';
    assert r[5] == 's' && r[6] == 'i' && r[7] == 'u' && r[8] == 'm';
  }

  /** Spellings of the analyte in any case are recognised; another analyte is not. */
  lemma PotassiumSpellings()
    ensures IsPotassium("potassium") && IsPotassium("Potassium") && IsPotassium("POTASSIUM")
    ensures !IsPotassium("sodium") && !IsPotassium(DefaultTestName)
  {
    LowerOfLowerCaseSpelling();
    LowerOfCapitalisedSpelling();
    LowerOfUpperCaseSpelling();
    assert |Lower("sodium")| != |Potassium|;
    assert |Lower(DefaultTestName)| != |Potassium|;
  }

  /** The range bounds themselves are normal for potassium without the override. */
  lemma BoundsAreNormal(flag: Option<bool>, testName: string)
    requires flag != Some(true) && IsPotassium(testName)
    ensures !Classify(flag, testName, PotassiumLow) && !Classify(flag, testName, PotassiumHigh)
  {
  }

  /** A potassium submission with no value is read as 0 and so is critical. */
  lemma MissingValueIsCriticalPotassium(s: Submission)
    requires s.value.None? && IsPotassium(TestNameOf(s))
    ensures ValueOf(s) == Ok(0.0)
    ensures Classify(s.isCritical, TestNameOf(s), ValueOf(s).value)
  {
  }

  /**
   * Two synthesized ids with minute stamps of the same width are equal exactly
   * when the patient tags and the minute stamps are: the same patient within
   * the same minute collides, anything else does not.
   */
  lemma SynthesizedIdsCollide(s1: Submission, s2: Submission, m1: string, m2: string)
    requires s1.resultId.None? && s2.resultId.None?
    requires |m1| == |m2|
    ensures ResultId(s1, m1) == ResultId(s2, m2) <==> PatientTag(s1) == PatientTag(s2) && m1 == m2
  {
    var id1, id2 := ResultId(s1, m1), ResultId(s2, m2);
    if id1 == id2 {
      var n := |PatientTag(s1)|;
      assert PatientTag(s1) == id1[..n] == id2[..n] == PatientTag(s2);
      assert m1 == id1[n + 1..] == id2[n + 1..] == m2;
    }
  }
}
