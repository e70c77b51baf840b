# Critical lab-result intake handler, modelled in Dafny

The system is one request handler (`lambda_handler`). It receives a lab-test
result, decides whether the value is medically critical, and acts on that.
For a critical result it writes a PENDING alert record to a key-value record
store and then starts a notification workflow. It always answers with an
HTTP-style response carrying CORS headers.

The model has two modules.

- `Intake` (`intake.dfy`) is the pure part:
  - a decoded submission, with every optional key as an `Option`;
  - the defaults: `value` 0, `test_name` `"unknown"`, patient id `"NO-ID"`;
  - the synthesis of `result_id` from the patient id and a minute stamp;
  - ASCII lower-casing;
  - the classification rule. A set `is_critical` flag wins. Otherwise only
    potassium outside the closed range [2.5, 6.0] is critical.
- `Handler` (`handler.dfy`) is the dispatch part:
  - the alert record and the response shapes;
  - `Step`, the pure specification of one invocation over the external
    state. That state is the store `map<string, AlertRecord>` and the log of
    started workflow executions `seq<Submission>`;
  - lemmas for each path through the handler;
  - `Run`, which chains `Step` over a sequence of invocations, with lemmas
    by induction about the effects that accumulate;
  - the class `IntakeHandler`. It holds the store and the execution log as
    fields. Its method `Handle` performs one invocation step by step, as the
    source does: it sets the critical flag in two branches, updates the
    response data in place, and writes the store before starting the
    workflow. `Handle` is proved equal to `Step`.

Inputs the handler cannot compute are parameters of `Handle`:
- the minute stamp used in a synthesized id;
- the record timestamp;
- whether the store write fails;
- whether the workflow start fails.

Two consequences of the code are worth stating:
- The patient id falls back to `"NO-ID"` only when the `patient_id` key is
  absent (a `.get` default). A present empty id is used as it is.
- The store write is an unconditional upsert, so a record is not
  write-once. A critical resubmission under an existing id replaces the
  record, and an acknowledged record goes back to PENDING
  (`Handler.ResubmissionResetsRecord`).

## Model

| member | source | states |
|---|---|---|
| `Intake.Parse` | ProyectoCritico/lambda/lambda_function.py:12 | the event is the submission itself, or its body decoded; only a body that does not decode fails, and it fails as a malformed body |
| `Intake.ValueOf` | ProyectoCritico/lambda/lambda_function.py:14 | an absent value reads as 0, a convertible one as its number, and only an unconvertible one fails, as a bad value |
| `Intake.TestNameOf` | ProyectoCritico/lambda/lambda_function.py:15 | an absent test name reads as "unknown", a present one as given |
| `Intake.ResultId` | ProyectoCritico/lambda/lambda_function.py:16 | a caller's `result_id` is used verbatim; otherwise the id is the patient id (or "NO-ID"), a dash and the minute stamp, each readable back at fixed positions |
| `Intake.Lower` | ProyectoCritico/lambda/lambda_function.py:21 | lower-casing keeps the length and lowers each character on its own |
| `Intake.Classify` | ProyectoCritico/lambda/lambda_function.py:18-22 | a set override flag makes the result critical; without it, a non-potassium result is normal, and a potassium result is critical iff it lies outside the closed range [2.5, 6.0] |
| `Intake.IsPotassiumIgnoresCase` | ProyectoCritico/lambda/lambda_function.py:21 | two names equal up to ASCII case are both potassium or neither |
| `Intake.LowerOfLowerCaseSpelling` | ProyectoCritico/lambda/lambda_function.py:21 | "potassium" lower-cases to itself |
| `Intake.LowerOfCapitalisedSpelling` | ProyectoCritico/lambda/lambda_function.py:21 | "Potassium" lower-cases to "potassium" |
| `Intake.LowerOfUpperCaseSpelling` | ProyectoCritico/lambda/lambda_function.py:21 | "POTASSIUM" lower-cases to "potassium" |
| `Intake.PotassiumSpellings` | ProyectoCritico/lambda/lambda_function.py:15-21 | "potassium", "Potassium" and "POTASSIUM" are recognised; "sodium" and the default "unknown" are not |
| `Intake.BoundsAreNormal` | ProyectoCritico/lambda/lambda_function.py:21-22 | without the override, potassium at exactly 2.5 or 6.0 is normal |
| `Intake.MissingValueIsCriticalPotassium` | ProyectoCritico/lambda/lambda_function.py:14-22 | a potassium submission with no value is read as 0 and classified critical |
| `Intake.SynthesizedIdsCollide` | ProyectoCritico/lambda/lambda_function.py:16 | two synthesized ids with equal-width minute stamps are equal iff patient tags and minute stamps are equal: same patient, same minute collides |
| `Handler.Summarize` | ProyectoCritico/lambda/lambda_function.py:36 | the summary succeeds iff the patient name, the criticality object and its level are present, and then carries them with the test name and value; otherwise the KeyError is that of the first missing key in the order patient name, criticality, level |
| `Handler.Prepare` | ProyectoCritico/lambda/lambda_function.py:12-22 | preparation fails iff the body does not decode (malformed body) or the value does not convert (bad value); otherwise it holds the parsed submission, its value and test name with their defaults, its `result_id` and its classification |
| `Handler.NoIdSynthesized` | ProyectoCritico/lambda/lambda_function.py:16 | with neither `result_id` nor `patient_id` the id is "NO-ID-" followed by the minute stamp |
| `Handler.Step` | ProyectoCritico/lambda/lambda_function.py:10-63 | status is 200 exactly when a result is returned, with the three CORS headers, and 500 otherwise, with only the origin header; a normal result leaves the state alone; a 500 other than a failed workflow start leaves the state alone; at most one execution is appended, only alongside a PENDING unacknowledged record under the reported id, and never on a 500 |
| `Handler.NormalSubmission` | ProyectoCritico/lambda/lambda_function.py:24-54 | a normal result leaves store and execution log unchanged and answers 200 with its id, "NORMAL", false |
| `Handler.CriticalSubmission` | ProyectoCritico/lambda/lambda_function.py:30-54 | a critical result with both calls succeeding adds or replaces exactly the record at its id (PENDING, not acknowledged), keeps every other key, appends the parsed submission to the execution log, and answers 200 with "CRITICAL_ALERT_SENT", true |
| `Handler.StoreFailure` | ProyectoCritico/lambda/lambda_function.py:30-63 | when the store write fails, no execution is started whatever the trigger would do, the state is unchanged and the answer is a 500 |
| `Handler.TriggerFailure` | ProyectoCritico/lambda/lambda_function.py:30-63 | when the workflow start fails after the write, the PENDING record stays, no execution is logged, and the answer is a 500 |
| `Handler.MissingDetails` | ProyectoCritico/lambda/lambda_function.py:31-63 | a critical result without patient name, criticality object or criticality level fails while the item is built: state unchanged, 500 with only the origin header and the KeyError of the first missing key |
| `Handler.EarlyFailure` | ProyectoCritico/lambda/lambda_function.py:12-14 | a body that does not decode or a value that does not convert gives a 500 before any state change |
| `Handler.ResubmissionResetsRecord` | ProyectoCritico/lambda/lambda_function.py:31-37 | a critical resubmission under an id whose record was acknowledged puts it back to PENDING and not acknowledged |
| `Handler.HighPotassiumScenario` | ProyectoCritico/lambda/lambda_function.py:14-54 | "Potassium" at 7.2 with id R1: record R1 PENDING with the summary of Jane Doe / Potassium / 7.2 / HIGH, the submission forwarded, 200 alert sent |
| `Handler.BoundaryPrepared` | ProyectoCritico/lambda/lambda_function.py:14-22 | "potassium" at 2.5 with no ids is prepared as a normal result under "NO-ID-" and the minute stamp |
| `Handler.BoundaryScenario` | ProyectoCritico/lambda/lambda_function.py:14-54 | "potassium" at 2.5 with no ids: no effect, 200 NORMAL under "NO-ID-" and the minute stamp |
| `Handler.OverrideWithoutDetailsScenario` | ProyectoCritico/lambda/lambda_function.py:19-63 | overridden "sodium" without patient details: no effect, 500 with the origin header and the patient-name KeyError |
| `Handler.StepExecutions` | ProyectoCritico/lambda/lambda_function.py:39-42 | one invocation appends to the execution log exactly the submission of a dispatched result |
| `Handler.StepStoreKeys` | ProyectoCritico/lambda/lambda_function.py:31-37 | one invocation adds to the store's keys exactly the id it writes |
| `Handler.StepStartsIffWrites` | ProyectoCritico/lambda/lambda_function.py:31-42 | unless the workflow start fails, an invocation starts an execution iff it writes its record, and that record is PENDING and unacknowledged under its id |
| `Handler.RunExecutions` | ProyectoCritico/lambda/lambda_function.py:39-42 | over many invocations the execution log only grows, by the dispatched submissions in invocation order |
| `Handler.RunStoreKeys` | ProyectoCritico/lambda/lambda_function.py:31-37 | over many invocations the store keeps its keys and gains exactly the ids that were written |
| `Handler.AtMostOneEffectEach` | ProyectoCritico/lambda/lambda_function.py:30-44 | n invocations add at most n keys to the store and start at most n executions |
| `Handler.RunKeepsWellKeyed` | ProyectoCritico/lambda/lambda_function.py:31-33 | every record stays stored under its own `result_id` |
| `Handler.RunStartsIffWrites` | ProyectoCritico/lambda/lambda_function.py:31-42 | when no workflow start fails, the execution log grows by exactly the number of record writes and the store gains exactly the written ids |
| `Handler.IntakeHandler.constructor` | ProyectoCritico/lambda/lambda_function.py:6-8 | the handler starts from the given store contents and execution log |
| `Handler.IntakeHandler.Handle` | ProyectoCritico/lambda/lambda_function.py:10-63 | the new fields and the response are those of `Step`; a normal result changes nothing; an execution is appended only as the parsed submission, with a 200 alert and a PENDING record at the reported id; a failed store write changes nothing; a 500 starts nothing and has only the origin header |

## Left out

- The AWS clients, `TABLE_NAME` and the workflow engine are not modelled. The store is a map that takes an upsert. The workflow is a log of started executions. Each call's failure is a boolean parameter.
- A missing `SFN_ARN` environment variable raises just before the workflow start. The model folds it into the trigger-failure flag.
- JSON decoding and encoding are not modelled. A body that does not decode to an object is `Event.Wrapped(None)`. Response bodies are structured values, not JSON text.
- The clock is not modelled. The minute stamp (`%Y%m%d%H%M`) and the ISO timestamp are opaque string parameters.
- Python float semantics are not modelled: `value` is a `real`. A value that `float()` rejects is `Number.Unconvertible`. NaN and the text form of a float are floating-point library behaviour.
- The text of `details_summary` is not modelled. `Handler.Summary` keeps the four interpolated fields instead.
- The text of exception messages is not modelled. `Fault` names the failure, for example `MissingKey("level")` for the KeyError.
- Python truthiness of a non-boolean `is_critical` is not modelled. The flag is `Option<bool>`, and a missing key counts as false.
- Field values of other JSON types are not modelled. A non-string `test_name` would make `.lower()` raise. A non-object `criticality` would raise a TypeError. Patient fields are modelled by their `str()` text.
- Unknown extra keys of the submission are not modelled. The forwarded payload is the modelled `Submission`.
- `Intake.Lower`: lowers ASCII letters only, where Python's `str.lower()` covers all of Unicode. For the comparison with "potassium" the outcome is the same, because no non-ASCII character lowers to one of its letters.
- Concurrency between invocations is not modelled. Invocations in `Handler.Run` take place one after another.
