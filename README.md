# Output-schema validation of action results

A Dafny model of StackStorm's output-schema check
(`st2common/st2common/util/output_schema.py`). When an action execution
finishes, its result and status go through two optional gates:

1. the **runner gate**: the whole result is validated against the runner's
   output schema;
2. the **action gate**: it runs only after the runner gate passed. The
   properties that the action's output schema marks `secret` are overwritten in
   `result[output_key]` with the sentinel `"********"`. The masked sub-result is
   then validated against the action's schema.

Both schemas are flat property maps. Before use, each is wrapped into a closed
object schema (`type: object`, the map as `properties`,
`additionalProperties: false`). The function never raises. On success it returns
the result, masked if the action gate ran, and the status unchanged. A
`jsonschema.ValidationError` gives a `{error, message}` result and the failed
status. Any other exception gives `{traceback, error, message}` and the failed
status.

## Files

- `json_values.dfy` (module `JsonValues`): decoded JSON values, whose objects
  are maps, and Python truthiness.
- `output_schema.dfy` (module `OutputSchema`): everything in the source file.
  - Exceptions become the `Fault` datatype.
  - The external validator, `str(ex)` and the formatted traceback are the
    three functions of an `Environment`.
  - Masking is a loop method, `MaskSecrets`. It is proved equal to the
    specification function `SecretMasking`.
  - The gates and the orchestrator are functions built on `SecretMasking`.

The source updates the caller's dict through a shared reference. The model
makes that update visible. Masking returns a `Masking` value in two parts:
`finalResult`, the masked sub-result, and `result`, the caller's result with
that sub-result written back at `output_key`.

Two behaviours of the code are easy to misread, and the model keeps both:
- A property counts as secret when its `secret` entry is *truthy*
  (`.get("secret", False)`), not only when it is `true`.
- A secret-flagged property that is absent from `result[output_key]` is
  *inserted* with the sentinel, not skipped (`MaskingInsertsAbsentSecret`).

The constants `LIVEACTION_STATUS_FAILED` and `MASKED_ATTRIBUTE_VALUE` come from
modules that are not part of this model. They are written as `"failed"` and
`"********"`; no proof depends on either value.

## Model

| member | source | states |
|---|---|---|
| `OutputSchema.ClosedObjectSchema` | st2common/st2common/util/output_schema.py:41-56 | the assembled schema is a closed object schema (`type` object, `additionalProperties` false, nothing else), and its `properties` lookup gives back the input map unchanged; the runner gate (lines 32-36) uses the same assembly |
| `OutputSchema.ValidateRunner` | st2common/st2common/util/output_schema.py:29-38 | the runner gate passes exactly when the validator accepts the whole result against the closed runner schema; it fails with a validation error exactly when the validator raised one |
| `OutputSchema.Validate` | st2common/st2common/util/output_schema.py:105-116 | a validator call passes iff the validator returns normally; its fault is a validation error iff the validator raised `ValidationError`, and any other exception falls on the other side |
| `OutputSchema.SecretMasking` | st2common/st2common/util/output_schema.py:59-80 | a result that is not a dict, or a missing `output_key`, fails before anything else, and no masking failure is ever a validation error; with a dict property map, masking succeeds exactly when every property schema is a dict and either nothing is secret or the sub-result is a dict, and otherwise fails with `PropertyNotMaskable`; a `properties` entry (the action schema itself) that is not a dict succeeds, unchanged, exactly when it is an empty list or string, and otherwise fails with `PropertiesNotMapping`; on success the caller's result is the old one with only `output_key` replaced by the masked sub-result, and every other top-level key is kept |
| `OutputSchema.MaskSecrets` | st2common/st2common/util/output_schema.py:70-80 | the loop over the schema's property names, visited in any order, yields exactly what `SecretMasking` specifies, faults included |
| `OutputSchema.MaskingMasksExactlySecrets` | st2common/st2common/util/output_schema.py:76-78 | after masking, every secret-flagged property maps to the sentinel, every other key keeps its value, and the key set grows by exactly the secret names |
| `OutputSchema.MaskingIdempotent` | st2common/st2common/util/output_schema.py:76-78 | masking an already masked result succeeds again and changes nothing |
| `OutputSchema.MaskingExample` | st2common/st2common/util/output_schema.py:70-80 | with `a` flagged secret and `b` not, the sub-result `{"a": "v1", "b": "v2"}` becomes `{"a": "********", "b": "v2"}` and is written back under the output key |
| `OutputSchema.MaskingInsertsAbsentSecret` | st2common/st2common/util/output_schema.py:78 | a secret-flagged property that the sub-result lacks is inserted with the sentinel |
| `OutputSchema.ValidateAction` | st2common/st2common/util/output_schema.py:83-91 | a masking fault is passed on unchanged; otherwise the validator is given the masked sub-result against the closed action schema, success returns the caller's result as masking left it, a rejection becomes the validation-error fault `SchemaMismatch` with the validator's detail, and a crash becomes the non-validation fault `ValidatorError` with its detail |
| `OutputSchema.RunGates` | st2common/st2common/util/output_schema.py:99-103 | a falsy runner schema gives the result untouched; otherwise the runner verdict decides: a rejection or a crash becomes the matching fault and skips the action gate; on a pass the action gate runs exactly when the action schema is truthy; success yields either the input result or the masked one |
| `OutputSchema.Diagnostic` | st2common/st2common/util/output_schema.py:105-127 | a validation error is reported with exactly the keys `error` and `message`; any other fault is reported with `traceback`, `error` and `message`; `error` holds `str(ex)` and `message` the fixed text |
| `OutputSchema.ValidateOutput` | st2common/st2common/util/output_schema.py:94-129 | with a falsy runner schema the result and status come back unchanged; the status returned is either the input status or the failed status; a changed status comes with one of the two diagnostic shapes; when the runner gate passes and there is no action schema, the result and status come back unchanged; a runner rejection gives the failed status and exactly `{error, message}`, and a runner crash gives the failed status and a traceback; with both gates enabled, any masking fault (a result that is not a dict, a missing key, a bad property map or property schema, a secret written into a sub-result that is not a dict) gives the failed status and exactly `{traceback, error, message}`, and after masking succeeds the action validator's verdict on the masked sub-result decides between the masked result with the status unchanged and the two failure shapes; all of this holds even when the input status is already `failed` |
| `OutputSchema.NoRunnerSchemaIsNoOp` | st2common/st2common/util/output_schema.py:99-103 | with a falsy runner schema the output is `(result, status)` whatever the action schema and the validator are |
| `OutputSchema.RunnerMismatchShortCircuits` | st2common/st2common/util/output_schema.py:99-115 | a runner-schema mismatch yields exactly `{error, message}` with no traceback and the failed status, for any action schema (no masking, no action validation) |
| `OutputSchema.RunnerCrashReportsTraceback` | st2common/st2common/util/output_schema.py:116-127 | any other exception in the runner validator yields the failed status and a report with a traceback |
| `OutputSchema.ActionGateSeesMaskedResult` | st2common/st2common/util/output_schema.py:86-91 | the action gate's verdict is the validator's verdict on the masked sub-result: on acceptance the masked caller's result comes back with the status unchanged; on a mismatch the report has no traceback; on a crash the report has one |
| `OutputSchema.MissingOutputKeyReportsTraceback` | st2common/st2common/util/output_schema.py:70 | a missing `output_key` during the action gate is a non-validation failure: failed status and a report with a traceback |
| `OutputSchema.NonMappingPropertySchemaReportsTraceback` | st2common/st2common/util/output_schema.py:77 | a property schema that is not a mapping is a non-validation failure: failed status and a report with a traceback |
| `OutputSchema.SecretValuesDoNotReachOutput` | st2common/st2common/util/output_schema.py:76-91 | once the runner gate has decided alike, two results whose sub-results differ only in secret-flagged values produce the same output, so on the action gate the validator and the returned result depend only on the masked sub-result (the runner gate is outside this claim, see "Left out") |

## Left out

- Logging (`LOG.debug`, `LOG.exception`): it has no effect on what is returned.
- The JSON-Schema semantics of `schema.validate` with the `custom` validator:
  an outside library. It is the opaque function `Environment.validate`, so
  properties such as "additional properties are rejected" are not proved.
- The texts of `str(ex)` and `traceback.format_tb(tb, 20)`: they are the opaque
  functions `Environment.errorText` and `Environment.traceText` of the fault.
  The traceback is modelled as depending only on the fault.
- `sys.exc_info`: exceptions are `Fault` values returned, not raised.
- Dict iteration order: a Dafny map has none.
  - When several properties would fail, the source raises at whichever comes
    first in insertion order.
  - The model returns the single fault `PropertyNotMaskable` for both such
    failures: a property schema that is not a dict (line 77), and an assignment
    into a sub-result that is not a dict (line 78).
  - Both are non-validation errors, so status and report shape are the same.
    Only the opaque texts could differ.
- Partial in-place masking on failure: when masking or action validation fails,
  the source has already changed the caller's dict, possibly only part of it.
  The model returns only the diagnostic result, which is what the source
  returns; the aliasing effect on the discarded dict is not modelled.
- SecretValuesDoNotReachOutput: secret values are masked only for the action
  gate. The runner gate (line 100) validates the unmasked result, and on a
  mismatch its `str(ex)` goes into the returned `error`, where it may echo a
  secret value. The lemma therefore assumes both results get the same runner
  verdict; it says nothing about the text of a runner failure.
- JSON floating-point numbers: numbers are integers. Truthiness of `0.0` is
  therefore not modelled.
