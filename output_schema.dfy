/** Validation of an action execution's output against the runner's and the
    action's output schemas, with masking of the properties the action schema
    marks secret, as in st2common/util/output_schema.py.

    Exceptions of the source are values of `Fault`; the JSON-Schema validator,
    `str(ex)` and the formatted traceback come from outside as the total
    functions of an `Environment`. */
module OutputSchema {
  import opened JsonValues

  /** A live-action status; this code passes it through or sets it to failed. */
  type Status = string

  const LiveactionStatusFailed: Status := "failed"

  /** The sentinel written over secret output properties. */
  const MaskedAttributeValue: Json := JString("********")

  const FailureMessage: string := "Error validating output. See error output for more details."

  /** What can go wrong, one constructor per exception the source can meet.
      Only `SchemaMismatch` is a `jsonschema.ValidationError`. */
  datatype Fault =
      /** the validator found the instance does not match the schema */
    | SchemaMismatch(detail: string)
      /** any other exception raised inside the validator (a malformed schema, say) */
    | ValidatorError(detail: string)
      /** `result[output_key]` on a result that is not a dict */
    | ResultNotMapping
      /** `result[output_key]` with the key absent */
    | OutputKeyMissing(key: string)
      /** `action_schema["properties"]` on a schema without that entry */
    | SchemaPropertiesMissing
      /** iterating `properties`, or calling `.get` on it, when it is not a dict */
    | PropertiesNotMapping
      /** `.get("secret", False)` on a property schema that is not a dict, or the
          sentinel assignment into a sub-result that is not a dict */
    | PropertyNotMaskable

  predicate IsValidationError(f: Fault)
  {
    f.SchemaMismatch?
  }

  datatype Result<T> = Ok(value: T) | Err(fault: Fault)

  datatype Outcome = Pass | Fail(fault: Fault)

  /** What the external validator does with one (instance, schema) pair:
      return normally, raise a validation error, or raise anything else. */
  datatype Verdict = Conforms | Rejects(detail: string) | Crashes(detail: string)

  /** The collaborators this module calls but does not define:
      `schema.validate(instance, schema, cls=schema.get_validator("custom"))`,
      `str(ex)` and `"".join(traceback.format_tb(tb, 20))`. */
  datatype Environment = Environment(
    validate: (Json, Json) -> Verdict,
    errorText: Fault -> string,
    traceText: Fault -> string)

  // ---------------------------------------------------------------------
  // Schema assembly

  /** A closed object schema: an object type that admits no properties
      beyond those it declares. */
  predicate IsClosedObjectSchema(s: Json)
  {
    && s.JObject?
    && s.fields.Keys == {"type", "properties", "additionalProperties"}
    && s.fields["type"] == JString("object")
    && s.fields["additionalProperties"] == JBool(false)
  }

  /** The lookup `schema["properties"]`. */
  function SchemaProperties(schema: Json): Result<Json>
  {
    if schema.JObject? && "properties" in schema.fields then Ok(schema.fields["properties"])
    else Err(SchemaPropertiesMissing)
  }

  /** Wraps a flat property map into a closed object schema; used for the
      runner schema and for the action schema alike. */
  function ClosedObjectSchema(properties: Json): (s: Json)
    ensures IsClosedObjectSchema(s)
    ensures SchemaProperties(s) == Ok(properties)
  {
    JObject(map["type" := JString("object"), "properties" := properties, "additionalProperties" := JBool(false)])
  }

  /** One call of the external validator, with its exception sorted into a fault. */
  function Validate(env: Environment, instance: Json, schema: Json): (o: Outcome)
    ensures o.Pass? <==> env.validate(instance, schema).Conforms?
    ensures o.Fail? ==> (IsValidationError(o.fault) <==> env.validate(instance, schema).Rejects?)
  {
    match env.validate(instance, schema)
    case Conforms => Pass
    case Rejects(detail) => Fail(SchemaMismatch(detail))
    case Crashes(detail) => Fail(ValidatorError(detail))
  }

  /** The runner gate: the whole result against the closed runner schema. */
  function ValidateRunner(env: Environment, runnerSchema: Json, result: Json): (o: Outcome)
    ensures o.Pass? <==> env.validate(result, ClosedObjectSchema(runnerSchema)).Conforms?
    ensures o.Fail? ==> (IsValidationError(o.fault) <==> env.validate(result, ClosedObjectSchema(runnerSchema)).Rejects?)
  {
    Validate(env, result, ClosedObjectSchema(runnerSchema))
  }

  // ---------------------------------------------------------------------
  // Secret masking

  /** `property_schema.get("secret", False)` is truthy (false when the property
      schema is not a dict: that case is a fault, see `Unmaskable`). */
  predicate SecretFlag(propertySchema: Json)
  {
    propertySchema.JObject? && "secret" in propertySchema.fields && Truthy(propertySchema.fields["secret"])
  }

  /** The declared properties flagged secret. */
  function SecretKeys(properties: map<string, Json>): set<string>
  {
    set k | k in properties && SecretFlag(properties[k])
  }

  /** The masking loop raises on some property: its schema is not a dict, or
      there is something to mask and the sub-result is not a dict. */
  predicate Unmaskable(properties: map<string, Json>, subResult: Json)
  {
    || (exists k :: k in properties && !properties[k].JObject?)
    || (SecretKeys(properties) != {} && !subResult.JObject?)
  }

  /** `subResult` with every key in `secrets` set to the sentinel; keys that
      were absent are inserted. */
  function MaskKeys(subResult: Json, secrets: set<string>): Json
    requires secrets == {} || subResult.JObject?
  {
    if secrets == {} then subResult
    else JObject(map k | k in subResult.fields.Keys + secrets ::
                   if k in secrets then MaskedAttributeValue else subResult.fields[k])
  }

  /** The two effects of masking: the caller's result after the in-place
      update, and the sub-result the masking function returns. */
  datatype Masking = Masking(result: Json, finalResult: Json)

  /** Masks the secret properties of `result[outputKey]`, given an assembled
      action schema; the masked sub-result is written back at `outputKey`,
      which is how the source's update through a shared reference shows. */
  function SecretMasking(result: Json, outputKey: string, actionSchema: Json): (r: Result<Masking>)
    ensures !result.JObject? ==> r == Err(ResultNotMapping)
    ensures result.JObject? && outputKey !in result.fields ==> r == Err(OutputKeyMissing(outputKey))
    ensures r.Ok? ==> result.JObject? && outputKey in result.fields
    ensures r.Ok? ==> r.value.result == JObject(result.fields[outputKey := r.value.finalResult])
    ensures r.Ok? ==> r.value.result.fields.Keys == result.fields.Keys
    ensures r.Ok? ==> forall k :: k in result.fields && k != outputKey ==> r.value.result.fields[k] == result.fields[k]
    ensures r.Err? ==> !IsValidationError(r.fault)
    ensures result.JObject? && outputKey in result.fields ==>
              match SchemaProperties(actionSchema)
              case Err(f) => r == Err(f)
              case Ok(properties) =>
                if properties.JObject? then
                  && (r.Ok? <==> && (forall k :: k in properties.fields ==> properties.fields[k].JObject?)
                                 && (SecretKeys(properties.fields) == {} || result.fields[outputKey].JObject?))
                  && (r.Err? ==> r.fault == PropertyNotMaskable)
                else
                  && (r.Ok? <==> EmptyIterable(properties))
                  && (r.Ok? ==> r.value.finalResult == result.fields[outputKey])
                  && (r.Err? ==> r.fault == PropertiesNotMapping)
  {
    if !result.JObject? then Err(ResultNotMapping)
    else if outputKey !in result.fields then Err(OutputKeyMissing(outputKey))
    else
      var finalResult := result.fields[outputKey];
      match SchemaProperties(actionSchema)
      case Err(f) => Err(f)
      case Ok(properties) =>
        if properties.JObject? then
          if Unmaskable(properties.fields, finalResult) then Err(PropertyNotMaskable)
          else WriteBack(result, outputKey, MaskKeys(finalResult, SecretKeys(properties.fields)))
        else if EmptyIterable(properties) then WriteBack(result, outputKey, finalResult)
        else Err(PropertiesNotMapping)
  }

  function WriteBack(result: Json, outputKey: string, finalResult: Json): (r: Result<Masking>)
    requires result.JObject?
  {
    Ok(Masking(JObject(result.fields[outputKey := finalResult]), finalResult))
  }

  lemma MaskKeysStep(subResult: Json, done: set<string>, key: string)
    requires subResult.JObject?
    requires key !in done
    ensures MaskKeys(subResult, done + {key})
         == JObject(MaskKeys(subResult, done).fields[key := MaskedAttributeValue])
  {
  }

  /** `output_schema_secret_masking`: walks the property names of the action
      schema and overwrites each secret one in the sub-result with the sentinel. */
  method MaskSecrets(result: Json, outputKey: string, actionSchema: Json) returns (r: Result<Masking>)
    ensures r == SecretMasking(result, outputKey, actionSchema)
  {
    if !result.JObject? {
      return Err(ResultNotMapping);
    }
    if outputKey !in result.fields {
      return Err(OutputKeyMissing(outputKey));
    }
    var finalResult := result.fields[outputKey];
    var lookup := SchemaProperties(actionSchema);
    if lookup.Err? {
      return Err(lookup.fault);
    }
    var properties := lookup.value;
    if !properties.JObject? {
      if EmptyIterable(properties) {
        return WriteBack(result, outputKey, finalResult);
      }
      return Err(PropertiesNotMapping);
    }
    ghost var original := finalResult;
    ghost var secrets := SecretKeys(properties.fields);
    var todo := properties.fields.Keys;
    while todo != {}
      invariant todo <= properties.fields.Keys
      invariant forall k :: k in properties.fields && k !in todo ==> properties.fields[k].JObject?
      invariant secrets - todo != {} ==> original.JObject?
      invariant finalResult == MaskKeys(original, secrets - todo)
      decreases todo
    {
      var key :| key in todo;
      var propertySchema := properties.fields[key];
      if !propertySchema.JObject? {
        return Err(PropertyNotMaskable);
      }
      if SecretFlag(propertySchema) {
        if !finalResult.JObject? {
          assert key in secrets;
          return Err(PropertyNotMaskable);
        }
        assert original.JObject? by {
          if secrets - todo == {} { assert finalResult == original; }
        }
        MaskKeysStep(original, secrets - todo, key);
        assert secrets - (todo - {key}) == (secrets - todo) + {key};
        finalResult := JObject(finalResult.fields[key := MaskedAttributeValue]);
      } else {
        assert secrets - (todo - {key}) == secrets - todo;
      }
      todo := todo - {key};
    }
    assert secrets - todo == secrets;
    return WriteBack(result, outputKey, finalResult);
  }

  /** After masking succeeds, every secret-flagged property of the sub-result
      holds the sentinel, every other key keeps its value, and the key set grows
      by exactly the secret names (absent ones are inserted). */
  lemma MaskingMasksExactlySecrets(result: Json, outputKey: string, properties: Json, m: Masking)
    requires properties.JObject?
    requires SecretMasking(result, outputKey, ClosedObjectSchema(properties)) == Ok(m)
    ensures var secrets := SecretKeys(properties.fields);
            var subResult := result.fields[outputKey];
            && (secrets == {} ==> m.finalResult == subResult)
            && (secrets != {} ==>
                  && subResult.JObject? && m.finalResult.JObject?
                  && m.finalResult.fields.Keys == subResult.fields.Keys + secrets
                  && (forall k :: k in secrets ==> m.finalResult.fields[k] == MaskedAttributeValue)
                  && (forall k :: k in subResult.fields && k !in secrets ==> m.finalResult.fields[k] == subResult.fields[k]))
  {
  }

  /** Masking an already masked result changes nothing. */
  lemma MaskingIdempotent(result: Json, outputKey: string, actionSchema: Json, m: Masking)
    requires SecretMasking(result, outputKey, actionSchema) == Ok(m)
    ensures SecretMasking(m.result, outputKey, actionSchema) == Ok(m)
  {
    var properties := SchemaProperties(actionSchema).value;
    assert m.result.fields[outputKey] == m.finalResult;
    assert m.result.fields[outputKey := m.finalResult] == m.result.fields;
    if properties.JObject? {
      var secrets := SecretKeys(properties.fields);
      var subResult := result.fields[outputKey];
      if secrets != {} {
        var again := MaskKeys(m.finalResult, secrets);
        assert again.fields == m.finalResult.fields;
      }
    }
  }

  /** A secret-flagged property that the sub-result lacks is inserted. */
  lemma MaskingInsertsAbsentSecret(result: Json, outputKey: string, properties: Json, m: Masking, key: string)
    requires properties.JObject? && key in properties.fields && SecretFlag(properties.fields[key])
    requires SecretMasking(result, outputKey, ClosedObjectSchema(properties)) == Ok(m)
    requires result.fields[outputKey].JObject? && key !in result.fields[outputKey].fields
    ensures key in m.finalResult.fields && m.finalResult.fields[key] == MaskedAttributeValue
  {
    assert key in SecretKeys(properties.fields);
    MaskingMasksExactlySecrets(result, outputKey, properties, m);
  }

  /** A worked case: with `a` flagged secret and `b` not, `{"a": "v1", "b": "v2"}`
      under `out` becomes `{"a": "********", "b": "v2"}`. */
  lemma MaskingExample()
    ensures var properties := JObject(map["a" := JObject(map["secret" := JBool(true)]), "b" := JObject(map[])]);
            var result := JObject(map["out" := JObject(map["a" := JString("v1"), "b" := JString("v2")])]);
            var masked := JObject(map["a" := MaskedAttributeValue, "b" := JString("v2")]);
            SecretMasking(result, "out", ClosedObjectSchema(properties)) == Ok(Masking(JObject(map["out" := masked]), masked))
  {
    var props := map["a" := JObject(map["secret" := JBool(true)]), "b" := JObject(map[])];
    var sub := JObject(map["a" := JString("v1"), "b" := JString("v2")]);
    assert SecretFlag(props["a"]) && !SecretFlag(props["b"]);
    assert SecretKeys(props) == {"a"};
    assert !Unmaskable(props, sub);
    assert MaskKeys(sub, {"a"}).fields == map["a" := MaskedAttributeValue, "b" := JString("v2")];
    assert map["out" := sub]["out" := MaskKeys(sub, {"a"})] == map["out" := MaskKeys(sub, {"a"})];
  }

  // ---------------------------------------------------------------------
  // The two gates

  /** `_validate_action`: assemble the action schema, mask the sub-result, then
      validate the masked sub-result. On success it yields the caller's result
      as the masking left it. */
  function ValidateAction(env: Environment, actionSchema: Json, result: Json, outputKey: string): (r: Result<Json>)
    ensures match SecretMasking(result, outputKey, ClosedObjectSchema(actionSchema))
            case Err(f) => r == Err(f)
            case Ok(m) =>
              && (r.Ok? <==> env.validate(m.finalResult, ClosedObjectSchema(actionSchema)).Conforms?)
              && (r.Ok? ==> r.value == m.result)
              && (env.validate(m.finalResult, ClosedObjectSchema(actionSchema)).Rejects? ==>
                    r == Err(SchemaMismatch(env.validate(m.finalResult, ClosedObjectSchema(actionSchema)).detail)))
              && (env.validate(m.finalResult, ClosedObjectSchema(actionSchema)).Crashes? ==>
                    r == Err(ValidatorError(env.validate(m.finalResult, ClosedObjectSchema(actionSchema)).detail)))
  {
    var schema := ClosedObjectSchema(actionSchema);
    match SecretMasking(result, outputKey, schema)
    case Err(f) => Err(f)
    case Ok(m) =>
      match Validate(env, m.finalResult, schema)
      case Pass => Ok(m.result)
      case Fail(f) => Err(f)
  }

  /** The body of the `try` in `validate_output`: the runner gate, then, if it
      passed and there is an action schema, the action gate. A falsy runner
      schema skips both gates; a failing runner gate skips the action gate. */
  function RunGates(env: Environment, runnerSchema: Json, actionSchema: Json, result: Json, outputKey: string): (r: Result<Json>)
    ensures !Truthy(runnerSchema) ==> r == Ok(result)
    ensures Truthy(runnerSchema) ==>
              match env.validate(result, ClosedObjectSchema(runnerSchema))
              case Rejects(detail) => r == Err(SchemaMismatch(detail))
              case Crashes(detail) => r == Err(ValidatorError(detail))
              case Conforms =>
                if Truthy(actionSchema) then r == ValidateAction(env, actionSchema, result, outputKey)
                else r == Ok(result)
    ensures r.Ok? ==> || r.value == result
                      || (&& Truthy(runnerSchema) && Truthy(actionSchema)
                          && SecretMasking(result, outputKey, ClosedObjectSchema(actionSchema)).Ok?
                          && r.value == SecretMasking(result, outputKey, ClosedObjectSchema(actionSchema)).value.result)
  {
    if !Truthy(runnerSchema) then Ok(result)
    else
      match ValidateRunner(env, runnerSchema, result)
      case Fail(f) => Err(f)
      case Pass =>
        if Truthy(actionSchema) then ValidateAction(env, actionSchema, result, outputKey)
        else Ok(result)
  }

  // ---------------------------------------------------------------------
  // Failure reports and the orchestrator

  /** The result that replaces the output on a failure: a validation error
      gets `error` and `message`, any other fault a `traceback` as well. */
  function Diagnostic(env: Environment, f: Fault): (d: Json)
    ensures d.JObject?
    ensures d.fields.Keys == if IsValidationError(f) then {"error", "message"} else {"traceback", "error", "message"}
    ensures d.fields["error"] == JString(env.errorText(f))
    ensures d.fields["message"] == JString(FailureMessage)
    ensures "traceback" in d.fields ==> d.fields["traceback"] == JString(env.traceText(f))
  {
    if IsValidationError(f) then
      JObject(map["error" := JString(env.errorText(f)), "message" := JString(FailureMessage)])
    else
      JObject(map["traceback" := JString(env.traceText(f)), "error" := JString(env.errorText(f)),
                  "message" := JString(FailureMessage)])
  }

  /** A result of one of the two failure shapes. */
  predicate IsDiagnostic(d: Json)
  {
    && d.JObject?
    && (d.fields.Keys == {"error", "message"} || d.fields.Keys == {"traceback", "error", "message"})
    && d.fields["message"] == JString(FailureMessage)
  }

  /** `validate_output`: never raises; either passes the (possibly masked)
      result and the status through, or replaces them by a diagnostic and the
      failed status. */
  function ValidateOutput(env: Environment, runnerSchema: Json, actionSchema: Json,
                          result: Json, status: Status, outputKey: string): (out: (Json, Status))
    ensures !Truthy(runnerSchema) ==> out == (result, status)
    ensures out.1 == status || out.1 == LiveactionStatusFailed
    ensures out.1 != status ==> IsDiagnostic(out.0)
    ensures Truthy(runnerSchema) && !Truthy(actionSchema) && env.validate(result, ClosedObjectSchema(runnerSchema)).Conforms?
            ==> out == (result, status)
    ensures Truthy(runnerSchema) && env.validate(result, ClosedObjectSchema(runnerSchema)).Rejects?
            ==> out.1 == LiveactionStatusFailed && out.0.JObject? && out.0.fields.Keys == {"error", "message"}
    ensures Truthy(runnerSchema) && env.validate(result, ClosedObjectSchema(runnerSchema)).Crashes?
            ==> out.1 == LiveactionStatusFailed && out.0.JObject? && "traceback" in out.0.fields
    ensures Truthy(runnerSchema) && Truthy(actionSchema) && env.validate(result, ClosedObjectSchema(runnerSchema)).Conforms?
            ==> match SecretMasking(result, outputKey, ClosedObjectSchema(actionSchema))
                case Err(f) =>
                  && out == (Diagnostic(env, f), LiveactionStatusFailed)
                  && out.0.fields.Keys == {"traceback", "error", "message"}
                case Ok(m) =>
                  match env.validate(m.finalResult, ClosedObjectSchema(actionSchema))
                  case Conforms => out == (m.result, status)
                  case Rejects(_) =>
                    out.1 == LiveactionStatusFailed && out.0.JObject? && out.0.fields.Keys == {"error", "message"}
                  case Crashes(_) =>
                    out.1 == LiveactionStatusFailed && out.0.JObject? && out.0.fields.Keys == {"traceback", "error", "message"}
  {
    match RunGates(env, runnerSchema, actionSchema, result, outputKey)
    case Ok(checked) => (checked, status)
    case Err(f) => (Diagnostic(env, f), LiveactionStatusFailed)
  }

  /** With no runner schema nothing is checked and the action schema and the
      validator are never consulted. */
  lemma NoRunnerSchemaIsNoOp(env: Environment, env': Environment, runnerSchema: Json,
                             actionSchema: Json, actionSchema': Json,
                             result: Json, status: Status, outputKey: string)
    requires !Truthy(runnerSchema)
    ensures ValidateOutput(env, runnerSchema, actionSchema, result, status, outputKey)
         == ValidateOutput(env', runnerSchema, actionSchema', result, status, outputKey)
         == (result, status)
  {
  }

  /** A runner-schema mismatch fails the execution with exactly `error` and
      `message`; the action schema plays no part. */
  lemma RunnerMismatchShortCircuits(env: Environment, runnerSchema: Json, actionSchema: Json,
                                    result: Json, status: Status, outputKey: string, detail: string)
    requires Truthy(runnerSchema)
    requires env.validate(result, ClosedObjectSchema(runnerSchema)) == Rejects(detail)
    ensures ValidateOutput(env, runnerSchema, actionSchema, result, status, outputKey)
         == (JObject(map["error" := JString(env.errorText(SchemaMismatch(detail))),
                         "message" := JString(FailureMessage)]),
             LiveactionStatusFailed)
  {
  }

  /** Any other exception inside the runner validator fails the execution with
      a traceback in the report. */
  lemma RunnerCrashReportsTraceback(env: Environment, runnerSchema: Json, actionSchema: Json,
                                    result: Json, status: Status, outputKey: string, detail: string)
    requires Truthy(runnerSchema)
    requires env.validate(result, ClosedObjectSchema(runnerSchema)) == Crashes(detail)
    ensures var out := ValidateOutput(env, runnerSchema, actionSchema, result, status, outputKey);
            && out.1 == LiveactionStatusFailed
            && out.0 == Diagnostic(env, ValidatorError(detail))
            && "traceback" in out.0.fields
  {
  }

  /** With both gates enabled, the action gate validates the masked sub-result
      and, when that conforms, the masked result comes back with the status
      unchanged; a mismatch there fails with `error` and `message` only. */
  lemma ActionGateSeesMaskedResult(env: Environment, runnerSchema: Json, actionSchema: Json,
                                   result: Json, status: Status, outputKey: string, m: Masking)
    requires Truthy(runnerSchema) && Truthy(actionSchema)
    requires env.validate(result, ClosedObjectSchema(runnerSchema)).Conforms?
    requires SecretMasking(result, outputKey, ClosedObjectSchema(actionSchema)) == Ok(m)
    ensures var out := ValidateOutput(env, runnerSchema, actionSchema, result, status, outputKey);
            var verdict := env.validate(m.finalResult, ClosedObjectSchema(actionSchema));
            && (verdict.Conforms? ==> out == (m.result, status))
            && (verdict.Rejects? ==>
                  out == (Diagnostic(env, SchemaMismatch(verdict.detail)), LiveactionStatusFailed)
                  && "traceback" !in out.0.fields)
            && (verdict.Crashes? ==> out == (Diagnostic(env, ValidatorError(verdict.detail)), LiveactionStatusFailed))
  {
  }

  /** A missing output key is not a validation error: the report carries a traceback. */
  lemma MissingOutputKeyReportsTraceback(env: Environment, runnerSchema: Json, actionSchema: Json,
                                         result: Json, status: Status, outputKey: string)
    requires Truthy(runnerSchema) && Truthy(actionSchema)
    requires env.validate(result, ClosedObjectSchema(runnerSchema)).Conforms?
    requires result.JObject? && outputKey !in result.fields
    ensures var out := ValidateOutput(env, runnerSchema, actionSchema, result, status, outputKey);
            && out == (Diagnostic(env, OutputKeyMissing(outputKey)), LiveactionStatusFailed)
            && "traceback" in out.0.fields
  {
  }

  /** A property schema that is not a mapping is not a validation error either. */
  lemma NonMappingPropertySchemaReportsTraceback(env: Environment, runnerSchema: Json, actionSchema: Json,
                                                 result: Json, status: Status, outputKey: string, key: string)
    requires Truthy(runnerSchema)
    requires env.validate(result, ClosedObjectSchema(runnerSchema)).Conforms?
    requires actionSchema.JObject? && key in actionSchema.fields && !actionSchema.fields[key].JObject?
    requires result.JObject? && outputKey in result.fields
    ensures var out := ValidateOutput(env, runnerSchema, actionSchema, result, status, outputKey);
            && out == (Diagnostic(env, PropertyNotMaskable), LiveactionStatusFailed)
            && "traceback" in out.0.fields
  {
  }

  /** Once the runner gate has decided the same way, two results whose
      sub-results differ only in secret-flagged values give the same output:
      the action validator and the returned value depend only on the masked
      sub-result. The runner gate itself sees the unmasked result. */
  lemma SecretValuesDoNotReachOutput(env: Environment, runnerSchema: Json, actionSchema: Json,
                                     result: Json, status: Status, outputKey: string,
                                     subResult: Json, subResult': Json)
    requires Truthy(runnerSchema) && Truthy(actionSchema) && actionSchema.JObject?
    requires result.JObject? && subResult.JObject? && subResult'.JObject?
    requires var secrets := SecretKeys(actionSchema.fields);
             && (forall k :: k !in secrets ==> (k in subResult.fields <==> k in subResult'.fields))
             && (forall k :: k in subResult.fields && k in subResult'.fields && k !in secrets ==>
                               subResult.fields[k] == subResult'.fields[k])
    requires env.validate(JObject(result.fields[outputKey := subResult]), ClosedObjectSchema(runnerSchema))
          == env.validate(JObject(result.fields[outputKey := subResult']), ClosedObjectSchema(runnerSchema))
    ensures ValidateOutput(env, runnerSchema, actionSchema, JObject(result.fields[outputKey := subResult]), status, outputKey)
         == ValidateOutput(env, runnerSchema, actionSchema, JObject(result.fields[outputKey := subResult']), status, outputKey)
  {
    var secrets := SecretKeys(actionSchema.fields);
    var r1 := JObject(result.fields[outputKey := subResult]);
    var r2 := JObject(result.fields[outputKey := subResult']);
    if !Unmaskable(actionSchema.fields, subResult) {
      var masked := MaskKeys(subResult, secrets);
      var masked' := MaskKeys(subResult', secrets);
      assert masked.fields == masked'.fields;
      assert r1.fields[outputKey := masked] == r2.fields[outputKey := masked'];
    }
  }
}
