/** Properties of the integrity gate and of format detection: which rule
    decides the error in each situation, and which codec decides the format. */
module ParseProperties {
  import opened Wrappers
  import opened Values
  import opened Parse

  /** The failure the gate reports for an integrity violation. */
  function Invalid(violation: Violation): Result<Document, ParseError> {
    Failure(InvalidOpenapiDocument(violation))
  }

  /** A missing `openapi` field is reported whatever else the value holds;
      only a `null` value fails earlier, on the property read itself. */
  lemma MissingOpenapiDecides(v: Value)
    requires Prop(v, "openapi").None?
    ensures CheckIntegrity(v) == if v.Null? then Failure(TypeError) else Invalid(MissingOpenapi)
  {
  }

  /** With `openapi` present, a missing `info` is reported even when `paths`
      (or anything else) is missing too. */
  lemma MissingInfoBeforePaths(v: Value)
    requires Prop(v, "openapi").Some? && Prop(v, "info").None?
    ensures CheckIntegrity(v) == Invalid(MissingInfo)
  {
  }

  /** Rule 3 with `paths` absent: version 3.1.0 with `webhooks` passes the
      rule, version 3.1.0 without `webhooks` fails with the webhooks error,
      and any other `openapi` value fails with the missing-paths error. */
  lemma PathsRule(v: Value)
    requires Prop(v, "openapi").Some? && Prop(v, "info").Some? && Prop(v, "paths").None?
    ensures Prop(v, "openapi") == Some(Str(WebhooksVersion)) && Prop(v, "webhooks").Some? ==>
      CheckIntegrity(v) !in {Invalid(MissingPaths), Invalid(MissingPathsAndWebhooks)}
    ensures Prop(v, "openapi") == Some(Str(WebhooksVersion)) && Prop(v, "webhooks").None? ==>
      CheckIntegrity(v) == Invalid(MissingPathsAndWebhooks)
    ensures Prop(v, "openapi") != Some(Str(WebhooksVersion)) ==> CheckIntegrity(v) == Invalid(MissingPaths)
  {
  }

  /** A webhooks-only 3.1.0 document passes the whole gate once its `info`
      is a non-null value without a numeric `version`. */
  lemma WebhooksStandInForPaths(v: Value)
    requires Prop(v, "openapi") == Some(Str(WebhooksVersion))
    requires Prop(v, "info").Some? && Prop(v, "info").value != Null
    requires !HasNumericApiVersion(Prop(v, "info").value)
    requires Prop(v, "paths").None? && Prop(v, "webhooks").Some?
    ensures CheckIntegrity(v) == Success(v)
  {
  }

  /** A numeric `openapi` that gets past the presence rules is reported as
      "must be a string", never as an unsupported version. */
  lemma NumericOpenapiIsNotUnsupported(v: Value)
    requires Prop(v, "openapi").Some? && Prop(v, "openapi").value.Num?
    requires Prop(v, "info").Some? && Prop(v, "paths").Some?
    ensures CheckIntegrity(v) == Invalid(OpenapiVersionIsNumber)
    ensures forall version :: CheckIntegrity(v) != Invalid(UnsupportedVersion(version))
  {
  }

  /** A numeric `openapi` without `paths` never reaches the type rule: the
      value cannot be "3.1.0", so the missing-paths error wins. */
  lemma NumericOpenapiWithoutPaths(v: Value)
    requires Prop(v, "openapi").Some? && Prop(v, "openapi").value.Num?
    requires Prop(v, "info").Some? && Prop(v, "paths").None?
    ensures CheckIntegrity(v) == Invalid(MissingPaths)
  {
  }

  /** Once rules 1 to 4 pass, a numeric `info.version` yields the
      API-version error whatever `openapi` holds, and an `info` that is
      `null` makes the read `info.version` throw. */
  lemma ApiVersionRule(v: Value)
    requires Prop(v, "openapi").Some? && !Prop(v, "openapi").value.Num?
    requires Prop(v, "info").Some?
    requires Prop(v, "paths").Some? || (Prop(v, "openapi") == Some(Str(WebhooksVersion)) && Prop(v, "webhooks").Some?)
    ensures Prop(v, "info").value.Null? ==> CheckIntegrity(v) == Failure(TypeError)
    ensures HasNumericApiVersion(Prop(v, "info").value) ==> CheckIntegrity(v) == Invalid(ApiVersionIsNumber)
  {
  }

  /** On success the `openapi` field is one of the five supported version
      strings and the document is the input itself, unchanged. */
  lemma PassingDocumentHasSupportedVersion(v: Value)
    requires CheckIntegrity(v).Success?
    ensures exists s :: s in SupportedVersions && Prop(v, "openapi") == Some(Str(s))
    ensures CheckIntegrity(v).value == v
  {
    assert Prop(v, "openapi") == Some(Str(Prop(v, "openapi").value.s));
  }

  /** A minimal document with the given `openapi` field, an empty `info`
      and empty `paths`. */
  function MinimalDocument(openapi: Value): Value {
    Obj([("openapi", openapi), ("info", Obj([])), ("paths", Obj([]))])
  }

  /** The three fields of `MinimalDocument` read back as written. */
  lemma MinimalDocumentFields(openapi: Value)
    ensures Prop(MinimalDocument(openapi), "openapi") == Some(openapi)
    ensures Prop(MinimalDocument(openapi), "info") == Some(Obj([]))
    ensures Prop(MinimalDocument(openapi), "paths") == Some(Obj([]))
  {
    var fields := MinimalDocument(openapi).fields;
    var rest := [("info", Obj([])), ("paths", Obj([]))];
    assert fields[1..] == rest;
    assert rest[1..] == [("paths", Obj([]))];
    assert Lookup(fields, "openapi") == Some(openapi);
    assert Lookup(fields, "info") == Lookup(rest, "info") == Some(Obj([]));
    assert Lookup(fields, "paths") == Lookup(rest, "paths") == Lookup(rest[1..], "paths") == Some(Obj([]));
  }

  /** A numeric `openapi` of 3.0 is reported as a number, not as a version. */
  lemma NumericVersionExample()
    ensures CheckIntegrity(MinimalDocument(Num(3.0))) == Invalid(OpenapiVersionIsNumber)
  {
    MinimalDocumentFields(Num(3.0));
  }

  /** A well-formed but unsupported version string is named in the error. */
  lemma UnsupportedVersionExample()
    ensures CheckIntegrity(MinimalDocument(Str("2.9.9"))) == Invalid(UnsupportedVersion(Str("2.9.9")))
  {
    MinimalDocumentFields(Str("2.9.9"));
    assert Prop(Obj([]), "version").None?;
    assert !IsSupportedVersion(Some(Str("2.9.9")));
  }

  /** A later 3.1 patch version is not accepted either. */
  lemma LaterPatchVersionExample()
    ensures CheckIntegrity(MinimalDocument(Str("3.1.1"))) == Invalid(UnsupportedVersion(Str("3.1.1")))
  {
    MinimalDocumentFields(Str("3.1.1"));
    assert Prop(Obj([]), "version").None?;
    assert !IsSupportedVersion(Some(Str("3.1.1")));
  }

  /** A supported version string with `info` and `paths` present passes. */
  lemma SupportedVersionExample()
    ensures CheckIntegrity(MinimalDocument(Str("3.0.3"))) == Success(MinimalDocument(Str("3.0.3")))
  {
    MinimalDocumentFields(Str("3.0.3"));
    assert Prop(Obj([]), "version").None?;
    assert "3.0.3" == SupportedVersions[3];
  }

  /** A truthy JSON decode decides the format: the result is the gate's
      verdict on the JSON value, and the YAML codec is never consulted. */
  lemma JsonWins(text: string, json: string -> Option<Value>, yaml: string -> Option<Value>,
                 otherYaml: string -> Option<Value>)
    requires Decoded(json(text))
    ensures ParseFromString(text, json, yaml) == Tag(Json, CheckIntegrity(json(text).value))
    ensures ParseFromString(text, json, yaml) == ParseFromString(text, json, otherYaml)
  {
  }

  /** When JSON throws or decodes to a falsy value, a truthy YAML decode
      decides the format. */
  lemma YamlFallback(text: string, json: string -> Option<Value>, yaml: string -> Option<Value>)
    requires !Decoded(json(text)) && Decoded(yaml(text))
    ensures ParseFromString(text, json, yaml) == Tag(Yaml, CheckIntegrity(yaml(text).value))
  {
  }

  /** Text that both codecs decode to a falsy value (`0`, `false`, `null`,
      an empty string) is reported as unparseable, not as an invalid
      document. */
  lemma FalsyDecodeIsUnparseable(text: string, json: string -> Option<Value>, yaml: string -> Option<Value>)
    requires json(text).Some? && !Truthy(json(text).value)
    requires yaml(text).None? || !Truthy(yaml(text).value)
    ensures ParseFromString(text, json, yaml) == Failure(CouldNotParse)
  {
  }

  /** The generic parse failure and the integrity failures never mix: a
      failure is `CouldNotParse` exactly when neither decode succeeded, and
      otherwise it is the gate's failure on the decoded value. */
  lemma ParseFailureKinds(text: string, json: string -> Option<Value>, yaml: string -> Option<Value>)
    requires ParseFromString(text, json, yaml).Failure?
    ensures var e := ParseFromString(text, json, yaml).error;
      || (e == CouldNotParse && !Decoded(json(text)) && !Decoded(yaml(text)))
      || (Decoded(json(text)) && CheckIntegrity(json(text).value) == Failure(e))
      || (!Decoded(json(text)) && Decoded(yaml(text)) && CheckIntegrity(yaml(text).value) == Failure(e))
  {
  }

  /** `parseFromObject` and `parseFromString` agree on a value that the JSON
      codec yields truthily: same verdict, same format. */
  lemma ObjectMatchesJsonText(text: string, json: string -> Option<Value>, yaml: string -> Option<Value>)
    requires Decoded(json(text))
    ensures ParseFromObject(json(text).value) == ParseFromString(text, json, yaml)
  {
  }
}
