/** Format detection and the lax integrity gate of `src/parse.ts`.

    A decoded value only becomes a `Document` by passing `CheckIntegrity`,
    and a `ParseResult` can only hold a `Document`, so no parse result can
    wrap an unchecked value. */
module Parse {
  import opened Wrappers
  import opened Values

  /** The two serialisation formats a document can be detected in. */
  datatype Format = Yaml | Json

  /** The OpenAPI versions the gate accepts, compared by strict equality. */
  const SupportedVersions: seq<string> := ["3.0.0", "3.0.1", "3.0.2", "3.0.3", "3.1.0"]

  /** The one version for which `webhooks` may stand in for `paths`. */
  const WebhooksVersion: string := "3.1.0"

  /** The integrity rule a value broke; each becomes an
      `InvalidOpenapiDocumentError` in the source. */
  datatype Violation =
    | MissingOpenapi
    | MissingInfo
    | MissingPathsAndWebhooks
    | MissingPaths
    | OpenapiVersionIsNumber
    | ApiVersionIsNumber
    | UnsupportedVersion(version: Value)

  /** Why parsing failed: neither codec produced a truthy value, the value
      broke an integrity rule, or a property was read from `null` (the
      JavaScript `TypeError` on `null.openapi` or `null.version`). */
  datatype ParseError =
    | CouldNotParse
    | InvalidOpenapiDocument(violation: Violation)
    | TypeError

  /** The `openapi` field holds one of the supported version strings. */
  predicate IsSupportedVersion(openapi: Option<Value>) {
    openapi.Some? && openapi.value.Str? && openapi.value.s in SupportedVersions
  }

  /** `info.version` is present and numeric. */
  predicate HasNumericApiVersion(info: Value) {
    Prop(info, "version").Some? && Prop(info, "version").value.Num?
  }

  /** What it means to be a usable document, stated without rule order:
      `openapi` is a supported version string, `info` is present, is not
      `null` and has no numeric `version`, and `paths` is present unless the
      version is 3.1.0 and `webhooks` is present. */
  predicate Conforms(v: Value) {
    && IsSupportedVersion(Prop(v, "openapi"))
    && Prop(v, "info").Some?
    && Prop(v, "info").value != Null
    && !HasNumericApiVersion(Prop(v, "info").value)
    && (|| Prop(v, "paths").Some?
        || (Prop(v, "openapi") == Some(Str(WebhooksVersion)) && Prop(v, "webhooks").Some?))
  }

  /** A value that has passed the integrity gate. */
  type Document = v: Value | Conforms(v)
    witness Obj([("openapi", Str("3.0.0")), ("info", Obj([])), ("paths", Obj([]))])

  /** What parsing hands back: the detected format and the checked document. */
  datatype ParseResult = ParseResult(format: Format, doc: Document)

  /** `checkOpenApiV3DocumentIntegrity`: the six rules in source order, the
      first one that fails deciding the error. On success the value is
      returned unchanged. */
  function CheckIntegrity(v: Value): (r: Result<Document, ParseError>)
    ensures r.Success? <==> Conforms(v)
    ensures r.Success? ==> r.value == v
    ensures r.Failure? ==> r.error != CouldNotParse
  {
    if v.Null? then Failure(TypeError)
    else
      var openapi := Prop(v, "openapi");
      if openapi.None? then Failure(InvalidOpenapiDocument(MissingOpenapi))
      else if Prop(v, "info").None? then Failure(InvalidOpenapiDocument(MissingInfo))
      else if Prop(v, "paths").None? && openapi == Some(Str(WebhooksVersion)) && Prop(v, "webhooks").None? then
        Failure(InvalidOpenapiDocument(MissingPathsAndWebhooks))
      else if Prop(v, "paths").None? && openapi != Some(Str(WebhooksVersion)) then
        Failure(InvalidOpenapiDocument(MissingPaths))
      else if openapi.value.Num? then Failure(InvalidOpenapiDocument(OpenapiVersionIsNumber))
      else
        var info := Prop(v, "info").value;
        if info.Null? then Failure(TypeError)
        else if HasNumericApiVersion(info) then Failure(InvalidOpenapiDocument(ApiVersionIsNumber))
        else if !IsSupportedVersion(openapi) then Failure(InvalidOpenapiDocument(UnsupportedVersion(openapi.value)))
        else Success(v)
  }

  /** Wraps a checked document with the format it was found in. */
  function Tag(format: Format, checked: Result<Document, ParseError>): (r: Result<ParseResult, ParseError>)
    ensures r.Success? <==> checked.Success?
    ensures r.Success? ==> r.value == ParseResult(format, checked.value)
    ensures r.Failure? ==> r.error == checked.error
  {
    checked.Map((d: Document) => ParseResult(format, d))
  }

  /** A decode attempt that counts as success: it did not throw and it
      produced a truthy value. */
  predicate Decoded(attempt: Option<Value>) {
    attempt.Some? && Truthy(attempt.value)
  }

  /** `parseFromString`: JSON first, YAML only when JSON threw or produced a
      falsy value, the generic error when neither gives a truthy value, then
      the integrity gate. The codecs are parameters: `json` and `yaml` return
      `None` where the library call throws. */
  function ParseFromString(text: string, json: string -> Option<Value>, yaml: string -> Option<Value>)
    : (r: Result<ParseResult, ParseError>)
    ensures r.Success? ==> r.value.format == Json ==> Decoded(json(text))
    ensures r.Success? ==> r.value.format == Yaml ==> !Decoded(json(text)) && Decoded(yaml(text))
    ensures r == Failure(CouldNotParse) <==> !Decoded(json(text)) && !Decoded(yaml(text))
  {
    var first := json(text);
    if Decoded(first) then Tag(Json, CheckIntegrity(first.value))
    else
      var second := yaml(text);
      if Decoded(second) then Tag(Yaml, CheckIntegrity(second.value))
      else Failure(CouldNotParse)
  }

  /** `parseFromObject`: the integrity gate alone, with the format fixed to
      JSON. The surrounding promise is not modelled. */
  function ParseFromObject(v: Value): (r: Result<ParseResult, ParseError>)
    ensures r.Success? <==> Conforms(v)
    ensures r.Success? ==> r.value.format == Json && r.value.doc == v
    ensures r.Failure? ==> CheckIntegrity(v) == Failure(r.error)
    ensures r.Failure? ==> r.error != CouldNotParse
  {
    Tag(Json, CheckIntegrity(v))
  }
}
