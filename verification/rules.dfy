/** The integrity gate restated as a table of independent rules checked by a
    generic fail-fast combinator. `CheckIntegrity` in module `Parse` is the
    gate as written; `CheckIsFirstFailingRule` below shows the two agree, so
    "the first failing rule decides the error" holds of the gate itself. */
module IntegrityRules {
  import opened Wrappers
  import opened Values
  import opened Parse

  /** One integrity rule of `checkOpenApiV3DocumentIntegrity`. */
  datatype Rule =
    | OpenapiPresent
    | InfoPresent
    | PathsOrWebhooksPresent
    | OpenapiNotNumber
    | ApiVersionNotNumber
    | VersionSupported

  /** The rules in the order the source checks them. */
  const Rules: seq<Rule> :=
    [OpenapiPresent, InfoPresent, PathsOrWebhooksPresent, OpenapiNotNumber, ApiVersionNotNumber, VersionSupported]

  /** The failure one rule raises on `v` when evaluated on its own, or
      `None` when it passes. Reading a property of `null` throws, so every
      rule fails with `TypeError` on a `null` receiver. */
  function Verdict(rule: Rule, v: Value): Option<ParseError> {
    if v.Null? then Some(TypeError)
    else
      var openapi := Prop(v, "openapi");
      match rule
      case OpenapiPresent =>
        if openapi.None? then Some(InvalidOpenapiDocument(MissingOpenapi)) else None
      case InfoPresent =>
        if Prop(v, "info").None? then Some(InvalidOpenapiDocument(MissingInfo)) else None
      case PathsOrWebhooksPresent =>
        if Prop(v, "paths").Some? then None
        else if openapi != Some(Str(WebhooksVersion)) then Some(InvalidOpenapiDocument(MissingPaths))
        else if Prop(v, "webhooks").None? then Some(InvalidOpenapiDocument(MissingPathsAndWebhooks))
        else None
      case OpenapiNotNumber =>
        if openapi.Some? && openapi.value.Num? then Some(InvalidOpenapiDocument(OpenapiVersionIsNumber)) else None
      case ApiVersionNotNumber =>
        var info := Prop(v, "info");
        if info.None? || info.value.Null? then Some(TypeError)
        else if HasNumericApiVersion(info.value) then Some(InvalidOpenapiDocument(ApiVersionIsNumber))
        else None
      case VersionSupported =>
        if IsSupportedVersion(openapi) then None
        else Some(InvalidOpenapiDocument(UnsupportedVersion(openapi.GetOr(Null))))
  }

  /** Fail-fast evaluation: the failure of the first rule in `rules` that
      fails, or `None` when all pass. */
  function FirstFailure(rules: seq<Rule>, v: Value): Option<ParseError> {
    if |rules| == 0 then None
    else if Verdict(rules[0], v).Some? then Verdict(rules[0], v)
    else FirstFailure(rules[1..], v)
  }

  /** Rule `i` is the first rule of `rules` that fails on `v`, and it fails with `e`. */
  predicate FailsFirstAt(rules: seq<Rule>, v: Value, i: int, e: ParseError) {
    && 0 <= i < |rules|
    && Verdict(rules[i], v) == Some(e)
    && forall j :: 0 <= j < i ==> Verdict(rules[j], v).None?
  }

  /** `FirstFailure` reports a failure exactly when some rule fails, and the
      failure it reports is that of the earliest failing rule: every rule
      before it passes. */
  lemma {:induction false} FirstFailureIsEarliest(rules: seq<Rule>, v: Value, e: ParseError)
    ensures FirstFailure(rules, v) == Some(e) <==> exists i :: FailsFirstAt(rules, v, i, e)
    ensures FirstFailure(rules, v).None? <==> forall i :: 0 <= i < |rules| ==> Verdict(rules[i], v).None?
    decreases |rules|
  {
    if |rules| > 0 {
      var tail := rules[1..];
      FirstFailureIsEarliest(tail, v, e);
      if Verdict(rules[0], v) == Some(e) {
        assert FailsFirstAt(rules, v, 0, e);
      }
      if FirstFailure(rules, v) == Some(e) && Verdict(rules[0], v).None? {
        var i :| FailsFirstAt(tail, v, i, e);
        forall j | 0 <= j < i + 1
          ensures Verdict(rules[j], v).None?
        {
          if j > 0 { assert rules[j] == tail[j - 1]; }
        }
        assert FailsFirstAt(rules, v, i + 1, e);
      }
      if exists i :: FailsFirstAt(rules, v, i, e) {
        var i :| FailsFirstAt(rules, v, i, e);
        if i > 0 {
          assert Verdict(rules[0], v).None?;
          forall j | 0 <= j < i - 1
            ensures Verdict(tail[j], v).None?
          {
            assert tail[j] == rules[j + 1];
          }
          assert FailsFirstAt(tail, v, i - 1, e);
        }
      }
      if forall i :: 0 <= i < |rules| ==> Verdict(rules[i], v).None? {
        forall i | 0 <= i < |tail|
          ensures Verdict(tail[i], v).None?
        {
          assert tail[i] == rules[i + 1];
        }
      }
      if FirstFailure(rules, v).None? {
        forall i | 0 <= i < |rules|
          ensures Verdict(rules[i], v).None?
        {
          if i > 0 { assert rules[i] == tail[i - 1]; }
        }
      }
    }
  }

  /** The first failing rule of `Rules`, written out rule by rule. */
  function Cascade(v: Value): Option<ParseError> {
    if Verdict(OpenapiPresent, v).Some? then Verdict(OpenapiPresent, v)
    else if Verdict(InfoPresent, v).Some? then Verdict(InfoPresent, v)
    else if Verdict(PathsOrWebhooksPresent, v).Some? then Verdict(PathsOrWebhooksPresent, v)
    else if Verdict(OpenapiNotNumber, v).Some? then Verdict(OpenapiNotNumber, v)
    else if Verdict(ApiVersionNotNumber, v).Some? then Verdict(ApiVersionNotNumber, v)
    else Verdict(VersionSupported, v)
  }

  /** Fail-fast evaluation of the rule table unrolls to `Cascade`. */
  lemma RulesUnroll(v: Value)
    ensures FirstFailure(Rules, v) == Cascade(v)
  {
    var r1 := [InfoPresent, PathsOrWebhooksPresent, OpenapiNotNumber, ApiVersionNotNumber, VersionSupported];
    var r2 := [PathsOrWebhooksPresent, OpenapiNotNumber, ApiVersionNotNumber, VersionSupported];
    var r3 := [OpenapiNotNumber, ApiVersionNotNumber, VersionSupported];
    var r4 := [ApiVersionNotNumber, VersionSupported];
    var r5 := [VersionSupported];
    assert Rules[1..] == r1 && r1[1..] == r2 && r2[1..] == r3 && r3[1..] == r4 && r4[1..] == r5 && r5[1..] == [];
    assert FirstFailure(r5, v) == Verdict(VersionSupported, v);
    assert FirstFailure(r4, v) == if Verdict(ApiVersionNotNumber, v).Some? then Verdict(ApiVersionNotNumber, v) else FirstFailure(r5, v);
    assert FirstFailure(r3, v) == if Verdict(OpenapiNotNumber, v).Some? then Verdict(OpenapiNotNumber, v) else FirstFailure(r4, v);
    assert FirstFailure(r2, v) == if Verdict(PathsOrWebhooksPresent, v).Some? then Verdict(PathsOrWebhooksPresent, v) else FirstFailure(r3, v);
    assert FirstFailure(r1, v) == if Verdict(InfoPresent, v).Some? then Verdict(InfoPresent, v) else FirstFailure(r2, v);
  }

  /** The gate as written and the rule table agree: `CheckIntegrity` fails
      exactly when some rule fails, with the failure of the first one. */
  lemma CheckIsFirstFailingRule(v: Value)
    ensures CheckIntegrity(v).Failure? <==> FirstFailure(Rules, v).Some?
    ensures CheckIntegrity(v).Failure? ==> FirstFailure(Rules, v) == Some(CheckIntegrity(v).error)
  {
    RulesUnroll(v);
  }
}
