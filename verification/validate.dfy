/** The chat-plugin operationId validator of `src/validate.ts`: a scan of
    every path item and HTTP method that collects one error per operation
    whose `operationId` is not a string or contains whitespace, then either
    returns the collected errors or raises them together. */
module PluginValidation {
  import opened Wrappers
  import opened Values
  import opened Parse

  /** `ValidateForChatgptPluginErrorSeverity`. */
  datatype Severity = Error | Warning

  /** The eight HTTP methods a path item is scanned for. */
  datatype Method = Get | Post | Put | Delete | Options | Head | Patch | Trace {

    /** The property name of the method on a path item. */
    function Key(): string {
      match this
      case Get => "get"
      case Post => "post"
      case Put => "put"
      case Delete => "delete"
      case Options => "options"
      case Head => "head"
      case Patch => "patch"
      case Trace => "trace"
    }

    /** Position of the method in the scan order. */
    function Rank(): nat {
      match this
      case Get => 0
      case Post => 1
      case Put => 2
      case Delete => 3
      case Options => 4
      case Head => 5
      case Patch => 6
      case Trace => 7
    }
  }

  /** The scan order of the methods within one path item. */
  const Methods: seq<Method> := [Get, Post, Put, Delete, Options, Head, Patch, Trace]

  /** What is wrong with an operation's `operationId`: it is not a string,
      or it does not match `^[^\s]+$` (it is empty or contains whitespace;
      the source reports both with one message). The message text is not
      modelled; the offending id is kept. */
  datatype Kind = OperationIdNotString | OperationIdFailsPattern(opId: string)

  /** `ValidateForChatgptPluginError`, located by path and method (the
      `paths.<path>.<method>.operationId` prefix of the message). */
  datatype ValidationError = ValidationError(path: string, verb: Method, kind: Kind, severity: Severity)

  /** How the validator ends: it returns the collected errors, raises them
      as one `ChatGptOpenApiValidationError`, or throws a `TypeError`
      because `Object.entries` was given `undefined` or `null`. */
  datatype Outcome =
    | Returned(errors: seq<ValidationError>)
    | Raised(aggregate: seq<ValidationError>)
    | Crashed

  /** The character class `\s` of ECMAScript regular expressions: the
      WhiteSpace code points (tab, vertical tab, form feed, space, no-break
      space, byte-order mark and the Unicode space separators) and the
      LineTerminator code points (line feed, carriage return, line and
      paragraph separators). */
  predicate IsWhitespace(c: char) {
    var n := c as int;
    || n == 0x09 || n == 0x0A || n == 0x0B || n == 0x0C || n == 0x0D
    || n == 0x20 || n == 0xA0 || n == 0x1680
    || (0x2000 <= n <= 0x200A)
    || n == 0x2028 || n == 0x2029 || n == 0x202F || n == 0x205F
    || n == 0x3000 || n == 0xFEFF
  }

  /** `[^\s]*` matched against all of `s`. */
  predicate NonWhitespaceRun(s: string) {
    |s| == 0 || (!IsWhitespace(s[0]) && NonWhitespaceRun(s[1..]))
  }

  /** The anchored pattern `^[^\s]+$`: one non-whitespace character followed
      by a run of them, covering the whole string. The empty string does
      not match. */
  predicate MatchesIdPattern(s: string) {
    |s| > 0 && !IsWhitespace(s[0]) && NonWhitespaceRun(s[1..])
  }

  /** A run of non-whitespace characters is a string none of whose
      characters is whitespace. */
  lemma {:induction false} NonWhitespaceRunIsAllChars(s: string)
    ensures NonWhitespaceRun(s) <==> forall i :: 0 <= i < |s| ==> !IsWhitespace(s[i])
  {
    if |s| > 0 {
      NonWhitespaceRunIsAllChars(s[1..]);
      assert forall i :: 1 <= i < |s| ==> s[i] == s[1..][i - 1];
    }
  }

  /** The id pattern accepts exactly the non-empty strings without a
      whitespace character. */
  lemma MatchesIdPatternIsNonEmptyRun(s: string)
    ensures MatchesIdPattern(s) <==> |s| > 0 && forall i :: 0 <= i < |s| ==> !IsWhitespace(s[i])
  {
    if |s| > 0 {
      NonWhitespaceRunIsAllChars(s[1..]);
      assert forall i :: 1 <= i < |s| ==> s[i] == s[1..][i - 1];
    }
  }

  /** `validateOperationId`: no error exactly when the id is non-empty and
      free of whitespace. */
  function ValidateOperationId(opId: string): (r: Option<Kind>)
    ensures r.None? <==> |opId| > 0 && forall i :: 0 <= i < |opId| ==> !IsWhitespace(opId[i])
    ensures r.Some? ==> r.value == OperationIdFailsPattern(opId)
  {
    MatchesIdPatternIsNonEmptyRun(opId);
    if MatchesIdPattern(opId) then None else Some(OperationIdFailsPattern(opId))
  }

  /** The operation a path item holds for `verb`, when it is truthy. */
  function Operation(item: Value, verb: Method): Option<Value> {
    var op := Prop(item, verb.Key());
    if op.Some? && Truthy(op.value) then op else None
  }

  /** The error, if any, for one (path, method) site of a path item. */
  function SiteError(path: string, item: Value, verb: Method): Option<ValidationError> {
    match Operation(item, verb)
    case None => None
    case Some(op) =>
      match Prop(op, "operationId")
      case Some(Str(opId)) =>
        (match ValidateOperationId(opId)
         case None => None
         case Some(kind) => Some(ValidationError(path, verb, kind, Error)))
      case _ => Some(ValidationError(path, verb, OperationIdNotString, Error))
  }

  /** The errors `SiteError` reports, as a sequence of zero or one. */
  function AsSeq(e: Option<ValidationError>): seq<ValidationError> {
    if e.Some? then [e.value] else []
  }

  /** The errors of the first `n` methods of one path item: at most one
      per method, each located at `path`, with severity error and raised by
      one of those methods. */
  function MethodErrors(path: string, item: Value, n: nat): (r: seq<ValidationError>)
    requires n <= |Methods|
    ensures |r| <= n
    ensures forall k :: 0 <= k < |r| ==> r[k].path == path && r[k].severity == Error
  {
    if n == 0 then []
    else
      var last := SiteError(path, item, Methods[n - 1]);
      assert last.Some? ==> last.value.verb == Methods[n - 1];
      MethodErrors(path, item, n - 1) + AsSeq(last)
  }

  /** The errors of one path item: none when the item is falsy (the
      `continue`), otherwise those of all eight methods. */
  function ItemErrors(path: string, item: Value): seq<ValidationError> {
    if Truthy(item) then MethodErrors(path, item, |Methods|) else []
  }

  /** The errors of a sequence of `paths` entries, in declaration order.
      Each entry contributes at most eight, all of severity error. */
  function PathErrors(entries: seq<(string, Value)>): (r: seq<ValidationError>)
    ensures |r| <= 8 * |entries|
    ensures forall k :: 0 <= k < |r| ==> r[k].severity == Error
  {
    if |entries| == 0 then []
    else
      var last := entries[|entries| - 1];
      PathErrors(entries[..|entries| - 1]) + ItemErrors(last.0, last.1)
  }

  /** The end of the validator once the scan is complete: raise when asked
      to and something was found, return the list otherwise. */
  function Finish(errors: seq<ValidationError>, throwOnError: bool): (r: Outcome)
    ensures r.Raised? <==> throwOnError && |errors| > 0
    ensures r.Returned? <==> !(throwOnError && |errors| > 0)
    ensures r.Returned? ==> r.errors == errors
    ensures r.Raised? ==> r.aggregate == errors
  {
    if throwOnError && |errors| > 0 then Raised(errors) else Returned(errors)
  }

  /** `validateForChatGptPlugin` as written: `Object.entries(doc.paths)`
      throws when `paths` is absent or `null`. */
  function ValidateAsWritten(doc: Document, throwOnError: bool): (r: Outcome)
    ensures r.Crashed? <==> Prop(doc, "paths").None? || Prop(doc, "paths").value.Null?
  {
    match Prop(doc, "paths")
    case None => Crashed
    case Some(paths) =>
      match Entries(paths)
      case None => Crashed
      case Some(entries) => Finish(PathErrors(entries), throwOnError)
  }

  /** The `paths` entries to scan, with an absent or `null` `paths` read as
      having none. */
  function PathEntries(doc: Document): seq<(string, Value)> {
    match Prop(doc, "paths")
    case None => []
    case Some(paths) => Entries(paths).GetOr([])
  }

  /** The validator with the crash removed: every document that passed the
      integrity gate is scanned, and one without `paths` has no errors. */
  function Validate(doc: Document, throwOnError: bool): (r: Outcome)
    ensures !r.Crashed?
    ensures Prop(doc, "paths").None? || Prop(doc, "paths") == Some(Null) ==> r == Returned([])
  {
    Finish(PathErrors(PathEntries(doc)), throwOnError)
  }

  /** The body of the inner loop of the source for one method: read the
      operation, then test its `operationId`. */
  method CheckSite(path: string, item: Value, verb: Method) returns (site: Option<ValidationError>)
    ensures site == SiteError(path, item, verb)
    ensures Operation(item, verb).None? ==> site.None?
    ensures Operation(item, verb).Some? && !(Prop(Operation(item, verb).value, "operationId").Some? &&
                                             Prop(Operation(item, verb).value, "operationId").value.Str?) ==>
      site == Some(ValidationError(path, verb, OperationIdNotString, Error))
    ensures Operation(item, verb).Some? && Prop(Operation(item, verb).value, "operationId").Some? &&
            Prop(Operation(item, verb).value, "operationId").value.Str? ==>
      var id := Prop(Operation(item, verb).value, "operationId").value.s;
      && (site.None? <==> |id| > 0 && forall i :: 0 <= i < |id| ==> !IsWhitespace(id[i]))
      && (site.Some? ==> site == Some(ValidationError(path, verb, OperationIdFailsPattern(id), Error)))
  {
    site := None;
    var op := Prop(item, verb.Key());
    if op.Some? && Truthy(op.value) {
      var opId := Prop(op.value, "operationId");
      if !(opId.Some? && opId.value.Str?) {
        site := Some(ValidationError(path, verb, OperationIdNotString, Error));
      } else {
        var kind := ValidateOperationId(opId.value.s);
        if kind.Some? {
          site := Some(ValidationError(path, verb, kind.value, Error));
        }
      }
    }
  }

  /** The inner loop of the source: the eight methods of one truthy path
      item, in scan order. */
  method ScanItem(path: string, item: Value) returns (found: seq<ValidationError>)
    ensures found == MethodErrors(path, item, |Methods|)
  {
    found := [];
    var k := 0;
    while k < |Methods|
      invariant 0 <= k <= |Methods|
      invariant found == MethodErrors(path, item, k)
    {
      var site := CheckSite(path, item, Methods[k]);
      found := found + AsSeq(site);
      k := k + 1;
    }
  }

  /** The outer loop of the source: every `paths` entry in declaration
      order, a falsy path item skipped. */
  method ScanPaths(entries: seq<(string, Value)>) returns (errors: seq<ValidationError>)
    ensures errors == PathErrors(entries)
  {
    errors := [];
    var i := 0;
    while i < |entries|
      invariant 0 <= i <= |entries|
      invariant errors == PathErrors(entries[..i])
    {
      var (path, item) := entries[i];
      if Truthy(item) {
        var found := ScanItem(path, item);
        errors := errors + found;
      }
      assert entries[..i + 1][..i] == entries[..i];
      i := i + 1;
    }
    assert entries[..|entries|] == entries;
  }

  /** `validateForChatGptPlugin` with the crash on an absent or `null`
      `paths` repaired: the scan, then the `throwOnError` policy. The errors
      are those of `Validate`, in the same order, and wherever the code as
      written does not throw, the outcome is the same as its outcome. */
  method ValidateForChatGptPlugin(doc: Document, throwOnError: bool) returns (r: Outcome)
    ensures r == Validate(doc, throwOnError)
    ensures !ValidateAsWritten(doc, throwOnError).Crashed? ==> r == ValidateAsWritten(doc, throwOnError)
    ensures r.Raised? <==> throwOnError && |PathErrors(PathEntries(doc))| > 0
  {
    var errors := ScanPaths(PathEntries(doc));
    if throwOnError && |errors| > 0 {
      r := Raised(errors);
    } else {
      r := Returned(errors);
    }
  }
}
