/** Properties of the operationId validator: what one (path, method) site
    reports, how the errors of the whole scan are ordered and bounded, and
    how the `throwOnError` option leaves the scan alone. */
module ValidateProperties {
  import opened Wrappers
  import opened Values
  import opened Parse
  import opened PluginValidation

  /** The operation a site holds, and its `operationId`. */
  function OperationIdAt(item: Value, verb: Method): Option<Value>
    requires Operation(item, verb).Some?
  {
    Prop(Operation(item, verb).value, "operationId")
  }

  /** A site without a truthy operation reports nothing. */
  lemma AbsentOperationIsSilent(path: string, item: Value, verb: Method)
    requires Operation(item, verb).None?
    ensures SiteError(path, item, verb).None?
  {
  }

  /** A present operation whose `operationId` is not a string (absent,
      numeric, an object, ...) yields exactly the "must be a string" error
      for that path and method. */
  lemma NonStringIdIsTypeError(path: string, item: Value, verb: Method)
    requires Operation(item, verb).Some?
    requires !(OperationIdAt(item, verb).Some? && OperationIdAt(item, verb).value.Str?)
    ensures SiteError(path, item, verb) == Some(ValidationError(path, verb, OperationIdNotString, Error))
  {
  }

  /** A string `operationId` is never reported as a type error: it is
      reported, with the id itself, exactly when it is empty or contains a
      whitespace character. */
  lemma StringIdIsCheckedByPattern(path: string, item: Value, verb: Method, opId: string)
    requires Operation(item, verb).Some? && OperationIdAt(item, verb) == Some(Str(opId))
    ensures SiteError(path, item, verb).None? <==>
      |opId| > 0 && forall i :: 0 <= i < |opId| ==> !IsWhitespace(opId[i])
    ensures SiteError(path, item, verb).Some? ==>
      SiteError(path, item, verb).value == ValidationError(path, verb, OperationIdFailsPattern(opId), Error)
  {
  }

  /** The operation read for a method is the truthy value stored under the
      method's name in the path item, and nothing else. */
  lemma OperationIsTruthyRead(item: Value, verb: Method)
    ensures Operation(item, verb).Some? <==> Prop(item, verb.Key()).Some? && Truthy(Prop(item, verb.Key()).value)
    ensures Operation(item, verb).Some? ==> item.Obj? && (verb.Key(), Operation(item, verb).value) in item.fields
  {
  }

  /** What one (path, method) site reports: nothing without a truthy
      operation; the type error when the `operationId` is not a string; for
      a string id, the whitespace error exactly when the id pattern fails.
      Every report is located at the site and has severity error. */
  lemma SiteErrorCases(path: string, item: Value, verb: Method)
    ensures SiteError(path, item, verb).Some? ==>
      && SiteError(path, item, verb).value.path == path
      && SiteError(path, item, verb).value.verb == verb
      && SiteError(path, item, verb).value.severity == Error
    ensures Operation(item, verb).None? ==> SiteError(path, item, verb).None?
    ensures Operation(item, verb).Some? && !(OperationIdAt(item, verb).Some? && OperationIdAt(item, verb).value.Str?) ==>
      SiteError(path, item, verb) == Some(ValidationError(path, verb, OperationIdNotString, Error))
    ensures Operation(item, verb).Some? && OperationIdAt(item, verb).Some? && OperationIdAt(item, verb).value.Str? ==>
      && (SiteError(path, item, verb).None? <==> MatchesIdPattern(OperationIdAt(item, verb).value.s))
      && (SiteError(path, item, verb).Some? ==>
            SiteError(path, item, verb).value.kind == OperationIdFailsPattern(OperationIdAt(item, verb).value.s))
  {
    if Operation(item, verb).Some? && OperationIdAt(item, verb).Some? && OperationIdAt(item, verb).value.Str? {
      MatchesIdPatternIsNonEmptyRun(OperationIdAt(item, verb).value.s);
    }
  }

  /** The empty id is rejected. */
  lemma EmptyIdIsRejected()
    ensures ValidateOperationId("") == Some(OperationIdFailsPattern(""))
  {
  }

  /** An id with a space or a tab is rejected. */
  lemma WhitespaceIdIsRejected()
    ensures ValidateOperationId("bad id") == Some(OperationIdFailsPattern("bad id"))
    ensures ValidateOperationId("tab\tid") == Some(OperationIdFailsPattern("tab\tid"))
  {
    assert IsWhitespace("bad id"[3]);
    assert IsWhitespace("tab\tid"[3]);
  }

  /** A plain identifier is accepted. */
  lemma PlainIdIsAccepted()
    ensures ValidateOperationId("valid_id") == None
  {
    var id := "valid_id";
    assert forall i :: 0 <= i < |id| ==> 0x5F <= id[i] as int <= 0x76;
  }

  /** `MethodErrors` for `n` methods extends that for `n - 1` methods by the
      site error of method `n - 1`, if any. */
  lemma MethodErrorsStep(path: string, item: Value, n: nat)
    requires 0 < n <= |Methods|
    ensures MethodErrors(path, item, n) == MethodErrors(path, item, n - 1) + AsSeq(SiteError(path, item, Methods[n - 1]))
  {
  }

  /** Method `k` is among the first `n` and its site reports `e`. */
  predicate SiteReports(path: string, item: Value, n: nat, k: int, e: ValidationError)
    requires n <= |Methods|
  {
    0 <= k < n && SiteError(path, item, Methods[k]) == Some(e)
  }

  /** Every error reported for the first `n` methods comes from the site
      of one of them. */
  lemma {:induction false} ReportedErrorHasSite(path: string, item: Value, n: nat, e: ValidationError)
      returns (k: nat)
    requires n <= |Methods| && e in MethodErrors(path, item, n)
    ensures SiteReports(path, item, n, k, e)
  {
    MethodErrorsStep(path, item, n);
    var prev := MethodErrors(path, item, n - 1);
    if e in prev {
      k := ReportedErrorHasSite(path, item, n - 1, e);
    } else {
      k := n - 1;
    }
  }

  /** Every error a site among the first `n` methods reports is collected. */
  lemma {:induction false} SiteErrorIsReported(path: string, item: Value, n: nat, k: nat, e: ValidationError)
    requires n <= |Methods| && SiteReports(path, item, n, k, e)
    ensures e in MethodErrors(path, item, n)
  {
    MethodErrorsStep(path, item, n);
    if k < n - 1 {
      SiteErrorIsReported(path, item, n - 1, k, e);
    } else {
      assert e in AsSeq(SiteError(path, item, Methods[n - 1]));
    }
  }

  /** The errors `MethodErrors` reports for the first `n` methods are
      exactly the site errors of those methods. */
  lemma MethodErrorsMembership(path: string, item: Value, n: nat, e: ValidationError)
    requires n <= |Methods|
    ensures e in MethodErrors(path, item, n) <==> exists k :: SiteReports(path, item, n, k, e)
  {
    if e in MethodErrors(path, item, n) {
      var k := ReportedErrorHasSite(path, item, n, e);
    }
    if exists k :: SiteReports(path, item, n, k, e) {
      var k :| SiteReports(path, item, n, k, e);
      SiteErrorIsReported(path, item, n, k, e);
    }
  }

  /** Every method is scanned: it occurs in `Methods` at its rank. */
  lemma MethodsAreComplete(verb: Method)
    ensures verb.Rank() < |Methods| && Methods[verb.Rank()] == verb
  {
  }

  /** The scan list holds each method at its rank. */
  lemma RankIsPosition(k: nat)
    requires k < |Methods|
    ensures Methods[k].Rank() == k
  {
  }

  /** One path item's errors are exactly the site errors of its eight
      methods when it is truthy, and nothing when it is falsy. */
  lemma ItemErrorsMembership(path: string, item: Value, e: ValidationError)
    ensures e in ItemErrors(path, item) <==> Truthy(item) && exists verb :: SiteError(path, item, verb) == Some(e)
  {
    if Truthy(item) {
      MethodErrorsMembership(path, item, |Methods|, e);
      if exists verb :: SiteError(path, item, verb) == Some(e) {
        var verb :| SiteError(path, item, verb) == Some(e);
        MethodsAreComplete(verb);
        assert SiteReports(path, item, |Methods|, verb.Rank(), e);
      }
      if exists k :: SiteReports(path, item, |Methods|, k, e) {
        var k :| SiteReports(path, item, |Methods|, k, e);
        assert SiteError(path, item, Methods[k]) == Some(e);
      }
    }
  }

  /** Every error in `errors` is raised by one of the first `n` methods. */
  predicate RanksBelow(errors: seq<ValidationError>, n: nat) {
    forall k :: 0 <= k < |errors| ==> errors[k].verb.Rank() < n
  }

  /** The errors in `errors` come in strictly increasing method order. */
  predicate InMethodOrder(errors: seq<ValidationError>) {
    forall a, b :: 0 <= a < b < |errors| ==> errors[a].verb.Rank() < errors[b].verb.Rank()
  }

  /** Appending what method `n` reports to errors of earlier methods keeps
      the rank bound and the order. */
  lemma AppendSite(prev: seq<ValidationError>, last: Option<ValidationError>, n: nat)
    requires RanksBelow(prev, n) && InMethodOrder(prev)
    requires last.Some? ==> last.value.verb.Rank() == n
    ensures RanksBelow(prev + AsSeq(last), n + 1) && InMethodOrder(prev + AsSeq(last))
  {
    var r := prev + AsSeq(last);
    forall k | 0 <= k < |r|
      ensures r[k].verb.Rank() < n + 1
    {
      if k < |prev| {
        assert r[k] == prev[k];
      } else {
        assert r[k] == last.value;
      }
    }
    forall a, b | 0 <= a < b < |r|
      ensures r[a].verb.Rank() < r[b].verb.Rank()
    {
      if b < |prev| {
        assert r[a] == prev[a] && r[b] == prev[b];
      } else {
        assert r[b] == last.value && r[a] == prev[a];
      }
    }
  }

  /** The errors of the first `n` methods are raised by those methods and
      appear in strictly increasing method order. */
  lemma {:induction false} MethodErrorsOrdered(path: string, item: Value, n: nat)
    requires n <= |Methods|
    ensures RanksBelow(MethodErrors(path, item, n), n)
    ensures InMethodOrder(MethodErrors(path, item, n))
  {
    if n > 0 {
      MethodErrorsOrdered(path, item, n - 1);
      MethodErrorsStep(path, item, n);
      RankIsPosition(n - 1);
      var last := SiteError(path, item, Methods[n - 1]);
      assert last.Some? ==> last.value.verb == Methods[n - 1];
      AppendSite(MethodErrors(path, item, n - 1), last, n - 1);
    }
  }

  /** Within one path item the errors follow the method order get, post,
      put, delete, options, head, patch, trace, so no method is reported
      twice. */
  lemma ItemErrorsInMethodOrder(path: string, item: Value)
    ensures |ItemErrors(path, item)| <= |Methods|
    ensures InMethodOrder(ItemErrors(path, item))
    ensures forall e :: e in ItemErrors(path, item) ==> e.path == path && e.severity == Error
  {
    if Truthy(item) {
      MethodErrorsOrdered(path, item, |Methods|);
    }
  }

  /** Concatenation of sequences is associative. */
  lemma AppendIsAssociative<T>(a: seq<T>, b: seq<T>, c: seq<T>)
    ensures (a + b) + c == a + (b + c)
  {
  }

  /** The scan distributes over concatenation of the `paths` entries: the
      errors of earlier entries all come before those of later entries. */
  lemma {:induction false} PathErrorsAppend(front: seq<(string, Value)>, back: seq<(string, Value)>)
    ensures PathErrors(front + back) == PathErrors(front) + PathErrors(back)
    decreases |back|
  {
    if |back| > 0 {
      var whole := front + back;
      var init, last := back[..|back| - 1], back[|back| - 1];
      assert whole[..|whole| - 1] == front + init;
      assert whole[|whole| - 1] == last;
      var tail := ItemErrors(last.0, last.1);
      assert PathErrors(whole) == PathErrors(front + init) + tail;
      assert PathErrors(back) == PathErrors(init) + tail;
      PathErrorsAppend(front, init);
      AppendIsAssociative(PathErrors(front), PathErrors(init), tail);
    } else {
      assert front + back == front;
    }
  }

  /** The errors of one entry on its own are those of its path item. */
  lemma PathErrorsSingle(entry: (string, Value))
    ensures PathErrors([entry]) == ItemErrors(entry.0, entry.1)
  {
    assert [entry][..0] == [];
  }

  /** A sequence is its prefix, its `i`-th element and its suffix. */
  lemma SplitAt<T>(s: seq<T>, i: nat)
    requires i < |s|
    ensures s == s[..i] + ([s[i]] + s[i + 1..])
  {
  }

  /** The errors of entry `i` sit after those of every earlier entry and
      before those of every later one. */
  lemma PathErrorsAt(entries: seq<(string, Value)>, i: nat)
    requires i < |entries|
    ensures PathErrors(entries) ==
      PathErrors(entries[..i]) + ItemErrors(entries[i].0, entries[i].1) + PathErrors(entries[i + 1..])
  {
    SplitAt(entries, i);
    PathErrorsAppend(entries[..i], [entries[i]] + entries[i + 1..]);
    PathErrorsCons(entries[i], entries[i + 1..]);
  }

  /** The errors of an entry followed by more entries. */
  lemma PathErrorsCons(entry: (string, Value), back: seq<(string, Value)>)
    ensures PathErrors([entry] + back) == ItemErrors(entry.0, entry.1) + PathErrors(back)
  {
    PathErrorsAppend([entry], back);
    PathErrorsSingle(entry);
  }

  /** A falsy path item (`null`, `false`, `0`, `""`) contributes nothing:
      removing it leaves the errors unchanged. */
  lemma FalsyItemIsSkipped(front: seq<(string, Value)>, path: string, item: Value, back: seq<(string, Value)>)
    requires !Truthy(item)
    ensures PathErrors(front + [(path, item)] + back) == PathErrors(front + back)
  {
    PathErrorsAppend(front + [(path, item)], back);
    PathErrorsAppend(front, [(path, item)]);
    PathErrorsAppend(front, back);
    PathErrorsSingle((path, item));
  }

  /** Entry `i` exists and its path item reports `e`. */
  predicate ReportedBy(entries: seq<(string, Value)>, i: int, e: ValidationError) {
    0 <= i < |entries| && e in ItemErrors(entries[i].0, entries[i].1)
  }

  /** The scan reports an error exactly when some entry's item reports it. */
  lemma {:induction false} PathErrorsMembership(entries: seq<(string, Value)>, e: ValidationError)
    ensures e in PathErrors(entries) <==> exists i :: ReportedBy(entries, i, e)
    decreases |entries|
  {
    if |entries| > 0 {
      var n := |entries| - 1;
      var init, last := entries[..n], entries[n];
      PathErrorsMembership(init, e);
      var front, tail := PathErrors(init), ItemErrors(last.0, last.1);
      assert PathErrors(entries) == front + tail;
      if e in PathErrors(entries) {
        if e in front {
          var i :| ReportedBy(init, i, e);
          assert init[i] == entries[i];
          assert ReportedBy(entries, i, e);
        } else {
          assert e in tail;
          assert ReportedBy(entries, n, e);
        }
      }
      if exists i :: ReportedBy(entries, i, e) {
        var i :| ReportedBy(entries, i, e);
        if i < n {
          assert init[i] == entries[i];
          assert ReportedBy(init, i, e);
          assert e in front;
        } else {
          assert i == n && entries[i] == last;
          assert e in tail;
        }
      }
    }
  }

  /** `throwOnError` never shortens the scan: without it the full list is
      returned; with it the same list is raised as one aggregate when it is
      non-empty and returned (empty) otherwise. */
  lemma ThrowOnErrorKeepsTheScan(doc: Document)
    ensures Validate(doc, false) == Returned(PathErrors(PathEntries(doc)))
    ensures |PathErrors(PathEntries(doc))| > 0 ==> Validate(doc, true) == Raised(PathErrors(PathEntries(doc)))
    ensures |PathErrors(PathEntries(doc))| == 0 ==> Validate(doc, true) == Returned([])
  {
  }

  /** The repaired validator agrees with the one as written on every
      document the latter does not crash on. */
  lemma ValidateAgreesWhereAsWrittenRuns(doc: Document, throwOnError: bool)
    requires !ValidateAsWritten(doc, throwOnError).Crashed?
    ensures ValidateAsWritten(doc, throwOnError) == Validate(doc, throwOnError)
  {
  }

  /** A 3.1.0 document with `webhooks` and no `paths`. */
  const WebhooksOnly: Value :=
    Obj([("openapi", Str("3.1.0")), ("info", Obj([])), ("webhooks", Obj([]))])

  /** The as-written validator throws on a document that the integrity gate
      accepts: the gate lets a 3.1.0 document through on `webhooks` alone,
      and `Object.entries(undefined)` then throws. The repaired validator
      returns no errors for it. */
  lemma WebhooksOnlyDocumentCrashesValidator()
    ensures CheckIntegrity(WebhooksOnly) == Success(WebhooksOnly)
    ensures Conforms(WebhooksOnly) && ValidateAsWritten(WebhooksOnly, false) == Crashed
    ensures Conforms(WebhooksOnly) && Validate(WebhooksOnly, false) == Returned([])
  {
    var fields := WebhooksOnly.fields;
    assert fields[1..] == [("info", Obj([])), ("webhooks", Obj([]))];
    assert fields[1..][1..] == [("webhooks", Obj([]))];
    assert Prop(WebhooksOnly, "openapi") == Some(Str("3.1.0"));
    assert Prop(WebhooksOnly, "info") == Some(Obj([]));
    assert Prop(WebhooksOnly, "paths") == None;
    assert Prop(WebhooksOnly, "webhooks") == Some(Obj([]));
    assert Prop(Obj([]), "version") == None;
    assert "3.1.0" == SupportedVersions[4];
  }
}

/** A document whose `paths` is explicitly `null`, which the integrity
    gate accepts for every supported version. */
module NullPathsExample {
  import opened Wrappers
  import opened Values
  import opened Parse
  import opened PluginValidation

  /** A 3.0.0 document with `paths: null`. */
  const NullPaths: Value :=
    Obj([("openapi", Str("3.0.0")), ("info", Obj([])), ("paths", Null)])

  /** The gate accepts the document, the validator as written throws on
      `Object.entries(null)`, and the repaired validator returns no errors. */
  lemma NullPathsDocumentCrashesValidator()
    ensures CheckIntegrity(NullPaths) == Success(NullPaths)
    ensures Conforms(NullPaths) && ValidateAsWritten(NullPaths, false) == Crashed
    ensures Conforms(NullPaths) && Validate(NullPaths, true) == Returned([])
  {
    var fields := NullPaths.fields;
    assert fields[1..] == [("info", Obj([])), ("paths", Null)];
    assert fields[1..][1..] == [("paths", Null)];
    assert Prop(NullPaths, "openapi") == Some(Str("3.0.0"));
    assert Prop(NullPaths, "info") == Some(Obj([]));
    assert Prop(NullPaths, "paths") == Some(Null);
    assert Prop(Obj([]), "version") == None;
    assert "3.0.0" == SupportedVersions[0];
  }
}

/** A worked scan: three paths, one valid operationId, one containing a
    space and one that is a number. */
module ValidateExample {
  import opened Wrappers
  import opened Values
  import opened PluginValidation
  import opened ValidateProperties

  /** A path item holding one operation, under `verb`, whose `operationId`
      is `opId`. */
  function SingleOperationItem(verb: Method, opId: Value): Value {
    Obj([(verb.Key(), Obj([("operationId", opId)]))])
  }

  /** Distinct methods have distinct property names. */
  lemma KeysAreDistinct(a: Method, b: Method)
    ensures a.Key() == b.Key() ==> a == b
  {
  }

  /** A method the item does not hold reports nothing. */
  lemma OtherMethodIsSilent(path: string, verb: Method, opId: Value, other: Method)
    requires other != verb
    ensures SiteError(path, SingleOperationItem(verb, opId), other).None?
  {
    KeysAreDistinct(other, verb);
    assert Prop(SingleOperationItem(verb, opId), other.Key()).None?;
  }

  /** When every other method of an item is silent, the first `n`
      methods report only what `verb` reports, and only once `n` covers it. */
  lemma {:induction false} OnlyOneSiteReports(path: string, item: Value, verb: Method, n: nat)
    requires n <= |Methods|
    requires forall k :: 0 <= k < |Methods| && k != verb.Rank() ==> SiteError(path, item, Methods[k]).None?
    ensures MethodErrors(path, item, n) == if verb.Rank() < n then AsSeq(SiteError(path, item, verb)) else []
  {
    if n > 0 {
      OnlyOneSiteReports(path, item, verb, n - 1);
      MethodErrorsStep(path, item, n);
      MethodsAreComplete(verb);
      if n - 1 != verb.Rank() {
        assert AsSeq(SiteError(path, item, Methods[n - 1])) == [];
      } else {
        assert MethodErrors(path, item, n - 1) == [];
      }
    }
  }

  /** The errors of a single-operation item are those of its one site. */
  lemma SingleOperationItemErrors(path: string, verb: Method, opId: Value)
    ensures ItemErrors(path, SingleOperationItem(verb, opId)) ==
      AsSeq(SiteError(path, SingleOperationItem(verb, opId), verb))
  {
    var item := SingleOperationItem(verb, opId);
    forall k | 0 <= k < |Methods| && k != verb.Rank()
      ensures SiteError(path, item, Methods[k]).None?
    {
      MethodsAreComplete(verb);
      OtherMethodIsSilent(path, verb, opId, Methods[k]);
    }
    OnlyOneSiteReports(path, item, verb, |Methods|);
    MethodsAreComplete(verb);
  }

  /** `/a` GET with "valid_id", `/b` POST with "bad id", `/c` DELETE with 42. */
  const ThreePaths: seq<(string, Value)> := [
    ("/a", SingleOperationItem(Get, Str("valid_id"))),
    ("/b", SingleOperationItem(Post, Str("bad id"))),
    ("/c", SingleOperationItem(Delete, Num(42.0)))
  ]

  /** The one operation of a single-operation item and its `operationId`. */
  lemma SingleOperationSite(verb: Method, opId: Value)
    ensures Operation(SingleOperationItem(verb, opId), verb) == Some(Obj([("operationId", opId)]))
    ensures OperationIdAt(SingleOperationItem(verb, opId), verb) == Some(opId)
  {
  }

  /** The GET site of `/a` has a plain id and reports nothing. */
  lemma PlainSiteIsSilent()
    ensures SiteError("/a", SingleOperationItem(Get, Str("valid_id")), Get).None?
  {
    SingleOperationSite(Get, Str("valid_id"));
    PlainIdIsAccepted();
  }

  /** The POST site of `/b` reports the id with a space. */
  lemma SpacedSiteReports()
    ensures SiteError("/b", SingleOperationItem(Post, Str("bad id")), Post)
      == Some(ValidationError("/b", Post, OperationIdFailsPattern("bad id"), Error))
  {
    SingleOperationSite(Post, Str("bad id"));
    WhitespaceIdIsRejected();
  }

  /** The DELETE site of `/c` reports its numeric id. */
  lemma NumericSiteReports()
    ensures SiteError("/c", SingleOperationItem(Delete, Num(42.0)), Delete)
      == Some(ValidationError("/c", Delete, OperationIdNotString, Error))
  {
    SingleOperationSite(Delete, Num(42.0));
    NonStringIdIsTypeError("/c", SingleOperationItem(Delete, Num(42.0)), Delete);
  }

  /** The three sites of the worked scan, one at a time. */
  lemma ThreePathsSites()
    ensures SiteError("/a", SingleOperationItem(Get, Str("valid_id")), Get).None?
    ensures SiteError("/b", SingleOperationItem(Post, Str("bad id")), Post)
      == Some(ValidationError("/b", Post, OperationIdFailsPattern("bad id"), Error))
    ensures SiteError("/c", SingleOperationItem(Delete, Num(42.0)), Delete)
      == Some(ValidationError("/c", Delete, OperationIdNotString, Error))
  {
    PlainSiteIsSilent();
    SpacedSiteReports();
    NumericSiteReports();
  }

  /** Exactly two errors, in path order: the whitespace violation of `/b`
      and the type violation of `/c`; `/a` contributes nothing. */
  lemma ThreePathsExample()
    ensures PathErrors(ThreePaths) == [
      ValidationError("/b", Post, OperationIdFailsPattern("bad id"), Error),
      ValidationError("/c", Delete, OperationIdNotString, Error)
    ]
  {
    ThreePathsByItem();
    SingleOperationItemErrors("/a", Get, Str("valid_id"));
    SingleOperationItemErrors("/b", Post, Str("bad id"));
    SingleOperationItemErrors("/c", Delete, Num(42.0));
    ThreePathsSites();
  }

  /** The worked scan is the concatenation of its three items' errors. */
  lemma ThreePathsByItem()
    ensures PathErrors(ThreePaths) ==
      ItemErrors("/a", SingleOperationItem(Get, Str("valid_id")))
      + ItemErrors("/b", SingleOperationItem(Post, Str("bad id")))
      + ItemErrors("/c", SingleOperationItem(Delete, Num(42.0)))
  {
    var a, b, c := ThreePaths[0], ThreePaths[1], ThreePaths[2];
    assert ThreePaths == [a] + ([b] + [c]);
    PathErrorsCons(a, [b] + [c]);
    PathErrorsCons(b, [c]);
    PathErrorsSingle(c);
  }
}
