# OpenAPI document parsing and chat-plugin validation, in Dafny

This project models the two checks at the heart of a small TypeScript
library that reads OpenAPI v3 documents for chat-plugin hosts:

- **Parsing** (`src/parse.ts`). Text is decoded as JSON first and as YAML
  second. A decode that throws or yields a falsy value counts as a failure.
  The decoded value must then pass a lax, ordered, fail-fast integrity gate
  (`checkOpenApiV3DocumentIntegrity`). `parseFromObject` runs the gate
  alone and reports the format as JSON.
- **Plugin validation** (`src/validate.ts`). `validateForChatGptPlugin`
  walks `paths` in declaration order and, per path item, the eight HTTP
  methods in a fixed order. It collects one error per operation whose
  `operationId` is not a string or does not match `^[^\s]+$`. Then it
  either returns the list or raises it as one aggregate error.

Files and modules:

- `wrappers.dfy` (`Wrappers`): `Option` and `Result`.
- `values.dfy` (`Values`): the decoded value and the JavaScript operations
  the checks perform on it. `Prop` is property read, `Truthy` is
  truthiness, and `Entries` is `Object.entries`. An absent key (`undefined`)
  is `None`, distinct from `Null`. Reading a property of a non-object yields
  `None`. Reading a property of `null` throws, and the callers model that as
  a `TypeError` outcome.
- `parse.dfy` (`Parse`): formats, the supported-version list, the
  integrity gate, `ParseFromString` and `ParseFromObject`. `Document` is the
  subset of values that satisfy `Conforms`. A `ParseResult` can only hold a
  `Document`, so no parse result can wrap an unchecked value.
- `rules.dfy` (`IntegrityRules`): the same gate as a table of six
  independent rules plus a generic first-failure combinator, proved to
  agree with the gate.
- `parse_properties.dfy` (`ParseProperties`): which rule decides in each
  situation, and which codec decides the format.
- `validate.dfy` (`PluginValidation`): the validator, as a functional
  definition both as written and repaired (see "## Findings"), and the
  source's nested loops, which implement the repaired validator.
- `validate_properties.dfy` (`ValidateProperties`, `NullPathsExample`,
  `ValidateExample`): what a site reports, membership, ordering, bounds and
  `throwOnError`, the documents that crash the validator as written, and a
  worked three-path example.

The JSON and YAML decoders are parameters `string -> Option<Value>`, where
`None` stands for the library call throwing. Whitespace is the exact
ECMAScript `\s` class: tab, line feed, vertical tab, form feed, carriage
return, space, U+00A0, U+1680, U+2000 to U+200A, U+2028, U+2029, U+202F,
U+205F, U+3000 and U+FEFF.

Some behaviours of the code are easy to miss, and the model keeps them:

- A decoded value that is falsy (`0`, `false`, `null`, `""`) counts as a
  failed decode, just like a decode that throws.
- The `info.version` rule and the `openapi` type rule reject only numbers.
  An absent or boolean `info.version` passes.
- Every falsy path item is skipped, not only an absent one.
- The operationId pattern `^[^\s]+$` rejects the empty string.
- An `info` that is `null` makes `info.version` throw a `TypeError`. It is
  not reported as an integrity error.

## Model

| member | source | states |
|---|---|---|
| Values.Prop | src/parse.ts:34-58 | a property read finds a value only in an object that has an entry with that key, and finds one whenever such an entry exists |
| Values.Entries | src/validate.ts:38 | `Object.entries` throws exactly on `null`; it yields an object's entries in declaration order, the pair (decimal index, element) for each array element, the pair (decimal index, one-character string) for each character (Unicode scalar value, not UTF-16 code unit) of a string, and nothing for a number or a boolean |
| Values.Decimal | src/validate.ts:38 | an index key is a non-empty string of decimal digits that starts with `0` only for index 0 |
| Values.DecimalRoundTrip | src/validate.ts:38 | reading an index key back as a decimal number gives the index, so distinct elements get distinct keys |
| Parse.CheckIntegrity | src/parse.ts:31-71 | the gate succeeds exactly on values that conform (supported version string; `info` present, not null, no numeric `version`; `paths`, or `webhooks` under 3.1.0); it returns the input unchanged and never reports the generic parse error |
| IntegrityRules.FirstFailureIsEarliest | src/parse.ts:34-68 | fail-fast evaluation reports the failure of the earliest failing rule, every earlier rule passing, and passes exactly when every rule passes |
| IntegrityRules.CheckIsFirstFailingRule | src/parse.ts:34-70 | the gate fails exactly when a rule of the ordered table fails, with the first failing rule's error |
| ParseProperties.MissingOpenapiDecides | src/parse.ts:34-36 | a missing `openapi` is reported whatever else the value holds; only a null value throws earlier |
| ParseProperties.MissingInfoBeforePaths | src/parse.ts:38-40 | with `openapi` present, a missing `info` is reported even when `paths` is missing too |
| ParseProperties.PathsRule | src/parse.ts:42-51 | without `paths`: 3.1.0 with `webhooks` passes the rule, 3.1.0 without it gets the webhooks error, any other version gets the missing-paths error |
| ParseProperties.WebhooksStandInForPaths | src/parse.ts:42-70 | a 3.1.0 document with `webhooks`, no `paths` and a valid `info` passes the whole gate unchanged |
| ParseProperties.NumericOpenapiIsNotUnsupported | src/parse.ts:53-68 | a numeric `openapi` that passes rules 1 to 3 gets the must-be-a-string error, never the unsupported-version error |
| ParseProperties.NumericOpenapiWithoutPaths | src/parse.ts:42-56 | a numeric `openapi` without `paths` gets the missing-paths error, since a number is never "3.1.0" |
| ParseProperties.ApiVersionRule | src/parse.ts:58-61 | after rules 1 to 4 pass, a numeric `info.version` gets the API-version error, and a null `info` throws |
| ParseProperties.PassingDocumentHasSupportedVersion | src/parse.ts:63-70 | on success `openapi` is one of the five supported strings and the document is the input |
| ParseProperties.NumericVersionExample | src/parse.ts:53-56 | `openapi: 3.0` given as a number gets the must-be-a-string error |
| ParseProperties.UnsupportedVersionExample | src/parse.ts:63-68 | "2.9.9" is rejected, and the error names the offending version |
| ParseProperties.LaterPatchVersionExample | src/parse.ts:63-68 | "3.1.1" is rejected as unsupported although it is well formed |
| ParseProperties.SupportedVersionExample | src/parse.ts:32-70 | "3.0.3" with `info` and `paths` passes, unchanged |
| Parse.ParseFromString | src/parse.ts:82-105 | the generic parse error arises exactly when neither decoder yields a truthy value; a JSON result implies a truthy JSON decode; a YAML result implies JSON failed and YAML succeeded |
| ParseProperties.JsonWins | src/parse.ts:86-96 | a truthy JSON decode fixes the format to JSON and the verdict to the gate's verdict on that value, and the YAML decoder is never consulted |
| ParseProperties.YamlFallback | src/parse.ts:91-96 | when JSON throws or is falsy, a truthy YAML decode fixes the format to YAML |
| ParseProperties.FalsyDecodeIsUnparseable | src/parse.ts:91-100 | text that both decoders turn into a falsy value (or where YAML throws) is unparseable, not an invalid document |
| ParseProperties.ParseFailureKinds | src/parse.ts:86-104 | every failure is the generic parse error with both decodes failed, or the gate's failure on the value that decided the format |
| Parse.ParseFromObject | src/parse.ts:107-111 | succeeds exactly on conforming values, always with format JSON and the input as document; a failure is the gate's own failure on the input, never the generic parse error |
| ParseProperties.ObjectMatchesJsonText | src/parse.ts:82-111 | on a value JSON decodes truthily, parsing the object and parsing the text give the same result |
| PluginValidation.NonWhitespaceRunIsAllChars | src/validate.ts:26 | `[^\s]*` matches a whole string exactly when none of its characters is whitespace |
| PluginValidation.MatchesIdPatternIsNonEmptyRun | src/validate.ts:26 | `^[^\s]+$` matches exactly the non-empty strings without a whitespace character |
| PluginValidation.ValidateOperationId | src/validate.ts:25-31 | no error exactly when the id is non-empty and whitespace-free; otherwise the error carries the id |
| ValidateProperties.EmptyIdIsRejected | src/validate.ts:25-31 | the empty id is rejected |
| ValidateProperties.WhitespaceIdIsRejected | src/validate.ts:25-31 | ids with a space or a tab are rejected |
| ValidateProperties.PlainIdIsAccepted | src/validate.ts:25-31 | "valid_id" is accepted |
| ValidateProperties.OperationIsTruthyRead | src/validate.ts:48-50 | a method's operation is found exactly when the path item stores a truthy value under the method's name, and it is that stored value |
| ValidateProperties.SiteErrorCases | src/validate.ts:48-61 | one (path, method) site reports nothing without a truthy operation, the type error for a non-string `operationId`, and for a string id the pattern error carrying that id exactly when the pattern fails; every report carries the site's path and method and severity error |
| PluginValidation.CheckSite | src/validate.ts:48-61 | the body of the inner loop reports nothing when the method has no truthy operation; the must-be-a-string error at that path and method when the `operationId` is not a string; for a string id, nothing exactly when it is non-empty and free of whitespace, and otherwise the pattern error carrying the id; in every case the same as the site rule the functional scan uses |
| ValidateProperties.AbsentOperationIsSilent | src/validate.ts:48-50 | a method whose operation is absent or falsy reports nothing |
| ValidateProperties.NonStringIdIsTypeError | src/validate.ts:51-54 | a present operation with a non-string `operationId` yields exactly the must-be-a-string error for that path and method, with severity error |
| ValidateProperties.StringIdIsCheckedByPattern | src/validate.ts:55-60 | a string `operationId` is never a type error; it is reported, with the id, exactly when it is empty or contains whitespace |
| PluginValidation.MethodErrors | src/validate.ts:45-63 | the first n methods of an item yield at most n errors, all at the item's path, of severity error |
| ValidateProperties.MethodErrorsOrdered | src/validate.ts:45-63 | every error of the first n methods is raised by one of those n methods, and the errors come in strictly increasing method order, so no method is reported twice |
| ValidateProperties.MethodErrorsMembership | src/validate.ts:47-62 | an error is reported for the first n methods exactly when one of those sites reports it |
| ValidateProperties.MethodsAreComplete | src/validate.ts:45 | every HTTP method is in the scan list at its rank |
| ValidateProperties.ItemErrorsMembership | src/validate.ts:40-63 | a path item reports exactly its sites' errors when truthy, and nothing when falsy |
| ValidateProperties.ItemErrorsInMethodOrder | src/validate.ts:45-62 | a path item reports at most eight errors, in order get, post, put, delete, options, head, patch, trace, each located at its path with severity error |
| PluginValidation.PathErrors | src/validate.ts:38-64 | the scan of n entries reports at most 8n errors, all of severity error |
| ValidateProperties.PathErrorsAppend | src/validate.ts:38-64 | the errors of concatenated entries are the errors of the first part followed by those of the second |
| ValidateProperties.PathErrorsAt | src/validate.ts:40-64 | the errors of entry i come after those of all earlier entries and before those of all later ones |
| ValidateProperties.FalsyItemIsSkipped | src/validate.ts:41-43 | removing a falsy path item leaves the errors unchanged |
| ValidateProperties.PathErrorsMembership | src/validate.ts:40-64 | an error is reported exactly when some entry's path item reports it |
| PluginValidation.Finish | src/validate.ts:66-70 | raises exactly when asked to and the list is non-empty, carrying the whole list; otherwise returns the list unchanged |
| ValidateProperties.ThrowOnErrorKeepsTheScan | src/validate.ts:36-70 | the option never shortens the scan: without it the full list is returned, with it the same list is raised when non-empty and the empty list returned otherwise |
| PluginValidation.ValidateAsWritten | src/validate.ts:36-70 | the validator as written throws exactly when `paths` is absent or null |
| PluginValidation.Validate | src/validate.ts:36-70 | the repaired validator never throws a `TypeError`, and reports nothing for a document whose `paths` is absent or `null` |
| PluginValidation.ScanItem | src/validate.ts:45-63 | the inner loop over the eight methods collects exactly the item's method errors |
| PluginValidation.ScanPaths | src/validate.ts:40-64 | the outer loop over the path entries, skipping falsy items, collects exactly the errors of the functional scan, in declaration order |
| PluginValidation.ValidateForChatGptPlugin | src/validate.ts:36-71 | the nested loops of the repaired validator collect the same errors in the same order as the functional scan and raise exactly when asked to and something was found; wherever the code as written does not throw, the outcome is the one it produces |
| ValidateProperties.ValidateAgreesWhereAsWrittenRuns | src/validate.ts:36-70 | the repaired validator agrees with the one as written wherever the latter does not throw |
| ValidateProperties.WebhooksOnlyDocumentCrashesValidator | src/validate.ts:38 | a 3.1.0 webhooks-only document passes the gate, yet the validator as written throws on it; the repaired one returns no errors |
| NullPathsExample.NullPathsDocumentCrashesValidator | src/validate.ts:38 | a 3.0.0 document with `paths: null` passes the gate, yet the validator as written throws on it; the repaired one returns no errors |
| ValidateExample.ThreePathsExample | src/validate.ts:36-70 | `/a` GET "valid_id", `/b` POST "bad id", `/c` DELETE 42 yield exactly two errors, the whitespace error of `/b` then the type error of `/c` |

## Left out

- `src/stringify.ts` and `src/to-yaml.ts` are not part of this model. They only dispatch to the JSON and YAML encoders, so a round-trip claim would rest entirely on those external codecs.
- The JSON and YAML codecs are parameters. Their behaviour is not specified.
- Error message text is not modelled. Errors are kinds that carry the offending version, path, method or id. The aggregate error's count message is not modelled either.
- The `Promise` wrapper of `parseFromObject` is not modelled. It adds no behaviour.
- Numbers are reals: `NaN` and `±Infinity` (YAML's `.nan` and `.inf`) are not represented. `-0` reads as `0`, which has the same truthiness and is also a number.
- `undefined` as a whole input to `parseFromObject`, and keys stored with an explicit `undefined` value, cannot be represented. Only decoded JSON/YAML values are modelled.
- Duplicate object keys: a read finds the first entry with the key. `JSON.parse` keeps the last value, and the YAML library rejects duplicates. Both decoders are abstract here.
- Values.Entries: for an object with a repeated key, `Entries` lists every entry. `Object.entries` on the object that `JSON.parse` builds lists the key once, at its first position, with its last value. So for JSON text with a repeated path key, the model can report a different number of errors with different content. For example, `{"/a": {"get": {"operationId": "x y"}}, "/a": {}}` gives one error in the model and none in the code.
- `Object.entries` lists integer-like keys first, in ascending order. The model keeps declaration order for every key. OpenAPI requires path keys to start with `/`, but the lax gate does not check this, so a document such as `paths: {"1": …, "0": …}` passes it. For such a document the model reports the errors in declaration order, while the code reports them in ascending key order.
- Values.Entries: strings are sequences of Unicode scalar values, not of UTF-16 code units. For a string with a character outside the Basic Multilingual Plane, `Entries` lists one pair for that character, while `Object.entries` lists two, one per surrogate. A lone surrogate (which `JSON.parse` accepts, as in `"\ud800"`) cannot be represented. No validator outcome depends on this: a path item that is a string holds no operations.
- Properties inherited from JavaScript prototypes are not modelled. None of the keys read here (`openapi`, `info`, `paths`, `webhooks`, `version`, the method names, `operationId`) is one.
- PluginValidation.ValidateForChatGptPlugin: the loop method implements the repaired validator. Where `paths` is absent or `null` it returns no errors, while the code as written throws a `TypeError` (see "## Findings"). `PluginValidation.ValidateAsWritten` is the member that keeps that crash.
- PluginValidation.ValidateAsWritten, PluginValidation.Validate and PluginValidation.ValidateForChatGptPlugin take a `Document`, a value that passed the integrity gate, which is how the library's own parse functions produce documents. The code reads only `doc.paths`, and its TypeScript type does not demand a supported version. A document built by hand that never went through the gate (with `openapi: "3.0.4"`, say) is outside the model, although the validator would treat it the same way.
- The `warning` severity exists in the source's types but is never produced. It is kept as a constructor and is never emitted.

## Findings

| source | as written | input that shows it | evidently intended | confidence | as-written member | corrected member |
|---|---|---|---|---|---|---|
| src/validate.ts:38 | `Object.entries(doc.paths)` is applied to whatever `paths` holds. It throws a `TypeError` when `paths` is absent, yet the integrity gate (src/parse.ts:42-51) accepts a 3.1.0 document with `webhooks` and no `paths`. | `{"openapi": "3.1.0", "info": {}, "webhooks": {}}` | the validator scans only `paths`, so a document the gate accepts without `paths` gives it nothing to scan and gets no errors; webhook operations are outside its scope | medium, not executed | ValidateProperties.WebhooksOnlyDocumentCrashesValidator | PluginValidation.Validate |
| src/validate.ts:38 | The same call throws a `TypeError` when `paths` is `null`. The gate compares `paths` only with `undefined` (src/parse.ts:42), so it accepts `paths: null` for every supported version. | `{"openapi": "3.0.0", "info": {}, "paths": null}` | the validator scans only `paths`, so a document whose `paths` is `null` gives it nothing to scan and gets no errors | medium, not executed | NullPathsExample.NullPathsDocumentCrashesValidator | PluginValidation.Validate |

`PluginValidation.ValidateAsWritten` keeps the behaviour as written. The
loop implementation `PluginValidation.ValidateForChatGptPlugin` follows the
repaired `Validate`. `ValidateProperties.ValidateAgreesWhereAsWrittenRuns`
proves that the two agree on every document where the original does not
throw.
