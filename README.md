# e2e golden-response testing, modelled in Dafny

`e2e` is a small Go library for end-to-end tests of an in-process HTTP
router. A test names a request and the status it expects, and lists
*response filters*. `RunTest` then does the following:

1. sends the request to the registered router;
2. reports a status mismatch and carries on;
3. with `-dump`, logs the raw response;
4. runs the filters in order;
5. serialises the response with `httputil.DumpResponse`;
6. compares the bytes with `testdata/<test name>.golden`, or, with `-golden`, overwrites that file.

There are three standard filters:

- `PrettyJSON` re-indents a JSON body.
- `ModifyJSON` pins fields that are not reproducible, such as timestamps and IDs, to fixed values before the comparison. It uses `rewriteMap`, a recursive rewrite: a nested map descends into an object, a list of maps is matched position by position, and anything else is a literal.
- `CaptureResponse` decodes the body into a value the caller supplies.

The example suite names its golden files with `APITestName`.

The model has these modules:

- `Wrappers`: `Option`, `Result` and `Outcome` (pass, or fail with one reason).
- `Json`: the JSON value type (`Json.Json`), bytes, and the `Codec` that stands for `encoding/json`. A JSON number is a finite float64, kept as its IEEE 754 bit pattern (`Float64`), because that is what `encoding/json` decodes a number into when the target is `any`.
- `Strings`: the parts of Go's `strings` and `strconv` packages that are used.
- `Rewrite`: the overwrite tree (`Overwrite`, `Value`) and `rewriteMap`. The specification function `RewriteObject` gives, for one rewrite, either the rewritten object or the set of every fatal error some run may report. Go visits a map in random order, so more than one error is possible. The method `RewriteMap` must pick one of them (`Allowed`).
- `RewriteProperties`: what a rewrite keeps and changes, its idempotence, and the overwrite of the example suite.
- `Filters`: the three filters as specification functions (`Prettified`, `Modified`, `Captured`, `Filtered`). They also appear as methods of `HttpResponse`, the class that stands for the shared `*http.Response` whose body the filters overwrite.
- `FilterProperties`: the behaviour of each filter and of a chain of filters.
- `Golden`: `goldenFileName`, plus the golden directory as the `files` map of `GoldenStore`.
- `Driver`: `RunTest` as the method `Tester.RunTest`, proved against the specification function `Expected`. `Expected` gives the log, the fatals the test may stop with, and the golden files afterwards.
- `DriverProperties`: update mode, compare mode, the status check and the `-dump` branch.
- `MainTest`: `APITestName` of the example suite.

The JSON decoder and encoders are opaque functions of a `Codec`, and so is `httputil.DumpResponse` (`Driver.Dumper`). Four results assume a codec that reads back what it wrote: `PrettyJSONIdempotent` and the second clause of `Filters.IndentJSON` assume `IndentRoundTrips`, and `ModifyJSONIdempotent` and the last clause of `ModifyJSONKeepsKeys` assume `EncodeRoundTrips`. Go's codec meets both for values nested at most 10000 levels deep: it writes every finite float64 so that it reads back as the same float64, and every string that is valid Unicode as itself. Deeper values are the exception (see `FilterProperties.ModifyJSONIdempotent` under "## Left out"). The other clauses of `ModifyJSONKeepsKeys` assume nothing about the codec.

The router is a function from request to response, fixed when the `Tester` is built; this is `RegisterRouter`. The `-golden` and `-dump` flags are a `Config` value.

The `-dump` flag ("dump raw response", e2e.go:22) does more than log. When it is set and the response is a 200 or 201 whose Content-Type starts with `application/json`, `RunTest` passes the body to `indentJSON` (e2e.go:58-62). `indentJSON` calls `t.Fatal` when the body does not decode as a JSON object (e2e.go:113-116), for example when it is an array or empty (a body `null` passes; see "## Left out"). So with `-dump` such a test stops, and without `-dump` it goes on to the filters. `DriverProperties.RawDumpFails` states exactly when this happens, and `DriverProperties.DumpRawOnlyLogs` proves that otherwise `-dump` only adds its log entry.

## Model

| member | source | states |
|---|---|---|
| Json.Float64Value | e2e.go:113-117 | the real number a float64 bit pattern stands for: sign bit, 11-bit exponent with bias 1023, 52-bit fraction, and subnormals for exponent 0 |
| Strings.HasPrefix | e2e.go:58 | strings.HasPrefix: the prefix is no longer than the string and equals its first characters |
| Strings.HasPrefixIsConcat | e2e.go:216 | a string has a prefix exactly when it is that prefix followed by some rest, in both directions |
| Strings.ReplaceAll | example/main_test.go:21 | same length; every `from` becomes `to`, every other character is kept |
| Strings.Join | example/main_test.go:21 | strings.Join: no parts give the empty string, one part gives itself, and each further part follows the separator |
| Strings.JoinIsHeadThenPrefixed | example/main_test.go:21 | joining a non-empty list is its first part followed by every later part preceded by the separator |
| Strings.JoinAvoids | example/main_test.go:21 | a character in neither the parts nor the separator is not in the join |
| Strings.Digits | e2e.go:172 | the decimal digits of a natural number: non-empty, digits only, no leading zero |
| Strings.Itoa | e2e.go:172 | strconv.Itoa: non-empty; digits for n >= 0, a '-' then digits for n < 0 |
| Strings.DigitsRoundTrip | e2e.go:172 | reading the digits back as a decimal number gives the number |
| Strings.ItoaRoundTrip | e2e.go:172 | Atoi inverts Itoa for every integer |
| Strings.ItoaInjective | e2e.go:172 | distinct integers have distinct decimal forms, so element keys `k#i` are distinct |
| MainTest.APITestName | example/main_test.go:20-22 | the endpoint without its leading character and with '/' turned into '_', the code in decimal and the descriptions, joined with '_' |
| MainTest.APITestNameParts | example/main_test.go:20-22 | the name is the endpoint minus its first character with '/' turned into '_', then '_', the code in decimal, and each description preceded by '_' |
| MainTest.APITestNameFlat | example/main_test.go:20-22 | without '/' in the descriptions the name has no '/' |
| MainTest.APITestNameSeparatesCodes | example/main_test.go:20-22 | two names for one endpoint and one description list are equal only if the codes are equal |
| MainTest.HealthEndpointPart | example/main_test.go:26 | the endpoint part of the health test's name is v1_health |
| MainTest.OkInDecimal | example/main_test.go:37 | the status code 200 is written 200 |
| MainTest.HealthTestName | example/main_test.go:26-41 | the first health test is named v1_health_200 |
| MainTest.HealthSuccessTestName | example/main_test.go:19-21 | the name the doc comment gives as its example, v1_health_200_success, is what the endpoint /v1/health, code 200 and description success produce |
| Golden.GoldenFileName | e2e.go:124-126 | the path starts with "testdata/", ends with ".golden", and the test name sits between them |
| Golden.GoldenFileNameInjective | e2e.go:124-126 | distinct test names give distinct paths before `filepath.Join` cleans them |
| Golden.Stored | e2e.go:140-147 | readGolden's lookup: the bytes stored at the test's golden path, or None when that file is missing |
| Golden.WriteThenRead | e2e.go:128-148 | after writing a test's golden file, that test reads back the written bytes and every other test reads what it read before |
| Golden.GoldenStore.Write | e2e.go:128-138 | writeGolden: the test's path now maps to the data and no other path changes |
| Golden.GoldenStore.Read | e2e.go:140-148 | readGolden: returns the test's stored bytes, or None exactly when its file is missing; this is `Stored`, the lookup that `Driver.Settle` compares with and `WriteThenRead` speaks about |
| Rewrite.KeyPath | e2e.go:159-175 | the dotted key a rewrite fatal names: the parents and the key joined with '.' |
| Rewrite.ElementKey | e2e.go:172 | the key of element i of field k: k, '#', then i in decimal |
| Rewrite.RewriteObject | e2e.go:150-184 | the specification of rewriteMap: a success keeps exactly the base's keys; a failure reports at least one error, namely those of the keys whose rewrite fails |
| Rewrite.RewriteField | e2e.go:155-181 | the specification of one key: a failure reports at least one error; a successful nested rewrite is an object with the old value's keys; a successful array rewrite is an array of the old length |
| Rewrite.RewriteElements | e2e.go:171-178 | the specification of the element loop from index i: a success has one element per remaining index, a failure at least one error |
| Rewrite.RewriteMap | e2e.go:150-184 | rewriteMap: returns the rewritten object the specification gives, or one of the errors some visiting order of the overwrite's keys reports |
| Rewrite.RewriteValue | e2e.go:155-181 | one key's rewrite: the three-way branch on the overwrite value, with the array elements in index order, as the specification allows |
| Rewrite.RewriteArray | e2e.go:171-178 | the element loop in index order ends as RewriteElements allows: the rewritten elements or one of the errors some run reports |
| Rewrite.ObjectFails | e2e.go:153-183 | any key whose rewrite fails makes the whole rewrite fail, and that key's errors are among those it may report |
| Rewrite.ObjectSucceeds | e2e.go:153-183 | an object with the base's keys, where every present overwritten key has its successful rewrite and every other key is unchanged, is the rewrite's result |
| RewriteProperties.ObjectSucceeded | e2e.go:153-183 | a successful rewrite keeps the base's keys; overwritten keys hold their field's rewrite and all others their old value |
| RewriteProperties.AbsentKeyIgnored | e2e.go:154 | an overwrite key missing from the base has no effect on the outcome, failure included |
| RewriteProperties.AbsentKeysUnchanged | e2e.go:153-154 | when no overwrite key is in the base, the rewrite succeeds with the base unchanged |
| RewriteProperties.LiteralReplaces | e2e.go:179-180 | a literal replaces the present value whatever its type |
| RewriteProperties.LiteralNeverFails | e2e.go:179-180 | a literal field rewrite always succeeds with that literal |
| RewriteProperties.LiteralsOnly | e2e.go:153-184 | an overwrite made only of literals never fails and sets exactly the present keys |
| RewriteProperties.CreatedTimeValue | example/main_test.go:91 | the float64 the overwrite holds has exactly the value of the int literal 1677136520 |
| RewriteProperties.CreatedTimePinned | example/main_test.go:91 | the overwrite of the user-creation test sets created_time to the float64 with the value of the int literal 1677136520 and keeps every other field |
| RewriteProperties.NestedNeedsObject | e2e.go:156-160 | a nested overwrite of a value that is not an object fails, reporting the dotted key path |
| RewriteProperties.NestedRecurses | e2e.go:156-161 | after a successful nested rewrite the value is still an object, namely the sub-object rewritten under the parents extended by the key |
| RewriteProperties.ArrayOfNeedsArray | e2e.go:162-166 | a list-of-maps overwrite of a value that is not an array fails, reporting the key path |
| RewriteProperties.ArrayOfNeedsEqualLength | e2e.go:167-170 | a list-of-maps overwrite of an array of another length fails with both lengths and the key path; it never truncates or pads |
| RewriteProperties.ElementsSucceeded | e2e.go:171-178 | successful element rewrites from index i on give one object per element, each the rewrite of that element under key `k#j` |
| RewriteProperties.ArrayOfRecurses | e2e.go:162-178 | an element that is not an object makes the rewrite fail; on success the array keeps its length and each element is the rewrite of the old one by the overwrite at the same index |
| RewriteProperties.RewriteKeepsKeys | e2e.go:150-184 | a successful rewrite keeps exactly the keys of every object it descends into |
| RewriteProperties.FieldRewriteKeepsKeys | e2e.go:155-181 | the same for one field: nested objects keep their keys, arrays their length and their elements' keys |
| RewriteProperties.RewriteIdempotent | e2e.go:150-184 | rewriting the result of a successful rewrite again with the same overwrite changes nothing |
| RewriteProperties.FieldRewriteIdempotent | e2e.go:155-181 | a field rewrite applied to its own result gives that result |
| RewriteProperties.ElementsIdempotent | e2e.go:171-178 | element-wise rewrites applied to their own results give those results |
| Filters.IndentJSON | e2e.go:110-122 | indentJSON fails only with Malformed; with a codec that reads back what MarshalIndent writes, the indented body decodes to what the old body decoded to |
| Filters.Prettified | e2e.go:210-224 | the specification of PrettyJSON: a failure names at least one fatal, a success keeps status and Content-Type |
| Filters.Modified | e2e.go:189-206 | the specification of ModifyJSON: a failure names at least one fatal, a success keeps status and Content-Type |
| Filters.Captured | e2e.go:227-240 | the specification of CaptureResponse: a failure names a fatal, a success is the response unchanged |
| Filters.Step | e2e.go:74 | one filter call: a failure names at least one fatal |
| Filters.Filtered | e2e.go:73-75 | the filter loop: every filter in order on the previous one's output, stopping at the first fatal, which is never an empty choice |
| Filters.HttpResponse.constructor | e2e.go:45 | the recorded response with its status, Content-Type and body |
| Filters.HttpResponse.DrainBody | e2e.go:95-108 | drainBody: the copy handed out is the body, and the body left behind is identical |
| Filters.HttpResponse.PrettyJSON | e2e.go:210-224 | PrettyJSON ends as the specification function Prettified allows: unchanged for 204, fatal "not JSON" or a decode fatal, else the body indented |
| Filters.HttpResponse.ModifyJSON | e2e.go:189-206 | ModifyJSON ends as Modified allows: a decode fatal, one of the rewrite's possible errors, or the body replaced by the encoded rewritten object |
| Filters.HttpResponse.CaptureResponse | e2e.go:227-240 | CaptureResponse fails only when the body does not decode into the destination, and the body is put back unchanged |
| Filters.HttpResponse.Apply | e2e.go:73-74 | calling one filter ends as its specification function allows |
| Filters.HttpResponse.ApplyAll | e2e.go:73-75 | the filter loop ends as Filtered allows: every filter in order on the previous one's output, stopping at the first fatal |
| Filters.FiltersInOrder | e2e.go:73-75 | running a + b is running b on the outcome of a |
| FilterProperties.PrettyJSONNoContent | e2e.go:213-215 | a 204 response passes PrettyJSON unchanged whatever its Content-Type |
| FilterProperties.PrettyJSONRejectsNonJson | e2e.go:216-218 | any other status without an application/json Content-Type is fatal and the body is never decoded |
| FilterProperties.PrettyJSONIndents | e2e.go:110-122 | a JSON response's body becomes MarshalIndent of its decoding, or the test stops when it does not decode as an object |
| FilterProperties.PrettyJSONIdempotent | e2e.go:210-224 | with a codec that reads back what MarshalIndent writes, PrettyJSON on its own output gives that output |
| FilterProperties.ModifyJSONKeepsKeys | e2e.go:193-204 | for any codec: the old body decodes, its rewrite succeeds and keeps the keys at every level the overwrite reaches, and the new body is the encoding of that rewrite; status and Content-Type are kept; with a codec that reads back what the Encoder writes, the new body decodes to the rewrite |
| FilterProperties.ModifyJSONFailures | e2e.go:193-198 | every error the rewrite may report is a fatal ModifyJSON may stop with |
| FilterProperties.ModifyJSONIdempotent | e2e.go:189-206 | with a codec that reads back what the Encoder writes, ModifyJSON on its own output gives that output |
| FilterProperties.CaptureKeepsResponse | e2e.go:231-238 | CaptureResponse succeeds if and only if the body decodes, and then leaves the response as it was |
| FilterProperties.FiltersKeepHeaders | e2e.go:73-75 | no filter chain changes the status or the Content-Type |
| Driver.RawDump | e2e.go:50-71 | the -dump entry: the header dump of DumpResponse without the body, or the fatal Malformed and no other |
| Driver.Opening | e2e.go:40-48 | the request line, then a status error only when the status differs from the wanted one |
| Driver.Settle | e2e.go:77-91 | DumpResponse with the body, then in update mode a write of the dump and the closing line; in compare mode a fatal for a missing golden file, a mismatch entry when the bytes differ, and the closing line |
| Driver.AfterFilters | e2e.go:73-91 | the filters in order; their first fatal ends the test, otherwise Settle on the filtered response |
| Driver.Follows | e2e.go:37-92 | a run that ends normally logs exactly the trace's events; one that stops at a t.Fatal logs them and then one of the trace's fatals, and nothing after it |
| Driver.Expected | e2e.go:37-92 | the specification of RunTest; the log always starts with the request line |
| Driver.Tester.constructor | e2e.go:27-29 | RegisterRouter: the tester dispatches to the given router, with the run's flags and golden directory, and an empty log |
| Driver.Tester.DumpRaw | e2e.go:50-71 | the -dump branch leaves the response as it was and logs the header dump and the body, indented for JSON 200 and 201 responses; a body that cannot be indented is fatal |
| Driver.Tester.Finish | e2e.go:73-91 | the filters, DumpResponse and the update-or-compare step produce the events and golden files that AfterFilters gives |
| Driver.Tester.Exchange | e2e.go:37-92 | one test's events and golden files are those of Expected for the router's response to the request |
| Driver.Tester.RunTest | e2e.go:37-92 | RunTest appends to the test log exactly the events of Expected, and the golden files become Expected's |
| DriverProperties.StatusMismatchContinues | e2e.go:46-48 | a wrong status adds one error right after the request line; everything else is as if the status were the expected one |
| DriverProperties.UpdateModeWrites | e2e.go:82-83 | in update mode a test that gets past the filters writes the dump of the filtered response to its golden path; it never reports a mismatch and never stops for a missing file, and its log does not depend on the stored files |
| DriverProperties.MissingGoldenNotFromFilters | e2e.go:73-75 | no filter stops a test for a missing golden file |
| DriverProperties.CompareModeReports | e2e.go:84-89 | in compare mode the files never change; a missing golden file is fatal; otherwise a mismatch with both byte strings is reported exactly when they differ |
| DriverProperties.OnlyOwnGoldenWritten | e2e.go:77-89 | only the test's own golden path can change, and only in update mode on a run with no fatal |
| DriverProperties.RawDumpFails | e2e.go:58-63 | the -dump entry fails, with Malformed, exactly for a JSON 200 or 201 body that does not decode as an object |
| DriverProperties.DumpRawOnlyLogs | e2e.go:50-71 | when the raw dump succeeds, -dump only inserts its entry after the opening lines; fatals and golden files are the same as without it |

## Left out

- Golden.GoldenFileName: `filepath.Join` also cleans the path, so a name with a `.` or `..` component or with repeated slashes is normalised: the subtest names `TestA/./b` and `TestA/b` both give `testdata/TestA/b.golden`. The model keeps the name as it is. The names of the example suite have no such component.
- FilterProperties.ModifyJSONIdempotent: `encoding/json` decodes at most 10000 levels of nesting, but its Encoder writes deeper values. So with an overwrite whose literal is an array nested 10001 deep, Go's first ModifyJSON succeeds and a second one stops at Decode; idempotence holds only for results nested at most 10000 deep, which `EncodeRoundTrips` does not say. `MarshalIndent` refuses such values with an encode error (left out below), so PrettyJSON never writes a body that deep and `PrettyJSONIdempotent` is not affected.
- Rewrite.RewriteMap: Go walks the overwrite map in random order and mutates the decoded body in place. The model returns a new object and allows any error some order could report. The partial mutation left behind on a fatal is not modelled, because the test stops there.
- Filters.HttpResponse.PrettyJSON, Filters.HttpResponse.ModifyJSON: what the body holds after a fatal is not stated, because the test stops at once.
- Filters.HttpResponse.CaptureResponse: the value decoded into the caller's pointer is not modelled. Only whether decoding succeeds matters here, as the opaque predicate `accepts`; so the multi-step scenario that reuses a captured id is not modelled either.
- JSON decoding and encoding (`json.Unmarshal`, `json.Decoder.Decode`, `json.Encoder.Encode`, `json.MarshalIndent`) are opaque functions of `Json.Codec`. So their exact output bytes, encode errors for values that have no JSON form, and the Go `nil` map that decoding `null` gives are not modelled. A number is a float64 bit pattern, and only its value (`Json.Float64Value`) is given a meaning; NaN and the infinities have no JSON form and are excluded.
- `httputil.DumpResponse` is the opaque `Driver.Dumper`, and its errors are left out. Only Content-Type is modelled among the headers.
- Read errors of `io.ReadAll`, `bytes.Buffer.ReadFrom` and `os.ReadFile` other than a missing file, and errors of `os.MkdirAll` and `os.WriteFile`, are not modelled: the file system is an in-memory map.
- Driver.Tester.RunTest: the log holds structured events in place of formatted text, and the `cmp.Diff` text is the pair of byte strings that differ.
- The `ResponseFilter` type allows filters written by users. Only the three standard filters are modelled.
- `WithQuery`, `WithHeader`, `NewRequest` and `JSONBody` build requests. They are outside the modelled core; a request is its method and URL.
- The example router (`example/main.go`) and the handler under test are represented by the `router` function.
- The router is a fixed function of the request, so a handler that reads the clock or keeps state between requests has no direct form. The `/v1/user` handler writes `time.Now().Unix()` (example/main.go:85), which is what the `created_time` overwrite neutralises. No contract depends on this: `RewriteProperties.CreatedTimePinned` holds for every base.
- Rewrite.Value: a `Literal` holds the JSON value the Go literal encodes to, not the literal's Go type. In `map[string]any{"created_time": 1677136520}` the constant is an `int`; the model holds the float64 of equal value, which encodes to the same bytes because the value is below 2^53. A Go value with no exact JSON-number form in the model, such as an `int` above 2^53, is not represented.
- `TestMain` and the individual example tests are not modelled, except for the overwrite one of them uses (`RewriteProperties.CreatedTimePinned`). The names they pass to `APITestName` are covered by the general shape lemma `MainTest.APITestNameParts`, and the health test's names by `MainTest.HealthTestName` and `MainTest.HealthSuccessTestName`.
- The exact pretty-printed bytes of the example scenarios depend on the encoder, which is opaque.
- MainTest.APITestName requires a non-empty endpoint, because Go panics on `endpoint[1:]` of an empty string.
- MainTest.APITestName: drops the first character of the endpoint, whereas Go's `endpoint[1:]` drops the first byte. The two differ only when the endpoint starts with a character outside ASCII.
- Concurrency (parallel tests writing distinct golden files) is left out; tests run one at a time.
