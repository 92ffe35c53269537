# Fixture validator model

This project models the fixture ("folder test") validator of
ubccpsc310/project-support, `src/folderTest/validateTests.ts`, and proves
properties of it in Dafny.

A fixture is a parsed record (title, input, optional expectation, optional
`errorExpected` and `verbose` flags, and the `filename` the caller attaches).
`validateTest` runs a fixed chain of guards over one record and throws on the
first one that fails. `validateTests` runs it over a whole batch without
stopping early. It logs every failing record's filename and reason, counts
the failures, and returns `true` when there were none. Otherwise it throws
one error whose message states the count with a singular or plural noun.

Files:

- `js_value.dfy` (module `JsValue`): the dynamic values a record holds. It
  defines JavaScript truthiness and what a template literal prints for a value.
- `decimal.dfy` (module `Decimal`): the decimal text of a count and the
  reading back of the number at the head of a message.
- `validate_tests.dfy` (module `FolderTest`): the record, the options, the
  failure reasons with their exact messages, `ValidateTest`, and `ValidateTests`.
  It also holds the schema stated rule by rule (`Violates`, `Rank`) and the
  lemmas.
- `scenarios.dfy` (module `FolderTestScenarios`): concrete records and a
  concrete batch.

A record is its sequence of own keys in `for…in` order plus a map from key
to value. A key missing from the map reads as `Undefined`. A key that holds
`Undefined` explicitly is still one of the record's keys, so the excess-key
scan sees it. Because the key order is part of the record, the extraneous-key
reason names the first illegal key the scan meets, as the code does.

`validateTest` is a pure function. `validateTests` is a method with the
source's loop and its counter `badTests`. The log lines it would hand to
`Log.error` are returned as a sequence of entries, each holding the filename
value and the reason; `LogLine` gives the exact text of one line.

Modelling choices:

- The failure messages are the code's own strings, for example
  `required property title is missing or is not a string.`.
- The expectation predicates are chosen by the truthiness of `errorExpected`.
  Once the flag has passed its boolean check, truthiness is the same as being
  `true` (`JsValue.TruthyOptionalBool`).
- An exception thrown by a caller-supplied predicate is caught by the batch
  loop like any other error. No reason naming the predicate is produced.

## Model

| member | source | states |
|---|---|---|
| `FolderTest.ValidateTest` | src/folderTest/validateTests.ts:6-37 | the guard chain; an extraneous-key failure only happens with the switch on, and names the first key, in the record's key order, that lies outside the legal keys |
| `FolderTest.ValidateTestDecidesSchema` | src/folderTest/validateTests.ts:6-37 | on a well-formed record, the result is normal exactly when no schema rule is broken; a failure's reason names a broken rule, and every rule checked before it holds, so the first failing check decides the reason (title, input, `errorExpected` before `verbose`, input predicate whatever the expectation holds, output/error predicate by `errorExpected`, excess keys including keys that hold undefined) |
| `FolderTest.OkKeepsRule` | src/folderTest/validateTests.ts:6-37 | when the record passes, every rule of the schema holds |
| `FolderTest.ValidateTestFailReportsFirstViolation` | src/folderTest/validateTests.ts:6-37 | when the record fails, the rule its reason names is broken and every rule checked before it holds |
| `FolderTest.TitleCheckedFirst` | src/folderTest/validateTests.ts:7-9 | the title reason is given exactly when the title is missing or not a string, whatever the other fields hold |
| `FolderTest.InputPresence` | src/folderTest/validateTests.ts:10-12 | with a string title, the input-missing reason is given exactly when the input reads as undefined; `null` or any other input passes |
| `FolderTest.ErrorExpectedBeforeVerbose` | src/folderTest/validateTests.ts:13-18 | after the title and input checks, a non-boolean `errorExpected` gives its reason whatever `verbose` holds; once it passes, a non-boolean `verbose` gives the verbose reason |
| `FolderTest.InputValidatorOverridesExpectation` | src/folderTest/validateTests.ts:19-21 | once the structural checks pass, an input predicate that rejects the input gives `input is not valid.` whatever the expectation and `errorExpected` hold |
| `FolderTest.ExpectationValidatorChosenByErrorExpected` | src/folderTest/validateTests.ts:22-29 | with an expectation present, the output predicate decides the output reason when no error is expected, the error predicate decides the error reason when one is, and the other predicate's reason never occurs |
| `FolderTest.ExpectationlessIgnoresExpectationValidators` | src/folderTest/validateTests.ts:22-29 | with no expectation, replacing the output and error predicates by any others leaves the outcome unchanged |
| `FolderTest.FirstIllegalKey` | src/folderTest/validateTests.ts:30-36 | the scan finds nothing exactly when every key is legal; otherwise it finds an illegal key with every key before it legal |
| `FolderTest.ExcessKeyScanCoversRecord` | src/folderTest/validateTests.ts:31-35 | on a well-formed record, the scan over the key order finds nothing exactly when every key of the record, including one holding undefined, is legal |
| `FolderTest.SchemaKeysAreLegal` | src/folderTest/validateTests.ts:4 | a record whose keys are all among `title`, `input`, `errorExpected`, `verbose`, `expected` and `filename` never fails the excess-key check |
| `FolderTest.ExtraKeysIgnoredWhenUnchecked` | src/folderTest/validateTests.ts:30-36 | with the excess-key switch off, adding any key outside the legal ones, with any value, leaves the outcome unchanged |
| `JsValue.IsOptionalBool` | src/folderTest/validateTests.ts:13-18 | a flag passes its type check exactly when it is undefined, `false` or `true` |
| `JsValue.Truthy` | src/folderTest/validateTests.ts:23-26 | the falsy values are exactly undefined, `null`, `false`, the empty string and zero |
| `JsValue.TruthyOptionalBool` | src/folderTest/validateTests.ts:23-26 | on a flag that is absent or boolean, truthiness is being `true` |
| `FolderTest.ValidateTests` | src/folderTest/validateTests.ts:39-54 | every record is checked; the log is the failure log of the whole batch; its length is the number of failing records; the batch returns `true` exactly when every record passes; otherwise the error message is the batch message for that count |
| `FolderTest.FailureLog` | src/folderTest/validateTests.ts:41-47 | the log is never longer than the batch, and it is empty exactly when every record passes |
| `FolderTest.FailureLogFollowsFailingRecords` | src/folderTest/validateTests.ts:41-47 | the log has one entry per failing record and no other, in batch order, each holding that record's filename and reason |
| `FolderTest.FailureLogCountsFailures` | src/folderTest/validateTests.ts:40-48 | the number of log entries, and so `badTests`, equals the number of records that fail |
| `FolderTest.Subject` | src/folderTest/validateTests.ts:50 | the noun is `test` exactly when the count is one, and `tests` otherwise |
| `FolderTest.BatchMessage` | src/folderTest/validateTests.ts:51 | the message starts with the decimal text of the count |
| `FolderTest.BatchMessageStatesCount` | src/folderTest/validateTests.ts:49-51 | the batch error message starts with the exact count: reading back its leading number gives the count |
| `FolderTest.Message` | src/folderTest/validateTests.ts:8-33 | the extraneous-key message quotes the offending key verbatim, right after `extraneous key "` |
| `Decimal.NatToString` | src/folderTest/validateTests.ts:51 | the printed count is nonempty, all digits, and has no leading zero unless it is zero |
| `Decimal.NatToStringReadsBack` | src/folderTest/validateTests.ts:51 | a count's decimal text followed by a non-digit reads back as that count |
| `JsValue.Display` | src/folderTest/validateTests.ts:45 | a string filename is printed as itself |
| `FolderTest.LogLine` | src/folderTest/validateTests.ts:45 | a log line starts with the record's filename when that is a string |
| `FolderTestScenarios.TitleScenarios` | src/folderTest/validateTests.ts:7-12 | a record with title, input and filename passes; one without a title fails for the title, and its log entry names its file |
| `FolderTestScenarios.ErrorValidatorScenario` | src/folderTest/validateTests.ts:22-29 | an expected error that the error predicate accepts passes |
| `FolderTestScenarios.ExcessKeyScenario` | src/folderTest/validateTests.ts:30-36 | an extra key `extra` is reported by name with the switch on, and ignored with it off |
| `FolderTestScenarios.BatchScenario` | src/folderTest/validateTests.ts:40-48 | in a batch of three where only the middle record lacks its input, exactly one entry is logged, for that record |
| `FolderTestScenarios.SingleFailureMessage` | src/folderTest/validateTests.ts:49-51 | one failure gives the message `1 test did not conform to the test schema.` |
| `FolderTestScenarios.RunBatchScenario` | src/folderTest/validateTests.ts:39-54 | running the batch of three, whose middle record lacks its input, logs that record alone and throws `1 test did not conform to the test schema.` |

## Left out

- `Log.error` is an external logger. The model returns the entries it would receive and does no I/O.
- The `./types` module (`FolderTestOptions`, `FolderTestSchemaWithFilename`) is not part of this model. Only the four option fields that are read here are reconstructed.
- The type-guard return type and the generic parameters `I`, `O` and `E` exist only at compile time. They are not modelled; the method returns `Conforms` where the source returns `true`.
- Caller-supplied predicates are total, pure functions. A predicate that throws is not modelled. Neither is an error value whose `message` is undefined.
- Property reads and `for…in` see only the record's own keys. Keys and enumerable properties inherited through the prototype chain are not modelled. The key order is whatever sequence the record carries. JavaScript's rule that integer-like keys enumerate first is not modelled.
- Numbers are integers. Fractions, `NaN` and the exponent notation JavaScript uses for very large numbers are not modelled.
- JsValue.Display: for objects, arrays and functions it prints a text carried by the value rather than computing `String(v)`.
- FolderTest.LogLine: its contract only says that the line starts with a string filename. The rest of the line is the fixed text and the reason's message.
- FolderTest.Message: its contract states only where the extraneous-key message quotes the key. The other seven messages are fixed strings, written out in its body.
