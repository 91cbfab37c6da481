# OpenAuditLabs agent: a Dafny model of the audit core

This project models the core of the OpenAuditLabs smart-contract audit agent and proves properties of that model. The modelled parts are:

- `audit_engine`:
  - how each tool's raw output becomes a schema `Finding`;
  - severity and confidence mapping;
  - the static and dynamic analysis phases of `AuditEngine`;
  - the dynamic orchestrator's confidence banding, consensus scoring and legacy mode;
  - the Mythril, Echidna and adversarial-fuzz adapters;
  - the scoring engine;
  - the report accumulator;
  - the configuration validators.
- The small validators and state holders in `src/oal_agent`:
  - input validation;
  - request metadata;
  - the paginated items route;
  - the security policy;
  - the metrics collector.
- The SPDX step of the Slither pre-validator.

Each Python module becomes one Dafny module. Modules whose code computes values (normalisation, mapping, validators, scoring) are written as functions, with lemmas about them. Code that updates state becomes a `class` whose methods carry `modifies` clauses, and a source loop becomes a `method` with a `for`/`while` loop proved equal to a specification function. That state-updating code is:

- `MetricsCollector`, `SecurityPolicy` and its action list;
- `AuditReportGenerator`, `AnalysisResult.finalize` and `MaskingSettings`.

Python values are modelled by the datatype `PyValue.Value`:

- JSON-like data: null, bool, int, float (a real), str, list, tuple, an insertion-ordered dict, and an opaque object.
- A dictionary is a sequence of `(key, value)` pairs. `get` finds the first pair with that key, and assignment replaces that pair in place or appends a new one.
- `PyValue.Display` is `str()`, and `PyValue.Repr` is `repr()`. Containers show their elements' `repr`, a string's `repr` is quoted and escaped, and a float is written in decimal.

`PyString` models Python's string methods:

- `strip` (all whitespace accepted by `str.isspace`);
- `lower` and `upper` (ASCII letters);
- `split` and `join`;
- `isdigit` (ASCII digits);
- `str()` of a natural number.

An error the Python code raises becomes a `Failure(e)` of a `Result`, where `e` names the exception class (TypeError, KeyError, ValidationError, …). Results a tool produces when it runs become parameters of the model:

- subprocess output;
- the Manticore deployment;
- the outcome of an asyncio task;
- a freshly generated uuid.

Some Python code raises an exception or loses data where it evidently should not. For each such place the model has two halves, listed under "## Findings":

- a member that models the code as written, with a lemma showing the failure;
- the corrected behaviour, which the rest of the model uses.

Modelled details that look surprising but follow the code:

- the `X-Forwarded-For` client IP is the first hop, stripped;
- a negative offset in `/items` counts from the end, as a Python slice does;
- the engine's alias table maps "high" to MAJOR and "low" to MINOR;
- confidence `0` or `0.0` is falsy and becomes 0.5, both in `_confidence_to_float` and in the scoring engine;
- SWC lookup is case-sensitive;
- the fuzz input type `uint8[2]` gets 82 bits, because every digit in the type name is kept.

## Model

| member | source | states |
|---|---|---|
| `Metrics.Incremented` | src/oal_agent/telemetry/metrics.py:11-15 | after `increment` the metric holds its old value (0 when absent) plus the amount; every other metric is untouched |
| `Metrics.Gauged` | src/oal_agent/telemetry/metrics.py:17-19 | after `gauge` the metric holds exactly the given value; every other metric is untouched |
| `Metrics.MetricsCollector.constructor` | src/oal_agent/telemetry/metrics.py:7-9 | a new collector holds no metrics |
| `Metrics.MetricsCollector.Increment` | src/oal_agent/telemetry/metrics.py:11-15 | the collector's map becomes the incremented map of the old one |
| `Metrics.MetricsCollector.Gauge` | src/oal_agent/telemetry/metrics.py:17-19 | the collector's map becomes the gauged map of the old one |
| `Metrics.IncrementsAdd` | src/oal_agent/telemetry/metrics.py:11-15 | two increments of one metric equal one increment by their sum |
| `Metrics.IncrementsCommute` | src/oal_agent/telemetry/metrics.py:11-19 | increments commute, whether to the same metric or to different metrics |
| `Metrics.GaugeOverwrites` | src/oal_agent/telemetry/metrics.py:17-19 | the last gauge wins |
| `Metrics.MetricsScenario` | src/oal_agent/telemetry/metrics.py:11-19 | incrementing by 1 then by 5 gives 6; gauging 10.5 then 5.2 leaves 5.2 |
| `Policies.ActionList.constructor` | src/oal_agent/security/policies.py:7 | the default allowed actions are read, write, execute and analyze |
| `Policies.ActionList.Append` | src/oal_agent/security/policies.py:7 | appending adds one action at the end and keeps the rest |
| `Policies.SecurityPolicy.constructor` | src/oal_agent/security/policies.py:7-11 | a policy refers to the one class-level action list; constructing a policy copies nothing |
| `Policies.DefaultPermissions` | src/oal_agent/security/policies.py:13-18 | with the default list, an action is permitted exactly when it is one of the four defaults |
| `Policies.UnknownActionDenied` | src/oal_agent/security/policies.py:15-16 | an action outside the list is denied |
| `Policies.ResourceIgnored` | src/oal_agent/security/policies.py:13-18 | the verdict never depends on the resource |
| `Policies.SharedVerdict` | src/oal_agent/security/policies.py:7-15 | two policies that share one action list always agree |
| `Policies.RegisterAction` | src/oal_agent/security/policies.py:15 | after appending an action to the shared list it is permitted on every resource, and nothing else changes |
| `Validation.ValidateContractCode` | src/oal_agent/security/validation.py:16-20 | code is valid exactly when it has a non-whitespace character |
| `Validation.ValidateAddress` | src/oal_agent/security/validation.py:23-27 | an address is valid exactly when, once stripped, it has 42 characters and starts with `0x` |
| `Validation.SanitizeSpec` | src/oal_agent/security/validation.py:8-13 | sanitising removes exactly the surrounding whitespace and is idempotent |
| `Validation.PaddingIgnored` | src/oal_agent/security/validation.py:8-27 | surrounding whitespace never changes either validator's verdict |
| `Validation.NoHexCheck` | src/oal_agent/security/validation.py:26-27 | any 40 characters after `0x` pass, hex digits or not |
| `Validation.SanitizePaddedExample` | src/oal_agent/security/validation.py:8-13 | `"  hello world  "` sanitises to `"hello world"` |
| `Validation.SanitizeInteriorExample` | src/oal_agent/security/validation.py:8-13 | interior newlines are kept |
| `Validation.SanitizeBlankExample` | src/oal_agent/security/validation.py:8-13 | blank or empty input sanitises to the empty string |
| `Validation.ContractCodeExamples` | src/oal_agent/security/validation.py:16-20 | padded and unpadded code are accepted |
| `Validation.BlankContractCode` | src/oal_agent/security/validation.py:18-19 | blank and empty code are rejected |
| `Validation.AddressExamples` | src/oal_agent/security/validation.py:23-27 | a full address is accepted, with or without padding |
| `Validation.BlankAddress` | src/oal_agent/security/validation.py:25-27 | blank and empty addresses are rejected |
| `Validation.ShortAddress` | src/oal_agent/security/validation.py:26-27 | `0x123` is rejected |
| `Validation.AlmostLongEnoughAddress` | src/oal_agent/security/validation.py:26-27 | an address one character short is rejected |
| `Validation.UnprefixedAddress` | src/oal_agent/security/validation.py:26-27 | an address without `0x` is rejected |
| `Dependencies.GetRequestMetadata` | src/oal_agent/app/dependencies.py:70-93 | a request id is always present: the header's when given, a fresh one otherwise; the other headers are kept as given |
| `Dependencies.NoHeaderNoIp` | src/oal_agent/app/dependencies.py:60-67 | there is no client IP exactly when `X-Forwarded-For` is absent or empty |
| `Dependencies.ClientIpIsFirstHop` | src/oal_agent/app/dependencies.py:60-67 | the client IP is the stripped text before the first comma |
| `Dependencies.ClientIpHasNoComma` | src/oal_agent/app/dependencies.py:66 | a client IP never contains a comma |
| `Dependencies.SingleHop` | src/oal_agent/app/dependencies.py:60-67 | a header without a comma gives back its stripped self |
| `Dependencies.FirstOfTwoHops` | src/oal_agent/app/dependencies.py:60-67 | with several hops the first wins |
| `Dependencies.ForwardedExample` | src/oal_agent/app/dependencies.py:60-67 | `192.168.1.1, 10.0.0.1` gives `192.168.1.1` |
| `Dependencies.NoHeadersExample` | src/oal_agent/app/dependencies.py:60-67 | no forwarding header means no client IP |
| `Items.AllItems` | src/oal_agent/app/routers/items.py:30 | the catalogue is items 1 to 100 in order |
| `Items.SliceBound` | src/oal_agent/app/routers/items.py:34-36 | a slice index is clamped as CPython does: a negative one counts from the end, and either kind is clamped to the bounds |
| `Items.GetAllItems` | src/oal_agent/app/routers/items.py:30-43 | the response echoes the limit and offset, reports 100 in total, and never holds more than the catalogue |
| `Items.PageSpec` | src/oal_agent/app/routers/items.py:30-36 | with non-negative arguments the page holds `max(0, min(limit, 100 - offset))` items, and its item `i` is catalogue entry `offset + i + 1` |
| `Items.ItemNamesSpellIds` | src/oal_agent/app/routers/items.py:30 | every item is named "Item " followed by its id |
| `Items.PagesConcatenate` | src/oal_agent/app/routers/items.py:34-36 | two consecutive pages together equal one page of the combined limit |
| `Items.DefaultPage` | src/oal_agent/app/routers/items.py:34-36 | the page for limit 10, offset 0 holds items 1 to 10 |
| `Items.PastTheEnd` | src/oal_agent/app/routers/items.py:31-36 | an offset past the catalogue gives an empty page with total still 100 |
| `Items.NegativeOffset` | src/oal_agent/app/routers/items.py:34-36 | offset -10 with limit 5 gives items 91 to 95 |
| `ReportGenerator.WithStatic` | audit_engine/core/report_generator.py:15-16 | the static list is extended at its end by the batch, in order; the other fields are unchanged |
| `ReportGenerator.WithDynamic` | audit_engine/core/report_generator.py:18-19 | the dynamic list is extended at its end by the batch, in order; the other fields are unchanged |
| `ReportGenerator.WithScores` | audit_engine/core/report_generator.py:21-22 | the score list is extended at its end by the batch, in order; the other fields are unchanged |
| `ReportGenerator.WithMetadata` | audit_engine/core/report_generator.py:24-25 | the metadata is replaced, not merged; the lists are unchanged |
| `ReportGenerator.AuditReportGenerator.constructor` | audit_engine/core/report_generator.py:9-13 | a new generator holds three empty lists and empty metadata |
| `ReportGenerator.AuditReportGenerator.AddStaticResults` | audit_engine/core/report_generator.py:15-16 | the object's new state is the old report with the static batch added |
| `ReportGenerator.AuditReportGenerator.AddDynamicResults` | audit_engine/core/report_generator.py:18-19 | the object's new state is the old report with the dynamic batch added |
| `ReportGenerator.AuditReportGenerator.AddScores` | audit_engine/core/report_generator.py:21-22 | the object's new state is the old report with the scores added |
| `ReportGenerator.AuditReportGenerator.SetMetadata` | audit_engine/core/report_generator.py:24-25 | the object's new state is the old report with the metadata replaced |
| `ReportGenerator.BatchesConcatenate` | audit_engine/core/report_generator.py:15-22 | adding two batches equals adding their concatenation |
| `ReportGenerator.UpdatesCommute` | audit_engine/core/report_generator.py:15-25 | updates to different fields commute |
| `ReportGenerator.MetadataReplaced` | audit_engine/core/report_generator.py:24-25 | the last metadata set wins |
| `ReportGenerator.OneOfEach` | audit_engine/core/report_generator.py:9-25 | from a new generator, one call of each update leaves exactly what was passed in |
| `ReportGenerator.BuildReport` | audit_engine/core/report_generator.py:9-25 | the object's methods, called once each on a new generator, leave exactly the given report |
| `FileHandler.LastComponent` | audit_engine/utils/file_handler.py:6-9 | a non-empty file name is one of the path's components |
| `FileHandler.LastDot` | audit_engine/utils/file_handler.py:6-9 | finds the last dot in the name, or reports that there is none |
| `FileHandler.Suffix` | audit_engine/utils/file_handler.py:6-9 | a suffix is empty, or a dot and at least one more character at the end of the name, with something before it |
| `FileHandler.SupportedIff` | audit_engine/utils/file_handler.py:6-9 | a path is supported exactly when its name is at least one character followed by `.sol`, in any case |
| `FileHandler.NameOfPlainFile` | audit_engine/utils/file_handler.py:6-9 | a path without a slash is its own name |
| `FileHandler.DirectoryIgnored` | audit_engine/utils/file_handler.py:6-9 | the directory part never changes the verdict |
| `FileHandler.DoubleSuffixAccepted` | audit_engine/utils/file_handler.py:6-9 | `a.tar.sol` is supported |
| `FileHandler.BackupRejected` | audit_engine/utils/file_handler.py:6-9 | `a.sol.bak` is not |
| `FileHandler.UpperCaseAccepted` | audit_engine/utils/file_handler.py:6-9 | `X.SOL` is supported |
| `FileHandler.NoSuffixRejected` | audit_engine/utils/file_handler.py:6-9 | a name without a suffix is not |
| `FileHandler.DotFileRejected` | audit_engine/utils/file_handler.py:6-9 | `.sol` alone is a hidden file without a suffix, so it is not supported |
| `PreSlitherValidator.TagAfterSpacesIff` | Static_agent/Slither_agent/pre_slither_validator.py:60 | the recursive matcher accepts exactly a run of whitespace followed by the SPDX tag |
| `PreSlitherValidator.HeaderMatches` | Static_agent/Slither_agent/pre_slither_validator.py:61 | the header the fix prepends is itself matched by the search pattern |
| `PreSlitherValidator.SpdxPresentAfter` | Static_agent/Slither_agent/pre_slither_validator.py:60-61 | after the fix the content always carries an SPDX comment |
| `PreSlitherValidator.AddSpdxSpec` | Static_agent/Slither_agent/pre_slither_validator.py:59-62 | the fix fires exactly when no SPDX comment is found; then it prepends the header and records one message, otherwise it changes nothing; the original content always ends the result |
| `PreSlitherValidator.AddSpdxIdempotent` | Static_agent/Slither_agent/pre_slither_validator.py:60-62 | running the fix twice changes nothing more |
| `PreSlitherValidator.UnspacedCommentKept` | Static_agent/Slither_agent/pre_slither_validator.py:60 | `//SPDX-License-Identifier:` without a space counts as present |
| `PreSlitherValidator.LaterCommentKept` | Static_agent/Slither_agent/pre_slither_validator.py:60 | a comment further down the file counts as present |
| `PreSlitherValidator.BlockCommentNotFound` | Static_agent/Slither_agent/pre_slither_validator.py:60 | a tag inside `/* */` is not found, so the header is added |
| `AuditConfig.ValidateLogLevel` | audit_engine/core/config.py:115-120 | a level is accepted exactly when its upper-case form is one of the five levels, and the upper-case form is stored; otherwise a ValidationError is raised |
| `AuditConfig.ValidateLogLevelIdempotent` | audit_engine/core/config.py:118-120 | validating an accepted level again gives the same result |
| `AuditConfig.ValidateLogLevelExamples` | audit_engine/core/config.py:115-120 | `debug` gives DEBUG, `Warning` gives WARNING, and `verbose` is rejected |
| `AuditConfig.MakeScoring` | audit_engine/core/config.py:51-63 | scoring settings are accepted unchanged exactly when every field lies in its declared range |
| `AuditConfig.MakeAgents` | audit_engine/core/config.py:69-84 | agent settings are accepted unchanged exactly when every field lies in its declared range |
| `AuditConfig.DefaultsValid` | audit_engine/core/config.py:56-94 | the declared defaults pass their own validators |
| `AuditConfig.ThresholdsUnordered` | audit_engine/core/config.py:61-63 | nothing orders the thresholds: a critical threshold below the medium one is accepted |
| `Scoring.BaseScore` | audit_engine/scoring/scoring_engine.py:30-40 | every base score lies between 1.0 and 9.5 |
| `Scoring.EffectiveConfidence` | audit_engine/scoring/scoring_engine.py:41 | a missing or zero confidence counts as 0.5; any other value is used as given |
| `Scoring.FormulaBounds` | audit_engine/scoring/scoring_engine.py:42 | for a confidence in [0, 1] the score lies between 0.6 and 1 times the base |
| `Scoring.FormulaMonotone` | audit_engine/scoring/scoring_engine.py:42 | the formula never decreases as confidence grows |
| `Scoring.ScoreBounds` | audit_engine/scoring/scoring_engine.py:28-42 | every score lies between 0.6 and 9.5 |
| `Scoring.SeverityKeyOfStr` | audit_engine/scoring/scoring_engine.py:28-29 | a severity string, plain or as an enum value, is stripped and lower-cased before lookup |
| `Scoring.SeverityKeyDefault` | audit_engine/scoring/scoring_engine.py:28-29 | a missing or empty severity is read as "medium" |
| `Scoring.SeverityKeyNormalisation` | audit_engine/scoring/scoring_engine.py:28-29 | `" High "` is looked up as `high` |
| `Scoring.BaseScoreOfSchemaSeverity` | audit_engine/scoring/scoring_engine.py:28-40 | the five schema severities score 9.5, 8.0, 6.0, 3.0 and 1.0 |
| `Scoring.UnknownSeverityBase` | audit_engine/scoring/scoring_engine.py:28-40 | an unknown severity word gets base 5.0 |
| `Scoring.ZeroConfidenceScoresAboveLow` | audit_engine/scoring/scoring_engine.py:41-42 | as written, confidence 0.0 scores higher than confidence 0.1 |
| `Scoring.CorrectedConfidence` | audit_engine/scoring/scoring_engine.py:41 | a given confidence, zero included, is used as it is |
| `Scoring.CorrectedScoreMonotone` | audit_engine/scoring/scoring_engine.py:41-42 | with the corrected default the score is monotone in confidence, from 0.0 up |
| `Scoring.CorrectedAgreesAwayFromZero` | audit_engine/scoring/scoring_engine.py:41-42 | the correction changes nothing except at confidence 0.0 |
| `Scoring.MapSwcToSeverity` | audit_engine/scoring/severity_mapping.py:21-26 | an id outside the table maps to informational |
| `Scoring.SwcTable` | audit_engine/scoring/severity_mapping.py:11-18 | the table entries map as declared, e.g. SWC-107 to critical and SWC-116 to low |
| `Scoring.SwcMappedIffInTable` | audit_engine/scoring/severity_mapping.py:11-26 | an id maps to something other than informational exactly when it is in the table |
| `Scoring.SwcLookupCaseSensitive` | audit_engine/scoring/severity_mapping.py:26 | lower-case `swc-107` is not found |
| `StaticBase.PieceValue` | audit_engine/static_analysis/base.py:38-39 | a comma-separated piece yields at most one non-negative integer |
| `StaticBase.NormalizeLineNumbers` | audit_engine/static_analysis/base.py:34-41 | an int becomes a one-element list; a string becomes the integers of its digit pieces; any other truthy value is kept; a falsy one becomes `[]` |
| `StaticBase.DigitPiecesAppend` | audit_engine/static_analysis/base.py:38-39 | piece extraction distributes over concatenation |
| `StaticBase.DigitPiecesDropsJunk` | audit_engine/static_analysis/base.py:38-39 | a piece that is not all digits after stripping is dropped |
| `StaticBase.LineNumbersRoundTrip` | audit_engine/static_analysis/base.py:37-39 | joining numbers with commas and normalising gives the numbers back |
| `StaticBase.LineNumbersWithoutDigits` | audit_engine/static_analysis/base.py:37-39 | a string without any digit piece, the empty one included, gives `[]` |
| `StaticBase.SwcIdText` | audit_engine/static_analysis/base.py:44 | a missing `swc_id` is read as empty, and a string one as itself |
| `StaticBase.Locals` | audit_engine/static_analysis/base.py:30-46 | the values the method computes: the normalised lines and the SWC text; the pattern lookups run exactly when the SWC text is non-empty |
| `StaticBase.StandardizeFindingReturnsNone` | audit_engine/static_analysis/base.py:30-46 | as written, the method returns None for every finding |
| `StaticBase.StandardizeFindingSpec` | audit_engine/static_analysis/base.py:30-46 | corrected: the finding comes back with normalised `line_numbers` and `swc_id`, every key kept and every other value unchanged |
| `StaticBase.StandardizeKeeps` | audit_engine/static_analysis/base.py:30-46 | keys other than the two normalised ones are untouched |
| `StaticBase.StandardizeLineNumbersIdempotent` | audit_engine/static_analysis/base.py:34-41 | standardising twice leaves the line numbers as standardising once does |
| `StaticBase.JsonDictList` | audit_engine/static_analysis/mythril_adapter.py:20-36 | no output raises ValueError; a non-dict raises AttributeError; a missing key gives an empty list |
| `StaticBase.FindingDictFields` | audit_engine/static_analysis/mythril_adapter.py:24-32 | the finding dictionary holds each of its seven fields as given |
| `MythrilAdapter.SourceMaps` | audit_engine/static_analysis/mythril_adapter.py:29 | one source map per location, with `""` when the location has none |
| `MythrilAdapter.MapIssue` | audit_engine/static_analysis/mythril_adapter.py:24-32 | an issue maps to a finding exactly when its `locations` is a list of dictionaries |
| `MythrilAdapter.ParseOutput` | audit_engine/static_analysis/mythril_adapter.py:19-36 | the method's findings are those of the specification function |
| `MythrilAdapter.MapAllIssues` | audit_engine/static_analysis/mythril_adapter.py:22-34 | when every issue maps, there is one finding per issue in order; otherwise none |
| `MythrilAdapter.NoIssuesNoFindings` | audit_engine/static_analysis/mythril_adapter.py:20-36 | no output, a non-dict, or a missing `issues` key gives no findings |
| `MythrilAdapter.BadIssueSpoilsAll` | audit_engine/static_analysis/mythril_adapter.py:29-36 | one issue with malformed locations loses every finding |
| `MythrilAdapter.OneFindingPerIssue` | audit_engine/static_analysis/mythril_adapter.py:23-33 | when all issues map there are exactly as many findings as issues |
| `MythrilAdapter.FindingKeptFields` | audit_engine/static_analysis/mythril_adapter.py:24-33 | tool, title, description, severity and confidence come from the issue, with their defaults |
| `MythrilAdapter.FindingNormalisedFields` | audit_engine/static_analysis/mythril_adapter.py:24-33 | `swc_id` is the text of `swc-id`, and the line numbers are the list of source maps |
| `MythrilAdapter.AsWrittenFindingsAreNone` | audit_engine/static_analysis/mythril_adapter.py:33 | as written, every appended finding is None |
| `EchidnaAdapter.FailedTests` | audit_engine/dynamic_analysis/echidna_adapter.py:22-23 | only failing tests are kept |
| `EchidnaAdapter.FailedTestsAppend` | audit_engine/dynamic_analysis/echidna_adapter.py:22-23 | the filter distributes over concatenation |
| `EchidnaAdapter.FailedTestsMembers` | audit_engine/dynamic_analysis/echidna_adapter.py:22-23 | a test is kept exactly when it is in the input and fails |
| `EchidnaAdapter.ParseOutput` | audit_engine/dynamic_analysis/echidna_adapter.py:18-36 | the method's findings are those of the specification function |
| `EchidnaAdapter.CollectFailures` | audit_engine/dynamic_analysis/echidna_adapter.py:22-33 | the loop yields one finding per failed test, in order |
| `EchidnaAdapter.NoTestsNoFindings` | audit_engine/dynamic_analysis/echidna_adapter.py:20-36 | no output, a non-dict, or a missing `tests` key gives no findings |
| `EchidnaAdapter.OneFindingPerFailure` | audit_engine/dynamic_analysis/echidna_adapter.py:22-33 | there are exactly as many findings as failed tests |
| `EchidnaAdapter.MissingPassPasses` | audit_engine/dynamic_analysis/echidna_adapter.py:23 | a test without a `pass` field counts as passing |
| `EchidnaAdapter.FindingKeptFields` | audit_engine/dynamic_analysis/echidna_adapter.py:24-32 | the title is "Property Violation: " and the test name; severity and confidence are High; tool is Echidna |
| `EchidnaAdapter.FindingNormalisedFields` | audit_engine/dynamic_analysis/echidna_adapter.py:28-33 | the SWC id is empty, and the line numbers are the normalised locations |
| `Schemas.MakeLineSpan` | audit_engine/core/schemas.py:44-48 | a span is built exactly when start does not exceed end; otherwise a ValidationError is raised |
| `Schemas.CheckFinding` | audit_engine/core/schemas.py:44-69 | a finding is accepted unchanged exactly when its confidence, SWC id and line span are valid |
| `Schemas.AgentTaskPriority` | audit_engine/core/schemas.py:166 | a priority defaults to 5 and must lie in 1..10 |
| `Schemas.CheckAgentResult` | audit_engine/core/schemas.py:177 | an agent result is accepted exactly when its confidence lies in [0, 1] |
| `Schemas.CountSeverity` | audit_engine/core/schemas.py:148 | a severity count never exceeds the number of findings |
| `Schemas.CountSeverityAppend` | audit_engine/core/schemas.py:148 | counts add over concatenation |
| `Schemas.SeverityCountsCoverAll` | audit_engine/core/schemas.py:15-21 | the five severity counts sum to the number of findings |
| `Schemas.DistributionSumsToTotal` | audit_engine/core/schemas.py:143-150 | the distribution's entries sum to the total |
| `Schemas.DistributionOfConcat` | audit_engine/core/schemas.py:146-150 | the distribution of two lists together is the sum of theirs |
| `Schemas.CountOf` | audit_engine/core/schemas.py:148 | the counting loop counts the findings of one severity |
| `Schemas.ComputeDistribution` | audit_engine/core/schemas.py:146-150 | the loop builds the distribution, which has an entry only for severities that occur |
| `Schemas.AnalysisResult.constructor` | audit_engine/core/schemas.py:114-125 | a new result carries the given paths and empty findings, errors and distributions |
| `Schemas.AnalysisResult.Finalize` | audit_engine/core/schemas.py:137-150 | the total becomes the number of findings and the distribution sums to it; the findings and errors stay unchanged |
| `DynamicConfig.Validate` | audit_engine/dynamic_analysis/config.py:17-71 | settings are valid exactly when every field is in range and at least one tool is enabled, with the source's message otherwise |
| `DynamicConfig.DefaultsValid` | audit_engine/dynamic_analysis/config.py:17-62 | the defaults are valid; disabling both tools is not |
| `DynamicConfig.SensitivityCaseInsensitive` | audit_engine/dynamic_analysis/config.py:96-98 | whether a key is sensitive does not depend on its case |
| `DynamicConfig.MaskValue` | audit_engine/dynamic_analysis/config.py:100-105 | a string longer than 8 keeps its first 3 and last 2 characters around `***`; anything else becomes `***` |
| `DynamicConfig.MaskDict` | audit_engine/dynamic_analysis/config.py:93-108 | masking keeps a dictionary's keys and masks exactly the non-null values under sensitive keys, recursing into the rest |
| `DynamicConfig.MaskSequences` | audit_engine/dynamic_analysis/config.py:109-112 | lists and tuples are masked element by element into a list; scalars are kept |
| `DynamicConfig.MaskHidesSecrets` | audit_engine/dynamic_analysis/config.py:82-112 | after masking, no value under a sensitive key, at any depth, is longer than 8 characters |
| `DynamicConfig.MaskExample` | audit_engine/dynamic_analysis/config.py:93-105 | `sk-1234567890` becomes `sk-***90`, and a null token stays null |
| `DynamicConfig.MaskingSettings.constructor` | audit_engine/dynamic_analysis/config.py:82-92 | the pattern cache starts empty |
| `DynamicConfig.MaskingSettings.MaskSensitiveData` | audit_engine/dynamic_analysis/config.py:82-92 | the result is the masked value, and the pattern cache is filled |
| `DynamicConfig.GetToolConfig` | audit_engine/dynamic_analysis/config.py:114-124 | the per-tool dictionary is found case-insensitively; an unknown tool gets `{}` |
| `DynamicConfig.GetToolAccuracy` | audit_engine/dynamic_analysis/config.py:126-136 | the accuracy is found case-insensitively; an unknown name gets 0.8 |
| `DynamicConfig.IsToolEnabled` | audit_engine/dynamic_analysis/config.py:138-148 | the enable flag is found case-insensitively; an unknown tool is disabled |
| `DynamicConfig.LookupsCaseInsensitive` | audit_engine/dynamic_analysis/config.py:114-148 | all three lookups ignore case |
| `DynamicConfig.ValidEnablesATool` | audit_engine/dynamic_analysis/config.py:60-62 | valid settings enable at least one tool |
| `DynamicConfig.AccuracyByClassName` | audit_engine/dynamic_analysis/config.py:126-136 | the class name `EchidnaAdapter` is not a configured key and gets the 0.8 default, while `AdversarialFuzz` finds its setting |
| `Engine.SeverityByName` | audit_engine/core/engine.py:408-420 | a key is in the severity table exactly when it is one of its names |
| `Engine.MapSeverity` | audit_engine/core/engine.py:408-420 | anything other than a known name, in any case, maps to MEDIUM |
| `Engine.MapSeverityRoundTrip` | audit_engine/core/engine.py:408-420 | each severity's own value maps back to it, in any case |
| `Engine.MapSeverityCaseInsensitive` | audit_engine/core/engine.py:408-420 | mapping ignores case |
| `Engine.MapSeverityAliases` | audit_engine/core/engine.py:408-420 | high maps to MAJOR, low to MINOR and info to INFORMATIONAL |
| `Engine.MapSeverityDefault` | audit_engine/core/engine.py:408-420 | a non-string or unknown word maps to MEDIUM |
| `Engine.ConfidenceByName` | audit_engine/core/engine.py:424-431 | a key is in the confidence table exactly when it is one of its names |
| `Engine.ConfidenceToFloat` | audit_engine/core/engine.py:422-432 | a falsy non-string gives 0.5; a number gives itself; a truthy container or object raises TypeError |
| `Engine.ConfidenceStrings` | audit_engine/core/engine.py:424-431 | a word maps case-insensitively to 0.97, 0.9, 0.7 or 0.4, and an unknown word to 0.5 |
| `Engine.ConfidenceInUnitRange` | audit_engine/core/engine.py:422-432 | strings, booleans, None and numbers in [0, 1] give a confidence in [0, 1] |
| `Engine.CoerceStr` | audit_engine/core/schemas.py:57-71 | a str field accepts strings and numbers, and rejects the rest with a ValidationError; integers and booleans become their Python text |
| `Engine.CoerceStrFloat` | audit_engine/core/schemas.py:57-71 | a float in a str field becomes its shortest text (`1.5` gives "1.5") |
| `Engine.CoerceOptStr` | audit_engine/core/schemas.py:57-71 | an optional str field also accepts None |
| `Engine.CoerceEach` | audit_engine/core/schemas.py:57-71 | a list field succeeds exactly when each element coerces, and keeps their order |
| `Engine.CoerceStrList` | audit_engine/core/schemas.py:57-71 | only a list or tuple can fill a list field |
| `Engine.Recommendations` | audit_engine/core/engine.py:379-381 | a string recommendation is wrapped in a list; anything else is passed on |
| `Engine.ConvertToFinding` | audit_engine/core/engine.py:375-406 | a converted finding is valid and has no line span; a non-dict raw result always converts; an unconvertible confidence raises TypeError |
| `Engine.ConvertDefaults` | audit_engine/core/engine.py:379-394 | an empty dictionary converts to the default finding of that tool |
| `Engine.ConvertDictFields` | audit_engine/core/engine.py:379-394 | severity, confidence and description come from their keys with their defaults |
| `Engine.ConvertRecommendations` | audit_engine/core/engine.py:379-381 | a string recommendation becomes a one-element list, and a list of strings is kept |
| `Engine.FilePathOf` | audit_engine/core/engine.py:387 | `file_path` when truthy, else `path`, else "unknown" |
| `Engine.ConvertFilePath` | audit_engine/core/engine.py:387 | the finding's file path is that choice |
| `Engine.NormalizeAll` | audit_engine/core/engine.py:320-332 | normalisation yields at most one valid finding per raw result |
| `Engine.NormalizeAllAppend` | audit_engine/core/engine.py:320-332 | normalisation distributes over concatenation |
| `Engine.NormalizeNonDicts` | audit_engine/core/engine.py:320-332 | raw results that are not dictionaries are never dropped |
| `Engine.NormalizeStaticFindings` | audit_engine/core/engine.py:320-332 | the loop yields the normalised list |
| `Engine.StaticAnalysisErrors` | audit_engine/core/engine.py:265-308 | the static phase reports at most one error, and none exactly when every job ran |
| `Engine.RunStaticAnalysis` | audit_engine/core/engine.py:265-308 | the loop over jobs gives the phase output |
| `Engine.StaticAnalysisAsWritten` | audit_engine/core/engine.py:310-318 | as written, the static phase never yields a finding |
| `Engine.StaticAnalysisAsWrittenLosesFindings` | audit_engine/core/engine.py:310-318 | as written, one adapter on one contract gives a TypeError and no finding, where the corrected phase gives one finding |
| `Engine.DynamicConfidence` | audit_engine/core/engine.py:358 | the four dynamic levels read as 0.4, 0.7, 0.9 and 0.97 |
| `Engine.DynamicToFinding` | audit_engine/core/engine.py:348-362 | a dynamic result becomes a valid finding that keeps its tool, type, mapped severity, level confidence and cross-chain impact; string reproduction steps are kept and missing ones become `str(details)` (`"{}"` for empty details); a string SWC id is kept and a missing one is None; a non-empty `file_path` is used, and with no path the file is "unknown"; no remediation gives no recommendations; only the details can make it fail |
| `PyValue.DisplayEmpty` | audit_engine/core/engine.py:357 | `str()` of an empty dict, list and tuple is "{}", "[]" and "()" |
| `PyValue.DisplayList` | audit_engine/core/engine.py:357 | `str()` of a list or tuple shows its elements' `repr`, with the one-element tuple's trailing comma |
| `PyValue.DisplayDict` | audit_engine/core/engine.py:357 | `str()` of a dict quotes its keys and string values, with double quotes around a string holding a single quote |
| `PyValue.DisplayFloat` | audit_engine/core/engine.py:357 | `str()` of 1.5, 2.0 and -0.25 is "1.5", "2.0" and "-0.25" |
| `Engine.DynamicRecommendationsAreLines` | audit_engine/core/engine.py:359 | the recommendations are the remediation's lines |
| `Engine.DynamicAnalysis` | audit_engine/core/engine.py:334-373 | the dynamic phase yields one finding per result, or, after an error, no findings and one error |
| `Engine.DynamicAnalysisAt` | audit_engine/core/engine.py:348-362 | without an error, finding `i` is the conversion of result `i` |
| `Engine.RunDynamicAnalysis` | audit_engine/core/engine.py:334-373 | the loop gives the phase output |
| `Engine.DynamicAnalysisFails` | audit_engine/core/engine.py:367-373 | the first failing conversion discards every finding and reports its exception |
| `Engine.DynamicAnalysisSucceeds` | audit_engine/core/engine.py:348-366 | when every conversion succeeds, the findings are all of them in order |
| `Engine.DynamicAnalysisAsWritten` | audit_engine/core/engine.py:358 | as written, the dynamic phase never yields a finding |
| `Engine.DynamicAnalysisAsWrittenBehaviour` | audit_engine/core/engine.py:358 | as written, any result raises TypeError from `float()` of an enum member |
| `Engine.NoTasksNoResults` | audit_engine/core/engine.py:224-232 | asking for neither phase gives nothing |
| `Engine.RunAnalysisPhase` | audit_engine/core/engine.py:208-263 | the gathered phase results are those of the specification function |
| `Engine.Analyze` | audit_engine/core/engine.py:125-185 | a failed validation gives only an AnalysisError; otherwise the static then dynamic findings with their errors, an AnalysisError added when RL feedback is on, and a finalised count |
| `Engine.CombinedCounts` | audit_engine/core/engine.py:145-147 | the combined distribution is the sum of the phases' distributions |
| `DynamicAnalysis.WeightOrder` | audit_engine/dynamic_analysis/__init__.py:286-294 | the weights order CRITICAL < LOW < MEDIUM < HIGH and tell levels apart |
| `DynamicAnalysis.Band` | audit_engine/dynamic_analysis/__init__.py:200-207 | the bands are: at least 0.9 is HIGH, at least 0.7 MEDIUM, at least 0.4 LOW, and below that the level named CRITICAL |
| `DynamicAnalysis.BandWeightMonotone` | audit_engine/dynamic_analysis/__init__.py:200-207 | a larger adjusted score never gets a lower weight |
| `DynamicAnalysis.CalculateConfidence` | audit_engine/dynamic_analysis/__init__.py:183-207 | the level is the band of the adjusted score; a non-numeric score or accuracy raises TypeError |
| `DynamicAnalysis.Remediation` | audit_engine/dynamic_analysis/__init__.py:209-221 | three vulnerability types, matched case-insensitively, get their advice; others get none |
| `DynamicAnalysis.RemediationCaseInsensitive` | audit_engine/dynamic_analysis/__init__.py:209-221 | advice does not depend on case |
| `DynamicAnalysis.RemediationUpperCase` | audit_engine/dynamic_analysis/__init__.py:209-221 | REENTRANCY is matched; `reentrancy_guard` is not |
| `DynamicAnalysis.CrossChainImpact` | audit_engine/dynamic_analysis/__init__.py:223-241 | when enabled, only the three gas and timestamp types get chains, as listed |
| `DynamicAnalysis.ProcessOne` | audit_engine/dynamic_analysis/__init__.py:147-179 | a raw result is processed exactly when its confidence computes and its type is a string, keeping every field |
| `DynamicAnalysis.ProcessAllAppend` | audit_engine/dynamic_analysis/__init__.py:140-181 | processing distributes over concatenation |
| `DynamicAnalysis.ProcessAllShape` | audit_engine/dynamic_analysis/__init__.py:140-181 | at most one result per raw result, all with the adapter's class name, and no cross-chain data when that is disabled |
| `DynamicAnalysis.ProcessAdapterResults` | audit_engine/dynamic_analysis/__init__.py:140-181 | the loop gives the processed list |
| `DynamicAnalysis.DistinctKeys` | audit_engine/dynamic_analysis/__init__.py:249-255 | the group keys are pairwise distinct and cover every result |
| `DynamicAnalysis.Group` | audit_engine/dynamic_analysis/__init__.py:249-255 | a group holds only results with its key |
| `DynamicAnalysis.GroupNonEmptyIffKey` | audit_engine/dynamic_analysis/__init__.py:249-255 | a group is non-empty exactly when its key occurs |
| `DynamicAnalysis.DistinctKeysInFirstOccurrenceOrder` | audit_engine/dynamic_analysis/__init__.py:249-255 | groups come in the order their keys first occur, as a dict keeps them |
| `DynamicAnalysis.GroupResults` | audit_engine/dynamic_analysis/__init__.py:249-255 | the loop builds exactly the key order and groups of the specification |
| `DynamicAnalysis.PrimaryIndex` | audit_engine/dynamic_analysis/__init__.py:268 | the primary has the maximum weight, and is the first with that weight |
| `DynamicAnalysis.Downgrade` | audit_engine/dynamic_analysis/__init__.py:260-265 | a lone HIGH result becomes MEDIUM; nothing else changes |
| `DynamicAnalysis.Upgrade` | audit_engine/dynamic_analysis/__init__.py:269-275 | a corroborated LOW becomes MEDIUM; anything else becomes HIGH |
| `DynamicAnalysis.NextLevel` | audit_engine/dynamic_analysis/__init__.py:269-275 | the next level in declaration order, capped at the last |
| `DynamicAnalysis.UpgradeIsDeclarationOrderMin` | audit_engine/dynamic_analysis/__init__.py:269-275 | the corrected upgrade is the minimum, in declaration order, of HIGH and the next level |
| `DynamicAnalysis.PlainEnumMin` | audit_engine/dynamic_analysis/__init__.py:269-275 | `min` of two plain enum members raises TypeError |
| `DynamicAnalysis.ToolNames` | audit_engine/dynamic_analysis/__init__.py:279 | the consensus tool list names each grouped result's tool, in order |
| `DynamicAnalysis.Consensus` | audit_engine/dynamic_analysis/__init__.py:243-284 | one output per distinct key |
| `DynamicAnalysis.ConsensusAt` | audit_engine/dynamic_analysis/__init__.py:259-282 | a lone result is downgraded; a group yields its primary, upgraded, with the tools listed and its other details kept |
| `DynamicAnalysis.ConsensusConfidence` | audit_engine/dynamic_analysis/__init__.py:259-282 | a corroborated result is MEDIUM or HIGH, only a corroborated one is HIGH, and a CRITICAL result comes from a single tool that reported CRITICAL |
| `DynamicAnalysis.ApplyConsensusScoring` | audit_engine/dynamic_analysis/__init__.py:243-284 | the method's output is the corrected consensus |
| `DynamicAnalysis.ConsensusAsWrittenBehaviour` | audit_engine/dynamic_analysis/__init__.py:243-284 | as written, consensus raises TypeError exactly when two results share a key, and otherwise agrees with the corrected one |
| `DynamicAnalysis.ConsensusAsWrittenCounterexample` | audit_engine/dynamic_analysis/__init__.py:252-275 | an Echidna and a fuzz report of the same issue make the as-written code raise |
| `DynamicAnalysis.ConsensusCorrectedCounterexample` | audit_engine/dynamic_analysis/__init__.py:252-275 | the same two reports give one HIGH result from AdversarialFuzz |
| `DynamicAnalysis.FlattenAppend` | audit_engine/dynamic_analysis/__init__.py:341-360 | legacy collection distributes over concatenation |
| `DynamicAnalysis.FlattenSingle` | audit_engine/dynamic_analysis/__init__.py:341-360 | a returned list is spliced in, a truthy value appended, and a raise or a falsy value adds nothing |
| `DynamicAnalysis.CollectLegacyFindings` | audit_engine/dynamic_analysis/__init__.py:341-360 | the loop gives the flattened findings |
| `DynamicAnalysis.RunLegacy` | audit_engine/dynamic_analysis/__init__.py:341-360 | with no adapters there is no result; otherwise one wrapped "unknown", MEDIUM result per collected finding |
| `AdversarialFuzz.ArgOf` | audit_engine/dynamic_analysis/adversarial_fuzz.py:96-119 | a missing type or name raises KeyError, and a non-string type AttributeError |
| `AdversarialFuzz.InputArg` | audit_engine/dynamic_analysis/adversarial_fuzz.py:93-119 | a non-dict input raises TypeError |
| `AdversarialFuzz.BuildArgs` | audit_engine/dynamic_analysis/adversarial_fuzz.py:95-119 | the loop gives the specified argument list |
| `AdversarialFuzz.PlanFunction` | audit_engine/dynamic_analysis/adversarial_fuzz.py:86-134 | one ABI entry's planned transaction is the specified one |
| `AdversarialFuzz.PlanTransactions` | audit_engine/dynamic_analysis/adversarial_fuzz.py:87-134 | the loop over the ABI gives the specified plan |
| `AdversarialFuzz.RunFuzz` | audit_engine/dynamic_analysis/adversarial_fuzz.py:51-134 | the corrected `run` gives the specified outcome |
| `AdversarialFuzz.AsWrittenNeverFuzzes` | audit_engine/dynamic_analysis/adversarial_fuzz.py:51-65 | as written, an existing file raises NameError, and a missing one reports a single None |
| `AdversarialFuzz.RunOutcomes` | audit_engine/dynamic_analysis/adversarial_fuzz.py:51-83 | it fails exactly when planning fails, explores exactly when planning succeeds, and otherwise reports one error finding |
| `AdversarialFuzz.ErrorFindingFields` | audit_engine/dynamic_analysis/adversarial_fuzz.py:52-83 | an error finding is low severity and low confidence, from AdversarialFuzz, with the given description |
| `AdversarialFuzz.SkippedIffFiltered` | audit_engine/dynamic_analysis/adversarial_fuzz.py:88-91 | an entry is skipped exactly when it is not a function or is a view |
| `AdversarialFuzz.NothingFuzzedNoTransactions` | audit_engine/dynamic_analysis/adversarial_fuzz.py:88-91 | an ABI with nothing to fuzz plans no transaction |
| `AdversarialFuzz.ArgsOfSpec` | audit_engine/dynamic_analysis/adversarial_fuzz.py:95-119 | the arguments build exactly when every input does, one argument per input |
| `AdversarialFuzz.PlannedTransaction` | audit_engine/dynamic_analysis/adversarial_fuzz.py:93-134 | a fuzzed function gets a transaction with its name and one argument per input |
| `AdversarialFuzz.PlanSpec` | audit_engine/dynamic_analysis/adversarial_fuzz.py:87-134 | planning succeeds exactly when every entry does, with at most one transaction each |
| `AdversarialFuzz.ConstraintsAdmit` | audit_engine/dynamic_analysis/adversarial_fuzz.py:98-118 | an argument's constraints admit exactly the values of its Solidity type |
| `AdversarialFuzz.ArgDomain` | audit_engine/dynamic_analysis/adversarial_fuzz.py:98-118 | a well-formed input gets a named argument whose domain is its type's range |
| `AdversarialFuzz.UnsignedBound` | audit_engine/dynamic_analysis/adversarial_fuzz.py:106-108 | the `uintN` constraint admits exactly 0 to 2^N - 1 |
| `AdversarialFuzz.SignedBounds` | audit_engine/dynamic_analysis/adversarial_fuzz.py:109-110 | the `intN` constraints admit exactly -2^(N-1) to 2^(N-1) - 1 |
| `AdversarialFuzz.BitsOfArrayType` | audit_engine/dynamic_analysis/adversarial_fuzz.py:104-105 | `uint8[2]` is read as 82 bits |
| `AdversarialFuzz.BitsOfSizedType` | audit_engine/dynamic_analysis/adversarial_fuzz.py:104-105 | `int16` is read as 16 bits |
| `AdversarialFuzz.BitsOfUnsizedType` | audit_engine/dynamic_analysis/adversarial_fuzz.py:104-105 | `uint` is read as 256 bits |
| `AdversarialFuzz.AddressArrayIsAny` | audit_engine/dynamic_analysis/adversarial_fuzz.py:98-118 | `address[]` falls back to the 256-bit case |

## Left out

- The pre-validator's fixes 2 to 6 (`pre_slither_validator.py:64-82`) are left out. They call methods that the class does not define.
- The pre-validator's file reading, backup and writing (`pre_slither_validator.py:22-53`) are file I/O and are left out.
- The Slither adapter and `_validate_contracts` (`engine.py:187-206`) are filesystem and subprocess code.
- `collect_contracts` (`file_handler.py:11-18`) walks the filesystem and is left out.
- Every adapter's `run` starts a subprocess, so tool output is a parameter of the model.
- The AdversarialFuzz adapter's Manticore exploration and its `parse_output` (`adversarial_fuzz.py:136-189`) need the Manticore engine. The deployment and ABI are parameters, and the model stops at the planned transactions.
- Asyncio, threads, timeouts and task cancellation (`engine.py:234-306`, `__init__.py:106-121`) are not modelled. A task outcome is a parameter.
- Logging, timing, `duration_seconds`, timestamps and uuid-valued fields are not modelled. `get_request_metadata`'s uuid is the parameter `freshId`.
- `get_request_duration` and the context variables in `dependencies.py` are not modelled.
- The agent orchestration, explainability and RL placeholders in `engine.py` are not modelled, apart from their effect on the result. The RL collector ends with `return adapters`, a name it never binds (`engine.py:471`). It therefore raises NameError, which `Engine.Analyze` records as an AnalysisError.
- `_apply_scoring`'s explainability trace is not modelled.
- `items.py` imports `PaginationParams`, which is not part of this model. Offset and limit are arbitrary integers, and the unreachable `except` branch (`items.py:44-45`) is left out.
- `vulnerability_patterns` is not part of this model. The SWC pattern lookups are only marked as run.
- The consensus key in `__init__.py:252` hashes `str(details)`. The model compares the details structurally.
- The sensitive-key patterns are filled once, under a `hasattr` guard (`dynamic_analysis/config.py:87-91`). The model keeps them in a cache field filled on first use.
- `masked_dict`, `get_tool_config`, `get_tool_accuracy` and `is_tool_enabled` carry `lru_cache` (`dynamic_analysis/config.py:73,114,126,138`). The cache hashes `self`, and a non-frozen pydantic v2 `BaseSettings` cannot be hashed, so as written each of these calls raises TypeError. The model gives the results these lookups evidently intend, and leaves the cache out.
- Schemas and Engine assume pydantic v1 semantics, which `core/schemas.py:12,57` and `core/config.py:10` use. A `regex=` constraint matches a prefix (`re.match`), and a `str` field accepts numbers and booleans as their text. The dynamic-analysis settings (`dynamic_analysis/config.py:7-8`) use pydantic v2, and the model follows v2 there.
- PyValue.Display: an object's text (Python's holds its class and a memory address) is shown as the fixed text "<value>". A float, modelled as the real it stands for, is written out in full in fixed notation when `1e-4 <= |x| < 1e16` and its fraction ends within fifteen decimal places. Other floats are shown as "<value>". For a value of at most fifteen significant digits this text is Python's shortest `repr`. Longer expansions, and the exponent notation Python uses outside that range, are not modelled. `-0.0` prints as "0.0", and `repr` escapes only ASCII control characters, not other non-printable characters. The members that print values inherit these limits: `Engine.DynamicToFinding`, `Engine.CoerceStr`, `Engine.ConvertToFinding`'s non-dict description, `StaticBase.SwcIdText`, the title in `EchidnaAdapter.TestFinding` and `AdversarialFuzz.ArgName`.
- Pydantic's environment loading is not modelled. Settings are values.
- Floating point is modelled by reals:
  - The `x1.2` fuzz bonus and the accuracy product are exact.
  - `round(…, 2)` and float overflow are not modelled.
  - 256-bit values are unbounded integers.
- `str.lower`, `str.upper` and `str.isdigit` are modelled for ASCII only. `\s` and `str.strip` use the `str.isspace` whitespace set.
- The helper `_trim_whitespace` in the validation tests is not modelled.
- Items.GetAllItems: its own contract bounds the page and echoes the arguments. Its contents are stated by `Items.PageSpec` and the example lemmas.
- Engine.CoerceStrList: its own contract says only which inputs can succeed. The contents are stated by `Engine.CoerceStrListOfStrings` and `Engine.ConvertRecommendations`.

## Findings

| source | as written | input that shows it | evidently intended | confidence | as-written member | corrected member |
|---|---|---|---|---|---|---|
| audit_engine/dynamic_analysis/__init__.py:269-275 | the consensus upgrade calls `min` on two plain `Enum` members, which raises TypeError | an Echidna report and a fuzz report with the same type and details | one step up the confidence ladder, capped at HIGH | not executed | `DynamicAnalysis.ConsensusAsWrittenCounterexample` | `DynamicAnalysis.ConsensusCorrectedCounterexample` |
| audit_engine/core/engine.py:358 | `float(r.confidence)` on a plain `Enum` member raises TypeError, so the dynamic phase never yields a finding | any processed dynamic result | the level's numeric value, as `_confidence_to_float` gives for its name | not executed | `Engine.DynamicAnalysisAsWrittenBehaviour` | `Engine.RunDynamicAnalysis` |
| audit_engine/static_analysis/base.py:30-46 | `standardize_finding` computes its fields and returns nothing | any finding dictionary | the finding with normalised `line_numbers` and `swc_id` | not executed | `StaticBase.StandardizeFindingReturnsNone` | `StaticBase.StandardizeFindingSpec` |
| audit_engine/core/engine.py:310-318 | `_run_static_adapter` only defines an inner function and returns None, and it is submitted with a third argument it does not take | one adapter and one contract | run the adapter and return its normalised findings | not executed | `Engine.StaticAnalysisAsWrittenLosesFindings` | `Engine.RunStaticAnalysis` |
| audit_engine/dynamic_analysis/adversarial_fuzz.py:65 | `ManticoreEVM` is imported only inside a stray module-level `def run` (lines 15-33), never inside the class, so the method `run` raises NameError | any existing contract file | explore the deployed contract's functions | not executed | `AdversarialFuzz.AsWrittenNeverFuzzes` | `AdversarialFuzz.RunOutcomes` |
| audit_engine/scoring/scoring_engine.py:41 | `confidence or 0.5` treats a confidence of 0.0 as missing | confidence 0.0 against confidence 0.1 | a zero confidence scores lowest | not executed | `Scoring.ZeroConfidenceScoresAboveLow` | `Scoring.CorrectedScoreMonotone` |
