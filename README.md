# Jenkins load-generator plugin: build step and result project action

This Dafny project models the core of the Jenkins plugin that drives the Jetty
load generator:

- `LoadGeneratorBuilder` (module `Builder`): the defaults its constructor
  applies, the listeners and profile it accumulates, the choice of HTTP client
  transport, the precedence between a preset resource profile, an inline Groovy
  profile and an XML profile file, and `doRun`, which aborts the build without a
  profile and otherwise configures the load generator, runs it by iterations or
  by duration, and turns the listeners' results into the build action (module
  `Aggregation` holds the per-path summary loop and the per-path regrouping
  loop).
- The form checks of `LoadGeneratorBuilder.DescriptorImpl` (module
  `Validators`), on top of a model of `Integer.parseInt` and
  `Integer.toString` (module `JavaInt`).
- `LoadResultProjectAction` (module `ResultAction`): the null handling of its
  constructor, the collection of load-result ids over the project's builds, the
  `{"query": {"ids": {"values": [...]}}}` document sent to the result store, the
  mapping of the store's results to run informations, and its URL names.

The Java library helpers the core relies on (`String.trim`,
`Util.fixEmptyAndTrim`, `StringUtils.trim/isBlank/isNotBlank/isNotEmpty`,
`Character.isWhitespace`, `TimeUnit.NANOSECONDS.toMillis`) are modelled in
`JavaText` and `JavaInt`, because the edge cases of the core follow from them. A
Java reference that may be null is an `Option`; a call that may throw returns a
`Result` whose failure is a `Throwable`.

Code the core calls but that is outside it is passed in as functions:
`Builder.Collaborators` (evaluating a Groovy profile, configuring an XML
profile, building and running the load generator) and `ResultAction.TrendIo`
(sending the query and mapping the response, writing the HTTP response).

Two points where the code's behaviour decides the model:

- `doRun` validates nothing at run time. Port, user count and transaction rate
  are only checked by the form checks (the constructor replaces only a rate of
  0 and a running time below 1), so a negative transaction rate or port is
  passed to the load generator unchanged (`Builder.StoredSettingsAgainstChecks`
  shows a negative rate survives the constructor while its form check rejects
  it).
- `doRun` catches nothing: an exception escaping the Groovy evaluation, the
  XML configuration or `loadGenerator.run`, and the `NullPointerException` of
  a recorded path without a response counter, propagate out of it unchanged
  (`RunOutcome.Failed` carries that exception). Only `doResponseTimeTrend`
  catches and logs, and only for sending, mapping and writing.

## Model

| member | source | states |
|---|---|---|
| JavaText.TrimStartIndex | src/main/java/com/webtide/jetty/load/generator/jenkins/LoadGeneratorBuilder.java:404 | the forward scan of `String.trim`: every character it skips is at most U+0020, and it stops at the first one that is not, or at the end |
| JavaText.TrimEndIndex | src/main/java/com/webtide/jetty/load/generator/jenkins/LoadGeneratorBuilder.java:404 | the backward scan of `String.trim`: every character it skips is at most U+0020, and it stops just after the last one that is not, never passing the start index |
| JavaText.Trim | src/main/java/com/webtide/jetty/load/generator/jenkins/LoadGeneratorBuilder.java:404 | `String.trim` is empty exactly when every character is at most U+0020, and otherwise neither end is such a character |
| JavaText.TrimIsSlice | src/main/java/com/webtide/jetty/load/generator/jenkins/LoadGeneratorBuilder.java:404 | the trimmed text is a contiguous slice of the input between a trimmable prefix and a trimmable suffix |
| JavaText.TrimIdempotent | src/main/java/com/webtide/jetty/load/generator/jenkins/LoadGeneratorBuilder.java:404 | trimming twice equals trimming once |
| JavaText.IsWhitespace | src/main/java/com/webtide/jetty/load/generator/jenkins/LoadGeneratorBuilder.java:406 | `Character.isWhitespace`: space, tab, line feed and carriage return are whitespace, the no-break spaces are not, and ASCII whitespace is always dropped by `String.trim` |
| JavaText.IsBlank | src/main/java/com/webtide/jetty/load/generator/jenkins/LoadGeneratorBuilder.java:406 | `StringUtils.isBlank`: null and empty text are blank, and blank text holds only whitespace |
| JavaText.IsNotBlank | src/main/java/com/webtide/jetty/load/generator/jenkins/LoadGeneratorBuilder.java:426 | `StringUtils.isNotBlank`: non-blank text is non-empty and has a character that is not whitespace |
| JavaText.IsNotEmpty | src/main/java/com/webtide/jetty/load/generator/jenkins/result/LoadResultProjectAction.java:109 | `StringUtils.isNotEmpty`: true exactly for text that is neither null nor empty |
| JavaText.TrimKeepsBlank | src/main/java/com/webtide/jetty/load/generator/jenkins/LoadGeneratorBuilder.java:404-406 | trimming before the blank test never turns blank text into non-blank, while a lone U+0000 is non-blank yet trims to blank |
| JavaText.TrimNullable | src/main/java/com/webtide/jetty/load/generator/jenkins/LoadGeneratorBuilder.java:404 | `StringUtils.trim` maps null to null and text to its `String.trim` |
| JavaText.FixEmptyAndTrim | src/main/java/com/webtide/jetty/load/generator/jenkins/LoadGeneratorBuilder.java:124 | `Util.fixEmptyAndTrim` is null exactly when the input is null or all trimmable, and otherwise is the non-empty trimmed text |
| JavaText.FixEmptyAndTrimIdempotent | src/main/java/com/webtide/jetty/load/generator/jenkins/LoadGeneratorBuilder.java:124 | a non-null text is a fixed point of `fixEmptyAndTrim` exactly when it is non-empty and already trimmed; the stored Groovy text is a fixed point of both `fixEmptyAndTrim` and `StringUtils.trim` |
| JavaInt.ParseInt | src/main/java/com/webtide/jetty/load/generator/jenkins/LoadGeneratorBuilder.java:486 | `Integer.parseInt`: null and empty input fail; success means an optional sign followed by digits with that value; digits (signed or not) are accepted exactly when their value is in the `int` range |
| JavaInt.FormatInt | src/main/java/com/webtide/jetty/load/generator/jenkins/LoadGeneratorBuilder.java:486 | `Integer.toString` is non-empty and starts with '-' exactly for negative values |
| JavaInt.ParseFormatRoundTrip | src/main/java/com/webtide/jetty/load/generator/jenkins/LoadGeneratorBuilder.java:486 | `Integer.parseInt` reads back every `int` that `Integer.toString` writes |
| JavaInt.ParseRejectsOverflow | src/main/java/com/webtide/jetty/load/generator/jenkins/LoadGeneratorBuilder.java:486 | a decimal literal above `Integer.MAX_VALUE` throws `NumberFormatException` |
| JavaInt.ParseIgnoresLeadingZeroAndPlus | src/main/java/com/webtide/jetty/load/generator/jenkins/LoadGeneratorBuilder.java:486 | a leading '0' or '+' changes neither whether nor what `Integer.parseInt` reads |
| JavaInt.NanosToMillis | src/main/java/com/webtide/jetty/load/generator/jenkins/LoadGeneratorBuilder.java:362-363 | `NANOSECONDS.toMillis` truncates toward zero: the result times 10^6 lies within one millisecond of the input, on the side of zero |
| JavaInt.NanosToMillisOfNegative | src/main/java/com/webtide/jetty/load/generator/jenkins/LoadGeneratorBuilder.java:362-363 | on negative durations the Java conversion differs from floor division (-1 ns gives 0 ms, -1.5 ms gives -1 ms) |
| Validators.DoCheckPort | src/main/java/com/webtide/jetty/load/generator/jenkins/LoadGeneratorBuilder.java:481-498 | "port must be number" exactly when parsing fails, "port must be a positive number" exactly when the value is below 1, ok exactly otherwise |
| Validators.DoCheckUsers | src/main/java/com/webtide/jetty/load/generator/jenkins/LoadGeneratorBuilder.java:500-517 | the same three-way verdict with the users messages |
| Validators.DoCheckRunningTime | src/main/java/com/webtide/jetty/load/generator/jenkins/LoadGeneratorBuilder.java:519-536 | the same three-way verdict with the running-time messages |
| Validators.DoCheckTransactionRate | src/main/java/com/webtide/jetty/load/generator/jenkins/LoadGeneratorBuilder.java:538-555 | the same verdict with the test `<= 0` and the source's message "transactionRate time must be number" |
| Validators.ChecksAgree | src/main/java/com/webtide/jetty/load/generator/jenkins/LoadGeneratorBuilder.java:481-555 | the four checks accept exactly the same inputs |
| Validators.FormattedPositivePasses | src/main/java/com/webtide/jetty/load/generator/jenkins/LoadGeneratorBuilder.java:481-555 | every positive `int` written in decimal passes all four checks |
| Validators.FormattedNonPositiveRejected | src/main/java/com/webtide/jetty/load/generator/jenkins/LoadGeneratorBuilder.java:481-555 | every non-positive `int` written in decimal gets each check's "positive number" error, not its "number" error |
| Validators.OverflowIsNotANumber | src/main/java/com/webtide/jetty/load/generator/jenkins/LoadGeneratorBuilder.java:481-555 | a number too large for an `int` gets each check's "must be number" error, not its "positive number" error |
| Aggregation.GroupedSnoc | src/main/java/com/webtide/jetty/load/generator/jenkins/LoadGeneratorBuilder.java:354-365 | one more detailed entry appends its converted value to its own path's list (created if absent) and changes no other list |
| Aggregation.GroupedTotal | src/main/java/com/webtide/jetty/load/generator/jenkins/LoadGeneratorBuilder.java:354-365 | the regrouping keeps every entry: the lists together hold as many values as there are entries |
| Aggregation.GroupedNonEmpty | src/main/java/com/webtide/jetty/load/generator/jenkins/LoadGeneratorBuilder.java:356-361 | a path's list is only created when an entry of that path arrives, so no list is empty |
| Aggregation.EntryLandsInItsList | src/main/java/com/webtide/jetty/load/generator/jenkins/LoadGeneratorBuilder.java:354-365 | each entry's converted value sits in its path's list right after the earlier entries of that path |
| Aggregation.GroupByPath | src/main/java/com/webtide/jetty/load/generator/jenkins/LoadGeneratorBuilder.java:352-365 | the get/create/append loop computes the per-path grouping: keys are exactly the paths seen, no list is empty, no entry is lost |
| Aggregation.SummarizePerPath | src/main/java/com/webtide/jetty/load/generator/jenkins/LoadGeneratorBuilder.java:334-347 | in any iteration order, succeeds exactly when every recorded path has a response counter (otherwise `number.get()` throws `NullPointerException`), and then maps each recorded path to the summary of its histogram |
| Builder.DefaultRunningTime | src/main/java/com/webtide/jetty/load/generator/jenkins/LoadGeneratorBuilder.java:129 | the stored running time is at least 1: positive values are kept, the rest become 30 |
| Builder.DefaultTimeUnit | src/main/java/com/webtide/jetty/load/generator/jenkins/LoadGeneratorBuilder.java:130 | a null unit becomes SECONDS, any other is kept |
| Builder.DefaultTransactionRate | src/main/java/com/webtide/jetty/load/generator/jenkins/LoadGeneratorBuilder.java:132 | the stored rate is never 0: 0 becomes 1 and every other value, negative ones included, is kept |
| Builder.ClientTransportFor | src/main/java/com/webtide/jetty/load/generator/jenkins/LoadGeneratorBuilder.java:381-396 | HTTP and HTTPS exactly give the HTTP/1.1 transport, H2 and H2C exactly the HTTP/2 one, FCGI exactly the FastCGI one; a null transport throws `NullPointerException` |
| Builder.ClientTransportTotal | src/main/java/com/webtide/jetty/load/generator/jenkins/LoadGeneratorBuilder.java:383-395 | every transport value is covered, so the `IllegalArgumentException` is unreachable |
| Builder.ChooseProfileSource | src/main/java/com/webtide/jetty/load/generator/jenkins/LoadGeneratorBuilder.java:244-245 | a preset profile exactly when one was set; otherwise the trimmed Groovy text exactly when it is not blank; otherwise the XML path exactly when it is not blank; otherwise none |
| Builder.ResolveResourceProfile | src/main/java/com/webtide/jetty/load/generator/jenkins/LoadGeneratorBuilder.java:398-436 | the preset profile as is, the Groovy or XML evaluation's value or exception, or null when there is no source |
| Builder.LoadGeneratorBuilder.constructor | src/main/java/com/webtide/jetty/load/generator/jenkins/LoadGeneratorBuilder.java:120-135 | the Groovy text is stored through `fixEmptyAndTrim`, running time, unit and rate through their defaults, the rest as given; the stored settings satisfy `Valid` |
| Builder.LoadGeneratorBuilder.AddResponseTimeListener | src/main/java/com/webtide/jetty/load/generator/jenkins/LoadGeneratorBuilder.java:177-180 | the listener is appended after the earlier ones; the profile is unchanged |
| Builder.LoadGeneratorBuilder.SetLoadProfile | src/main/java/com/webtide/jetty/load/generator/jenkins/LoadGeneratorBuilder.java:192-195 | the profile is replaced; the listeners are unchanged |
| Builder.LoadGeneratorBuilder.DoRun | src/main/java/com/webtide/jetty/load/generator/jenkins/LoadGeneratorBuilder.java:240-373 | ABORTED exactly when the resolved profile is null; a generator is configured exactly when there is a profile and a transport, with the user's listeners then the four built-in ones then the debug one, iterations exactly when `runIteration > 0` and otherwise the stored duration, the stored host, port, users and rate, the matching client transport, and a trust-all TLS factory exactly when the protocol is secure; the build action is added exactly when the run succeeds and every recorded path has a counter, holding the per-path summaries, the global summary and the grouped detailed entries; otherwise the run's own exception, the profile evaluation's exception, or the `NullPointerException` of a missing transport or counter is what comes out |
| Builder.StoredSettingsAgainstChecks | src/main/java/com/webtide/jetty/load/generator/jenkins/LoadGeneratorBuilder.java:129-132 | the stored running time always passes its form check; the stored rate passes its check exactly when it is positive |
| Builder.WideSpaceGroovyIsStoredButSkipped | src/main/java/com/webtide/jetty/load/generator/jenkins/LoadGeneratorBuilder.java:124 | a Groovy text of only U+2003 survives `fixEmptyAndTrim` but is blank for `isNotBlank`, so no profile is chosen; one of only U+00A0 also survives and, not being whitespace for `isNotBlank`, is chosen as the Groovy script |
| Builder.StoredBlankStaysBlank | src/main/java/com/webtide/jetty/load/generator/jenkins/LoadGeneratorBuilder.java:404-406 | blank Groovy text is still blank after storing and trimming |
| Builder.BlankProfilesAbort | src/main/java/com/webtide/jetty/load/generator/jenkins/LoadGeneratorBuilder.java:244-253 | a build step whose Groovy and XML texts are blank and that has no preset profile is ABORTED and configures no generator |
| Builder.PresetProfileRunsIterations | src/main/java/com/webtide/jetty/load/generator/jenkins/LoadGeneratorBuilder.java:263-319 | with a preset profile and positive iterations, the generator runs by iterations with the user's listener first among five |
| ResultAction.ResultIdOf | src/main/java/com/webtide/jetty/load/generator/jenkins/result/LoadResultProjectAction.java:107-112 | a build contributes an id exactly when it has the action and its id is neither null nor empty, and then that id |
| ResultAction.ResultIds | src/main/java/com/webtide/jetty/load/generator/jenkins/result/LoadResultProjectAction.java:105-113 | at most one id per build, and no id is empty |
| ResultAction.ResultIdsAppend | src/main/java/com/webtide/jetty/load/generator/jenkins/result/LoadResultProjectAction.java:105-113 | ids are collected in build order |
| ResultAction.ResultIdsMembership | src/main/java/com/webtide/jetty/load/generator/jenkins/result/LoadResultProjectAction.java:105-113 | an id is collected exactly when some build contributes it |
| ResultAction.ResultIdsCount | src/main/java/com/webtide/jetty/load/generator/jenkins/result/LoadResultProjectAction.java:105-113 | there are exactly as many ids as builds that contribute one |
| ResultAction.JsonToStringsOfStrings | src/main/java/com/webtide/jetty/load/generator/jenkins/result/LoadResultProjectAction.java:127-128 | the id strings are read back unchanged from the JSON array they are written to |
| ResultAction.QueriedIdsDetermineDocument | src/main/java/com/webtide/jetty/load/generator/jenkins/result/LoadResultProjectAction.java:115-132 | a query document of the ids shape is determined by the ids it carries |
| ResultAction.ToRunInformations | src/main/java/com/webtide/jetty/load/generator/jenkins/result/LoadResultProjectAction.java:147-151 | one run information per load result, in order, with the result's uuid and collector informations |
| ResultAction.ToRunInformationsAppend | src/main/java/com/webtide/jetty/load/generator/jenkins/result/LoadResultProjectAction.java:147-151 | the mapping commutes with concatenation |
| ResultAction.LoadResultProjectAction.constructor | src/main/java/com/webtide/jetty/load/generator/jenkins/result/LoadResultProjectAction.java:63-68 | null builds become the empty list; the run and host name are stored as given |
| ResultAction.LoadResultProjectAction.UrlName | src/main/java/com/webtide/jetty/load/generator/jenkins/result/LoadResultProjectAction.java:89-93 | the URL name is the constant "loadtestresult" |
| ResultAction.LoadResultProjectAction.SearchUrl | src/main/java/com/webtide/jetty/load/generator/jenkins/result/LoadResultProjectAction.java:171-175 | the search URL is the URL name, "loadtestresult" |
| ResultAction.LoadResultProjectAction.CollectResultIds | src/main/java/com/webtide/jetty/load/generator/jenkins/result/LoadResultProjectAction.java:105-113 | the `forEach` loop collects exactly the ids the builds contribute, in order |
| ResultAction.LoadResultProjectAction.BuildIdsQuery | src/main/java/com/webtide/jetty/load/generator/jenkins/result/LoadResultProjectAction.java:124-132 | the three nested map insertions give the `query.ids.values` document carrying exactly the given ids |
| ResultAction.LoadResultProjectAction.DoResponseTimeTrend | src/main/java/com/webtide/jetty/load/generator/jenkins/result/LoadResultProjectAction.java:96-163 | the query sent carries exactly the builds' ids; a failing send or mapping is logged; otherwise the mapped run informations are written, or the write failure is logged |

## Left out

- The load generator itself, its listeners' internals and HdrHistogram: a run is the function `Collaborators.runLoadGenerator`, which also covers `LoadGenerator.Builder.build()`; histograms and `CollectorInformations` are opaque handles.
- Groovy evaluation (compiler configuration, star import) and `XmlConfiguration` over the workspace file: the functions `evaluateGroovy` and `configureXml`, which may return null or throw.
- `SslContextFactory`: only whether the trust-all factory is configured.
- Jenkins glue: `perform` and its wrapping of exceptions, `run.setResult` and `run.addAction` (represented by `RunOutcome`), the console and debug log messages, the constant `HealthReport`, `getProjectAction`, the getters, the `DescriptorImpl` display name, applicability and transport/time-unit lists, `getIconFileName`, `getDisplayName`, and the empty `doTrend`/`doTitles`.
- `SummaryReport` is modelled as the same per-path map as `perPath`, since `doRun` adds the same summaries to both.
- `Aggregation.SummarizePerPath`: the mean computed for the debug message (`Math.round(histogram.getMean())`) is not modelled; only the `number.get()` dereference that can throw is.
- `Builder.LoadGeneratorBuilder.AddResponseTimeListener`: the source appends to the private `ArrayList` field in place, and that list, like the copy `doRun` makes with `addAll`, holds shared references to the listener objects; the model keeps the list as a value of listener values, so the identity and later mutation of a shared listener are not captured. Likewise the per-path list that `doRun` stores in the map before appending to it is modelled as a value updated in the map.
- `ElasticHost.get` and `ElasticHost.buildElasticResultStore` are not part of this model, nor is the Jackson serialisation of the query to text; their exceptions, raised outside the `try`, are not modelled. The HTTP request (host, port, scheme, GET on `/loadresult/result/_search`) and `ElasticResultStore.map` are the single function `TrendIo.search`; writing the response is `TrendIo.writeResponse`, with partial writes not modelled.
- `JavaInt.ParseInt`: accepts only ASCII decimal digits; Java also accepts the other Unicode decimal digits.
- `JavaText.IsWhitespace`: follows current Unicode; older Java releases also count U+180E as whitespace. Dafny `char` is a Unicode scalar value, whereas Java's is a UTF-16 code unit, so surrogate pairs are not distinguished.
- `LoadGeneratorBuilderStep` (the pipeline step) and the test sources are outside this model.
