/** The Jenkins build step `LoadGeneratorBuilder`: the defaults its constructor
    applies, the choice of the client transport, the precedence between the
    resource-profile sources, and `doRun`, which aborts without a profile and
    otherwise hands a load plan to the load generator and gathers its results. */
module Builder {
  import opened Wrappers
  import opened JavaInt
  import opened JavaText
  import opened JavaExceptions
  import opened Aggregation
  import opened Validators

  /** `java.util.concurrent.TimeUnit`. */
  datatype TimeUnit = NANOSECONDS | MICROSECONDS | MILLISECONDS | SECONDS | MINUTES | HOURS | DAYS

  /** `LoadGenerator.Transport`. */
  datatype Transport = HTTP | HTTPS | H2 | H2C | FCGI

  /** The `HttpClientTransport` built by `HttpTransportBuilder`,
      `Http2TransportBuilder` or `HttpFCGITransportBuilder`. */
  datatype ClientTransport = HttpClientTransport | Http2ClientTransport | FcgiClientTransport

  /** A resource profile: the request mix to generate; its contents are not modelled. */
  datatype ResourceProfile = ResourceProfile(handle: nat)

  /** The response-time listeners handed to the load generator: those the user
      added, the four built-in ones of `doRun`, and the debug-logging one. */
  datatype ResponseTimeListener =
    | UserListener(handle: nat)
    | ResponseTimePerPathListener
    | ResponseNumberPerPath
    | GlobalSummaryReportListener
    | DetailledResponseTimeReportListener
    | DebugLoggingListener

  /** How the load generator is told to stop: `run(iterations)` or `run(time, unit)`. */
  datatype StopMode = Iterations(count: int32) | Duration(time: int32, unit: TimeUnit)

  /** What `doRun` configures on `LoadGenerator.Builder` and how it then runs it. */
  datatype LoadPlan = LoadPlan(
    host: Option<string>,
    port: int32,
    users: int32,
    transactionRate: int32,
    transport: Transport,
    clientTransport: ClientTransport,
    profile: ResourceProfile,
    listeners: seq<ResponseTimeListener>,
    trustAllSslContextFactory: bool,
    stop: StopMode)

  /** The state of the built-in listeners once the load generator has stopped:
      the per-path interval histograms, the per-path response counters, the
      global histogram and the detailed entries. */
  datatype ListenerResults = ListenerResults(
    recorderPerPath: map<string, Histogram>,
    responseNumberPerPath: map<string, int32>,
    globalHistogram: Histogram,
    detailedEntries: seq<DetailedEntry>)

  /** The `LoadGeneratorBuildAction` added to the run (its health report is a
      constant and not modelled). */
  datatype LoadGeneratorBuildAction = LoadGeneratorBuildAction(
    summaryReport: map<string, CollectorInformations>,
    globalCollectorInformations: CollectorInformations,
    perPath: map<string, CollectorInformations>,
    allResponseInfoTimePerPath: map<string, seq<ResponseTimeInfo>>)

  /** How `doRun` ends: the run result set to ABORTED, an exception, or the build
      action added to the run. */
  datatype RunOutcome = Aborted | Failed(error: Throwable) | Completed(action: LoadGeneratorBuildAction)

  /** The code `doRun` calls but that is not modelled: evaluating a Groovy
      profile, reading and configuring an XML profile from the workspace, and
      building the load generator from a plan and running it until its stop
      condition. Each may throw, and a profile may evaluate to null. */
  datatype Collaborators = Collaborators(
    evaluateGroovy: string -> Result<Option<ResourceProfile>, Throwable>,
    configureXml: string -> Result<Option<ResourceProfile>, Throwable>,
    runLoadGenerator: LoadPlan -> Result<ListenerResults, Throwable>)

  /** The constructor's running time: values below 1 become 30 (in the configured unit). */
  function DefaultRunningTime(runningTime: int32): (r: int32)
    ensures r >= 1
    ensures runningTime >= 1 ==> r == runningTime
    ensures runningTime < 1 ==> r == 30
  {
    if runningTime < 1 then 30 else runningTime
  }

  /** The constructor's time unit: a null unit becomes SECONDS. */
  function DefaultTimeUnit(unit: Option<TimeUnit>): (r: TimeUnit)
    ensures unit.Some? ==> r == unit.value
    ensures unit.None? ==> r == SECONDS
  {
    match unit
    case None => SECONDS
    case Some(u) => u
  }

  /** The constructor's transaction rate: only 0 is replaced, by 1; negative
      rates are kept. */
  function DefaultTransactionRate(rate: int32): (r: int32)
    ensures r != 0
    ensures rate != 0 ==> r == rate
    ensures rate == 0 ==> r == 1
  {
    if rate == 0 then 1 else rate
  }

  /** `httpClientTransport()`: a switch over the transport. A null transport
      makes the switch throw `NullPointerException`; the five enum values are all
      covered, so the trailing `IllegalArgumentException` cannot be thrown. */
  function ClientTransportFor(transport: Option<Transport>): (r: Result<ClientTransport, Throwable>)
    ensures r.Failure? <==> transport.None?
    ensures r.Failure? ==> r.error == NullPointerException("transport")
    ensures r.Success? ==> (r.value == HttpClientTransport <==> transport.value == HTTP || transport.value == HTTPS)
    ensures r.Success? ==> (r.value == Http2ClientTransport <==> transport.value == H2 || transport.value == H2C)
    ensures r.Success? ==> (r.value == FcgiClientTransport <==> transport.value == FCGI)
  {
    match transport
    case None => Failure(NullPointerException("transport"))
    case Some(HTTP) => Success(HttpClientTransport)
    case Some(HTTPS) => Success(HttpClientTransport)
    case Some(H2) => Success(Http2ClientTransport)
    case Some(H2C) => Success(Http2ClientTransport)
    case Some(FCGI) => Success(FcgiClientTransport)
  }

  /** Where the resource profile comes from. */
  datatype ProfileSource =
    | PresetProfile(profile: ResourceProfile)
    | GroovyScript(script: string)
    | XmlFile(path: string)
    | NoProfile

  /** The precedence of `doRun` and `loadResourceProfile`: a profile set with
      `setLoadProfile` wins; otherwise the trimmed Groovy text if it is not blank;
      otherwise the XML path if it is not blank; otherwise there is none. */
  function ChooseProfileSource(loadProfile: Option<ResourceProfile>, profileGroovy: Option<string>,
                               profileXmlFromFile: Option<string>): (r: ProfileSource)
    ensures r.PresetProfile? <==> loadProfile.Some?
    ensures r.PresetProfile? ==> r.profile == loadProfile.value
    ensures r.GroovyScript? <==> loadProfile.None? && IsNotBlank(TrimNullable(profileGroovy))
    ensures r.GroovyScript? ==> profileGroovy.Some? && r.script == Trim(profileGroovy.value)
    ensures r.XmlFile? <==> loadProfile.None? && IsBlank(TrimNullable(profileGroovy)) && IsNotBlank(profileXmlFromFile)
    ensures r.XmlFile? ==> profileXmlFromFile.Some? && r.path == profileXmlFromFile.value
    ensures r.NoProfile? <==> loadProfile.None? && IsBlank(TrimNullable(profileGroovy)) && IsBlank(profileXmlFromFile)
  {
    if loadProfile.Some? then PresetProfile(loadProfile.value)
    else
      var groovy := TrimNullable(profileGroovy);
      if IsNotBlank(groovy) then GroovyScript(groovy.value)
      else if IsNotBlank(profileXmlFromFile) then XmlFile(profileXmlFromFile.value)
      else NoProfile
  }

  /** The profile `doRun` ends up with: the preset one, the value the Groovy
      script or the XML configuration produces (possibly null, possibly an
      exception), or null. */
  function ResolveResourceProfile(source: ProfileSource, env: Collaborators): (r: Result<Option<ResourceProfile>, Throwable>)
    ensures source.PresetProfile? ==> r == Success(Some(source.profile))
    ensures source.NoProfile? ==> r == Success(None)
    ensures source.GroovyScript? ==> r == env.evaluateGroovy(source.script)
    ensures source.XmlFile? ==> r == env.configureXml(source.path)
  {
    match source
    case PresetProfile(p) => Success(Some(p))
    case GroovyScript(script) => env.evaluateGroovy(script)
    case XmlFile(path) => env.configureXml(path)
    case NoProfile => Success(None)
  }

  /** The built-in listeners `doRun` appends after the user's, in this order. */
  const BUILT_IN_LISTENERS: seq<ResponseTimeListener> :=
    [ResponseTimePerPathListener, ResponseNumberPerPath, GlobalSummaryReportListener, DetailledResponseTimeReportListener]

  class LoadGeneratorBuilder {
    const profileGroovy: Option<string>
    const host: Option<string>
    const port: int32
    const users: int32
    const profileXmlFromFile: Option<string>
    const runningTime: int32
    const runningTimeUnit: TimeUnit
    const runIteration: int32
    const transactionRate: int32
    var responseTimeListeners: seq<ResponseTimeListener>
    var loadProfile: Option<ResourceProfile>
    const transport: Option<Transport>
    const secureProtocol: bool

    /** What the constructor guarantees of the stored settings. */
    ghost predicate Valid() {
      && runningTime >= 1
      && transactionRate != 0
      && FixEmptyAndTrim(profileGroovy) == profileGroovy
    }

    constructor (profileGroovy: Option<string>, host: Option<string>, port: int32, users: int32,
                 profileXmlFromFile: Option<string>, runningTime: int32, runningTimeUnit: Option<TimeUnit>,
                 runIteration: int32, transactionRate: int32, transport: Option<Transport>, secureProtocol: bool)
      ensures this.profileGroovy == FixEmptyAndTrim(profileGroovy)
      ensures this.host == host && this.port == port && this.users == users
      ensures this.profileXmlFromFile == profileXmlFromFile
      ensures this.runningTime == DefaultRunningTime(runningTime)
      ensures this.runningTimeUnit == DefaultTimeUnit(runningTimeUnit)
      ensures this.runIteration == runIteration
      ensures this.transactionRate == DefaultTransactionRate(transactionRate)
      ensures this.transport == transport && this.secureProtocol == secureProtocol
      ensures this.responseTimeListeners == [] && this.loadProfile == None
      ensures Valid()
    {
      this.profileGroovy := FixEmptyAndTrim(profileGroovy);
      this.host := host;
      this.port := port;
      this.users := users;
      this.profileXmlFromFile := profileXmlFromFile;
      this.runningTime := DefaultRunningTime(runningTime);
      this.runningTimeUnit := DefaultTimeUnit(runningTimeUnit);
      this.runIteration := runIteration;
      this.transactionRate := DefaultTransactionRate(transactionRate);
      this.transport := transport;
      this.secureProtocol := secureProtocol;
      this.responseTimeListeners := [];
      this.loadProfile := None;
      new;
      FixEmptyAndTrimIdempotent(profileGroovy);
    }

    method AddResponseTimeListener(listener: ResponseTimeListener)
      modifies this
      ensures responseTimeListeners == old(responseTimeListeners) + [listener]
      ensures loadProfile == old(loadProfile)
    {
      responseTimeListeners := responseTimeListeners + [listener];
    }

    method SetLoadProfile(profile: Option<ResourceProfile>)
      modifies this
      ensures loadProfile == profile
      ensures responseTimeListeners == old(responseTimeListeners)
    {
      loadProfile := profile;
    }

    /** The profile source of this builder, by the precedence of `doRun`. */
    function ProfileSourceOf(): ProfileSource
      reads this
    {
      ChooseProfileSource(loadProfile, profileGroovy, profileXmlFromFile)
    }

    /** `doRun`. Without a profile the run is ABORTED and no load generator is
        built. Otherwise the listeners are the user's in insertion order, then the
        four built-in ones, then the debug one when debug logging is on; the
        generator runs for `runIteration` iterations when that is positive and for
        `runningTime` `runningTimeUnit` otherwise. `plan` is what the generator
        was given, if it was built. */
    method DoRun(debugEnabled: bool, env: Collaborators) returns (outcome: RunOutcome, plan: Option<LoadPlan>)
      requires Valid()
      ensures var resolved := ResolveResourceProfile(ProfileSourceOf(), env);
              && (outcome.Aborted? <==> resolved == Success(None))
              && (resolved.Failure? ==> outcome == Failed(resolved.error))
              && (plan.Some? <==> resolved.Success? && resolved.value.Some? && transport.Some?)
              && (plan.Some? ==> plan.value.profile == resolved.value.value)
      ensures ProfileSourceOf().NoProfile? ==> outcome == Aborted && plan.None?
      ensures plan.Some? ==>
                && plan.value.listeners == responseTimeListeners + BUILT_IN_LISTENERS
                                           + (if debugEnabled then [DebugLoggingListener] else [])
                && (plan.value.stop.Iterations? <==> runIteration > 0)
                && (plan.value.stop.Iterations? ==> plan.value.stop.count == runIteration)
                && (plan.value.stop.Duration? ==>
                      plan.value.stop.time == runningTime && plan.value.stop.time >= 1
                      && plan.value.stop.unit == runningTimeUnit)
                && plan.value.transactionRate == transactionRate && plan.value.transactionRate != 0
                && plan.value.host == host && plan.value.port == port && plan.value.users == users
                && Some(plan.value.transport) == transport
                && Success(plan.value.clientTransport) == ClientTransportFor(transport)
                && plan.value.trustAllSslContextFactory == secureProtocol
      ensures outcome.Completed? <==>
                && plan.Some?
                && env.runLoadGenerator(plan.value).Success?
                && env.runLoadGenerator(plan.value).value.recorderPerPath.Keys
                     <= env.runLoadGenerator(plan.value).value.responseNumberPerPath.Keys
      ensures outcome.Completed? ==>
                var results := env.runLoadGenerator(plan.value).value;
                var action := outcome.action;
                && action.perPath.Keys == results.recorderPerPath.Keys
                && (forall p :: p in action.perPath ==>
                      action.perPath[p] == CollectorInformations(results.recorderPerPath[p]))
                && action.summaryReport == action.perPath
                && action.globalCollectorInformations == CollectorInformations(results.globalHistogram)
                && action.allResponseInfoTimePerPath == Grouped(results.detailedEntries)
                && TotalSize(action.allResponseInfoTimePerPath) == |results.detailedEntries|
      ensures plan.Some? && env.runLoadGenerator(plan.value).Failure? ==>
                outcome == Failed(env.runLoadGenerator(plan.value).error)
      ensures plan.Some? && env.runLoadGenerator(plan.value).Success?
                && !(env.runLoadGenerator(plan.value).value.recorderPerPath.Keys
                       <= env.runLoadGenerator(plan.value).value.responseNumberPerPath.Keys) ==>
                outcome == Failed(NullPointerException("responseNumberPerPath"))
      ensures transport.None? && ResolveResourceProfile(ProfileSourceOf(), env).Success?
                && ResolveResourceProfile(ProfileSourceOf(), env).value.Some? ==>
                outcome == Failed(NullPointerException("transport"))
    {
      plan := None;
      var resolved := ResolveResourceProfile(ProfileSourceOf(), env);
      if resolved.Failure? {
        return Failed(resolved.error), plan;
      }
      if resolved.value.None? {
        // "resource profile must be set, Build ABORTED"
        return Aborted, plan;
      }
      var profile := resolved.value.value;

      var listeners: seq<ResponseTimeListener> := [];
      listeners := listeners + responseTimeListeners;
      listeners := listeners + [ResponseTimePerPathListener];
      listeners := listeners + [ResponseNumberPerPath];
      listeners := listeners + [GlobalSummaryReportListener];
      listeners := listeners + [DetailledResponseTimeReportListener];
      if debugEnabled {
        listeners := listeners + [DebugLoggingListener];
      }

      var clientTransport := ClientTransportFor(transport);
      if clientTransport.Failure? {
        return Failed(clientTransport.error), plan;
      }
      var stop := if runIteration > 0 then Iterations(runIteration) else Duration(runningTime, runningTimeUnit);
      var built := LoadPlan(host, port, users, transactionRate, transport.value, clientTransport.value,
                            profile, listeners, secureProtocol, stop);
      plan := Some(built);

      var run := env.runLoadGenerator(built);
      if run.Failure? {
        return Failed(run.error), plan;
      }
      var results := run.value;

      var perPath := SummarizePerPath(results.recorderPerPath, results.responseNumberPerPath);
      if perPath.Failure? {
        return Failed(perPath.error), plan;
      }
      var allResponseInfoTimePerPath := GroupByPath(results.detailedEntries);
      var action := LoadGeneratorBuildAction(perPath.value, CollectorInformations(results.globalHistogram),
                                             perPath.value, allResponseInfoTimePerPath);
      return Completed(action), plan;
    }
  }

  /** A builder's stored running time always passes the running-time form check,
      while a negative transaction rate survives the constructor although the
      transaction-rate form check rejects it. */
  lemma StoredSettingsAgainstChecks(b: LoadGeneratorBuilder)
    requires b.Valid()
    ensures DoCheckRunningTime(Some(FormatInt(b.runningTime))) == FormOk
    ensures DoCheckTransactionRate(Some(FormatInt(b.transactionRate))) == FormOk <==> b.transactionRate > 0
  {
    FormattedPositivePasses(b.runningTime);
    if b.transactionRate > 0 {
      FormattedPositivePasses(b.transactionRate);
    } else {
      FormattedNonPositiveRejected(b.transactionRate);
    }
  }

  /** The mapping of transports is total: every transport value yields a client
      transport. */
  lemma ClientTransportTotal(t: Transport)
    ensures ClientTransportFor(Some(t)).Success?
  {
  }

  /** The em space U+2003, a space above U+0020 that `Character.isWhitespace`
      accepts, survives `fixEmptyAndTrim` yet counts as blank, so a Groovy
      profile made of it is stored but never used. The no-break space U+00A0
      also survives, but `Character.isWhitespace` rejects it, so a profile made
      of it is handed to Groovy. */
  lemma WideSpaceGroovyIsStoredButSkipped()
    ensures FixEmptyAndTrim(Some("\U{2003}")) == Some("\U{2003}")
    ensures ChooseProfileSource(None, FixEmptyAndTrim(Some("\U{2003}")), None) == NoProfile
    ensures FixEmptyAndTrim(Some("\U{A0}")) == Some("\U{A0}")
    ensures ChooseProfileSource(None, FixEmptyAndTrim(Some("\U{A0}")), None) == GroovyScript("\U{A0}")
  {
    var w: string := "\U{2003}";
    assert |w| == 1 && !IsTrimmable(w[0]) && IsWhitespace(w[0]);
    assert TrimStartIndex(w, 0) == 0 && TrimEndIndex(w, 0, 1) == 1;
    assert Trim(w) == w;
    var n: string := "\U{A0}";
    assert |n| == 1 && !IsTrimmable(n[0]) && !IsWhitespace(n[0]);
    assert TrimStartIndex(n, 0) == 0 && TrimEndIndex(n, 0, 1) == 1;
    assert Trim(n) == n;
  }

  /** Blank text stays blank once stored by the constructor and trimmed again. */
  lemma StoredBlankStaysBlank(s: Option<string>)
    requires IsBlank(s)
    ensures IsBlank(TrimNullable(FixEmptyAndTrim(s)))
  {
    TrimKeepsBlank(s);
    TrimKeepsBlank(FixEmptyAndTrim(s));
  }

  /** A build step configured with blank profile texts and no preset profile is
      ABORTED and never builds a load generator, whatever its other settings. */
  method BlankProfilesAbort(groovy: Option<string>, xml: Option<string>, host: Option<string>, port: int32,
                            users: int32, runningTime: int32, unit: Option<TimeUnit>, iterations: int32,
                            rate: int32, transport: Option<Transport>, secure: bool, listener: ResponseTimeListener,
                            debugEnabled: bool, env: Collaborators)
    returns (outcome: RunOutcome, plan: Option<LoadPlan>)
    requires IsBlank(groovy) && IsBlank(xml)
    ensures outcome == Aborted && plan.None?
  {
    var b := new LoadGeneratorBuilder(groovy, host, port, users, xml, runningTime, unit, iterations, rate,
                                      transport, secure);
    b.AddResponseTimeListener(listener);
    StoredBlankStaysBlank(groovy);
    outcome, plan := b.DoRun(debugEnabled, env);
  }

  /** A build step with a preset profile and a positive iteration count runs by
      iterations, with the user's listener first. */
  method PresetProfileRunsIterations(profile: ResourceProfile, listener: ResponseTimeListener, iterations: int32,
                                     transport: Transport, env: Collaborators)
    returns (outcome: RunOutcome, plan: Option<LoadPlan>)
    requires iterations > 0
    ensures plan.Some? && plan.value.stop == Iterations(iterations) && plan.value.profile == profile
    ensures |plan.value.listeners| == 5 && plan.value.listeners[0] == listener
    ensures !outcome.Aborted?
  {
    var b := new LoadGeneratorBuilder(None, Some("localhost"), 8080, 1, None, 0, None, iterations, 0,
                                      Some(transport), false);
    b.AddResponseTimeListener(listener);
    b.SetLoadProfile(Some(profile));
    outcome, plan := b.DoRun(false, env);
  }
}
