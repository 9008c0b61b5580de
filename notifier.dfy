/** The notifier: whether a build event is reported, what the event holds, and
    how it is handed to the transport.

    The transport (executePost) and the JSON serialiser are parameters: the
    transport maps a request to the response text or null and never throws;
    the serialiser maps the list of events to a body or to the message of the
    exception it throws. The random event id and the timestamp are parameters
    too. */
module EventGridNotifier {
  import opened Wrappers
  import opened Jenkins
  import Strings
  import Utils

  /** The publisher's configuration. A null subject template is the same as
      an empty one here. */
  datatype Config = Config(
    topicEndpoint: string,
    topicKey: string,
    subjectTemplate: string,
    messageTemplate: string,
    sendNotificationOnStart: bool,
    notifyOnEveryBuild: bool)

  /** The longest default subject. */
  const SubjectLength := 100
  /** The event type every envelope carries. */
  const EventType := "recordInserted"
  /** The header that carries the topic key. */
  const KeyHeader := "aeg-sas-key"

  /** The event payload; EmptyData is a payload nothing was set on. */
  datatype MessageData =
    | EmptyData
    | MessageData(buildPhase: string, artifactsPaths: string, buildResult: string,
                  buildDuration: string, customMessage: string)

  /** The event envelope. */
  datatype Envelope = Envelope(id: string, eventType: string, subject: string, eventTime: string, data: MessageData)

  /** What is handed to the transport. */
  datatype Request = Request(url: string, headers: map<string, string>, body: string)

  /** What one notification attempt amounts to. Published records the list of
      events that was serialised, the request, the transport's answer (null
      included) and the line written to the build log; Failed records the
      error line written when serialisation throws. */
  datatype Outcome =
    | NotSent
    | Published(messages: seq<Envelope>, request: Request, response: Option<string>, logLine: string)
    | Failed(errorLine: string)

  // ---------------------------------------------------------------------------
  // The previous build and the completion gate
  // ---------------------------------------------------------------------------

  /** Results the backward walk passes over. */
  predicate Skipped(b: PastBuild)
  {
    b.result == Some(ABORTED) || b.result == Some(NOT_BUILT)
  }

  /** The result findPreviousBuildResult arrives at. */
  function PreviousResult(chain: seq<PastBuild>): Option<BuildResult>
    decreases |chain|
  {
    if |chain| == 0 || chain[0].building then None
    else if Skipped(chain[0]) then PreviousResult(chain[1..])
    else chain[0].result
  }

  /** The walk gets past the first `k` earlier builds: each is finished and
      was aborted or not built. */
  predicate WalkPasses(chain: seq<PastBuild>, k: nat)
  {
    k <= |chain| && forall j :: 0 <= j < k ==> !chain[j].building && Skipped(chain[j])
  }

  /** findPreviousBuildResult: the do-while over getPreviousBuild(). */
  method FindPreviousBuildResult(previous: seq<PastBuild>) returns (r: Option<BuildResult>)
    ensures r == PreviousResult(previous)
  {
    var k := 0;
    while true
      invariant k <= |previous|
      invariant PreviousResult(previous[k..]) == PreviousResult(previous)
      decreases |previous| - k
    {
      if k == |previous| || previous[k].building {
        return None;
      }
      if !Skipped(previous[k]) {
        return previous[k].result;
      }
      assert previous[k..][1..] == previous[k + 1..];
      k := k + 1;
    }
  }

  /** The walk stops at the first earlier build that is running or was neither
      aborted nor not built, and yields that build's result, or null when it
      is running or the chain ends first. Older builds never matter. */
  lemma {:induction false} PreviousResultIsFirstQualifying(chain: seq<PastBuild>)
    ensures forall k: nat :: WalkPasses(chain, k) && (k == |chain| || chain[k].building) ==> PreviousResult(chain).None?
    ensures forall k: nat :: WalkPasses(chain, k) && k < |chain| && !chain[k].building && !Skipped(chain[k])
              ==> PreviousResult(chain) == chain[k].result
    ensures PreviousResult(chain) != Some(ABORTED) && PreviousResult(chain) != Some(NOT_BUILT)
    decreases |chain|
  {
    if |chain| > 0 {
      var rest := chain[1..];
      PreviousResultIsFirstQualifying(rest);
      forall k: nat | WalkPasses(chain, k) && k > 0
        ensures PreviousResult(chain) == PreviousResult(rest)
        ensures WalkPasses(rest, k - 1)
        ensures k < |chain| ==> rest[k - 1] == chain[k]
      {
        assert forall j :: 0 <= j < k - 1 ==> rest[j] == chain[j + 1];
      }
    }
  }

  /** Examples of the walk. */
  lemma PreviousResultExamples()
    ensures PreviousResult([PastBuild(Some(ABORTED), false), PastBuild(Some(FAILURE), false)]) == Some(FAILURE)
    ensures PreviousResult([PastBuild(Some(NOT_BUILT), false), PastBuild(None, true), PastBuild(Some(SUCCESS), false)]).None?
    ensures PreviousResult([]).None?
  {
  }

  /** isPreviousBuildSuccess. */
  method IsPreviousBuildSuccess(build: Build) returns (b: bool)
    ensures b <==> build.info.result == Some(SUCCESS) && PreviousResult(build.info.previous) == Some(SUCCESS)
  {
    b := false;
    if build.info.result == Some(SUCCESS) {
      var previous := FindPreviousBuildResult(build.info.previous);
      b := previous == Some(SUCCESS);
    }
  }

  /** onCompleted's condition, as written. */
  predicate NotifyOnCompleted(config: Config, info: BuildInfo)
  {
    var previousBuildSuccessful := info.result == Some(SUCCESS) && PreviousResult(info.previous) == Some(SUCCESS);
    config.notifyOnEveryBuild || (!config.notifyOnEveryBuild && !previousBuildSuccessful)
  }

  /** Where the backward walk stops. */
  function StopIndex(chain: seq<PastBuild>): (k: nat)
    ensures WalkPasses(chain, k)
    ensures k == |chain| || chain[k].building || !Skipped(chain[k])
    decreases |chain|
  {
    if |chain| == 0 || chain[0].building || !Skipped(chain[0]) then 0
    else
      var k := StopIndex(chain[1..]);
      assert forall j :: 1 <= j < k + 1 ==> chain[j] == chain[1..][j - 1];
      k + 1
  }

  /** Unless every build is reported, a completed build is reported exactly
      when it is not the case that it succeeded and so did the nearest earlier
      build that is finished and was neither aborted nor not built. With no
      such earlier build the notification is sent. */
  lemma CompletedGate(config: Config, info: BuildInfo)
    ensures config.notifyOnEveryBuild ==> NotifyOnCompleted(config, info)
    ensures !config.notifyOnEveryBuild ==>
      (!NotifyOnCompleted(config, info) <==>
        info.result == Some(SUCCESS) &&
        exists k: nat :: WalkPasses(info.previous, k) && k < |info.previous| && !info.previous[k].building
                    && info.previous[k].result == Some(SUCCESS))
  {
    PreviousResultIsFirstQualifying(info.previous);
    var chain := info.previous;
    if !config.notifyOnEveryBuild && !NotifyOnCompleted(config, info) {
      var k := StopIndex(chain);
      assert k < |chain| && !chain[k].building && chain[k].result == Some(SUCCESS);
    }
  }

  /** The gate when the previous build succeeded, when it failed, when there
      is none, and when an ABORTED build lies in between. */
  lemma CompletedGateExamples(config: Config, info: BuildInfo)
    requires !config.notifyOnEveryBuild && info.result == Some(SUCCESS)
    ensures info.previous == [PastBuild(Some(SUCCESS), false)] ==> !NotifyOnCompleted(config, info)
    ensures info.previous == [PastBuild(Some(FAILURE), false)] ==> NotifyOnCompleted(config, info)
    ensures info.previous == [] ==> NotifyOnCompleted(config, info)
    ensures info.previous == [PastBuild(Some(ABORTED), false), PastBuild(Some(SUCCESS), false)] ==> !NotifyOnCompleted(config, info)
  {
    var c := [PastBuild(Some(ABORTED), false), PastBuild(Some(SUCCESS), false)];
    assert c[1..] == [PastBuild(Some(SUCCESS), false)];
  }

  // ---------------------------------------------------------------------------
  // Subject and payload
  // ---------------------------------------------------------------------------

  /** truncate: a character-count cut, no ellipsis. */
  function Truncate(s: string, toLength: nat): (r: string)
    ensures |r| == if |s| <= toLength then |s| else toLength
    ensures r <= s
  {
    if |s| > toLength then s[..toLength] else s
  }

  /** "STARTED" in the start phase, otherwise the result's name. */
  function PhaseString(phase: BuildPhase, result: BuildResult): string
  {
    if phase == STARTED then "STARTED" else ResultName(result)
  }

  /** The subject used when no subject template is configured. */
  function DefaultSubject(phase: BuildPhase, result: BuildResult, fullDisplayName: string): (r: string)
    ensures |r| <= SubjectLength
    ensures |"Build " + PhaseString(phase, result) + ": " + fullDisplayName| > SubjectLength ==> |r| == SubjectLength
    ensures r <= "Build " + PhaseString(phase, result) + ": " + fullDisplayName
    ensures "Build " + PhaseString(phase, result) + ": " <= r
    ensures |"Build " + PhaseString(phase, result) + ": " + fullDisplayName| <= SubjectLength
            ==> r == "Build " + PhaseString(phase, result) + ": " + fullDisplayName
  {
    var full := "Build " + PhaseString(phase, result) + ": " + fullDisplayName;
    assert full == ("Build " + PhaseString(phase, result) + ": ") + fullDisplayName;
    Truncate(full, SubjectLength)
  }

  /** The subject: the default one, or the filled subject template, which is
      not truncated. */
  function Subject(config: Config, phase: BuildPhase, result: BuildResult, fullDisplayName: string,
                   process: Env, environment: Option<Env>): string
  {
    if config.subjectTemplate == "" then DefaultSubject(phase, result, fullDisplayName)
    else Utils.Filled(config.subjectTemplate, process, environment)
  }

  /** The display path of every artifact, in order. */
  function DisplayPaths(artifacts: seq<Artifact>): (paths: seq<string>)
    ensures |paths| == |artifacts|
    ensures forall k :: 0 <= k < |artifacts| ==> paths[k] == artifacts[k].displayPath
  {
    seq(|artifacts|, k requires 0 <= k < |artifacts| => artifacts[k].displayPath)
  }

  /** artifactPaths: collect the display paths, then join them with "\n". */
  method ArtifactPaths(artifacts: seq<Artifact>) returns (joined: string)
    ensures joined == Strings.JoinLines(DisplayPaths(artifacts))
  {
    var paths: seq<string> := [];
    for i := 0 to |artifacts|
      invariant |paths| == i
      invariant forall k :: 0 <= k < i ==> paths[k] == artifacts[k].displayPath
    {
      paths := paths + [artifacts[i].displayPath];
    }
    assert paths == DisplayPaths(artifacts);
    joined := Strings.JoinLines(paths);
  }

  /** The variables published into the build before any template is filled. */
  function PublishedVariables(phase: BuildPhase, result: BuildResult, duration: int, artifacts: seq<Artifact>): Env
  {
    map[
      "BUILD_PHASE_NAME" := PhaseName(phase),
      "BUILD_PHASE" := PhaseString(phase, result),
      "BUILD_DURATION" := Strings.DecimalString(duration),
      "BUILD_ARTIFACTS" := Strings.JoinLines(DisplayPaths(artifacts))]
  }

  /** The payload for a build whose result is known. */
  function Payload(phase: BuildPhase, result: BuildResult, duration: int, artifacts: seq<Artifact>,
                   customMessage: string): MessageData
  {
    MessageData(PhaseName(phase), Strings.JoinLines(DisplayPaths(artifacts)), PhaseString(phase, result),
                Strings.DecimalString(duration), customMessage)
  }

  /** setMessageData: nothing is set or published when the result is null;
      otherwise the four variables are published first and the message
      template is filled against the environment that holds them. */
  method SetMessageData(build: Build, phase: BuildPhase, template: string, process: Env) returns (data: MessageData)
    modifies build
    ensures build.info.result.None? ==> data == EmptyData && build.env == old(build.env)
    ensures build.info.result.Some? ==>
      build.env == old(build.env) + PublishedVariables(phase, build.info.result.value, build.info.duration, build.info.artifacts)
    ensures build.info.result.Some? ==>
      data == Payload(phase, build.info.result.value, build.info.duration, build.info.artifacts,
                      Utils.Filled(template, process, build.Environment()))
  {
    data := EmptyData;
    var result := build.info.result;
    if result.None? {
      return;
    }
    var phaseString := if phase == STARTED then "STARTED" else ResultName(result.value);
    var artifactPaths := ArtifactPaths(build.info.artifacts);
    var envVars := map[
      "BUILD_PHASE_NAME" := PhaseName(phase),
      "BUILD_PHASE" := phaseString,
      "BUILD_DURATION" := Strings.DecimalString(build.info.duration),
      "BUILD_ARTIFACTS" := artifactPaths];
    Utils.SetEnvironmentVariables(build, envVars);
    var customMessage := Utils.FillTemplate(template, build, process);
    data := MessageData(PhaseName(phase), artifactPaths, phaseString,
                        Strings.DecimalString(build.info.duration), customMessage);
  }

  // ---------------------------------------------------------------------------
  // Sending
  // ---------------------------------------------------------------------------

  /** Serialise the one-element list and post it; a serialiser exception
      becomes an error line. The response is not inspected: whatever the
      transport returns, the request body is logged as published. */
  function Deliver(config: Config, message: Envelope,
                   serialize: seq<Envelope> -> Result<string, string>,
                   post: Request -> Option<string>): (outcome: Outcome)
    ensures outcome != NotSent
    ensures outcome.Failed? <==> serialize([message]).Failure?
    ensures outcome.Published? ==>
      && outcome.messages == [message]
      && outcome.request == Request(config.topicEndpoint, map[KeyHeader := config.topicKey], serialize([message]).value)
      && outcome.response == post(outcome.request)
      && outcome.logLine == "Published Event Grid notification: " + outcome.request.body
    ensures outcome.Failed? ==> outcome.errorLine == "Failed to send Event Grid notification: " + serialize([message]).error
  {
    var messages := [message];
    match serialize(messages)
    case Failure(e) => Failed("Failed to send Event Grid notification: " + e)
    case Success(body) =>
      var request := Request(config.topicEndpoint, map[KeyHeader := config.topicKey], body);
      Published(messages, request, post(request), "Published Event Grid notification: " + body)
  }

  /** What send does, as a function of the build's environment before the
      call: the environment afterwards and the outcome. */
  function SendEffect(config: Config, info: BuildInfo, phase: BuildPhase, process: Env, env: Env,
                      id: string, eventTime: string,
                      serialize: seq<Envelope> -> Result<string, string>,
                      post: Request -> Option<string>): (Env, Outcome)
  {
    match info.result
    case None => (env, NotSent)
    case Some(result) =>
      var published := env + PublishedVariables(phase, result, info.duration, info.artifacts);
      var environment := if info.environmentFails then None else Some(published);
      var data := Payload(phase, result, info.duration, info.artifacts,
                          Utils.Filled(config.messageTemplate, process, environment));
      var subject := Subject(config, phase, result, info.fullDisplayName, process, environment);
      (published, Deliver(config, Envelope(id, EventType, subject, eventTime, data), serialize, post))
  }

  /** send. */
  method Send(config: Config, build: Build, phase: BuildPhase, process: Env,
              id: string, eventTime: string,
              serialize: seq<Envelope> -> Result<string, string>,
              post: Request -> Option<string>) returns (outcome: Outcome)
    modifies build
    ensures (build.env, outcome) == SendEffect(config, build.info, phase, process, old(build.env), id, eventTime, serialize, post)
  {
    var data := SetMessageData(build, phase, config.messageTemplate, process);
    var result := build.info.result;
    if result.None? {
      return NotSent;
    }
    var subject;
    if config.subjectTemplate == "" {
      var full := "Build " + PhaseString(phase, result.value) + ": " + build.info.fullDisplayName;
      subject := Truncate(full, SubjectLength);
    } else {
      subject := Utils.FillTemplate(config.subjectTemplate, build, process);
    }
    var message := Envelope(id, EventType, subject, eventTime, data);
    var messages := [message];
    match serialize(messages)
    case Failure(e) =>
      outcome := Failed("Failed to send Event Grid notification: " + e);
    case Success(body) =>
      var headers := map[KeyHeader := config.topicKey];
      var request := Request(config.topicEndpoint, headers, body);
      var response := post(request);
      outcome := Published(messages, request, response, "Published Event Grid notification: " + body);
  }

  /** onStarted: send only when configured to. */
  method OnStarted(config: Config, build: Build, process: Env, id: string, eventTime: string,
                   serialize: seq<Envelope> -> Result<string, string>,
                   post: Request -> Option<string>) returns (outcome: Outcome)
    modifies build
    ensures !config.sendNotificationOnStart ==> outcome == NotSent && build.env == old(build.env)
    ensures config.sendNotificationOnStart ==>
      (build.env, outcome) == SendEffect(config, build.info, STARTED, process, old(build.env), id, eventTime, serialize, post)
  {
    outcome := NotSent;
    if config.sendNotificationOnStart {
      outcome := Send(config, build, STARTED, process, id, eventTime, serialize, post);
    }
  }

  /** onCompleted: send on every build, or when the state changed. */
  method OnCompleted(config: Config, build: Build, process: Env, id: string, eventTime: string,
                     serialize: seq<Envelope> -> Result<string, string>,
                     post: Request -> Option<string>) returns (outcome: Outcome)
    modifies build
    ensures !NotifyOnCompleted(config, build.info) ==> outcome == NotSent && build.env == old(build.env)
    ensures NotifyOnCompleted(config, build.info) ==>
      (build.env, outcome) == SendEffect(config, build.info, COMPLETED, process, old(build.env), id, eventTime, serialize, post)
  {
    outcome := NotSent;
    var isNotifyOnEveryBuild := config.notifyOnEveryBuild;
    var previousBuildSuccessful := IsPreviousBuildSuccess(build);
    if isNotifyOnEveryBuild || (!isNotifyOnEveryBuild && !previousBuildSuccessful) {
      outcome := Send(config, build, COMPLETED, process, id, eventTime, serialize, post);
    }
  }

  // ---------------------------------------------------------------------------
  // Properties of a send
  // ---------------------------------------------------------------------------

  /** With a null result nothing is published into the build and nothing is
      sent, in either phase. With a result the four variables are published,
      exactly one envelope is serialised, and it carries the payload and the
      subject rule. */
  lemma SendEffectShape(config: Config, info: BuildInfo, phase: BuildPhase, process: Env, env: Env,
                        id: string, eventTime: string,
                        serialize: seq<Envelope> -> Result<string, string>,
                        post: Request -> Option<string>)
    ensures var (env', outcome) := SendEffect(config, info, phase, process, env, id, eventTime, serialize, post);
      && (info.result.None? ==> env' == env && outcome == NotSent)
      && (info.result.Some? ==>
            && env' == env + PublishedVariables(phase, info.result.value, info.duration, info.artifacts)
            && env'["BUILD_PHASE"] == (if phase == STARTED then "STARTED" else ResultName(info.result.value))
            && outcome != NotSent)
      && (outcome.Published? ==>
            && |outcome.messages| == 1
            && var m := outcome.messages[0];
            && m.id == id && m.eventType == "recordInserted" && m.eventTime == eventTime
            && m.data.MessageData?
            && m.data.buildPhase == PhaseName(phase)
            && m.data.buildResult == env'["BUILD_PHASE"]
            && m.data.buildDuration == Strings.DecimalString(info.duration)
            && m.data.artifactsPaths == Strings.JoinLines(DisplayPaths(info.artifacts))
            && (info.artifacts == [] ==> m.data.artifactsPaths == "")
            && (config.subjectTemplate == "" ==> |m.subject| <= SubjectLength)
            && (config.subjectTemplate == "" ==>
                  m.subject == DefaultSubject(phase, info.result.value, info.fullDisplayName))
            && (config.subjectTemplate != "" ==>
                  m.subject == Utils.Filled(config.subjectTemplate, process,
                                            if info.environmentFails then None else Some(env')))
            && outcome.request.url == config.topicEndpoint
            && outcome.request.headers == map["aeg-sas-key" := config.topicKey])
  {
  }

  lemma DecimalFourThousandTwoHundred()
    ensures Strings.DecimalString(4200) == "4200"
  {
  }

  /** The template "Built by ${BUILD_USER} in ${BUILD_DURATION}ms", put
      together from its literal parts and its two placeholders. */
  function BuiltByTemplate(): string
  {
    "Built by " + (Utils.Placeholder("BUILD_USER") + (" in " + (Utils.Placeholder("BUILD_DURATION") + "ms")))
  }

  /** The scenario's template filled against a build environment holding
      both variables. */
  lemma FilledBuiltBy(process: Env, vars: Env)
    requires "BUILD_USER" in vars && vars["BUILD_USER"] == "alice"
    requires "BUILD_DURATION" in vars && vars["BUILD_DURATION"] == "4200"
    requires "BUILD_USER" !in process && "BUILD_DURATION" !in process
    ensures Utils.Filled(BuiltByTemplate(), process, Some(vars)) == "Built by alice in 4200ms"
  {
    var e := Some(vars);
    var tail := Utils.Placeholder("BUILD_DURATION") + "ms";
    var middle := " in " + tail;
    var afterUser := Utils.Placeholder("BUILD_USER") + middle;
    Utils.FilledLiteralPrefix("Built by ", afterUser, process, e);
    FilledBuiltByUser(process, vars, middle);
    Utils.FilledLiteralPrefix(" in ", tail, process, e);
    FilledBuiltByTail(process, vars);
    BuiltByText();
  }

  lemma FilledBuiltByUser(process: Env, vars: Env, rest: string)
    requires "BUILD_USER" in vars && vars["BUILD_USER"] == "alice"
    requires "BUILD_USER" !in process
    ensures Utils.Filled(Utils.Placeholder("BUILD_USER") + rest, process, Some(vars)) == "alice" + Utils.Filled(rest, process, Some(vars))
  {
    var user := "BUILD_USER";
    assert Utils.Plain(user) && Utils.ValidName(user);
    Utils.FilledPlaceholderValue(user, rest, process, Some(vars), "alice");
  }

  lemma FilledBuiltByTail(process: Env, vars: Env)
    requires "BUILD_DURATION" in vars && vars["BUILD_DURATION"] == "4200"
    requires "BUILD_DURATION" !in process
    ensures Utils.Filled(Utils.Placeholder("BUILD_DURATION") + "ms", process, Some(vars)) == "4200" + "ms"
  {
    var duration := "BUILD_DURATION";
    assert Utils.Plain(duration) && Utils.ValidName(duration);
    Utils.FilledLiteralPrefix("ms", "", process, Some(vars));
    assert "ms" + "" == "ms";
    Utils.FilledPlaceholderValue(duration, "ms", process, Some(vars), "4200");
  }

  lemma BuiltByText()
    ensures "Built by " + ("alice" + (" in " + ("4200" + "ms"))) == "Built by alice in 4200ms"
  {
  }

  /** The message template is filled after the build variables are published:
      "Built by ${BUILD_USER} in ${BUILD_DURATION}ms" with BUILD_USER=alice in
      the build and a duration of 4200 ms gives "Built by alice in 4200ms". */
  lemma CustomMessageSeesPublishedDuration(config: Config, info: BuildInfo, phase: BuildPhase, process: Env, env: Env,
                                           id: string, eventTime: string,
                                           serialize: seq<Envelope> -> Result<string, string>,
                                           post: Request -> Option<string>)
    requires config.messageTemplate == BuiltByTemplate()
    requires info.result.Some? && info.duration == 4200 && !info.environmentFails
    requires "BUILD_USER" in env && env["BUILD_USER"] == "alice"
    requires "BUILD_USER" !in process && "BUILD_DURATION" !in process
    ensures var outcome := SendEffect(config, info, phase, process, env, id, eventTime, serialize, post).1;
      outcome.Published? ==> outcome.messages[0].data.customMessage == "Built by alice in 4200ms"
  {
    var published := env + PublishedVariables(phase, info.result.value, info.duration, info.artifacts);
    DecimalFourThousandTwoHundred();
    assert published["BUILD_USER"] == "alice" && published["BUILD_DURATION"] == "4200";
    FilledBuiltBy(process, published);
  }

  /** A subject template is filled after the build variables are published,
      so "${BUILD_PHASE}" becomes "STARTED" or the result's name. */
  lemma SubjectSeesPublishedPhase(config: Config, info: BuildInfo, phase: BuildPhase, process: Env, env: Env,
                                  id: string, eventTime: string,
                                  serialize: seq<Envelope> -> Result<string, string>,
                                  post: Request -> Option<string>)
    requires config.subjectTemplate == "${BUILD_PHASE}"
    requires info.result.Some? && !info.environmentFails
    requires "BUILD_PHASE" !in process
    ensures var outcome := SendEffect(config, info, phase, process, env, id, eventTime, serialize, post).1;
      outcome.Published? ==> outcome.messages[0].subject == PhaseString(phase, info.result.value)
  {
    var published := env + PublishedVariables(phase, info.result.value, info.duration, info.artifacts);
    FilledBuildPhase(process, published);
  }

  lemma FilledBuildPhase(process: Env, published: Env)
    requires "BUILD_PHASE" in published && "BUILD_PHASE" !in process
    ensures Utils.Filled("${BUILD_PHASE}", process, Some(published)) == published["BUILD_PHASE"]
  {
    var phase := "BUILD_PHASE";
    assert "${BUILD_PHASE}" == Utils.Placeholder(phase);
    assert Utils.Plain(phase) && Utils.ValidName(phase);
    Utils.FilledPlaceholderCases(phase, process, Some(published));
  }
}
