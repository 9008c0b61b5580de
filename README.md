# Azure Event Grid notifier — a Dafny model

This project models the core of the Jenkins Azure Event Grid notifier plugin. The plugin is a
post-build publisher. When a build starts and/or completes, it builds one Event Grid event. The
event's subject and custom message come from user templates with `${NAME}` placeholders, and the
plugin POSTs the event to a topic endpoint with the topic key in the `aeg-sas-key` header.

The model is split into five modules:

- `Wrappers` (`wrappers.dfy`) has `Option`, which stands for Java's `null`, and `Result`, which
  stands for a call that may throw. It also has the two map reads the code does.
- `Jenkins` (`jenkins.dfy`) holds the parts of the host the notifier touches:
  - build results and phases;
  - the chain of earlier builds;
  - artifacts;
  - the class `Build`, whose environment variables grow when the notifier publishes
    variables into it. Jenkins does this with one `PublishEnvVarAction` per entry, and later
    `getEnvironment` calls see the new variables.
- `Utils` (`utils.dfy`) is the template engine.
  - The pattern `\$\{(.+?)}` is written out as a scanner (`MatchLen`, `CloseFrom`, `FindFrom`).
    `MatchLenCorrect` proves the scanner matches the declarative reading of the pattern.
  - The reference definitions `Names`, `Tokens` and `Substitute` walk the text one position
    at a time.
  - The methods `ExtractTokens`, `TokenizeText` and `FillTemplate` follow the source's loops
    (find the next match, copy the gap, emit the replacement, resume at the match end). They
    are proved equal to the reference definitions.
  - Also here: the environment lookup, and the publishing of variables into a build.
- `Strings` (`strings.dfy`) holds the two library conversions the payload uses:
  - `Long.toString`, with the parse that inverts it;
  - `StringUtils.join(…, "\n")`, with the split that inverts it.
- `EventGridNotifier` (`notifier.dfy`) covers:
  - the backward walk over earlier builds and the completion gate;
  - the default subject, truncated to 100 characters;
  - the artifact list;
  - the published variables and payload;
  - one send, which is specified by the pure function `SendEffect` and carried out by the
    method `Send` on a `Build`;
  - the `onStarted` and `onCompleted` entry points.

What the model treats as parameters or leaves outside:

- The HTTP transport (`executePost`) and the JSON serialiser are function parameters:
  - the transport maps a request to a response text or `null`, and never throws;
  - the serialiser returns a body, or the message of the exception it throws.
- The event id and the event time are parameters.
- The process environment (`System.getenv`) is a map parameter.

Some template behaviour follows from the code and is proved in the model:

- `extractTokens` strips every `$`, `{` and `}` from the whole match. `tokenizeText` looks the
  value up by `group(1)`, which is not stripped. So a placeholder whose name contains one of
  those characters is never replaced. For example, `${}}` matches with the name `}`.
- A name that is missing, or that resolves to `null`, leaves its placeholder in the text
  verbatim.
- If `getEnvironment` throws, every placeholder whose name has no `$`, `{` or `}` becomes `""`.
- Replacement text is never rescanned.

A failure response from the endpoint is not reported as a failure:

- `executePost` (Utils.java:88-109) catches every transport exception and returns the error
  body or `null`. `send` then logs `"Published Event Grid notification: " + body` whatever the
  response was.
- So only a serialiser exception produces the `"Failed to send Event Grid notification: "`
  line, which `Deliver` states.

## Model

Paths are relative to the repository root.

| member | source | states |
|---|---|---|
| Utils.MatchLenCorrect | src/main/java/org/jenkinsci/plugins/azureeventgridnotifier/helpers/Utils.java:28 | The scanner finds a match of length `len` at the start of a text exactly when the text starts with `${`, a first character that is not a line terminator, then characters up to and including the first `}` after that first character, with no line terminator before it; such a match length is unique |
| Utils.CloseFromCorrect | src/main/java/org/jenkinsci/plugins/azureeventgridnotifier/helpers/Utils.java:28 | The lazy `.+?` that extends the match one character at a time stops at exactly the first `}` after the first name character, and fails at a line terminator or at the end of the text |
| Utils.MatchLen | src/main/java/org/jenkinsci/plugins/azureeventgridnotifier/helpers/Utils.java:28 | A match found at the start of a text begins with `${`, ends with `}` and is at least four characters long |
| Utils.FindFrom | src/main/java/org/jenkinsci/plugins/azureeventgridnotifier/helpers/Utils.java:129-131 | `Matcher.find()` resumed at a position returns the leftmost match at or after it; no match starts between the position and the match |
| Utils.MatchShapes | src/main/java/org/jenkinsci/plugins/azureeventgridnotifier/helpers/Utils.java:28 | `${abc` (unclosed), `${a` newline `b}` and `${}` do not match; `${}}` matches with name `}`; in `$${A}` the match starts at index 1 |
| Utils.ExtractTokens | src/main/java/org/jenkinsci/plugins/azureeventgridnotifier/helpers/Utils.java:127-135 | The token list is the stripped whole match of every match, left to right, duplicates kept (equal to the reference `Tokens`) |
| Utils.TokensAreStrippedNames | src/main/java/org/jenkinsci/plugins/azureeventgridnotifier/helpers/Utils.java:132 | There is one token per match; token k is name k with `$`, `{` and `}` removed; it equals name k exactly when that name has none of those characters; every token is free of them |
| Utils.StripMatch | src/main/java/org/jenkinsci/plugins/azureeventgridnotifier/helpers/Utils.java:132 | Stripping the whole match `${…}` gives the same as stripping its group(1) |
| Utils.StripIdentityIffPlain | src/main/java/org/jenkinsci/plugins/azureeventgridnotifier/helpers/Utils.java:132 | Stripping leaves a string unchanged exactly when it has no `$`, `{` or `}` |
| Utils.StripConcat | src/main/java/org/jenkinsci/plugins/azureeventgridnotifier/helpers/Utils.java:132 | Stripping distributes over concatenation |
| Utils.TokenizeText | src/main/java/org/jenkinsci/plugins/azureeventgridnotifier/helpers/Utils.java:137-155 | The builder loop returns the one-pass substitution of the text: gaps copied, each match replaced by its non-null mapped value or kept verbatim (equal to the reference `Substitute`) |
| Utils.SubstituteStep | src/main/java/org/jenkinsci/plugins/azureeventgridnotifier/helpers/Utils.java:143-151 | One round of the loop: the substitution of the rest of the text is the gap up to the next match, then the rendered match, then the substitution after the match end |
| Utils.SubstituteSkip | src/main/java/org/jenkinsci/plugins/azureeventgridnotifier/helpers/Utils.java:145 | A stretch in which no match starts is copied unchanged |
| Utils.SubstituteCongruent | src/main/java/org/jenkinsci/plugins/azureeventgridnotifier/helpers/Utils.java:144 | Substitution reads the replacement map only at the names of the text's placeholders |
| Utils.SubstituteUnmappedIsIdentity | src/main/java/org/jenkinsci/plugins/azureeventgridnotifier/helpers/Utils.java:146-147 | When no placeholder name has a non-null value, the text comes back unchanged |
| Utils.SubstituteLiteralPrefix | src/main/java/org/jenkinsci/plugins/azureeventgridnotifier/helpers/Utils.java:145 | Text without `$` is copied ahead of the substitution of what follows, and contributes no names |
| Utils.SubstitutePlaceholder | src/main/java/org/jenkinsci/plugins/azureeventgridnotifier/helpers/Utils.java:143-151 | A well-formed `${n}` at the front is matched whole with name `n` and becomes its value, or stays `${n}` when there is none; the rest is processed on its own |
| Utils.SubstituteNoRescan | src/main/java/org/jenkinsci/plugins/azureeventgridnotifier/helpers/Utils.java:149-151 | The value replacing a placeholder is emitted as it is, even when it contains a placeholder |
| Utils.GetEnvVar | src/main/java/org/jenkinsci/plugins/azureeventgridnotifier/helpers/Utils.java:157-163 | A non-empty process variable wins; otherwise a non-null build environment decides (an absent key gives null); with a null build environment the process value, possibly `""` or null, is returned |
| Utils.Resolution | src/main/java/org/jenkinsci/plugins/azureeventgridnotifier/helpers/Utils.java:37-43 | How a placeholder's name resolves: a name with `$`, `{` or `}` never finds an entry; otherwise `""` when `getEnvironment` throws, else the `getEnvVar` value |
| Utils.ReplacementsResolveNames | src/main/java/org/jenkinsci/plugins/azureeventgridnotifier/helpers/Utils.java:31-44 | A map keyed by the extracted tokens, holding each token's value, reads at every placeholder name as that name's resolution |
| Utils.FillTemplate | src/main/java/org/jenkinsci/plugins/azureeventgridnotifier/helpers/Utils.java:30-46 | The filled template is the one-pass substitution of the template under the resolved names, against the build's environment at the time of the call |
| Utils.FilledLiteralPrefix | src/main/java/org/jenkinsci/plugins/azureeventgridnotifier/helpers/Utils.java:30-46 | Template text without `$` is copied unchanged ahead of the filled rest |
| Utils.FilledPlaceholder | src/main/java/org/jenkinsci/plugins/azureeventgridnotifier/helpers/Utils.java:30-46 | A leading `${n}` is filled with its resolution, or kept when that is null; the rest is filled independently |
| Utils.FilledPlaceholderValue | src/main/java/org/jenkinsci/plugins/azureeventgridnotifier/helpers/Utils.java:30-46 | A leading `${n}` whose resolution is `v` becomes `v` ahead of the filled rest |
| Utils.FilledPlaceholderCases | src/main/java/org/jenkinsci/plugins/azureeventgridnotifier/helpers/Utils.java:30-46 | `${n}` alone fills to: itself when `n` has `$`, `{` or `}`; `""` when `getEnvironment` throws; a non-empty process value; else the build value; or itself when neither defines it |
| Utils.SetEnvironmentVariables | src/main/java/org/jenkinsci/plugins/azureeventgridnotifier/helpers/Utils.java:118-125 | The build's variables afterwards are the old ones overridden by every given entry, and nothing else changes |
| Strings.NatDigits | src/main/java/org/jenkinsci/plugins/azureeventgridnotifier/AzureEventGridNotifier.java:214 | The decimal form of a natural number is non-empty, all digits, has no leading zero, and is `0` exactly for zero |
| Strings.DecimalString | src/main/java/org/jenkinsci/plugins/azureeventgridnotifier/AzureEventGridNotifier.java:214 | `Long.toString` starts with a minus sign exactly for negative numbers |
| Strings.NatDigitsRoundTrip | src/main/java/org/jenkinsci/plugins/azureeventgridnotifier/AzureEventGridNotifier.java:214 | Reading the digits of a natural number back gives the number |
| Strings.DecimalRoundTrip | src/main/java/org/jenkinsci/plugins/azureeventgridnotifier/AzureEventGridNotifier.java:214 | The `BUILD_DURATION` text parses back to the build's duration, negative values included |
| Strings.SplitLines | src/main/java/org/jenkinsci/plugins/azureeventgridnotifier/AzureEventGridNotifier.java:236 | Splitting at newlines always yields at least one line |
| Strings.SplitAfterLine | src/main/java/org/jenkinsci/plugins/azureeventgridnotifier/AzureEventGridNotifier.java:236 | A newline-free prefix joins the first line of what follows |
| Strings.SplitJoinRoundTrip | src/main/java/org/jenkinsci/plugins/azureeventgridnotifier/AzureEventGridNotifier.java:236 | For a non-empty list of newline-free paths, splitting the joined text gives the list back: one line per artifact, in order |
| EventGridNotifier.FindPreviousBuildResult | src/main/java/org/jenkinsci/plugins/azureeventgridnotifier/AzureEventGridNotifier.java:184-192 | The do-while walk returns the reference `PreviousResult` of the chain of earlier builds |
| EventGridNotifier.PreviousResultIsFirstQualifying | src/main/java/org/jenkinsci/plugins/azureeventgridnotifier/AzureEventGridNotifier.java:178-192 | The walk passes finished aborted or not-built builds. It yields null when it reaches a running build or the end of the chain, otherwise the result of the first build it stops at. It never yields ABORTED or NOT_BUILT |
| EventGridNotifier.PreviousResultExamples | src/main/java/org/jenkinsci/plugins/azureeventgridnotifier/AzureEventGridNotifier.java:184-192 | [ABORTED, FAILURE] gives FAILURE; a running build behind a NOT_BUILT one gives null; no earlier build gives null |
| EventGridNotifier.StopIndex | src/main/java/org/jenkinsci/plugins/azureeventgridnotifier/AzureEventGridNotifier.java:185-190 | The walk stops at the first earlier build that is missing, running, or neither aborted nor not built, having passed every build before it |
| EventGridNotifier.IsPreviousBuildSuccess | src/main/java/org/jenkinsci/plugins/azureeventgridnotifier/AzureEventGridNotifier.java:174-176 | True exactly when this build and the walk's previous result are both SUCCESS |
| EventGridNotifier.CompletedGate | src/main/java/org/jenkinsci/plugins/azureeventgridnotifier/AzureEventGridNotifier.java:99-106 | With notify-on-every-build the completed build is always reported. Otherwise it is suppressed exactly when this build succeeded and the walk reaches a finished earlier build that succeeded |
| EventGridNotifier.CompletedGateExamples | src/main/java/org/jenkinsci/plugins/azureeventgridnotifier/AzureEventGridNotifier.java:99-106 | Current SUCCESS with only-on-change: previous SUCCESS suppresses; previous FAILURE, or no previous build, notifies; an ABORTED build in between is ignored |
| EventGridNotifier.Truncate | src/main/java/org/jenkinsci/plugins/azureeventgridnotifier/AzureEventGridNotifier.java:194-199 | The result is a prefix of the input whose length is the smaller of the input's length and the limit |
| EventGridNotifier.DefaultSubject | src/main/java/org/jenkinsci/plugins/azureeventgridnotifier/AzureEventGridNotifier.java:137-141 | `Build <phase>: <name>` is cut to at most 100 characters. It is exactly 100 when the full text is longer, the full text when it fits, and always a prefix of it that begins with `Build <phase>: ` |
| EventGridNotifier.ArtifactPaths | src/main/java/org/jenkinsci/plugins/azureeventgridnotifier/AzureEventGridNotifier.java:231-237 | The collecting loop followed by the join gives the artifacts' display paths joined by `\n` |
| EventGridNotifier.SetMessageData | src/main/java/org/jenkinsci/plugins/azureeventgridnotifier/AzureEventGridNotifier.java:201-226 | With a null result nothing is set and the build is untouched. Otherwise the four variables are published into the build first. The payload then holds the phase name, the joined paths, the phase string, the duration text, and the message template filled against the environment that already holds them |
| EventGridNotifier.Deliver | src/main/java/org/jenkinsci/plugins/azureeventgridnotifier/AzureEventGridNotifier.java:149-166 | A one-event list is serialised. On success the body is posted to the endpoint with only the `aeg-sas-key` header, and the body is logged as published whatever the response. A serialiser exception becomes the failure line with its message |
| EventGridNotifier.Send | src/main/java/org/jenkinsci/plugins/azureeventgridnotifier/AzureEventGridNotifier.java:126-167 | The build's variables afterwards and the outcome are exactly those of `SendEffect` applied to the variables before |
| EventGridNotifier.SendEffectShape | src/main/java/org/jenkinsci/plugins/azureeventgridnotifier/AzureEventGridNotifier.java:126-167 | A null result sends nothing and publishes nothing. Otherwise the four variables are published and exactly one event goes out, with type `recordInserted`, the given id and time, and the payload fields. With an empty subject template the subject is the default one, at most 100 characters. Otherwise it is the subject template filled against the environment that holds the published variables, not truncated. The request goes to the endpoint with the key header |
| EventGridNotifier.OnStarted | src/main/java/org/jenkinsci/plugins/azureeventgridnotifier/AzureEventGridNotifier.java:92-97 | Sends the STARTED notification exactly when send-on-start is set; otherwise nothing is sent and the build is untouched |
| EventGridNotifier.OnCompleted | src/main/java/org/jenkinsci/plugins/azureeventgridnotifier/AzureEventGridNotifier.java:99-106 | Sends the COMPLETED notification exactly when the completion gate holds; otherwise nothing is sent and the build is untouched |
| EventGridNotifier.DecimalFourThousandTwoHundred | src/main/java/org/jenkinsci/plugins/azureeventgridnotifier/AzureEventGridNotifier.java:214 | A duration of 4200 ms is published as `4200` |
| EventGridNotifier.FilledBuiltBy | src/main/java/org/jenkinsci/plugins/azureeventgridnotifier/AzureEventGridNotifier.java:222 | `Built by ${BUILD_USER} in ${BUILD_DURATION}ms` filled against variables `alice` and `4200` gives `Built by alice in 4200ms` |
| EventGridNotifier.CustomMessageSeesPublishedDuration | src/main/java/org/jenkinsci/plugins/azureeventgridnotifier/AzureEventGridNotifier.java:211-222 | The message template is filled after the variables are published, so a build by `alice` lasting 4200 ms gets the custom message `Built by alice in 4200ms` |
| EventGridNotifier.FilledBuildPhase | src/main/java/org/jenkinsci/plugins/azureeventgridnotifier/AzureEventGridNotifier.java:213 | `${BUILD_PHASE}` is filled with the build's `BUILD_PHASE` variable |
| EventGridNotifier.SubjectSeesPublishedPhase | src/main/java/org/jenkinsci/plugins/azureeventgridnotifier/AzureEventGridNotifier.java:142-144 | A subject template `${BUILD_PHASE}` becomes `STARTED` or the result's name, because the variables are published before the subject is filled |

## Left out

- HTTP transport (`executePost`, Utils.java:48-116): the connection, headers such as Content-Type and Content-Length, and reading the response. Its line joining with `\r`, and its catching of every exception, are outside the model. The transport is a total function parameter returning the response text or null.
- JSON serialisation (Jackson `ObjectMapper`) is a function parameter. The JSON text and its escaping are not modelled.
- The random event id and the clock-formatted `eventTime` (MessageTemplate.java) are parameters. The id is a string here; that it is the decimal text of a random `int` is not modelled.
- Logging (`LOG.info`, `listener.getLogger()`, and the message of a `getEnvironment` exception) is not modelled, except for the one line a send writes to the build log.
- The framework glue is left out because it carries no logic beyond forwarding: `prebuild`/`perform` (which call `onStarted`/`onCompleted` and return true), `getNotifier`, `getRequiredMonitorService`, the getters, `getREGEX`, and `DescriptorImpl`.
- Jenkins `EnvVars` compares keys case-insensitively. The model's variables are exact-match maps.
- Strings are sequences of Unicode scalar values. `truncate` counts characters rather than UTF-16 code units, so a cut through a surrogate pair is not modelled.
- Java's `Long` is 64 bits wide. The duration is an unbounded integer, which is the same for every value a `long` can hold.
- A null message template makes `setMessageData` throw outside the `try` block in `send`. That path is not modelled, because templates are strings. A null subject template is treated as the empty one, which `StringUtils.isEmpty` does too.
- Utils.FillTemplate: `getEnvironment` is called once per token in the source. The model reads the build environment once per call, and failure is a fixed property of the build (`environmentFails`). So a build whose `getEnvironment` fails for some tokens and not for others is not modelled.
- Jenkins.Build.Environment: returns the build's published variables. The other variables Jenkins contributes to `getEnvironment` are assumed to be already in `env` when the model starts.
