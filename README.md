# Build and deploy orchestration of the AI code generation platform

This project is a Dafny model of the part of the AI code generation platform that turns a
generated project directory into something that can be served. It also models the small
services around that step:

- **VueProjectBuilder** (`vue_project_builder.dfy`) builds a generated Vue project in one of
  two modes. Locally it runs `npm install` and then `npm run build`. Remotely it uses ssh and
  rsync: it pushes the sources, builds on the remote host, pulls `dist` back and removes the
  remote workspace. Either way it then checks that `dist` exists.
- **executeCommand** (`command_runner.dfy`) runs one external command with a time limit and
  forwards the command's output to the log.
- **RemoteBuildProperties** (`remote_build_properties.dfy`) holds the settings of the ssh/rsync
  transport, their defaults, and the `hasSshKey` and `isConfigReady` guards.
- **RemoteBuildServiceImpl** (`remote_build_service.dfy`) is the HTTP transport. It zips the
  project, encodes it in base 64 and posts it to the build server. It retries a fixed number
  of times, two seconds apart. It decodes the returned `dist` archive and unpacks it into the
  project.
- **The remote build server** (`build_server.dfy`, `remote-build-server/server.js`) is the
  receiving end of that transport:
  - it checks the API key;
  - it writes and extracts the archive, runs `npm install` and `npm run build`, and packs
    `dist`;
  - it removes the project and the archive on success and on failure alike;
  - it serves a status listing and a manual clean-up.
- **ScreenshotServiceImpl** (`screenshot_service.dfy`) publishes a cover picture for a
  deployed site:
  - it calls a screenshot API and downloads the picture;
  - it keeps the top 810 rows of the picture and converts them to JPEG;
  - it uploads the result to the object store;
  - once the JPEG exists, it deletes the local working directory whatever the upload did; a
    failure before that (the API call, the download, reading, cutting or converting the
    picture) leaves the directory behind.
- **OSSManager** (`oss_manager.dfy`) uploads a file to the object store and builds the file's
  public address.
- **CodeFileSaverTemplate** (`code_file_saver.dfy`) validates generated code, creates the
  application's output directory, and writes each file into it. An `IORuntimeException` from
  creating the directory or writing a file escapes, and the files already written stay.
- **AuthInterceptor** (`auth_interceptor.dfy`) applies the role check around annotated
  endpoints.

Two shared modules support the rest. `Common` holds nullable values, the blank-string tests of
Java and hutool, decimal rendering, and Java's `split("\\s+")`. `Base64` holds the encoding of
section 4 of RFC 4648 and the decoding of Java's basic decoder, which also accepts a final
group written without its `=` padding.

The outside world is modelled as a fixed oracle:

- which command, request or file operation throws;
- what a launched process prints and when it exits;
- what a server answers;
- whether a download writes its file.

Each operation that talks to the world is specified twice:

- A pure function (`...Run`) gives the result and the exact sequence of effects issued. Where
  files matter, a `Replay` function gives the files that exist afterwards.
- A class with mutable state carries the same operation as a method, with the source's
  control flow. The one exception is the time limit of `executeCommand`: `Shell` applies the
  corrected verdict of the finding below. `Shell`, `Host`, `Server` and `Machine` record a trace, plus the work-directory
  listing or the file set. `Disk` holds directories, file contents and the paths whose creation or writing throws. The method's `ensures`
  ties its result, trace and state to the pure function.

Lemmas about the pure functions then state what the source promises: retry counts, cleanup
guarantees, round trips of the archives, and the access rule.

Randomness, the clock and the date are parameters: UUID prefixes, the random digits of file
names, the launch time in milliseconds, and today's date.

## Model

| member | source | states |
|---|---|---|
| Common.IntToString | src/main/java/cn/iamwsll/aicode/core/builder/VueProjectBuilder.java:101 | a decimal rendering ends in a digit and starts with a digit exactly when the number is not negative |
| Common.IntToStringInjective | src/main/java/cn/iamwsll/aicode/core/builder/VueProjectBuilder.java:101 | different millisecond readings (or ids) render as different text |
| Common.SplitOnSpaces | src/main/java/cn/iamwsll/aicode/core/builder/VueProjectBuilder.java:188 | no piece of a command line split on whitespace contains whitespace |
| Common.SplitUnwords | src/main/java/cn/iamwsll/aicode/core/builder/VueProjectBuilder.java:188 | splitting words joined by single spaces gives the same words back |
| Common.ZeroPad | src/main/java/cn/iamwsll/aicode/service/impl/ScreenshotServiceImpl.java:131 | a date field printed by `yyyy`/`MM`/`dd` has at least the pattern's width and only digits |
| Base64.Encode | src/main/java/cn/iamwsll/aicode/service/remote/impl/RemoteBuildServiceImpl.java:117 | the encoding of n bytes has 4·⌈n/3⌉ characters |
| Base64.Decode | src/main/java/cn/iamwsll/aicode/service/remote/impl/RemoteBuildServiceImpl.java:180 | a non-empty accepted text always decodes to fewer bytes than it has characters |
| Base64.DecodeLength | src/main/java/cn/iamwsll/aicode/service/remote/impl/RemoteBuildServiceImpl.java:180 | an accepted text of n characters ending in p pads decodes to ⌊3n/4⌋ − p bytes, a final group of two or three characters written without pads included |
| Base64.DecodeRefusesDangling | src/main/java/cn/iamwsll/aicode/service/remote/impl/RemoteBuildServiceImpl.java:180 | a text whose last group is a single character is refused |
| Base64.DecodeRefusesForeign | src/main/java/cn/iamwsll/aicode/service/remote/impl/RemoteBuildServiceImpl.java:180 | a text holding a character outside the alphabet other than `=` is refused |
| Base64.DecodeRefusesInnerPad | src/main/java/cn/iamwsll/aicode/service/remote/impl/RemoteBuildServiceImpl.java:180 | a `=` in any group before the last group is refused, the last group being the final one to four characters |
| Base64.EncodeUnpadded | src/main/java/cn/iamwsll/aicode/service/remote/impl/RemoteBuildServiceImpl.java:180 | the encoding without its pads has ⌈4n/3⌉ characters and is a prefix of the padded encoding |
| Base64.DecodeUnpadded | src/main/java/cn/iamwsll/aicode/service/remote/impl/RemoteBuildServiceImpl.java:180 | text written without padding decodes as if padded, back to the original bytes |
| Base64.UnpaddedExamples | src/main/java/cn/iamwsll/aicode/service/remote/impl/RemoteBuildServiceImpl.java:180 | `QQ` decodes to `A` and `QUI` to `AB`, while `Q`, `QQ=` and `QQ==QQ` are refused |
| Base64.ValueOfCharOf | src/main/java/cn/iamwsll/aicode/service/remote/impl/RemoteBuildServiceImpl.java:180 | every alphabet character decodes to its own 6-bit value and is never the pad character |
| Base64.DecodeEncode | src/main/java/cn/iamwsll/aicode/service/remote/impl/RemoteBuildServiceImpl.java:180 | decoding the encoding of any byte string gives back the same bytes |
| Base64.EncodeInjective | src/main/java/cn/iamwsll/aicode/service/remote/impl/RemoteBuildServiceImpl.java:117 | different archives never share an encoding |
| RemoteBuildProperties.Props.HasSshKey | src/main/java/cn/iamwsll/aicode/config/RemoteBuildProperties.java:58-60 | a configured key is present and not empty |
| RemoteBuildProperties.Props.IsConfigReady | src/main/java/cn/iamwsll/aicode/config/RemoteBuildProperties.java:62-64 | a ready configuration is enabled and names a non-empty host and user |
| RemoteBuildProperties.Defaults | src/main/java/cn/iamwsll/aicode/config/RemoteBuildProperties.java:13-56 | the unconfigured settings are off, not ready, use no key, and give every stage a positive limit |
| RemoteBuildProperties.ConfigReadyMeaning | src/main/java/cn/iamwsll/aicode/config/RemoteBuildProperties.java:62-64 | ready iff enabled and both host and user are present with a non-whitespace character |
| RemoteBuildProperties.HasSshKeyMeaning | src/main/java/cn/iamwsll/aicode/config/RemoteBuildProperties.java:58-60 | a key counts iff it is present and holds a non-whitespace character |
| RemoteBuildProperties.DefaultsMeaning | src/main/java/cn/iamwsll/aicode/config/RemoteBuildProperties.java:13-56 | unconfigured settings are not ready, use no key, keep no remote workspace, and give every stage a positive limit, with a longer one for the remote build than for the push |
| CommandRunner.OutcomeAsWritten | src/main/java/cn/iamwsll/aicode/core/builder/VueProjectBuilder.java:191-207 | (as written) a launch failure fails; an exit is reported only when the process exits within the limit counted from the moment its output reaches end-of-file |
| CommandRunner.AsWrittenLimitNotEnforced | src/main/java/cn/iamwsll/aicode/core/builder/VueProjectBuilder.java:191-207 | a process that prints for 1000 s and exits 0 passes a 300 s limit as written |
| CommandRunner.OutcomeOf | src/main/java/cn/iamwsll/aicode/core/builder/VueProjectBuilder.java:202-219 | an exit is reported only within the limit with the process's own status; a timeout iff the process outlives the limit; a failure iff the launch throws |
| CommandRunner.SucceedsMeaning | src/main/java/cn/iamwsll/aicode/core/builder/VueProjectBuilder.java:208-219 | a command succeeds iff it started, exited within its limit and exited with 0 |
| CommandRunner.OutcomeAgreesWhenOutputClosesAtLaunch | src/main/java/cn/iamwsll/aicode/core/builder/VueProjectBuilder.java:191-207 | the as-written and the intended verdicts agree whenever the output closes at launch |
| CommandRunner.Tagged | src/main/java/cn/iamwsll/aicode/core/builder/VueProjectBuilder.java:194-199 | one log line per output line, in order, at the given level |
| CommandRunner.Shell.Forward | src/main/java/cn/iamwsll/aicode/core/builder/VueProjectBuilder.java:194-196 | the loop appends exactly the stream's lines to the log, in order |
| CommandRunner.Shell.RunLine | src/main/java/cn/iamwsll/aicode/core/builder/VueProjectBuilder.java:181-220 | issues the whitespace-split command, logs standard output at info level and then standard error at error level, and succeeds iff the command succeeds under the corrected time limit (`OutcomeOf`) |
| CommandRunner.Shell.RunArgv | src/main/java/cn/iamwsll/aicode/core/builder/VueProjectBuilder.java:222-256 | issues the argument vector as given, logs the merged output at info level, and succeeds iff the command succeeds under the corrected time limit (`OutcomeOf`) |
| VueProjectBuilder.BuildRun | src/main/java/cn/iamwsll/aicode/core/builder/VueProjectBuilder.java:45-74 | nothing is run for a missing directory or `package.json`; local mode starts with install and remote mode with the push; success iff the mode succeeds and `dist` exists |
| VueProjectBuilder.LocalRun | src/main/java/cn/iamwsll/aicode/core/builder/VueProjectBuilder.java:79-89 | install is issued first and at most the build after it; success iff both pass |
| VueProjectBuilder.RemoteRun | src/main/java/cn/iamwsll/aicode/core/builder/VueProjectBuilder.java:94-129 | nothing is issued without a ready configuration; a success issues push, build and pull, plus the removal unless the workspace is kept |
| VueProjectBuilder.LocalRunMeaning | src/main/java/cn/iamwsll/aicode/core/builder/VueProjectBuilder.java:79-89 | install (300 s) then build (180 s) with the platform's npm; the build runs iff the install passed; success iff both pass |
| VueProjectBuilder.NpmLinesSplit | src/main/java/cn/iamwsll/aicode/core/builder/VueProjectBuilder.java:137-147 | the two npm command lines split into exactly the launcher and its arguments |
| VueProjectBuilder.RemoteRunMeaning | src/main/java/cn/iamwsll/aicode/core/builder/VueProjectBuilder.java:94-129 | nothing is issued unless the configuration is ready; the push comes first; success iff push, build and pull pass; the workspace is removed once after a failed build or pull, never after a failed push, once after success unless kept; a removal is always last |
| VueProjectBuilder.CleanupIsDistinct | src/main/java/cn/iamwsll/aicode/core/builder/VueProjectBuilder.java:316-324 | the removal command differs from the push, the remote build and the pull of the same session |
| VueProjectBuilder.CleanupOutcomeIrrelevant | src/main/java/cn/iamwsll/aicode/core/builder/VueProjectBuilder.java:325-328 | whatever the removal does changes neither the reported result nor the commands issued |
| VueProjectBuilder.DistinctLaunchTimesDistinctWorkspaces | src/main/java/cn/iamwsll/aicode/core/builder/VueProjectBuilder.java:100-102 | builds of one project started at different milliseconds use different remote directories |
| VueProjectBuilder.RemoteArgvMeaning | src/main/java/cn/iamwsll/aicode/core/builder/VueProjectBuilder.java:258-329 | the push excludes `node_modules`, `dist`, `.git`, passes extra flags and the identity file only when set, and copies into the session directory; the pull copies its `dist` back; the removal deletes exactly that directory |
| VueProjectBuilder.RemoteScriptMeaning | src/main/java/cn/iamwsll/aicode/core/builder/VueProjectBuilder.java:291-296 | the remote script enters the directory, installs then builds, with `NODE_OPTIONS` prefixing both npm steps exactly when options are set and not blank |
| VueProjectBuilder.Builder.BuildProject | src/main/java/cn/iamwsll/aicode/core/builder/VueProjectBuilder.java:45-74 | returns the specified verdict, issues exactly the specified commands, and adds to the log exactly what those commands print, stdout then stderr per command locally and the merged stream remotely |
| VueProjectBuilder.Builder.LocalBuild | src/main/java/cn/iamwsll/aicode/core/builder/VueProjectBuilder.java:79-89 | returns the local verdict, issues exactly the local commands, and logs each one's output at info level and then its errors at error level |
| VueProjectBuilder.Builder.RemoteBuild | src/main/java/cn/iamwsll/aicode/core/builder/VueProjectBuilder.java:94-129 | returns the remote verdict, issues exactly the remote commands, removal included, and logs each one's merged output at info level |
| VueProjectBuilder.Builder.RunStages | src/main/java/cn/iamwsll/aicode/core/builder/VueProjectBuilder.java:104-128 | push, build and pull run each only after the previous one passed; the removal follows a failed build or pull, and a success unless the workspace is kept; the verdict, the commands and the log are those of `Stages` |
| VueProjectBuilder.Builder.Issue | src/main/java/cn/iamwsll/aicode/core/builder/VueProjectBuilder.java:280 | one assembled command is issued once, passes iff it succeeds, and its merged output is logged at info level |
| RemoteBuildService.ToInt32 | src/main/java/cn/iamwsll/aicode/service/remote/impl/RemoteBuildServiceImpl.java:127 | `seconds * 1000` is the 32-bit wrap-around of the product: in range, congruent to it, and equal to it when it fits |
| RemoteBuildService.StoreRun | src/main/java/cn/iamwsll/aicode/service/remote/impl/RemoteBuildServiceImpl.java:183-199 | saving touches only the temporary file, `dist` and the directory creation |
| RemoteBuildService.SaveRun | src/main/java/cn/iamwsll/aicode/service/remote/impl/RemoteBuildServiceImpl.java:178-205 | saving the returned content, decoded as Java's basic decoder does, issues only file-system actions |
| RemoteBuildService.Attempts | src/main/java/cn/iamwsll/aicode/service/remote/impl/RemoteBuildServiceImpl.java:110-172 | once the attempt budget is spent the loop does nothing and fails |
| RemoteBuildService.BuildRun | src/main/java/cn/iamwsll/aicode/service/remote/impl/RemoteBuildServiceImpl.java:35-68 | a disabled client or a missing directory does nothing; a failed zip returns false and sends nothing; once zipped, the result is true iff the attempts succeed and the archive's deletion does not throw, and that deletion comes last |
| RemoteBuildService.BuildSuccessMeaning | src/main/java/cn/iamwsll/aicode/service/remote/impl/RemoteBuildServiceImpl.java:35-68 | a failed zip sends no request; a success needs the zip, an attempt within `maxRetries` that the server accepted, and the archive's deletion |
| RemoteBuildService.AvailableRun | src/main/java/cn/iamwsll/aicode/service/remote/impl/RemoteBuildServiceImpl.java:71-86 | available only when enabled and the health check answers 2xx; a disabled client sends nothing |
| RemoteBuildService.AttemptHasOneRead | src/main/java/cn/iamwsll/aicode/service/remote/impl/RemoteBuildServiceImpl.java:112-160 | each attempt reads the archive exactly once, first, and does not pause |
| RemoteBuildService.AttemptsCounts | src/main/java/cn/iamwsll/aicode/service/remote/impl/RemoteBuildServiceImpl.java:110-172 | reads equal pauses plus one, and there are never more reads than `maxRetries` |
| RemoteBuildService.StopsAtFirstFinish | src/main/java/cn/iamwsll/aicode/service/remote/impl/RemoteBuildServiceImpl.java:137-149 | the first accepted attempt decides the result and no later attempt is made |
| RemoteBuildService.ExhaustsRetries | src/main/java/cn/iamwsll/aicode/service/remote/impl/RemoteBuildServiceImpl.java:110-172 | when every attempt fails, the result is false after exactly `maxRetries` reads and `maxRetries - 1` two-second pauses |
| RemoteBuildService.SuccessNeedsAcceptance | src/main/java/cn/iamwsll/aicode/service/remote/impl/RemoteBuildServiceImpl.java:137-149 | success implies some attempt within the budget read the archive and got a 2xx reply with `success: true` |
| RemoteBuildService.RequestsCarryArchive | src/main/java/cn/iamwsll/aicode/service/remote/impl/RemoteBuildServiceImpl.java:116-133 | every POST goes to `/api/build`, carries the project name and content that decodes to the archive's bytes, and has the key header iff a non-empty key is configured |
| RemoteBuildService.DistRoundTrip | src/main/java/cn/iamwsll/aicode/service/remote/impl/RemoteBuildServiceImpl.java:178-199 | the returned archive is written byte for byte; without failures the old `dist` is replaced by its contents and the temporary file is deleted last |
| RemoteBuildService.SaveRefusesMalformed | src/main/java/cn/iamwsll/aicode/service/remote/impl/RemoteBuildServiceImpl.java:179-180 | content with a lone final character, a character outside the alphabet or a pad before the last group fails before anything is written |
| RemoteBuildService.SaveAcceptsUnpadded | src/main/java/cn/iamwsll/aicode/service/remote/impl/RemoteBuildServiceImpl.java:179-199 | content sent without padding is stored exactly as the padded content would be |
| RemoteBuildService.DefaultConfigMeaning | src/main/java/cn/iamwsll/aicode/config/RemoteBuildConfig.java:20-45 | the HTTP transport is off by default with three attempts, and its timeouts in milliseconds fit in a Java `int` |
| RemoteBuildService.Client.BuildProject | src/main/java/cn/iamwsll/aicode/service/remote/impl/RemoteBuildServiceImpl.java:35-68 | returns the specified verdict and issues exactly the specified actions |
| RemoteBuildService.Client.IsAvailable | src/main/java/cn/iamwsll/aicode/service/remote/impl/RemoteBuildServiceImpl.java:71-86 | returns the health verdict and issues at most the one GET |
| RemoteBuildService.Client.SendBuildRequest | src/main/java/cn/iamwsll/aicode/service/remote/impl/RemoteBuildServiceImpl.java:109-173 | the retry loop returns the verdict of the attempts and issues exactly their actions and pauses |
| RemoteBuildService.Client.TryOnce | src/main/java/cn/iamwsll/aicode/service/remote/impl/RemoteBuildServiceImpl.java:112-160 | one pass of the loop finishes or asks for another exactly as the attempt specification says |
| RemoteBuildService.Client.SaveDistContent | src/main/java/cn/iamwsll/aicode/service/remote/impl/RemoteBuildServiceImpl.java:178-205 | returns the saving verdict and issues exactly its actions |
| RemoteBuildService.Client.StoreDist | src/main/java/cn/iamwsll/aicode/service/remote/impl/RemoteBuildServiceImpl.java:183-199 | stops at the first action that throws and issues exactly the specified actions |
| BuildServer.Without | remote-build-server/server.js:95-96 | a name is listed afterwards iff it was listed before and is not the removed one |
| BuildServer.Authorized | remote-build-server/server.js:19-24 | with no key configured every header passes; otherwise exactly the header equal to the key passes |
| BuildServer.PipelineRun | remote-build-server/server.js:45-92 | the archive is written first; the packed `dist` is produced iff all five steps succeed and the build left `dist`; the build never follows a failed install |
| BuildServer.BuildRun | remote-build-server/server.js:32-129 | 401 iff the key check fails, 400 iff a parameter is missing after it, and nothing is done in either case; every other answer is 200 or `success: false` |
| BuildServer.StatusRun | remote-build-server/server.js:132-144 | 200 iff admitted and the listing succeeds; it then counts every entry and names the first ten, in listing order (all of them when there are at most ten) |
| BuildServer.CleanupRun | remote-build-server/server.js:147-155 | 200 iff admitted and emptying succeeds; emptying is attempted exactly for admitted requests |
| BuildServer.ApiKeyGate | remote-build-server/server.js:19-24 | with a key set, a request without the same header gets 401 on every guarded endpoint and nothing is done; with no key set, nothing is refused for its header |
| BuildServer.MissingParameters | remote-build-server/server.js:33-40 | a missing or empty project name or content gets 400 and nothing is written |
| BuildServer.BuildOutcome | remote-build-server/server.js:45-127 | 200 iff every step succeeds, `dist` exists and both removals succeed; the 200 answer carries content that decodes to the packed `dist`; every other admitted request gets 500 with `success: false` |
| BuildServer.UploadRoundTrip | remote-build-server/server.js:49-50 | the archive the client encodes is written to disk byte for byte |
| BuildServer.AdmittedRunsPipeline | remote-build-server/server.js:45-92 | an admitted request starts with the build pipeline's effects |
| BuildServer.InstallFailureStopsBuild | remote-build-server/server.js:58-76 | `npm run build` is never run after `npm install` fails |
| BuildServer.NoLeftovers | remote-build-server/server.js:93-122 | every admitted request tries to remove the project; when the removals succeed neither the project nor its archive is left |
| BuildServer.StatusListsFirstTen | remote-build-server/server.js:132-144 | the status counts every entry and names exactly the first ten in listing order: every entry when there are at most ten, otherwise the first ten |
| BuildServer.CleanupEmpties | remote-build-server/server.js:147-155 | the manual clean-up empties the work directory and reports success |
| BuildServer.Server.HandleBuild | remote-build-server/server.js:32-129 | answers, issues effects and leaves the listing exactly as the build specification says |
| BuildServer.Server.Pipeline | remote-build-server/server.js:45-92 | stops at the first step that throws or when `dist` is missing, issuing exactly the specified effects |
| BuildServer.Server.RemoveProject | remote-build-server/server.js:95-96 | removes the project and then the archive, and skips the archive when the first removal throws |
| BuildServer.Server.HandleStatus | remote-build-server/server.js:132-144 | answers as the status specification says and leaves the listing unchanged |
| BuildServer.Server.HandleCleanup | remote-build-server/server.js:147-155 | answers and empties the listing as the clean-up specification says |
| ScreenshotService.FetchRun | src/main/java/cn/iamwsll/aicode/service/impl/ScreenshotServiceImpl.java:83-104 | the working directory is created first; a local picture is the PNG path and needs code 1; every other ending is a crash or `OPERATION_ERROR` |
| ScreenshotService.CompressRun | src/main/java/cn/iamwsll/aicode/service/impl/ScreenshotServiceImpl.java:106-123 | the picture is read first and then cut to the crop rectangle; success gives the JPEG path, anything else is a crash |
| ScreenshotService.ConvertRun | src/main/java/cn/iamwsll/aicode/service/impl/ScreenshotServiceImpl.java:116-123 | the JPEG path is returned iff the conversion and both deletions succeed; otherwise a crash |
| ScreenshotService.UploadRun | src/main/java/cn/iamwsll/aicode/service/impl/ScreenshotServiceImpl.java:62-75 | nothing is done, and null is the answer, iff the path is blank or the file is missing; the only effect is the put under the dated key |
| ScreenshotService.PublishRun | src/main/java/cn/iamwsll/aicode/service/impl/ScreenshotServiceImpl.java:44-53 | the upload comes first; a returned address is the non-blank address the upload gave |
| ScreenshotService.ScreenshotRun | src/main/java/cn/iamwsll/aicode/service/impl/ScreenshotServiceImpl.java:37-54 | `PARAMS_ERROR` iff the page address is blank, with nothing done; otherwise the working directory is created first |
| ScreenshotService.ScreenshotKeyShape | src/main/java/cn/iamwsll/aicode/service/impl/ScreenshotServiceImpl.java:130-133 | every key lies under `screenshots/`, then the date folder, and ends with the `_compressed.jpg` file name |
| ScreenshotService.ScreenshotKeyInjective | src/main/java/cn/iamwsll/aicode/service/impl/ScreenshotServiceImpl.java:130-133 | on one day, different file names give different keys |
| ScreenshotService.CropKeepsTop | src/main/java/cn/iamwsll/aicode/service/impl/ScreenshotServiceImpl.java:106-114 | the crop is the full-width top of the picture, exactly 810 rows for a taller picture and the whole picture otherwise |
| ScreenshotService.ParentOfJoin | src/main/java/cn/iamwsll/aicode/service/impl/ScreenshotServiceImpl.java:143 | the parent of a file created in a directory is that directory |
| ScreenshotService.BlankUrlRefused | src/main/java/cn/iamwsll/aicode/service/impl/ScreenshotServiceImpl.java:39 | a blank page address is refused with `PARAMS_ERROR` before anything is done |
| ScreenshotService.ApiRefusal | src/main/java/cn/iamwsll/aicode/service/impl/ScreenshotServiceImpl.java:95-99 | an API reply with a code other than 1 or a blank link is refused with `OPERATION_ERROR`, after creating the directory and calling the API only, and the directory is left behind |
| ScreenshotService.UploadNeedsFile | src/main/java/cn/iamwsll/aicode/service/impl/ScreenshotServiceImpl.java:62-70 | nothing is uploaded for a blank path or a missing file, and the upload gives null |
| ScreenshotService.UploadOutcome | src/main/java/cn/iamwsll/aicode/service/impl/ScreenshotServiceImpl.java:71-74 | one put of the picture under the dated key; the upload throws iff the put throws; an address is returned iff the store acknowledges it, and that address lies in the bucket under `screenshots/` and names the key |
| ScreenshotService.ConvertLeavesJpg | src/main/java/cn/iamwsll/aicode/service/impl/ScreenshotServiceImpl.java:116-123 | the JPEG survives the deletion of the two intermediate pictures |
| ScreenshotService.CompressLeavesJpg | src/main/java/cn/iamwsll/aicode/service/impl/ScreenshotServiceImpl.java:106-123 | a successful compression leaves the JPEG on disk and returns its path |
| ScreenshotService.JpgNotBlank | src/main/java/cn/iamwsll/aicode/service/impl/ScreenshotServiceImpl.java:43 | the local picture's path is never blank |
| ScreenshotService.PublishCleans | src/main/java/cn/iamwsll/aicode/service/impl/ScreenshotServiceImpl.java:44-53 | once the picture exists, publishing puts it and then deletes its directory; the outcome is the upload's unless the deletion throws, and then no file of that directory is left |
| ScreenshotService.CleanupAlwaysRuns | src/main/java/cn/iamwsll/aicode/service/impl/ScreenshotServiceImpl.java:37-54 | once the picture exists, the last two effects are the upload and the deletion of the working directory, whether the upload returned an address, null or threw; unless the deletion throws, the outcome is the upload's and nothing of the working directory remains |
| ScreenshotService.Service.GenerateAndUpload | src/main/java/cn/iamwsll/aicode/service/impl/ScreenshotServiceImpl.java:37-54 | returns the specified outcome, issues exactly the specified effects and leaves the specified files |
| ScreenshotService.Service.Publish | src/main/java/cn/iamwsll/aicode/service/impl/ScreenshotServiceImpl.java:44-53 | the `try`/`finally` block behaves as the publishing specification says |
| ScreenshotService.Service.Fetch | src/main/java/cn/iamwsll/aicode/service/impl/ScreenshotServiceImpl.java:83-104 | the directory, API call and download behave as the fetch specification says |
| ScreenshotService.Service.Compress | src/main/java/cn/iamwsll/aicode/service/impl/ScreenshotServiceImpl.java:106-123 | reading, cropping and converting behave as the compression specification says |
| ScreenshotService.Service.ConvertPicture | src/main/java/cn/iamwsll/aicode/service/impl/ScreenshotServiceImpl.java:116-123 | conversion and the two deletions behave as the conversion specification says |
| ScreenshotService.Service.UploadToOss | src/main/java/cn/iamwsll/aicode/service/impl/ScreenshotServiceImpl.java:62-75 | the upload behaves as the upload specification says |
| ScreenshotService.Service.Cleanup | src/main/java/cn/iamwsll/aicode/service/impl/ScreenshotServiceImpl.java:140-147 | deletes the picture's directory only when the picture exists |
| OssManager.PutObject | src/main/java/cn/iamwsll/aicode/manager/OSSManager.java:35-38 | the request names the configured bucket, the given key and the given file |
| OssManager.UploadFile | src/main/java/cn/iamwsll/aicode/manager/OSSManager.java:47-59 | an address iff the store acknowledges the put, starting with `https://bucket.endpoint/` and as long as that prefix plus the key |
| OssManager.UploadFileMeaning | src/main/java/cn/iamwsll/aicode/manager/OSSManager.java:47-59 | an address is returned iff the store acknowledges the put; it starts with `https://bucket.endpoint/` and names the key |
| OssManager.KeyOfObjectUrl | src/main/java/cn/iamwsll/aicode/manager/OSSManager.java:52 | the key can be read back from the address |
| OssManager.ObjectUrlInjective | src/main/java/cn/iamwsll/aicode/manager/OSSManager.java:52 | different keys of one bucket have different addresses |
| CodeFileSaver.WrittenPaths | src/main/java/cn/iamwsll/aicode/core/saver/CodeFileSaverTemplate.java:83-89 | writing adds exactly the paths of the entries with non-blank content, and every other file keeps its content |
| CodeFileSaver.WrittenCount | src/main/java/cn/iamwsll/aicode/core/saver/CodeFileSaverTemplate.java:83-89 | the number of entries written before the first write that throws: every entry before it writes without throwing, and the entry at it throws |
| CodeFileSaver.WrittenContent | src/main/java/cn/iamwsll/aicode/core/saver/CodeFileSaverTemplate.java:83-89 | with distinct names, each entry with non-blank content ends up in its own file |
| CodeFileSaver.Disk.MakeDir | src/main/java/cn/iamwsll/aicode/core/saver/CodeFileSaverTemplate.java:73 | creating a directory throws iff the path fails; otherwise it adds the directory, and nothing else changes |
| CodeFileSaver.Disk.WriteString | src/main/java/cn/iamwsll/aicode/core/saver/CodeFileSaverTemplate.java:88 | writing a file throws iff the path fails, changing nothing; otherwise it creates or overwrites that one file |
| CodeFileSaver.Saver.DirPathInjective | src/main/java/cn/iamwsll/aicode/core/saver/CodeFileSaverTemplate.java:66-75 | two applications share an output directory iff they have the same id |
| CodeFileSaver.Saver.SaveCode | src/main/java/cn/iamwsll/aicode/core/saver/CodeFileSaverTemplate.java:30-39 | a missing result or id raises `SYSTEM_ERROR` and touches nothing; a directory that cannot be created throws and touches nothing; otherwise the directory is created and the files are written in order until one write throws; the directory is returned iff every write succeeded, and the files written before a throw stay on disk |
| CodeFileSaver.Saver.ValidateInput | src/main/java/cn/iamwsll/aicode/core/saver/CodeFileSaverTemplate.java:46-50 | the input is valid iff the result is not null |
| CodeFileSaver.Saver.BuildUniqueDir | src/main/java/cn/iamwsll/aicode/core/saver/CodeFileSaverTemplate.java:66-75 | a null id raises `SYSTEM_ERROR` before anything is created; `root/codeType_appId` is created and returned, unless its creation throws |
| CodeFileSaver.Saver.SaveFiles | src/main/java/cn/iamwsll/aicode/core/saver/CodeFileSaverTemplate.java:58 | the entries are written one after the other; it throws iff some write throws, and then exactly the entries before the first such write are on disk |
| CodeFileSaver.Saver.WriteToFile | src/main/java/cn/iamwsll/aicode/core/saver/CodeFileSaverTemplate.java:83-89 | blank content is skipped; other content goes to `dir + separator + name`, or the write throws and changes nothing |
| AuthInterceptor.RoleOf | src/main/java/cn/iamwsll/aicode/aop/AuthInterceptor.java:41 | a role is found iff the value is exactly "user" or "admin", and it is the role with that value |
| AuthInterceptor.Intercept | src/main/java/cn/iamwsll/aicode/aop/AuthInterceptor.java:35-55 | a failed login is refused with its own error; every refusal of a logged-in user is `NO_AUTH_ERROR` |
| AuthInterceptor.InterceptMeaning | src/main/java/cn/iamwsll/aicode/aop/AuthInterceptor.java:35-55 | the call proceeds iff the user is logged in and nothing known is required or the user's role ranks at least as high as the required one |
| AuthInterceptor.LoginResolvedFirst | src/main/java/cn/iamwsll/aicode/aop/AuthInterceptor.java:40-45 | the login is resolved before the required role is looked at |
| AuthInterceptor.UnknownRequirementAdmitsAll | src/main/java/cn/iamwsll/aicode/aop/AuthInterceptor.java:41-45 | an unknown required role admits every logged-in user |
| AuthInterceptor.UnknownRoleRefused | src/main/java/cn/iamwsll/aicode/aop/AuthInterceptor.java:46-49 | a user with an unknown role is refused wherever a role is required |
| AuthInterceptor.TwoRoles | src/main/java/cn/iamwsll/aicode/aop/AuthInterceptor.java:50-53 | a "user" endpoint admits users and administrators; an "admin" endpoint admits administrators only |
| AuthInterceptor.AccessIsMonotone | src/main/java/cn/iamwsll/aicode/aop/AuthInterceptor.java:27-28 | whoever may call an endpoint may call every endpoint requiring a role of lower or equal rank |

## Left out

- `buildProjectAsync` (VueProjectBuilder.java lines 28-38) is left out: starting a virtual thread is concurrency, and its body is `buildProject`, which is modelled.
- Log messages, timestamps and build durations are left out. This includes the server's `buildInfo` durations, its start-up banner and its signal handlers. The lines forwarded by `executeCommand` are kept.
- `isWindows` reads the `os.name` system property. The model takes the answer as the `windows` parameter.
- The ssh/rsync transport's remote removal (`rm -rf`) is modelled only as a command whose outcome is ignored.
- The effect of a killed process on the remote host is not modelled.
- Partial effects of a single operation are not modelled. An operation that throws changes nothing in the model, while the operations before it keep their effects. An effect either always throws or never throws.
- File names are taken as given. The model joins paths by concatenation and does not reproduce `path.join`'s normalisation of `..` and repeated separators, nor how Java's `File` resolves such names.
- The work-directory listing on the server is in creation order. Node's `readdirSync` order is platform-defined.
- `Buffer.from(text, 'base64')` on text that `Base64.Decode` rejects is an oracle (`Env.lenient`). Node's lenient decoder is not modelled; text that `Base64.Decode` accepts, padded or not, is decoded by it.
- `CommandRunner.Shell.RunLine` and `CommandRunner.Shell.RunArgv` decide success with the corrected time limit `OutcomeOf` (counted from launch), not with the as-written `OutcomeAsWritten` of the finding below. Every `VueProjectBuilder` verdict is therefore the corrected program's: an install that prints for 1000 s and then exits with 0 under its 300 s limit fails in the model, while the source reports success and runs the build. Two effects of stream draining are also left out. `RunLine` reads standard output to its end before it reads standard error, so a process that fills its standard-error pipe blocks forever. `RunArgv` logs the merged stream as all output lines, then all error lines, not interleaved as the process wrote them. The log and the verdict also come from two readings: the log holds every line the process printed, as the as-written drain loop does, while a process killed at the corrected limit would only have printed the lines before that moment.
- The zip format is not modelled: zipping, extracting and packing are opaque effects. Image decoding, cropping and JPEG conversion are likewise opaque effects; only their file names and the crop rectangle are modelled.
- JSON parsing on the client is reduced to the two fields read, `success` and `distContent`. hutool's conversion of `success` to a boolean is the oracle's answer.
- The JSON reply of the screenshot API is reduced to `code` and `data.download_link`. A reply that is not a JSON object is modelled as a crash of the call (`CallApi` in `fails`).
- Java `Character` and hutool blank tests cover the characters of the Basic Multilingual Plane as listed in `Common`. Surrogate pairs are not modelled.
- `ScreenshotService.DatePath`: years above 9999, which Java prints with a leading `+`, and years before year 1 are not modelled; `ZeroPad` prints no sign.
- `UserRoleEnum`, `CodeGenTypeEnum` and `AppConstant` are not part of this model. The roles are the values "user" and "admin" of `UserConstant`. The code type's value and the output root are parameters of `CodeFileSaver.Saver`.
- `CodeFileSaver.Saver.SaveFiles`: the `saveFiles` hook is abstract, with subclasses for single-file HTML and multi-file results. The model writes every (name, content) entry with `writeToFile`, which is what the subclasses do. Their parsing of the generated code is not part of this model.
- `FileUtil.writeString` and `FileUtil.mkdir` also create missing parent directories. The model records only the directory and the file named.
- `BuildServer.Health` (`GET /health`, which always answers `{status: 'ok'}`) carries no property. The client's use of it is `RemoteBuildService.AvailableRun`.
- `validateApiKey` reads a header whose value Express may give as a list when the header is repeated. The model takes one optional string.
- `BuildServer.BuildRun` takes `projectName` and `fileContent` as optional strings, so a JSON body whose fields are other truthy values (a number, an object, a list) is not modelled. For such a `projectName` the `path.join` calls of server.js lines 42-43 throw outside the `try`, the async handler rejects and no answer is sent. Such a `fileContent` makes `Buffer.from` throw inside the `try`, which gives the 500 answer with the removals.
- The request size limit of `express.json` (100 MB) is not modelled.
- Exceptions from `getLoginUser` are modelled by their error code only. `RequestContextHolder` lookups are assumed to succeed.

## Findings

| source | as written | input that shows it | evidently intended | confidence | as-written member | corrected member |
|---|---|---|---|---|---|---|
| src/main/java/cn/iamwsll/aicode/core/builder/VueProjectBuilder.java:191-207 | both `executeCommand` overloads read standard output (and error) to end-of-file before calling `waitFor(timeoutSeconds)`, so the limit only starts once the process closes its output | a process that keeps printing for 1000 s and then exits with 0, run with a 300 s limit: as written it is reported as a success | the process is killed and the command fails once it runs longer than its limit, counted from launch (the same holds for lines 232-243) | not executed | CommandRunner.OutcomeAsWritten, CommandRunner.AsWrittenLimitNotEnforced | CommandRunner.OutcomeOf |
