/** The HTTP client of the remote build server: the project directory is zipped, sent as
    base 64 inside a JSON body to `/api/build` with up to `maxRetries` attempts two seconds
    apart, and the built `dist` archive that comes back is unpacked into the project.

    The host (file system, clock-named temporary files, network) is an oracle: `Env` says
    which file-system actions throw, whether the archive can be read at each attempt, and
    what the server answers at each attempt. `Host` records every action in `trace`. */
module RemoteBuildService {
  import opened Common
  import opened Base64

  /** The `remote.build.*` settings of the HTTP transport. */
  datatype Config = Config(
    enabled: bool,
    serverUrl: Option<string>,
    apiKey: Option<string>,
    connectTimeout: int,    // seconds
    readTimeout: int,       // seconds; npm install can take long
    maxRetries: int)

  function DefaultConfig(): Config {
    Config(enabled := false, serverUrl := None, apiKey := None,
           connectTimeout := 30, readTimeout := 600, maxRetries := 3)
  }

  /** Java `int` arithmetic: the result of `seconds * 1000` wraps to 32 bits. */
  function ToInt32(n: int): (r: int)
    ensures -0x8000_0000 <= r < 0x8000_0000
    ensures -0x8000_0000 <= n < 0x8000_0000 ==> r == n
    ensures (r - n) % 0x1_0000_0000 == 0
  {
    (n + 0x8000_0000) % 0x1_0000_0000 - 0x8000_0000
  }

  /** The JSON body of a build request. */
  datatype BuildRequest = BuildRequest(projectName: string, fileContent: string)

  /** The fields of the server's JSON answer the client reads: `success` converted to a
      boolean (`None` when absent or not convertible) and `distContent`. */
  datatype Body = Body(success: Option<bool>, distContent: Option<string>)

  /** An answer: a transport failure (connection refused, timeout), or a status and a body
      that is `None` when it is not a JSON object. */
  datatype Reply = NetError | Http(status: int, body: Option<Body>)

  /** hutool's `isOk`: a 2xx status. */
  predicate IsOk(r: Reply) {
    r.Http? && 200 <= r.status < 300
  }

  datatype Effect =
    | Zip(source: string, target: string)
    | ReadFile(path: string)
    | Post(url: string, request: BuildRequest, apiKeyHeader: Option<string>, timeoutMillis: int)
    | Get(url: string, timeoutMillis: int)
    | Sleep(millis: int)
    | CreateTemp(prefix: string, suffix: string)
    | WriteFile(path: string, bytes: seq<Byte>)
    | Delete(path: string)
    | MakeDirs(path: string)
    | Unzip(archive: string, target: string)

  /** What the host does. `fails` is consulted for the file-system actions that throw on
      failure; `mkdirs` only returns a flag that is ignored and an interrupted sleep is
      swallowed, so those never fail. The archive read and the request are indexed by the
      attempt number. */
  datatype Env = Env(
    sep: string,                    // File.separator
    tmpDir: string,                 // java.io.tmpdir
    tempZip: string,                // the file createTempFile("dist_", ".zip") creates
    archive: seq<Byte>,             // what zipping the project directory produces
    fails: iset<Effect>,            // the actions that throw
    unreadable: iset<nat>,          // the attempts at which reading the archive throws
    replies: nat -> Reply,
    health: Reply)
  {
    predicate Throws(e: Effect) {
      (e.Zip? || e.CreateTemp? || e.WriteFile? || e.Delete? || e.Unzip?) && e in fails
    }
  }

  datatype Outcome = Outcome(ok: bool, effects: seq<Effect>)

  // ---------------------------------------------------------------------------
  // Specification

  /** `new File(projectDir, "dist")`. */
  function DistDir(sep: string, projectPath: string): string {
    projectPath + sep + "dist"
  }

  /** A file-system action of `saveDistContent`. */
  predicate IsSaveAction(e: Effect) {
    e.CreateTemp? || e.WriteFile? || e.Delete? || e.MakeDirs? || e.Unzip?
  }

  /** `saveDistContent` after decoding: write the archive to a temporary file, replace the
      project's `dist` by its contents and delete the temporary file, stopping at the first
      action that throws. */
  function StoreRun(env: Env, bytes: seq<Byte>, projectPath: string, distExists: bool): (r: Outcome)
    ensures forall e | e in r.effects :: IsSaveAction(e)
  {
    var dist := DistDir(env.sep, projectPath);
    var create, write := CreateTemp("dist_", ".zip"), WriteFile(env.tempZip, bytes);
    if env.Throws(create) then Outcome(false, [create])
    else if env.Throws(write) then Outcome(false, [create, write])
    else if distExists && env.Throws(Delete(dist)) then Outcome(false, [create, write, Delete(dist)])
    else
      var cleared := [create, write] + (if distExists then [Delete(dist)] else []) + [MakeDirs(dist)];
      var unzip := Unzip(env.tempZip, dist);
      if env.Throws(unzip) then Outcome(false, cleared + [unzip])
      else Outcome(!env.Throws(Delete(env.tempZip)), cleared + [unzip, Delete(env.tempZip)])
  }

  /** `saveDistContent`: text that is not base 64 fails before anything is touched. */
  function SaveRun(env: Env, content: string, projectPath: string, distExists: bool): (r: Outcome)
    ensures forall e | e in r.effects :: IsSaveAction(e)
  {
    var bytes := Decode(content);
    if bytes.None? then Outcome(false, [])
    else StoreRun(env, bytes.value, projectPath, distExists)
  }

  function BuildUrl(cfg: Config): string {
    Str(cfg.serverUrl) + "/api/build"
  }

  function HealthUrl(cfg: Config): string {
    Str(cfg.serverUrl) + "/health"
  }

  /** The `X-API-Key` header is sent only for a non-null, non-empty key. */
  function ApiKeyHeader(key: Option<string>): Option<string> {
    if key.Some? && key.value != "" then key else None
  }

  /** The request sent at every attempt. */
  function RequestEffect(cfg: Config, env: Env, dir: LocalProject): Effect {
    Post(BuildUrl(cfg), BuildRequest(dir.name, Encode(env.archive)), ApiKeyHeader(cfg.apiKey),
         ToInt32(cfg.readTimeout * 1000))
  }

  /** The server reported a successful build: 2xx, a JSON body and `success` true. */
  predicate Accepted(r: Reply) {
    IsOk(r) && r.body.Some? && r.body.value.success == Some(true)
  }

  datatype Verdict = Finished(ok: bool) | Again
  datatype Step = Step(verdict: Verdict, effects: seq<Effect>)

  /** One pass of the retry loop: read the archive, post it, and either finish (the server
      accepted the build) or ask for another attempt (anything thrown, a non-2xx status, a
      body that is not JSON, `success` not true). */
  function AttemptAt(cfg: Config, env: Env, zipPath: string, dir: LocalProject, distExists: bool, k: nat): Step {
    var read := ReadFile(zipPath);
    if k in env.unreadable then Step(Again, [read])
    else
      var post := RequestEffect(cfg, env, dir);
      var reply := env.replies(k);
      if !Accepted(reply) then Step(Again, [read, post])
      else
        var content := reply.body.value.distContent;
        if content.Some? && content.value != "" then
          var save := SaveRun(env, content.value, dir.path, distExists);
          Step(Finished(save.ok), [read, post] + save.effects)
        else Step(Finished(true), [read, post])
  }

  /** The attempts from number `k` on: each attempt that asks for another is followed by a
      two-second pause unless it was the last allowed. */
  function Attempts(cfg: Config, env: Env, zipPath: string, dir: LocalProject, distExists: bool, k: nat): (r: Outcome)
    ensures k >= cfg.maxRetries ==> r == Outcome(false, [])
    decreases cfg.maxRetries - k
  {
    if k >= cfg.maxRetries then Outcome(false, [])
    else
      var step := AttemptAt(cfg, env, zipPath, dir, distExists, k);
      if step.verdict.Finished? then Outcome(step.verdict.ok, step.effects)
      else
        var pause := if k + 1 < cfg.maxRetries then [Sleep(2000)] else [];
        var rest := Attempts(cfg, env, zipPath, dir, distExists, k + 1);
        Outcome(rest.ok, step.effects + pause + rest.effects)
  }

  /** `buildProject`: zip into the temporary directory, send, then delete the archive; a
      failure to delete turns the result into a failure. */
  function BuildRun(cfg: Config, env: Env, dir: LocalProject, millis: int, distExists: bool): (r: Outcome)
    ensures !cfg.enabled || !dir.present || !dir.isDirectory ==> r == Outcome(false, [])
    ensures cfg.enabled && dir.present && dir.isDirectory ==>
      var zipPath := ZipPath(env, dir.name, millis);
      var zip := Zip(dir.path, zipPath);
      && (env.Throws(zip) ==> r == Outcome(false, [zip]))
      && (!env.Throws(zip) ==>
            && (r.ok <==> Attempts(cfg, env, zipPath, dir, distExists, 0).ok && !env.Throws(Delete(zipPath)))
            && |r.effects| >= 2 && r.effects[0] == zip && r.effects[|r.effects| - 1] == Delete(zipPath))
  {
    if !cfg.enabled then Outcome(false, [])
    else if !dir.present || !dir.isDirectory then Outcome(false, [])
    else
      var zipPath := ZipPath(env, dir.name, millis);
      var zip := Zip(dir.path, zipPath);
      if env.Throws(zip) then Outcome(false, [zip])
      else
        var sent := Attempts(cfg, env, zipPath, dir, distExists, 0);
        var del := Delete(zipPath);
        Outcome(sent.ok && !env.Throws(del), [zip] + sent.effects + [del])
  }

  /** `new File(tmpdir, name + "_" + millis + ".zip")`. */
  function ZipPath(env: Env, name: string, millis: int): string {
    env.tmpDir + env.sep + name + "_" + IntToString(millis) + ".zip"
  }

  /** `isAvailable`. */
  function AvailableRun(cfg: Config, env: Env): (r: Outcome)
    ensures r.ok ==> cfg.enabled && IsOk(env.health)
    ensures cfg.enabled ==> r == Outcome(IsOk(env.health), [Get(HealthUrl(cfg), ToInt32(cfg.connectTimeout * 1000))])
    ensures !cfg.enabled ==> r.effects == []
  {
    if !cfg.enabled then Outcome(false, [])
    else Outcome(IsOk(env.health), [Get(HealthUrl(cfg), ToInt32(cfg.connectTimeout * 1000))])
  }

  // ---------------------------------------------------------------------------
  // Properties

  /** How many times `e` occurs in `es`. */
  function Occurrences(es: seq<Effect>, e: Effect): nat {
    if es == [] then 0 else (if es[0] == e then 1 else 0) + Occurrences(es[1..], e)
  }

  lemma {:induction false} OccurrencesAppend(a: seq<Effect>, b: seq<Effect>, e: Effect)
    ensures Occurrences(a + b, e) == Occurrences(a, e) + Occurrences(b, e)
  {
    if a == [] {
      assert a + b == b;
    } else {
      assert (a + b)[1..] == a[1..] + b;
      OccurrencesAppend(a[1..], b, e);
    }
  }

  lemma {:induction false} OccurrencesAbsent(es: seq<Effect>, e: Effect)
    requires e !in es
    ensures Occurrences(es, e) == 0
  {
    if es != [] {
      OccurrencesAbsent(es[1..], e);
    }
  }

  /** The effects of attempt `k`, then the pause after it, then those of the later attempts. */
  lemma AttemptsUnfold(cfg: Config, env: Env, zipPath: string, dir: LocalProject, distExists: bool, k: nat, e: Effect)
    requires k < cfg.maxRetries
    requires AttemptAt(cfg, env, zipPath, dir, distExists, k).verdict == Again
    ensures var step := AttemptAt(cfg, env, zipPath, dir, distExists, k);
      var rest := Attempts(cfg, env, zipPath, dir, distExists, k + 1);
      var r := Attempts(cfg, env, zipPath, dir, distExists, k);
      var pause := if k + 1 < cfg.maxRetries then [Sleep(2000)] else [];
      && r.ok == rest.ok
      && Occurrences(r.effects, e) == Occurrences(step.effects, e) + Occurrences(pause, e) + Occurrences(rest.effects, e)
  {
    var step := AttemptAt(cfg, env, zipPath, dir, distExists, k);
    var rest := Attempts(cfg, env, zipPath, dir, distExists, k + 1);
    var pause := if k + 1 < cfg.maxRetries then [Sleep(2000)] else [];
    OccurrencesAppend(step.effects + pause, rest.effects, e);
    OccurrencesAppend(step.effects, pause, e);
  }

  /** An attempt reads the archive exactly once, first, and never pauses. */
  lemma AttemptHasOneRead(cfg: Config, env: Env, zipPath: string, dir: LocalProject, distExists: bool, k: nat)
    ensures var s := AttemptAt(cfg, env, zipPath, dir, distExists, k);
      && s.effects[0] == ReadFile(zipPath)
      && Occurrences(s.effects, ReadFile(zipPath)) == 1
      && Occurrences(s.effects, Sleep(2000)) == 0
  {
    var s := AttemptAt(cfg, env, zipPath, dir, distExists, k);
    var head := [ReadFile(zipPath), RequestEffect(cfg, env, dir)];
    var post := [RequestEffect(cfg, env, dir)];
    assert post[1..] == [];
    assert Occurrences(post, ReadFile(zipPath)) == 0 && Occurrences(post, Sleep(2000)) == 0;
    assert head[1..] == post;
    if k !in env.unreadable && Accepted(env.replies(k)) {
      var content := env.replies(k).body.value.distContent;
      if content.Some? && content.value != "" {
        var save := SaveRun(env, content.value, dir.path, distExists);
        OccurrencesAbsent(save.effects, ReadFile(zipPath));
        OccurrencesAbsent(save.effects, Sleep(2000));
        OccurrencesAppend(head, save.effects, ReadFile(zipPath));
        OccurrencesAppend(head, save.effects, Sleep(2000));
      }
    }
  }

  /** Every attempt reads the archive once and every pause separates two attempts, and no
      more than `maxRetries - k` attempts are made. */
  lemma {:induction false} AttemptsCounts(cfg: Config, env: Env, zipPath: string, dir: LocalProject,
                                          distExists: bool, k: nat)
    ensures var r := Attempts(cfg, env, zipPath, dir, distExists, k);
      k < cfg.maxRetries ==> Occurrences(r.effects, ReadFile(zipPath)) == Occurrences(r.effects, Sleep(2000)) + 1
    ensures var r := Attempts(cfg, env, zipPath, dir, distExists, k);
      Occurrences(r.effects, ReadFile(zipPath)) <= if k < cfg.maxRetries then cfg.maxRetries - k else 0
    decreases cfg.maxRetries - k
  {
    if k < cfg.maxRetries {
      AttemptHasOneRead(cfg, env, zipPath, dir, distExists, k);
      var step := AttemptAt(cfg, env, zipPath, dir, distExists, k);
      if step.verdict.Again? {
        AttemptsCounts(cfg, env, zipPath, dir, distExists, k + 1);
        AttemptsUnfold(cfg, env, zipPath, dir, distExists, k, ReadFile(zipPath));
        AttemptsUnfold(cfg, env, zipPath, dir, distExists, k, Sleep(2000));
      }
    }
  }

  /** The loop stops at the first attempt the server accepts: if attempts `k` to `j - 1`
      asked for another and attempt `j` finished, the result is attempt `j`'s and the
      archive was read `j - k + 1` times. */
  lemma {:induction false} StopsAtFirstFinish(cfg: Config, env: Env, zipPath: string, dir: LocalProject,
                                              distExists: bool, k: nat, j: nat)
    requires k <= j < cfg.maxRetries
    requires forall i | k <= i < j :: AttemptAt(cfg, env, zipPath, dir, distExists, i).verdict == Again
    requires AttemptAt(cfg, env, zipPath, dir, distExists, j).verdict.Finished?
    ensures var r := Attempts(cfg, env, zipPath, dir, distExists, k);
      && r.ok == AttemptAt(cfg, env, zipPath, dir, distExists, j).verdict.ok
      && Occurrences(r.effects, ReadFile(zipPath)) == j - k + 1
    decreases j - k
  {
    if k < j {
      StopsAtFirstFinish(cfg, env, zipPath, dir, distExists, k + 1, j);
      var rest := Attempts(cfg, env, zipPath, dir, distExists, k + 1);
      AgainAddsOneRead(cfg, env, zipPath, dir, distExists, k, rest.ok, j - k);
    } else {
      AttemptHasOneRead(cfg, env, zipPath, dir, distExists, k);
      AttemptsFinish(cfg, env, zipPath, dir, distExists, k);
    }
  }

  /** An attempt that asks for another adds one read to what follows and keeps its verdict. */
  lemma AgainAddsOneRead(cfg: Config, env: Env, zipPath: string, dir: LocalProject, distExists: bool,
                         k: nat, ok: bool, n: nat)
    requires k < cfg.maxRetries
    requires AttemptAt(cfg, env, zipPath, dir, distExists, k).verdict == Again
    requires var rest := Attempts(cfg, env, zipPath, dir, distExists, k + 1);
      rest.ok == ok && Occurrences(rest.effects, ReadFile(zipPath)) == n
    ensures var r := Attempts(cfg, env, zipPath, dir, distExists, k);
      r.ok == ok && Occurrences(r.effects, ReadFile(zipPath)) == n + 1
  {
    AttemptHasOneRead(cfg, env, zipPath, dir, distExists, k);
    AttemptsUnfold(cfg, env, zipPath, dir, distExists, k, ReadFile(zipPath));
  }

  lemma AttemptsFinish(cfg: Config, env: Env, zipPath: string, dir: LocalProject, distExists: bool, k: nat)
    requires k < cfg.maxRetries
    requires AttemptAt(cfg, env, zipPath, dir, distExists, k).verdict.Finished?
    ensures var step := AttemptAt(cfg, env, zipPath, dir, distExists, k);
      Attempts(cfg, env, zipPath, dir, distExists, k) == Outcome(step.verdict.ok, step.effects)
  {
  }

  /** When every attempt asks for another, the client gives up with `false` after exactly
      `maxRetries` reads and `maxRetries - 1` pauses. */
  lemma {:induction false} ExhaustsRetries(cfg: Config, env: Env, zipPath: string, dir: LocalProject,
                                           distExists: bool, k: nat)
    requires k <= cfg.maxRetries
    requires forall i | k <= i < cfg.maxRetries :: AttemptAt(cfg, env, zipPath, dir, distExists, i).verdict == Again
    ensures var r := Attempts(cfg, env, zipPath, dir, distExists, k);
      && !r.ok
      && Occurrences(r.effects, ReadFile(zipPath)) == cfg.maxRetries - k
      && Occurrences(r.effects, Sleep(2000)) == if k < cfg.maxRetries then cfg.maxRetries - k - 1 else 0
    decreases cfg.maxRetries - k
  {
    if k < cfg.maxRetries {
      AttemptHasOneRead(cfg, env, zipPath, dir, distExists, k);
      ExhaustsRetries(cfg, env, zipPath, dir, distExists, k + 1);
      AttemptsUnfold(cfg, env, zipPath, dir, distExists, k, ReadFile(zipPath));
      AttemptsUnfold(cfg, env, zipPath, dir, distExists, k, Sleep(2000));
    }
  }

  /** A success needs the server's word: some attempt within the limit was accepted. */
  lemma {:induction false} SuccessNeedsAcceptance(cfg: Config, env: Env, zipPath: string, dir: LocalProject,
                                                  distExists: bool, k: nat)
    requires Attempts(cfg, env, zipPath, dir, distExists, k).ok
    ensures exists j :: k <= j < cfg.maxRetries && j !in env.unreadable && Accepted(env.replies(j))
    decreases cfg.maxRetries - k
  {
    var step := AttemptAt(cfg, env, zipPath, dir, distExists, k);
    if step.verdict.Finished? {
      assert k < cfg.maxRetries && k !in env.unreadable && Accepted(env.replies(k));
    } else {
      SuccessNeedsAcceptance(cfg, env, zipPath, dir, distExists, k + 1);
    }
  }

  /** Every request carries the project's name and the zipped project in base 64 that
      decodes back to the very bytes of the archive, goes to `/api/build`, and has the key
      header exactly when a non-empty key is configured. */
  lemma {:induction false} RequestsCarryArchive(cfg: Config, env: Env, zipPath: string, dir: LocalProject,
                                                distExists: bool, k: nat)
    ensures forall e | e in Attempts(cfg, env, zipPath, dir, distExists, k).effects && e.Post? ::
      && e == RequestEffect(cfg, env, dir)
      && e.request.projectName == dir.name
      && Decode(e.request.fileContent) == Some(env.archive)
      && e.url == Str(cfg.serverUrl) + "/api/build"
      && (e.apiKeyHeader.Some? <==> cfg.apiKey.Some? && cfg.apiKey.value != "")
    decreases cfg.maxRetries - k
  {
    DecodeEncode(env.archive);
    if k < cfg.maxRetries {
      var step := AttemptAt(cfg, env, zipPath, dir, distExists, k);
      forall e | e in step.effects && e.Post?
        ensures e == RequestEffect(cfg, env, dir)
      {
        if k !in env.unreadable && Accepted(env.replies(k)) {
          var content := env.replies(k).body.value.distContent;
          if content.Some? && content.value != "" {
            var save := SaveRun(env, content.value, dir.path, distExists);
            assert e in [ReadFile(zipPath), RequestEffect(cfg, env, dir)] || e in save.effects;
          }
        }
      }
      if step.verdict.Again? {
        RequestsCarryArchive(cfg, env, zipPath, dir, distExists, k + 1);
      }
    }
  }

  /** The archive the server sends back is written byte for byte to the temporary file;
      with a host that throws nothing the old `dist` is removed if present, the archive is
      unpacked into `dist` and the temporary file is deleted last. */
  lemma DistRoundTrip(env: Env, dist: seq<Byte>, projectPath: string, distExists: bool)
    ensures var r := SaveRun(env, Encode(dist), projectPath, distExists);
      !env.Throws(CreateTemp("dist_", ".zip")) ==> |r.effects| >= 2 && r.effects[1] == WriteFile(env.tempZip, dist)
    ensures var r := SaveRun(env, Encode(dist), projectPath, distExists);
      (forall e :: !env.Throws(e)) ==>
        && r.ok
        && r.effects == [CreateTemp("dist_", ".zip"), WriteFile(env.tempZip, dist)]
                        + (if distExists then [Delete(DistDir(env.sep, projectPath))] else [])
                        + [MakeDirs(DistDir(env.sep, projectPath)), Unzip(env.tempZip, DistDir(env.sep, projectPath)),
                           Delete(env.tempZip)]
  {
    DecodeEncode(dist);
    StoreWritesBytes(env, dist, projectPath, distExists);
  }

  lemma StoreWritesBytes(env: Env, bytes: seq<Byte>, projectPath: string, distExists: bool)
    ensures var r := StoreRun(env, bytes, projectPath, distExists);
      !env.Throws(CreateTemp("dist_", ".zip")) ==> |r.effects| >= 2 && r.effects[1] == WriteFile(env.tempZip, bytes)
    ensures var r := StoreRun(env, bytes, projectPath, distExists);
      (forall e :: !env.Throws(e)) ==>
        && r.ok
        && r.effects == [CreateTemp("dist_", ".zip"), WriteFile(env.tempZip, bytes)]
                        + (if distExists then [Delete(DistDir(env.sep, projectPath))] else [])
                        + [MakeDirs(DistDir(env.sep, projectPath)), Unzip(env.tempZip, DistDir(env.sep, projectPath)),
                           Delete(env.tempZip)]
  {
  }

  /** Content sent without its `=` padding is decoded as if padded, so it is stored exactly
      as the padded content would be. */
  lemma SaveAcceptsUnpadded(env: Env, dist: seq<Byte>, projectPath: string, distExists: bool)
    ensures SaveRun(env, EncodeUnpadded(dist), projectPath, distExists) == StoreRun(env, dist, projectPath, distExists)
    ensures SaveRun(env, EncodeUnpadded(dist), projectPath, distExists) == SaveRun(env, Encode(dist), projectPath, distExists)
  {
    DecodeEncode(dist);
    DecodeUnpadded(dist);
  }

  /** Text the decoder rejects is refused before anything is written: a lone character in
      the last group, a character outside the alphabet, or a pad before the last group. */
  lemma SaveRefusesMalformed(env: Env, content: string, projectPath: string, distExists: bool, i: nat)
    requires || |content| % 4 == 1
             || (i < |content| && Foreign(content[i]))
             || (i < 4 * ((|content| - 1) / 4) && content[i] == '=')
    ensures SaveRun(env, content, projectPath, distExists) == Outcome(false, [])
  {
    if |content| % 4 == 1 {
      DecodeRefusesDangling(content);
    } else if i < |content| && Foreign(content[i]) {
      DecodeRefusesForeign(content, i);
    } else {
      DecodeRefusesInnerPad(content, i);
    }
  }

  /** A build succeeds only when the project was zipped, the server accepted one of at most
      `maxRetries` attempts, and the archive was deleted afterwards; a failure to zip sends
      nothing. */
  lemma BuildSuccessMeaning(cfg: Config, env: Env, dir: LocalProject, millis: int, distExists: bool)
    ensures var r := BuildRun(cfg, env, dir, millis, distExists);
      env.Throws(Zip(dir.path, ZipPath(env, dir.name, millis))) ==> !r.ok && forall e | e in r.effects :: !e.Post?
    ensures var r := BuildRun(cfg, env, dir, millis, distExists);
      var zipPath := ZipPath(env, dir.name, millis);
      r.ok ==>
        && cfg.enabled && dir.present && dir.isDirectory
        && !env.Throws(Zip(dir.path, zipPath)) && !env.Throws(Delete(zipPath))
        && exists j :: 0 <= j < cfg.maxRetries && j !in env.unreadable && Accepted(env.replies(j))
  {
    var zipPath := ZipPath(env, dir.name, millis);
    if BuildRun(cfg, env, dir, millis, distExists).ok {
      SuccessNeedsAcceptance(cfg, env, zipPath, dir, distExists, 0);
    }
  }

  /** Out of the box the HTTP transport is off, and its timeouts fit in a Java `int`. */
  lemma DefaultConfigMeaning()
    ensures !DefaultConfig().enabled && DefaultConfig().maxRetries == 3
    ensures ToInt32(DefaultConfig().readTimeout * 1000) == 600000
    ensures ToInt32(DefaultConfig().connectTimeout * 1000) == 30000
  {
  }

  // ---------------------------------------------------------------------------
  // Imperative model

  /** The machine the client runs on, as far as the client can observe it. */
  class Host {
    const env: Env
    var trace: seq<Effect>

    constructor (env: Env)
      ensures this.env == env && trace == []
    {
      this.env := env;
      trace := [];
    }

    /** A file-system action; `false` when it throws. */
    method Do(e: Effect) returns (ok: bool)
      modifies this
      ensures trace == old(trace) + [e] && ok == !env.Throws(e)
    {
      trace := trace + [e];
      ok := !env.Throws(e);
    }

    /** `Files.readAllBytes` of the archive at attempt `attempt`. */
    method ReadArchive(path: string, attempt: nat) returns (bytes: Option<seq<Byte>>)
      modifies this
      ensures trace == old(trace) + [ReadFile(path)]
      ensures bytes == if attempt in env.unreadable then None else Some(env.archive)
    {
      trace := trace + [ReadFile(path)];
      bytes := if attempt in env.unreadable then None else Some(env.archive);
    }

    /** The POST of attempt `attempt`. */
    method Send(url: string, request: BuildRequest, key: Option<string>, timeoutMillis: int, attempt: nat)
      returns (reply: Reply)
      modifies this
      ensures trace == old(trace) + [Post(url, request, key, timeoutMillis)] && reply == env.replies(attempt)
    {
      trace := trace + [Post(url, request, key, timeoutMillis)];
      reply := env.replies(attempt);
    }

    method Fetch(url: string, timeoutMillis: int) returns (reply: Reply)
      modifies this
      ensures trace == old(trace) + [Get(url, timeoutMillis)] && reply == env.health
    {
      trace := trace + [Get(url, timeoutMillis)];
      reply := env.health;
    }

    method Pause(millis: int)
      modifies this
      ensures trace == old(trace) + [Sleep(millis)]
    {
      trace := trace + [Sleep(millis)];
    }
  }

  class Client {
    const config: Config

    constructor (config: Config)
      ensures this.config == config
    {
      this.config := config;
    }

    /** `buildProject`; `nowMillis` names the archive, `distExists` says whether the
        project already has a `dist` directory. */
    method BuildProject(dir: LocalProject, nowMillis: int, distExists: bool, host: Host) returns (ok: bool)
      modifies host
      ensures ok == BuildRun(config, host.env, dir, nowMillis, distExists).ok
      ensures host.trace == old(host.trace) + BuildRun(config, host.env, dir, nowMillis, distExists).effects
    {
      if !config.enabled {
        return false;
      }
      if !dir.present || !dir.isDirectory {
        return false;
      }
      var zipPath := ZipPath(host.env, dir.name, nowMillis);
      var zipped := host.Do(Zip(dir.path, zipPath));
      if !zipped {
        return false;
      }
      ghost var sent := Attempts(config, host.env, zipPath, dir, distExists, 0);
      var built := SendBuildRequest(zipPath, dir, distExists, host);
      var deleted := host.Do(Delete(zipPath));
      ok := built && deleted;
      Associate(old(host.trace), [Zip(dir.path, zipPath)], sent.effects);
      Associate(old(host.trace), [Zip(dir.path, zipPath)] + sent.effects, [Delete(zipPath)]);
    }

    method IsAvailable(host: Host) returns (ok: bool)
      modifies host
      ensures ok == AvailableRun(config, host.env).ok
      ensures host.trace == old(host.trace) + AvailableRun(config, host.env).effects
    {
      if !config.enabled {
        return false;
      }
      var reply := host.Fetch(HealthUrl(config), ToInt32(config.connectTimeout * 1000));
      ok := IsOk(reply);
    }

    method SendBuildRequest(zipPath: string, dir: LocalProject, distExists: bool, host: Host) returns (ok: bool)
      modifies host
      ensures ok == Attempts(config, host.env, zipPath, dir, distExists, 0).ok
      ensures host.trace == old(host.trace) + Attempts(config, host.env, zipPath, dir, distExists, 0).effects
    {
      var retries: nat := 0;
      while retries < config.maxRetries
        invariant host.trace + Attempts(config, host.env, zipPath, dir, distExists, retries).effects
                  == old(host.trace) + Attempts(config, host.env, zipPath, dir, distExists, 0).effects
        invariant Attempts(config, host.env, zipPath, dir, distExists, retries).ok
                  == Attempts(config, host.env, zipPath, dir, distExists, 0).ok
        decreases config.maxRetries - retries
      {
        ghost var before := host.trace;
        ghost var step := AttemptAt(config, host.env, zipPath, dir, distExists, retries);
        var verdict := TryOnce(zipPath, dir, distExists, retries, host);
        if verdict.Finished? {
          return verdict.ok;
        }
        ghost var rest := Attempts(config, host.env, zipPath, dir, distExists, retries + 1);
        ghost var pause: seq<Effect> := if retries + 1 < config.maxRetries then [Sleep(2000)] else [];
        retries := retries + 1;
        if retries < config.maxRetries {
          host.Pause(2000);
        }
        assert host.trace == before + step.effects + pause;
        Associate(before, step.effects, pause);
        Associate(before, step.effects + pause, rest.effects);
      }
      return false;
    }

    /** The body of the retry loop. */
    method TryOnce(zipPath: string, dir: LocalProject, distExists: bool, attempt: nat, host: Host)
      returns (verdict: Verdict)
      modifies host
      ensures verdict == AttemptAt(config, host.env, zipPath, dir, distExists, attempt).verdict
      ensures host.trace == old(host.trace) + AttemptAt(config, host.env, zipPath, dir, distExists, attempt).effects
    {
      ghost var spec := AttemptAt(config, host.env, zipPath, dir, distExists, attempt);
      var bytes := host.ReadArchive(zipPath, attempt);
      if bytes.None? {
        return Again;
      }
      var request := BuildRequest(dir.name, Encode(bytes.value));
      var reply := host.Send(BuildUrl(config), request, ApiKeyHeader(config.apiKey),
                             ToInt32(config.readTimeout * 1000), attempt);
      ghost var head := [ReadFile(zipPath), RequestEffect(config, host.env, dir)];
      assert host.trace == old(host.trace) + head;
      if IsOk(reply) && reply.body.Some? && reply.body.value.success == Some(true) {
        var content := reply.body.value.distContent;
        if content.Some? && content.value != "" {
          ghost var save := SaveRun(host.env, content.value, dir.path, distExists);
          assert spec == Step(Finished(save.ok), head + save.effects);
          var saved := SaveDistContent(content.value, dir, distExists, host);
          Associate(old(host.trace), head, save.effects);
          return Finished(saved);
        }
        assert spec == Step(Finished(true), head);
        return Finished(true);
      }
      assert spec == Step(Again, head);
      return Again;
    }

    method SaveDistContent(content: string, dir: LocalProject, distExists: bool, host: Host) returns (ok: bool)
      modifies host
      ensures ok == SaveRun(host.env, content, dir.path, distExists).ok
      ensures host.trace == old(host.trace) + SaveRun(host.env, content, dir.path, distExists).effects
    {
      var bytes := Decode(content);
      if bytes.None? {
        return false;
      }
      ok := StoreDist(bytes.value, dir, distExists, host);
    }

    /** The file-system part of `saveDistContent`, once the text is decoded. */
    method StoreDist(bytes: seq<Byte>, dir: LocalProject, distExists: bool, host: Host) returns (ok: bool)
      modifies host
      ensures ok == StoreRun(host.env, bytes, dir.path, distExists).ok
      ensures host.trace == old(host.trace) + StoreRun(host.env, bytes, dir.path, distExists).effects
    {
      var dist := DistDir(host.env.sep, dir.path);
      var temp := host.env.tempZip;
      ok := host.Do(CreateTemp("dist_", ".zip"));
      if !ok {
        return false;
      }
      ok := host.Do(WriteFile(temp, bytes));
      if !ok {
        return false;
      }
      if distExists {
        ok := host.Do(Delete(dist));
        if !ok {
          return false;
        }
      }
      var _ := host.Do(MakeDirs(dist));
      ok := host.Do(Unzip(temp, dist));
      if !ok {
        return false;
      }
      ok := host.Do(Delete(temp));
    }
  }
}
