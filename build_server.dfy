/** The remote build server: an HTTP service that receives a zipped project as base 64,
    installs and builds it with npm in its work directory, and answers with the zipped
    `dist` folder as base 64. It removes the project and its archive afterwards, whether the
    build succeeded or not, and offers a status listing and a manual clean-up of the work
    directory.

    The server's state is the listing of its work directory and the trace of the effects it
    issued; what the outside world does (which effects throw, which builds leave a `dist`
    folder, the bytes of each packed `dist` folder) is fixed in an `Env`. Names are relative
    to the work directory. */
module BuildServer {
  import opened Common
  import opened Base64

  datatype Effect =
    | Write(name: string, bytes: seq<Byte>)            // fs.writeFileSync
    | Extract(archive: string, dir: string)            // AdmZip.extractAllTo
    | Exec(command: string, cwd: string, timeoutMillis: int)   // execSync
    | Pack(dir: string)                                // AdmZip.addLocalFolder + toBuffer
    | Remove(name: string)                             // fs.removeSync
    | List                                             // fs.readdirSync
    | Empty                                            // fs.emptyDirSync

  /** `fails`: the effects that throw (for `execSync`, a non-zero exit status or the time
      limit); `distMade`: the projects whose build leaves a `dist` folder; `packed`: the
      bytes of each project's zipped `dist` folder; `lenient`: what Node's decoder makes of
      text that is not canonical base 64. */
  datatype Env = Env(
    fails: iset<Effect>,
    distMade: iset<string>,
    packed: string -> seq<Byte>,
    lenient: string -> seq<Byte>)

  /** `Buffer.from(text, 'base64')`. */
  function BufferFrom(env: Env, text: string): seq<Byte> {
    match Decode(text)
    case Some(bytes) => bytes
    case None => env.lenient(text)
  }

  // ---------------------------------------------------------------------------
  // The work directory

  /** The listing with `name` added (at the end, when it is new). */
  function Add(entries: seq<string>, name: string): seq<string> {
    if name in entries then entries else entries + [name]
  }

  /** The listing without `name`. */
  function Without(entries: seq<string>, name: string): (r: seq<string>)
    ensures forall x :: x in r <==> x in entries && x != name
    decreases |entries|
  {
    if entries == [] then []
    else if entries[|entries| - 1] == name then Without(entries[..|entries| - 1], name)
    else Without(entries[..|entries| - 1], name) + [entries[|entries| - 1]]
  }

  /** The listing after one effect; an effect that throws changes nothing. */
  function Apply(env: Env, entries: seq<string>, e: Effect): seq<string> {
    if e in env.fails then entries
    else match e
      case Write(name, _) => Add(entries, name)
      case Extract(_, dir) => Add(entries, dir)
      case Remove(name) => Without(entries, name)
      case Empty => []
      case _ => entries
  }

  function Replay(env: Env, entries: seq<string>, effects: seq<Effect>): seq<string>
    decreases |effects|
  {
    if effects == [] then entries
    else Apply(env, Replay(env, entries, effects[..|effects| - 1]), effects[|effects| - 1])
  }

  lemma ReplayStep(env: Env, entries: seq<string>, effects: seq<Effect>, e: Effect)
    ensures Replay(env, entries, effects + [e]) == Apply(env, Replay(env, entries, effects), e)
  {
    assert (effects + [e])[..|effects|] == effects;
  }

  lemma {:induction false} ReplayAppend(env: Env, entries: seq<string>, a: seq<Effect>, b: seq<Effect>)
    ensures Replay(env, entries, a + b) == Replay(env, Replay(env, entries, a), b)
    decreases |b|
  {
    if b == [] {
      assert a + b == a;
    } else {
      var c := b[..|b| - 1];
      assert (a + b)[..|a + b| - 1] == a + c;
      ReplayAppend(env, entries, a, c);
    }
  }

  // ---------------------------------------------------------------------------
  // Requests and responses

  /** `validateApiKey`: with no key configured (`""`) every request passes; otherwise the
      `x-api-key` header must equal the key. */
  predicate Authorized(apiKey: string, header: Option<string>)
    ensures apiKey == "" ==> Authorized(apiKey, header)
    ensures apiKey != "" ==> (Authorized(apiKey, header) <==> header.Some? && header.value == apiKey)
  {
    apiKey == "" || header == Some(apiKey)
  }

  /** A JSON string field is truthy when present and not empty. */
  predicate Truthy(field: Option<string>) {
    field.Some? && field.value != ""
  }

  datatype BuildRequest = BuildRequest(apiKeyHeader: Option<string>, projectName: Option<string>, fileContent: Option<string>)

  datatype Body =
    | Report(success: bool, distContent: Option<string>)
    | Stats(workDir: string, fileCount: nat, files: seq<string>)
    | ErrorOnly
    | Healthy

  datatype Response = Response(status: int, body: Body)

  datatype Step<T> = Step(result: T, effects: seq<Effect>)

  /** `GET /health`. */
  function Health(): Response {
    Response(200, Healthy)
  }

  function Refusal(status: int): Response {
    Response(status, Report(false, None))
  }

  /** The `try` block of `POST /api/build` up to the packed `dist` folder; `None` when a
      step threw or there is no `dist` folder. */
  function PipelineRun(env: Env, name: string, content: string): (r: Step<Option<seq<Byte>>>)
    ensures 1 <= |r.effects| <= 5 && r.effects[0] == Write(name + ".zip", BufferFrom(env, content))
    ensures r.result.Some? ==> r.result.value == env.packed(name) && name in env.distMade
    ensures r.result.Some? <==> |r.effects| == 5 && forall e | e in r.effects :: e !in env.fails
    ensures Exec("npm run build", name, 300000) in r.effects ==> Exec("npm install", name, 600000) !in env.fails
  {
    var w := Write(name + ".zip", BufferFrom(env, content));
    var x := Extract(name + ".zip", name);
    var i := Exec("npm install", name, 600000);
    var b := Exec("npm run build", name, 300000);
    var p := Pack(name + "/dist");
    if w in env.fails then Step(None, [w])
    else if x in env.fails then Step(None, [w, x])
    else if i in env.fails then Step(None, [w, x, i])
    else if b in env.fails then Step(None, [w, x, i, b])
    else if name !in env.distMade then Step(None, [w, x, i, b])
    else if p in env.fails then Step(None, [w, x, i, b, p])
    else Step(Some(env.packed(name)), [w, x, i, b, p])
  }

  /** Removing the project and then its archive, as both the `try` and the `catch` blocks
      do: when removing the project throws, the archive is not attempted. */
  function Removals(env: Env, name: string): seq<Effect> {
    if Remove(name) in env.fails then [Remove(name)] else [Remove(name), Remove(name + ".zip")]
  }

  /** One of the two removals throws. */
  predicate RemovalThrows(env: Env, name: string) {
    Remove(name) in env.fails || Remove(name + ".zip") in env.fails
  }

  /** `POST /api/build`. */
  function BuildRun(apiKey: string, env: Env, req: BuildRequest): (r: Step<Response>)
    ensures r.result.status == 401 <==> !Authorized(apiKey, req.apiKeyHeader)
    ensures r.result.status == 400 <==>
      Authorized(apiKey, req.apiKeyHeader) && (!Truthy(req.projectName) || !Truthy(req.fileContent))
    ensures r.effects == [] <==> r.result.status == 401 || r.result.status == 400
    ensures r.result.status == 200 || r.result == Refusal(r.result.status)
  {
    if !Authorized(apiKey, req.apiKeyHeader) then Step(Refusal(401), [])
    else if !Truthy(req.projectName) || !Truthy(req.fileContent) then Step(Refusal(400), [])
    else
      var name := req.projectName.value;
      var p := PipelineRun(env, name, req.fileContent.value);
      if p.result.None? then Step(Refusal(500), p.effects + Removals(env, name))
      else if RemovalThrows(env, name) then Step(Refusal(500), p.effects + Removals(env, name) + Removals(env, name))
      else Step(Response(200, Report(true, Some(Encode(p.result.value)))), p.effects + Removals(env, name))
  }

  /** `GET /api/status`: the number of entries and the first ten names. */
  function StatusRun(apiKey: string, workDir: string, env: Env, header: Option<string>, entries: seq<string>): (r: Step<Response>)
    ensures r.result.status == 200 <==> Authorized(apiKey, header) && List !in env.fails
    ensures r.result.status == 200 ==>
      && r.result.body.Stats? && r.result.body.fileCount == |entries|
      && |r.result.body.files| <= 10 && r.result.body.files <= entries
      && |r.result.body.files| == (if |entries| <= 10 then |entries| else 10)
  {
    if !Authorized(apiKey, header) then Step(Refusal(401), [])
    else if List in env.fails then Step(Response(500, ErrorOnly), [List])
    else Step(Response(200, Stats(workDir, |entries|, if |entries| <= 10 then entries else entries[..10])), [List])
  }

  /** `POST /api/cleanup`. */
  function CleanupRun(apiKey: string, env: Env, header: Option<string>): (r: Step<Response>)
    ensures r.result.status == 200 <==> Authorized(apiKey, header) && Empty !in env.fails
    ensures r.effects == if Authorized(apiKey, header) then [Empty] else []
  {
    if !Authorized(apiKey, header) then Step(Refusal(401), [])
    else if Empty in env.fails then Step(Refusal(500), [Empty])
    else Step(Response(200, Report(true, None)), [Empty])
  }

  // ---------------------------------------------------------------------------
  // Properties

  /** With a key configured, a request without the same `x-api-key` header is refused with
      401 on every guarded endpoint and nothing is done; with no key configured, no request
      is refused for its header. */
  lemma ApiKeyGate(apiKey: string, workDir: string, env: Env, req: BuildRequest, entries: seq<string>)
    ensures apiKey != "" && req.apiKeyHeader != Some(apiKey) ==>
      && BuildRun(apiKey, env, req) == Step(Refusal(401), [])
      && StatusRun(apiKey, workDir, env, req.apiKeyHeader, entries) == Step(Refusal(401), [])
      && CleanupRun(apiKey, env, req.apiKeyHeader) == Step(Refusal(401), [])
    ensures apiKey == "" ==>
      && BuildRun(apiKey, env, req).result.status != 401
      && StatusRun(apiKey, workDir, env, req.apiKeyHeader, entries).result.status != 401
      && CleanupRun(apiKey, env, req.apiKeyHeader).result.status != 401
  {
  }

  /** A request missing the project name or the content is refused with 400 and nothing is
      written. */
  lemma MissingParameters(apiKey: string, env: Env, req: BuildRequest)
    requires Authorized(apiKey, req.apiKeyHeader)
    requires !Truthy(req.projectName) || !Truthy(req.fileContent)
    ensures BuildRun(apiKey, env, req) == Step(Refusal(400), [])
  {
  }

  /** The build succeeds exactly when every step succeeds, the build leaves a `dist` folder
      and both removals succeed; the answer then carries the packed folder, which the
      client's decoder turns back into the same bytes. Every other admitted request is
      answered with 500 and `success: false`. */
  lemma BuildOutcome(apiKey: string, env: Env, req: BuildRequest)
    requires Authorized(apiKey, req.apiKeyHeader) && Truthy(req.projectName) && Truthy(req.fileContent)
    ensures var name := req.projectName.value;
      var r := BuildRun(apiKey, env, req).result;
      && (r.status == 200 <==>
            && Write(name + ".zip", BufferFrom(env, req.fileContent.value)) !in env.fails
            && Extract(name + ".zip", name) !in env.fails
            && Exec("npm install", name, 600000) !in env.fails
            && Exec("npm run build", name, 300000) !in env.fails
            && name in env.distMade
            && Pack(name + "/dist") !in env.fails
            && Remove(name) !in env.fails && Remove(name + ".zip") !in env.fails)
      && (r.status == 200 ==> r.body.success && Decode(r.body.distContent.value) == Some(env.packed(name)))
      && (r.status != 200 ==> r == Refusal(500))
  {
    var name := req.projectName.value;
    DecodeEncode(env.packed(name));
  }

  /** The archive the client encodes is what the server writes to disk. */
  lemma UploadRoundTrip(env: Env, name: string, archive: seq<Byte>)
    ensures BufferFrom(env, Encode(archive)) == archive
    ensures PipelineRun(env, name, Encode(archive)).effects[0] == Write(name + ".zip", archive)
  {
    DecodeEncode(archive);
  }

  /** An admitted request runs the pipeline first. */
  lemma AdmittedRunsPipeline(apiKey: string, env: Env, req: BuildRequest)
    requires Authorized(apiKey, req.apiKeyHeader) && Truthy(req.projectName) && Truthy(req.fileContent)
    ensures PipelineRun(env, req.projectName.value, req.fileContent.value).effects <= BuildRun(apiKey, env, req).effects
  {
  }

  /** When `npm install` fails, `npm run build` is never run. */
  lemma InstallFailureStopsBuild(apiKey: string, env: Env, req: BuildRequest)
    requires Authorized(apiKey, req.apiKeyHeader) && Truthy(req.projectName) && Truthy(req.fileContent)
    requires Exec("npm install", req.projectName.value, 600000) in env.fails
    ensures Exec("npm run build", req.projectName.value, 300000) !in BuildRun(apiKey, env, req).effects
  {
  }

  /** Every admitted request ends by trying to remove the project, on success and on
      failure; when the removals succeed neither the project nor its archive is left in the
      work directory. */
  lemma NoLeftovers(apiKey: string, env: Env, req: BuildRequest, entries: seq<string>)
    requires Authorized(apiKey, req.apiKeyHeader) && Truthy(req.projectName) && Truthy(req.fileContent)
    ensures Remove(req.projectName.value) in BuildRun(apiKey, env, req).effects
    ensures Remove(req.projectName.value) !in env.fails && Remove(req.projectName.value + ".zip") !in env.fails ==>
      var after := Replay(env, entries, BuildRun(apiKey, env, req).effects);
      req.projectName.value !in after && req.projectName.value + ".zip" !in after
  {
    var name := req.projectName.value;
    var r := BuildRun(apiKey, env, req);
    var n := |r.effects|;
    if Remove(name) !in env.fails && Remove(name + ".zip") !in env.fails {
      assert r.effects[n - 2] == Remove(name) && r.effects[n - 1] == Remove(name + ".zip");
      assert r.effects == r.effects[..n - 2] + [Remove(name)] + [Remove(name + ".zip")];
      ReplayStep(env, entries, r.effects[..n - 2] + [Remove(name)], Remove(name + ".zip"));
      ReplayStep(env, entries, r.effects[..n - 2], Remove(name));
    }
  }

  /** The status reports how many entries there are but names at most the first ten, in
      listing order. */
  lemma StatusListsFirstTen(apiKey: string, workDir: string, env: Env, header: Option<string>, entries: seq<string>)
    requires Authorized(apiKey, header) && List !in env.fails
    ensures var r := StatusRun(apiKey, workDir, env, header, entries).result;
      && r.status == 200
      && r.body.fileCount == |entries|
      && |r.body.files| <= 10
      && r.body.files <= entries
      && (|entries| <= 10 ==> r.body.files == entries)
      && (|entries| > 10 ==> r.body.files == entries[..10])
  {
  }

  /** The manual clean-up leaves the work directory empty and reports success. */
  lemma CleanupEmpties(apiKey: string, env: Env, header: Option<string>, entries: seq<string>)
    requires Authorized(apiKey, header) && Empty !in env.fails
    ensures CleanupRun(apiKey, env, header).result == Response(200, Report(true, None))
    ensures Replay(env, entries, CleanupRun(apiKey, env, header).effects) == []
  {
    ReplayStep(env, entries, [], Empty);
  }

  // ---------------------------------------------------------------------------
  // The server

  class Server {
    const apiKey: string
    const workDir: string
    const env: Env
    var entries: seq<string>
    var trace: seq<Effect>

    constructor (apiKey: string, workDir: string, env: Env, entries: seq<string>)
      ensures this.apiKey == apiKey && this.workDir == workDir && this.env == env
      ensures this.entries == entries && trace == []
    {
      this.apiKey := apiKey;
      this.workDir := workDir;
      this.env := env;
      this.entries := entries;
      trace := [];
    }

    /** Issues one effect; `threw` tells whether it raised an exception. */
    method Do(e: Effect) returns (threw: bool)
      modifies this`entries, this`trace
      ensures threw == (e in env.fails)
      ensures trace == old(trace) + [e]
      ensures entries == Apply(env, old(entries), e)
    {
      trace := trace + [e];
      threw := e in env.fails;
      entries := Apply(env, entries, e);
    }

    /** One more effect after `done`, keeping the trace and the disk in step with it. */
    method Next(ghost entries0: seq<string>, ghost trace0: seq<Effect>, ghost done: seq<Effect>, e: Effect)
      returns (threw: bool)
      requires entries == Replay(env, entries0, done) && trace == trace0 + done
      modifies this`entries, this`trace
      ensures threw == (e in env.fails)
      ensures entries == Replay(env, entries0, done + [e]) && trace == trace0 + (done + [e])
    {
      threw := Do(e);
      ReplayStep(env, entries0, done, e);
    }

    /** `POST /api/build`. */
    method HandleBuild(req: BuildRequest) returns (r: Response)
      modifies this`entries, this`trace
      ensures var spec := BuildRun(apiKey, env, req);
        && r == spec.result
        && trace == old(trace) + spec.effects
        && entries == Replay(env, old(entries), spec.effects)
    {
      if !Authorized(apiKey, req.apiKeyHeader) {
        return Refusal(401);
      }
      if !Truthy(req.projectName) || !Truthy(req.fileContent) {
        return Refusal(400);
      }
      var name := req.projectName.value;
      ghost var entries0 := entries;
      ghost var trace0 := trace;
      var dist := Pipeline(name, req.fileContent.value);
      ghost var p := PipelineRun(env, name, req.fileContent.value);
      ghost var removals := Removals(env, name);
      if dist.None? {
        var _ := RemoveProject(name);
        ReplayAppend(env, entries0, p.effects, removals);
        Associate(trace0, p.effects, removals);
        return Refusal(500);
      }
      var threw := RemoveProject(name);
      ReplayAppend(env, entries0, p.effects, removals);
      Associate(trace0, p.effects, removals);
      if threw {
        var _ := RemoveProject(name);
        ReplayAppend(env, entries0, p.effects + removals, removals);
        Associate(trace0, p.effects + removals, removals);
        return Refusal(500);
      }
      return Response(200, Report(true, Some(Encode(dist.value))));
    }

    /** The `try` block of `POST /api/build` up to the packed `dist` folder. */
    method Pipeline(name: string, content: string) returns (dist: Option<seq<Byte>>)
      modifies this`entries, this`trace
      ensures var spec := PipelineRun(env, name, content);
        && dist == spec.result
        && trace == old(trace) + spec.effects
        && entries == Replay(env, old(entries), spec.effects)
    {
      ghost var entries0, trace0 := entries, trace;
      ghost var spec := PipelineRun(env, name, content);
      var w := Write(name + ".zip", BufferFrom(env, content));
      var threw := Next(entries0, trace0, [], w);
      assert [] + [w] == [w];
      if threw {
        assert spec == Step(None, [w]);
        return None;
      }
      var x := Extract(name + ".zip", name);
      threw := Next(entries0, trace0, [w], x);
      assert [w] + [x] == [w, x];
      if threw {
        assert spec == Step(None, [w, x]);
        return None;
      }
      var i := Exec("npm install", name, 600000);
      threw := Next(entries0, trace0, [w, x], i);
      assert [w, x] + [i] == [w, x, i];
      if threw {
        assert spec == Step(None, [w, x, i]);
        return None;
      }
      var b := Exec("npm run build", name, 300000);
      threw := Next(entries0, trace0, [w, x, i], b);
      assert [w, x, i] + [b] == [w, x, i, b];
      if threw || name !in env.distMade {
        assert spec == Step(None, [w, x, i, b]);
        return None;
      }
      var p := Pack(name + "/dist");
      threw := Next(entries0, trace0, [w, x, i, b], p);
      assert [w, x, i, b] + [p] == [w, x, i, b, p];
      if threw {
        assert spec == Step(None, [w, x, i, b, p]);
        return None;
      }
      assert spec == Step(Some(env.packed(name)), [w, x, i, b, p]);
      return Some(env.packed(name));
    }

    /** `fs.removeSync` of the project, then of its archive; `threw` tells whether one of
        them threw. */
    method RemoveProject(name: string) returns (threw: bool)
      modifies this`entries, this`trace
      ensures threw == RemovalThrows(env, name)
      ensures trace == old(trace) + Removals(env, name)
      ensures entries == Replay(env, old(entries), Removals(env, name))
    {
      ghost var entries0 := entries;
      threw := Do(Remove(name));
      ReplayStep(env, entries0, [], Remove(name));
      if !threw {
        threw := Do(Remove(name + ".zip"));
        ReplayStep(env, entries0, [Remove(name)], Remove(name + ".zip"));
      }
    }

    /** `GET /api/status`. */
    method HandleStatus(header: Option<string>) returns (r: Response)
      modifies this`entries, this`trace
      ensures var spec := StatusRun(apiKey, workDir, env, header, old(entries));
        && r == spec.result
        && trace == old(trace) + spec.effects
        && entries == old(entries)
    {
      if !Authorized(apiKey, header) {
        return Refusal(401);
      }
      var threw := Do(List);
      if threw {
        return Response(500, ErrorOnly);
      }
      var files := entries;
      r := Response(200, Stats(workDir, |files|, if |files| <= 10 then files else files[..10]));
    }

    /** `POST /api/cleanup`. */
    method HandleCleanup(header: Option<string>) returns (r: Response)
      modifies this`entries, this`trace
      ensures var spec := CleanupRun(apiKey, env, header);
        && r == spec.result
        && trace == old(trace) + spec.effects
        && entries == Replay(env, old(entries), spec.effects)
    {
      if !Authorized(apiKey, header) {
        return Refusal(401);
      }
      var threw := Do(Empty);
      ReplayStep(env, old(entries), [], Empty);
      if threw {
        return Refusal(500);
      }
      return Response(200, Report(true, None));
    }
  }
}
