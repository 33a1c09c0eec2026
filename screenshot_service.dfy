/** Taking a screenshot of a generated site and publishing it as the application's cover:
    a third-party screenshot API renders the page, the picture is downloaded, cropped to its
    top 810 pixels, converted to JPEG, uploaded to the object store, and the local working
    directory is removed whatever the upload did.

    The machine the service runs on is a `Machine`: the local files and directories that
    exist, and the trace of every effect issued. What the outside world answers (the API's
    reply, whether a download writes its file, the decoded image, the store's answer, and
    which effects throw) is fixed in an `Env`. */
module ScreenshotService {
  import opened Common
  import OssManager

  // ---------------------------------------------------------------------------
  // Object keys and the crop

  datatype Date = Date(year: nat, month: nat, day: nat)

  /** `yyyy/MM/dd`. */
  function DatePath(d: Date): string {
    ZeroPad(d.year, 4) + "/" + ZeroPad(d.month, 2) + "/" + ZeroPad(d.day, 2)
  }

  /** The object name: the first eight characters of a random UUID, then `_compressed.jpg`. */
  function FileName(uuidPrefix: string): string {
    uuidPrefix + "_compressed.jpg"
  }

  /** `generateScreenshotKey`: `screenshots/<yyyy/MM/dd>/<fileName>`. */
  function ScreenshotKey(today: Date, fileName: string): string {
    "screenshots/" + DatePath(today) + "/" + fileName
  }

  /** Every key lies under `screenshots/`, in a folder named by the date, ends with the file
      name, and the file name of a screenshot ends with `_compressed.jpg`. */
  lemma ScreenshotKeyShape(today: Date, uuidPrefix: string)
    ensures var key := ScreenshotKey(today, FileName(uuidPrefix));
      && "screenshots/" <= key
      && key[12..12 + |DatePath(today)|] == DatePath(today)
      && key[|key| - |FileName(uuidPrefix)|..] == FileName(uuidPrefix)
      && key[|key| - 15..] == "_compressed.jpg"
  {
  }

  /** On one day, different file names give different keys. */
  lemma ScreenshotKeyInjective(today: Date, a: string, b: string)
    requires ScreenshotKey(today, a) == ScreenshotKey(today, b)
    ensures a == b
  {
    SamePrefixCancel("screenshots/" + DatePath(today) + "/", a, b);
  }

  datatype Rect = Rect(x: int, y: int, width: int, height: int)
  datatype Dims = Dims(width: int, height: int)

  /** The part of the picture that is kept: `min(810, height)` rows from the top, full width. */
  function CropRect(image: Dims): Rect {
    Rect(0, 0, image.width, if 810 < image.height then 810 else image.height)
  }

  /** The crop starts at the top-left corner and spans the full width; it is never taller
      than 810 pixels nor than the picture; a picture at most 810 pixels tall is kept whole
      and a taller one is cut to exactly 810 rows. */
  lemma CropKeepsTop(image: Dims)
    ensures var r := CropRect(image);
      && r.x == 0 && r.y == 0 && r.width == image.width
      && r.height <= 810 && r.height <= image.height
      && (image.height <= 810 ==> r.height == image.height)
      && (image.height > 810 ==> r.height == 810)
  {
  }

  // ---------------------------------------------------------------------------
  // The machine

  /** The JSON reply of the screenshot API: its `code` and its `data` object with the
      `download_link` inside (either may be absent). */
  datatype ApiReply = ApiReply(code: Option<int>, data: Option<Option<string>>)

  datatype Effect =
    | MakeDir(path: string)
    | CallApi(apiUrl: string, apiKey: string, webUrl: string, width: int, imageType: string)
    | Download(link: string, path: string)
    | ReadImage(path: string)
    | Cut(rect: Rect, dst: string)
    | Convert(src: string, dst: string)
    | Delete(path: string)
    | Put(request: OssManager.PutRequest)
    | DeleteTree(dir: string)

  /** The world outside the service. `fails` holds the effects that throw; `served` the links
      whose download writes the file; `image` what reading the picture gives (`None`: null);
      `acknowledged` the put requests the store answers with a result. */
  datatype Env = Env(
    userDir: string,
    sep: char,
    fails: iset<Effect>,
    reply: ApiReply,
    served: iset<string>,
    image: Option<Dims>,
    acknowledged: iset<OssManager.PutRequest>)

  /** `f` is `d` or lies below it. */
  predicate Within(sep: char, d: string, f: string) {
    f == d || d + [sep] <= f
  }

  /** The files after one effect. An effect that throws changes nothing. */
  function Apply(env: Env, files: set<string>, e: Effect): set<string> {
    if e in env.fails then files
    else match e
      case MakeDir(p) => files + {p}
      case Download(link, p) => if link in env.served then files + {p} else files
      case Cut(_, dst) => files + {dst}
      case Convert(_, dst) => files + {dst}
      case Delete(p) => files - {p}
      case DeleteTree(d) => set f | f in files && !Within(env.sep, d, f)
      case _ => files
  }

  /** The files after a sequence of effects. */
  function Replay(env: Env, files: set<string>, effects: seq<Effect>): set<string>
    decreases |effects|
  {
    if effects == [] then files
    else Apply(env, Replay(env, files, effects[..|effects| - 1]), effects[|effects| - 1])
  }

  lemma {:induction false} ReplayAppend(env: Env, files: set<string>, a: seq<Effect>, b: seq<Effect>)
    ensures Replay(env, files, a + b) == Replay(env, Replay(env, files, a), b)
    decreases |b|
  {
    if b == [] {
      assert a + b == a;
    } else {
      var c := b[..|b| - 1];
      assert (a + b)[..|a + b| - 1] == a + c;
      ReplayAppend(env, files, a, c);
    }
  }

  lemma ReplayStep(env: Env, files: set<string>, effects: seq<Effect>, e: Effect)
    ensures Replay(env, files, effects + [e]) == Apply(env, Replay(env, files, effects), e)
  {
    assert (effects + [e])[..|effects|] == effects;
  }

  /** `File.getParentFile`: everything before the last separator. */
  function ParentOf(sep: char, path: string): string
    decreases |path|
  {
    if path == [] then []
    else if path[|path| - 1] == sep then path[..|path| - 1]
    else ParentOf(sep, path[..|path| - 1])
  }

  lemma {:induction false} ParentOfJoin(sep: char, dir: string, name: string)
    requires sep !in name
    ensures ParentOf(sep, dir + [sep] + name) == dir
    decreases |name|
  {
    var p := dir + [sep] + name;
    if name == [] {
      assert p[..|p| - 1] == dir;
    } else {
      var q := name[..|name| - 1];
      assert p[..|p| - 1] == dir + [sep] + q;
      ParentOfJoin(sep, dir, q);
    }
  }

  class Machine {
    const env: Env
    var files: set<string>
    var trace: seq<Effect>

    constructor (env: Env, files: set<string>)
      ensures this.env == env && this.files == files && trace == []
    {
      this.env := env;
      this.files := files;
      trace := [];
    }

    /** Issues one effect; `threw` tells whether it raised an exception. */
    method Do(e: Effect) returns (threw: bool)
      modifies this`files, this`trace
      ensures threw == (e in env.fails)
      ensures trace == old(trace) + [e]
      ensures files == Apply(env, old(files), e)
    {
      trace := trace + [e];
      threw := e in env.fails;
      files := Apply(env, files, e);
    }
  }

  // ---------------------------------------------------------------------------
  // The pipeline, stage by stage

  /** A stage's result together with the effects it issued. */
  datatype Step<T> = Step(result: T, effects: seq<Effect>)

  /** How the whole operation ends: the address, a business exception, or another
      exception thrown by a library call. */
  datatype Outcome = Returned(url: string) | Refused(code: ErrorCode) | Crashed

  /** A local picture, or the way the operation ended before there was one. */
  datatype Local = LocalFile(path: string) | NoLocal(outcome: Outcome)

  /** What the upload gives: the address or null, or an exception. */
  datatype Upload = Stored(url: Option<string>) | UploadThrew

  /** The random parts of the local names: the working directory's UUID prefix and the
      five random digits of each of the three pictures. */
  datatype Tokens = Tokens(dirId: string, pngId: string, croppedId: string, jpgId: string)

  /** The service's own settings. */
  datatype Settings = Settings(apiUrl: string, apiKey: string, oss: OssManager.OssConfig)

  function WorkDir(env: Env, t: Tokens): string {
    env.userDir + [env.sep] + "tmp" + [env.sep] + "screenshots" + [env.sep] + t.dirId
  }

  function PngPath(env: Env, t: Tokens): string {
    WorkDir(env, t) + [env.sep] + (t.pngId + ".png")
  }

  function CroppedPath(env: Env, t: Tokens): string {
    WorkDir(env, t) + [env.sep] + (t.croppedId + "_cropped.png")
  }

  function JpgPath(env: Env, t: Tokens): string {
    WorkDir(env, t) + [env.sep] + (t.jpgId + "_compressed.jpg")
  }

  /** The first half of `downloadScreenshotViaApi`: create the working directory, call the
      API, check its reply and download the picture. */
  function FetchRun(s: Settings, env: Env, webUrl: string, t: Tokens, files: set<string>): (r: Step<Local>)
    ensures 1 <= |r.effects| <= 3 && r.effects[0] == MakeDir(WorkDir(env, t))
    ensures r.result.LocalFile? ==> r.result.path == PngPath(env, t) && env.reply.code == Some(1)
    ensures r.result.NoLocal? ==> r.result.outcome in {Crashed, Refused(OperationError)}
  {
    var mk := MakeDir(WorkDir(env, t));
    var call := CallApi(s.apiUrl, s.apiKey, webUrl, 1440, "png");
    if mk in env.fails then Step(NoLocal(Crashed), [mk])
    else if call in env.fails then Step(NoLocal(Crashed), [mk, call])
    else if env.reply.code.GetOr(0) != 1 then Step(NoLocal(Refused(OperationError)), [mk, call])
    else if env.reply.data.None? then Step(NoLocal(Crashed), [mk, call])
    else if IsStrBlank(env.reply.data.value) then Step(NoLocal(Refused(OperationError)), [mk, call])
    else
      var dl := Download(env.reply.data.value.value, PngPath(env, t));
      if dl in env.fails then Step(NoLocal(Crashed), [mk, call, dl])
      else if PngPath(env, t) !in Replay(env, files, [mk, call, dl]) then
        Step(NoLocal(Refused(OperationError)), [mk, call, dl])
      else Step(LocalFile(PngPath(env, t)), [mk, call, dl])
  }

  /** The second half: read the picture, keep its top, convert it to JPEG and delete the two
      intermediate pictures. */
  function CompressRun(env: Env, t: Tokens, png: string): (r: Step<Local>)
    ensures |r.effects| >= 1 && r.effects[0] == ReadImage(png)
    ensures r.result.LocalFile? ==>
      && r.result.path == JpgPath(env, t) && env.image.Some?
      && |r.effects| >= 2 && r.effects[1] == Cut(CropRect(env.image.value), CroppedPath(env, t))
    ensures r.result.NoLocal? ==> r.result.outcome == Crashed
  {
    var read := ReadImage(png);
    if read in env.fails || env.image.None? then Step(NoLocal(Crashed), [read])
    else
      var cut := Cut(CropRect(env.image.value), CroppedPath(env, t));
      if cut in env.fails then Step(NoLocal(Crashed), [read, cut])
      else
        var c := ConvertRun(env, t, png);
        Step(c.result, [read, cut] + c.effects)
  }

  /** The conversion to JPEG and the deletion of the two PNG pictures. */
  function ConvertRun(env: Env, t: Tokens, png: string): (r: Step<Local>)
    ensures r.result.LocalFile? <==>
      && Convert(CroppedPath(env, t), JpgPath(env, t)) !in env.fails
      && Delete(png) !in env.fails && Delete(CroppedPath(env, t)) !in env.fails
    ensures r.result.LocalFile? ==> r.result.path == JpgPath(env, t)
    ensures r.result.NoLocal? ==> r.result.outcome == Crashed
  {
    var conv := Convert(CroppedPath(env, t), JpgPath(env, t));
    var del1 := Delete(png);
    var del2 := Delete(CroppedPath(env, t));
    if conv in env.fails then Step(NoLocal(Crashed), [conv])
    else if del1 in env.fails then Step(NoLocal(Crashed), [conv, del1])
    else if del2 in env.fails then Step(NoLocal(Crashed), [conv, del1, del2])
    else Step(LocalFile(JpgPath(env, t)), [conv, del1, del2])
  }

  /** `uploadScreenshotToOSS`: nothing is sent for a blank path or a missing file. */
  function UploadRun(s: Settings, env: Env, path: string, uuidPrefix: string, today: Date, files: set<string>): (r: Step<Upload>)
    ensures r.effects == [] <==> IsStrBlank(Some(path)) || path !in files
    ensures r.effects == [] ==> r.result == Stored(None)
    ensures forall e | e in r.effects :: e == Put(OssManager.PutObject(s.oss, ScreenshotKey(today, FileName(uuidPrefix)), path))
  {
    if IsStrBlank(Some(path)) || path !in files then Step(Stored(None), [])
    else
      var key := ScreenshotKey(today, FileName(uuidPrefix));
      var put := Put(OssManager.PutObject(s.oss, key, path));
      if put in env.fails then Step(UploadThrew, [put])
      else Step(Stored(OssManager.UploadFile(s.oss, key, path, env.acknowledged)), [put])
  }

  /** `cleanupLocalFile`: when the picture exists its whole directory is deleted; the
      result says whether that threw. */
  function CleanupRun(env: Env, path: string, files: set<string>): Step<bool> {
    if path in files then
      var del := DeleteTree(ParentOf(env.sep, path));
      Step(del in env.fails, [del])
    else Step(false, [])
  }

  /** How the `try` block ends, before the `finally` block runs. */
  function TryOutcome(u: Upload): Outcome {
    if u.UploadThrew? then Crashed
    else if IsStrBlank(u.url) then Refused(OperationError)
    else Returned(u.url.value)
  }

  /** `generateAndUploadScreenshot`, from the picture on: upload, then clean up in the
      `finally` block; an exception thrown there replaces the block's outcome. */
  function PublishRun(s: Settings, env: Env, local: string, uuidPrefix: string, today: Date, files: set<string>): (r: Step<Outcome>)
    ensures UploadRun(s, env, local, uuidPrefix, today, files).effects <= r.effects
    ensures r.result.Returned? ==>
      UploadRun(s, env, local, uuidPrefix, today, files).result == Stored(Some(r.result.url))
      && !IsStrBlank(Some(r.result.url))
    ensures r.result != Refused(ParamsError)
  {
    var u := UploadRun(s, env, local, uuidPrefix, today, files);
    var c := CleanupRun(env, local, Replay(env, files, u.effects));
    Step(if c.result then Crashed else TryOutcome(u.result), u.effects + c.effects)
  }

  /** `generateAndUploadScreenshot`. */
  function ScreenshotRun(s: Settings, env: Env, webUrl: string, t: Tokens, uuidPrefix: string, today: Date, files: set<string>): (r: Step<Outcome>)
    ensures r.result == Refused(ParamsError) <==> IsStrBlank(Some(webUrl))
    ensures IsStrBlank(Some(webUrl)) ==> r.effects == []
    ensures !IsStrBlank(Some(webUrl)) ==> |r.effects| >= 1 && r.effects[0] == MakeDir(WorkDir(env, t))
  {
    if IsStrBlank(Some(webUrl)) then Step(Refused(ParamsError), [])
    else
      var f := FetchRun(s, env, webUrl, t, files);
      if f.result.NoLocal? then Step(f.result.outcome, f.effects)
      else
        var c := CompressRun(env, t, f.result.path);
        if c.result.NoLocal? then Step(c.result.outcome, f.effects + c.effects)
        else if IsStrBlank(Some(c.result.path)) then Step(Refused(OperationError), f.effects + c.effects)
        else
          var p := PublishRun(s, env, c.result.path, uuidPrefix, today, Replay(env, files, f.effects + c.effects));
          Step(p.result, f.effects + c.effects + p.effects)
  }

  // ---------------------------------------------------------------------------
  // Properties

  /** A blank page address is refused with `PARAMS_ERROR` before anything happens. */
  lemma BlankUrlRefused(s: Settings, env: Env, webUrl: string, t: Tokens, uuidPrefix: string, today: Date, files: set<string>)
    requires IsStrBlank(Some(webUrl))
    ensures ScreenshotRun(s, env, webUrl, t, uuidPrefix, today, files) == Step(Refused(ParamsError), [])
  {
  }

  /** A reply whose code is not 1, or that has no download link, is refused with
      `OPERATION_ERROR`, and nothing is downloaded or uploaded; the working directory,
      created before the `try`, is left behind. */
  lemma ApiRefusal(s: Settings, env: Env, webUrl: string, t: Tokens, uuidPrefix: string, today: Date, files: set<string>)
    requires !IsStrBlank(Some(webUrl))
    requires MakeDir(WorkDir(env, t)) !in env.fails
    requires CallApi(s.apiUrl, s.apiKey, webUrl, 1440, "png") !in env.fails
    requires env.reply.code.GetOr(0) != 1 || (env.reply.data.Some? && IsStrBlank(env.reply.data.value))
    ensures var r := ScreenshotRun(s, env, webUrl, t, uuidPrefix, today, files);
      && r.result == Refused(OperationError)
      && r.effects == [MakeDir(WorkDir(env, t)), CallApi(s.apiUrl, s.apiKey, webUrl, 1440, "png")]
      && WorkDir(env, t) in Replay(env, files, r.effects)
  {
    var m, c := MakeDir(WorkDir(env, t)), CallApi(s.apiUrl, s.apiKey, webUrl, 1440, "png");
    assert [m, c][..1] == [m] && [m][..0] == [];
    assert Replay(env, files, [m]) == Apply(env, files, m);
    assert Replay(env, files, [m, c]) == Apply(env, Replay(env, files, [m]), c);
  }

  /** The upload sends nothing and gives null for a blank path or a file that does not
      exist. */
  lemma UploadNeedsFile(s: Settings, env: Env, path: string, uuidPrefix: string, today: Date, files: set<string>)
    requires IsStrBlank(Some(path)) || path !in files
    ensures UploadRun(s, env, path, uuidPrefix, today, files) == Step(Stored(None), [])
  {
  }

  /** The three ways the `try` block ends: an exception, a blank address refused with
      `OPERATION_ERROR`, or the address, which lies in the bucket under `screenshots/`. */
  lemma UploadOutcome(s: Settings, env: Env, path: string, uuidPrefix: string, today: Date, files: set<string>)
    requires !IsStrBlank(Some(path)) && path in files
    ensures var key := ScreenshotKey(today, FileName(uuidPrefix));
      var put := Put(OssManager.PutRequest(s.oss.bucketName, key, path));
      var u := UploadRun(s, env, path, uuidPrefix, today, files);
      && u.effects == [put]
      && (TryOutcome(u.result) == Crashed <==> put in env.fails)
      && (TryOutcome(u.result).Returned? <==> put !in env.fails && put.request in env.acknowledged)
      && (TryOutcome(u.result).Returned? ==>
            OssManager.UrlPrefix(s.oss) + "screenshots/" <= TryOutcome(u.result).url
            && OssManager.KeyOf(s.oss, TryOutcome(u.result).url) == key)
  {
    var key := ScreenshotKey(today, FileName(uuidPrefix));
    OssManager.UploadFileMeaning(s.oss, key, path, env.acknowledged);
    var url := OssManager.ObjectUrl(s.oss, key);
    assert url == OssManager.UrlPrefix(s.oss) + "screenshots/" + (DatePath(today) + "/" + FileName(uuidPrefix));
    assert url[0] == 'h';
  }

  /** The converted picture survives the deletion of the two intermediate ones. */
  lemma ConvertLeavesJpg(env: Env, t: Tokens, files: set<string>)
    requires ConvertRun(env, t, PngPath(env, t)).result.LocalFile?
    ensures var c := ConvertRun(env, t, PngPath(env, t));
      c.result.path == JpgPath(env, t) && JpgPath(env, t) in Replay(env, files, c.effects)
  {
    var jpg := JpgPath(env, t);
    var png := PngPath(env, t);
    var cropped := CroppedPath(env, t);
    assert jpg[|jpg| - 3] == (t.jpgId + "_compressed.jpg")[|t.jpgId| + 12] == 'j';
    assert png[|png| - 3] == (t.pngId + ".png")[|t.pngId| + 1] == 'p';
    assert cropped[|cropped| - 3] == (t.croppedId + "_cropped.png")[|t.croppedId| + 9] == 'p';
    var conv := Convert(cropped, jpg);
    var del1 := Delete(png);
    var del2 := Delete(cropped);
    ReplayStep(env, files, [], conv);
    ReplayStep(env, files, [conv], del1);
    assert [conv] + [del1] == [conv, del1];
    ReplayStep(env, files, [conv, del1], del2);
    assert [conv, del1] + [del2] == [conv, del1, del2];
  }

  lemma CompressLeavesJpg(env: Env, t: Tokens, files: set<string>)
    requires CompressRun(env, t, PngPath(env, t)).result.LocalFile?
    ensures var c := CompressRun(env, t, PngPath(env, t));
      c.result.path == JpgPath(env, t) && JpgPath(env, t) in Replay(env, files, c.effects)
  {
    var png := PngPath(env, t);
    var read := ReadImage(png);
    var cut := Cut(CropRect(env.image.value), CroppedPath(env, t));
    var c := ConvertRun(env, t, png);
    ReplayAppend(env, files, [read, cut], c.effects);
    ConvertLeavesJpg(env, t, Replay(env, files, [read, cut]));
  }

  /** Once the picture exists, publishing uploads it and then deletes its directory. */
  lemma PublishCleans(s: Settings, env: Env, local: string, dir: string, uuidPrefix: string, today: Date, files: set<string>)
    requires local in files && !IsStrBlank(Some(local)) && ParentOf(env.sep, local) == dir
    ensures var p := PublishRun(s, env, local, uuidPrefix, today, files);
      var put := Put(OssManager.PutRequest(s.oss.bucketName, ScreenshotKey(today, FileName(uuidPrefix)), local));
      && p.effects == [put, DeleteTree(dir)]
      && p.result == (if DeleteTree(dir) in env.fails then Crashed else TryOutcome(UploadRun(s, env, local, uuidPrefix, today, files).result))
      && (DeleteTree(dir) !in env.fails ==> forall f | f in Replay(env, files, p.effects) :: !Within(env.sep, dir, f))
  {
    var u := UploadRun(s, env, local, uuidPrefix, today, files);
    var put := Put(OssManager.PutObject(s.oss, ScreenshotKey(today, FileName(uuidPrefix)), local));
    assert u.effects == [put];
    assert Replay(env, files, u.effects) == files;
    assert CleanupRun(env, local, files) == Step(DeleteTree(dir) in env.fails, [DeleteTree(dir)]);
    ReplayStep(env, files, u.effects, DeleteTree(dir));
  }

  /** The cleanup guarantee: once the local picture exists, the upload is attempted and the
      whole working directory is deleted afterwards, whether the upload returned an address,
      returned null or threw. Unless that deletion itself throws, the outcome is the upload's
      and no file of the working directory is left. */
  lemma CleanupAlwaysRuns(s: Settings, env: Env, webUrl: string, t: Tokens, uuidPrefix: string, today: Date, files: set<string>)
    requires env.sep == '/' || env.sep == '\\'
    requires env.sep !in t.jpgId
    requires !IsStrBlank(Some(webUrl))
    requires FetchRun(s, env, webUrl, t, files).result.LocalFile?
    requires CompressRun(env, t, PngPath(env, t)).result.LocalFile?
    ensures var r := ScreenshotRun(s, env, webUrl, t, uuidPrefix, today, files);
      var key := ScreenshotKey(today, FileName(uuidPrefix));
      var put := Put(OssManager.PutRequest(s.oss.bucketName, key, JpgPath(env, t)));
      var del := DeleteTree(WorkDir(env, t));
      && |r.effects| >= 2
      && r.effects[|r.effects| - 2] == put
      && r.effects[|r.effects| - 1] == del
      && (del in env.fails ==> r.result == Crashed)
      && (del !in env.fails ==>
            && r.result == TryOutcome(if put in env.fails then UploadThrew
                                      else Stored(OssManager.UploadFile(s.oss, key, JpgPath(env, t), env.acknowledged)))
            && forall f | f in Replay(env, files, r.effects) :: !Within(env.sep, WorkDir(env, t), f))
  {
    var f := FetchRun(s, env, webUrl, t, files);
    var c := CompressRun(env, t, PngPath(env, t));
    var jpg := JpgPath(env, t);
    CompressLeavesJpg(env, t, Replay(env, files, f.effects));
    ReplayAppend(env, files, f.effects, c.effects);
    var files2 := Replay(env, files, f.effects + c.effects);
    JpgNotBlank(env, t);
    assert jpg == WorkDir(env, t) + [env.sep] + (t.jpgId + "_compressed.jpg");
    assert env.sep !in "_compressed.jpg";
    ParentOfJoin(env.sep, WorkDir(env, t), t.jpgId + "_compressed.jpg");
    PublishCleans(s, env, jpg, WorkDir(env, t), uuidPrefix, today, files2);
    var p := PublishRun(s, env, jpg, uuidPrefix, today, files2);
    var r := ScreenshotRun(s, env, webUrl, t, uuidPrefix, today, files);
    assert r == Step(p.result, (f.effects + c.effects) + p.effects);
    ReplayAppend(env, files, f.effects + c.effects, p.effects);
    assert Replay(env, files, r.effects) == Replay(env, files2, p.effects);
  }

  lemma JpgNotBlank(env: Env, t: Tokens)
    ensures !IsStrBlank(Some(JpgPath(env, t)))
  {
    var jpg := JpgPath(env, t);
    assert jpg[|jpg| - 1] == 'g';
  }

  // ---------------------------------------------------------------------------
  // The service

  class Service {
    const settings: Settings

    constructor (settings: Settings)
      ensures this.settings == settings
    {
      this.settings := settings;
    }

    /** `generateAndUploadScreenshot`; `t`, `uuidPrefix` and `today` stand for the random
        names and the date the source draws itself. */
    method GenerateAndUpload(webUrl: string, t: Tokens, uuidPrefix: string, today: Date, m: Machine) returns (o: Outcome)
      modifies m
      ensures var spec := ScreenshotRun(settings, m.env, webUrl, t, uuidPrefix, today, old(m.files));
        && o == spec.result
        && m.trace == old(m.trace) + spec.effects
        && m.files == Replay(m.env, old(m.files), spec.effects)
    {
      if IsStrBlank(Some(webUrl)) {
        return Refused(ParamsError);
      }
      ghost var files0 := m.files;
      ghost var trace0 := m.trace;
      var fetched := Fetch(webUrl, t, m);
      ghost var f := FetchRun(settings, m.env, webUrl, t, files0);
      if fetched.NoLocal? {
        return fetched.outcome;
      }
      ghost var files1 := m.files;
      var local := Compress(t, fetched.path, m);
      ghost var c := CompressRun(m.env, t, fetched.path);
      ReplayAppend(m.env, files0, f.effects, c.effects);
      Associate(trace0, f.effects, c.effects);
      if local.NoLocal? {
        return local.outcome;
      }
      if IsStrBlank(Some(local.path)) {
        return Refused(OperationError);
      }
      o := Publish(local.path, uuidPrefix, today, m);
      ghost var p := PublishRun(settings, m.env, local.path, uuidPrefix, today, Replay(m.env, files0, f.effects + c.effects));
      ReplayAppend(m.env, files0, f.effects + c.effects, p.effects);
      Associate(trace0, f.effects + c.effects, p.effects);
    }

    /** The `try`/`finally` part of `generateAndUploadScreenshot`. */
    method Publish(local: string, uuidPrefix: string, today: Date, m: Machine) returns (o: Outcome)
      modifies m
      ensures var spec := PublishRun(settings, m.env, local, uuidPrefix, today, old(m.files));
        && o == spec.result
        && m.trace == old(m.trace) + spec.effects
        && m.files == Replay(m.env, old(m.files), spec.effects)
    {
      ghost var files0 := m.files;
      ghost var trace0 := m.trace;
      var u := UploadToOss(local, uuidPrefix, today, m);
      ghost var us := UploadRun(settings, m.env, local, uuidPrefix, today, files0);
      var primary := TryOutcome(u);
      var threw := Cleanup(local, m);
      ghost var cs := CleanupRun(m.env, local, Replay(m.env, files0, us.effects));
      ReplayAppend(m.env, files0, us.effects, cs.effects);
      Associate(trace0, us.effects, cs.effects);
      o := if threw then Crashed else primary;
    }

    /** `downloadScreenshotViaApi`, up to the downloaded picture. */
    method Fetch(webUrl: string, t: Tokens, m: Machine) returns (r: Local)
      modifies m
      ensures var spec := FetchRun(settings, m.env, webUrl, t, old(m.files));
        && r == spec.result
        && m.trace == old(m.trace) + spec.effects
        && m.files == Replay(m.env, old(m.files), spec.effects)
    {
      ghost var files0 := m.files;
      var mk := MakeDir(WorkDir(m.env, t));
      var threw := m.Do(mk);
      ReplayStep(m.env, files0, [], mk);
      if threw {
        return NoLocal(Crashed);
      }
      var call := CallApi(settings.apiUrl, settings.apiKey, webUrl, 1440, "png");
      threw := m.Do(call);
      ReplayStep(m.env, files0, [mk], call);
      if threw {
        return NoLocal(Crashed);
      }
      var reply := m.env.reply;
      if reply.code.GetOr(0) != 1 {
        return NoLocal(Refused(OperationError));
      }
      if reply.data.None? {
        return NoLocal(Crashed);
      }
      var link := reply.data.value;
      if IsStrBlank(link) {
        return NoLocal(Refused(OperationError));
      }
      var png := PngPath(m.env, t);
      var dl := Download(link.value, png);
      threw := m.Do(dl);
      ReplayStep(m.env, files0, [mk, call], dl);
      assert [mk] + [call] == [mk, call] && [mk, call] + [dl] == [mk, call, dl];
      assert m.files == Replay(m.env, files0, [mk, call, dl]);
      if threw {
        return NoLocal(Crashed);
      }
      if png !in m.files {
        return NoLocal(Refused(OperationError));
      }
      return LocalFile(png);
    }

    /** `downloadScreenshotViaApi`, from the downloaded picture to the JPEG. */
    method Compress(t: Tokens, png: string, m: Machine) returns (r: Local)
      modifies m
      ensures var spec := CompressRun(m.env, t, png);
        && r == spec.result
        && m.trace == old(m.trace) + spec.effects
        && m.files == Replay(m.env, old(m.files), spec.effects)
    {
      ghost var files0 := m.files;
      ghost var trace0 := m.trace;
      var read := ReadImage(png);
      var threw := m.Do(read);
      ReplayStep(m.env, files0, [], read);
      if threw || m.env.image.None? {
        return NoLocal(Crashed);
      }
      var cut := Cut(CropRect(m.env.image.value), CroppedPath(m.env, t));
      threw := m.Do(cut);
      ReplayStep(m.env, files0, [read], cut);
      assert [read] + [cut] == [read, cut];
      if threw {
        return NoLocal(Crashed);
      }
      r := ConvertPicture(t, png, m);
      ghost var c := ConvertRun(m.env, t, png);
      ReplayAppend(m.env, files0, [read, cut], c.effects);
      Associate(trace0, [read, cut], c.effects);
    }

    /** The conversion to JPEG and the deletion of the intermediate pictures. */
    method ConvertPicture(t: Tokens, png: string, m: Machine) returns (r: Local)
      modifies m
      ensures var spec := ConvertRun(m.env, t, png);
        && r == spec.result
        && m.trace == old(m.trace) + spec.effects
        && m.files == Replay(m.env, old(m.files), spec.effects)
    {
      ghost var files0 := m.files;
      var cropped := CroppedPath(m.env, t);
      var conv := Convert(cropped, JpgPath(m.env, t));
      var threw := m.Do(conv);
      ReplayStep(m.env, files0, [], conv);
      if threw {
        return NoLocal(Crashed);
      }
      var del1 := Delete(png);
      threw := m.Do(del1);
      ReplayStep(m.env, files0, [conv], del1);
      assert [conv] + [del1] == [conv, del1];
      if threw {
        return NoLocal(Crashed);
      }
      var del2 := Delete(cropped);
      threw := m.Do(del2);
      ReplayStep(m.env, files0, [conv, del1], del2);
      assert [conv, del1] + [del2] == [conv, del1, del2];
      if threw {
        return NoLocal(Crashed);
      }
      return LocalFile(JpgPath(m.env, t));
    }

    /** `uploadScreenshotToOSS`. */
    method UploadToOss(local: string, uuidPrefix: string, today: Date, m: Machine) returns (u: Upload)
      modifies m
      ensures var spec := UploadRun(settings, m.env, local, uuidPrefix, today, old(m.files));
        && u == spec.result
        && m.trace == old(m.trace) + spec.effects
        && m.files == Replay(m.env, old(m.files), spec.effects)
    {
      if IsStrBlank(Some(local)) || local !in m.files {
        return Stored(None);
      }
      var key := ScreenshotKey(today, FileName(uuidPrefix));
      var request := OssManager.PutObject(settings.oss, key, local);
      var threw := m.Do(Put(request));
      if threw {
        return UploadThrew;
      }
      var url := if request in m.env.acknowledged then Some(OssManager.ObjectUrl(settings.oss, key)) else None;
      return Stored(url);
    }

    /** `cleanupLocalFile`; the result says whether the deletion threw. */
    method Cleanup(local: string, m: Machine) returns (threw: bool)
      modifies m
      ensures var spec := CleanupRun(m.env, local, old(m.files));
        && threw == spec.result
        && m.trace == old(m.trace) + spec.effects
        && m.files == Replay(m.env, old(m.files), spec.effects)
    {
      threw := false;
      if local in m.files {
        threw := m.Do(DeleteTree(ParentOf(m.env.sep, local)));
      }
    }
  }
}
