/** The Vue project builder: checks a generated project directory, then builds it either
    locally (`npm install`, `npm run build`) or on a remote host over ssh/rsync
    (sync, remote build, fetch `dist`, clean up), and finally checks that `dist` exists.

    `Run` is the pure specification of one call: whether it reports success and which
    commands it issues, given how the operating system answers each command. The `Builder`
    class is the imperative model; its methods are proved to issue exactly those commands. */
module VueProjectBuilder {
  import opened Common
  import opened RemoteBuildProperties
  import opened CommandRunner

  // ---------------------------------------------------------------------------
  // Commands

  /** `buildCommand`: Windows needs the `.cmd` launcher of an npm-style tool. */
  function PlatformCommand(base: string, windows: bool): string {
    if windows then base + ".cmd" else base
  }

  function InstallCommand(dir: LocalProject, windows: bool): Command {
    Command(Some(dir.path), SplitOnSpaces(PlatformCommand("npm", windows) + " install"), 300)
  }

  function NpmBuildCommand(dir: LocalProject, windows: bool): Command {
    Command(Some(dir.path), SplitOnSpaces(PlatformCommand("npm", windows) + " run build"), 180)
  }

  /** The remote working directory of one build: the build id is the project name and the
      launch time in epoch milliseconds. */
  function RemoteProjectPath(p: Props, name: string, millis: int): string {
    p.workDir + "/" + name + "_" + IntToString(millis)
  }

  /** `user@host`. */
  function Target(p: Props): string {
    Str(p.user) + "@" + Str(p.host)
  }

  /** The remote shell rsync uses when an identity file is configured. */
  function SshTransport(p: Props): string {
    p.sshCommand + " -i " + Str(p.sshKey) + " -o StrictHostKeyChecking=no"
  }

  /** The ssh invocation up to the remote command. */
  function SshPrefix(p: Props): seq<string> {
    [p.sshCommand] + (if p.HasSshKey() then ["-i", p.sshKey.value] else []) + [Target(p)]
  }

  /** `syncToRemote`: push the project, without dependencies, output or version control. */
  function SyncArgv(p: Props, dir: LocalProject, path: string): seq<string> {
    [p.rsyncCommand, "-az", "--delete", "--exclude", "node_modules", "--exclude", "dist", "--exclude", ".git"]
    + (if p.extraRsyncFlags.Some? then [p.extraRsyncFlags.value] else [])
    + (if p.HasSshKey() then ["-e", SshTransport(p)] else [])
    + [dir.path + "/", Target(p) + ":" + path + "/"]
  }

  function SyncCommand(p: Props, dir: LocalProject, path: string): Command {
    Command(Some(dir.path), SyncArgv(p, dir, path), p.syncTimeoutSeconds)
  }

  /** The compound remote command: install then build, both prefixed by `NODE_OPTIONS`
      when node options are configured. */
  function RemoteScript(p: Props, path: string): string {
    if p.nodeOptions.Some? && !IsJavaBlank(p.nodeOptions.value) then
      var env := "NODE_OPTIONS=\"" + p.nodeOptions.value + "\" ";
      "cd " + path + " && " + env + p.npmCommand + " install && " + env + p.npmCommand + " run build"
    else
      "cd " + path + " && " + p.npmCommand + " install && " + p.npmCommand + " run build"
  }

  /** `executeRemoteBuild`. */
  function RemoteBuildCommand(p: Props, path: string): Command {
    Command(None, SshPrefix(p) + [RemoteScript(p, path)], p.buildTimeoutSeconds)
  }

  /** `fetchDist`: pull only the remote `dist` into the local `dist`. */
  function FetchCommand(p: Props, dir: LocalProject, path: string): Command {
    Command(Some(dir.path),
      [p.rsyncCommand, "-az", "--delete"]
      + (if p.HasSshKey() then ["-e", SshTransport(p)] else [])
      + [Target(p) + ":" + path + "/dist/", dir.path + "/dist/"],
      p.fetchTimeoutSeconds)
  }

  /** `cleanupRemote`. */
  function CleanupCommand(p: Props, path: string): Command {
    Command(None, SshPrefix(p) + ["rm -rf " + path], p.cleanupTimeoutSeconds)
  }

  // ---------------------------------------------------------------------------
  // Specification of one call

  datatype Run = Run(success: bool, issued: seq<Command>)

  /** The command succeeds when the operating system runs it. */
  predicate Passes(launch: Command -> Launch, c: Command) {
    Succeeds(launch(c), c.timeoutSeconds)
  }

  /** `localBuild`. */
  function LocalRun(dir: LocalProject, windows: bool, launch: Command -> Launch): (r: Run)
    ensures r.success <==> Passes(launch, InstallCommand(dir, windows)) && Passes(launch, NpmBuildCommand(dir, windows))
    ensures 1 <= |r.issued| <= 2 && r.issued[0] == InstallCommand(dir, windows)
  {
    var install, build := InstallCommand(dir, windows), NpmBuildCommand(dir, windows);
    if !Passes(launch, install) then Run(false, [install])
    else Run(Passes(launch, build), [install, build])
  }

  /** How many times the remote workspace is removed, by stage outcome: not at all when the
      sync failed, once after a failed build or fetch whatever the keep flag says, and once
      after a full success unless the workspace is kept. */
  function ExpectedCleanups(syncOk: bool, buildOk: bool, fetchOk: bool, keep: bool): nat {
    if !syncOk then 0
    else if !buildOk || !fetchOk then 1
    else if keep then 0
    else 1
  }

  /** `remoteBuild`: push, build remotely, pull `dist`, then remove the remote workspace
      whenever anything was left there, unless a successful run keeps it. */
  function RemoteRun(p: Props, dir: LocalProject, millis: int, launch: Command -> Launch): (r: Run)
    ensures !p.IsConfigReady() ==> r == Run(false, [])
    ensures r.success ==> p.IsConfigReady() && |r.issued| == if p.keepRemoteWorkspace then 3 else 4
    ensures |r.issued| <= 4
  {
    if !p.IsConfigReady() then Run(false, [])
    else
      var path := RemoteProjectPath(p, dir.name, millis);
      Stages(launch, SyncCommand(p, dir, path), RemoteBuildCommand(p, path), FetchCommand(p, dir, path),
             CleanupCommand(p, path), p.keepRemoteWorkspace)
  }

  /** The stages of a ready remote build: push, build, pull, each only after the one before
      passed, and the removal after a failed build or pull, or after success unless `keep`. */
  function Stages(launch: Command -> Launch, sync: Command, build: Command, fetch: Command, cleanup: Command,
                  keep: bool): Run
  {
    if !Passes(launch, sync) then Run(false, [sync])
    else if !Passes(launch, build) then Run(false, [sync, build, cleanup])
    else if !Passes(launch, fetch) then Run(false, [sync, build, fetch, cleanup])
    else Run(true, [sync, build, fetch] + (if keep then [] else [cleanup]))
  }

  /** Without a ready configuration nothing is issued; otherwise the push comes first, the
      run succeeds exactly when push, remote build and pull all do, the workspace is removed
      as many times as `ExpectedCleanups` says, and a removal is always the last command. */
  lemma RemoteRunMeaning(p: Props, dir: LocalProject, millis: int, launch: Command -> Launch)
    ensures var r := RemoteRun(p, dir, millis, launch);
      !p.IsConfigReady() ==> r == Run(false, [])
    ensures var r := RemoteRun(p, dir, millis, launch);
      p.IsConfigReady() ==>
      var path := RemoteProjectPath(p, dir.name, millis);
      var syncOk := Passes(launch, SyncCommand(p, dir, path));
      var buildOk := Passes(launch, RemoteBuildCommand(p, path));
      var fetchOk := Passes(launch, FetchCommand(p, dir, path));
      && r.success == (syncOk && buildOk && fetchOk)
      && |r.issued| >= 1 && r.issued[0] == SyncCommand(p, dir, path)
      && multiset(r.issued)[CleanupCommand(p, path)]
         == ExpectedCleanups(syncOk, buildOk, fetchOk, p.keepRemoteWorkspace)
      && (CleanupCommand(p, path) in r.issued ==> r.issued[|r.issued| - 1] == CleanupCommand(p, path))
  {
    CleanupIsDistinct(p, dir, millis);
  }

  /** `buildProject`: precondition checks, mode selection, then the `dist` check. */
  function BuildRun(p: Props, windows: bool, dir: LocalProject, millis: int, distExists: bool,
                    launch: Command -> Launch): (r: Run)
    ensures !(dir.present && dir.isDirectory && dir.hasPackageJson) ==> r == Run(false, [])
    ensures dir.present && dir.isDirectory && dir.hasPackageJson ==>
      && (!p.enabled ==> |r.issued| >= 1 && r.issued[0] == InstallCommand(dir, windows))
      && (p.enabled && !p.IsConfigReady() ==> r == Run(false, []))
      && (p.IsConfigReady() ==> |r.issued| >= 1 && r.issued[0] == SyncCommand(p, dir, RemoteProjectPath(p, dir.name, millis)))
    ensures r.success <==>
      && dir.present && dir.isDirectory && dir.hasPackageJson
      && (if p.enabled then RemoteRun(p, dir, millis, launch).success else LocalRun(dir, windows, launch).success)
      && distExists
  {
    if !dir.present || !dir.isDirectory then Run(false, [])
    else if !dir.hasPackageJson then Run(false, [])
    else
      var mode := if p.enabled then RemoteRun(p, dir, millis, launch) else LocalRun(dir, windows, launch);
      if !mode.success then Run(false, mode.issued)
      else if !distExists then Run(false, mode.issued)
      else Run(true, mode.issued)
  }

  // ---------------------------------------------------------------------------
  // Properties

  /** The removal command differs from every other command of the same session: its last
      argument ends in a digit of the build id, the push and pull destinations end in `/`,
      and the remote build script starts with `cd`. */
  lemma CleanupIsDistinct(p: Props, dir: LocalProject, millis: int)
    ensures var path := RemoteProjectPath(p, dir.name, millis);
      && CleanupCommand(p, path) != SyncCommand(p, dir, path)
      && CleanupCommand(p, path) != RemoteBuildCommand(p, path)
      && CleanupCommand(p, path) != FetchCommand(p, dir, path)
  {
    var path := RemoteProjectPath(p, dir.name, millis);
    var rm := "rm -rf " + path;
    var digits := IntToString(millis);
    assert rm[|rm| - 1] == digits[|digits| - 1];
    var c := CleanupCommand(p, path).argv;
    assert c[|c| - 1] == rm;
    var s := SyncCommand(p, dir, path).argv;
    assert s[|s| - 1] == Target(p) + ":" + path + "/";
    var f := FetchCommand(p, dir, path).argv;
    assert f[|f| - 1] == dir.path + "/dist/";
    var b := RemoteBuildCommand(p, path).argv;
    assert b[|b| - 1] == RemoteScript(p, path);
    assert RemoteScript(p, path)[0] == 'c' && rm[0] == 'r';
  }

  /** The local steps run `npm install` and `npm run build` (with `.cmd` on Windows) in the
      project directory, with limits of 300 and 180 seconds; the build runs only after a
      successful install and the mode succeeds only if both do. */
  lemma LocalRunMeaning(dir: LocalProject, windows: bool, launch: Command -> Launch)
    ensures var npm := PlatformCommand("npm", windows);
      && InstallCommand(dir, windows) == Command(Some(dir.path), [npm, "install"], 300)
      && NpmBuildCommand(dir, windows) == Command(Some(dir.path), [npm, "run", "build"], 180)
    ensures var r := LocalRun(dir, windows, launch);
      && r.issued[0] == InstallCommand(dir, windows)
      && (NpmBuildCommand(dir, windows) in r.issued <==> Passes(launch, InstallCommand(dir, windows)))
      && (r.success <==> Passes(launch, InstallCommand(dir, windows)) && Passes(launch, NpmBuildCommand(dir, windows)))
  {
    var npm := PlatformCommand("npm", windows);
    assert HasNoSpace(npm) by {
      if windows {
        assert npm == "npm.cmd";
      } else {
        assert npm == "npm";
      }
    }
    NpmLinesSplit(npm);
    assert InstallCommand(dir, windows).timeoutSeconds != NpmBuildCommand(dir, windows).timeoutSeconds;
  }

  /** An npm launcher without spaces followed by its arguments splits into its words. */
  lemma NpmLinesSplit(npm: string)
    requires npm != "" && HasNoSpace(npm)
    ensures SplitOnSpaces(npm + " install") == [npm, "install"]
    ensures SplitOnSpaces(npm + " run build") == [npm, "run", "build"]
  {
    NpmInstallSplit(npm);
    NpmBuildSplit(npm);
  }

  lemma NpmInstallSplit(npm: string)
    requires npm != "" && HasNoSpace(npm)
    ensures SplitOnSpaces(npm + " install") == [npm, "install"]
  {
    var ws := [npm, "install"];
    assert HasNoSpace("install");
    assert forall k | 0 <= k < |ws| :: ws[k] != "" && HasNoSpace(ws[k]);
    assert npm + " install" == Unwords(ws);
    SplitUnwords(ws);
  }

  lemma NpmBuildSplit(npm: string)
    requires npm != "" && HasNoSpace(npm)
    ensures SplitOnSpaces(npm + " run build") == [npm, "run", "build"]
  {
    var ws := [npm, "run", "build"];
    assert HasNoSpace("run") && HasNoSpace("build");
    assert forall k | 0 <= k < |ws| :: ws[k] != "" && HasNoSpace(ws[k]);
    assert ws[1..] == ["run", "build"];
    assert Unwords(["run", "build"]) == "run build";
    assert npm + " run build" == Unwords(ws);
    SplitUnwords(ws);
  }

  /** The outcome of the removal never changes the reported result or the commands issued. */
  lemma CleanupOutcomeIrrelevant(p: Props, dir: LocalProject, millis: int, l1: Command -> Launch, l2: Command -> Launch)
    requires forall c :: c != CleanupCommand(p, RemoteProjectPath(p, dir.name, millis)) ==> l1(c) == l2(c)
    ensures RemoteRun(p, dir, millis, l1) == RemoteRun(p, dir, millis, l2)
  {
    CleanupIsDistinct(p, dir, millis);
  }

  /** Two builds of the same project launched at different milliseconds get different
      remote working directories. */
  lemma DistinctLaunchTimesDistinctWorkspaces(p: Props, name: string, m1: int, m2: int)
    requires m1 != m2
    ensures RemoteProjectPath(p, name, m1) != RemoteProjectPath(p, name, m2)
  {
    if RemoteProjectPath(p, name, m1) == RemoteProjectPath(p, name, m2) {
      SamePrefixCancel(p.workDir + "/" + name + "_", IntToString(m1), IntToString(m2));
      IntToStringInjective(m1, m2);
    }
  }

  /** The push excludes `node_modules`, `dist` and `.git`, passes the extra flags only when
      they are set and the identity file only when one is configured, and copies the
      project's contents into the session directory; the pull copies that directory's
      `dist` back into the project's `dist`; the removal deletes exactly that directory. */
  lemma RemoteArgvMeaning(p: Props, dir: LocalProject, path: string)
    ensures var s := SyncArgv(p, dir, path);
      var extra := if p.extraRsyncFlags.Some? then 1 else 0;
      var key := if p.HasSshKey() then 2 else 0;
      && |s| == 11 + extra + key
      && s[..9] == [p.rsyncCommand, "-az", "--delete", "--exclude", "node_modules", "--exclude", "dist", "--exclude", ".git"]
      && (p.extraRsyncFlags.Some? ==> s[9] == p.extraRsyncFlags.value)
      && (p.HasSshKey() ==> s[9 + extra] == "-e" && s[10 + extra] == SshTransport(p))
      && s[|s| - 2] == dir.path + "/"
      && s[|s| - 1] == Target(p) + ":" + path + "/"
    ensures var f := FetchCommand(p, dir, path).argv;
      && f[|f| - 2] == Target(p) + ":" + path + "/dist/"
      && f[|f| - 1] == dir.path + "/dist/"
    ensures var c := CleanupCommand(p, path).argv;
      && c[0] == p.sshCommand
      && c[|c| - 2] == Target(p)
      && c[|c| - 1] == "rm -rf " + path
      && (p.HasSshKey() <==> |c| == 5)
  {
  }

  /** The remote script enters the session directory, then installs, then builds, joined by
      `&&`; node options, when set and not blank, prefix both npm steps. */
  lemma RemoteScriptMeaning(p: Props, path: string)
    ensures var env := if p.nodeOptions.Some? && !IsJavaBlank(p.nodeOptions.value)
                       then "NODE_OPTIONS=\"" + p.nodeOptions.value + "\" " else "";
      RemoteScript(p, path)
      == "cd " + path + " && " + env + p.npmCommand + " install && " + env + p.npmCommand + " run build"
  {
  }

  // ---------------------------------------------------------------------------
  // The builder

  class Builder {
    const props: Props
    const windows: bool

    constructor (props: Props, windows: bool)
      ensures this.props == props && this.windows == windows
    {
      this.props := props;
      this.windows := windows;
    }

    /** Builds the project at `dir`; `nowMillis` is the clock reading taken by a remote
        build and `distExists` says whether `dir/dist` exists once the mode has finished. */
    method BuildProject(dir: LocalProject, nowMillis: int, distExists: bool, shell: Shell) returns (ok: bool)
      modifies shell
      ensures ok == BuildRun(props, windows, dir, nowMillis, distExists, shell.launch).success
      ensures shell.trace == old(shell.trace) + BuildRun(props, windows, dir, nowMillis, distExists, shell.launch).issued
      ensures shell.log == old(shell.log) + LoggedAll(shell.launch, BuildRun(props, windows, dir, nowMillis, distExists, shell.launch).issued, props.enabled)
    {
      if !dir.present || !dir.isDirectory {
        return false;
      }
      if !dir.hasPackageJson {
        return false;
      }
      var buildSuccess;
      if props.enabled {
        buildSuccess := RemoteBuild(dir, nowMillis, shell);
      } else {
        buildSuccess := LocalBuild(dir, shell);
      }
      if !buildSuccess {
        return false;
      }
      if !distExists {
        return false;
      }
      return true;
    }

    method LocalBuild(dir: LocalProject, shell: Shell) returns (ok: bool)
      modifies shell
      ensures ok == LocalRun(dir, windows, shell.launch).success
      ensures shell.trace == old(shell.trace) + LocalRun(dir, windows, shell.launch).issued
      ensures shell.log == old(shell.log) + LoggedAll(shell.launch, LocalRun(dir, windows, shell.launch).issued, false)
    {
      ghost var log0, trace0, launch := shell.log, shell.trace, shell.launch;
      ghost var install, build := InstallCommand(dir, windows), NpmBuildCommand(dir, windows);
      ghost var spec := LocalRun(dir, windows, launch);
      LoggedPair(launch, install, build, false);
      ok := shell.RunLine(dir.path, PlatformCommand("npm", windows) + " install", 300);
      assert ok == Passes(launch, install);
      assert shell.trace == trace0 + [install] && shell.log == log0 + Logged(launch(install), false);
      if !ok {
        assert spec == Run(false, [install]);
        return false;
      }
      ok := shell.RunLine(dir.path, PlatformCommand("npm", windows) + " run build", 180);
      assert ok == Passes(launch, build);
      assert spec == Run(ok, [install, build]);
      assert trace0 + [install] + [build] == trace0 + [install, build];
      Associate(log0, Logged(launch(install), false), Logged(launch(build), false));
    }

    method RemoteBuild(dir: LocalProject, nowMillis: int, shell: Shell) returns (ok: bool)
      modifies shell
      ensures ok == RemoteRun(props, dir, nowMillis, shell.launch).success
      ensures shell.trace == old(shell.trace) + RemoteRun(props, dir, nowMillis, shell.launch).issued
      ensures shell.log == old(shell.log) + LoggedAll(shell.launch, RemoteRun(props, dir, nowMillis, shell.launch).issued, true)
    {
      if !props.IsConfigReady() {
        return false;
      }
      var path := RemoteProjectPath(props, dir.name, nowMillis);
      ok := RunStages(SyncCommand(props, dir, path), RemoteBuildCommand(props, path), FetchCommand(props, dir, path),
                      CleanupCommand(props, path), props.keepRemoteWorkspace, shell);
    }

    /** Push, build and pull, removing the remote workspace as `Stages` says. */
    method RunStages(sync: Command, build: Command, fetch: Command, cleanup: Command, keep: bool, shell: Shell)
      returns (ok: bool)
      modifies shell
      ensures ok == Stages(shell.launch, sync, build, fetch, cleanup, keep).success
      ensures shell.trace == old(shell.trace) + Stages(shell.launch, sync, build, fetch, cleanup, keep).issued
      ensures shell.log == old(shell.log) + LoggedAll(shell.launch, Stages(shell.launch, sync, build, fetch, cleanup, keep).issued, true)
    {
      ghost var log0, trace0 := shell.log, shell.trace;
      assert log0 + LoggedAll(shell.launch, [], true) == log0 && trace0 + [] == trace0;
      ok := IssueNext(sync, shell, log0, trace0, []);
      assert [] + [sync] == [sync];
      if !ok {
        return false;
      }
      ok := IssueNext(build, shell, log0, trace0, [sync]);
      assert [sync] + [build] == [sync, build];
      if !ok {
        var _ := IssueNext(cleanup, shell, log0, trace0, [sync, build]);
        assert [sync, build] + [cleanup] == [sync, build, cleanup];
        return false;
      }
      ok := IssueNext(fetch, shell, log0, trace0, [sync, build]);
      assert [sync, build] + [fetch] == [sync, build, fetch];
      if !ok {
        var _ := IssueNext(cleanup, shell, log0, trace0, [sync, build, fetch]);
        assert [sync, build, fetch] + [cleanup] == [sync, build, fetch, cleanup];
        return false;
      }
      if !keep {
        // a failed removal is only logged as a warning
        var _ := IssueNext(cleanup, shell, log0, trace0, [sync, build, fetch]);
        assert [sync, build, fetch] + [cleanup] == [sync, build, fetch, cleanup];
      } else {
        assert [sync, build, fetch] + [] == [sync, build, fetch];
      }
      return true;
    }

    /** One more command after `done`, keeping the trace and the log in step with it. */
    method IssueNext(c: Command, shell: Shell, ghost log0: seq<LogLine>, ghost trace0: seq<Command>,
                     ghost done: seq<Command>) returns (ok: bool)
      requires shell.log == log0 + LoggedAll(shell.launch, done, true) && shell.trace == trace0 + done
      modifies shell
      ensures ok == Passes(shell.launch, c)
      ensures shell.log == log0 + LoggedAll(shell.launch, done + [c], true) && shell.trace == trace0 + (done + [c])
    {
      ok := Issue(c, shell);
      LoggedStep(shell.launch, log0, done, c, true);
    }

    /** Runs one assembled argument vector through the list overload. */
    method Issue(c: Command, shell: Shell) returns (ok: bool)
      modifies shell
      ensures ok == Passes(shell.launch, c)
      ensures shell.trace == old(shell.trace) + [c]
      ensures shell.log == old(shell.log) + Logged(shell.launch(c), true)
    {
      ok := shell.RunArgv(c.dir, c.argv, c.timeoutSeconds);
    }
  }
}
