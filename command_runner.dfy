/** Running one external command with a time limit: the two `executeCommand` overloads of
    the Vue project builder. The operating system is an oracle that says, per command, what
    the launched process does; a `Shell` records every command issued and every line of
    output forwarded to the log. */
module CommandRunner {
  import opened Common

  /** One command as issued: working directory (`null` for none), argument vector, limit. */
  datatype Command = Command(dir: Option<string>, argv: seq<string>, timeoutSeconds: int)

  /** What a launched process does. Times are seconds after launch: when its output streams
      reach end-of-file and when it exits. */
  datatype Process = Process(
    output: seq<string>,
    errors: seq<string>,
    streamsClosedAt: nat,
    exitedAt: nat,
    exitCode: int)

  /** The launch either starts a process or throws (program not found, permission denied,
      a stream that cannot be read). */
  datatype Launch = Started(process: Process) | Throws

  datatype Outcome = Exited(code: int) | TimedOut | Failed

  datatype Level = Info | Warn | Error
  datatype LogLine = LogLine(level: Level, text: string)

  // ---------------------------------------------------------------------------
  // The time limit

  /** As written, both overloads read the output to end-of-file first and only then call
      `waitFor(timeoutSeconds)`, so the limit counts from end-of-file, not from launch. */
  function OutcomeAsWritten(l: Launch, timeoutSeconds: int): (o: Outcome)
    ensures o == Failed <==> l.Throws?
    ensures o.Exited? ==>
      && l.Started? && o.code == l.process.exitCode
      && l.process.exitedAt <= l.process.streamsClosedAt + (if timeoutSeconds > 0 then timeoutSeconds else 0)
  {
    match l
    case Throws => Failed
    case Started(p) =>
      var waited := if timeoutSeconds > 0 then timeoutSeconds else 0;
      if p.exitedAt <= p.streamsClosedAt + waited then Exited(p.exitCode) else TimedOut
  }

  /** A process that prints until it exits after 1000 s passes a 300 s limit as written. */
  lemma AsWrittenLimitNotEnforced()
    ensures var p := Process([], [], 1000, 1000, 0);
            OutcomeAsWritten(Started(p), 300) == Exited(0) && p.exitedAt > 300
  {
  }

  /** The intended reading: the process must exit within the limit, counted from launch;
      otherwise it is killed and the run fails. */
  function OutcomeOf(l: Launch, timeoutSeconds: int): (o: Outcome)
    ensures o.Exited? ==> l.Started? && l.process.exitedAt <= timeoutSeconds && o.code == l.process.exitCode
    ensures o == TimedOut <==> l.Started? && l.process.exitedAt > timeoutSeconds
    ensures o == Failed <==> l.Throws?
  {
    match l
    case Throws => Failed
    case Started(p) => if p.exitedAt <= timeoutSeconds then Exited(p.exitCode) else TimedOut
  }

  /** A command succeeds when it exits with status 0 within its limit; a timeout or a
      launch failure is a failure. */
  predicate Succeeds(l: Launch, timeoutSeconds: int) {
    OutcomeOf(l, timeoutSeconds) == Exited(0)
  }

  lemma SucceedsMeaning(l: Launch, timeoutSeconds: int)
    ensures Succeeds(l, timeoutSeconds) <==>
      l.Started? && l.process.exitCode == 0 && l.process.exitedAt <= timeoutSeconds
  {
  }

  /** Under the intended reading, a successful command never ran longer than its limit,
      while the as-written reading agrees with it on every process whose output closes at
      launch. */
  lemma OutcomeAgreesWhenOutputClosesAtLaunch(l: Launch, timeoutSeconds: int)
    requires l.Started? ==> l.process.streamsClosedAt == 0
    requires timeoutSeconds >= 0
    ensures OutcomeAsWritten(l, timeoutSeconds) == OutcomeOf(l, timeoutSeconds)
  {
  }

  /** The log lines for `lines`, each at `level`. */
  function Tagged(level: Level, lines: seq<string>): (r: seq<LogLine>)
    ensures |r| == |lines|
    ensures forall k | 0 <= k < |lines| :: r[k] == LogLine(level, lines[k])
  {
    seq(|lines|, k requires 0 <= k < |lines| => LogLine(level, lines[k]))
  }

  /** What one command adds to the log: nothing when it cannot be started; otherwise its
      output at info level and then its errors at error level, or, `merged`, both streams
      at info level as the list overload reads them. */
  function Logged(l: Launch, merged: bool): seq<LogLine> {
    if l.Throws? then []
    else if merged then Tagged(Info, l.process.output + l.process.errors)
    else Tagged(Info, l.process.output) + Tagged(Error, l.process.errors)
  }

  /** What a sequence of commands adds to the log, in the order they were issued. */
  function LoggedAll(launch: Command -> Launch, cmds: seq<Command>, merged: bool): seq<LogLine>
    decreases |cmds|
  {
    if cmds == [] then []
    else LoggedAll(launch, cmds[..|cmds| - 1], merged) + Logged(launch(cmds[|cmds| - 1]), merged)
  }

  lemma LoggedAllSnoc(launch: Command -> Launch, cmds: seq<Command>, c: Command, merged: bool)
    ensures LoggedAll(launch, cmds + [c], merged) == LoggedAll(launch, cmds, merged) + Logged(launch(c), merged)
  {
    assert (cmds + [c])[..|cmds|] == cmds;
  }

  /** The log after one more command, regrouped as the log of all commands so far. */
  lemma LoggedStep(launch: Command -> Launch, log0: seq<LogLine>, cmds: seq<Command>, c: Command, merged: bool)
    ensures log0 + LoggedAll(launch, cmds, merged) + Logged(launch(c), merged) == log0 + LoggedAll(launch, cmds + [c], merged)
  {
    LoggedAllSnoc(launch, cmds, c, merged);
    Associate(log0, LoggedAll(launch, cmds, merged), Logged(launch(c), merged));
  }

  lemma LoggedPair(launch: Command -> Launch, a: Command, b: Command, merged: bool)
    ensures LoggedAll(launch, [a], merged) == Logged(launch(a), merged)
    ensures LoggedAll(launch, [a, b], merged) == Logged(launch(a), merged) + Logged(launch(b), merged)
  {
    LoggedAllSnoc(launch, [], a, merged);
    LoggedAllSnoc(launch, [a], b, merged);
    assert [] + [a] == [a] && [a] + [b] == [a, b];
  }

  /** The operating system as seen by the builder. */
  class Shell {
    const launch: Command -> Launch
    var trace: seq<Command>
    var log: seq<LogLine>

    constructor (launch: Command -> Launch)
      ensures this.launch == launch && trace == [] && log == []
    {
      this.launch := launch;
      trace := [];
      log := [];
    }

    /** Forwards the lines of one stream to the log as they are read. */
    method Forward(lines: seq<string>, level: Level)
      modifies this`log
      ensures log == old(log) + Tagged(level, lines)
    {
      var i := 0;
      while i < |lines|
        invariant 0 <= i <= |lines|
        invariant log == old(log) + Tagged(level, lines[..i])
      {
        log := log + [LogLine(level, lines[i])];
        i := i + 1;
        assert Tagged(level, lines[..i]) == Tagged(level, lines[..i - 1]) + [LogLine(level, lines[i - 1])];
      }
      assert lines[..i] == lines;
    }

    /** `executeCommand(File, String, int)`: the command line is split on runs of
        whitespace, standard output is logged at info level and then standard error at
        error level. */
    method RunLine(dir: string, command: string, timeoutSeconds: int) returns (ok: bool)
      modifies this
      ensures var cmd := Command(Some(dir), SplitOnSpaces(command), timeoutSeconds);
        && trace == old(trace) + [cmd]
        && ok == Succeeds(launch(cmd), timeoutSeconds)
        && log == old(log) + Logged(launch(cmd), false)
    {
      var cmd := Command(Some(dir), SplitOnSpaces(command), timeoutSeconds);
      trace := trace + [cmd];
      var l := launch(cmd);
      if l.Throws? {
        return false;
      }
      Forward(l.process.output, Info);
      Forward(l.process.errors, Error);
      ok := OutcomeOf(l, timeoutSeconds) == Exited(0);
    }

    /** `executeCommand(File, List<String>, int)`: the argument vector is used as given and
        standard error is merged into standard output, all logged at info level. */
    method RunArgv(dir: Option<string>, argv: seq<string>, timeoutSeconds: int) returns (ok: bool)
      modifies this
      ensures var cmd := Command(dir, argv, timeoutSeconds);
        && trace == old(trace) + [cmd]
        && ok == Succeeds(launch(cmd), timeoutSeconds)
        && log == old(log) + Logged(launch(cmd), true)
    {
      var cmd := Command(dir, argv, timeoutSeconds);
      trace := trace + [cmd];
      var l := launch(cmd);
      if l.Throws? {
        return false;
      }
      Forward(l.process.output + l.process.errors, Info);
      ok := OutcomeOf(l, timeoutSeconds) == Exited(0);
    }
  }
}
