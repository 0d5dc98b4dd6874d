/** The safety and privilege layer of the assistant (command_executor.py): the
    dangerous-keyword scan, the command validator, the sudo-password cache,
    the sudo command rewrite and the decision procedure of `execute_command`.
    The user's answers, the clock, the typed password, the platform and what
    the launched process does are parameters. */
module Executor {
  import opened Wrappers
  import opened PyStrings

  /** `CommandResult` (and the fields of a `CompletedProcess` that callers
      read); `None` stands for Python's None. */
  datatype CommandResult = CommandResult(stdout: Option<string>, stderr: Option<string>, returncode: int)

  // ---------------------------------------------------------------- keywords

  const DangerousKeywords: seq<string> := [
    "rm -rf", "mkfs", "dd", ":(){", "fork", "> /dev",
    "> /proc", "> /sys", "chmod -R 777", "chmod -R 000"
  ]

  /** The entries of `keywords` that occur in `lowered`, in list order. */
  function Hits(keywords: seq<string>, lowered: string): (r: seq<string>)
    ensures |r| <= |keywords|
    ensures forall k :: k in r ==> k in keywords && Contains(lowered, k)
    decreases |keywords|
  {
    if keywords == [] then []
    else
      var k := keywords[|keywords| - 1];
      Hits(keywords[..|keywords| - 1], lowered) + (if Contains(lowered, k) then [k] else [])
  }

  predicate Distinct<T(==)>(s: seq<T>) {
    forall i, j :: 0 <= i < j < |s| ==> s[i] != s[j]
  }

  /** `sub` is `full` with some entries dropped and the others kept in order. */
  predicate Subsequence<T(==)>(sub: seq<T>, full: seq<T>)
    decreases |full|
  {
    if sub == [] then true
    else if full == [] then false
    else if sub[|sub| - 1] == full[|full| - 1] then Subsequence(sub[..|sub| - 1], full[..|full| - 1])
    else Subsequence(sub, full[..|full| - 1])
  }

  lemma {:induction false} SubsequenceExtend<T>(sub: seq<T>, full: seq<T>, x: T)
    requires Subsequence(sub, full)
    ensures Subsequence(sub, full + [x])
    decreases |full|, 1
  {
    assert (full + [x])[..|full|] == full;
    if sub != [] && sub[|sub| - 1] == x {
      SubsequenceDropLast(sub, full);
    }
  }

  lemma {:induction false} SubsequenceDropLast<T>(sub: seq<T>, full: seq<T>)
    requires sub != [] && Subsequence(sub, full)
    ensures Subsequence(sub[..|sub| - 1], full)
    decreases |full|, 0
  {
    var init := full[..|full| - 1];
    assert full == init + [full[|full| - 1]];
    if sub[|sub| - 1] == full[|full| - 1] {
      SubsequenceExtend(sub[..|sub| - 1], init, full[|full| - 1]);
    } else {
      SubsequenceDropLast(sub, init);
      SubsequenceExtend(sub[..|sub| - 1], init, full[|full| - 1]);
    }
  }

  /** A keyword is reported exactly when it is in the list and occurs. */
  lemma {:induction false} HitsMembership(keywords: seq<string>, lowered: string, k: string)
    ensures k in Hits(keywords, lowered) <==> k in keywords && Contains(lowered, k)
    decreases |keywords|
  {
    if keywords != [] {
      var init := keywords[..|keywords| - 1];
      HitsMembership(init, lowered, k);
      assert keywords == init + [keywords[|keywords| - 1]];
    }
  }

  /** The reported keywords keep the list's order. */
  lemma {:induction false} HitsOrdered(keywords: seq<string>, lowered: string)
    ensures Subsequence(Hits(keywords, lowered), keywords)
    decreases |keywords|
  {
    if keywords != [] {
      var init := keywords[..|keywords| - 1];
      var k := keywords[|keywords| - 1];
      var h := Hits(init, lowered);
      HitsOrdered(init, lowered);
      assert keywords == init + [k];
      if Contains(lowered, k) {
        assert Hits(keywords, lowered) == h + [k];
        assert (h + [k])[..|h|] == h;
        assert Subsequence(h + [k], keywords);
      } else {
        assert Hits(keywords, lowered) == h;
        SubsequenceExtend(h, init, k);
      }
    }
  }

  /** A list without repeats gives a report without repeats. */
  lemma {:induction false} HitsDistinct(keywords: seq<string>, lowered: string)
    requires Distinct(keywords)
    ensures Distinct(Hits(keywords, lowered))
    decreases |keywords|
  {
    if keywords != [] {
      var init := keywords[..|keywords| - 1];
      var k := keywords[|keywords| - 1];
      HitsDistinct(init, lowered);
      HitsMembership(init, lowered, k);
      assert k !in init;
    }
  }

  /** Keywords written with an upper-case letter are never reported, since
      they are looked for in the lower-cased command. */
  lemma UpperKeywordNeverHit(keywords: seq<string>, command: string, k: string, at: nat)
    requires at < |k| && IsUpper(k[at])
    ensures k !in Hits(keywords, Lower(command))
  {
    HitsMembership(keywords, Lower(command), k);
    NoUpperExcludes(Lower(command), k, at);
  }

  /** `_check_dangerous_keywords`: the listed keywords that occur in the
      lower-cased command, in list order, without repeats; the two `chmod -R`
      entries can never be among them. */
  method CheckDangerousKeywords(command: string) returns (found: seq<string>)
    ensures found == Hits(DangerousKeywords, Lower(command))
    ensures forall k :: k in found <==> k in DangerousKeywords && Contains(Lower(command), k)
    ensures Subsequence(found, DangerousKeywords) && Distinct(found)
    ensures "chmod -R 777" !in found && "chmod -R 000" !in found
  {
    found := [];
    for i := 0 to |DangerousKeywords|
      invariant found == Hits(DangerousKeywords[..i], Lower(command))
    {
      var keyword := DangerousKeywords[i];
      assert DangerousKeywords[..i + 1][..i] == DangerousKeywords[..i];
      if Contains(Lower(command), keyword) {
        found := found + [keyword];
      }
    }
    assert DangerousKeywords[..|DangerousKeywords|] == DangerousKeywords;
    ScanReport(command);
  }

  lemma KeywordsDistinct()
    ensures Distinct(DangerousKeywords)
  {
  }

  /** What the report of the scan is, for every command. */
  lemma ScanReport(command: string)
    ensures var found := Hits(DangerousKeywords, Lower(command));
            && (forall k :: k in found <==> k in DangerousKeywords && Contains(Lower(command), k))
            && Subsequence(found, DangerousKeywords) && Distinct(found)
            && "chmod -R 777" !in found && "chmod -R 000" !in found
  {
    forall k ensures k in Hits(DangerousKeywords, Lower(command)) <==> k in DangerousKeywords && Contains(Lower(command), k) {
      HitsMembership(DangerousKeywords, Lower(command), k);
    }
    HitsOrdered(DangerousKeywords, Lower(command));
    KeywordsDistinct();
    HitsDistinct(DangerousKeywords, Lower(command));
    UpperKeywordNeverHit(DangerousKeywords, command, "chmod -R 777", 7);
    UpperKeywordNeverHit(DangerousKeywords, command, "chmod -R 000", 7);
  }

  // --------------------------------------------------------------- validator

  /** The validator's checks, in the order they are tried. */
  datatype Check = EmptyCheck | ScriptCheck | PipeToShellCheck | TraversalCheck

  const CheckOrder: seq<Check> := [EmptyCheck, ScriptCheck, PipeToShellCheck, TraversalCheck]

  predicate Fires(check: Check, command: string) {
    match check
    case EmptyCheck => AllSpace(command)
    case ScriptCheck => StartsWith(command, "./")
    case PipeToShellCheck => Contains(command, " | sh") || Contains(command, " | bash")
    case TraversalCheck => Contains(command, "../") || Contains(command, "..\"")
  }

  function Reason(check: Check): string {
    match check
    case EmptyCheck => "Empty command"
    case ScriptCheck => "Direct script execution not allowed"
    case PipeToShellCheck => "Pipe to shell not allowed"
    case TraversalCheck => "Path traversal not allowed"
  }

  /** `_validate_command`: rejects with the reason of the first check in
      `CheckOrder` that fires, and accepts with an empty reason when none
      does. */
  function ValidateCommand(command: string): (r: (bool, string))
    ensures r.0 <==> forall k :: 0 <= k < |CheckOrder| ==> !Fires(CheckOrder[k], command)
    ensures r.0 ==> r.1 == ""
    ensures !r.0 ==> exists k :: 0 <= k < |CheckOrder| && Fires(CheckOrder[k], command)
                      && r.1 == Reason(CheckOrder[k])
                      && forall j :: 0 <= j < k ==> !Fires(CheckOrder[j], command)
    ensures AllSpace(command) ==> r == (false, "Empty command")
    ensures StartsWith(command, "./") ==> !r.0
    ensures Contains(command, " | sh") || Contains(command, " | bash") ==> !r.0
    ensures Contains(command, "../") ==> !r.0
  {
    assert CheckOrder[0] == EmptyCheck && CheckOrder[1] == ScriptCheck;
    assert CheckOrder[2] == PipeToShellCheck && CheckOrder[3] == TraversalCheck;
    if command == [] || IsSpaceString(command) then
      assert Fires(CheckOrder[0], command);
      (false, "Empty command")
    else if StartsWith(command, "./") then
      assert Fires(CheckOrder[1], command);
      (false, "Direct script execution not allowed")
    else if Contains(command, " | sh") || Contains(command, " | bash") then
      assert Fires(CheckOrder[2], command);
      (false, "Pipe to shell not allowed")
    else if Contains(command, "../") || Contains(command, "..\"") then
      assert Fires(CheckOrder[3], command);
      (false, "Path traversal not allowed")
    else
      (true, "")
  }

  // -------------------------------------------------------------- sudo cache

  /** Seconds for which a typed sudo password is reused. */
  const SudoTimeout := 300

  /** The cached sudo credential. An empty `password` stands for None: the
      cache test treats both alike. `lastTime` is the clock reading of the
      last prompt. */
  datatype SudoCache = SudoCache(password: string, lastTime: int)

  predicate Fresh(c: SudoCache, now: int) {
    c.password != "" && now - c.lastTime < SudoTimeout
  }

  datatype Acquired = Acquired(cache: SudoCache, password: string, prompted: bool)

  /** `_get_sudo_password` at clock reading `now`, where `typed` is what the
      user would enter at the prompt. */
  function Acquire(c: SudoCache, now: int, typed: string): (r: Acquired)
    ensures !r.prompted <==> c.password != "" && now - c.lastTime < SudoTimeout
    ensures !r.prompted ==> r.password == c.password && r.cache == c
    ensures r.prompted ==> r.password == typed && r.cache == SudoCache(typed, now)
    ensures r.password == r.cache.password
  {
    if Fresh(c, now) then Acquired(c, c.password, false)
    else Acquired(SudoCache(typed, now), typed, true)
  }

  /** A non-empty password typed at `t0` is reused, without a prompt, at
      every later reading within the window. */
  lemma CachedWithinWindow(c: SudoCache, t0: int, typed: string, t1: int, typed1: string)
    requires typed != "" && !Fresh(c, t0)
    requires t1 - t0 < SudoTimeout
    ensures Acquire(Acquire(c, t0, typed).cache, t1, typed1) == Acquired(SudoCache(typed, t0), typed, false)
  {
  }

  // --------------------------------------------------------- running a command

  /** How a command is handed to the operating system. */
  datatype Launch =
    | ShellLaunch(line: string)                /* subprocess.run(line, shell=True) */
    | ArgvLaunch(line: string)                 /* subprocess.run(shlex.split(line)) */
    | SudoLaunch(line: string, input: string)  /* Popen(line, shell=True), `input` on stdin */

  /** What the launch did: the process exited with a code and captured
      output, or launching it raised (a missing program, unbalanced quotes
      for shlex, ...) with a message. */
  datatype ProcessReply =
    | Exited(returncode: int, stdout: string, stderr: string)
    | LaunchError(message: string)

  /** The exceptions that reach `execute_command`'s handlers. */
  datatype Raised =
    | CalledProcessError(returncode: int, cmd: string, output: Option<string>, stderr: Option<string>)
    | OtherError(message: string)

  /** A call that either returns a result or raises. */
  datatype RunResult = Completed(result: CommandResult) | Raise(error: Raised)

  /** The sudo command line: one leading `"sudo "` and the whitespace after
      it are dropped, then `"sudo -S "` is put in front. */
  function SudoLine(command: string): (line: string)
    ensures StartsWith(line, "sudo -S ")
    ensures !StartsWith(command, "sudo ") ==> line == "sudo -S " + command
    ensures StartsWith(command, "sudo ") ==>
              && |line| - 8 <= |command| - 5
              && command == "sudo " + command[5..|command| - (|line| - 8)] + line[8..]
              && AllSpace(command[5..|command| - (|line| - 8)])
              && (line[8..] == [] || !IsSpace(line[8]))
  {
    var rest := if StartsWith(command, "sudo ") then LStrip(command[5..]) else command;
    assert ("sudo -S " + rest)[8..] == rest;
    if StartsWith(command, "sudo ") then
      assert command == command[..5] + command[5..];
      assert command[5..] == command[5..][..|command| - 5 - |rest|] + rest;
      assert command[5..][..|command| - 5 - |rest|] == command[5..|command| - |rest|];
      "sudo -S " + rest
    else
      "sudo -S " + rest
  }

  /** `subprocess.run(..., check=True)`: exit code 0 completes with the
      captured output, a non-zero exit raises with the captured output
      attached, and a launch that fails raises its own error. */
  function CheckedRun(line: string, reply: ProcessReply): (r: RunResult)
    ensures r.Completed? <==> reply.Exited? && reply.returncode == 0
    ensures r.Completed? ==> r.result == CommandResult(Some(reply.stdout), Some(reply.stderr), 0)
    ensures reply.Exited? && reply.returncode != 0 ==>
              r == Raise(CalledProcessError(reply.returncode, line, Some(reply.stdout), Some(reply.stderr)))
    ensures reply.LaunchError? ==> r == Raise(OtherError(reply.message))
  {
    match reply
    case LaunchError(msg) => Raise(OtherError(msg))
    case Exited(rc, out, err) =>
      if rc != 0 then Raise(CalledProcessError(rc, line, Some(out), Some(err)))
      else Completed(CommandResult(Some(out), Some(err), rc))
  }

  datatype ElevatedRun = ElevatedRun(cache: SudoCache, prompted: bool, launch: Launch, outcome: RunResult)

  /** `_run_with_sudo`: acquires the password, feeds it to `sudo -S`; a
      non-zero exit raises without the captured output, and clears the cached
      password (not its time) when stderr says the password was wrong. */
  function RunElevated(c: SudoCache, command: string, now: int, typed: string, reply: ProcessReply): (r: ElevatedRun)
    ensures var a := Acquire(c, now, typed);
            && r.prompted == a.prompted
            && r.launch == SudoLaunch(SudoLine(command), a.password + "\n")
            && r.cache.lastTime == a.cache.lastTime
    ensures reply.Exited? && reply.returncode != 0 ==>
              r.outcome == Raise(CalledProcessError(reply.returncode, SudoLine(command), None, None))
    // The password is cleared exactly on a failure whose stderr reports it wrong.
    ensures reply.Exited? && reply.returncode != 0 && Contains(Lower(reply.stderr), "incorrect password") ==>
              r.cache == Acquire(c, now, typed).cache.(password := "")
    ensures !(reply.Exited? && reply.returncode != 0 && Contains(Lower(reply.stderr), "incorrect password")) ==>
              r.cache == Acquire(c, now, typed).cache
    ensures r.outcome.Completed? <==> reply.Exited? && reply.returncode == 0
    ensures r.outcome.Completed? ==> r.outcome.result == CommandResult(Some(reply.stdout), Some(reply.stderr), 0)
    ensures reply.LaunchError? ==> r.outcome == Raise(OtherError(reply.message))
  {
    var a := Acquire(c, now, typed);
    var line := SudoLine(command);
    var launch := SudoLaunch(line, a.password + "\n");
    match reply
    case LaunchError(msg) => ElevatedRun(a.cache, a.prompted, launch, Raise(OtherError(msg)))
    case Exited(rc, out, err) =>
      if rc != 0 then
        var cleared := if Contains(Lower(err), "incorrect password") then a.cache.(password := "") else a.cache;
        ElevatedRun(cleared, a.prompted, launch, Raise(CalledProcessError(rc, line, None, None)))
      else
        ElevatedRun(a.cache, a.prompted, launch, Completed(CommandResult(Some(out), Some(err), rc)))
  }

  // ------------------------------------------------------ the decision procedure

  /** Everything `execute_command` learns from outside: the answer to the
      danger confirmation, the platform, the clock and the typed password at
      each of the two password acquisitions (before launching, and inside
      `_run_with_sudo`), and what the launched process does. */
  datatype Env = Env(
    confirm: bool,
    windows: bool,
    eagerNow: int, eagerTyped: string,
    runNow: int, runTyped: string,
    reply: ProcessReply)

  /** The pair `execute_command` returns, the new cache, and the interaction
      it had: whether it asked for confirmation, how many password prompts it
      showed, and what it launched. */
  datatype Execution = Execution(
    success: bool, result: Option<CommandResult>,
    cache: SudoCache, confirmAsked: bool, prompts: nat, launch: Option<Launch>)

  /** What the handlers turn a returned or raised outcome into. */
  function Settle(outcome: RunResult): (r: (bool, Option<CommandResult>))
    ensures r.1.Some? && (r.0 <==> outcome.Completed?)
    ensures outcome.Completed? ==> r.1.value == outcome.result
    ensures outcome.Raise? && outcome.error.CalledProcessError? ==>
              r.1.value == CommandResult(outcome.error.output, outcome.error.stderr, outcome.error.returncode)
    ensures outcome.Raise? && outcome.error.OtherError? ==> r.1.value == CommandResult(Some(""), Some(outcome.error.message), 0)
  {
    match outcome
    case Completed(r) => (true, Some(r))
    case Raise(CalledProcessError(rc, _, out, err)) => (false, Some(CommandResult(out, err, rc)))
    case Raise(OtherError(msg)) => (false, Some(CommandResult(Some(""), Some(msg), 0)))
  }

  /** The command launched without sudo: through the shell on Windows or when
      the command holds `|`, as an argument vector otherwise. */
  function PlainLaunch(command: string, windows: bool): (r: Launch)
    ensures !r.SudoLaunch? && r.line == command
    ensures r.ShellLaunch? <==> windows || '|' in command
  {
    if windows || '|' in command then ShellLaunch(command) else ArgvLaunch(command)
  }

  /** `execute_command`. */
  function Execute(c: SudoCache, command: string, sudoRequired: bool, isDangerous: bool, env: Env): (r: Execution)
    // Rejected before running (invalid, or danger declined) is exactly a None result,
    // and then nothing was prompted, launched or cached.
    ensures r.result.None? <==>
              !ValidateCommand(command).0
              || (Hits(DangerousKeywords, Lower(command)) != [] && !isDangerous && !env.confirm)
    ensures r.result.None? ==> !r.success && r.prompts == 0 && r.launch.None? && r.cache == c
    ensures r.launch.Some? <==> r.result.Some?
    // Confirmation is asked only of a valid command with hits and no danger flag.
    ensures r.confirmAsked <==>
              ValidateCommand(command).0 && Hits(DangerousKeywords, Lower(command)) != [] && !isDangerous
    // sudo_required decides the launch path; otherwise `|` or Windows selects the shell.
    ensures r.launch.Some? && sudoRequired ==> r.launch.value.SudoLaunch? && r.launch.value.line == SudoLine(command)
    ensures r.launch.Some? && !sudoRequired ==> r.launch.value == PlainLaunch(command, env.windows) && r.prompts == 0
    ensures r.launch.Some? && sudoRequired ==> (r.prompts == 0 <==> Fresh(c, env.eagerNow) && Fresh(c, env.runNow))
    // sudo's stdin gets the password of the second acquisition; each acquisition prompts at most once.
    ensures r.launch.Some? && sudoRequired ==>
              var eager := Acquire(c, env.eagerNow, env.eagerTyped);
              var run := Acquire(eager.cache, env.runNow, env.runTyped);
              && r.launch.value.input == run.password + "\n"
              && r.prompts == (if eager.prompted then 1 else 0) + (if run.prompted then 1 else 0)
    // Success is exactly a zero exit of the launched process.
    ensures r.success <==> r.launch.Some? && env.reply.Exited? && env.reply.returncode == 0
    ensures r.success ==> r.result == Some(CommandResult(Some(env.reply.stdout), Some(env.reply.stderr), 0))
    ensures r.result.Some? && env.reply.LaunchError? ==> r.result.value == CommandResult(Some(""), Some(env.reply.message), 0)
    // A failed plain command keeps its captured output; a failed sudo command loses it.
    ensures r.launch.Some? && !sudoRequired && env.reply.Exited? && env.reply.returncode != 0 ==>
              r.result == Some(CommandResult(Some(env.reply.stdout), Some(env.reply.stderr), env.reply.returncode))
    ensures r.launch.Some? && sudoRequired && env.reply.Exited? && env.reply.returncode != 0 ==>
              r.result == Some(CommandResult(None, None, env.reply.returncode))
    // Only the sudo path touches the cache: both acquisitions, then the invalidation rule.
    ensures !sudoRequired ==> r.cache == c
    ensures r.launch.Some? && sudoRequired ==>
              r.cache == RunElevated(Acquire(c, env.eagerNow, env.eagerTyped).cache, command, env.runNow, env.runTyped, env.reply).cache
  {
    var (isValid, _) := ValidateCommand(command);
    if !isValid then Execution(false, None, c, false, 0, None)
    else
      var asked := Hits(DangerousKeywords, Lower(command)) != [] && !isDangerous;
      if asked && !env.confirm then Execution(false, None, c, true, 0, None)
      else if sudoRequired then
        var eager := Acquire(c, env.eagerNow, env.eagerTyped);
        var run := RunElevated(eager.cache, command, env.runNow, env.runTyped, env.reply);
        var prompts := (if eager.prompted then 1 else 0) + (if run.prompted then 1 else 0);
        var (success, result) := Settle(run.outcome);
        Execution(success, result, run.cache, asked, prompts, Some(run.launch))
      else
        var launch := PlainLaunch(command, env.windows);
        var (success, result) := Settle(CheckedRun(command, env.reply));
        Execution(success, result, c, asked, 0, Some(launch))
  }

  /** A failed sudo run reports neither its output nor its error text: the
      raised error carries only the exit code. */
  lemma SudoFailureLosesOutput(c: SudoCache, command: string, isDangerous: bool, env: Env)
    requires env.reply.Exited? && env.reply.returncode != 0
    requires Execute(c, command, true, isDangerous, env).launch.Some?
    ensures Execute(c, command, true, isDangerous, env).result == Some(CommandResult(None, None, env.reply.returncode))
  {
  }

  /** After sudo reports a wrong password the cache is empty, so the next
      acquisition prompts whatever the clock says; the time stamp is left as
      it was. */
  lemma WrongPasswordForcesPrompt(c: SudoCache, command: string, isDangerous: bool, env: Env, later: int, typed: string)
    requires env.reply.Exited? && env.reply.returncode != 0
    requires Contains(Lower(env.reply.stderr), "incorrect password")
    requires Execute(c, command, true, isDangerous, env).launch.Some?
    ensures var e := Execute(c, command, true, isDangerous, env);
            && e.cache.password == ""
            && e.cache.lastTime == Acquire(Acquire(c, env.eagerNow, env.eagerTyped).cache, env.runNow, env.runTyped).cache.lastTime
            && Acquire(e.cache, later, typed).prompted
  {
  }

  /** An empty password typed at the first prompt is not treated as cached,
      so the same execution prompts a second time. */
  lemma EmptyPasswordPromptsTwice(c: SudoCache, command: string, isDangerous: bool, env: Env)
    requires !Fresh(c, env.eagerNow) && env.eagerTyped == ""
    requires Execute(c, command, true, isDangerous, env).launch.Some?
    ensures Execute(c, command, true, isDangerous, env).prompts == 2
  {
  }

  /** Two sudo executions in a row: when the first prompts at `t0` and its
      command succeeds, the second, within the window, prompts no more and
      feeds the same password. */
  lemma OnePromptPerWindow(c: SudoCache, cmd1: string, d1: bool, env1: Env, cmd2: string, d2: bool, env2: Env)
    requires !Fresh(c, env1.eagerNow) && env1.eagerTyped != "" && env1.runNow == env1.eagerNow
    requires env1.reply.Exited? && env1.reply.returncode == 0
    requires Execute(c, cmd1, true, d1, env1).launch.Some?
    requires env1.eagerNow <= env2.eagerNow <= env2.runNow < env1.eagerNow + SudoTimeout
    requires Execute(Execute(c, cmd1, true, d1, env1).cache, cmd2, true, d2, env2).launch.Some?
    ensures var e1 := Execute(c, cmd1, true, d1, env1);
            var e2 := Execute(e1.cache, cmd2, true, d2, env2);
            && e1.prompts == 1
            && e2.prompts == 0
            && e2.launch.value.input == env1.eagerTyped + "\n"
  {
  }

  /** Without sudo and off Windows, a command runs through the shell exactly
      when it holds `|`; any other command is handed over unchanged as one
      line to split into arguments, redirections included. */
  lemma OnlyPipeUsesShell(c: SudoCache, command: string, isDangerous: bool, env: Env)
    requires !env.windows
    requires Execute(c, command, false, isDangerous, env).launch.Some?
    ensures Execute(c, command, false, isDangerous, env).launch.value.ShellLaunch? <==> '|' in command
    ensures Execute(c, command, false, isDangerous, env).launch.value.line == command
  {
  }

  /** A redirection alone does not select the shell. */
  lemma RedirectionIsSplit()
    ensures PlainLaunch("ls > out.txt", false) == ArgvLaunch("ls > out.txt")
  {
    assert '|' !in "ls > out.txt";
  }

  // ------------------------------------------------------------ the object

  /** `CommandExecutor`: the fields it updates in place are the cached password
      (empty for None) and the time of the last prompt. */
  class CommandExecutor {
    var sudoPassword: string
    var lastSudoTime: int

    function Cache(): SudoCache
      reads this
    {
      SudoCache(sudoPassword, lastSudoTime)
    }

    constructor ()
      ensures Cache() == SudoCache("", 0)
    {
      sudoPassword := "";
      lastSudoTime := 0;
    }

    /** `_get_sudo_password`. */
    method GetSudoPassword(now: int, typed: string) returns (password: string, prompted: bool)
      modifies this
      ensures Acquired(Cache(), password, prompted) == Acquire(old(Cache()), now, typed)
    {
      if sudoPassword != "" && now - lastSudoTime < SudoTimeout {
        return sudoPassword, false;
      }
      sudoPassword := typed;
      lastSudoTime := now;
      return typed, true;
    }

    /** `_run_with_sudo`. */
    method RunWithSudo(command: string, now: int, typed: string, reply: ProcessReply)
      returns (prompted: bool, launch: Launch, outcome: RunResult)
      modifies this
      ensures ElevatedRun(Cache(), prompted, launch, outcome) == RunElevated(old(Cache()), command, now, typed, reply)
    {
      var password;
      password, prompted := GetSudoPassword(now, typed);
      var cmd := command;
      if StartsWith(cmd, "sudo ") {
        cmd := LStrip(cmd[5..]);
      }
      var sudoCommand := "sudo -S " + cmd;
      launch := SudoLaunch(sudoCommand, password + "\n");
      match reply
      case LaunchError(msg) =>
        outcome := Raise(OtherError(msg));
      case Exited(rc, out, err) =>
        if rc != 0 {
          if Contains(Lower(err), "incorrect password") {
            sudoPassword := "";
          }
          outcome := Raise(CalledProcessError(rc, sudoCommand, None, None));
        } else {
          outcome := Completed(CommandResult(Some(out), Some(err), rc));
        }
    }

    /** `execute_command`, with its early returns. */
    method ExecuteCommand(command: string, sudoRequired: bool, isDangerous: bool, env: Env)
      returns (success: bool, result: Option<CommandResult>, confirmAsked: bool, prompts: nat, launch: Option<Launch>)
      modifies this
      ensures Execution(success, result, Cache(), confirmAsked, prompts, launch)
              == Execute(old(Cache()), command, sudoRequired, isDangerous, env)
    {
      confirmAsked, prompts, launch := false, 0, None;
      var (isValid, _) := ValidateCommand(command);
      if !isValid {
        return false, None, confirmAsked, prompts, launch;
      }
      var dangerousOps := CheckDangerousKeywords(command);
      if dangerousOps != [] && !isDangerous {
        confirmAsked := true;
        if !env.confirm {
          return false, None, confirmAsked, prompts, launch;
        }
      }
      var outcome: RunResult;
      if sudoRequired {
        var _, eagerPrompted := GetSudoPassword(env.eagerNow, env.eagerTyped);
        var runPrompted, sudoLaunch;
        runPrompted, sudoLaunch, outcome := RunWithSudo(command, env.runNow, env.runTyped, env.reply);
        prompts := (if eagerPrompted then 1 else 0) + (if runPrompted then 1 else 0);
        launch := Some(sudoLaunch);
      } else {
        if env.windows {
          launch := Some(ShellLaunch(command));
        } else if '|' in command {
          launch := Some(ShellLaunch(command));
        } else {
          launch := Some(ArgvLaunch(command));
        }
        outcome := CheckedRun(command, env.reply);
      }
      match outcome
      case Completed(r) =>
        success, result := true, Some(r);
      case Raise(CalledProcessError(rc, _, out, err)) =>
        success, result := false, Some(CommandResult(out, err, rc));
      case Raise(OtherError(msg)) =>
        success, result := false, Some(CommandResult(Some(""), Some(msg), 0));
    }
  }
}
