/** The interactive side of the assistant (ai_command_line.py): the proposal
    built from the service's reply with its defaults, the risk indicators shown
    with it, the feedback query sent on a retry, and the session loop of `run`.
    The HTTP call, the user's answers and what each command execution reports
    are scripted inputs. */
module AiCommandLine {
  import opened Wrappers
  import opened PyStrings
  import Executor

  type CommandResult = Executor.CommandResult

  // --------------------------------------------------------------- proposals

  datatype CommandOption = CommandOption(
    optionName: string, optionType: Option<string>, sudoRequired: bool,
    replacer: Option<string>, description: string)

  datatype CommandResponse = CommandResponse(
    commands: seq<string>, options: seq<CommandOption>,
    dangerous: bool, sudoRequired: bool, description: Option<string>)

  /** An entry of the reply's `options` list: each field it carries (None
      when the key is absent) and the names of its keys that are no field of
      `CommandOption` (such as `dangerous`). */
  datatype RawOption = RawOption(
    optionName: Option<string>, optionType: Option<string>, sudoRequired: Option<bool>,
    replacer: Option<string>, description: Option<string>, otherKeys: set<string>)

  /** The decoded `data` object of the service's reply; None marks an absent key. */
  datatype ReplyData = ReplyData(
    commands: Option<seq<string>>, options: Option<seq<RawOption>>,
    dangerous: Option<bool>, sudoRequired: Option<bool>, description: Option<string>)

  datatype ApiReply = ApiReply(status: int, data: ReplyData)

  /** Why `ask_ai` raised: a non-200 status, no `commands` key, or the
      option at this index could not be built. */
  datatype AskError = HttpError(status: int) | MissingCommands | BadOption(index: nat)

  /** `CommandOption(**opt)`: raises when `option_name` is missing or a key
      names no field; absent fields take the dataclass defaults. */
  function MakeOption(raw: RawOption): (r: Option<CommandOption>)
    ensures r.Some? <==> raw.optionName.Some? && raw.otherKeys == {}
    ensures r.Some? ==> && r.value.optionName == raw.optionName.value
                        && (raw.sudoRequired.None? ==> !r.value.sudoRequired)
                        && (raw.description.None? ==> r.value.description == "")
                        && (raw.sudoRequired.Some? ==> r.value.sudoRequired == raw.sudoRequired.value)
                        && (raw.description.Some? ==> r.value.description == raw.description.value)
                        && r.value.optionType == raw.optionType && r.value.replacer == raw.replacer
  {
    if raw.optionName.None? || raw.otherKeys != {} then None
    else Some(CommandOption(raw.optionName.value, raw.optionType, raw.sudoRequired.GetOr(false),
                            raw.replacer, raw.description.GetOr("")))
  }

  /** The list comprehension over `options[k..]`: every entry converted in
      order, or the index of the first one that raises. */
  function MakeOptionsFrom(raws: seq<RawOption>, k: nat): (r: Result<seq<CommandOption>, nat>)
    requires k <= |raws|
    ensures r.Success? <==> forall i :: k <= i < |raws| ==> MakeOption(raws[i]).Some?
    ensures r.Success? ==> |r.value| == |raws| - k
                           && forall i :: k <= i < |raws| ==> Some(r.value[i - k]) == MakeOption(raws[i])
    ensures r.Failure? ==> k <= r.error < |raws| && MakeOption(raws[r.error]).None?
                           && forall i :: k <= i < r.error ==> MakeOption(raws[i]).Some?
    decreases |raws| - k
  {
    if k == |raws| then Success([])
    else
      match MakeOption(raws[k])
      case None => Failure(k)
      case Some(o) =>
        match MakeOptionsFrom(raws, k + 1)
        case Failure(i) => Failure(i)
        case Success(rest) => Success([o] + rest)
  }

  /** The whole comprehension: all entries converted, or the first bad one. */
  function MakeOptions(raws: seq<RawOption>): (r: Result<seq<CommandOption>, nat>)
    ensures r.Success? <==> forall i :: 0 <= i < |raws| ==> MakeOption(raws[i]).Some?
    ensures r.Success? ==> |r.value| == |raws|
                           && forall i :: 0 <= i < |raws| ==> Some(r.value[i]) == MakeOption(raws[i])
    ensures r.Failure? ==> r.error < |raws| && MakeOption(raws[r.error]).None?
                           && forall i :: 0 <= i < r.error ==> MakeOption(raws[i]).Some?
  {
    MakeOptionsFrom(raws, 0)
  }

  /** `ask_ai` once the HTTP reply is in: a non-200 status or a missing
      `commands` raises; absent `options` become `[]`, absent flags `false`,
      an absent description None. */
  function AskAi(reply: ApiReply): (r: Result<CommandResponse, AskError>)
    ensures reply.status != 200 ==> r == Failure(HttpError(reply.status))
    ensures reply.status == 200 && reply.data.commands.None? ==> r == Failure(MissingCommands)
    ensures r.Success? <==> && reply.status == 200 && reply.data.commands.Some?
                            && (reply.data.options.None? || MakeOptions(reply.data.options.value).Success?)
    ensures reply.status == 200 && reply.data.commands.Some? && reply.data.options.Some?
            && MakeOptions(reply.data.options.value).Failure? ==>
              r == Failure(BadOption(MakeOptions(reply.data.options.value).error))
    ensures r.Success? ==>
              && r.value.commands == reply.data.commands.value
              && (reply.data.options.None? ==> r.value.options == [])
              && (reply.data.options.Some? ==> Success(r.value.options) == MakeOptions(reply.data.options.value))
              && (reply.data.dangerous.None? ==> !r.value.dangerous)
              && (reply.data.dangerous.Some? ==> r.value.dangerous == reply.data.dangerous.value)
              && (reply.data.sudoRequired.None? ==> !r.value.sudoRequired)
              && (reply.data.sudoRequired.Some? ==> r.value.sudoRequired == reply.data.sudoRequired.value)
              && r.value.description == reply.data.description
  {
    if reply.status != 200 then Failure(HttpError(reply.status))
    else if reply.data.commands.None? then Failure(MissingCommands)
    else
      var options := if reply.data.options.None? then Success([]) else MakeOptions(reply.data.options.value);
      match options
      case Failure(i) => Failure(BadOption(i))
      case Success(opts) =>
        Success(CommandResponse(reply.data.commands.value, opts,
                                reply.data.dangerous.GetOr(false), reply.data.sudoRequired.GetOr(false),
                                reply.data.description))
  }

  // ----------------------------------------------------------------- display

  /** The marker put before every displayed command: the siren for a
      dangerous proposal, the lock for one that needs sudo, both in that
      order, or the green dot for neither; a blank separates it from the
      command. */
  function RiskPrefix(dangerous: bool, sudoRequired: bool): (r: string)
    ensures |r| >= 2 && r[|r| - 1] == ' '
    ensures '🚨' in r <==> dangerous
    ensures '🔒' in r <==> sudoRequired
    ensures '🟢' in r <==> !dangerous && !sudoRequired
  {
    if dangerous && sudoRequired then
      assert "🚨🔒 " == ['🚨', '🔒', ' '];
      "🚨🔒 "
    else if dangerous then
      assert "🚨 " == ['🚨', ' '];
      "🚨 "
    else if sudoRequired then
      assert "🔒 " == ['🔒', ' '];
      "🔒 "
    else
      assert "🟢 " == ['🟢', ' '];
      "🟢 "
  }

  /** The status indicators under the panel, in display order. */
  datatype Indicator = HighRisk | RequiresSudo | SafeToExecute

  function StatusIndicators(dangerous: bool, sudoRequired: bool): (r: seq<Indicator>)
    ensures HighRisk in r <==> dangerous
    ensures RequiresSudo in r <==> sudoRequired
    ensures SafeToExecute in r <==> !dangerous && !sudoRequired
    ensures |r| > 0 && Executor.Distinct(r)
  {
    (if dangerous then [HighRisk] else [])
    + (if sudoRequired then [RequiresSudo] else [])
    + (if !(dangerous || sudoRequired) then [SafeToExecute] else [])
  }

  /** The marker and the status line agree: the siren shows exactly for
      a dangerous proposal, the lock exactly for one that needs sudo, and the
      green dot exactly when the status says "Safe to Execute". */
  lemma PrefixMatchesStatus(dangerous: bool, sudoRequired: bool)
    ensures '🚨' in RiskPrefix(dangerous, sudoRequired) <==> HighRisk in StatusIndicators(dangerous, sudoRequired)
    ensures '🔒' in RiskPrefix(dangerous, sudoRequired) <==> RequiresSudo in StatusIndicators(dangerous, sudoRequired)
    ensures '🟢' in RiskPrefix(dangerous, sudoRequired) <==> SafeToExecute in StatusIndicators(dangerous, sudoRequired)
  {
    var p := RiskPrefix(dangerous, sudoRequired);
    if dangerous && sudoRequired {
      assert p == ['🚨', '🔒', ' '];
    } else if dangerous {
      assert p == ['🚨', ' '];
    } else if sudoRequired {
      assert p == ['🔒', ' '];
    } else {
      assert p == ['🟢', ' '];
    }
  }

  /** A piece of the panel's text: a risk marker, a command, or a line break. */
  datatype Span = Marker(text: string) | CommandText(text: string) | LineBreak

  function RenderFrom(commands: seq<string>, prefix: string, last: string): seq<Span>
    decreases |commands|
  {
    if commands == [] then []
    else [Marker(prefix), CommandText(commands[0])]
         + (if commands[0] != last then [LineBreak] else [])
         + RenderFrom(commands[1..], prefix, last)
  }

  /** The text of the command panel: each command after its marker, followed
      by a line break unless its text equals the last command's. */
  function RenderCommands(response: CommandResponse): (r: seq<Span>)
    ensures r == [] <==> response.commands == []
    ensures r != [] ==> && r[0] == Marker(RiskPrefix(response.dangerous, response.sudoRequired))
                        && r[|r| - 1] == CommandText(response.commands[|response.commands| - 1])
  {
    if response.commands == [] then []
    else
      var last := response.commands[|response.commands| - 1];
      var prefix := RiskPrefix(response.dangerous, response.sudoRequired);
      RenderFromEnds(response.commands, prefix, last);
      RenderFrom(response.commands, prefix, last)
  }

  /** One command renders as its marker and its text, then a line break
      unless its text is the last command's. */
  lemma RenderFromOne(command: string, prefix: string, last: string)
    ensures RenderFrom([command], prefix, last)
              == [Marker(prefix), CommandText(command)] + (if command != last then [LineBreak] else [])
  {
    assert [command][1..] == [];
  }

  /** The panel of two runs of commands is the panel of the first followed
      by the panel of the second: commands appear in order, each with its own
      marker and line break. */
  lemma {:induction false} RenderFromAppend(a: seq<string>, b: seq<string>, prefix: string, last: string)
    ensures RenderFrom(a + b, prefix, last) == RenderFrom(a, prefix, last) + RenderFrom(b, prefix, last)
    decreases |a|
  {
    if a == [] {
      assert a + b == b;
    } else {
      assert (a + b)[0] == a[0];
      assert (a + b)[1..] == a[1..] + b;
      RenderFromAppend(a[1..], b, prefix, last);
    }
  }

  function CountOf(s: seq<string>, x: string): nat
    decreases |s|
  {
    if s == [] then 0 else (if s[0] == x then 1 else 0) + CountOf(s[1..], x)
  }

  function LineBreaks(spans: seq<Span>): nat
    decreases |spans|
  {
    if spans == [] then 0 else (if spans[0] == LineBreak then 1 else 0) + LineBreaks(spans[1..])
  }

  lemma {:induction false} LineBreaksAppend(a: seq<Span>, b: seq<Span>)
    ensures LineBreaks(a + b) == LineBreaks(a) + LineBreaks(b)
    decreases |a|
  {
    if a != [] {
      LineBreaksAppend(a[1..], b);
      assert (a + b)[0] == a[0];
      assert (a + b)[1..] == a[1..] + b;
    } else {
      assert a + b == b;
    }
  }

  lemma {:induction false} RenderFromBreaks(commands: seq<string>, prefix: string, last: string)
    ensures LineBreaks(RenderFrom(commands, prefix, last)) == |commands| - CountOf(commands, last)
    ensures |RenderFrom(commands, prefix, last)| == 2 * |commands| + LineBreaks(RenderFrom(commands, prefix, last))
    decreases |commands|
  {
    if commands != [] {
      RenderFromBreaks(commands[1..], prefix, last);
      var pair := [Marker(prefix), CommandText(commands[0])];
      var brk := if commands[0] != last then [LineBreak] else [];
      LineBreaksAppend(pair, brk);
      LineBreaksAppend(pair + brk, RenderFrom(commands[1..], prefix, last));
      assert LineBreaks(pair) == 0 by {
        assert pair[1..] == [CommandText(commands[0])];
        assert pair[1..][1..] == [];
      }
      assert LineBreaks(brk) == (if commands[0] != last then 1 else 0) by {
        if brk != [] {
          assert brk[1..] == [];
        }
      }
      assert CountOf(commands[1..], last) <= |commands[1..]| by {
        CountOfBound(commands[1..], last);
      }
    }
  }

  lemma {:induction false} CountOfBound(s: seq<string>, x: string)
    ensures CountOf(s, x) <= |s|
    decreases |s|
  {
    if s != [] {
      CountOfBound(s[1..], x);
    }
  }

  lemma {:induction false} RenderFromEnds(commands: seq<string>, prefix: string, last: string)
    requires commands != [] && commands[|commands| - 1] == last
    ensures var spans := RenderFrom(commands, prefix, last);
            |spans| >= 2 && spans[|spans| - 2..] == [Marker(prefix), CommandText(last)]
    decreases |commands|
  {
    if |commands| > 1 {
      RenderFromEnds(commands[1..], prefix, last);
    }
  }

  /** The panel holds one line break for every command whose text differs
      from the last command's, so repeats of the last command are glued to
      the next one; it never ends with a line break. */
  lemma RenderedLineBreaks(response: CommandResponse)
    requires response.commands != []
    ensures var spans := RenderCommands(response);
            var last := response.commands[|response.commands| - 1];
            && LineBreaks(spans) == |response.commands| - CountOf(response.commands, last)
            && |spans| == 2 * |response.commands| + LineBreaks(spans)
            && spans[|spans| - 1] == CommandText(last)
  {
    var last := response.commands[|response.commands| - 1];
    var prefix := RiskPrefix(response.dangerous, response.sudoRequired);
    RenderFromBreaks(response.commands, prefix, last);
    RenderFromEnds(response.commands, prefix, last);
  }

  // --------------------------------------------------------- feedback query

  function Backticked(s: string): string {
    "`" + s + "`"
  }

  /** Every attempted command in backticks, one per line, in order. */
  function UsedCommands(stack: seq<string>): string {
    Join("\n", seq(|stack|, i requires 0 <= i < |stack| => Backticked(stack[i])))
  }

  /** The pieces of the f-string `reask_ai_with_last_command` builds, in
      order; the query is their concatenation. */
  function ReaskPieces(ask: string, stack: seq<string>, lastOutput: string, returnCode: int): seq<string>
    requires stack != []
  {
    ["\n\n[Goal]\n", ask, "\n\n[FIX or REVISE]\ncommand:\n", Backticked(stack[|stack| - 1]), "\n",
     "ReturnCode: " + IntToString(returnCode), "\n다음 출력을 참고하시오:\n```", lastOutput,
     "```\n\n다음 커맨드는 이미 시도해 보았습니다.:\n", UsedCommands(stack)]
  }

  /** The query `reask_ai_with_last_command` sends; None where reading the
      last element of an empty stack raises. */
  function ReaskQuery(ask: string, stack: seq<string>, lastOutput: string, returnCode: int): (q: Option<string>)
    ensures q.None? <==> stack == []
  {
    if stack == [] then None else Some(Join("", ReaskPieces(ask, stack, lastOutput, returnCode)))
  }

  /** The feedback query carries the goal, the last command in backticks,
      the return code, the last output and every attempted command in
      backticks, ending with the list of them. */
  lemma ReaskQueryContents(ask: string, stack: seq<string>, lastOutput: string, returnCode: int)
    requires stack != []
    ensures var q := ReaskQuery(ask, stack, lastOutput, returnCode).value;
            && Contains(q, ask)
            && Contains(q, Backticked(stack[|stack| - 1]))
            && Contains(q, "ReturnCode: " + IntToString(returnCode))
            && Contains(q, lastOutput)
            && (forall i :: 0 <= i < |stack| ==> Contains(q, Backticked(stack[i])))
            && |UsedCommands(stack)| <= |q| && q[|q| - |UsedCommands(stack)|..] == UsedCommands(stack)
  {
    var parts := ReaskPieces(ask, stack, lastOutput, returnCode);
    var q := Join("", parts);
    var used := UsedCommands(stack);
    JoinContainsEach("", parts, 1);
    JoinContainsEach("", parts, 3);
    JoinContainsEach("", parts, 5);
    JoinContainsEach("", parts, 7);
    JoinContainsEach("", parts, 9);
    var quoted := seq(|stack|, i requires 0 <= i < |stack| => Backticked(stack[i]));
    forall i | 0 <= i < |stack|
      ensures Contains(q, Backticked(stack[i]))
    {
      JoinContainsEach("\n", quoted, i);
      ContainsInContained(q, used, Backticked(stack[i]));
    }
    JoinSplitAt("", parts, 9);
    assert parts[9..] == [used];
    var front := Join("", parts[..9]) + "";
    assert q == front + used;
    assert q[|front|..] == used;
  }

  /** With one-line commands, the history block of the query splits back
      into exactly the backticked commands, in order. */
  lemma UsedCommandsRoundTrip(stack: seq<string>)
    requires stack != []
    requires forall i :: 0 <= i < |stack| ==> '\n' !in stack[i]
    ensures SplitOn(UsedCommands(stack), '\n') == seq(|stack|, i requires 0 <= i < |stack| => Backticked(stack[i]))
  {
    var parts := seq(|stack|, i requires 0 <= i < |stack| => Backticked(stack[i]));
    forall i | 0 <= i < |parts|
      ensures '\n' !in parts[i]
    {
      assert parts[i] == ['`'] + stack[i] + ['`'];
    }
    SplitJoinRoundTrip(parts, '\n');
  }

  /** The retry query names the failed command literally and the return
      code as the exact number. */
  lemma RetryQueryNamesFailure(ask: string, stack: seq<string>, lastOutput: string, returnCode: int)
    requires stack != []
    ensures Contains(ReaskQuery(ask, stack, lastOutput, returnCode).value, stack[|stack| - 1])
    ensures exists digits :: Contains(ReaskQuery(ask, stack, lastOutput, returnCode).value, "ReturnCode: " + digits)
                             && ParseInt(digits) == Some(returnCode)
  {
    ReaskQueryContents(ask, stack, lastOutput, returnCode);
    var q := ReaskQuery(ask, stack, lastOutput, returnCode).value;
    var last := stack[|stack| - 1];
    assert Contains(q, Backticked(last));
    ContainsTransitive(q, Backticked(last), last);
    IntToStringRoundTrip(returnCode);
  }

  /** `last_output` after a command: its output and error text under two
      headings, None read as empty. */
  function FormatOutput(r: CommandResult): (text: string)
    ensures |text| == 17 + |r.stdout.GetOr("")| + |r.stderr.GetOr("")|
    ensures text[..8] == "STDOUT:\n" && text[8..8 + |r.stdout.GetOr("")|] == r.stdout.GetOr("")
    ensures text[8 + |r.stdout.GetOr("")|..17 + |r.stdout.GetOr("")|] == "\nSTDERR:\n"
    ensures text[17 + |r.stdout.GetOr("")|..] == r.stderr.GetOr("")
  {
    var out, err := r.stdout.GetOr(""), r.stderr.GetOr("");
    var text := "STDOUT:\n" + out + "\nSTDERR:\n" + err;
    assert text == ("STDOUT:\n" + out) + "\nSTDERR:\n" + err;
    text
  }

  // ----------------------------------------------------------------- session

  /** The answers `Prompt.ask` accepts at the confirmation: y, n, ?. */
  datatype Choice = Yes | No | Help

  /** The answers accepted once the commands have run: d, r. */
  datatype NextAction = Done | Retry

  /** What one call of `execute_command` gave back to the loop: its pair, or a
      keyboard interrupt while it ran. */
  datatype StepOutcome = Returned(success: bool, result: Option<CommandResult>) | Interrupted

  /** One input the loop receives from outside, in the order it asks for them. */
  datatype Input =
    | Line(text: string)              /* the console's input line */
    | Reply(reply: ApiReply)          /* the service's answer to a query */
    | Pick(choice: Choice)            /* the answer at the confirmation */
    | Outcome(outcome: StepOutcome)   /* what running one command gave back */
    | Resume(resume: bool)            /* "continue with remaining commands?" */
    | Act(action: NextAction)         /* done or retry, once the commands have run */

  /** What the session does that can be observed. */
  datatype Event =
    | Asked(query: string)                        /* ask_ai(query) for a new goal */
    | Reasked(goal: string, history: seq<string>, lastOutput: string, returnCode: int)
                                                  /* reask_ai_with_last_command(...) */
    | Proposed(response: CommandResponse)         /* display_command */
    | HelpShown                                   /* display_help */
    | Executed(command: string, sudoRequired: bool, dangerous: bool)
                                                  /* execute_command(...) */
    | Fault                                       /* an exception reached the query's handler */
    | Quit

  /** Where the loop of `run` waits. */
  datatype Mode =
    | AtPrompt
    | Asking(goal: string)
    | Confirming(goal: string, response: CommandResponse)
    | Running(goal: string, response: CommandResponse, index: nat)
    | Resuming(goal: string, response: CommandResponse, index: nat)
    | Choosing(goal: string, response: CommandResponse)
    | Reasking(goal: string)
    | Exited

  /** The loop's state: where it waits, `command_stack`, `last_output` and
      `return_code`. */
  datatype Session = Session(mode: Mode, stack: seq<string>, lastOutput: string, returnCode: int)

  const Start := Session(AtPrompt, [], "", 0)

  const ExitWords: seq<string> := ["exit", "quit", "q"]

  datatype Moved = Moved(next: Session, events: seq<Event>)

  /** After command `i`: the next command, or the done/retry prompt. */
  function Next(goal: string, response: CommandResponse, i: nat): Mode {
    if i < |response.commands| then Running(goal, response, i) else Choosing(goal, response)
  }

  /** A line typed at the prompt: an exit word ends the session, a blank
      line is ignored, anything else is sent as a query. */
  function OnLine(s: Session, line: string): (r: Moved)
    ensures r.events == [Quit] <==> Lower(Strip(line)) in ExitWords
    ensures r.events == [Quit] ==> r.next == Session(Exited, [], s.lastOutput, s.returnCode)
    ensures AllSpace(line) ==> r == Moved(s, [])
    ensures !AllSpace(line) && Lower(Strip(line)) !in ExitWords ==> r == Moved(s.(mode := Asking(Strip(line))), [])
  {
    var text := Strip(line);
    if Lower(text) in ExitWords then Moved(Session(Exited, [], s.lastOutput, s.returnCode), [Quit])
    else if text == "" then Moved(s, [])
    else Moved(s.(mode := Asking(text)), [])
  }

  /** The reply to a query (`sent` is the event that sent it). */
  function OnReply(s: Session, goal: string, sent: Event, reply: ApiReply): (r: Moved)
    ensures r.next.stack == s.stack && r.next.lastOutput == s.lastOutput && r.next.returnCode == s.returnCode
    ensures |r.events| == 2 && r.events[0] == sent
    ensures r.next.mode.Confirming? <==> AskAi(reply).Success?
    ensures AskAi(reply).Success? ==> r.next.mode == Confirming(goal, AskAi(reply).value)
                                      && r.events[1] == Proposed(AskAi(reply).value)
    ensures AskAi(reply).Failure? ==> r.next.mode == AtPrompt && r.events[1] == Fault
  {
    match AskAi(reply)
    case Failure(_) => Moved(s.(mode := AtPrompt), [sent, Fault])
    case Success(response) => Moved(s.(mode := Confirming(goal, response)), [sent, Proposed(response)])
  }

  /** What became of the `i`-th proposed command. */
  function OnOutcome(s: Session, goal: string, response: CommandResponse, i: nat, outcome: StepOutcome): (r: Moved)
    requires i < |response.commands|
    // The command is pushed and executed whatever its outcome.
    ensures r.next.stack == s.stack + [response.commands[i]]
    ensures |r.events| >= 1 && r.events[0] == Executed(response.commands[i], response.sudoRequired, response.dangerous)
    ensures outcome.Returned? && outcome.result.Some? ==>
              && r.next.lastOutput == FormatOutput(outcome.result.value)
              && r.next.returnCode == outcome.result.value.returncode
              && r.next.mode == Next(goal, response, i + 1) && |r.events| == 1
    ensures outcome.Returned? && outcome.result.None? ==>
              && r.next.mode == AtPrompt && r.events[1..] == [Fault]
              && r.next.lastOutput == s.lastOutput && r.next.returnCode == s.returnCode
    ensures outcome.Interrupted? ==>
              && r.next.mode == Resuming(goal, response, i) && |r.events| == 1
              && r.next.lastOutput == s.lastOutput && r.next.returnCode == s.returnCode
  {
    var cmd := response.commands[i];
    var stack := s.stack + [cmd];
    var executed := Executed(cmd, response.sudoRequired, response.dangerous);
    match outcome
    case Interrupted => Moved(Session(Resuming(goal, response, i), stack, s.lastOutput, s.returnCode), [executed])
    case Returned(_, None) => Moved(Session(AtPrompt, stack, s.lastOutput, s.returnCode), [executed, Fault])
    case Returned(_, Some(result)) =>
      Moved(Session(Next(goal, response, i + 1), stack, FormatOutput(result), result.returncode), [executed])
  }

  /** One transition of the session on one input: the state it reaches and
      what it does; None where the input is not what the session waits for. */
  function Step(s: Session, input: Input): (r: Option<Moved>)
    ensures s.mode.Exited? ==> r.None?
    // Every step keeps the commands pushed so far; only quitting empties them.
    ensures r.Some? ==> s.stack <= r.value.next.stack || (r.value.next.mode.Exited? && r.value.next.stack == [])
  {
    match s.mode
    case Exited => None
    case AtPrompt => if input.Line? then Some(OnLine(s, input.text)) else None
    case Asking(goal) => if input.Reply? then Some(OnReply(s, goal, Asked(goal), input.reply)) else None
    case Confirming(goal, response) =>
      if !input.Pick? then None
      else if input.choice == Help then Some(Moved(s, [HelpShown]))
      else if input.choice == No then Some(Moved(s.(mode := AtPrompt), []))
      else Some(Moved(s.(mode := Next(goal, response, 0)), []))
    case Running(goal, response, i) =>
      if i < |response.commands| && input.Outcome? then Some(OnOutcome(s, goal, response, i, input.outcome)) else None
    case Resuming(goal, response, i) =>
      if !input.Resume? then None
      else if input.resume then Some(Moved(s.(mode := Next(goal, response, i + 1)), []))
      else Some(Moved(s.(mode := Choosing(goal, response)), []))
    case Choosing(goal, response) =>
      if !input.Act? then None
      else if input.action == Done then Some(Moved(s.(mode := AtPrompt), []))
      else if s.stack == [] then Some(Moved(s.(mode := AtPrompt), [Fault]))
      else Some(Moved(s.(mode := Reasking(goal)), []))
    case Reasking(goal) =>
      if input.Reply? && s.stack != [] then Some(OnReply(s, goal, Reasked(goal, s.stack, s.lastOutput, s.returnCode), input.reply))
      else None
  }

  /** The kind of input each state waits for: a line at the prompt, a reply
      while asking, a choice while confirming, an outcome for a command that
      exists, an answer after an interrupt, a next action after the commands,
      and a reply to a feedback query that could be built. */
  predicate Accepts(s: Session, input: Input) {
    match s.mode
    case Exited => false
    case AtPrompt => input.Line?
    case Asking(_) => input.Reply?
    case Confirming(_, _) => input.Pick?
    case Running(_, response, i) => i < |response.commands| && input.Outcome?
    case Resuming(_, _, _) => input.Resume?
    case Choosing(_, _) => input.Act?
    case Reasking(_) => input.Reply? && s.stack != []
  }

  /** The session moves on exactly the inputs it waits for (used by `Stuck`). */
  lemma StepDefined(s: Session, input: Input)
    ensures Step(s, input).Some? <==> Accepts(s, input)
  {
  }

  datatype Transcript = Transcript(final: Session, trace: seq<Event>)

  /** A transition function of the session; `Step` is the one `run` follows. */
  type Transition = (Session, Input) -> Option<Moved>

  /** The whole session from `s` on `inputs`: steps until the inputs run out,
      the next one is not what the session waits for, or the user has quit. */
  function Drive(step: Transition, s: Session, inputs: seq<Input>): Transcript
    decreases |inputs|
  {
    if inputs == [] then Transcript(s, [])
    else
      match step(s, inputs[0])
      case None => Transcript(s, [])
      case Some(m) =>
        var t := Drive(step, m.next, inputs[1..]);
        Transcript(t.final, m.events + t.trace)
  }

  /** The session and what it has done after the first `n` inputs from `s`;
      None if it stopped before taking them all. */
  function After(step: Transition, s: Session, inputs: seq<Input>, n: nat): Option<Transcript>
    requires n <= |inputs|
    decreases n
  {
    if n == 0 then Some(Transcript(s, []))
    else
      match After(step, s, inputs, n - 1)
      case None => None
      case Some(t) =>
        (match step(t.final, inputs[n - 1])
         case None => None
         case Some(m) => Some(Transcript(m.next, t.trace + m.events)))
  }

  /** Where `run` stands after the first `pos` inputs, if it took them all. */
  ghost function Reached(inputs: seq<Input>, pos: nat): Option<Transcript> {
    if pos <= |inputs| then After(Step, Start, inputs, pos) else None
  }

  /** `Reached(inputs, pos) == Some(Transcript(s, trace))`, written as `depth`
      nested unfoldings so that the verifier opens it only where a proof asks
      for it (see `AtMeans`) and not in every proof about the loop. It states
      nothing about the program beyond `Reached`: the depth only keeps the
      solver from unfolding `After` inside the loops' invariants. */
  ghost predicate Holds(depth: nat, inputs: seq<Input>, pos: nat, s: Session, trace: seq<Event>)
    decreases depth + |trace|
  {
    if depth == 0 then Reached(inputs, pos) == Some(Transcript(s, trace)) else Holds(depth - 1, inputs, pos, s, trace)
  }

  /** `run`'s loop stands at `s` having taken `inputs[..pos]` and done `trace`. */
  ghost predicate At(inputs: seq<Input>, pos: nat, s: Session, trace: seq<Event>) {
    pos <= |inputs| && Holds(3, inputs, pos, s, trace)
  }

  // `AtMeans`, `Advance`, `Stuck`, `Prompted` to `Decided` and `Ran` are proof
  // steps for the loop in `run`: each advances `At` by one input (or closes
  // it off), so that the methods below keep `At` as their invariant without
  // unfolding `Drive`. What they state is already in `Step`'s branches.

  /** `At` is `Reached`, unfolded. */
  lemma AtMeans(inputs: seq<Input>, pos: nat, s: Session, trace: seq<Event>)
    ensures At(inputs, pos, s, trace) <==> pos <= |inputs| && After(Step, Start, inputs, pos) == Some(Transcript(s, trace))
  {
    assert Holds(3, inputs, pos, s, trace) == Holds(2, inputs, pos, s, trace);
    assert Holds(2, inputs, pos, s, trace) == Holds(1, inputs, pos, s, trace);
    assert Holds(1, inputs, pos, s, trace) == Holds(0, inputs, pos, s, trace);
  }

  /** One accepted input moves `At` one position on. */
  lemma Advance(inputs: seq<Input>, pos: nat, s: Session, trace: seq<Event>, next: Session, events: seq<Event>)
    requires At(inputs, pos, s, trace)
    requires pos < |inputs| && Step(s, inputs[pos]) == Some(Moved(next, events))
    ensures At(inputs, pos + 1, next, trace + events)
    ensures events == [] ==> At(inputs, pos + 1, next, trace)
  {
    AtMeans(inputs, pos, s, trace);
    AtMeans(inputs, pos + 1, next, trace + events);
    assert trace + [] == trace;
  }

  /** Whatever the session does from a point it has reached is the rest of
      the whole session. */
  lemma {:induction false} DriveFrom(step: Transition, s0: Session, inputs: seq<Input>, k: nat, s: Session, trace: seq<Event>)
    requires k <= |inputs| && After(step, s0, inputs, k) == Some(Transcript(s, trace))
    ensures Drive(step, s0, inputs) == Transcript(Drive(step, s, inputs[k..]).final, trace + Drive(step, s, inputs[k..]).trace)
    decreases k
  {
    if k == 0 {
      assert inputs[0..] == inputs;
    } else {
      var t := After(step, s0, inputs, k - 1).value;
      var m := step(t.final, inputs[k - 1]).value;
      DriveFrom(step, s0, inputs, k - 1, t.final, t.trace);
      assert inputs[k - 1..][0] == inputs[k - 1];
      assert inputs[k - 1..][1..] == inputs[k..];
      var rest := Drive(step, s, inputs[k..]);
      assert Drive(step, t.final, inputs[k - 1..]) == Transcript(rest.final, m.events + rest.trace);
      assert t.trace + (m.events + rest.trace) == trace + rest.trace;
    }
  }

  /** At `pos` the session `s` cannot go on: the inputs have run out or the
      next one is not what it waits for. */
  predicate Waits(inputs: seq<Input>, pos: nat, s: Session) {
    pos == |inputs| || (pos < |inputs| && !Accepts(s, inputs[pos]))
  }

  lemma Stuck(inputs: seq<Input>, pos: nat, s: Session, trace: seq<Event>)
    requires At(inputs, pos, s, trace) && Waits(inputs, pos, s)
    ensures Drive(Step, Start, inputs) == Transcript(s, trace)
  {
    AtMeans(inputs, pos, s, trace);
    DriveFrom(Step, Start, inputs, pos, s, trace);
    if pos < |inputs| {
      StepDefined(s, inputs[pos]);
      assert inputs[pos..][0] == inputs[pos];
    }
  }

  /** What a line typed at the prompt does: an exit word quits with an empty
      stack, a blank line changes nothing, anything else becomes the query. */
  lemma Prompted(inputs: seq<Input>, pos: nat, stack: seq<string>, lastOutput: string, returnCode: int,
                 trace: seq<Event>)
    requires At(inputs, pos, Session(AtPrompt, stack, lastOutput, returnCode), trace)
    requires pos < |inputs| && inputs[pos].Line?
    ensures var text := Strip(inputs[pos].text);
            && (Lower(text) in ExitWords ==> At(inputs, pos + 1, Session(Exited, [], lastOutput, returnCode), trace + [Quit]))
            && (Lower(text) !in ExitWords && text == "" ==>
                  At(inputs, pos + 1, Session(AtPrompt, stack, lastOutput, returnCode), trace))
            && (Lower(text) !in ExitWords && text != "" ==>
                  At(inputs, pos + 1, Session(Asking(text), stack, lastOutput, returnCode), trace))
  {
    var s := Session(AtPrompt, stack, lastOutput, returnCode);
    var m := OnLine(s, inputs[pos].text);
    Advance(inputs, pos, s, trace, m.next, m.events);
  }

  /** What the reply to a query (a new goal, or a feedback query built from a
      non-empty stack) does: a failing `ask_ai` goes back to the prompt, a
      proposal waits for confirmation. */
  lemma Replied(inputs: seq<Input>, pos: nat, mode: Mode, goal: string, sent: Event, stack: seq<string>,
                lastOutput: string, returnCode: int, trace: seq<Event>)
    requires || (mode == Asking(goal) && sent == Asked(goal))
             || (mode == Reasking(goal) && stack != [] && sent == Reasked(goal, stack, lastOutput, returnCode))
    requires At(inputs, pos, Session(mode, stack, lastOutput, returnCode), trace)
    requires pos < |inputs| && inputs[pos].Reply?
    ensures var r := AskAi(inputs[pos].reply);
            && (r.Failure? ==> At(inputs, pos + 1, Session(AtPrompt, stack, lastOutput, returnCode), trace + [sent, Fault]))
            && (r.Success? ==> At(inputs, pos + 1, Session(Confirming(goal, r.value), stack, lastOutput, returnCode),
                                  trace + [sent, Proposed(r.value)]))
  {
    var s := Session(mode, stack, lastOutput, returnCode);
    var m := OnReply(s, goal, sent, inputs[pos].reply);
    Advance(inputs, pos, s, trace, m.next, m.events);
  }

  /** What the answer at the confirmation does: help shows the help and asks
      again, no goes back to the prompt, yes starts on the first command. */
  lemma Confirmed(inputs: seq<Input>, pos: nat, goal: string, response: CommandResponse, stack: seq<string>,
                  lastOutput: string, returnCode: int, trace: seq<Event>)
    requires At(inputs, pos, Session(Confirming(goal, response), stack, lastOutput, returnCode), trace)
    requires pos < |inputs| && inputs[pos].Pick?
    ensures var c := inputs[pos].choice;
            && (c == Help ==> At(inputs, pos + 1, Session(Confirming(goal, response), stack, lastOutput, returnCode),
                                 trace + [HelpShown]))
            && (c == No ==> At(inputs, pos + 1, Session(AtPrompt, stack, lastOutput, returnCode), trace))
            && (c == Yes ==> At(inputs, pos + 1, Session(Next(goal, response, 0), stack, lastOutput, returnCode), trace))
  {
    var s := Session(Confirming(goal, response), stack, lastOutput, returnCode);
    var m := Step(s, inputs[pos]).value;
    Advance(inputs, pos, s, trace, m.next, m.events);
  }

  /** What the answer after an interrupt does: go on with the next command,
      or stop running commands. */
  lemma Resumed(inputs: seq<Input>, pos: nat, goal: string, response: CommandResponse, i: nat, stack: seq<string>,
                lastOutput: string, returnCode: int, trace: seq<Event>)
    requires At(inputs, pos, Session(Resuming(goal, response, i), stack, lastOutput, returnCode), trace)
    requires pos < |inputs| && inputs[pos].Resume?
    ensures inputs[pos].resume ==>
              At(inputs, pos + 1, Session(Next(goal, response, i + 1), stack, lastOutput, returnCode), trace)
    ensures !inputs[pos].resume ==>
              At(inputs, pos + 1, Session(Choosing(goal, response), stack, lastOutput, returnCode), trace)
  {
    var s := Session(Resuming(goal, response, i), stack, lastOutput, returnCode);
    var m := Step(s, inputs[pos]).value;
    Advance(inputs, pos, s, trace, m.next, m.events);
  }

  /** What the done/retry answer does: done goes back to the prompt; retry
      fails on an empty stack and otherwise sends the feedback query. */
  lemma Decided(inputs: seq<Input>, pos: nat, goal: string, response: CommandResponse, stack: seq<string>,
                lastOutput: string, returnCode: int, trace: seq<Event>)
    requires At(inputs, pos, Session(Choosing(goal, response), stack, lastOutput, returnCode), trace)
    requires pos < |inputs| && inputs[pos].Act?
    ensures inputs[pos].action == Done ==>
              At(inputs, pos + 1, Session(AtPrompt, stack, lastOutput, returnCode), trace)
    ensures inputs[pos].action == Retry && stack == [] ==>
              At(inputs, pos + 1, Session(AtPrompt, stack, lastOutput, returnCode), trace + [Fault])
    ensures inputs[pos].action == Retry && stack != [] ==>
              At(inputs, pos + 1, Session(Reasking(goal), stack, lastOutput, returnCode), trace)
  {
    var s := Session(Choosing(goal, response), stack, lastOutput, returnCode);
    var m := Step(s, inputs[pos]).value;
    Advance(inputs, pos, s, trace, m.next, m.events);
  }

  /** `run`: the whole session on `inputs`, read in order. */
  method Run(inputs: seq<Input>) returns (final: Session, trace: seq<Event>)
    ensures Transcript(final, trace) == Drive(Step, Start, inputs)
  {
    var pos;
    final, pos, trace := PromptLoop(inputs);
    Stuck(inputs, pos, final, trace);
  }

  /** The prompt loop of `run`: one line after another until the session
      waits for an input that is not there. */
  method PromptLoop(inputs: seq<Input>) returns (final: Session, pos: nat, trace: seq<Event>)
    ensures At(inputs, pos, final, trace) && Waits(inputs, pos, final)
  {
    final, pos, trace := Start, 0, [];
    AtMeans(inputs, 0, Start, []);
    while final.mode.AtPrompt?
      invariant At(inputs, pos, final, trace)
      invariant final.mode.AtPrompt? || Waits(inputs, pos, final)
      decreases |inputs| - pos, if final.mode.AtPrompt? then 1 else 0
    {
      if pos == |inputs| || !inputs[pos].Line? {
        return;
      }
      final, pos, trace := ReadLine(inputs, pos, final.stack, final.lastOutput, final.returnCode, trace);
    }
  }

  /** One line at the prompt: an exit word quits, a blank line is skipped,
      anything else is handed to the query's handler. */
  method ReadLine(inputs: seq<Input>, pos0: nat, stack: seq<string>, lastOutput: string, returnCode: int,
                  trace0: seq<Event>)
    returns (landed: Session, pos: nat, trace: seq<Event>)
    requires At(inputs, pos0, Session(AtPrompt, stack, lastOutput, returnCode), trace0)
    requires pos0 < |inputs| && inputs[pos0].Line?
    ensures pos0 < pos && At(inputs, pos, landed, trace)
    ensures landed.mode.AtPrompt? || Waits(inputs, pos, landed)
  {
    Prompted(inputs, pos0, stack, lastOutput, returnCode, trace0);
    var userInput := Strip(inputs[pos0].text);
    if Lower(userInput) in ExitWords {
      return Session(Exited, [], lastOutput, returnCode), pos0 + 1, trace0 + [Quit];
    }
    var query := userInput;
    if query == "" {
      return Session(AtPrompt, stack, lastOutput, returnCode), pos0 + 1, trace0;
    }
    landed, pos, trace := HandleQuery(inputs, pos0 + 1, query, stack, lastOutput, returnCode, trace0);
  }

  /** The query's `try` block in `run`: ask, then confirm, run and decide what
      next until the user is done or declines, or an error sends the loop
      back to the prompt. Returns the state it reached: the prompt, or one
      that waits for an input that is not there. */
  method HandleQuery(inputs: seq<Input>, pos0: nat, query: string, stack: seq<string>, lastOutput0: string,
                     returnCode0: int, trace0: seq<Event>)
    returns (landed: Session, pos: nat, trace: seq<Event>)
    requires At(inputs, pos0, Session(Asking(query), stack, lastOutput0, returnCode0), trace0)
    ensures pos0 <= pos && At(inputs, pos, landed, trace)
    ensures landed.mode.AtPrompt? || Waits(inputs, pos, landed)
  {
    if pos0 == |inputs| || !inputs[pos0].Reply? {
      return Session(Asking(query), stack, lastOutput0, returnCode0), pos0, trace0;
    }
    Replied(inputs, pos0, Asking(query), query, Asked(query), stack, lastOutput0, returnCode0, trace0);
    var reply := AskAi(inputs[pos0].reply);
    if reply.Failure? {
      return Session(AtPrompt, stack, lastOutput0, returnCode0), pos0 + 1, trace0 + [Asked(query), Fault];
    }
    var response := reply.value;
    pos, trace := pos0 + 1, trace0 + [Asked(query), Proposed(response)];
    var commandStack, lastOutput, returnCode := stack, lastOutput0, returnCode0;

    while true
      invariant pos0 <= pos
      invariant At(inputs, pos, Session(Confirming(query, response), commandStack, lastOutput, returnCode), trace)
      decreases |inputs| - pos
    {
      if pos == |inputs| || !inputs[pos].Pick? {
        return Session(Confirming(query, response), commandStack, lastOutput, returnCode), pos, trace;
      }
      Confirmed(inputs, pos, query, response, commandStack, lastOutput, returnCode, trace);
      var choice := inputs[pos].choice;
      if choice == Help {
        pos, trace := pos + 1, trace + [HelpShown];
        continue;
      } else if choice == No {
        return Session(AtPrompt, commandStack, lastOutput, returnCode), pos + 1, trace;
      }
      // `execution_success` stays true: the branch that would change it is unreachable.
      var ran;
      ran, pos, trace := RunCommands(inputs, pos + 1, query, response, commandStack, lastOutput, returnCode, trace);
      if ran.mode != Choosing(query, response) {
        return ran, pos, trace;
      }
      var decided;
      decided, pos, trace := Decide(inputs, pos, query, response, ran.stack, ran.lastOutput, ran.returnCode, trace);
      if !decided.mode.Confirming? {
        return decided, pos, trace;
      }
      response := decided.mode.response;
      commandStack, lastOutput, returnCode := decided.stack, decided.lastOutput, decided.returnCode;
    }
  }

  /** The done/retry question after the commands, and for a retry the
      feedback query built from the stack, and its reply. */
  method Decide(inputs: seq<Input>, pos0: nat, query: string, response: CommandResponse, commandStack: seq<string>,
                lastOutput: string, returnCode: int, trace0: seq<Event>)
    returns (landed: Session, pos: nat, trace: seq<Event>)
    requires At(inputs, pos0, Session(Choosing(query, response), commandStack, lastOutput, returnCode), trace0)
    ensures pos0 <= pos && At(inputs, pos, landed, trace)
    ensures landed.mode.AtPrompt? || landed.mode.Confirming? || Waits(inputs, pos, landed)
    ensures landed.mode.Confirming? ==> landed.mode.goal == query && pos0 < pos
  {
    if pos0 == |inputs| || !inputs[pos0].Act? {
      return Session(Choosing(query, response), commandStack, lastOutput, returnCode), pos0, trace0;
    }
    Decided(inputs, pos0, query, response, commandStack, lastOutput, returnCode, trace0);
    if inputs[pos0].action == Done {
      return Session(AtPrompt, commandStack, lastOutput, returnCode), pos0 + 1, trace0;
    }
    if commandStack == [] {
      // Building the feedback query reads the last element of the stack, which raises.
      return Session(AtPrompt, commandStack, lastOutput, returnCode), pos0 + 1, trace0 + [Fault];
    }
    pos := pos0 + 1;
    if pos == |inputs| || !inputs[pos].Reply? {
      return Session(Reasking(query), commandStack, lastOutput, returnCode), pos, trace0;
    }
    var sent := Reasked(query, commandStack, lastOutput, returnCode);
    Replied(inputs, pos, Reasking(query), query, sent, commandStack, lastOutput, returnCode, trace0);
    var newReply := AskAi(inputs[pos].reply);
    if newReply.Failure? {
      return Session(AtPrompt, commandStack, lastOutput, returnCode), pos + 1, trace0 + [sent, Fault];
    }
    landed := Session(Confirming(query, newReply.value), commandStack, lastOutput, returnCode);
    pos, trace := pos + 1, trace0 + [sent, Proposed(newReply.value)];
  }

  /** The `for` loop over the proposed commands. */
  method RunCommands(inputs: seq<Input>, pos0: nat, query: string, response: CommandResponse, stack: seq<string>,
                     lastOutput0: string, returnCode0: int, trace0: seq<Event>)
    returns (landed: Session, pos: nat, trace: seq<Event>)
    requires At(inputs, pos0, Session(Next(query, response, 0), stack, lastOutput0, returnCode0), trace0)
    ensures pos0 <= pos && At(inputs, pos, landed, trace)
    ensures landed.mode.AtPrompt? || Waits(inputs, pos, landed) || landed.mode == Choosing(query, response)
  {
    pos, trace := pos0, trace0;
    var commandStack, lastOutput, returnCode := stack, lastOutput0, returnCode0;
    var index := 0;
    while index < |response.commands|
      invariant index <= |response.commands| && pos0 <= pos
      invariant At(inputs, pos, Session(Next(query, response, index), commandStack, lastOutput, returnCode), trace)
      decreases |response.commands| - index
    {
      if pos == |inputs| || !inputs[pos].Outcome? {
        return Session(Running(query, response, index), commandStack, lastOutput, returnCode), pos, trace;
      }
      var ran;
      ran, pos, trace := RunOne(inputs, pos, query, response, index, commandStack, lastOutput, returnCode, trace);
      if ran.mode != Next(query, response, index + 1) {
        return ran, pos, trace;
      }
      commandStack, lastOutput, returnCode := ran.stack, ran.lastOutput, ran.returnCode;
      index := index + 1;
    }
    landed := Session(Choosing(query, response), commandStack, lastOutput, returnCode);
  }

  /** Proof step for `run`: what a command's outcome does to a session that
      runs the `i`-th proposed command. */
  lemma Ran(inputs: seq<Input>, pos: nat, query: string, response: CommandResponse, i: nat,
            stack: seq<string>, lastOutput: string, returnCode: int, trace: seq<Event>)
    requires i < |response.commands|
    requires At(inputs, pos, Session(Running(query, response, i), stack, lastOutput, returnCode), trace)
    requires pos < |inputs| && inputs[pos].Outcome?
    ensures var o := inputs[pos].outcome;
            var pushed := stack + [response.commands[i]];
            var executed := Executed(response.commands[i], response.sudoRequired, response.dangerous);
            && (o.Interrupted? ==> At(inputs, pos + 1, Session(Resuming(query, response, i), pushed, lastOutput, returnCode),
                                      trace + [executed]))
            && (o.Returned? && o.result.None? ==>
                  At(inputs, pos + 1, Session(AtPrompt, pushed, lastOutput, returnCode), trace + [executed, Fault]))
            && (o.Returned? && o.result.Some? ==>
                  At(inputs, pos + 1, Session(Next(query, response, i + 1), pushed, FormatOutput(o.result.value),
                                              o.result.value.returncode), trace + [executed]))
  {
    var s := Session(Running(query, response, i), stack, lastOutput, returnCode);
    var m := OnOutcome(s, query, response, i, inputs[pos].outcome);
    Advance(inputs, pos, s, trace, m.next, m.events);
  }

  /** One pass of the `for` loop: the command is pushed on the stack and
      executed; its result sets the return code and the feedback text, and
      an interrupt asks whether to go on. */
  method RunOne(inputs: seq<Input>, pos0: nat, query: string, response: CommandResponse, index: nat,
                stack: seq<string>, lastOutput0: string, returnCode0: int, trace0: seq<Event>)
    returns (landed: Session, pos: nat, trace: seq<Event>)
    requires index < |response.commands|
    requires At(inputs, pos0, Session(Running(query, response, index), stack, lastOutput0, returnCode0), trace0)
    requires pos0 < |inputs| && inputs[pos0].Outcome?
    ensures pos0 < pos && At(inputs, pos, landed, trace)
    ensures landed.mode.AtPrompt? || Waits(inputs, pos, landed) || landed.mode == Choosing(query, response)
            || landed.mode == Next(query, response, index + 1)
  {
    Ran(inputs, pos0, query, response, index, stack, lastOutput0, returnCode0, trace0);
    var cmd := response.commands[index];
    var commandStack := stack + [cmd];
    var executed := Executed(cmd, response.sudoRequired, response.dangerous);
    var outcome := inputs[pos0].outcome;
    trace := trace0 + [executed];
    if outcome.Interrupted? {
      landed, pos := AskResume(inputs, pos0 + 1, query, response, index, commandStack, lastOutput0, returnCode0, trace);
      return;
    }
    var result := outcome.result;
    if result.None? {
      // Reading the return code of None raises; the query's handler takes over.
      return Session(AtPrompt, commandStack, lastOutput0, returnCode0), pos0 + 1, trace0 + [executed, Fault];
    }
    var returnCode := result.value.returncode;
    var lastOutput := FormatOutput(result.value);
    landed, pos := Session(Next(query, response, index + 1), commandStack, lastOutput, returnCode), pos0 + 1;
  }

  /** The interrupt handler around a command: ask whether to go on with the
      remaining commands. */
  method AskResume(inputs: seq<Input>, pos0: nat, query: string, response: CommandResponse, index: nat,
                   commandStack: seq<string>, lastOutput: string, returnCode: int, trace: seq<Event>)
    returns (landed: Session, pos: nat)
    requires At(inputs, pos0, Session(Resuming(query, response, index), commandStack, lastOutput, returnCode), trace)
    ensures pos0 <= pos && At(inputs, pos, landed, trace)
    ensures Waits(inputs, pos, landed) || landed.mode == Choosing(query, response)
            || landed.mode == Next(query, response, index + 1)
  {
    if pos0 == |inputs| || !inputs[pos0].Resume? {
      return Session(Resuming(query, response, index), commandStack, lastOutput, returnCode), pos0;
    }
    Resumed(inputs, pos0, query, response, index, commandStack, lastOutput, returnCode, trace);
    if inputs[pos0].resume {
      landed := Session(Next(query, response, index + 1), commandStack, lastOutput, returnCode);
    } else {
      landed := Session(Choosing(query, response), commandStack, lastOutput, returnCode);
    }
    pos := pos0 + 1;
  }

  // --------------------------------------------------- properties of the session

  /** `Drive` takes a step the session accepts and goes on from where it lands. */
  lemma DriveStep(s: Session, x: Input, rest: seq<Input>)
    requires Step(s, x).Some?
    ensures var m := Step(s, x).value;
            var t := Drive(Step, m.next, rest);
            Drive(Step, s, [x] + rest) == Transcript(t.final, m.events + t.trace)
  {
    assert ([x] + rest)[0] == x;
    assert ([x] + rest)[1..] == rest;
  }

  /** Once the user has quit nothing more happens. */
  lemma ExitedStays(s: Session, rest: seq<Input>)
    requires s.mode.Exited?
    ensures Drive(Step, s, rest) == Transcript(s, [])
  {
  }

  /** An exit word, in any letter case and with whitespace around it, ends
      the session with an empty stack, and nothing after it is read. */
  lemma ExitWordEnds(s: Session, line: string, rest: seq<Input>)
    requires s.mode.AtPrompt? && Lower(Strip(line)) in ExitWords
    ensures Drive(Step, s, [Line(line)] + rest) == Transcript(Session(Exited, [], s.lastOutput, s.returnCode), [Quit])
  {
    DriveStep(s, Line(line), rest);
    ExitedStays(Session(Exited, [], s.lastOutput, s.returnCode), rest);
  }

  /** "QUIT" typed between blanks is an exit word. */
  lemma ShoutedQuitEnds()
    ensures Lower(Strip(" QUIT\t")) in ExitWords
  {
    var t := Strip(" QUIT\t");
    assert SkipSpace(" QUIT\t", 0) == 1;
    assert TrimEnd(" QUIT\t", 6) == 5;
    assert t == "QUIT";
    assert Lower(t) == "quit";
  }

  /** A blank line changes nothing and asks nothing: the session goes on as
      if it had not been typed. */
  lemma BlankLineIgnored(s: Session, line: string, rest: seq<Input>)
    requires s.mode.AtPrompt? && AllSpace(line)
    ensures Drive(Step, s, [Line(line)] + rest) == Drive(Step, s, rest)
  {
    assert Lower(Strip(line)) == [];
    DriveStep(s, Line(line), rest);
  }

  /** Any other line is sent as the goal with its surrounding whitespace
      removed, and the reply is proposed for confirmation or, when `ask_ai`
      raises, the session is back at the prompt. */
  lemma LineIsAsked(s: Session, line: string, reply: ApiReply, rest: seq<Input>)
    requires s.mode.AtPrompt? && !AllSpace(line) && Lower(Strip(line)) !in ExitWords
    ensures var goal := Strip(line);
            var r := AskAi(reply);
            var next := if r.Success? then s.(mode := Confirming(goal, r.value)) else s.(mode := AtPrompt);
            var t := Drive(Step, next, rest);
            Drive(Step, s, [Line(line), Reply(reply)] + rest)
              == Transcript(t.final, [Asked(goal), if r.Success? then Proposed(r.value) else Fault] + t.trace)
  {
    var asking := s.(mode := Asking(Strip(line)));
    assert [Line(line), Reply(reply)] + rest == [Line(line)] + ([Reply(reply)] + rest);
    DriveStep(s, Line(line), [Reply(reply)] + rest);
    DriveStep(asking, Reply(reply), rest);
  }

  /** At the confirmation, `?` shows the help and asks again. */
  lemma HelpAsksAgain(s: Session, rest: seq<Input>)
    requires s.mode.Confirming?
    ensures var t := Drive(Step, s, rest);
            Drive(Step, s, [Pick(Help)] + rest) == Transcript(t.final, [HelpShown] + t.trace)
  {
    DriveStep(s, Pick(Help), rest);
  }

  /** At the confirmation, `n` goes back to the prompt without running
      anything or touching the stack. */
  lemma DeclineRunsNothing(s: Session, rest: seq<Input>)
    requires s.mode.Confirming?
    ensures Drive(Step, s, [Pick(No)] + rest) == Drive(Step, s.(mode := AtPrompt), rest)
  {
    DriveStep(s, Pick(No), rest);
  }

  /** The inputs that report command outcomes, in order. */
  function Outcomes(outs: seq<StepOutcome>): (r: seq<Input>)
    ensures |r| == |outs| && forall k :: 0 <= k < |outs| ==> r[k] == Outcome(outs[k])
    decreases |outs|
  {
    if outs == [] then [] else [Outcome(outs[0])] + Outcomes(outs[1..])
  }

  /** The executions of the proposed commands from the `i`-th on, in order. */
  function Executions(response: CommandResponse, i: nat): (r: seq<Event>)
    requires i <= |response.commands|
    ensures |r| == |response.commands| - i
    ensures forall k :: i <= k < |response.commands| ==>
              r[k - i] == Executed(response.commands[k], response.sudoRequired, response.dangerous)
    decreases |response.commands| - i
  {
    if i == |response.commands| then []
    else [Executed(response.commands[i], response.sudoRequired, response.dangerous)] + Executions(response, i + 1)
  }

  predicate AllReturned(outs: seq<StepOutcome>) {
    forall k :: 0 <= k < |outs| ==> outs[k].Returned? && outs[k].result.Some?
  }

  /** `last_output` and `return_code` after the commands whose outcomes are
      `outs`: those of the last one, or the old ones when none ran. */
  function Feedback(lastOutput: string, returnCode: int, outs: seq<StepOutcome>): (string, int)
    requires AllReturned(outs)
  {
    if outs == [] then (lastOutput, returnCode)
    else (FormatOutput(outs[|outs| - 1].result.value), outs[|outs| - 1].result.value.returncode)
  }

  /** A command that returns a result: it is pushed and executed, and its
      result becomes the feedback. */
  lemma ReturnedStep(goal: string, response: CommandResponse, i: nat, stack: seq<string>, lastOutput: string,
                     returnCode: int, success: bool, result: CommandResult, rest: seq<Input>)
    requires i < |response.commands|
    ensures var cmd := response.commands[i];
            var t := Drive(Step, Session(Next(goal, response, i + 1), stack + [cmd], FormatOutput(result), result.returncode), rest);
            Drive(Step, Session(Next(goal, response, i), stack, lastOutput, returnCode), [Outcome(Returned(success, Some(result)))] + rest)
              == Transcript(t.final, [Executed(cmd, response.sudoRequired, response.dangerous)] + t.trace)
  {
    DriveStep(Session(Running(goal, response, i), stack, lastOutput, returnCode), Outcome(Returned(success, Some(result))), rest);
  }

  /** When every command returns a result, the commands from the `i`-th on
      are pushed on the stack and executed one by one in proposal order, the
      feedback is the last command's, and the done/retry question follows. */
  lemma {:induction false} RunsInOrder(goal: string, response: CommandResponse, i: nat, stack: seq<string>,
                                       lastOutput: string, returnCode: int, outs: seq<StepOutcome>, rest: seq<Input>)
    requires i + |outs| == |response.commands| && AllReturned(outs)
    ensures var fb := Feedback(lastOutput, returnCode, outs);
            var done := Session(Choosing(goal, response), stack + response.commands[i..], fb.0, fb.1);
            var t := Drive(Step, done, rest);
            Drive(Step, Session(Next(goal, response, i), stack, lastOutput, returnCode), Outcomes(outs) + rest)
              == Transcript(t.final, Executions(response, i) + t.trace)
    decreases |outs|
  {
    if outs == [] {
      assert response.commands[i..] == [] && Outcomes(outs) + rest == rest;
      assert stack + [] == stack;
    } else {
      var cmd := response.commands[i];
      var result := outs[0].result.value;
      var executed := Executed(cmd, response.sudoRequired, response.dangerous);
      var tail := Outcomes(outs[1..]) + rest;
      var fb := Feedback(lastOutput, returnCode, outs);
      var t := Drive(Step, Session(Choosing(goal, response), stack + response.commands[i..], fb.0, fb.1), rest);
      var here := Session(Next(goal, response, i), stack, lastOutput, returnCode);
      var there := Session(Next(goal, response, i + 1), stack + [cmd], FormatOutput(result), result.returncode);
      OutcomesFirst(outs, rest);
      ReturnedStep(goal, response, i, stack, lastOutput, returnCode, outs[0].success, result, tail);
      FeedbackTail(lastOutput, returnCode, outs);
      RunsInOrder(goal, response, i + 1, stack + [cmd], FormatOutput(result), result.returncode, outs[1..], rest);
      PushSlice(stack, response.commands, i);
      Glue(Step, here, there, Outcome(outs[0]), tail, executed, Executions(response, i + 1), t);
      assert Executions(response, i) == [executed] + Executions(response, i + 1);
    }
  }

  lemma OutcomesFirst(outs: seq<StepOutcome>, rest: seq<Input>)
    requires outs != []
    ensures Outcomes(outs) + rest == [Outcome(outs[0])] + (Outcomes(outs[1..]) + rest)
  {
  }

  lemma PushSlice(stack: seq<string>, commands: seq<string>, i: nat)
    requires i < |commands|
    ensures stack + [commands[i]] + commands[i + 1..] == stack + commands[i..]
  {
    assert commands[i..] == [commands[i]] + commands[i + 1..];
  }

  /** The feedback after the first outcome and then the others is the
      feedback after all of them. */
  lemma FeedbackTail(lastOutput: string, returnCode: int, outs: seq<StepOutcome>)
    requires outs != [] && AllReturned(outs)
    ensures AllReturned(outs[1..])
    ensures Feedback(FormatOutput(outs[0].result.value), outs[0].result.value.returncode, outs[1..])
              == Feedback(lastOutput, returnCode, outs)
  {
    assert forall k :: 0 <= k < |outs| - 1 ==> outs[1..][k] == outs[k + 1];
  }

  /** Chains one step that does `e` with the rest of a run. */
  lemma Glue(step: Transition, a: Session, b: Session, x: Input, tail: seq<Input>, e: Event, es: seq<Event>, u: Transcript)
    requires Drive(step, a, [x] + tail) == Transcript(Drive(step, b, tail).final, [e] + Drive(step, b, tail).trace)
    requires Drive(step, b, tail) == Transcript(u.final, es + u.trace)
    ensures Drive(step, a, [x] + tail) == Transcript(u.final, ([e] + es) + u.trace)
  {
    assert [e] + (es + u.trace) == ([e] + es) + u.trace;
  }

  /** A command that gives back no result has been pushed on the stack, and
      reading its return code raises: the query ends at the prompt. */
  lemma NoResultEndsQuery(goal: string, response: CommandResponse, i: nat, stack: seq<string>, lastOutput: string,
                          returnCode: int, success: bool, rest: seq<Input>)
    requires i < |response.commands|
    ensures var cmd := response.commands[i];
            var t := Drive(Step, Session(AtPrompt, stack + [cmd], lastOutput, returnCode), rest);
            Drive(Step, Session(Running(goal, response, i), stack, lastOutput, returnCode),
                  [Outcome(Returned(success, None))] + rest)
              == Transcript(t.final, [Executed(cmd, response.sudoRequired, response.dangerous), Fault] + t.trace)
  {
    DriveStep(Session(Running(goal, response, i), stack, lastOutput, returnCode), Outcome(Returned(success, None)), rest);
  }

  /** A command the executor rejects (invalid, or dangerous and declined)
      gives back no result, so the query ends at the prompt; nothing was
      prompted for or launched. */
  lemma RejectedCommandEndsQuery(goal: string, response: CommandResponse, i: nat, stack: seq<string>,
                                 lastOutput: string, returnCode: int, cache: Executor.SudoCache, env: Executor.Env,
                                 rest: seq<Input>)
    requires i < |response.commands|
    requires Executor.Execute(cache, response.commands[i], response.sudoRequired, response.dangerous, env).result.None?
    ensures var cmd := response.commands[i];
            var e := Executor.Execute(cache, cmd, response.sudoRequired, response.dangerous, env);
            var t := Drive(Step, Session(AtPrompt, stack + [cmd], lastOutput, returnCode), rest);
            && e.launch.None? && e.prompts == 0 && e.cache == cache
            && Drive(Step, Session(Running(goal, response, i), stack, lastOutput, returnCode),
                     [Outcome(Returned(e.success, e.result))] + rest)
                 == Transcript(t.final, [Executed(cmd, response.sudoRequired, response.dangerous), Fault] + t.trace)
  {
    var e := Executor.Execute(cache, response.commands[i], response.sudoRequired, response.dangerous, env);
    NoResultEndsQuery(goal, response, i, stack, lastOutput, returnCode, e.success, rest);
  }

  /** A failed sudo command leaves empty output and error text as the
      feedback, with its exit code as the return code. */
  lemma SudoFailureFeedback(goal: string, response: CommandResponse, i: nat, stack: seq<string>, lastOutput: string,
                            returnCode: int, cache: Executor.SudoCache, env: Executor.Env)
    requires i < |response.commands| && response.sudoRequired
    requires env.reply.Exited? && env.reply.returncode != 0
    requires Executor.Execute(cache, response.commands[i], true, response.dangerous, env).launch.Some?
    ensures var cmd := response.commands[i];
            var e := Executor.Execute(cache, cmd, true, response.dangerous, env);
            Step(Session(Running(goal, response, i), stack, lastOutput, returnCode), Outcome(Returned(e.success, e.result)))
              == Some(Moved(Session(Next(goal, response, i + 1), stack + [cmd], "STDOUT:\n\nSTDERR:\n", env.reply.returncode),
                            [Executed(cmd, true, response.dangerous)]))
  {
    var e := Executor.Execute(cache, response.commands[i], true, response.dangerous, env);
    var feedback := Executor.CommandResult(None, None, env.reply.returncode);
    Executor.SudoFailureLosesOutput(cache, response.commands[i], response.dangerous, env);
    assert Outcome(Returned(e.success, e.result)) == Outcome(Returned(e.success, Some(feedback)));
    ResultStep(goal, response, i, stack, lastOutput, returnCode, e.success, feedback);
    EmptyFeedback(env.reply.returncode);
  }

  /** Helper for `SudoFailureFeedback`: a result without output or error text
      leaves only the two headers. */
  lemma EmptyFeedback(code: int)
    ensures FormatOutput(Executor.CommandResult(None, None, code)) == "STDOUT:\n\nSTDERR:\n"
  {
    assert "STDOUT:\n" + "" + "\nSTDERR:\n" + "" == "STDOUT:\n\nSTDERR:\n";
  }

  /** Helper for `SudoFailureFeedback`: a returned result, whatever its flag,
      becomes the feedback and moves on to the next command. */
  lemma ResultStep(goal: string, response: CommandResponse, i: nat, stack: seq<string>, lastOutput: string,
                   returnCode: int, success: bool, result: Executor.CommandResult)
    requires i < |response.commands|
    ensures Step(Session(Running(goal, response, i), stack, lastOutput, returnCode), Outcome(Returned(success, Some(result))))
              == Some(Moved(Session(Next(goal, response, i + 1), stack + [response.commands[i]], FormatOutput(result), result.returncode),
                            [Executed(response.commands[i], response.sudoRequired, response.dangerous)]))
  {
  }

  /** An interrupted command stays on the stack; declining to go on leads to
      the done/retry question, going on to the next command. */
  lemma InterruptAsks(goal: string, response: CommandResponse, i: nat, stack: seq<string>, lastOutput: string,
                      returnCode: int, resume: bool, rest: seq<Input>)
    requires i < |response.commands|
    ensures var cmd := response.commands[i];
            var next := if resume then Next(goal, response, i + 1) else Choosing(goal, response);
            var t := Drive(Step, Session(next, stack + [cmd], lastOutput, returnCode), rest);
            Drive(Step, Session(Running(goal, response, i), stack, lastOutput, returnCode),
                  [Outcome(Interrupted), Resume(resume)] + rest)
              == Transcript(t.final, [Executed(cmd, response.sudoRequired, response.dangerous)] + t.trace)
  {
    var cmd := response.commands[i];
    var s := Session(Running(goal, response, i), stack, lastOutput, returnCode);
    var resuming := Session(Resuming(goal, response, i), stack + [cmd], lastOutput, returnCode);
    var next := if resume then Next(goal, response, i + 1) else Choosing(goal, response);
    assert Step(s, Outcome(Interrupted)) == Some(Moved(resuming, [Executed(cmd, response.sudoRequired, response.dangerous)]));
    assert Step(resuming, Resume(resume)) == Some(Moved(Session(next, stack + [cmd], lastOutput, returnCode), []));
    TwoSteps(Step, s, Outcome(Interrupted), resuming, [Executed(cmd, response.sudoRequired, response.dangerous)],
             Resume(resume), Session(next, stack + [cmd], lastOutput, returnCode), rest);
  }

  /** Two steps, the second silent, followed by the rest of a run. */
  lemma TwoSteps(step: Transition, a: Session, x: Input, b: Session, events: seq<Event>, y: Input, c: Session, rest: seq<Input>)
    requires step(a, x) == Some(Moved(b, events)) && step(b, y) == Some(Moved(c, []))
    ensures Drive(step, a, [x, y] + rest) == Transcript(Drive(step, c, rest).final, events + Drive(step, c, rest).trace)
  {
    assert ([x, y] + rest)[1..] == [y] + rest;
    assert ([y] + rest)[1..] == rest;
  }

  /** After the commands, `d` ends the query at the prompt; `r` sends the
      feedback query for the same goal with the whole stack, the last output
      and return code, and its proposal is confirmed anew. */
  lemma DoneOrRetry(goal: string, response: CommandResponse, stack: seq<string>, lastOutput: string,
                    returnCode: int, reply: ApiReply, rest: seq<Input>)
    ensures var s := Session(Choosing(goal, response), stack, lastOutput, returnCode);
            Drive(Step, s, [Act(Done)] + rest) == Drive(Step, s.(mode := AtPrompt), rest)
    ensures var s := Session(Choosing(goal, response), stack, lastOutput, returnCode);
            var r := AskAi(reply);
            var next := if r.Success? then s.(mode := Confirming(goal, r.value)) else s.(mode := AtPrompt);
            var t := Drive(Step, next, rest);
            stack != [] ==>
              Drive(Step, s, [Act(Retry), Reply(reply)] + rest)
                == Transcript(t.final, [Reasked(goal, stack, lastOutput, returnCode),
                                        if r.Success? then Proposed(r.value) else Fault] + t.trace)
  {
    var s := Session(Choosing(goal, response), stack, lastOutput, returnCode);
    DriveStep(s, Act(Done), rest);
    if stack != [] {
      assert [Act(Retry), Reply(reply)] + rest == [Act(Retry)] + ([Reply(reply)] + rest);
      DriveStep(s, Act(Retry), [Reply(reply)] + rest);
      DriveStep(s.(mode := Reasking(goal)), Reply(reply), rest);
    }
  }

  /** The stack persists from one query to the next: whatever the session
      goes through, every command pushed so far stays, in order, unless the
      user quits. */
  lemma {:induction false} HistoryPersists(s: Session, inputs: seq<Input>)
    ensures var f := Drive(Step, s, inputs).final;
            s.stack <= f.stack || (f.mode.Exited? && f.stack == [])
    decreases |inputs|
  {
    if inputs != [] && Step(s, inputs[0]).Some? {
      var m := Step(s, inputs[0]).value;
      HistoryPersists(m.next, inputs[1..]);
      if m.next.mode.Exited? {
        ExitedStays(m.next, inputs[1..]);
      }
    }
  }

  /** The input with the success flag of a returned outcome replaced. */
  function WithFlag(x: Input, flag: bool): (y: Input)
    ensures !x.Outcome? || x.outcome.Interrupted? ==> y == x
    ensures x.Outcome? && x.outcome.Returned? ==> y == Outcome(Returned(flag, x.outcome.result))
  {
    if x.Outcome? && x.outcome.Returned? then Outcome(Returned(flag, x.outcome.result)) else x
  }

  /** The success flag `execute_command` returns never matters: the whole
      session is the same whatever the flags are, so the menu reserved for a
      failed command cannot be reached. */
  lemma {:induction false} SuccessFlagIgnored(s: Session, inputs: seq<Input>, flags: seq<bool>)
    requires |flags| == |inputs|
    ensures Drive(Step, s, inputs)
              == Drive(Step, s, seq(|inputs|, k requires 0 <= k < |inputs| => WithFlag(inputs[k], flags[k])))
    decreases |inputs|
  {
    var flipped := seq(|inputs|, k requires 0 <= k < |inputs| => WithFlag(inputs[k], flags[k]));
    if inputs != [] {
      assert Step(s, inputs[0]) == Step(s, flipped[0]);
      SuccessFlagIgnored(Step(s, inputs[0]).GetOr(Moved(s, [])).next, inputs[1..], flags[1..]);
      assert flipped[1..] == seq(|inputs[1..]|, k requires 0 <= k < |inputs[1..]| => WithFlag(inputs[1..][k], flags[1..][k]));
    }
  }
}
