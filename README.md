# chat-cli core, modelled in Dafny

chat-cli is a terminal assistant. The user types a goal at a `>>` prompt. An
AI service proposes shell commands with flags for danger and sudo. The
program shows the proposal and asks for confirmation. It then runs the
commands one after another through `CommandExecutor`. Finally it offers to
finish or to send the failure back to the service for a revised proposal.

This project models two parts of that program:

- `command_executor.py`. The keyword scan and the validator come first. Then
  the sudo password cache with its 300-second window and the `sudo -S`
  rewrite. Last, the decision procedure of `execute_command`: it rejects,
  asks for confirmation, prompts for a password, chooses the launch, and
  maps every exception to the pair it returns.
- `ai_command_line.py`. This covers the defaulting `ask_ai` applies to the
  service's answer, and the risk prefix and status line of
  `display_command`. It also covers the feedback query of
  `reask_ai_with_last_command` and the whole `run` session loop.

Files:

- `wrappers.dfy` (module `Wrappers`): `Option` and `Result`.
- `py_strings.dfy` (module `PyStrings`): the Python string operations the
  core relies on. They are `str.lower`, `str.strip`, `str.lstrip`, `in`,
  `startswith`, `str.join` and `str(int)`, over ASCII, each with the
  properties the rest of the model uses. The core never calls `str.split`;
  `SplitOn` and `ParseInt` are there only as the inverses through which the
  feedback query's history block and return code are shown to read back.
- `command_executor.dfy` (module `Executor`): a specification function for
  each private method, plus the class `CommandExecutor`. Its fields
  `sudoPassword` and `lastSudoTime` are updated in place. Each method is
  proved to leave the state, and to return the result, that its
  specification function gives for the old state.
- `ai_command_line.dfy` (module `AiCommandLine`): the proposal data, the
  display, the feedback query and the session.
  - `Step` is one transition of the session on one input from the outside
    world. An input is a typed line, the service's reply, a confirmation
    answer, a command's outcome, the answer after an interrupt, or the
    done/retry answer.
  - `Drive` runs `Step` over a whole input sequence.
  - The imperative `Run` follows the nested loops of `run` and is proved to
    produce exactly `Drive(Step, Start, inputs)`.
  - The lemmas after it state what the session promises.

The outside world becomes parameters:

- the clock (`now`), the typed password (`typed`) and the process's reply
  (`ProcessReply`);
- the confirmation answer and the platform (`Env`);
- the HTTP reply (`ApiReply`);
- the outcome of each `execute_command` call as seen by `run` (`StepOutcome`).

A Python `None` password is the empty string. `time.time()` is an integer.

## Model

| member | source | states |
|---|---|---|
| PyStrings.Lower | command_executor.py:34 | lower-casing keeps the length, folds each letter on its own and leaves no upper-case letter |
| PyStrings.NoUpperExcludes | command_executor.py:34 | a lower-cased text never contains a string with an upper-case letter in it |
| PyStrings.LStrip | command_executor.py:79 | the result is a suffix of the input; what was removed is all whitespace; the result does not start with whitespace |
| PyStrings.Strip | ai_command_line.py:179 | the stripped line is empty exactly when the typed line is all whitespace |
| PyStrings.StripTrims | ai_command_line.py:179 | the stripped line is a slice of the input between two whitespace runs, and neither of its ends is whitespace |
| PyStrings.IntToStringRoundTrip | ai_command_line.py:167 | the decimal text of a return code parses back to the same integer, negatives included |
| PyStrings.JoinContainsEach | ai_command_line.py:165 | every joined part occurs in the joined text |
| PyStrings.SplitJoinRoundTrip | ai_command_line.py:165 | splitting a join on its separator gives back the parts, when no part contains the separator |
| Executor.HitsMembership | command_executor.py:32-36 | a keyword is reported exactly when it is in the list and occurs in the lower-cased command |
| Executor.HitsOrdered | command_executor.py:32-36 | the report lists keywords in the order of the keyword list |
| Executor.HitsDistinct | command_executor.py:32-36 | a list without duplicates gives a report without duplicates |
| Executor.UpperKeywordNeverHit | command_executor.py:30-34 | a keyword holding an upper-case letter is never reported, because it is matched against a lower-cased command |
| Executor.CheckDangerousKeywords | command_executor.py:26-36 | the loop reports exactly the listed keywords found in the lower-cased command, in list order and once each; `chmod -R 777` and `chmod -R 000` are never reported |
| Executor.ScanReport | command_executor.py:28-36 | the same facts hold of the scan's specification for every command |
| Executor.ValidateCommand | command_executor.py:38-56 | acceptance holds exactly when no check fires, and then the reason is empty; a rejection carries the reason of the first check that fires; blank, `./`, pipe-to-shell and `../` commands are rejected |
| Executor.Acquire | command_executor.py:58-71 | no prompt happens exactly when a non-empty password is cached and fewer than 300 seconds have passed; a prompt caches the typed password with the current time |
| Executor.CachedWithinWindow | command_executor.py:60-71 | after a prompt for a non-empty password, any request within the window reuses it without prompting |
| Executor.SudoLine | command_executor.py:77-82 | the line always starts with `sudo -S `; otherwise the command follows unchanged; a leading `sudo ` and the whitespace after it are removed and nothing else |
| Executor.Hits | command_executor.py:32-36 | the report is no longer than the keyword list, and each reported keyword is listed and occurs in the lower-cased command |
| Executor.CheckedRun | command_executor.py:148-171 | a run with `check=True` completes exactly on exit code 0, with the captured output and error text; a non-zero exit raises `CalledProcessError` carrying the exit code, the command and both captured texts; a failed launch raises its own error |
| Executor.PlainLaunch | command_executor.py:142-171 | a command without sudo is launched unchanged; it goes through the shell exactly on Windows or when it holds a pipe character |
| Executor.Settle | command_executor.py:188-208 | every outcome gives a result; the flag is true exactly on completion, which returns its result; `CalledProcessError` keeps its output, error text and exit code; any other error gives empty output, the message and code 0 |
| Executor.RunElevated | command_executor.py:73-103 | the password acquired is fed to `sudo -S` with a newline; the cached password is cleared exactly on a non-zero exit whose lower-cased stderr reports an incorrect password, and otherwise the cache is what the acquisition left; the time stamp is kept; exit code 0 completes with the captured output; a non-zero exit raises without output; a failed launch raises its own error |
| Executor.Execute | command_executor.py:105-208 | the result is None exactly for an invalid command, or one with dangerous keywords that is neither flagged nor confirmed, and then nothing is prompted, launched or cached; confirmation is asked exactly when such keywords exist without the flag; sudo selects the `sudo -S` launch, which feeds the password the second acquisition returns, with a newline, and prompts once for each of the two acquisitions that finds the cache stale; success is exactly exit code 0 with its output; a failed plain command returns its output, error text and exit code, a failed sudo command only its exit code; a launch error gives empty output, the message and code 0; without sudo the cache is untouched, with sudo it is what `RunElevated` leaves after the eager acquisition |
| Executor.SudoFailureLosesOutput | command_executor.py:97-101 | a failed sudo command reports neither output nor error text, only its exit code |
| Executor.WrongPasswordForcesPrompt | command_executor.py:97-99 | after an incorrect-password failure the cache is empty, its time unchanged, so the next request prompts |
| Executor.EmptyPasswordPromptsTwice | command_executor.py:126-140 | an empty password typed at the first prompt is not reused, so one execution prompts twice |
| Executor.OnePromptPerWindow | command_executor.py:126-140 | two successful sudo executions within 300 seconds prompt once, and the second feeds the same password |
| Executor.OnlyPipeUsesShell | command_executor.py:155-171 | without sudo and off Windows, the shell is used exactly when the command holds a pipe character; the command is launched unchanged |
| Executor.RedirectionIsSplit | command_executor.py:157-171 | one instance of `OnlyPipeUsesShell`: a command with only a redirection is split into arguments and does not go through the shell |
| Executor.CommandExecutor.constructor | command_executor.py:20-23 | a new executor has no password cached and time 0 |
| Executor.CommandExecutor.GetSudoPassword | command_executor.py:58-71 | the password returned, whether it prompted, and the new fields are those `Acquire` gives for the old fields |
| Executor.CommandExecutor.RunWithSudo | command_executor.py:73-103 | the launch, the outcome and the new fields are those `RunElevated` gives for the old fields |
| Executor.CommandExecutor.ExecuteCommand | command_executor.py:105-208 | the pair returned, the prompts, the launch and the new fields are those `Execute` gives for the old fields |
| AiCommandLine.MakeOption | ai_command_line.py:31-37 | an option is built exactly when `option_name` is present and no unknown key is; the name is kept; a present `sudo_required` or description is kept, a missing one defaults to false or empty |
| AiCommandLine.MakeOptions | ai_command_line.py:108 | all options convert, in order and one for one, or the index of the first one that raises is reported |
| AiCommandLine.AskAi | ai_command_line.py:101-112 | a non-200 status or missing commands fail; a bad option fails with the index `MakeOptions` reports; success keeps the commands, has exactly the options `MakeOptions` builds (or `[]` when absent), and defaults absent flags to false |
| AiCommandLine.StatusIndicators | ai_command_line.py:134-141 | high risk shows exactly when dangerous, sudo exactly when sudo is required, and safe exactly when neither; never empty, never repeated |
| AiCommandLine.PrefixMatchesStatus | ai_command_line.py:118-141 | each command's prefix shows the siren, the lock or the green dot exactly when the status line shows the matching indicator |
| AiCommandLine.RiskPrefix | ai_command_line.py:119-127 | the prefix ends with a space; it shows the siren exactly when dangerous, the lock exactly when sudo is required, and the green dot exactly when neither |
| AiCommandLine.RenderCommands | ai_command_line.py:118-132 | the panel is empty exactly when there are no commands; otherwise it starts with the risk prefix and ends with the last command's text |
| AiCommandLine.RenderFromOne | ai_command_line.py:129-132 | one command renders as its prefix, then its text, then a line break exactly when it differs from the last command |
| AiCommandLine.RenderFromAppend | ai_command_line.py:118-132 | the panel of a list is the panels of its parts one after the other, so each command renders in place as `RenderFromOne` says |
| AiCommandLine.RenderedLineBreaks | ai_command_line.py:118-132 | the number of line breaks is the number of commands that differ from the last command, so repeats of the last command run into the next one; besides them the panel holds two spans per command, and it ends with the last command; what each span is follows from `RenderFromOne` and `RenderFromAppend` |
| AiCommandLine.ReaskQuery | ai_command_line.py:162-169 | a query is built exactly when the stack is non-empty; reading the last element of an empty stack raises |
| AiCommandLine.ReaskQueryContents | ai_command_line.py:164-168 | the query holds the goal, the last command in backticks, the return code, the last output and every attempted command in backticks, and ends with the list of them |
| AiCommandLine.UsedCommandsRoundTrip | ai_command_line.py:165 | the history block splits back, line by line, into the backticked commands, in order |
| AiCommandLine.RetryQueryNamesFailure | ai_command_line.py:164-167 | the query names the failed command and a number that parses back to the return code |
| AiCommandLine.FormatOutput | ai_command_line.py:229 | the feedback is `STDOUT:` and a newline, the output (empty when absent), a newline, `STDERR:` and a newline, then the error text (empty when absent), and nothing else |
| AiCommandLine.OnLine | ai_command_line.py:179-195 | a line quits exactly when its stripped, lower-cased form is an exit word, which empties the stack; a blank line changes nothing; any other line becomes the stripped query |
| AiCommandLine.OnReply | ai_command_line.py:193-197 | the query is sent, then a successful `ask_ai` waits for confirmation of its proposal and a failing one returns to the prompt; the stack and the feedback are untouched |
| AiCommandLine.OnOutcome | ai_command_line.py:212-229 | the command is pushed first; a result sets the feedback and return code and moves to the next command; a missing result ends the query with a fault; an interrupt waits for the resume answer; the feedback is kept unless a result arrives |
| AiCommandLine.Step | ai_command_line.py:176-275 | a session that has quit reads no more input; every step keeps the stack as a prefix, except quitting, which empties it |
| AiCommandLine.Prompted | ai_command_line.py:179-191 | proof step for `Run`: at the prompt, an exit word quits with an empty stack, a blank line changes nothing, and any other line becomes the goal |
| AiCommandLine.Replied | ai_command_line.py:193-197 | proof step for `Run`: a failing `ask_ai` returns to the prompt through the handler; a proposal is shown and waits for confirmation |
| AiCommandLine.Confirmed | ai_command_line.py:197-212 | proof step for `Run`: `?` shows the help and asks again, `n` returns to the prompt, `y` starts on the first command |
| AiCommandLine.Ran | ai_command_line.py:212-229 | proof step for `Run`: a command's outcome pushes it, then either records its output and return code, or raises on a missing result, or waits for the resume answer |
| AiCommandLine.Resumed | ai_command_line.py:251-255 | proof step for `Run`: after an interrupt, yes goes on with the next command and no stops running commands |
| AiCommandLine.Decided | ai_command_line.py:257-267 | proof step for `Run`: `d` returns to the prompt; `r` fails on an empty stack and otherwise sends the feedback query |
| AiCommandLine.Run | ai_command_line.py:171-283 | the nested loops produce exactly the session and the events that `Step` gives over the inputs |
| AiCommandLine.PromptLoop | ai_command_line.py:176-191 | the prompt loop stops only where the session cannot take the next input, having followed `Step` all the way |
| AiCommandLine.ReadLine | ai_command_line.py:179-195 | one typed line takes at least one input and lands at the prompt or where the session waits |
| AiCommandLine.HandleQuery | ai_command_line.py:193-275 | the query's `try` block follows `Step` and lands back at the prompt or where the session waits |
| AiCommandLine.Decide | ai_command_line.py:257-267 | the done/retry answer lands at the prompt, or at a new confirmation for the same goal after taking input |
| AiCommandLine.RunCommands | ai_command_line.py:211-255 | the `for` loop follows `Step` and ends at the done/retry question, at the prompt, or where the session waits |
| AiCommandLine.RunOne | ai_command_line.py:212-229 | one pass of the loop takes one outcome and follows `Step` |
| AiCommandLine.AskResume | ai_command_line.py:251-255 | the interrupt handler leads to the done/retry question or to the remaining commands |
| AiCommandLine.ExitedStays | ai_command_line.py:182-185 | once the user has quit, no further input is read |
| AiCommandLine.ExitWordEnds | ai_command_line.py:179-185 | an exit word, in any case and with surrounding whitespace, ends the session with an empty stack and nothing after it is read |
| AiCommandLine.ShoutedQuitEnds | ai_command_line.py:179-182 | one instance of `ExitWordEnds`: `QUIT` between blanks is an exit word |
| AiCommandLine.BlankLineIgnored | ai_command_line.py:188-191 | a blank line leaves the session as if it had not been typed |
| AiCommandLine.LineIsAsked | ai_command_line.py:193-195 | any other line is asked with its whitespace stripped; the proposal is shown, or on failure the session is back at the prompt |
| AiCommandLine.HelpAsksAgain | ai_command_line.py:204-206 | `?` shows the help and the confirmation is asked again |
| AiCommandLine.DeclineRunsNothing | ai_command_line.py:271-273 | `n` returns to the prompt without running anything or touching the stack |
| AiCommandLine.RunsInOrder | ai_command_line.py:211-229 | when every command returns a result, the commands run in order with the response's flags; all are pushed on the stack; the feedback is the last one's; the done/retry question follows |
| AiCommandLine.NoResultEndsQuery | ai_command_line.py:226-229 | a command without a result stays pushed, and reading its return code ends the query at the prompt |
| AiCommandLine.RejectedCommandEndsQuery | ai_command_line.py:219-229 | a command the executor rejects, being invalid or dangerous and declined, is neither prompted for nor launched, leaves the cache alone, and ends the query at the prompt |
| AiCommandLine.SudoFailureFeedback | ai_command_line.py:219-229 | after a failed sudo command the feedback has empty output and error sections, with the exit code as return code |
| AiCommandLine.InterruptAsks | ai_command_line.py:251-255 | an interrupted command stays on the stack; going on runs the next command, declining leads to the done/retry question |
| AiCommandLine.DoneOrRetry | ai_command_line.py:257-267 | `d` ends the query; `r` sends the goal, the whole stack, the last output and the return code, and its proposal is confirmed anew |
| AiCommandLine.HistoryPersists | ai_command_line.py:172-213 | over a whole session the starting stack stays a prefix of the stack, unless the user quits with an empty one |
| AiCommandLine.SuccessFlagIgnored | ai_command_line.py:226-249 | the session, its trace and its final state are the same whatever success flags `execute_command` returns; why the failed-command menu is unreachable is under "## Left out" |

## Left out

- HTTP, JSON decoding and the `.env` configuration of `ask_ai` are left out because they are I/O. The service's answer arrives already decoded as an `ApiReply`, and a key can only be present or absent. A key present with `null` or with the wrong type is not modelled.
- The system-information prompt and `main.py` are left out because they only start the loop and describe the machine.
- Console output, colours, spinners, panel styling and the text of `display_help` are left out because they are presentation. `display_command` is modelled by its prefixes, line breaks and status indicators.
- Markup errors from rich are not modelled. The console interprets markup (main.py:18), so a command holding an unmatched closing tag such as `[/]` makes `Text.from_markup` at ai_command_line.py:215 raise after the push, which ends the query through ai_command_line.py:274. Output holding such a tag makes the print at command_executor.py:179 raise, and the handler's own print at command_executor.py:206 raises again, so `execute_command` raises instead of returning a pair.
- `getpass`, `time.time`, `subprocess` and `platform` become parameters because they are outside the program. `shlex.split` is not modelled either: the argument-vector launch keeps the command line, and a tokenising error arrives as a launch error.
- An exception raised by `getpass` itself, before any launch, is not modelled; only launch errors are.
- The `runas` rewrite (command_executor.py:144-147) is not modelled because its guard `sudo_required` is always false on that path.
- `Executor.Execute`: `CommandResult.returncode` is an integer. Its `None` case never arises on the modelled paths.
- `last_command` (ai_command_line.py:173, 226) is not modelled because it is written and never read.
- The failed-command menu (ai_command_line.py:231-249) is not modelled as code because `if result:` is always true for a `CommandResult`. `AiCommandLine.SuccessFlagIgnored` states the consequence.
- A keyboard interrupt at the prompt or outside a running command (ai_command_line.py:278-280) is not modelled because it is an asynchronous event.
- The outer handler (ai_command_line.py:282-283) is not modelled. It catches synchronous errors from reading the prompt line, such as `EOFError` once the console input is closed, prints them and goes round the loop again. The model has no such error: a typed line always arrives.
- `AiCommandLine.Run`: the session ends when the inputs run out or the next input is not of the kind it waits for. The program would instead block on the console, or, with its input closed, keep looping through the outer handler.
- `Prompt.ask` re-asking on an invalid answer is not modelled: the answers are already valid choices, and the default `n` or `d` arrives as that choice.
- PyStrings: whitespace and letter case are ASCII only, because Unicode `isspace` and `lower` tables are not modelled.
- PyStrings.Strip: its ensures states only the empty case; the full meaning is proved in `StripTrims`.
- `time.time()` is an integer count of seconds, so sub-second timing is not modelled.
