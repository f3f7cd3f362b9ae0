# Verified models of aterm's headless logic

aterm is a terminal with an LLM agent. This project models the logic of its agent loop, its
safety gate, its redaction and sandbox profile, its editor and its matching algorithms, and
proves what they keep over all inputs and all runs. Code that changes things in place is
modelled by classes and loops, each tied by its contract to a function of the old state; the
properties are lemmas about those functions.

| file | models |
|---|---|
| Provider | the reducer from a provider's stream to agent events |
| Turn, Round, TurnLoop, TurnMeaning | the turn: stream, gate, run in parallel or one by one, feed back, repeat; and what that means for stream, answers and end |
| Transcript, RecordedSteps, TurnHistory, HistoryEnds | recording a run, deriving the message history, its agreement with what was sent, and how it ends |
| PartedHistories | turns that show where these fail |
| WholeTurn | a turn run, recorded and derived in one, and its one completion event |
| Approvals, ApprovedRuns | the approval channel, bridge, keyboard, cancel and teardown as a step system, and which calls run in it |
| SecretStore, Redaction, RedactedRegistry | registered values and their redaction |
| SandboxText, SandboxProfile, SandboxMeaning | the profile text, its reader, and what it permits |
| Command, Risk, Policy, CommandText | command parsing, classification, the autonomy gate, and its verdict read off the command's own text |
| Wildcard, FileTools | the glob matcher and the file tools with their staleness check |
| Editing, EditBuffers, EditTimeline, Typing | the editor buffer, its undo timeline, and what typing, erasing and moving do |
| Completion, Highlighting, History | fuzzy completion, command-line highlighting, history and recall |
| Projector, ShownSteps | the projection of events onto the timeline, and what it shows of calls and results |
| Latency | percentiles and the latency gate |
| Text, StableSort | shared text functions and the stable sort |

What the outside world decides (streams, answers, outcomes, completion times, cancellation, disk
failures, other programs' changes) is a parameter, so each theorem holds for every choice of it.
JSON parsing and tool-input parsing are arbitrary functions. The command tables, the words that
introduce a command and the deny patterns are arbitrary, so the theorems hold for any tables. Text
is a sequence of Unicode scalars with UTF-8 lengths where bytes matter; latency is over reals.

## Where the code and its documentation disagree

- The glob matcher compares a pattern char with the subject before asking whether it is `*`
  (crates/aterm-agent/src/sink.rs:636-639), so a literal `*` in a file name can defeat a pattern
  that describes it. `Wildcard.CorrectOnSubject` gives the exact condition for one segment,
  `Wildcard.GlobCorrectOnPath` for whole paths, `Wildcard.MissedPath` a pattern that is missed.
- Redaction is documented to leave no registered value. A value that lines up with part of the
  marker can come back out of the marker and its surroundings. `Redaction.RedactionClears` and
  `RedactedRegistry.ExactlyTheSafeValues` give the exact condition.
- `edit_file` is documented to demand exactly one occurrence; it counts occurrences that do not
  overlap (crates/aterm-agent/src/sink.rs:471). `FileTools.CountMeansOnce` gives the exact
  condition, `FileTools.CountedOnceOccursTwice` an input.
- A comment at crates/aterm-app/src/agent_runtime.rs:625-628 says no request is left parked on an
  inactive turn. One still in the channel is parked afterwards. `Approvals.TeardownIsCleanIff`
  gives the exact condition, `Approvals.LateParkHappens` a run; `Approvals.LateAnswersDoNothing`
  shows that it is without effect.
- The derived history is documented to match what the loop sent. Malformed calls and the order
  results are reported in break this. `TurnHistory.HistoryAgrees` and
  `TurnHistory.HistoryAgreesExactly` give the exact conditions,
  `PartedHistories.MalformedRunParts` and `PartedHistories.ReadIsReportedFirst` a run for each.
- The derived history is documented to be a valid provider conversation
  (crates/aterm-agent/src/transcript.rs:435-437). It is not when the last round leaves a call
  without its result. `HistoryEnds.AnsweredExactly` gives the exact condition for every run,
  `HistoryEnds.SelfEndedAnswered` for turns that end by themselves,
  `PartedHistories.CutShortStaysOpen` a turn.
- The editor's reducer is documented to report whether the committed text changed
  (crates/aterm-core/src/editing.rs:137). It also reports a change when the same text is put
  back. `EditTimeline.ReportIsTrue` gives the exact condition,
  `EditTimeline.ChangeReportedForNone` an input.
- A command buffer auto-runs exactly when each of its lines would, except that a buffer without
  any command line still asks at the ask-always tier (`Policy.BufferAutoRunsLineByLine`).

## Model

| member | source | states |
|---|---|---|
| `Provider.AgentEventMapper.Accept` | crates/aterm-agent/src/provider.rs:423-493 | one reducer step in place: the events given back and the whole new state (open call, stop reason, done) are those of the step function |
| `Provider.MapperFaithful` | crates/aterm-agent/src/provider.rs:416-518 | for every stream that reaches `MessageStop`: one proposal (or failed proposal) per started call, in order, same id, parsed from exactly the concatenation of that call's fragments; everything else passed through in order; then one `TurnComplete` with the last reported stop reason |
| `Provider.FlushMeaning` | crates/aterm-agent/src/provider.rs:495-518 | for every buffer: its text with the blanks around it taken off decides the proposal: nothing is the empty input, what parses is the input, and what does not fails under the call's own id with the parser's error; `Provider.Holds` names that input without the reducer |
| `Provider.CompleteIsLast` | crates/aterm-agent/src/provider.rs:423-493 | from any state that is not done, a stream that reaches `MessageStop` ends in `TurnComplete` and nothing follows it |
| `Provider.NoCompleteWithoutStop` | crates/aterm-agent/src/provider.rs:423-493 | a stream cut off before `MessageStop` never yields `TurnComplete` |
| `Turn.StreamRound` | crates/aterm-agent/src/turn.rs:379-465 | the collecting loop returns the round data and the forwarded events of the mapped stream, without the per-round `TurnComplete` |
| `Round.JoinAllConcurrent` | crates/aterm-agent/src/turn.rs:583-607 | the poll loop over output slots: outputs come back in input order whatever number of polls each future needs, every future finishes exactly once, and the loop ends |
| `Round.GateAll` | crates/aterm-agent/src/turn.rs:484-512 | gating in proposal order: rejected and declined calls are answered and reported at once, the others split into parallel and serial, slots and events as specified |
| `Round.ExecuteRound` | crates/aterm-agent/src/turn.rs:472-540 | results are in proposal order, one per call, whatever the completion order; events are in immediate, parallel, serial order; the parallel calls are started before the serial ones |
| `Round.EveryCallEmitted` | crates/aterm-agent/src/turn.rs:484-539 | the report order names every proposed call and nothing else |
| `Round.EmitOrderPermutes` | crates/aterm-agent/src/turn.rs:484-539 | the report order is a rearrangement of proposal order |
| `Round.ReportInOrder` | crates/aterm-agent/src/turn.rs:489-536 | results are reported in proposal order if and only if no immediate answer follows a call that runs and no read follows a mutation |
| `TurnMeaning.RoundReadsTheMessage` | crates/aterm-agent/src/turn.rs:394-465 | for every stream that reaches `MessageStop`, told from the provider's own events: each started call is named in order with the input its fragments hold, those that parse are dispatched in order, each other one is answered at once with its error, the text is the text streamed and the stop reason the last one reported |
| `TurnMeaning.RelaysTheStream` | crates/aterm-agent/src/turn.rs:394-465 | every event of a round's stream but its completion is relayed in order and unchanged, except that what a remote tool returned is cleaned: unchanged if it holds no registered value, and free of every value that does not line up with the marker |
| `TurnMeaning.AnswerMeaning` | crates/aterm-agent/src/turn.rs:484-582 | the answer to each call: the rejection with its reason, the user's refusal, or the tool's own output and error flag, the output unchanged if it holds no registered value and free of every value that does not line up with the marker |
| `TurnLoop.Run` | crates/aterm-agent/src/turn.rs:289-373 | the whole loop, exactly: every logged round was neither cancelled nor cut off and asked for tools; messages are the initial ones followed by (assistant, tool) pairs of those rounds; the next round fixes how the turn ends and what is left on the channel (cancelled at the top, cap, cancelled in the stream, failed, done, cancelled while running tools, in this order); the channel holds the rounds' events, that rest, and a closing event unless cancelled |
| `TurnLoop.TurnIsDetermined` | crates/aterm-agent/src/turn.rs:289-373 | for given streams, answers, outcomes and cancellations there is one log, one rest and one end that meet this |
| `TurnMeaning.UninterruptedTurn` | crates/aterm-agent/src/turn.rs:289-373 | with no cancellation and no failure, a turn goes on exactly as long as the model asks for tools and the cap allows, and ends with the model's stop reason, or at the cap with `max_tool_rounds` |
| `TurnMeaning.FailedTurn` | crates/aterm-agent/src/turn.rs:289-333 | a turn fails if and only if its provider fails below the cap and no earlier cancellation lands; then all it streamed is on the channel, and the error is last |
| `TurnMeaning.CancelledTurn` | crates/aterm-agent/src/turn.rs:289-373 | a turn is cancelled if and only if a cancellation lands at the top, in the stream, or while tools run; then the channel holds what was put there before, and no end |
| `TurnLoop.CollectedUses` | crates/aterm-agent/src/turn.rs:394-454 | the assistant message names every proposed call, malformed ones included, in proposal order |
| `TurnLoop.CollectedBalance` | crates/aterm-agent/src/turn.rs:394-454 | each proposal is either to be dispatched or already answered, never both and never neither (multisets of ids) |
| `TurnLoop.EveryCallAnswered` | crates/aterm-agent/src/turn.rs:289-373 | in every round that went through, the assistant message names exactly the calls the provider started, and the tool message holds exactly one result for each, as multisets of ids |
| `TurnLoop.ToolRoundsAreWhole` | crates/aterm-agent/src/turn.rs:320-358 | a round that asks for tools has read its stream to `MessageStop` |
| `TurnLoop.PairsAt` | crates/aterm-agent/src/turn.rs:342-358 | the messages of round k stand at positions 2k and 2k+1 of the pairs |
| `TurnLoop.StartedOnlyIfCleared` | crates/aterm-agent/src/turn.rs:484-530 | a call is started if and only if it parsed and the gate cleared it or the user approved it, and then once |
| `TurnLoop.ChangesNeedApproval` | crates/aterm-agent/src/turn.rs:179-203 | at every tier a call that edits or writes a file or goes to an MCP tool runs if and only if its own request was approved; that request has level Caution and the reason FileWrite or McpTool |
| `TurnLoop.ReadsAlwaysRun` | crates/aterm-agent/src/turn.rs:179-203 | a read, list, glob or grep that parses runs, whatever the tier and the answers |
| `TurnLoop.OnlyReadsRunTogether` | crates/aterm-agent/src/turn.rs:484-536 | exactly the reads run side by side; every other call that runs does so alone, after them |
| `TurnLoop.CommandsRunByText` | crates/aterm-agent/src/turn.rs:179-203 | a command runs if and only if it was approved, or the tier is above ask-always and its text calls for no reason that stops the tier |
| `TurnLoop.AutoRunCommandsAreHarmless` | crates/aterm-agent/src/turn.rs:179-203 | of a command that runs unasked, at any tier: no char of its text means anything to a shell, no redirect, no assignment, `=`, `^` or `~` in front; no word is destructive, privileged or a secret tool, the head introduces no other command, and no deny pattern is touched |
| `TurnLoop.OutputsAreClean` | crates/aterm-agent/src/turn.rs:495-540 | no tool output that re-enters the conversation holds a registered value, verbatim or soft-wrapped, unless the value lines up with part of the marker |
| `Transcript.AgentTranscript.RecordUserPrompt` | crates/aterm-agent/src/transcript.rs:279-288 | appends one prompt step and closes the open one |
| `Transcript.AgentTranscript.PushAssistantDelta` | crates/aterm-agent/src/transcript.rs:290-304 | grows the open assistant step in place or opens one; all other steps unchanged |
| `Transcript.AgentTranscript.PushThinkingDelta` | crates/aterm-agent/src/transcript.rs:306-319 | grows the open thinking step in place or opens one; all other steps unchanged |
| `Transcript.AgentTranscript.RecordToolCall` | crates/aterm-agent/src/transcript.rs:321-340 | appends the call step and closes the open one |
| `Transcript.AgentTranscript.RecordApproval` | crates/aterm-agent/src/transcript.rs:342-357 | appends the approval step and closes the open one |
| `Transcript.AgentTranscript.RecordToolResult` | crates/aterm-agent/src/transcript.rs:359-374 | appends the result step and closes the open one |
| `Transcript.AgentTranscript.AddUsage` | crates/aterm-agent/src/transcript.rs:376-388 | adds up usage with saturation at 32 bits |
| `Transcript.AgentTranscript.Finish` | crates/aterm-agent/src/transcript.rs:390-396 | sets the status and closes the open step |
| `Transcript.AgentTranscript.DeriveHistory` | crates/aterm-agent/src/transcript.rs:447-513 | the nested index loop returns the history that reading the steps one by one gives |
| `Transcript.RecordedHistory` | crates/aterm-agent/src/transcript.rs:279-319 | recording events with deltas coalesced in place derives the same history as one step per event |
| `RecordedSteps.TranscriptMeaning` | crates/aterm-agent/src/transcript.rs:279-396 | the transcript of a run is its prompt and then one step for each run of prose of one kind, each call and each result, in order, with all their text; usage and errors do not part a run of prose, the end of a turn does |
| `RecordedSteps.SilentSteps` | crates/aterm-agent/src/transcript.rs:447-513 | a thinking or approval step anywhere in a transcript does not show in the derived history, if and only if it does not stand between two results; there it parts their message in two |
| `Transcript.RecordTurn` | crates/aterm-agent/src/turn.rs:851-885 | a run's events folded into a transcript, as the loop's tests do it: exactly those steps; per counter the total of the reported usage, up to what 32 bits hold; completed exactly when the run completed |
| `TurnHistory.WellFormedRunsAgree` | crates/aterm-agent/src/transcript.rs:435-513 | for every run without malformed calls, whatever the ids, the derived history opens with what the loop sent, up to the order of results inside a tool message, which is the order they were reported in |
| `TurnHistory.HistoryAgrees` | crates/aterm-agent/src/transcript.rs:435-513 | in every run, the derived history opens with what the loop sent, up to the order of results, and no malformed call looks like a well-formed one (same id, same name, no input), if and only if no round that went through had a malformed call |
| `TurnHistory.HistoryAgreesExactly` | crates/aterm-agent/src/transcript.rs:435-513 | in every run, it opens with it block for block, and no malformed call looks like a well-formed one, if and only if no call was malformed and every round reports its results in the order they are sent |
| `TurnHistory.SortedLanesReport` | crates/aterm-agent/src/turn.rs:484-539 | sorted lanes in every round give that order, and when no round repeats an id only they do |
| `TurnHistory.MalformedCallParts` | crates/aterm-agent/src/turn.rs:406-423 | from the first malformed call on, the sent messages and the derived history part, unless a well-formed call of the run looks like a malformed one |
| `PartedHistories.MalformedRunParts` | crates/aterm-agent/src/turn.rs:406-423 | a stream with one call whose input does not parse, and then silence: a turn in which sent messages and derived history part |
| `PartedHistories.ReadIsReportedFirst` | crates/aterm-agent/src/turn.rs:484-539 | a command and then a read in one round, and then silence: a turn whose derived history has the blocks that were sent in another order |
| `PartedHistories.SharedCallHides` | crates/aterm-agent/src/turn.rs:406-423 | a turn in which a malformed call comes again well formed and the two agree by chance: why the equivalences speak of such calls |
| `HistoryEnds.WholeHistory` | crates/aterm-agent/src/transcript.rs:447-513 | in every run without malformed calls the derived history is the prompt, the rounds that went through with their results as reported, and then exactly what the last round left: the assistant message of what was streamed of it, and the results reported before it ended |
| `HistoryEnds.SelfEndedHistory` | crates/aterm-agent/src/transcript.rs:447-513 | for a turn that ended by itself that is the closing assistant message, if anything was said or called below the cap, and nothing else |
| `HistoryEnds.AnsweredExactly` | crates/aterm-agent/src/transcript.rs:435-513 | in every run, malformed calls included, each message of calls in the derived history is followed by one with exactly one result for each, if and only if the last round left no call or all of its results |
| `HistoryEnds.SelfEndedAnswered` | crates/aterm-agent/src/transcript.rs:435-513 | for a turn that ended by itself: if and only if it ended at the cap or its last round proposed no well-formed call |
| `PartedHistories.CutShortStaysOpen` | crates/aterm-agent/src/turn.rs:320-333 | a message cut short by the token limit after a whole call: the turn ends by itself and its derived history ends in a call without a result |
| `WholeTurn.OneCompletion` | crates/aterm-agent/src/turn.rs:284-288 | in every run, exactly one `TurnComplete` reaches the channel and it is the last event, unless the turn was cancelled or failed, and then none does |
| `WholeTurn.EveryEventIsRelayed` | crates/aterm-agent/src/turn.rs:284-288 | a turn that ended by itself put every event of every round it read on the channel, in order, and besides only results and the one completion |
| `WholeTurn.RunAndDerive` | crates/aterm-agent/src/turn.rs:886-922 | a turn driven, recorded and derived in one, as the loop's tests do it, in any given worlds: log, rest and end are those of the worlds; the channel completes once; usage and status are recorded; the derived history agrees with what was sent, ends and is answered exactly as stated above |
| `TurnHistory.EveryResultJoined` | crates/aterm-agent/src/transcript.rs:447-513 | in every run, malformed calls and interruptions included, each `tool_result` of the derived history names a `tool_use` of an earlier message |
| `TurnMeaning.PromptComesFirst` | crates/aterm-agent/src/transcript.rs:447-513 | in every run, however it ends, the derived history begins with the user's own prompt |
| `TurnHistory.ReportedAsSent` | crates/aterm-agent/src/turn.rs:489-539 | a round's results are reported as they are sent if the lanes are sorted, and with distinct ids only then |
| `Approvals.InvReachable` | crates/aterm-agent/src/approval.rs:40-94 | every state reachable by any interleaving of loop, bridge, keyboard, cancel and teardown keeps the invariants: at most one request outstanding, every started call cleared, parallel before serial, rounds not overlapping |
| `Approvals.StartedOnceAndCleared` | crates/aterm-agent/src/turn.rs:489-530 | over every interleaving a call is started at most once, and only if it parsed and was auto-approved or a request raised for that very call was approved |
| `Approvals.UnapprovedNeverStarts` | crates/aterm-agent/src/approval.rs:81-94 | fail closed: a call that needs the user never starts while no request raised for it was approved, be they pending, denied, dropped or never heard |
| `ApprovedRuns.RoundRunsTheApproved` | crates/aterm-agent/src/turn.rs:484-536 | in every reachable state where a round is done: a call of it was started if and only if it parsed and is auto or its own request reads approved, and then it has ended; no approval is dropped |
| `ApprovedRuns.RoundRunsWhatTheUserApproved` | crates/aterm-agent/src/approval.rs:81-94 | in every run, when a round is done: a call of it was started if and only if it parsed and is auto or the user pressed approve while its own request stood in the slot; cancel, teardown and dropped channels approve nothing |
| `ApprovedRuns.PastRoundsRanTheApproved` | crates/aterm-agent/src/turn.rs:484-536 | the same holds of every earlier round in every later state |
| `ApprovedRuns.LeavesOnlyDone` | crates/aterm-agent/src/turn.rs:516-540 | in every run, a round is left, for the next or because the turn ends, only when it is done, unless the user has cancelled |
| `TurnMeaning.StepsStartTheSame` | crates/aterm-agent/src/turn.rs:484-536 | the round as a whole and the step system, in any interleaving, start the same calls when the answer to each call is what the user pressed for it |
| `Approvals.SerialStartsAlone` | crates/aterm-agent/src/turn.rs:516-536 | when a serial call starts, everything started before has ended, all parallel calls are done, and the serial calls before it are done |
| `Approvals.NothingBesideSerial` | crates/aterm-agent/src/turn.rs:516-536 | while a serial call runs nothing else can start |
| `Approvals.NeverTwoRequests` | crates/aterm-app/src/agent_runtime.rs:650-663 | at most one request is in the channel or the slot, so the bridge never finds the slot taken |
| `Approvals.NeverStuck` | crates/aterm-agent/src/approval.rs:81-94 | in every reachable state before the end, the loop has a step that gets it somewhere or waits for a request that is parked or in the channel of a live bridge: no request is lost, and the sender never waits for room |
| `Approvals.AnswerArrives` | crates/aterm-app/src/agent_runtime.rs:446-478 | while the loop waits, at most two steps of bridge and keyboard bring it the answer, whichever it is |
| `Approvals.RoundGetsNearer` | crates/aterm-agent/src/turn.rs:484-540 | every step of the loop inside a round brings the round nearer to its end, by a measure that cannot fall forever |
| `Approvals.OverIsFinal` | crates/aterm-app/src/agent_runtime.rs:574-636 | once the loop has ended no action changes what it started or finished |
| `Approvals.LateAnswersDoNothing` | crates/aterm-app/src/agent_runtime.rs:446-490 | answering a request parked after the loop ended has no effect on what ran |
| `Approvals.TeardownIsCleanIff` | crates/aterm-app/src/agent_runtime.rs:620-636 | the teardown leaves no request parked on an inactive turn, whatever follows, if and only if the approval channel is empty when the parked request is denied |
| `Approvals.LateParkHappens` | crates/aterm-app/src/agent_runtime.rs:620-663 | a reachable state in which a request is parked while the turn is inactive |
| `Redaction.MatchSoftwrapped` | crates/aterm-agent/src/sanitizer.rs:84-99 | the index loop agrees with the recursive match: how many chars a match with soft-wrap whitespace takes |
| `Redaction.RedactSoftwrapped` | crates/aterm-agent/src/sanitizer.rs:60-82 | the copying loop is one left-to-right pass of replacement |
| `Redaction.Redact` | crates/aterm-agent/src/sanitizer.rs:39-58 | the loop over the values: verbatim pass, then soft-wrap pass for values without whitespace, skipping empty values |
| `Redaction.OverlapSharesChar` | crates/aterm-agent/src/sanitizer.rs:39-58 | only a value that shares a char with the marker can line up with it |
| `Redaction.RedactionClears` | crates/aterm-agent/src/sanitizer.rs:39-99 | no value that does not line up with part of the marker survives redaction, verbatim or soft-wrapped, whatever the other values and their order |
| `Redaction.FirstMatchIsReplaced` | crates/aterm-agent/src/sanitizer.rs:60-82 | the first match becomes the marker, what stands before it stays as it is, and the rest is redacted on its own |
| `Redaction.CleanIsFixed` | crates/aterm-agent/src/sanitizer.rs:39-58 | a text without registered values is left as it is |
| `Redaction.RedactionIdempotent` | crates/aterm-agent/src/sanitizer.rs:39-58 | redacting twice is redacting once |
| `Redaction.AbsentWrappedMeaning` | crates/aterm-agent/src/sanitizer.rs:84-103 | no soft-wrapped match is left if and only if the value is not in the text read without its soft-wrap whitespace |
| `Redaction.AbsentVerbatimMeaning` | crates/aterm-agent/src/sanitizer.rs:39-58 | no verbatim match is left if and only if the text does not contain the value |
| `Redaction.PrefixStaysClean` | crates/aterm-agent/src/sanitizer.rs:29-37 | cutting a clean text short leaves it clean |
| `Redaction.TruncateOnCharBoundary` | crates/aterm-agent/src/sanitizer.rs:105-114 | the longest prefix of whole chars within the byte limit |
| `Redaction.Sanitize` | crates/aterm-agent/src/sanitizer.rs:29-37 | the longest prefix of the redacted text within the limit, and no such value in it |
| `RedactedRegistry.ExactlyTheSafeValues` | crates/aterm-agent/src/sanitizer.rs:39-58 | every value long enough to be registered is removed from every text under every registry that holds it if and only if it never lines up with the marker |
| `RedactedRegistry.WholeValueBecomesMarker` | crates/aterm-agent/src/secrets.rs:155-160 | longest first: a whole registered value alone in the text becomes exactly the marker, when no registered value lines up with it |
| `RedactedRegistry.Survives` | crates/aterm-agent/src/sanitizer.rs:39-58 | for every value that does line up with it, a registry and a text after whose redaction the value is there |
| `SecretStore.Secrets.AddValue` | crates/aterm-agent/src/secrets.rs:135-140 | values shorter than six bytes are ignored and each value is held once, over every history of registrations |
| `SecretStore.RegisteredInOrder` | crates/aterm-agent/src/secrets.rs:135-140 | values are held in the order in which they were first registered |
| `SecretStore.Secrets.AddSensitivePath` | crates/aterm-agent/src/secrets.rs:146-152 | appends the trimmed fragment unless blank or present, and changes nothing else |
| `SecretStore.LongestFirstMeaning` | crates/aterm-agent/src/secrets.rs:156-160 | the same values, no byte length before a greater one, those of one length in the order they were registered, no repeats |
| `SandboxText.SecretPathRegex` | crates/aterm-agent/src/sandbox.rs:595-618 | the printing loop produces the printed regex of the pattern |
| `SandboxText.ReadsQuoted` | crates/aterm-agent/src/sandbox.rs:621-623 | a quoted text reads back as exactly the text that was escaped, and ends at its own closing quote |
| `SandboxText.ReadsRaw` | crates/aterm-agent/src/sandbox.rs:595-618 | a printed regex inside its raw literal reads back whole: no pattern ends its literal early |
| `SandboxProfile.Profile` | crates/aterm-agent/src/sandbox.rs:245-300 | the pushes produce the profile text clause by clause |
| `SandboxProfile.ProfileReadsBack` | crates/aterm-agent/src/sandbox.rs:245-300 | for all patterns, paths and hosts, the printed profile reads back as exactly the intended clauses |
| `SandboxMeaning.RegexMeansSubstring` | crates/aterm-agent/src/sandbox.rs:595-618 | for every pattern and path, a search for the printed regex finds something if and only if the case-insensitive substring test holds |
| `SandboxMeaning.ProfileMeaning` | crates/aterm-agent/src/sandbox.rs:245-300 | under last-match-wins the printed profile permits a read exactly when no pattern occurs in the path; a write exactly when, besides, the path is a device sink or in a writable tree; a connection exactly when the network is on, or it is a local socket, or the host is listed |
| `SandboxMeaning.HitIsSensitive` | crates/aterm-agent/src/secrets.rs:173-182 | the printed deny test and the gate's differ only over an empty pattern, which the gate ignores and the regex finds everywhere |
| `SandboxMeaning.SandboxDeniesWhatTheGateFlags` | crates/aterm-agent/src/secrets.rs:173-182 | for every pattern list a store can hold, the sandbox denies reads and writes of exactly the paths the gate flags, inside writable trees too |
| `Command.IsAssignmentPrefix` | crates/aterm-agent/src/command.rs:203-219 | the char loop decides whether a word is `NAME=...` with a shell name |
| `Command.CommandBase` | crates/aterm-agent/src/command.rs:223-249 | the base name after stripping quotes, control chars, one `\`, one `=` and any directory |
| `Command.BaseOfPath` | crates/aterm-agent/src/command.rs:223-249 | quotes and control chars anywhere and any directory in front leave the base at the plain name |
| `Command.BaseOfMarked` | crates/aterm-agent/src/command.rs:223-249 | so does a leading `\`, a leading `=`, or the two in that order |
| `Command.Parse` | crates/aterm-agent/src/command.rs:68-144 | the parsing loops build exactly the parsed command |
| `Command.WordsOfArgv` | crates/aterm-agent/src/command.rs:68-80 | splitting every argv element into words gives the words of the joined string |
| `Command.ParseDependsOnJoin` | crates/aterm-agent/src/command.rs:68-144 | for every argv the parse equals the parse of the one joined string |
| `Text.WordsMeaning` | crates/aterm-agent/src/command.rs:68-80 | the words of a text are its maximal stretches without whitespace, in order |
| `Text.SplitsOneWay` | crates/aterm-agent/src/command.rs:68-80 | there is one such division of a text |
| `Text.TrimMeaning` | crates/aterm-agent/src/provider.rs:495-518 | trimming takes exactly the whitespace off both ends |
| `Risk.Classify` | crates/aterm-agent/src/risk.rs:171-334 | the classifying loops build exactly the assessment |
| `Risk.ClassifiedMeaning` | crates/aterm-agent/src/risk.rs:171-334 | a reason is in the verdict if and only if its rule holds, once, and the level is the one the reasons determine |
| `CommandText.VerdictOnText` | crates/aterm-agent/src/risk.rs:171-334 | for every command, read off its own text by rules that do not name the parse: each reason is in the verdict if and only if there is a word and the text calls for it (among them ShellChaining for a sign or control char, an assignment, `=`, an introducer, `~` or `^` in its place; RedirectOverwrite for a `>`) |
| `CommandText.LevelOnText` | crates/aterm-agent/src/risk.rs:171-334 | the verdict is safe if and only if it has no reason, and dangerous if and only if one of five |
| `CommandText.SensitivePathIsFlagged` | crates/aterm-agent/src/risk.rs:318-332 | a command that names a deny pattern in its words, its directory, or a path an argument names from there carries SecretAccess, letter case aside |
| `CommandText.FoundIsTouched` | crates/aterm-agent/src/command.rs:105-120 | for a pattern without spaces: the text that is searched holds it if and only if the command touches it in one of those places |
| `CommandText.RelativeArgument` | crates/aterm-agent/src/command.rs:258-264 | an argument that is neither absolute nor `~` names the path below the directory, with one slash between |
| `Risk.VerdictDependsOnJoin` | crates/aterm-agent/src/risk.rs:171-334 | the verdict depends only on the joined command string |
| `Risk.DenySetMonotone` | crates/aterm-agent/src/risk.rs:171-334 | a larger deny-set never removes a reason and never lowers the level |
| `Risk.ClassifyBuffer` | crates/aterm-agent/src/risk.rs:347-379 | the line loop builds exactly the buffer verdict |
| `Risk.BufferMeaning` | crates/aterm-agent/src/risk.rs:347-379 | a buffer carries exactly the reasons its command lines carry, and the level those determine |
| `Risk.OneLineBuffer` | crates/aterm-agent/src/risk.rs:347-379 | a one-line buffer classifies exactly as that line |
| `Risk.BuffersCombine` | crates/aterm-agent/src/risk.rs:347-379 | two buffers one after the other carry the union of the reasons and the worse of the levels |
| `Policy.AutoRunsByReason` | crates/aterm-agent/src/policy.rs:65-80 | above the ask-always tier a verdict auto-runs if and only if none of its reasons stops that tier |
| `CommandText.RunsUnaskedOnText` | crates/aterm-agent/src/policy.rs:65-202 | a command runs unasked if and only if the tier is above ask-always and its text is blank or calls for nothing that stops the tier |
| `Policy.BufferAutoRunsLineByLine` | crates/aterm-agent/src/policy.rs:168-188 | the buffer auto-runs if and only if each command line alone would, and this equivalence itself holds exactly when there is a command line or the tier is not ask-always |
| `Policy.NarrowingIsSafe` | crates/aterm-agent/src/policy.rs:168-202 | a larger deny-set or a stricter tier never lets more commands auto-run |
| `Wildcard.OneSegmentMatch` | crates/aterm-agent/src/sink.rs:630-655 | the two-pointer loop with star backtracking ends on every input and equals its recursive specification |
| `Wildcard.Sound` | crates/aterm-agent/src/sink.rs:630-655 | it returns true only where the wildcard relation holds, for every pattern and string |
| `Wildcard.Exact` | crates/aterm-agent/src/sink.rs:630-655 | for a subject without `*` it returns true exactly where the relation holds |
| `Wildcard.CorrectOnSubject` | crates/aterm-agent/src/sink.rs:636-639 | the subjects on which it is right for every pattern are exactly those without a literal `*` |
| `Wildcard.GlobCorrect` | crates/aterm-agent/src/sink.rs:613-628 | lifted to `/`-separated paths and `**`: sound for every path, exact for paths without `*` |
| `Wildcard.GlobCorrectOnPath` | crates/aterm-agent/src/sink.rs:613-655 | the paths on which the glob is right for every pattern are exactly those without a literal `*` |
| `Wildcard.MissedPath` | crates/aterm-agent/src/sink.rs:613-655 | for every other path, a pattern that describes it and does not match it |
| `FileTools.FileSink.ReadFile` | crates/aterm-agent/src/sink.rs:217-233 | refusals in order, the decoded content or the asked range of its lines, and the recorded baseline of the whole content; nothing else changes |
| `FileTools.ReadShowsTheFile` | crates/aterm-agent/src/sink.rs:217-233 | a read is refused or shows the text of the file, whole or the lines asked for; it changes no file, and refused it changes nothing |
| `FileTools.RangesAdjoin` | crates/aterm-agent/src/sink.rs:588-606 | reads of two adjoining line ranges give what one read of both gives |
| `FileTools.LineIsShown` | crates/aterm-agent/src/sink.rs:588-606 | a read of line n shows exactly what stands between the newline that ends line n - 1 and its own newline, or its own carriage return and newline |
| `FileTools.LastLineIsShown` | crates/aterm-agent/src/sink.rs:588-606 | a last line that no newline ends is shown as it is |
| `FileTools.RangeIsClamped` | crates/aterm-agent/src/sink.rs:588-606 | a range is cut to the lines there are, and one that holds none shows nothing |
| `FileTools.AllLinesAreTheText` | crates/aterm-agent/src/sink.rs:588-606 | without carriage returns, a read of every line gives the text back but for one newline at its end |
| `FileTools.FileSink.WriteFile` | crates/aterm-agent/src/sink.rs:411-424 | refusals in order, the file replaced, the baseline recorded; nothing else changes |
| `FileTools.WrittenIsRead` | crates/aterm-agent/src/sink.rs:411-424 | for every state: a write is refused or reports a change; after a change a whole read shows exactly the text of the write and every other file is as before, and a refused write changes nothing |
| `FileTools.WrittenStays` | crates/aterm-agent/src/sink.rs:411-424 | over runs: with no later write, edit or outside change of the file, the read still shows that text |
| `FileTools.FileSink.EditFile` | crates/aterm-agent/src/sink.rs:434-489 | every refusal in the order they are tried, or the edit, with the whole new state of disk and baselines |
| `FileTools.BaselinesFollow` | crates/aterm-agent/src/sink.rs:527-531 | over every run the baselines are the hashes of what the agent last read or wrote |
| `FileTools.EditLosesNothing` | crates/aterm-agent/src/sink.rs:434-489 | over every run of reads, writes, edits and outside changes (injective hash): an edit goes through if and only if it is allowed, the file is what the agent last saw of it, and the old string has a single clear match; then that match alone is replaced, other files are untouched, and a refused edit changes nothing |
| `FileTools.RefusedForTheReason` | crates/aterm-agent/src/sink.rs:434-489 | over every run an edit is refused only for a reason that is true: on the deny-set, an empty old string, outside the workspace, unreadable, changed since it was last seen, not UTF-8, no occurrence, two occurrences apart, or a failed write; a sensitive path is refused for that first |
| `FileTools.OutsideChangeStops` | crates/aterm-agent/src/sink.rs:434-466 | once a file differs from what the agent last saw of it, every edit of it is refused, over any later run in which the agent neither reads nor writes it and no one puts the seen content back |
| `FileTools.CountOne` | crates/aterm-agent/src/sink.rs:471-484 | the non-overlapping count is one exactly when there is an occurrence with none before it and none clear of it, and that one is replaced |
| `FileTools.CountMeansOnce` | crates/aterm-agent/src/sink.rs:468-482 | the count being one means a unique occurrence in every text exactly for patterns without a border |
| `FileTools.CountedOnceOccursTwice` | crates/aterm-agent/src/sink.rs:468-482 | `aa` is counted once in `aaa` and occurs there twice |
| `EditBuffers.EditBuffer.Reduce` | crates/aterm-core/src/editing.rs:137-173 | one edit event in place: the whole new state and the result are those of the reducer function |
| `EditBuffers.EditBuffer.Vertical` | crates/aterm-core/src/editing.rs:372-389 | the target of a vertical motion and the goal column it leaves |
| `EditBuffers.EditBuffer.MoveCaret` | crates/aterm-core/src/editing.rs:297-335 | a motion changes the selection and the goal column as specified, and the version with them |
| `EditTimeline.ReachableSound` | crates/aterm-core/src/editing.rs:175-277 | in every state reachable from a text, all live and stored offsets lie in their texts and the two stacks together hold at most 1024 entries |
| `EditTimeline.ReducedSound` | crates/aterm-core/src/editing.rs:137-173 | every event keeps that, though only a new edit trims |
| `EditTimeline.TimelineDetermines` | crates/aterm-core/src/editing.rs:247-277 | timeline and position determine text, selection and both stacks |
| `EditTimeline.UndoMovesBack` | crates/aterm-core/src/editing.rs:255-265 | undo keeps the timeline and moves one place back on it |
| `EditTimeline.RedoMovesForward` | crates/aterm-core/src/editing.rs:267-277 | redo keeps the timeline and moves one place forward on it |
| `EditTimeline.UndosThenRedos` | crates/aterm-core/src/editing.rs:255-277 | k undos and then k redos give back text, selection and both stacks |
| `EditTimeline.RedosThenUndos` | crates/aterm-core/src/editing.rs:255-277 | k redos and then k undos do too |
| `EditTimeline.EditExtendsTimeline` | crates/aterm-core/src/editing.rs:175-253 | an edit cuts the future off and appends the new present; at the cap the oldest entry falls off |
| `EditTimeline.EditThenUndo` | crates/aterm-core/src/editing.rs:175-265 | an edit followed by undo gives back the exact text and selection, at the cap too |
| `EditTimeline.UnreportedKeepsText` | crates/aterm-core/src/editing.rs:137-173 | an event that reports no change left text and stacks as they were |
| `EditTimeline.ReportIsTrue` | crates/aterm-core/src/editing.rs:137-155 | an event's report says whether the text changed if and only if the event does not put the same text back: typed or committed over an equal selection, or undone or redone to an equal text |
| `EditTimeline.ChangeReportedForNone` | crates/aterm-core/src/editing.rs:175-187 | a reachable buffer in which typing `a` over a selected `a` reports a change and leaves the text as it was |
| `EditTimeline.DownThenUp` | crates/aterm-core/src/editing.rs:372-389 | with k lines below, k Downs and then k Ups through lines of any length return the caret to where it was if and only if the goal column is unset or agrees with the caret's column as far as its line allows |
| `Typing.TypedStandsBeforeCaret` | crates/aterm-core/src/editing.rs:175-187 | in every sound buffer: what is typed replaces the selection and stands right before the caret |
| `Typing.TypingJoins` | crates/aterm-core/src/editing.rs:175-187 | typing one thing and then another leaves the text and selection that typing both at once leaves |
| `Typing.TypeThenErase` | crates/aterm-core/src/editing.rs:175-208 | what was typed at a caret is erased by as many backspaces, text and caret as before |
| `Typing.BackspaceTakesBefore` | crates/aterm-core/src/editing.rs:189-208 | a backspace takes the char before the caret |
| `Typing.DeleteTakesBehind` | crates/aterm-core/src/editing.rs:210-228 | a delete takes the char behind the caret and leaves the caret where it is |
| `Typing.SelectionIsTaken` | crates/aterm-core/src/editing.rs:189-238 | either takes a selection whole and leaves the caret where it began |
| `Typing.DeleteIsRightAndBackspace` | crates/aterm-core/src/editing.rs:189-228 | a delete is a step to the right and a backspace |
| `Typing.CommitIsTyping` | crates/aterm-core/src/editing.rs:137-173 | committing composed text is typing it, and nothing is left being composed |
| `Typing.ComposingChangesNothing` | crates/aterm-core/src/editing.rs:137-173 | composing and taking it back change nothing of text, selection or past |
| `Typing.MotionMovesOnly` | crates/aterm-core/src/editing.rs:297-335 | a motion changes no text and no past; extending keeps the anchor, not extending leaves nothing selected |
| `Typing.HomeAndEnd` | crates/aterm-core/src/editing.rs:297-335 | Home is the place after the newline before the caret or the start, End the place of the next newline or the end |
| `Typing.LeftAndRight` | crates/aterm-core/src/editing.rs:297-335 | one char to either side, or to the end of a selection that is not being extended |
| `Typing.RightThenLeft` | crates/aterm-core/src/editing.rs:297-335 | a step right and a step left give back text and caret |
| `Typing.WordToTheLeft` | crates/aterm-core/src/editing.rs:337-347 | a step left by a word goes over blanks and then over a whole run without blanks |
| `Typing.WordToTheRight` | crates/aterm-core/src/editing.rs:349-359 | a step right by a word goes over the rest of a run without blanks and then over all blanks |
| `Typing.DownALine` | crates/aterm-core/src/editing.rs:372-389 | with a line below, Down goes to it at the column aimed at, or as far as it goes, and keeps aiming there |
| `Typing.UpALine` | crates/aterm-core/src/editing.rs:372-389 | with a line above, Up does so |
| `Typing.GoalIsForgotten` | crates/aterm-core/src/editing.rs:175-335 | every other motion and every change of the text forgets the column aimed at |
| `Typing.EdgesOfText` | crates/aterm-core/src/editing.rs:297-389 | the ends of the buffer, and Up and Down from its first and last line |
| `Typing.VersionTells` | crates/aterm-core/src/editing.rs:137-173 | the version moves by at most one, and when it stays nothing that shows has changed |
| `Editing.LineColAt` | crates/aterm-core/src/editing.rs:402-414 | the counting loop gives the line and column of a position |
| `Editing.AllLines` | crates/aterm-core/src/editing.rs:416-431 | the scanning loop gives the start and length of every line |
| `Editing.LinesMeaning` | crates/aterm-core/src/editing.rs:416-431 | the lines tile the text with one newline between neighbours |
| `Editing.LineColAgrees` | crates/aterm-core/src/editing.rs:402-431 | line start plus column is the position, and the column is at most the line's length |
| `Editing.LineColOfPlace` | crates/aterm-core/src/editing.rs:402-431 | and back: the place at a column of a line is at that line and column |
| `Editing.FindWordLeft` | crates/aterm-core/src/editing.rs:337-347 | the two backward loops find the start of the word |
| `Editing.FindWordRight` | crates/aterm-core/src/editing.rs:349-359 | the two forward loops find the place after the word |
| `Completion.Match` | crates/aterm-core/src/completion.rs:38-71 | the greedy loop fills the hit flags and the score of the greedy choice |
| `Completion.MatchMeaning` | crates/aterm-core/src/completion.rs:25-71 | a match exactly when the query is a subsequence of the candidate, ASCII case aside; the flags are those of a choice that spells the query; the score is `last + 1 - len(query)`; no other choice scores lower |
| `Completion.MatchingOne` | crates/aterm-core/src/completion.rs:86-104 | a candidate is listed if and only if the query is a subsequence of its text, with its own text, description, flags and score |
| `Completion.MatchingJoin` | crates/aterm-core/src/completion.rs:86-104 | candidates are taken one by one, in order |
| `Completion.RankMeaning` | crates/aterm-core/src/completion.rs:86-104 | the rows shown are as many as fit, and they are the front of the stable best-first order of every candidate that matches |
| `Completion.Popover.Refresh` | crates/aterm-core/src/completion.rs:157-167 | swaps the items while open, clamps the row, closes when nothing matches; no effect when closed |
| `Completion.Popover.MoveDown` | crates/aterm-core/src/completion.rs:182-186 | one row down, clamped, keeping the active row among the items |
| `Highlighting.HighlightCommandLine` | crates/aterm-core/src/highlight.rs:44-111 | the scanning loop gives the spans of the recursive scan |
| `Highlighting.HighlightMeaning` | crates/aterm-core/src/highlight.rs:44-111 | its spans divide the text (in order, in bounds, not empty, no overlap, only blanks left out, each what its kind says and as long as it can be, commands after separators), and no other list of spans does |
| `Highlighting.ExactlyOneSpan` | crates/aterm-core/src/highlight.rs:44-111 | every char that is not blank is in exactly one span |
| `Highlighting.ErrorIsLast` | crates/aterm-core/src/highlight.rs:152-162 | an error span is the last one and ends at the end of the text |
| `Highlighting.OldSpansStay` | crates/aterm-core/src/highlight.rs:44-111 | a blank and more text typed after a line keep the old spans as a prefix if and only if there was no error span |
| `Highlighting.HighlightFor` | crates/aterm-core/src/highlight.rs:27-34 | shell lines are divided into spans, prose gets none |
| `History.HistoryRing.Push` | crates/aterm-core/src/history.rs:122-131 | over every history of submissions the ring is the last `cap` that are not blank |
| `History.LensOfRing` | crates/aterm-core/src/history.rs:150-155 | a lens on the bounded ring shows the front of what an unbounded history would show |
| `History.LensHolds` | crates/aterm-core/src/history.rs:150-155 | a lens holds exactly the entries its scope lets through, each as often as the ring does |
| `History.PushShifts` | crates/aterm-core/src/history.rs:184-189 | a submission in view moves every entry one place back and can only drop the last: why a recall in progress must be reset |
| `History.GhostFor` | crates/aterm-core/src/highlight.rs:120-133 | a suggestion is made exactly when a shell entry in view strictly extends what was typed, and it is the newest such entry |
| `History.Recall.Older` | crates/aterm-core/src/history.rs:228-233 | the new cursor and the text shown |
| `History.Recall.Newer` | crates/aterm-core/src/history.rs:239-253 | the new cursor and the text shown |
| `History.OneKey` | crates/aterm-core/src/history.rs:228-253 | a key moves one entry, clamps at both ends, and shows the entry arrived at |
| `History.NthNewest` | crates/aterm-core/src/history.rs:228-233 | from the draft the j-th step back shows the j-th newest entry in view, while there is one |
| `History.UpsThenDowns` | crates/aterm-core/src/history.rs:228-253 | n newer steps undo n older ones exactly when none was swallowed at the oldest entry or the walk began at the draft |
| `History.DownsThenUps` | crates/aterm-core/src/history.rs:228-253 | n older steps undo n newer ones exactly when none was swallowed at the draft or the walk began at the oldest entry |
| `History.CursorStaysValid` | crates/aterm-core/src/history.rs:228-253 | while the ring is unchanged the cursor stays on an entry or on the draft, over any keys |
| `Projector.StreamProjector.Apply` | crates/aterm-app/src/agent_runtime.rs:134-222 | one event in place: the whole new timeline, open kind and tool flag |
| `Projector.StreamProjector.AppendLast` | crates/aterm-core/src/block.rs:608-617 | the delta goes to the last agent entry, past any command pushed since; all other entries unchanged |
| `Projector.BadgeIsVerdict` | crates/aterm-app/src/agent_runtime.rs:255-268 | a call is badged automatic if and only if the loop runs it whatever the user would answer, and has no badge if and only if the loop rejects it |
| `ShownSteps.BadgeOnText` | crates/aterm-app/src/agent_runtime.rs:255-268 | a command is badged blocked if and only if its text calls for one of the five dangerous reasons, and otherwise automatic if and only if the tier lets its text run |
| `ShownSteps.BadgeOfKind` | crates/aterm-app/src/agent_runtime.rs:255-268 | reads are badged automatic, edits, writes and MCP tools as needing approval, at every tier; what does not parse has no badge |
| `Projector.ProjectionMeaning` | crates/aterm-app/src/agent_runtime.rs:134-246 | whatever commands the user types meanwhile: one block for each run of prose and each step, all commands in order, and an open kind is that of the last block |
| `Projector.CutsDoNotShow` | crates/aterm-app/src/agent_runtime.rs:230-246 | cutting the same prose into other non-empty deltas, moving usage and completion events, and typing other commands leave the same blocks |
| `Projector.NoTextLost` | crates/aterm-app/src/agent_runtime.rs:230-246 | the blocks of one kind of prose hold the streamed text of that kind, whole and in order |
| `ShownSteps.EveryStepIsShown` | crates/aterm-app/src/agent_runtime.rs:134-222 | whatever the user types meanwhile: every call, result, failed proposal, remote call and error has one block of its own, in order, with its id, its text, its error mark and its badge, and there is no other such block |
| `Projector.PlanUntilTool` | crates/aterm-app/src/agent_runtime.rs:230-246 | prose is the plan exactly when no call was proposed before it |
| `ShownSteps.ThinkingIsPlain` | crates/aterm-app/src/agent_runtime.rs:230-246 | in every run a block of thinking is plain body text: never plan or summary, never an error |
| `Latency.FromSamples` | crates/aterm-bench/src/latency.rs:149-208 | the summary of the finite samples over the calibrated interval |
| `Latency.PercentileMeaning` | crates/aterm-bench/src/latency.rs:425-434 | the percentile is the least sample such that at least p in a hundred samples are at or below it |
| `Latency.FasterPercentile` | crates/aterm-bench/src/latency.rs:425-434 | pointwise no slower samples have no higher percentiles |
| `Latency.SummaryInOrder` | crates/aterm-bench/src/latency.rs:149-208 | minimum, quartiles, p99 and maximum are in order, and at most a quarter of the samples are outliers |
| `Latency.SummaryMeaning` | crates/aterm-bench/src/latency.rs:149-208 | every figure in terms of the samples: range, the four percentiles, the two times in intervals, and as outliers exactly the samples above the upper quartile by more than one and a half times the quartile distance |
| `Latency.FiniteOfJoin` | crates/aterm-bench/src/latency.rs:159-166 | samples are filtered one by one, in order |
| `Latency.IntervalMeaning` | crates/aterm-bench/src/latency.rs:154-158 | the observed interval counts when it is a positive number, else the deadline, neither below the least positive number |
| `Latency.Evaluate` | crates/aterm-bench/src/latency.rs:241-266 | too few samples are inconclusive; otherwise the breaches in order, or a pass |
| `Latency.PassMeans` | crates/aterm-bench/src/latency.rs:241-266 | a pass means enough samples, half of them within the median limit and ninety-nine in a hundred within the tail limit |
| `Latency.VerdictMeaning` | crates/aterm-bench/src/latency.rs:241-266 | inconclusive if and only if there are too few samples, with both counts; a failure names exactly the shares that are not within their limits, each with what was seen and what was allowed |
| `Latency.FasterDoesNoWorse` | crates/aterm-bench/src/latency.rs:241-266 | a run pointwise no slower never does worse at the gate |

## Left out

- Transcript.RecordTurn: nothing outside the tests of the crate records a run yet; the fold is the one those tests use, so a status other than running or completed is never recorded by it.
- TurnLoop.Run: a cancellation inside a round is modelled by the prefix of events that were sent; which tool side effects had already happened is in the step system of Approvals, not here.
- FileTools.EditLosesNothing: each tool call is one step, so a change made between the read and the rename inside one edit is not modelled; the hash is assumed injective.
- FileTools.FileSink.ReadFile: how bytes that are not UTF-8 are shown is any function; the wording of confirmations and refusals is not modelled.
- SandboxMeaning.ProfileMeaning: the meaning of clauses is the documented one (last match decides, a raw literal keeps its backslashes and is not ended by an escaped quote, a subpath is a directory and what lies below it); the kernel's own evaluation is not part of this model.
- SandboxProfile.Profile: the writable paths are given as already canonical absolute texts; canonicalization reads the file system.
- Projector.CutsDoNotShow: times and block versions are not modelled, and empty deltas are excluded because an empty first delta does open a block.
- Latency.PercentileMeaning: over reals, so rounding of 32-bit floats is not modelled.
- Command.Parse: home-directory and working-directory resolution is textual, as in the code; the file system is not consulted.
- Provider clients, server-sent events, MCP discovery and connection, and JSON schemas.
- Process spawning, resource limits, process-group kill, pipe draining and the real sandbox run.
- Canonicalization, symlinks, temporary files and directory walks of the file tools (`list_dir`, `glob` walk, `grep`).
- The async runtime: channels, tasks and `select!` are steps of a transition system, and futures become ready after an arbitrary number of polls.
- The live-shell injection sink: it adds one more use of the same gate.
- Rendering: block text layout, approval cards, glosses, timestamps and heights.
- Session switching, configuration, the settings of `AutonomyState`, the decision tables of routing and key intent: finite tables or wiring.
- The scripted scenarios and fixtures of the bench.
