# Scam simulator: the per-turn pipeline, modelled in Dafny

The simulator lets a human play a phone scammer against Mme Jeanne Dubois, a
78-year-old victim played by a language model. Every scammer line goes through the
same pipeline:

- the turn is counted and the line recorded;
- the **director** scans the whole history against a staged scam script and derives the
  current stage, the completed stages, a risk tier and the objective for the victim;
- every `vote_frequency`-th turn, the **audience event manager** runs a round: collect
  suggestions, have the **moderator** turn them into three candidate events, vote, and
  turn the winner into a constraint text;
- the **victim agent** builds its prompt from the objective, the constraint and its
  own memory, asks its model, remembers the exchange and answers;
- the answer is recorded.

A command loop around the pipeline also understands `quit`, `status` and `reset`.

The model keeps the program's shape, one module per source file:

- `Director` (`director.dfy`) holds the pure analysis. The nested stage scan is a
  method with loops, proved equal to a specification function. The matcher is a
  parameter, so the stage lemmas hold for any matcher.
- `DirectorFindings` (`director_findings.dfy`) compares the stage matcher as written
  with the whole-word matcher it was evidently meant to be (see Findings).
- `Moderator` (`moderator.dfy`) holds the reply parser, as a loop proved against a
  per-line function, and the selection rules.
- `Audience` (`audience_interface.dfy`) holds the `AudienceInterface` class. Its
  histories are `seq` fields that the methods extend. Its input loops are methods over
  the typed lines.
- `AudienceEvents` (`audience_events.dfy`) holds the `AudienceEventManager` class and
  a round as a function of its inputs.
- `VictimPrompt` (`victim_prompt.dfy`) holds the character sheet and its two slots.
- `Victim` (`victim_agent.dfy`) holds the `VictimAgent` class.
- `Simulator` (`simulator.dfy`) holds the `ScamSimulator` class. Each method is proved
  against a function of the state before it (`Turn`, `Session`). The director's stage
  matcher is a constructor argument kept in a constant field: the program as written is
  the simulator built with `Director.LiteralMatch`, and the corrected program is the one
  built with `Director.WordMatch` (see Findings). Every property of a turn is proved for
  any matcher.
- `Strings`, `Seqs` and `Outcomes` hold the Python string operations, generic sequence
  facts, and `Option`/`Result` with the exceptions the code can raise.

What lies outside the program becomes a parameter:

- The moderator's model reply is an `Option<string>`. `None` stands for a call that
  raised. The moderator does not catch it, so the round and the turn fail, and the
  command loop reports the failure and goes on.
- The victim's model is a function from the exact prompt to an optional reply.
- The keyboard is a sequence of lines. Every reading method says how many lines it
  consumed, and the end of the sequence is end of input.
- `random.randint(10, 100)` becomes a sequence of draws in that range.

A Python exception that leaves an operation becomes a `Raised` result.

Where the program's comments and documentation disagree with its code, the model
follows the code:

- The current stage is the **last completed** stage, and the first stage while none is
  completed (`director.py:30-32`). It is not the first stage still to do.
- The victim's objective is the current stage's first objective (`director.py:73`).
  It is not the "first one not reached" that the comment on line 72 announces.
- The simulator wires the audience interface in console mode (`main.py:64`), but
  `run_turn` always asks for the simulated collection and vote (`main.py:150-151`). The
  model does the same: the first round switches the interface to simulated mode.

## Model

| member | source | states |
|---|---|---|
| Director.Ids | simulateur_arnaque/agents/director.py:31 | the ids of the stages, one per stage, in script order |
| Director.ReachedCount | simulateur_arnaque/agents/director.py:21-34 | the length of the longest prefix of stages each reached by some signal in some message; the next stage is not reached |
| Director.CompletedStages | simulateur_arnaque/agents/director.py:19-35 | the completed list is the ids of the longest reached prefix, in script order; every listed stage was reached and the one after it was not |
| Director.CurrentStageId | simulateur_arnaque/agents/director.py:20-32 | the current stage is always an id of the script |
| Director.FindStage | simulateur_arnaque/agents/director.py:17-35 | the nested scan with its breaks returns exactly the completed prefix and the current stage |
| Director.CompletedIsReachedPrefix | simulateur_arnaque/agents/director.py:33-34 | the scan stops at the first unreached stage: nothing from it on is completed |
| Director.EmptySignalsHalt | simulateur_arnaque/agents/director.py:22-34 | a stage without success signals halts progress at that stage |
| Director.EmptyHistoryStart | simulateur_arnaque/agents/director.py:19-20 | an empty history completes nothing and sits on the first stage |
| Director.SignalSeenGrows | simulateur_arnaque/agents/director.py:24-27 | a signal seen in a history is still seen once messages are appended |
| Director.StageReachedGrows | simulateur_arnaque/agents/director.py:23-29 | a reached stage stays reached once messages are appended |
| Director.CompletedGrows | simulateur_arnaque/agents/director.py:19-35 | for any matcher, appending messages can only lengthen the completed list, which keeps its earlier entries as a prefix |
| Director.LiteralMatch | simulateur_arnaque/agents/director.py:25 | as written, a match is in particular an occurrence of the signal in the message, ignoring case |
| Director.WordMatch | simulateur_arnaque/agents/director.py:25 | a whole-word match is in particular an occurrence of the signal in the message, ignoring case |
| Director.LoweredContents | simulateur_arnaque/agents/director.py:42 | each message content lower-cased, one per message |
| Director.HistoryText | simulateur_arnaque/agents/director.py:42 | the text of an empty history is empty, and every message's lower-cased content occurs in it |
| Director.RiskLevel | simulateur_arnaque/agents/director.py:37-49 | the tier is 0 to 3: 3 exactly when a sensitive term occurs in the joined lower-cased text, 2 exactly when no sensitive but a remote term occurs, 0 exactly when no term of any tier occurs |
| Director.AnyOccursGrows | simulateur_arnaque/agents/director.py:43-47 | a term occurring in a text still occurs in any extension of it |
| Director.HistoryTextPrefix | simulateur_arnaque/agents/director.py:42 | the joined text of a history is a prefix of the joined text of any extension |
| Director.RiskMonotone | simulateur_arnaque/agents/director.py:37-49 | the risk never decreases as messages are appended |
| Director.NothingOccursInEmpty | simulateur_arnaque/agents/director.py:39-41 | no non-empty term occurs in the empty text |
| Director.EmptyHistoryRisk | simulateur_arnaque/agents/director.py:42-49 | the empty history scores 0 |
| Director.UrgentAndIbanScoresThree | simulateur_arnaque/agents/director.py:43-48 | the tiers are tested in priority order: a history with both "urgence" and "iban" scores 3 |
| Director.StageIndex | simulateur_arnaque/agents/director.py:54 | `next(...)` stops at the first stage carrying the id |
| Director.StageById | simulateur_arnaque/agents/director.py:71 | the stage found is a stage of the script with that id |
| Director.BuildContext | simulateur_arnaque/agents/director.py:51-66 | the context is the scenario title line, then the stage summary right after it, then the objective line right after that, then the fixed advice block at the end, and its length is the sum of those four parts, so it holds nothing else |
| Director.ContextDeterminesObjective | simulateur_arnaque/agents/director.py:61-66 | the objective is carried verbatim: two contexts of one stage agree only for the same objective |
| Director.NextObjective | simulateur_arnaque/agents/director.py:73 | the stage's first victim objective, or "Rester prudent" when it has none |
| Director.Analysis | simulateur_arnaque/agents/director.py:68-83 | the update names a stage of the script and a risk from 0 to 3 |
| Director.AnalysisConsistent | simulateur_arnaque/agents/director.py:68-83 | the update copies the script id; its completed list is a prefix of the script's ids; its stage is the last completed one, or the first while none is; its objective is that stage's first, or "Rester prudent"; its context is the title line, that stage's summary, the objective line and the advice, each at its place, with nothing else; its risk is the history's tier |
| Director.AnalyzeConversation | simulateur_arnaque/agents/director.py:68-83 | the method returns the update the specification function gives for that history and script |
| DirectorFindings.LowerKeepsBackslash | simulateur_arnaque/agents/director.py:25 | lower-casing maps a character to a backslash exactly when it is one |
| DirectorFindings.LiteralMatchNeedsBackslash | simulateur_arnaque/agents/director.py:25 | as written, a signal matches only a message containing a backslash |
| DirectorFindings.NoBackslashNoProgress | simulateur_arnaque/agents/director.py:17-35 | as written, a history without backslashes completes no stage and stays on the first |
| DirectorFindings.AsWrittenScenario | simulateur_arnaque/agents/director.py:25 | as written, "a virus" then "use anydesk" completes no stage |
| DirectorFindings.LowerOfLowercase | simulateur_arnaque/agents/director.py:25 | lower-case letters and blanks are unchanged by lower-casing |
| DirectorFindings.WordMatchAt | simulateur_arnaque/agents/director.py:25 | a signal standing as a whole word of the text matches under the whole-word matcher |
| DirectorFindings.VirusStageReached | simulateur_arnaque/agents/director.py:23-27 | the whole-word matcher reaches the "virus" stage on the scenario |
| DirectorFindings.RemoteStageReached | simulateur_arnaque/agents/director.py:23-27 | the whole-word matcher reaches the "anydesk" stage on the scenario |
| DirectorFindings.IntendedScenario | simulateur_arnaque/agents/director.py:17-35 | with the whole-word matcher the scenario completes both stages and sits on the second |
| DirectorFindings.AbsentChar | simulateur_arnaque/agents/director.py:43 | a pattern with a character missing from the text does not occur in it |
| DirectorFindings.ScenarioHistoryText | simulateur_arnaque/agents/director.py:42 | the joined lower-cased text of the scenario |
| DirectorFindings.ScenarioTextLacks | simulateur_arnaque/agents/director.py:39 | the scenario text lacks the letters that rule out every sensitive term |
| DirectorFindings.NoSensitiveInScenario | simulateur_arnaque/agents/director.py:43 | no sensitive term occurs in the scenario |
| DirectorFindings.ScenarioRisk | simulateur_arnaque/agents/director.py:43-46 | the scenario scores 2, from "anydesk" |
| Moderator.DefaultEvents | simulateur_arnaque/agents/moderator.py:178-195 | three distinct fixed events, the dog Poupoune first |
| Moderator.Bulleted | simulateur_arnaque/agents/moderator.py:142 | each suggestion prefixed with "- ", in order |
| Moderator.FormatSuggestions | simulateur_arnaque/agents/moderator.py:140-142 | no suggestion gives an empty block, and every suggestion occurs in it after its "- " bullet |
| Moderator.FormatSuggestionsLines | simulateur_arnaque/agents/moderator.py:140-142 | splitting the formatted block at line breaks gives back each suggestion with its "- " prefix, in order |
| Moderator.Kept | simulateur_arnaque/agents/moderator.py:155-157 | a line is kept exactly when its first non-blank character is a digit |
| Moderator.Body | simulateur_arnaque/agents/moderator.py:160 | the body is no longer than the line, strictly shorter than the stripped line when a dot is cut off, and has no blank at either end |
| Moderator.ParseLine | simulateur_arnaque/agents/moderator.py:155-174 | a line yields an event exactly when it is non-blank once stripped and starts with a digit; which event it yields is stated by NoDashLine, PlainLineRoundTrip and EventLineRoundTrip |
| Moderator.LineEvents | simulateur_arnaque/agents/moderator.py:171-174 | a line contributes at most one event, and exactly the event it parses to |
| Moderator.LineEventsOfNone | simulateur_arnaque/agents/moderator.py:156-157 | a skipped line contributes nothing |
| Moderator.LineEventsOfSome | simulateur_arnaque/agents/moderator.py:171-174 | a kept line contributes exactly its event |
| Moderator.ParsedEvents | simulateur_arnaque/agents/moderator.py:151-176 | every parsed event is the event of one of the lines |
| Moderator.ParsedEventsAppend | simulateur_arnaque/agents/moderator.py:154-176 | each line is parsed on its own and the events keep the order of the lines |
| Moderator.ParsedEventsBound | simulateur_arnaque/agents/moderator.py:151-176 | a reply never yields more events than it has lines |
| Moderator.ParseResponse | simulateur_arnaque/agents/moderator.py:144-176 | the loop returns one event per kept line of the stripped reply, in order |
| Moderator.ParseOne | simulateur_arnaque/agents/moderator.py:155-174 | one pass of the loop gives the event of its line, or none |
| Moderator.StripUnchanged | simulateur_arnaque/agents/moderator.py:155 | `strip()` leaves a string without outer blanks unchanged |
| Moderator.StripLeadingSpace | simulateur_arnaque/agents/moderator.py:160 | `strip()` drops the blank after the number's dot |
| Moderator.StripTrailingSpace | simulateur_arnaque/agents/moderator.py:165 | `strip()` drops the blank before the dash |
| Moderator.StripBrackets | simulateur_arnaque/agents/moderator.py:165 | `strip('[]')` removes exactly the brackets around a label that neither starts nor ends with one |
| Moderator.NumberedBody | simulateur_arnaque/agents/moderator.py:156-160 | a numbered line is kept and loses its number, its dot and the blank after them |
| Moderator.DashedBody | simulateur_arnaque/agents/moderator.py:163-166 | "[label] - description" splits into the label and the description |
| Moderator.EventLineRoundTrip | simulateur_arnaque/agents/moderator.py:114-117 | a line written in the requested format parses back to the event it was written from |
| Moderator.NoDashLine | simulateur_arnaque/agents/moderator.py:155-174 | a numbered line without a dash gives its text as the event and "Événement perturbateur" as the description |
| Moderator.PlainLineRoundTrip | simulateur_arnaque/agents/moderator.py:155-174 | the unbracketed form "N. label - description" parses back to its event: the text before the first dash, stripped, and the text after it, stripped |
| Moderator.DogLineParses | tests/test_audience_system.py:47-55 | "1. Le chien aboie - Il demande à sortir" gives the event "Le chien aboie" with the description "Il demande à sortir" |
| Moderator.EventLines | simulateur_arnaque/agents/moderator.py:114-117 | one requested-format line per event |
| Moderator.EventLinesParse | simulateur_arnaque/agents/moderator.py:154-176 | the lines of a list of printable events parse back to that list |
| Moderator.JoinEdges | simulateur_arnaque/agents/moderator.py:152 | a join starts and ends like its first and last parts |
| Moderator.ReplyRoundTrip | simulateur_arnaque/agents/moderator.py:144-176 | a reply in the requested format, one event per line, parses back to exactly its events |
| Moderator.FilterAndSelect | simulateur_arnaque/agents/moderator.py:78-138 | no suggestion gives the defaults without the model; otherwise no reply raises, and a reply gives exactly three events: the parsed ones first, in order, then the defaults from the same position |
| Moderator.GenerateFallbackEvents | simulateur_arnaque/agents/moderator.py:197-227 | no reply raises; a reply gives the first one to three parsed events, or the defaults when none parse |
| Audience.EmptyIsStopWord | simulateur_arnaque/audience_interface.py:82 | the empty line ends the collection, so every collected suggestion is non-empty |
| Audience.IsStopWord | simulateur_arnaque/audience_interface.py:82 | the empty line stops the collection, and no line longer than four characters does |
| Audience.ConsoleCount | simulateur_arnaque/audience_interface.py:78-92 | collection keeps at most the budget, stops before the first stop line, and a shorter count is due to a stop line or the end of input |
| Audience.ConsoleSuggestions | simulateur_arnaque/audience_interface.py:76-95 | the suggestions are the stripped typed lines before the stop, in order, none of them a stop word or empty |
| Audience.ConsoleStopsAt | simulateur_arnaque/audience_interface.py:82-83 | a stop line within the budget ends collection there, after reading it |
| Audience.ConsoleRunsOut | simulateur_arnaque/audience_interface.py:78-92 | without a stop line, collection ends at the budget or at the end of input |
| Audience.ConsoleSuggestionsAre | simulateur_arnaque/audience_interface.py:76-95 | the stripped first lines, as many as collection keeps, are what it returns |
| Audience.SimulatedSuggestions | simulateur_arnaque/audience_interface.py:97-112 | the canned list holds eight suggestions |
| Audience.ValidVote | simulateur_arnaque/audience_interface.py:157 | a valid vote is a non-blank line, and with no candidate no vote is valid |
| Audience.VoteIndex | simulateur_arnaque/audience_interface.py:157-158 | a valid vote picks a candidate, counted from 0 |
| Audience.FirstValidVote | simulateur_arnaque/audience_interface.py:153-173 | the vote loop stops at the first valid vote and skips every line before it |
| Audience.ArgMax | simulateur_arnaque/audience_interface.py:187 | `votes.index(max(votes))`: the weight there is the largest, and every earlier weight is smaller |
| Audience.VoteWinner | simulateur_arnaque/audience_interface.py:129-205 | the winner is one of the candidates; the vote raises exactly when there is no candidate or the mode is unknown |
| Audience.VoteLinesRead | simulateur_arnaque/audience_interface.py:153-177 | a vote reads no more lines than typed, and none outside console mode |
| Audience.VoteRecord | simulateur_arnaque/audience_interface.py:164-169 | a vote records at most one event, which is the winner with 1 to 100 votes; the simulated vote records exactly when there is a candidate |
| Audience.GetEventConstraint | simulateur_arnaque/audience_interface.py:207-225 | the fixed heading, then the label verbatim, then the "Conséquence: " line with the description verbatim, and the text ends with the two instruction lines; its length is the sum of those five parts, so it holds nothing else |
| Audience.ConstraintDeterminesEvent | simulateur_arnaque/audience_interface.py:217-223 | the constraint text determines the event, as long as its label is one line |
| Audience.AudienceInterface.constructor | simulateur_arnaque/audience_interface.py:35-44 | a new interface has the given mode and empty histories |
| Audience.AudienceInterface.CollectSuggestions | simulateur_arnaque/audience_interface.py:46-63 | console mode collects from the typed lines, simulated mode returns the canned list with the history unchanged, any other mode raises |
| Audience.AudienceInterface.CollectConsoleSuggestions | simulateur_arnaque/audience_interface.py:65-95 | the loop returns the console suggestions and extends the suggestion history by exactly them |
| Audience.AudienceInterface.ConductVote | simulateur_arnaque/audience_interface.py:129-145 | the winner, lines read and the record appended to the event history are those of the vote in that mode |
| Audience.AudienceInterface.VoteConsole | simulateur_arnaque/audience_interface.py:147-177 | invalid lines change nothing; the first valid vote wins and is recorded with one vote; end of input gives the first candidate and records nothing |
| Audience.AudienceInterface.VoteSimulated | simulateur_arnaque/audience_interface.py:179-205 | the candidate with the first largest weight wins and is recorded with that weight |
| Audience.ReadSuggestion | simulateur_arnaque/audience_interface.py:80-83 | one typed line gives its stripped text and whether it ends the collection |
| Audience.ReadVote | simulateur_arnaque/audience_interface.py:155-158 | one typed line gives whether it is a valid vote and the candidate it picks |
| Audience.SimulatedVoteCount | simulateur_arnaque/audience_interface.py:186-201 | the recorded vote count is the largest weight, from 10 to 100 |
| AudienceEvents.Triggered | simulateur_arnaque/audience_events.py:47 | a zero frequency raises `ZeroDivisionError`; with a positive frequency a positive turn triggers only once the frequency is reached |
| AudienceEvents.TriggerCount | simulateur_arnaque/audience_events.py:39-47 | no more rounds are triggered than turns are counted |
| AudienceEvents.TriggerCountAt | simulateur_arnaque/audience_events.py:46-47 | turn q·f + r, with r < f, closes exactly q periods |
| AudienceEvents.TriggerCountIsQuotient | simulateur_arnaque/audience_events.py:39-47 | from a fresh counter, n turns trigger exactly n / f rounds |
| AudienceEvents.Weights | simulateur_arnaque/audience_interface.py:186 | one draw in 10 to 100 per candidate, taken from the pool |
| AudienceEvents.RoundSuggestions | simulateur_arnaque/audience_events.py:72-77 | mode "none" gives no suggestion; the others give at most ten; an unknown mode raises |
| AudienceEvents.SuggestionLinesRead | simulateur_arnaque/audience_events.py:73-75 | collection reads no more lines than typed |
| AudienceEvents.Candidates | simulateur_arnaque/audience_events.py:79-90 | selection raises exactly when the model gives no reply, and otherwise gives one to three candidates, three when there were suggestions |
| AudienceEvents.Ballot | simulateur_arnaque/audience_events.py:79-96 | selection and vote record at most one event, and none on failure |
| AudienceEvents.Round | simulateur_arnaque/audience_events.py:72-96 | a round records at most one event, none on failure, and reads no more lines than typed |
| AudienceEvents.RoundWinnerIsCandidate | simulateur_arnaque/audience_events.py:79-96 | the winner of a round is one of the moderator's candidates |
| AudienceEvents.RoundFails | simulateur_arnaque/audience_events.py:72-96 | a round fails exactly when the collection mode is unknown, the model gives no reply or the vote mode is unknown |
| AudienceEvents.SimulatedRound | simulateur_arnaque/audience_events.py:72-96 | the simulator's rounds succeed whenever the model replies, and the candidate with the first largest of the first three draws wins |
| AudienceEvents.AudienceEventManager.constructor | simulateur_arnaque/audience_events.py:18-37 | a new manager has counted no turn and has no constraint and no last event |
| AudienceEvents.AudienceEventManager.ShouldTriggerAudience | simulateur_arnaque/audience_events.py:39-47 | the counter goes up by exactly one and the answer is the trigger test on the new count |
| AudienceEvents.AudienceEventManager.ProcessAudienceRound | simulateur_arnaque/audience_events.py:49-102 | the interface mode and histories change as the round dictates; a winner becomes the returned constraint and the last event; a failure changes neither; the turn counter is unchanged |
| AudienceEvents.AudienceEventManager.SelectAndVote | simulateur_arnaque/audience_events.py:79-102 | the candidates are put to the vote and the winner's constraint is kept and returned |
| AudienceEvents.AudienceEventManager.CollectStep | simulateur_arnaque/audience_events.py:72-77 | mode "none" collects nothing and keeps the interface mode; other modes switch the interface to them and collect |
| AudienceEvents.AudienceEventManager.ClearConstraint | simulateur_arnaque/audience_events.py:113-117 | the constraint is dropped and nothing else changes |
| AudienceEvents.AudienceEventManager.Reset | simulateur_arnaque/audience_events.py:133-139 | the counter restarts and the constraint and last event are dropped, while the statistics keep the history totals |
| VictimPrompt.ConstraintText | simulateur_arnaque/agents/victim_prompt.py:56-58 | empty exactly for an empty constraint; otherwise the constraint after the "AUDIENCE CONSTRAINT" label |
| VictimPrompt.ConstraintTextInjective | simulateur_arnaque/agents/victim_prompt.py:56-58 | different constraints fill the slot differently |
| VictimPrompt.GetVictimPrompt | simulateur_arnaque/agents/victim_prompt.py:44-63 | the prompt opens with the character sheet and the objective follows it verbatim |
| VictimPrompt.PromptSlots | simulateur_arnaque/agents/victim_prompt.py:44-63 | the prompt opens with the character sheet, the objective follows it verbatim, and the context label follows the objective, the constraint text sits after that label, and the prompt ends with the fixed "RESPOND IN FRENCH … Be natural and authentic." line; its length is the sum of those five parts, so it holds nothing else |
| VictimPrompt.PromptDeterminesSlots | simulateur_arnaque/agents/victim_prompt.py:9-63 | the prompt determines both the objective and the constraint, as long as the objective is one line |
| Victim.EntryLines | simulateur_arnaque/agents/victim_agent.py:28 | one "role: content" line per memory entry |
| Victim.FormatHistory | simulateur_arnaque/agents/victim_agent.py:24-28 | empty exactly for an empty memory, and otherwise opening with the first entry's line |
| Victim.FormatHistoryLines | simulateur_arnaque/agents/victim_agent.py:24-28 | splitting the formatted memory at line breaks gives back one line per entry |
| Victim.FormatHistoryAppend | simulateur_arnaque/agents/victim_agent.py:28 | remembering more entries extends the formatted memory by their lines |
| Victim.TurnPrompt | simulateur_arnaque/agents/victim_agent.py:49-56 | the turn prompt opens with the victim prompt for the objective and constraint and ends with the scammer line and Jeanne's cue |
| Victim.TurnPromptLayout | simulateur_arnaque/agents/victim_agent.py:50-56 | the prompt opens with the character sheet, shows the memory right after it when there is any, and ends with the scammer line and Jeanne's cue; its length is the sum of those parts, so nothing else is in it |
| Victim.Answer | simulateur_arnaque/agents/victim_agent.py:59-69 | a failed model call gives the apology; a reply gives a piece of itself with no blank at either end, empty only when the reply is all blanks |
| Victim.Exchange | simulateur_arnaque/agents/victim_agent.py:62-63 | two memory entries on a reply, none on a failure |
| Victim.NewObjective | simulateur_arnaque/agents/victim_agent.py:43-44 | a non-empty objective replaces the current one; a missing or empty one keeps it |
| Victim.NewConstraint | simulateur_arnaque/agents/victim_agent.py:45-46 | a non-empty constraint replaces the previous one; an empty one keeps it in force |
| Victim.ExchangeKeepsAlternating | simulateur_arnaque/agents/victim_agent.py:62-63 | the memory keeps alternating scammer and Jeanne entries in pairs |
| Victim.MemoryCountsReplies | simulateur_arnaque/agents/victim_agent.py:59-69 | after a run of turns the memory alternates and holds two entries per successful model call |
| Victim.Successes | simulateur_arnaque/agents/victim_agent.py:59-69 | no more successful calls than calls |
| Victim.VictimAgent.constructor | simulateur_arnaque/agents/victim_agent.py:13-22 | empty memory, the starting objective and no constraint |
| Victim.VictimAgent.Respond | simulateur_arnaque/agents/victim_agent.py:30-69 | the objective and constraint are adopted as above; the model gets the prompt built from them and the memory before the turn; the answer is the stripped reply with the exchange remembered, or the apology with the memory unchanged |
| Victim.VictimAgent.ResetMemory | simulateur_arnaque/agents/victim_agent.py:71-75 | back to the state of a new agent |
| Victim.VictimAgent.GetState | simulateur_arnaque/agents/victim_agent.py:77-85 | the memory length is that of the memory, and even; the objective and constraint are echoed |
| Victim.VictimAgent.Process | simulateur_arnaque/agents/victim_agent.py:87-92 | a response with no new objective and no new constraint |
| Simulator.ScammerLinesAppend | main.py:121-124 | appending a line adds one scammer line exactly when it is the scammer's |
| Simulator.ParseCommand | main.py:205-230 | each command is recognised exactly when the stripped, lower-cased line is one of its words, or the stripped line is empty; anything else is said to the victim, stripped |
| Simulator.ParseIgnoresBlanks | main.py:205 | blanks around a line never change what it asks for |
| Simulator.SaidCountsScammerLines | main.py:118-124 | counting the turn and recording the scammer line keeps the turn count equal to the number of scammer lines |
| Simulator.AnsweredKeepsCount | main.py:170-173 | recording the victim's answer changes neither the count nor the scammer lines |
| Simulator.AnsweredRecords | main.py:163-173 | the answer is appended to the history; the victim remembers the scammer line and the raw reply, or nothing and apologises; an empty constraint keeps the previous one |
| Simulator.HeardFails | main.py:138-152 | the audience part fails exactly when there is an audience and either the frequency is zero or a round is due and the moderator's model does not answer |
| Simulator.HeardQuiet | main.py:137-140 | with no round due the audience part only counts the turn and hands the victim no constraint |
| Simulator.HeardRound | main.py:140-155 | a due round that the model answers hands the victim the constraint of the winning candidate, which the manager keeps as its last event |
| Simulator.RestartKeepsAudience | main.py:219-226 | `reset` empties the history, zeroes the count, drops the update and resets the victim, but leaves the audience manager alone |
| Simulator.Turn | main.py:107-175 | completed or failed, a turn counts one turn, keeps the history before it with the scammer line after it, and keeps or lacks the audience as before |
| Simulator.TurnAnalyses | main.py:118-130 | with the simulator's matcher, a turn stores the analysis of the history that ends with the scammer line; on a script without stages the director raises and the update is left as it was |
| Simulator.AnalysedRecords | main.py:126-173 | once the scammer line is recorded, the rest of a turn fails exactly when the audience part does, and otherwise appends the answer |
| Simulator.TurnFails | main.py:118-152 | a turn fails exactly when the script has no stages, with the director's `IndexError`, or when the audience part fails |
| Simulator.TurnRecords | main.py:107-175 | a failed turn leaves the scammer line last in the history, and a completed one appends the answer after it |
| Simulator.TurnCountsScammerLines | main.py:118-173 | completed or failed, a turn keeps the turn count equal to the number of scammer lines |
| Simulator.Session | main.py:201-249 | the loop ends exactly on a quit word; a turn is played exactly for a line that is no command; `status` reports the turn count and the number of messages; the audience is neither added nor dropped |
| Simulator.QuietCommands | main.py:208-230 | quit words, `status` and blank lines leave the whole state unchanged |
| Simulator.ScamSimulator.constructor | main.py:42-78 | a fresh victim; a console audience only when enabled; empty history, no turn and no update; the given script and stage matcher |
| Simulator.ScamSimulator.VoteRound | simulateur_arnaque/audience_events.py:72-102 | the audience objects end as a simulated round dictates |
| Simulator.ScamSimulator.AudienceStep | main.py:140-152 | the audience objects and the constraint are those of the audience part of a turn |
| Simulator.ScamSimulator.RecordLine | main.py:118-124 | the turn is counted and the scammer line recorded, and nothing else changes |
| Simulator.ScamSimulator.StoreUpdate | main.py:126-130 | the current update becomes the director's analysis of the history, with the simulator's matcher, and nothing else changes |
| Simulator.ScamSimulator.HearAudience | main.py:137-160 | the audience part of a turn, skipped without an audience |
| Simulator.ScamSimulator.AnswerTurn | main.py:162-175 | the victim answers with the objective and constraint, and the answer is recorded, with the turn count and scammer lines unchanged |
| Simulator.ScamSimulator.AnalyseTurn | main.py:126-175 | once the scammer line is recorded, the objects end as the rest of the turn dictates and return its answer or failure |
| Simulator.ScamSimulator.RunTurn | main.py:107-175 | the objects end in the state `Turn` gives, with the simulator's matcher, for the state before, and return its answer or failure |
| Simulator.ScamSimulator.ResetConversation | main.py:219-226 | the history is emptied, the count zeroed, the update dropped and the victim reset; the audience is untouched |
| Simulator.ScamSimulator.Step | main.py:201-249 | one pass of the loop moves the objects as `Session` dictates and ends the loop exactly on a quit word |
| Simulator.ScamSimulator.Run | main.py:177-249 | the loop handles one line at a time, never reads past a quit word, and ends either at the end of input or on a quit word |
| Strings.Strip | main.py:205 | `strip()` never lengthens a string and leaves no blank at either end |
| Strings.StripMiddle | main.py:205 | what `strip()` keeps is a middle slice with only blanks around it |
| Strings.StripFirst | simulateur_arnaque/agents/moderator.py:155-157 | the first character `strip()` keeps is the first non-blank character of the string |
| Strings.StripChars | simulateur_arnaque/agents/moderator.py:165 | `strip('[]')` never lengthens a string and leaves no bracket at either end; completed by StripCharsMiddle |
| Strings.StripCharsMiddle | simulateur_arnaque/agents/moderator.py:165 | what `strip('[]')` keeps is a middle slice of the string with only brackets on either side |
| Strings.LowerChar | simulateur_arnaque/agents/director.py:42 | ASCII capitals and the Latin-1 capitals À to Þ except × move 32 code points to their lower-case letters; every other character stays |
| Strings.Lower | simulateur_arnaque/agents/director.py:42 | `lower()` works character by character and keeps the length |
| Strings.LowerAppend | simulateur_arnaque/agents/director.py:42 | lower-casing distributes over concatenation |
| Strings.ContainsGrow | simulateur_arnaque/agents/director.py:43-47 | an occurrence survives text added on either side |
| Strings.ContainsChar | simulateur_arnaque/agents/director.py:43-47 | every character of an occurring pattern is in the text |
| Strings.ContainsInner | simulateur_arnaque/agents/director.py:25 | the middle of an occurring pattern occurs as well |
| Strings.Split | simulateur_arnaque/agents/moderator.py:152 | `split` always gives at least one piece |
| Strings.JoinSplit | simulateur_arnaque/agents/moderator.py:152 | joining the pieces of a split on the same character rebuilds the string |
| Strings.SplitNoSep | simulateur_arnaque/agents/moderator.py:152 | a string without the separator splits into itself |
| Strings.SplitAppendSep | simulateur_arnaque/agents/moderator.py:152 | the first piece ends at the first separator |
| Strings.SplitJoin | simulateur_arnaque/agents/moderator.py:152 | splitting a join of separator-free parts gives back the parts |
| Strings.JoinAppend | simulateur_arnaque/agents/victim_agent.py:28 | a join of more parts extends the join of the first ones by the separator and the rest |
| Strings.JoinPrefix | simulateur_arnaque/agents/director.py:42 | the join of a list is a prefix of the join of any extension |
| Strings.JoinContainsParts | simulateur_arnaque/agents/director.py:42 | every part occurs in the join |
| Strings.FirstIndex | simulateur_arnaque/agents/moderator.py:160 | the position of the first occurrence of a character |
| Strings.SplitOnceRebuilds | simulateur_arnaque/agents/moderator.py:164 | `split(c, 1)` cuts at the first `c`: the two parts and the separator rebuild the string |
| Strings.FirstIndexAfter | simulateur_arnaque/agents/moderator.py:160 | the first separator is the one after a separator-free part |
| Strings.CutAt | simulateur_arnaque/agents/moderator.py:164-166 | cutting at that separator gives back the two parts |
| Strings.ThreeParts | simulateur_arnaque/agents/victim_agent.py:51-56 | a text built of three parts has each part at its place |
| Strings.TemplateSlots | simulateur_arnaque/agents/victim_prompt.py:60-63 | a two-slot template starts with its head, holds each slot's value and the fixed text between them at their places, and ends with its tail; its length is the sum of the five parts |
| Strings.TemplateInjective | simulateur_arnaque/agents/victim_prompt.py:60-63 | a filled two-slot template determines its slots when the first slot cannot contain the text after it |
| Strings.MiddleDetermined | simulateur_arnaque/agents/director.py:61-66 | fixed text on both sides determines what lies between |
| Seqs.FlatMapAppend | simulateur_arnaque/agents/moderator.py:154-176 | per-element results concatenate over a concatenation of inputs |
| Seqs.FlatMapSingletons | simulateur_arnaque/agents/moderator.py:154-176 | when each element gives one result, the results list them in order |
| Seqs.FlatMapBound | simulateur_arnaque/agents/moderator.py:154-176 | when each element gives at most one result, there are no more results than elements |
| Seqs.FlatMapFrom | simulateur_arnaque/agents/moderator.py:154-176 | every result comes from some element |
| Seqs.FirstWhere | simulateur_arnaque/audience_interface.py:78-92 | the first index satisfying a test, or the length when none does |
| Seqs.FirstWhereUnique | simulateur_arnaque/audience_interface.py:78-92 | the first index is the only one with no earlier match that matches or ends the list |

## Left out

- Language model calls (`ChatVertexAI.invoke`), agent construction and credentials are
  outside the model. Replies are parameters, as described above, and the temperature
  is not modelled.
- The moderator's prompts, its system prompt and the text of the context it gets are
  not modelled, because they only reach the model. This covers `conversation_context`
  and `current_objective` of `filter_and_select`, and the context that `run_turn`
  builds at `main.py:142-144`. The reply taken as a parameter stands for whatever the
  model made of them.
- All console output is dropped: prints, panels, `display_options`,
  `display_script_info`, `display_director_update` and the banner.
- `save_history` (file output) and the `timestamp` of `AudienceEvent` (clock) are not
  modelled. The `timeout` argument of `collect_suggestions` is unused by the source and
  is not modelled either.
- `create_moderator_agent`, `create_audience_manager` and `create_audience_interface`
  are factories. The first two pass an argument the constructor does not accept.
  `BaseAgent.get_info` and `script_loader.load_script` are not part of this model.
- `DEFAULT_EVENTS` in `audience_events.py` and `SAMPLE_OBJECTIVES` in
  `victim_prompt.py` are data used by no modelled operation.
- `AudienceEventManager.get_current_constraint` and `get_statistics` are modelled as
  plain readers (`GetCurrentConstraint`, `GetStatistics`) without contracts of their
  own. `Reset` and `ClearConstraint` state their effect through them.
- Regular expressions are modelled by predicates: substring containment for the risk
  terms, and the literal `\b` text or the whole-word test for stage signals.
- Unicode is restricted. `lower()` is modelled on ASCII and Latin-1 capitals,
  `isdigit()` on ASCII digits. The `\b` word characters are underscore and the
  characters up to U+00FF that `str.isalnum()` accepts: ASCII letters and digits, the
  Latin-1 letters À–ÿ except × and ÷, and ª ² ³ µ ¹ º ¼ ½ ¾. Word characters above
  U+00FF are not modelled. `isspace()` follows Python's list of blank
  characters.
- Keyboard interrupts are not modelled. Console collection and the console vote treat
  end of input as their `except` branch does.
- At end of input, `run` catches the `EOFError` and asks again forever. The model's loop
  instead stops when the typed lines run out.
- The `if suggestion:` test in console collection and the `if audience_result:` test in
  `run_turn` are always true where they are reached. The model has no separate branch
  for them.
- Only the `reply is None` failure of the victim's model is modelled. Nothing else in
  the `try` block of `respond` can raise on the values the model passes.
- `filter_and_select` extends its local list in place. The model states this on values
  (`FilterAndSelect` is a function), since the list is never shared.
- Simulator.ScamSimulator.Run: does not tie each output to the `Session` of its line
  (`Step` states that for one line), and does not restate that no earlier line was a
  quit word beyond "no earlier output ended the loop". Both follow from `Step`, but
  proving them over the whole loop costs more than the verifier's limits allow.
- Director.Analysis, Director.AnalyzeConversation, Director.FindStage and the other
  director operations that take the first stage require a script with at least one
  stage. On a script without stages `analyze_conversation` raises `IndexError` at
  `director.py:20`. The model states that failure where `run_turn` meets it:
  `Simulator.Turn` returns `Raised(NoStages)` with the turn counted and the scammer line
  recorded, and the loop reports it and goes on.
- AudienceEvents.Triggered: states only the zero-frequency failure and the
  positive-frequency lower bound. The exact answer for any count is in
  `TriggerCountIsQuotient`.

## Findings

| source | as written | input that shows it | evidently intended | confidence | as-written member | corrected member |
|---|---|---|---|---|---|---|
| simulateur_arnaque/agents/director.py:25 | `rf"\\b{re.escape(signal)}\\b"` is the regular expression for a literal backslash followed by `b` on both sides of the signal, so a signal only matches a message that contains `\b` text | the history "a virus", "oh", "use anydesk" against the stages "virus" and "anydesk" completes no stage and stays on the first | `\b` word boundaries: the signal as a whole word, ignoring case, which completes both stages | not executed | DirectorFindings.AsWrittenScenario | DirectorFindings.IntendedScenario |

The corrected matcher is `Director.WordMatch`. The simulator takes its matcher as a
constructor argument: built with `Director.LiteralMatch` it is the program as written,
and built with `Director.WordMatch` it is the corrected program. `Simulator.Turn`, its
lemmas and the `ScamSimulator` methods hold for both.
`DirectorFindings.LiteralMatchNeedsBackslash` and
`DirectorFindings.NoBackslashNoProgress` state the as-written behaviour for every
input. The stage lemmas of `Director` hold for either matcher.
