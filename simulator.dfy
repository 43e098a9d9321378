/** The orchestrator: each scammer line goes through the director's analysis, possibly an
    audience round, and the victim's answer; a command loop reads the scammer's lines and
    also understands `quit`, `status` and `reset`. */
module Simulator {
  import opened Outcomes
  import opened Strings
  import opened Director
  import opened Moderator
  import opened Audience
  import opened AudienceEvents
  import opened VictimPrompt
  import opened Victim

  /** Roles of the simulator's own conversation history. */
  const ScammerSide: string := "scammer"
  const VictimSide: string := "victim"

  /** Words that end the session, compared in lower case. */
  const QuitWords: seq<string> := ["quit", "exit", "q"]

  // ---------------------------------------------------------------------------
  // Observable state, as values

  /** What the audience manager and its interface hold. */
  datatype AudienceView = AudienceView(
    voteFrequency: int,
    turnCounter: int,
    constraint: Option<string>,
    lastEvent: Option<Event>,
    mode: string,
    suggestions: seq<string>,
    events: seq<AudienceEvent>)

  /** What the victim agent holds. */
  datatype VictimView = VictimView(memory: seq<Message>, objective: string, constraint: string)

  /** The whole simulation: its history, turn count and last director update, the victim,
      and the audience manager when the audience is enabled. */
  datatype SimView = SimView(
    history: seq<Message>,
    turnCount: int,
    update: Option<DirectorUpdate>,
    victim: VictimView,
    audience: Option<AudienceView>)

  /** How many lines of a history the scammer wrote. */
  function ScammerLines(history: seq<Message>): nat
  {
    if history == [] then 0
    else ScammerLines(history[..|history| - 1]) + (if history[|history| - 1].role == ScammerSide then 1 else 0)
  }

  lemma ScammerLinesAppend(history: seq<Message>, m: Message)
    ensures ScammerLines(history + [m]) == ScammerLines(history) + (if m.role == ScammerSide then 1 else 0)
  {
    assert (history + [m])[..|history|] == history;
  }

  // ---------------------------------------------------------------------------
  // One turn, as a function of the state before it

  /** The end of an audience round with outcome `o`: the interface is in the simulated
      mode and has recorded the vote; a winner becomes the manager's constraint and last
      event and is handed to the victim, and a failure leaves both as they were. */
  function Voted(a: AudienceView, o: RoundOutcome): (AudienceView, Result<string>)
  {
    var a' := a.(mode := "simulated", events := a.events + o.record);
    if o.winner.Raised? then (a', Raised(o.winner.failure))
    else
      var c := GetEventConstraint(o.winner.value);
      (a'.(constraint := Some(c), lastEvent := Some(o.winner.value)), Ok(c))
  }

  /** The audience part of a turn: count the turn, and when it is due run a round with the
      canned suggestions and the simulated vote. Returns the audience afterwards and the
      constraint for the victim ("" when no round was due), or the failure that aborts
      the turn. */
  function AudienceTurn(a: AudienceView, reply: Option<string>, draws: seq<int>): (AudienceView, Result<string>)
    requires DrawPool(draws)
  {
    var counted := a.(turnCounter := a.turnCounter + 1);
    var due := Triggered(counted.turnCounter, a.voteFrequency);
    if due.Raised? then (counted, Raised(due.failure))
    else if !due.value then (counted, Ok(""))
    else Voted(counted, Round("simulated", "simulated", reply, draws, []))
  }

  /** The start of every turn: the turn is counted and the scammer line recorded. */
  function Said(v: SimView, scammerInput: string): SimView
  {
    v.(history := v.history + [Message(ScammerSide, scammerInput)], turnCount := v.turnCount + 1)
  }

  /** The audience part of a turn fails: there is an audience and either its vote
      frequency is zero or a round is due and the moderator's model does not answer. */
  predicate AudienceFails(audience: Option<AudienceView>, reply: Option<string>)
  {
    audience.Some? &&
    (audience.value.voteFrequency == 0 ||
     (Triggered(audience.value.turnCounter + 1, audience.value.voteFrequency) == Ok(true) && reply.None?))
  }

  /** The audience part of a turn on the whole state: nothing without an audience. */
  function Heard(v: SimView, reply: Option<string>, draws: seq<int>): (SimView, Result<string>)
    requires DrawPool(draws)
  {
    if v.audience.None? then (v, Ok(""))
    else
      var t := AudienceTurn(v.audience.value, reply, draws);
      (v.(audience := Some(t.0)), t.1)
  }

  /** What the victim's model answers on a turn: the turn prompt is built from the
      objective and constraint the victim holds once this turn's are adopted. */
  function VictimReply(victim: VictimView, scammerInput: string, objective: string, constraint: string,
                       victimLlm: string -> Option<string>): Option<string>
  {
    victimLlm(TurnPrompt(NewObjective(victim.objective, Some(objective)),
                         NewConstraint(victim.constraint, constraint), victim.memory, scammerInput))
  }

  /** The end of a turn the audience let through: the victim adopts the objective and the
      constraint, remembers the exchange if its model answered, and its answer is
      recorded in the history and returned. */
  function Answered(v: SimView, scammerInput: string, objective: string, constraint: string,
                    answer: Option<string>): (SimView, Result<string>)
  {
    (v.(history := v.history + [Message(VictimSide, Answer(answer))],
        victim := VictimView(v.victim.memory + Exchange(scammerInput, answer),
                             NewObjective(v.victim.objective, Some(objective)),
                             NewConstraint(v.victim.constraint, constraint))),
     Ok(Answer(answer)))
  }

  /** The rest of a turn once the scammer line is recorded in `said`: analyse the history,
      run the audience part, then have the victim answer and record the answer. */
  function Analysed(said: SimView, script: Script, matches: Matcher, scammerInput: string,
                    victimLlm: string -> Option<string>, reply: Option<string>, draws: seq<int>): (SimView, Result<string>)
    requires |script.stages| > 0 && DrawPool(draws)
  {
    var update := Analysis(said.history, script, matches);
    var heard := Heard(said.(update := Some(update)), reply, draws);
    if heard.1.Raised? then (heard.0, Raised(heard.1.failure))
    else
      var objective := update.nextObjectiveForVictim;
      Answered(heard.0, scammerInput, objective, heard.1.value,
               VictimReply(said.victim, scammerInput, objective, heard.1.value, victimLlm))
  }

  /** `run_turn`: count the turn, record the scammer line, analyse the whole history with
      the stage matcher `matches`, run the audience part when the audience is enabled, then
      have the victim answer with the director's objective and the audience constraint and
      record the answer. The director raises on a script without stages, and the audience
      part can fail; either failure ends the turn there, with the scammer line recorded. */
  function Turn(v: SimView, script: Script, matches: Matcher, scammerInput: string,
                victimLlm: string -> Option<string>, reply: Option<string>, draws: seq<int>): (t: (SimView, Result<string>))
    requires DrawPool(draws)
    ensures t.0.turnCount == v.turnCount + 1
    ensures v.history + [Message(ScammerSide, scammerInput)] <= t.0.history
    ensures t.0.audience.Some? == v.audience.Some?
  {
    var said := Said(v, scammerInput);
    if |script.stages| == 0 then (said, Raised(NoStages))
    else Analysed(said, script, matches, scammerInput, victimLlm, reply, draws)
  }

  // ---------------------------------------------------------------------------
  // The command loop, as a function of the state before each line

  /** What one line of input asks for, after stripping surrounding blanks. */
  datatype Command = Quit | ShowStatus | Restart | Blank | Say(text: string)

  /** The command a line asks for, tested in the loop's order: quit words, `status`,
      `reset`, then the empty line; anything else is said to the victim. */
  function ParseCommand(line: string): (c: Command)
    ensures c == Quit <==> Lower(Strip(line)) in QuitWords
    ensures c == ShowStatus <==> Lower(Strip(line)) == "status"
    ensures c == Restart <==> Lower(Strip(line)) == "reset"
    ensures c == Blank <==> Strip(line) == []
    ensures c.Say? ==> (c.text == Strip(line) && c.text != [] && Lower(c.text) !in QuitWords &&
                        Lower(c.text) != "status" && Lower(c.text) != "reset")
  {
    var text := Strip(line);
    if Lower(text) in QuitWords then Quit
    else if Lower(text) == "status" then ShowStatus
    else if Lower(text) == "reset" then Restart
    else if text == [] then Blank
    else Say(text)
  }

  /** Blanks around a line never change what it asks for. */
  lemma ParseIgnoresBlanks(line: string)
    ensures ParseCommand(Strip(line)) == ParseCommand(line)
  {
    assert Strip(Strip(line)) == Strip(line);
  }

  /** What the loop shows for one line. */
  datatype SessionOutput =
    | Ended
    | Report(turns: int, messages: nat)
    | Restarted
    | Ignored
    | Reply(response: Result<string>)

  /** One pass of the loop in `run`: leave on a quit word, report on `status`, start a new
      conversation on `reset` (the victim forgets, the audience keeps its count), skip a
      blank line, and otherwise play a turn, whose failure the loop reports and survives. */
  function Session(v: SimView, script: Script, matches: Matcher, line: string,
                   victimLlm: string -> Option<string>, reply: Option<string>, draws: seq<int>): (s: (SimView, SessionOutput))
    requires DrawPool(draws)
    ensures s.1 == Ended <==> ParseCommand(line) == Quit
    ensures s.1.Reply? <==> ParseCommand(line).Say?
    ensures s.1.Report? ==> s.1 == Report(v.turnCount, |v.history|)
    ensures s.0.audience.Some? == v.audience.Some?
  {
    match ParseCommand(line)
    case Quit => (v, Ended)
    case ShowStatus => (v, Report(v.turnCount, |v.history|))
    case Restart =>
      (v.(history := [], turnCount := 0, update := None, victim := VictimView([], DefaultObjective, "")),
       Restarted)
    case Blank => (v, Ignored)
    case Say(text) =>
      var t := Turn(v, script, matches, text, victimLlm, reply, draws);
      (t.0, Reply(t.1))
  }

  /** One line typed at the prompt, with what the moderator's model answers and the draws
      of the simulated vote should that line start an audience round. */
  datatype Input = Input(line: string, reply: Option<string>, draws: seq<int>)

  predicate Drawable(inputs: seq<Input>)
  {
    forall k :: 0 <= k < |inputs| ==> DrawPool(inputs[k].draws)
  }

  // ---------------------------------------------------------------------------
  // Properties of a turn and of the loop

  /** Opening a turn adds one scammer line and counts one turn, so the turn count stays
      the number of scammer lines. */
  lemma SaidCountsScammerLines(v: SimView, scammerInput: string)
    requires ScammerLines(v.history) == v.turnCount
    ensures ScammerLines(Said(v, scammerInput).history) == Said(v, scammerInput).turnCount
  {
    ScammerLinesAppend(v.history, Message(ScammerSide, scammerInput));
  }

  /** The victim's line is not a scammer line and the turn count stays. */
  lemma AnsweredKeepsCount(v: SimView, scammerInput: string, objective: string, constraint: string,
                           answer: Option<string>)
    ensures ScammerLines(Answered(v, scammerInput, objective, constraint, answer).0.history) ==
      ScammerLines(v.history)
    ensures Answered(v, scammerInput, objective, constraint, answer).0.turnCount == v.turnCount
  {
    ScammerLinesAppend(v.history, Message(VictimSide, Answer(answer)));
  }

  /** The end of a turn records the victim's answer after the history; the victim's
      memory grows by the scammer line and the raw reply when its model answered, and the
      answer is that reply stripped, or the apology with the memory unchanged. */
  lemma AnsweredRecords(v: SimView, scammerInput: string, objective: string, constraint: string,
                        answer: Option<string>)
    ensures var t := Answered(v, scammerInput, objective, constraint, answer);
      && t.1.Ok?
      && t.0.history == v.history + [Message(VictimSide, t.1.value)]
      && v.victim.memory <= t.0.victim.memory
      && (answer.None? ==> t.0.victim.memory == v.victim.memory && t.1.value == Apology)
      && (answer.Some? ==>
            |t.0.victim.memory| == |v.victim.memory| + 2 &&
            t.0.victim.memory[|v.victim.memory|] == Message(ScammerRole, scammerInput) &&
            t.0.victim.memory[|v.victim.memory| + 1].content == answer.value &&
            t.1.value == Strip(answer.value))
      && (constraint == [] ==> t.0.victim.constraint == v.victim.constraint)
      && (objective != [] ==> t.0.victim.objective == objective)
  {
    var t := Answered(v, scammerInput, objective, constraint, answer);
    assert v.victim.memory + Exchange(scammerInput, answer) == t.0.victim.memory;
  }

  /** The audience part fails exactly when there is an audience and either its vote
      frequency is zero or a round is due and the moderator's model does not answer. */
  lemma HeardFails(v: SimView, reply: Option<string>, draws: seq<int>)
    requires DrawPool(draws)
    ensures Heard(v, reply, draws).1.Raised? <==> AudienceFails(v.audience, reply)
  {
    if v.audience.Some? {
      RoundFails("simulated", "simulated", reply, draws, []);
    }
  }

  /** Without a round due, the audience part only counts the turn and hands the victim no
      constraint, so the constraint in force stays. */
  lemma HeardQuiet(v: SimView, reply: Option<string>, draws: seq<int>)
    requires DrawPool(draws)
    requires v.audience.None? ||
      (v.audience.value.voteFrequency != 0 &&
       Triggered(v.audience.value.turnCounter + 1, v.audience.value.voteFrequency) == Ok(false))
    ensures Heard(v, reply, draws).1 == Ok("")
    ensures v.audience.None? ==> Heard(v, reply, draws).0 == v
    ensures v.audience.Some? ==>
      Heard(v, reply, draws).0 == v.(audience := Some(v.audience.value.(turnCounter := v.audience.value.turnCounter + 1)))
  {
  }

  /** When a round is due and the moderator answers, the constraint handed to the victim
      and kept by the manager is that of the candidate with the first largest of the
      first three draws, which becomes the last event. */
  lemma HeardRound(v: SimView, reply: Option<string>, draws: seq<int>)
    requires DrawPool(draws) && reply.Some?
    requires v.audience.Some? && v.audience.value.voteFrequency != 0
    requires Triggered(v.audience.value.turnCounter + 1, v.audience.value.voteFrequency) == Ok(true)
    ensures var winner := Candidates(SimulatedSuggestions(), reply).value[ArgMax(draws[..3])];
      var h := Heard(v, reply, draws);
      && h.1 == Ok(GetEventConstraint(winner))
      && h.0.audience.value.constraint == Some(GetEventConstraint(winner))
      && h.0.audience.value.lastEvent == Some(winner)
      && h.0.audience.value.turnCounter == v.audience.value.turnCounter + 1
  {
    SimulatedRound(reply, draws, []);
  }

  /** `reset` starts a new conversation but leaves the audience manager alone, so the
      audience rounds stay on their schedule across resets. */
  lemma RestartKeepsAudience(v: SimView, script: Script, matches: Matcher, line: string,
                             victimLlm: string -> Option<string>, reply: Option<string>, draws: seq<int>)
    requires DrawPool(draws)
    requires Lower(Strip(line)) == "reset"
    ensures var s := Session(v, script, matches, line, victimLlm, reply, draws);
      s.1 == Restarted && s.0.audience == v.audience && s.0.history == [] && s.0.turnCount == 0 &&
      s.0.victim == VictimView([], DefaultObjective, "")
  {
    assert Lower(Strip(line)) !in QuitWords;
  }

  /** A turn on a script with stages stores the analysis of the history that ends with
      the scammer line; on a script without stages the director raises before anything
      is stored. */
  lemma TurnAnalyses(v: SimView, script: Script, matches: Matcher, scammerInput: string,
                     victimLlm: string -> Option<string>, reply: Option<string>, draws: seq<int>)
    requires DrawPool(draws)
    ensures var t := Turn(v, script, matches, scammerInput, victimLlm, reply, draws);
      t.0.update == if |script.stages| == 0 then v.update
                    else Some(Analysis(v.history + [Message(ScammerSide, scammerInput)], script, matches))
  {
  }

  /** A turn fails exactly when the script has no stages, with the director's
      `IndexError`, or when the audience part fails. */
  lemma TurnFails(v: SimView, script: Script, matches: Matcher, scammerInput: string,
                  victimLlm: string -> Option<string>, reply: Option<string>, draws: seq<int>)
    requires DrawPool(draws)
    ensures var t := Turn(v, script, matches, scammerInput, victimLlm, reply, draws);
      && (t.1.Raised? <==> |script.stages| == 0 || AudienceFails(v.audience, reply))
      && (|script.stages| == 0 ==> t.1 == Raised(NoStages))
  {
    if |script.stages| > 0 {
      AnalysedRecords(Said(v, scammerInput), script, matches, scammerInput, victimLlm, reply, draws);
    }
  }

  /** A failed turn leaves the scammer line alone at the end of the history, and a
      completed one follows it with the answer. */
  lemma TurnRecords(v: SimView, script: Script, matches: Matcher, scammerInput: string,
                    victimLlm: string -> Option<string>, reply: Option<string>, draws: seq<int>)
    requires DrawPool(draws)
    ensures var t := Turn(v, script, matches, scammerInput, victimLlm, reply, draws);
      var said := v.history + [Message(ScammerSide, scammerInput)];
      && (t.1.Raised? ==> t.0.history == said)
      && (t.1.Ok? ==> t.0.history == said + [Message(VictimSide, t.1.value)])
  {
    if |script.stages| > 0 {
      AnalysedRecords(Said(v, scammerInput), script, matches, scammerInput, victimLlm, reply, draws);
    }
  }

  /** The rest of a turn fails exactly when the audience part does, and otherwise
      appends the answer to the history. */
  lemma AnalysedRecords(said: SimView, script: Script, matches: Matcher, scammerInput: string,
                        victimLlm: string -> Option<string>, reply: Option<string>, draws: seq<int>)
    requires |script.stages| > 0 && DrawPool(draws)
    ensures var t := Analysed(said, script, matches, scammerInput, victimLlm, reply, draws);
      && (t.1.Raised? <==> AudienceFails(said.audience, reply))
      && (t.1.Raised? ==> t.0.history == said.history)
      && (t.1.Ok? ==> t.0.history == said.history + [Message(VictimSide, t.1.value)])
  {
    var update := Analysis(said.history, script, matches);
    var start := said.(update := Some(update));
    HeardFails(start, reply, draws);
    var heard := Heard(start, reply, draws);
    if heard.1.Ok? {
      var objective := update.nextObjectiveForVictim;
      AnsweredRecords(heard.0, scammerInput, objective, heard.1.value,
                      VictimReply(said.victim, scammerInput, objective, heard.1.value, victimLlm));
    }
  }

  /** Whether it completes or fails, a turn keeps the turn count equal to the number of
      scammer lines in the history. */
  lemma TurnCountsScammerLines(v: SimView, script: Script, matches: Matcher, scammerInput: string,
                               victimLlm: string -> Option<string>, reply: Option<string>, draws: seq<int>)
    requires DrawPool(draws)
    requires ScammerLines(v.history) == v.turnCount
    ensures var t := Turn(v, script, matches, scammerInput, victimLlm, reply, draws);
      ScammerLines(t.0.history) == t.0.turnCount
  {
    TurnRecords(v, script, matches, scammerInput, victimLlm, reply, draws);
    var said := v.history + [Message(ScammerSide, scammerInput)];
    ScammerLinesAppend(v.history, Message(ScammerSide, scammerInput));
    var t := Turn(v, script, matches, scammerInput, victimLlm, reply, draws);
    if t.1.Ok? {
      ScammerLinesAppend(said, Message(VictimSide, t.1.value));
    }
  }

  /** Quit words, `status` and blank lines leave the whole state as it was. */
  lemma QuietCommands(v: SimView, script: Script, matches: Matcher, line: string,
                      victimLlm: string -> Option<string>, reply: Option<string>, draws: seq<int>)
    requires DrawPool(draws)
    requires Lower(Strip(line)) in QuitWords || Lower(Strip(line)) == "status" || Strip(line) == []
    ensures Session(v, script, matches, line, victimLlm, reply, draws).0 == v
  {
  }

  // ---------------------------------------------------------------------------
  // The objects

  class ScamSimulator {
    const script: Script
    /** The director's stage matcher: `LiteralMatch` for the program as written. */
    const matches: Matcher
    const useAudience: bool
    const victim: VictimAgent
    const audience: AudienceEventManager?
    var conversationHistory: seq<Message>
    var turnCount: int
    var currentUpdate: Option<DirectorUpdate>

    /** The audience objects, when there are any. */
    function AudienceParts(): set<object>
      reads this
    {
      if audience == null then {} else {audience, audience.interface}
    }

    ghost predicate Valid()
      reads this, victim
    {
      (useAudience <==> audience != null) && victim.Valid() &&
      ScammerLines(conversationHistory) == turnCount
    }

    function AudienceState(): Option<AudienceView>
      reads this, AudienceParts()
    {
      if audience == null then None
      else Some(AudienceView(audience.voteFrequency, audience.turnCounter, audience.currentConstraint,
                             audience.lastEvent, audience.interface.mode,
                             audience.interface.suggestionHistory, audience.interface.eventHistory))
    }

    function State(): SimView
      reads this, victim, AudienceParts()
    {
      SimView(conversationHistory, turnCount, currentUpdate,
              VictimView(victim.chatHistory, victim.currentObjective, victim.audienceConstraint),
              AudienceState())
    }

    /** A simulator over a script: a fresh victim, and with the audience enabled an audience
        manager over a console interface; empty history, no turn played, no update. */
    constructor (script: Script, useAudience: bool, voteFrequency: int, matches: Matcher)
      ensures Valid()
      ensures this.script == script && this.useAudience == useAudience && this.matches == matches
      ensures State() == SimView([], 0, None, VictimView([], DefaultObjective, ""),
        if useAudience then Some(AudienceView(voteFrequency, 0, None, None, "console", [], [])) else None)
    {
      this.script := script;
      this.matches := matches;
      this.useAudience := useAudience;
      victim := new VictimAgent();
      if useAudience {
        var interface := new AudienceInterface("console");
        audience := new AudienceEventManager(interface, voteFrequency);
      } else {
        audience := null;
      }
      conversationHistory := [];
      turnCount := 0;
      currentUpdate := None;
    }

    /** An audience round with the canned suggestions and the simulated vote. The
        constraint is used as soon as it is non-empty, which a winner's always is. */
    method VoteRound(reply: Option<string>, draws: seq<int>) returns (constraint: Result<string>)
      requires audience != null && DrawPool(draws)
      modifies AudienceParts()
      ensures AudienceState() == Some(Voted(old(AudienceState()).value, Round("simulated", "simulated", reply, draws, [])).0)
      ensures constraint == Voted(old(AudienceState()).value, Round("simulated", "simulated", reply, draws, [])).1
    {
      var consumed;
      constraint, consumed := audience.ProcessAudienceRound("simulated", "simulated", reply, draws, []);
      // The simulated collection records no typed suggestion.
      assert audience.interface.suggestionHistory == old(audience.interface.suggestionHistory);
    }

    /** The audience part of `run_turn`, on the objects. */
    method AudienceStep(reply: Option<string>, draws: seq<int>) returns (constraint: Result<string>)
      requires audience != null && DrawPool(draws)
      modifies AudienceParts()
      ensures AudienceState() == Some(AudienceTurn(old(AudienceState()).value, reply, draws).0)
      ensures constraint == AudienceTurn(old(AudienceState()).value, reply, draws).1
    {
      var due := audience.ShouldTriggerAudience();
      if due.Raised? {
        return Raised(due.failure);
      }
      if !due.value {
        return Ok("");
      }
      constraint := VoteRound(reply, draws);
    }

    /** The start of `run_turn` on the objects: count the turn and record the scammer
        line. */
    method RecordLine(scammerInput: string)
      requires Valid()
      modifies this
      ensures Valid()
      ensures State() == Said(old(State()), scammerInput)
    {
      turnCount := turnCount + 1;
      ScammerLinesAppend(conversationHistory, Message(ScammerSide, scammerInput));
      conversationHistory := conversationHistory + [Message(ScammerSide, scammerInput)];
    }

    /** `self.current_update = director.analyze_conversation(...)`: the director's analysis
        of the history so far, with the simulator's matcher, becomes the current update. */
    method StoreUpdate() returns (update: DirectorUpdate)
      requires Valid() && |script.stages| > 0
      modifies this
      ensures Valid()
      ensures update == Analysis(old(conversationHistory), script, matches)
      ensures State() == old(State()).(update := Some(update))
    {
      update := AnalyzeConversation(conversationHistory, script, matches);
      currentUpdate := Some(update);
    }

    /** The audience part of `run_turn` on the objects, skipped without an audience. */
    method HearAudience(reply: Option<string>, draws: seq<int>) returns (constraint: Result<string>)
      requires (useAudience <==> audience != null) && DrawPool(draws)
      modifies AudienceParts()
      ensures (State(), constraint) == Heard(old(State()), reply, draws)
    {
      constraint := Ok("");
      if useAudience && audience != null {
        constraint := AudienceStep(reply, draws);
      }
    }

    /** The end of `run_turn` on the objects: the victim answers with the objective and the
        constraint, and the answer is recorded. */
    method AnswerTurn(scammerInput: string, objective: string, constraint: string,
                      victimLlm: string -> Option<string>) returns (response: string)
      requires victim.Valid()
      modifies this, victim
      ensures victim.Valid() && turnCount == old(turnCount)
      ensures ScammerLines(conversationHistory) == old(ScammerLines(conversationHistory))
      ensures (State(), Ok(response)) == Answered(old(State()), scammerInput, objective, constraint,
        VictimReply(old(State()).victim, scammerInput, objective, constraint, victimLlm))
    {
      response := victim.Respond(scammerInput, Some(objective), constraint, victimLlm);
      ScammerLinesAppend(conversationHistory, Message(VictimSide, response));
      conversationHistory := conversationHistory + [Message(VictimSide, response)];
    }

    /** `run_turn`, with the victim's model, the moderator's reply and the vote draws as
        parameters. */
    method RunTurn(scammerInput: string, victimLlm: string -> Option<string>,
                   reply: Option<string>, draws: seq<int>) returns (r: Result<string>)
      requires Valid() && DrawPool(draws)
      modifies this, victim, AudienceParts()
      ensures Valid()
      ensures (State(), r) == Turn(old(State()), script, matches, scammerInput, victimLlm, reply, draws)
    {
      RecordLine(scammerInput);
      if |script.stages| == 0 {
        return Raised(NoStages);
      }
      r := AnalyseTurn(scammerInput, victimLlm, reply, draws);
    }

    /** The rest of `run_turn` on the objects, once the scammer line is recorded. */
    method AnalyseTurn(scammerInput: string, victimLlm: string -> Option<string>,
                       reply: Option<string>, draws: seq<int>) returns (r: Result<string>)
      requires Valid() && |script.stages| > 0 && DrawPool(draws)
      modifies this, victim, AudienceParts()
      ensures Valid()
      ensures (State(), r) == Analysed(old(State()), script, matches, scammerInput, victimLlm, reply, draws)
    {
      var update := StoreUpdate();
      var constraint := HearAudience(reply, draws);
      if constraint.Raised? {
        return Raised(constraint.failure);
      }
      var response := AnswerTurn(scammerInput, update.nextObjectiveForVictim, constraint.value, victimLlm);
      r := Ok(response);
    }

    /** The `reset` command on the objects: a new conversation with a reset victim, and
        the audience manager left alone. */
    method ResetConversation()
      requires Valid()
      modifies this, victim
      ensures Valid()
      ensures State() == old(State()).(history := [], turnCount := 0, update := None,
                                       victim := VictimView([], DefaultObjective, ""))
    {
      victim.ResetMemory();
      conversationHistory := [];
      turnCount := 0;
      currentUpdate := None;
    }

    /** One pass of the loop in `run`, on the objects. */
    method Step(line: string, victimLlm: string -> Option<string>, reply: Option<string>, draws: seq<int>)
      returns (out: SessionOutput)
      requires Valid() && DrawPool(draws)
      modifies this, victim, AudienceParts()
      ensures Valid()
      ensures (State(), out) == Session(old(State()), script, matches, line, victimLlm, reply, draws)
      ensures out == Ended <==> ParseCommand(line) == Quit
    {
      var command := ParseCommand(line);
      match command {
        case Quit =>
          out := Ended;
        case ShowStatus =>
          out := Report(turnCount, |conversationHistory|);
        case Restart =>
          ResetConversation();
          out := Restarted;
        case Blank =>
          out := Ignored;
        case Say(text) =>
          var r := RunTurn(text, victimLlm, reply, draws);
          out := Reply(r);
      }
    }

    /** The loop of `run` over the lines typed, with the victim's model and, per line, the
        moderator's reply and the vote draws as parameters: each line is one `Step`, the
        loop goes on past failed turns, and it stops right after the first quit word. */
    method Run(inputs: seq<Input>, victimLlm: string -> Option<string>) returns (outputs: seq<SessionOutput>)
      requires Valid() && Drawable(inputs)
      modifies this, victim, AudienceParts()
      ensures Valid()
      ensures |outputs| <= |inputs|
      ensures forall k :: 0 <= k < |outputs| - 1 ==> outputs[k] != Ended
      ensures |outputs| == |inputs| || (outputs != [] && outputs[|outputs| - 1] == Ended)
      ensures outputs != [] && outputs[|outputs| - 1] == Ended ==> ParseCommand(inputs[|outputs| - 1].line) == Quit
    {
      outputs := [];
      var i := 0;
      while i < |inputs|
        invariant 0 <= i <= |inputs| && |outputs| == i && Valid()
        invariant forall k :: 0 <= k < i ==> outputs[k] != Ended
      {
        var out := Step(inputs[i].line, victimLlm, inputs[i].reply, inputs[i].draws);
        outputs := outputs + [out];
        if out == Ended {
          return;
        }
        i := i + 1;
      }
    }
  }
}
