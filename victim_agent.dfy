/** The victim agent, Mme Jeanne Dubois: keeps her own memory of the exchanges, the
    current objective and the latest audience constraint, and answers each scammer line
    through the language model. */
module Victim {
  import opened Outcomes
  import opened Strings
  import opened VictimPrompt
  import Director

  type Message = Director.Message

  const AgentName: string := "Jeanne Dubois"

  /** Roles the agent writes into its own memory. */
  const ScammerRole: string := "Scammer"
  const VictimRole: string := "Jeanne"

  /** The answer given whenever the language model fails. */
  const Apology: string := "Oh dear... I'm sorry, I got confused. Could you repeat that please?"

  const HistoryLabel: string := "\n\nChat History:\n"

  /** `get_state` without the sampling temperature. */
  datatype AgentState = AgentState(
    name: string,
    currentObjective: string,
    audienceConstraint: string,
    memoryLength: nat)

  /** One memory entry as a prompt line: `role: content`. */
  function EntryLine(m: Message): string
  {
    m.role + ": " + m.content
  }

  function EntryLines(history: seq<Message>): (lines: seq<string>)
    ensures |lines| == |history|
  {
    seq(|history|, i requires 0 <= i < |history| => EntryLine(history[i]))
  }

  /** `_format_history`: the memory one entry per line; empty exactly when the memory is. */
  function FormatHistory(history: seq<Message>): (r: string)
    ensures r == [] <==> history == []
    ensures history != [] ==> EntryLine(history[0]) <= r
  {
    if history == [] then "" else Join(EntryLines(history), "\n")
  }

  /** Splitting the formatted memory at line breaks gives back its lines, as long as no
      role or content spans several lines. */
  lemma FormatHistoryLines(history: seq<Message>)
    requires history != []
    requires forall i :: 0 <= i < |history| ==> '\n' !in history[i].role && '\n' !in history[i].content
    ensures Split(FormatHistory(history), '\n') == EntryLines(history)
  {
    var lines := EntryLines(history);
    forall i | 0 <= i < |lines|
      ensures '\n' !in lines[i]
    {
      assert lines[i] == history[i].role + ": " + history[i].content;
    }
    SplitJoin(lines, '\n');
  }

  /** Remembering more entries extends the formatted memory by their lines. */
  lemma FormatHistoryAppend(history: seq<Message>, more: seq<Message>)
    requires history != [] && more != []
    ensures FormatHistory(history + more) == FormatHistory(history) + "\n" + FormatHistory(more)
  {
    assert EntryLines(history + more) == EntryLines(history) + EntryLines(more);
    JoinAppend(EntryLines(history), EntryLines(more), "\n");
  }

  /** The end of every turn prompt: the scammer line and the cue for Jeanne's answer. */
  function TurnTail(scammerInput: string): string
  {
    "\n\nScammer: " + scammerInput + "\n\nJeanne:"
  }

  /** The full prompt of one turn: the character sheet with the current objective and
      constraint, the memory when there is any, then the scammer line. */
  function TurnPrompt(objective: string, constraint: string, history: seq<Message>, scammerInput: string): (prompt: string)
    ensures GetVictimPrompt(objective, constraint) <= prompt
    ensures |prompt| >= |TurnTail(scammerInput)| && prompt[|prompt| - |TurnTail(scammerInput)|..] == TurnTail(scammerInput)
  {
    var memory := if FormatHistory(history) != "" then HistoryLabel + FormatHistory(history) else "";
    ThreeParts(GetVictimPrompt(objective, constraint), memory, TurnTail(scammerInput),
      GetVictimPrompt(objective, constraint) + memory + TurnTail(scammerInput));
    GetVictimPrompt(objective, constraint)
    + (if FormatHistory(history) != "" then HistoryLabel + FormatHistory(history) else "")
    + TurnTail(scammerInput)
  }

  /** The turn prompt opens with the character sheet, shows the memory right after it
      whenever there is any, and ends with the scammer line and Jeanne's cue. */
  lemma TurnPromptLayout(objective: string, constraint: string, history: seq<Message>, scammerInput: string)
    ensures var r := TurnPrompt(objective, constraint, history, scammerInput);
      && GetVictimPrompt(objective, constraint) <= r
      && |r| >= |TurnTail(scammerInput)| && r[|r| - |TurnTail(scammerInput)|..] == TurnTail(scammerInput)
      && (history == [] ==> |r| == |GetVictimPrompt(objective, constraint)| + |TurnTail(scammerInput)|)
      && (history != [] ==>
            && OccursAt(r, HistoryLabel + FormatHistory(history), |GetVictimPrompt(objective, constraint)|)
            && |r| == |GetVictimPrompt(objective, constraint)| + |HistoryLabel + FormatHistory(history)|
                      + |TurnTail(scammerInput)|)
  {
    var prompt := GetVictimPrompt(objective, constraint);
    var memory := if FormatHistory(history) != "" then HistoryLabel + FormatHistory(history) else "";
    ThreeParts(prompt, memory, TurnTail(scammerInput), TurnPrompt(objective, constraint, history, scammerInput));
  }

  /** What the agent answers for what the model replied: the reply without surrounding
      blanks, or the apology when the model failed. */
  function Answer(reply: Option<string>): (r: string)
    ensures reply.None? ==> r == Apology
    ensures reply.Some? ==> |r| <= |reply.value| && Contains(reply.value, r)
    ensures reply.Some? && r != [] ==> !IsSpace(r[0]) && !IsSpace(r[|r| - 1])
    ensures reply.Some? && r == [] ==> AllSpace(reply.value)
  {
    match reply
    case Some(text) => StripContained(text); Strip(text)
    case None => Apology
  }

  /** What the agent remembers of one turn: both lines, the reply unstripped, or nothing
      when the model failed. */
  function Exchange(scammerInput: string, reply: Option<string>): (r: seq<Message>)
    ensures |r| == if reply.Some? then 2 else 0
  {
    match reply
    case Some(text) => [Director.Message(ScammerRole, scammerInput), Director.Message(VictimRole, text)]
    case None => []
  }

  /** The objective after a turn: a non-empty new objective replaces the current one. */
  function NewObjective(current: string, objective: Option<string>): (r: string)
    ensures objective.Some? && objective.value != [] ==> r == objective.value
    ensures objective.None? || objective.value == [] ==> r == current
  {
    if objective.Some? && objective.value != [] then objective.value else current
  }

  /** The constraint after a turn: a non-empty constraint replaces the previous one, and an
      empty one leaves it in force. */
  function NewConstraint(current: string, constraint: string): (r: string)
    ensures constraint != [] ==> r == constraint
    ensures constraint == [] ==> r == current
  {
    if constraint != [] then constraint else current
  }

  /** Memory entries alternate scammer, victim, scammer, ... and come in pairs. */
  ghost predicate Alternating(history: seq<Message>)
  {
    |history| % 2 == 0 &&
    forall i :: 0 <= i < |history| ==> history[i].role == (if i % 2 == 0 then ScammerRole else VictimRole)
  }

  /** A remembered exchange keeps the memory alternating. */
  lemma ExchangeKeepsAlternating(history: seq<Message>, scammerInput: string, reply: Option<string>)
    requires Alternating(history)
    ensures Alternating(history + Exchange(scammerInput, reply))
  {
    var h := history + Exchange(scammerInput, reply);
    forall i | 0 <= i < |h|
      ensures h[i].role == (if i % 2 == 0 then ScammerRole else VictimRole)
    {
      if i >= |history| {
        assert i == |history| || i == |history| + 1;
      }
    }
  }

  /** Every answer the agent gives came from the model or is the apology; the memory holds
      one pair per answered turn, so its length counts twice the model's replies. */
  lemma {:induction false} MemoryCountsReplies(scammerInputs: seq<string>, replies: seq<Option<string>>)
    requires |scammerInputs| == |replies|
    ensures Alternating(Memory(scammerInputs, replies))
    ensures |Memory(scammerInputs, replies)| == 2 * Successes(replies)
  {
    if replies != [] {
      var n := |replies| - 1;
      MemoryCountsReplies(scammerInputs[..n], replies[..n]);
      ExchangeKeepsAlternating(Memory(scammerInputs[..n], replies[..n]), scammerInputs[n], replies[n]);
    }
  }

  /** The memory left by a run of turns from an empty memory. */
  function Memory(scammerInputs: seq<string>, replies: seq<Option<string>>): seq<Message>
    requires |scammerInputs| == |replies|
  {
    if replies == [] then []
    else
      var n := |replies| - 1;
      Memory(scammerInputs[..n], replies[..n]) + Exchange(scammerInputs[n], replies[n])
  }

  /** How many of the model calls answered. */
  function Successes(replies: seq<Option<string>>): (k: nat)
    ensures k <= |replies|
  {
    if replies == [] then 0
    else Successes(replies[..|replies| - 1]) + (if replies[|replies| - 1].Some? then 1 else 0)
  }

  class VictimAgent {
    var chatHistory: seq<Message>
    var currentObjective: string
    var audienceConstraint: string

    ghost predicate Valid()
      reads this
    {
      Alternating(chatHistory)
    }

    constructor()
      ensures Valid()
      ensures chatHistory == [] && currentObjective == DefaultObjective && audienceConstraint == ""
    {
      chatHistory := [];
      currentObjective := DefaultObjective;
      audienceConstraint := "";
    }

    /** `respond`: adopt the new objective and constraint when given, build the turn
        prompt from them and the memory so far, ask the model, and on success remember
        both lines and answer with the stripped reply; on failure remember nothing and
        apologise. */
    method Respond(scammerInput: string, objective: Option<string>, constraint: string,
                   llm: string -> Option<string>) returns (response: string)
      requires Valid()
      modifies this
      ensures Valid()
      ensures currentObjective == NewObjective(old(currentObjective), objective)
      ensures audienceConstraint == NewConstraint(old(audienceConstraint), constraint)
      ensures var reply := llm(TurnPrompt(currentObjective, audienceConstraint, old(chatHistory), scammerInput));
        response == Answer(reply) && chatHistory == old(chatHistory) + Exchange(scammerInput, reply)
    {
      if objective.Some? && objective.value != [] {
        currentObjective := objective.value;
      }
      if constraint != [] {
        audienceConstraint := constraint;
      }
      var prompt := TurnPrompt(currentObjective, audienceConstraint, chatHistory, scammerInput);
      var reply := llm(prompt);
      ExchangeKeepsAlternating(chatHistory, scammerInput, reply);
      match reply {
        case Some(text) =>
          chatHistory := chatHistory + [Director.Message(ScammerRole, scammerInput), Director.Message(VictimRole, text)];
          response := Strip(text);
        case None =>
          response := Apology;
      }
    }

    /** `reset_memory`: a new conversation with the starting objective and no constraint. */
    method ResetMemory()
      modifies this
      ensures Valid()
      ensures chatHistory == [] && currentObjective == DefaultObjective && audienceConstraint == ""
    {
      chatHistory := [];
      currentObjective := DefaultObjective;
      audienceConstraint := "";
    }

    /** `get_state`: the memory length is even and counts the remembered lines. */
    function GetState(): (s: AgentState)
      reads this
      ensures s.memoryLength == |chatHistory|
      ensures Valid() ==> s.memoryLength % 2 == 0
      ensures s.currentObjective == currentObjective && s.audienceConstraint == audienceConstraint
    {
      AgentState(AgentName, currentObjective, audienceConstraint, |chatHistory|)
    }

    /** `process`: a turn with neither a new objective nor a new constraint. */
    method Process(inputText: string, llm: string -> Option<string>) returns (response: string)
      requires Valid()
      modifies this
      ensures Valid()
      ensures currentObjective == old(currentObjective) && audienceConstraint == old(audienceConstraint)
      ensures var reply := llm(TurnPrompt(currentObjective, audienceConstraint, old(chatHistory), inputText));
        response == Answer(reply) && chatHistory == old(chatHistory) + Exchange(inputText, reply)
    {
      response := Respond(inputText, None, "", llm);
    }
  }
}
