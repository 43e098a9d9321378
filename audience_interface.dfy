/** The audience side of the simulator: suggestions typed in (or canned), a vote among the
    moderator's candidates, and the constraint text handed to the victim. The keyboard is
    a sequence of input lines (end of sequence = end of input) and the simulated vote's
    random draw is a sequence of weights. */
module Audience {
  import opened Strings
  import opened Outcomes
  import opened Moderator
  import opened Seqs

  /** A selected event as recorded in the history (its clock timestamp is not modelled). */
  datatype AudienceEvent = AudienceEvent(event: string, description: string, votes: int)

  const StopWords: seq<string> := ["fin", "stop", "exit", ""]
  const WebNotImplemented: string := "Mode web pas encore implémenté"

  /** A stripped input line that ends the collection. */
  predicate IsStopWord(s: string)
    ensures s == [] ==> IsStopWord(s)
    ensures IsStopWord(s) ==> |s| <= 4
  {
    Lower(s) in StopWords
  }

  /** A typed line that ends the collection once stripped. */
  predicate IsStopLine(line: string)
  {
    IsStopWord(Strip(line))
  }

  /** The empty line is a stop line, so every collected suggestion is non-empty. */
  lemma EmptyIsStopWord()
    ensures IsStopWord([])
  {
    assert Lower([]) == StopWords[3];
  }

  // ---------------------------------------------------------------------------
  // Suggestions

  /** How many suggestions console collection keeps: the lines before the first stop
      line, at most `budget` of them. */
  function ConsoleCount(lines: seq<string>, budget: int): (k: nat)
    ensures k <= |lines| && k <= FirstWhere(IsStopLine, lines)
    ensures budget <= 0 ==> k == 0
    ensures budget > 0 ==> k <= budget
    ensures k < |lines| && k < budget ==> IsStopLine(lines[k])
  {
    var stop := FirstWhere(IsStopLine, lines);
    if budget <= 0 then 0 else if stop < budget then stop else budget
  }

  /** What console collection gathers from the lines typed: the stripped lines, in order,
      up to the first stop word, the end of input or `budget` lines, whichever is first. */
  function ConsoleSuggestions(lines: seq<string>, budget: int): (r: seq<string>)
    ensures |r| == ConsoleCount(lines, budget)
    ensures forall i :: 0 <= i < |r| ==> r[i] == Strip(lines[i]) && !IsStopWord(r[i]) && r[i] != []
  {
    EmptyIsStopWord();
    var k := ConsoleCount(lines, budget);
    seq(k, i requires 0 <= i < k => Strip(lines[i]))
  }

  /** How many lines console collection reads: the suggestions, plus the stop line if one
      was reached within the budget. */
  function ConsoleLinesRead(lines: seq<string>, budget: int): nat
  {
    var n := ConsoleCount(lines, budget);
    if n < |lines| && n < budget then n + 1 else n
  }

  /** Collection that meets a stop line at `i` keeps the `i` lines before it and reads
      one more. */
  lemma ConsoleStopsAt(lines: seq<string>, budget: int, i: nat)
    requires i < |lines| && i < budget && IsStopLine(lines[i])
    requires forall j :: 0 <= j < i ==> !IsStopLine(lines[j])
    ensures ConsoleCount(lines, budget) == i && ConsoleLinesRead(lines, budget) == i + 1
  {
    FirstWhereUnique(IsStopLine, lines, i);
  }

  /** Collection that reaches the end of input or its budget without a stop line keeps
      and reads every line it saw. */
  lemma ConsoleRunsOut(lines: seq<string>, budget: int, i: nat)
    requires i <= |lines| && (i == |lines| || i >= budget) && (budget > 0 ==> i <= budget)
    requires budget <= 0 ==> i == 0
    requires forall j :: 0 <= j < i ==> !IsStopLine(lines[j])
    ensures ConsoleCount(lines, budget) == i && ConsoleLinesRead(lines, budget) == i
  {
    if i == |lines| {
      FirstWhereUnique(IsStopLine, lines, i);
    }
  }

  /** The stripped first lines, as many as collection keeps, are what it returns. */
  lemma ConsoleSuggestionsAre(lines: seq<string>, budget: int, s: seq<string>)
    requires |s| == ConsoleCount(lines, budget)
    requires forall j :: 0 <= j < |s| ==> s[j] == Strip(lines[j])
    ensures s == ConsoleSuggestions(lines, budget)
  {
  }

  /** The canned suggestion number `i` of simulated mode. */
  function SimulatedSuggestion(i: nat): string
    requires i < 8
  {
    if i == 0 then "Le chien se met à aboyer comme un fou"
    else if i == 1 then "La sonnette retentit - c'est le facteur"
    else if i == 2 then "Jeanne renverse son café sur elle"
    else if i == 3 then "Le téléphone portable de Jeanne sonne"
    else if i == 4 then "Un voisin crie pour demander de l'aide"
    else if i == 5 then "La télévision se met en route toute seule"
    else if i == 6 then "Jeanne doit aller aux toilettes d'urgence"
    else "Le minuteur du four sonne"
  }

  /** The canned suggestions of simulated mode, in order. */
  function SimulatedSuggestions(): (r: seq<string>)
    ensures |r| == 8
  {
    seq(8, i requires 0 <= i < 8 => SimulatedSuggestion(i))
  }

  // ---------------------------------------------------------------------------
  // Votes

  /** A typed vote that picks one of `n` candidates: a digit string from 1 to `n`. */
  predicate ValidVote(line: string, n: int)
    ensures ValidVote(line, n) ==> n >= 1 && Strip(line) != []
  {
    IsDigits(Strip(line)) && 1 <= DigitsValue(Strip(line)) <= n
  }

  /** The candidate a valid vote picks, counted from 0. */
  function VoteIndex(line: string, n: int): (i: nat)
    requires ValidVote(line, n)
    ensures i < n
  {
    DigitsValue(Strip(line)) - 1
  }

  /** The index of the first valid vote among the typed lines, or `|lines|` if none. */
  function FirstValidVote(lines: seq<string>, n: int): (k: nat)
    ensures k <= |lines|
    ensures forall j :: 0 <= j < k ==> !ValidVote(lines[j], n)
    ensures k < |lines| ==> ValidVote(lines[k], n)
  {
    FirstWhere(line => ValidVote(line, n), lines)
  }

  /** A simulated draw: one weight per candidate, each from 10 to 100. */
  predicate Draw(weights: seq<int>, n: int)
  {
    |weights| == n && forall i :: 0 <= i < |weights| ==> 10 <= weights[i] <= 100
  }

  /** `votes.index(max(votes))`: the first index holding the largest weight. */
  function ArgMax(weights: seq<int>): (w: nat)
    requires |weights| > 0
    ensures w < |weights|
    ensures forall j :: 0 <= j < |weights| ==> weights[j] <= weights[w]
    ensures forall j :: 0 <= j < w ==> weights[j] < weights[w]
  {
    if |weights| == 1 then 0
    else
      var k := ArgMax(weights[..|weights| - 1]);
      if weights[|weights| - 1] > weights[k] then |weights| - 1 else k
  }

  /** The message of the `NotImplementedError` an unknown vote mode raises. */
  function VoteNotImplemented(voteMode: string): string
  {
    "Mode de vote '" + voteMode + "' pas encore implémenté"
  }

  /** The winner of a vote over `events`: in console mode the candidate of the first valid
      typed vote, or the first candidate when input runs out; in simulated mode the
      candidate with the first largest weight. */
  function VoteWinner(events: seq<Event>, voteMode: string, weights: seq<int>, input: seq<string>): (r: Result<Event>)
    requires voteMode == "simulated" ==> Draw(weights, |events|)
    ensures r.Ok? ==> r.value in events
    ensures r.Raised? <==> events == [] || (voteMode != "console" && voteMode != "simulated")
  {
    if voteMode == "console" then
      var k := FirstValidVote(input, |events|);
      if k < |input| then Ok(events[VoteIndex(input[k], |events|)])
      else if events == [] then Raised(NoCandidates)
      else Ok(events[0])
    else if voteMode == "simulated" then
      if events == [] then Raised(NoCandidates) else Ok(events[ArgMax(weights)])
    else
      Raised(NotImplemented(VoteNotImplemented(voteMode)))
  }

  /** How many typed lines a vote reads: up to and including the first valid vote. */
  function VoteLinesRead(events: seq<Event>, voteMode: string, input: seq<string>): (n: nat)
    ensures n <= |input|
    ensures voteMode != "console" ==> n == 0
  {
    if voteMode != "console" then 0
    else
      var k := FirstValidVote(input, |events|);
      if k < |input| then k + 1 else |input|
  }

  /** What a vote adds to the event history: the winner with its vote count, or nothing
      when no vote was cast. */
  function VoteRecord(events: seq<Event>, voteMode: string, weights: seq<int>, input: seq<string>): (r: seq<AudienceEvent>)
    requires voteMode == "simulated" ==> Draw(weights, |events|)
    ensures |r| <= 1
    ensures r != [] ==> VoteWinner(events, voteMode, weights, input) == Ok(Event(r[0].event, r[0].description))
    ensures r != [] ==> 1 <= r[0].votes <= 100
    ensures voteMode == "simulated" ==> (r != [] <==> events != [])
  {
    if voteMode == "console" then
      var k := FirstValidVote(input, |events|);
      if k < |input| then [Recorded(events[VoteIndex(input[k], |events|)], 1)] else []
    else if voteMode == "simulated" && events != [] then
      var w := ArgMax(weights);
      [Recorded(events[w], weights[w])]
    else []
  }

  // ---------------------------------------------------------------------------
  // The constraint handed to the victim

  const ConstraintHead: string := "ÉVÉNEMENT PERTURBATEUR (AUDIENCE):\n"
  const ConsequenceLabel: string := "\n\nConséquence: "
  const ConstraintTail: string :=
    "\n\nTu DOIS intégrer cet événement dans ta prochaine réponse de manière naturelle.\n" +
    "Utilise cet événement pour gagner du temps et déstabiliser l'arnaqueur."

  /** `get_event_constraint`: the fixed template with the label and the description
      inserted verbatim, ending with the two instruction lines. */
  function GetEventConstraint(e: Event): (r: string)
    ensures ConstraintHead <= r
    ensures OccursAt(r, e.event, |ConstraintHead|)
    ensures OccursAt(r, ConsequenceLabel, |ConstraintHead| + |e.event|)
    ensures OccursAt(r, e.description, |ConstraintHead| + |e.event| + |ConsequenceLabel|)
    ensures |r| >= |ConstraintTail| && r[|r| - |ConstraintTail|..] == ConstraintTail
    ensures |r| == |ConstraintHead| + |e.event| + |ConsequenceLabel| + |e.description| + |ConstraintTail|
    ensures Contains(r, e.event) && Contains(r, e.description)
  {
    var r := ConstraintHead + e.event + ConsequenceLabel + e.description + ConstraintTail;
    TemplateSlots(ConstraintHead, e.event, ConsequenceLabel, e.description, ConstraintTail, r);
    r
  }

  /** The constraint text determines the event, as long as its label is one line. */
  lemma ConstraintDeterminesEvent(e1: Event, e2: Event)
    requires '\n' !in e1.event && '\n' !in e2.event
    requires GetEventConstraint(e1) == GetEventConstraint(e2)
    ensures e1 == e2
  {
    assert ConsequenceLabel[0] == '\n';
    TemplateInjective(ConstraintHead, e1.event, e2.event, ConsequenceLabel,
      e1.description, e2.description, ConstraintTail, '\n');
  }

  // ---------------------------------------------------------------------------
  // The interface object

  class AudienceInterface {
    var mode: string
    var suggestionHistory: seq<string>
    var eventHistory: seq<AudienceEvent>

    /** A new interface in the given mode, with empty histories. */
    constructor (mode: string)
      ensures this.mode == mode && suggestionHistory == [] && eventHistory == []
    {
      this.mode := mode;
      suggestionHistory := [];
      eventHistory := [];
    }

    /** `collect_suggestions`: console collection, the canned list, or
        `NotImplementedError` for any other mode. Returns how many input lines it read. */
    method CollectSuggestions(maxSuggestions: int, input: seq<string>)
      returns (r: Result<seq<string>>, consumed: nat)
      modifies this
      ensures mode == old(mode) && eventHistory == old(eventHistory)
      ensures mode == "console" ==>
        r == Ok(ConsoleSuggestions(input, maxSuggestions)) &&
        consumed == ConsoleLinesRead(input, maxSuggestions) &&
        suggestionHistory == old(suggestionHistory) + r.value
      ensures mode == "simulated" ==>
        r == Ok(SimulatedSuggestions()) && consumed == 0 &&
        suggestionHistory == old(suggestionHistory)
      ensures mode != "console" && mode != "simulated" ==>
        r == Raised(NotImplemented(WebNotImplemented)) && consumed == 0 &&
        suggestionHistory == old(suggestionHistory)
    {
      if mode == "console" {
        var suggestions;
        suggestions, consumed := CollectConsoleSuggestions(maxSuggestions, input);
        r := Ok(suggestions);
      } else if mode == "simulated" {
        r, consumed := Ok(SimulatedSuggestions()), 0;
      } else {
        r, consumed := Raised(NotImplemented(WebNotImplemented)), 0;
      }
    }

    /** `_collect_console_suggestions`: reads up to `maxSuggestions` lines, stops at a stop
        word or at the end of input, and records every suggestion it keeps. */
    method CollectConsoleSuggestions(maxSuggestions: int, input: seq<string>)
      returns (suggestions: seq<string>, consumed: nat)
      modifies this
      ensures suggestions == ConsoleSuggestions(input, maxSuggestions)
      ensures consumed == ConsoleLinesRead(input, maxSuggestions) && consumed <= |input|
      ensures suggestionHistory == old(suggestionHistory) + suggestions
      ensures mode == old(mode) && eventHistory == old(eventHistory)
    {
      suggestions := [];
      var i := 0;
      while i < maxSuggestions
        invariant 0 <= i == |suggestions| <= |input|
        invariant i <= maxSuggestions || i == 0
        invariant forall j :: 0 <= j < i ==> suggestions[j] == Strip(input[j])
        invariant forall j :: 0 <= j < i ==> !IsStopLine(input[j])
        invariant suggestionHistory == old(suggestionHistory) + suggestions
        invariant mode == old(mode) && eventHistory == old(eventHistory)
      {
        if i == |input| {
          break;  // end of input
        }
        var suggestion, stop := ReadSuggestion(input[i]);
        if stop {
          ConsoleStopsAt(input, maxSuggestions, i);
          ConsoleSuggestionsAre(input, maxSuggestions, suggestions);
          return suggestions, i + 1;
        }
        // The source also tests `if suggestion:`, which always holds here: the empty
        // string is a stop word.
        suggestions := suggestions + [suggestion];
        suggestionHistory := suggestionHistory + [suggestion];
        i := i + 1;
      }
      ConsoleRunsOut(input, maxSuggestions, i);
      ConsoleSuggestionsAre(input, maxSuggestions, suggestions);
      consumed := i;
    }

    /** `conduct_vote`: the console or the simulated vote, or `NotImplementedError`. */
    method ConductVote(events: seq<Event>, voteMode: string, weights: seq<int>, input: seq<string>)
      returns (r: Result<Event>, consumed: nat)
      requires voteMode == "simulated" ==> Draw(weights, |events|)
      modifies this
      ensures r == VoteWinner(events, voteMode, weights, input)
      ensures consumed == VoteLinesRead(events, voteMode, input)
      ensures eventHistory == old(eventHistory) + VoteRecord(events, voteMode, weights, input)
      ensures mode == old(mode) && suggestionHistory == old(suggestionHistory)
    {
      if voteMode == "console" {
        r, consumed := VoteConsole(events, input);
      } else if voteMode == "simulated" {
        r := VoteSimulated(events, weights);
        consumed := 0;
      } else {
        r := Raised(NotImplemented(VoteNotImplemented(voteMode)));
        consumed := 0;
      }
    }

    /** `_vote_console`: skips every line that is not a valid vote; the first valid vote
        wins and is recorded with one vote; at the end of input the first candidate wins
        and nothing is recorded. */
    method VoteConsole(events: seq<Event>, input: seq<string>) returns (r: Result<Event>, consumed: nat)
      modifies this
      ensures r == VoteWinner(events, "console", [], input)
      ensures consumed == VoteLinesRead(events, "console", input)
      ensures eventHistory == old(eventHistory) + VoteRecord(events, "console", [], input)
      ensures mode == old(mode) && suggestionHistory == old(suggestionHistory)
    {
      var k := 0;
      while k < |input|
        invariant 0 <= k <= |input|
        invariant forall j :: 0 <= j < k ==> !ValidVote(input[j], |events|)
        invariant mode == old(mode) && suggestionHistory == old(suggestionHistory)
        invariant eventHistory == old(eventHistory)
      {
        var valid, index := ReadVote(input[k], |events|);
        if valid {
          var winner := events[index];
          eventHistory := eventHistory + [Recorded(winner, 1)];
          assert FirstValidVote(input, |events|) == k;
          return Ok(winner), k + 1;
        }
        k := k + 1;
      }
      if events == [] {
        return Raised(NoCandidates), |input|;
      }
      return Ok(events[0]), |input|;
    }

    /** `_vote_simulated`: the candidate with the first largest weight wins and is recorded
        with that weight as its vote count. */
    method VoteSimulated(events: seq<Event>, weights: seq<int>) returns (r: Result<Event>)
      requires Draw(weights, |events|)
      modifies this
      ensures r == VoteWinner(events, "simulated", weights, [])
      ensures eventHistory == old(eventHistory) + VoteRecord(events, "simulated", weights, [])
      ensures mode == old(mode) && suggestionHistory == old(suggestionHistory)
    {
      if events == [] {
        return Raised(NoCandidates);
      }
      var w := ArgMax(weights);
      var winner := events[w];
      eventHistory := eventHistory + [Recorded(winner, weights[w])];
      return Ok(winner);
    }
  }

  /** One typed line of the collection: the stripped suggestion, and whether it ends the
      collection. */
  method ReadSuggestion(line: string) returns (suggestion: string, stop: bool)
    ensures suggestion == Strip(line) && stop == IsStopLine(line)
  {
    suggestion := Strip(line);
    stop := IsStopWord(suggestion);
  }

  /** One typed line of the vote: whether it is a valid vote, and the candidate it picks. */
  method ReadVote(line: string, n: int) returns (valid: bool, index: nat)
    ensures valid == ValidVote(line, n)
    ensures valid ==> index == VoteIndex(line, n) && index < n
  {
    var choice := Strip(line);
    valid := IsDigits(choice) && 1 <= DigitsValue(choice) <= n;
    index := if valid then DigitsValue(choice) - 1 else 0;
  }

  /** The history record of a winning event. */
  function Recorded(e: Event, votes: int): AudienceEvent
  {
    AudienceEvent(e.event, e.description, votes)
  }

  /** A simulated vote is never lost: the winner's weight is the largest drawn, so the
      recorded vote count is from 10 to 100. */
  lemma SimulatedVoteCount(weights: seq<int>, n: int)
    requires n > 0 && Draw(weights, n)
    ensures 10 <= weights[ArgMax(weights)] <= 100
    ensures forall j :: 0 <= j < n ==> weights[j] <= weights[ArgMax(weights)]
  {
  }
}
