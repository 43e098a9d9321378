/** The audience event manager: counts turns, and every `voteFrequency`-th turn runs a
    round (collect suggestions, have the moderator pick candidates, vote) whose winner
    becomes the constraint handed to the victim. The moderator's model reply, the
    simulated draw and the typed lines are parameters. */
module AudienceEvents {
  import opened Outcomes
  import opened Moderator
  import opened Audience

  /** How many suggestions a round asks the interface for. */
  const MaxSuggestions: int := 10

  // ---------------------------------------------------------------------------
  // Turn counting

  /** `turn_counter % vote_frequency == 0`: the answer of the trigger test on the turn
      numbered `counter`. Python's `%` by zero raises; for a negative frequency Python's
      remainder is zero exactly when Dafny's is. */
  function Triggered(counter: int, frequency: int): (r: Result<bool>)
    ensures frequency == 0 <==> r == Raised(ZeroDivision)
    ensures frequency > 0 && counter > 0 ==> (r == Ok(true) ==> counter >= frequency)
  {
    if frequency == 0 then Raised(ZeroDivision) else Ok(counter % frequency == 0)
  }

  /** How many of the turns numbered 1 to `n` trigger a round. */
  function TriggerCount(n: nat, frequency: int): (count: nat)
    requires frequency > 0
    ensures count <= n
  {
    if n == 0 then 0
    else TriggerCount(n - 1, frequency) + if Triggered(n, frequency) == Ok(true) then 1 else 0
  }

  lemma {:induction false} MulAtLeast(d: int, f: int)
    requires d >= 1 && f > 0
    ensures d * f >= f
  {
    if d > 1 {
      MulAtLeast(d - 1, f);
      assert d * f == (d - 1) * f + f;
    }
  }

  /** The only multiple of `f` strictly between `-f` and `f` is zero. */
  lemma MultipleInRange(d: int, f: int)
    requires f > 0 && -f < d * f < f
    ensures d == 0
  {
    if d >= 1 {
      MulAtLeast(d, f);
    } else if d <= -1 {
      MulAtLeast(-d, f);
    }
  }

  /** Division is determined by quotient and remainder. */
  lemma DivisionUnique(n: int, f: int, q: int, r: int)
    requires f > 0 && 0 <= r < f && n == q * f + r
    ensures n / f == q && n % f == r
  {
    assert (q - n / f) * f == n % f - r;
    MultipleInRange(q - n / f, f);
  }

  /** Turn `q * f + r` (with `r < f`) closes `q` full periods of `f` turns. */
  lemma {:induction false} TriggerCountAt(q: nat, r: nat, frequency: int)
    requires frequency > 0 && r < frequency
    ensures TriggerCount(q * frequency + r, frequency) == q
    decreases q * frequency + r
  {
    var n := q * frequency + r;
    if r > 0 {
      TriggerCountAt(q, r - 1, frequency);
      DivisionUnique(n, frequency, q, r);
    } else if q > 0 {
      assert n - 1 == (q - 1) * frequency + (frequency - 1);
      TriggerCountAt(q - 1, frequency - 1, frequency);
      DivisionUnique(n, frequency, q, 0);
    }
  }

  /** With a positive frequency `f`, the first `n` turns trigger exactly `n / f` rounds:
      one every `f` turns, starting with turn `f`. */
  lemma TriggerCountIsQuotient(n: nat, frequency: int)
    requires frequency > 0
    ensures TriggerCount(n, frequency) == n / frequency
  {
    var q, r := n / frequency, n % frequency;
    assert q * frequency + r == n;
    TriggerCountAt(q, r, frequency);
  }

  // ---------------------------------------------------------------------------
  // One round, as functions of its inputs

  /** A simulated draw wide enough for any candidate list: at least three weights, each
      from 10 to 100 (`random.randint(10, 100)` per candidate). */
  predicate DrawPool(draws: seq<int>)
  {
    |draws| >= 3 && forall i :: 0 <= i < |draws| ==> 10 <= draws[i] <= 100
  }

  /** The weights drawn for `n` candidates: the first `n` draws. */
  function Weights(draws: seq<int>, n: nat): (w: seq<int>)
    requires DrawPool(draws) && n <= 3
    ensures Draw(w, n) && w == draws[..n]
  {
    draws[..n]
  }

  /** The suggestions a round gathers: none in mode "none", else what the interface
      collects once switched to that mode (up to ten typed lines, the canned list, or
      `NotImplementedError`). */
  function RoundSuggestions(collectMode: string, input: seq<string>): (r: Result<seq<string>>)
    ensures collectMode == "none" ==> r == Ok([])
    ensures r.Ok? ==> |r.value| <= MaxSuggestions
    ensures r.Raised? <==> collectMode !in ["none", "console", "simulated"]
  {
    if collectMode == "none" then Ok([])
    else if collectMode == "console" then Ok(ConsoleSuggestions(input, MaxSuggestions))
    else if collectMode == "simulated" then Ok(SimulatedSuggestions())
    else Raised(NotImplemented(WebNotImplemented))
  }

  /** How many typed lines the collection step reads. */
  function SuggestionLinesRead(collectMode: string, input: seq<string>): (n: nat)
    ensures n <= |input|
  {
    if collectMode == "console" then ConsoleLinesRead(input, MaxSuggestions) else 0
  }

  /** The candidates put to the vote: the moderator's three picks among the suggestions,
      or the fallback events when there is no suggestion. Either way the selection fails
      exactly when the model gives no reply, and otherwise holds one to three events. */
  function Candidates(suggestions: seq<string>, reply: Option<string>): (r: Result<seq<Event>>)
    ensures r.Raised? <==> reply.None?
    ensures r.Raised? ==> r == Raised(LlmUnavailable)
    ensures r.Ok? ==> 1 <= |r.value| <= 3
    ensures suggestions != [] && r.Ok? ==> |r.value| == 3
  {
    if suggestions != [] then FilterAndSelect(suggestions, reply) else GenerateFallbackEvents(reply)
  }

  /** What a round comes to: the winning event or the failure that ends it, what it adds
      to the interface's event history, and how many typed lines it reads. */
  datatype RoundOutcome = RoundOutcome(winner: Result<Event>, record: seq<AudienceEvent>, linesRead: nat)

  /** The selection and the vote of a round, over the suggestions collected and the
      typed lines left unread. */
  function Ballot(suggestions: seq<string>, voteMode: string, reply: Option<string>,
                  draws: seq<int>, rest: seq<string>): (o: RoundOutcome)
    requires voteMode == "simulated" ==> DrawPool(draws)
    ensures |o.record| <= 1 && o.linesRead <= |rest|
    ensures o.winner.Raised? ==> o.record == []
  {
    var candidates := Candidates(suggestions, reply);
    if candidates.Raised? then RoundOutcome(Raised(candidates.failure), [], 0)
    else
      var events := candidates.value;
      var weights := if voteMode == "simulated" then Weights(draws, |events|) else [];
      RoundOutcome(VoteWinner(events, voteMode, weights, rest),
                   VoteRecord(events, voteMode, weights, rest),
                   VoteLinesRead(events, voteMode, rest))
  }

  /** A round as a function of its inputs: collection, then selection and vote over the
      lines the collection left unread. */
  function Round(collectMode: string, voteMode: string, reply: Option<string>,
                 draws: seq<int>, input: seq<string>): (o: RoundOutcome)
    requires voteMode == "simulated" ==> DrawPool(draws)
    ensures |o.record| <= 1 && o.linesRead <= |input|
    ensures o.winner.Raised? ==> o.record == []
  {
    var read := SuggestionLinesRead(collectMode, input);
    var collected := RoundSuggestions(collectMode, input);
    if collected.Raised? then RoundOutcome(Raised(collected.failure), [], read)
    else
      var o := Ballot(collected.value, voteMode, reply, draws, input[read..]);
      RoundOutcome(o.winner, o.record, read + o.linesRead)
  }

  /** The winner of a round is one of the candidates the moderator selected. */
  lemma RoundWinnerIsCandidate(collectMode: string, voteMode: string, reply: Option<string>,
                               draws: seq<int>, input: seq<string>)
    requires voteMode == "simulated" ==> DrawPool(draws)
    requires Round(collectMode, voteMode, reply, draws, input).winner.Ok?
    ensures RoundSuggestions(collectMode, input).Ok?
    ensures Candidates(RoundSuggestions(collectMode, input).value, reply).Ok?
    ensures Round(collectMode, voteMode, reply, draws, input).winner.value in
      Candidates(RoundSuggestions(collectMode, input).value, reply).value
  {
  }

  /** A round fails exactly when the collection mode is unknown, the model gives no reply
      or the vote mode is unknown: the candidate list is never empty. */
  lemma RoundFails(collectMode: string, voteMode: string, reply: Option<string>,
                   draws: seq<int>, input: seq<string>)
    requires voteMode == "simulated" ==> DrawPool(draws)
    ensures Round(collectMode, voteMode, reply, draws, input).winner.Raised? <==>
      collectMode !in ["none", "console", "simulated"] || reply.None? ||
      (voteMode != "console" && voteMode != "simulated")
  {
  }

  /** The rounds the simulator runs (canned suggestions, simulated vote) succeed whenever
      the model replies, and the candidate with the first largest of the first three
      draws wins. */
  lemma SimulatedRound(reply: Option<string>, draws: seq<int>, input: seq<string>)
    requires DrawPool(draws) && reply.Some?
    ensures var candidates := Candidates(SimulatedSuggestions(), reply).value;
      Round("simulated", "simulated", reply, draws, input).winner == Ok(candidates[ArgMax(draws[..3])])
  {
  }

  // ---------------------------------------------------------------------------
  // The manager object

  /** `get_statistics`: turns counted, suggestions and events recorded, last winner. */
  datatype Statistics = Statistics(totalTurns: int, totalSuggestions: nat, totalEvents: nat,
                                   lastEvent: Option<Event>)

  class AudienceEventManager {
    const interface: AudienceInterface
    const voteFrequency: int
    var turnCounter: int
    var currentConstraint: Option<string>
    var lastEvent: Option<Event>

    /** A manager over an interface, with no turn counted and no constraint. */
    constructor (interface: AudienceInterface, voteFrequency: int)
      ensures this.interface == interface && this.voteFrequency == voteFrequency
      ensures turnCounter == 0 && currentConstraint == None && lastEvent == None
    {
      this.interface := interface;
      this.voteFrequency := voteFrequency;
      turnCounter := 0;
      currentConstraint := None;
      lastEvent := None;
    }

    /** `should_trigger_audience`: counts the turn, then tests it against the frequency. */
    method ShouldTriggerAudience() returns (r: Result<bool>)
      modifies this
      ensures turnCounter == old(turnCounter) + 1
      ensures r == Triggered(turnCounter, voteFrequency)
      ensures currentConstraint == old(currentConstraint) && lastEvent == old(lastEvent)
    {
      turnCounter := turnCounter + 1;
      if voteFrequency == 0 {
        return Raised(ZeroDivision);
      }
      return Ok(turnCounter % voteFrequency == 0);
    }

    /** `process_audience_round`: switches the interface to the collection mode (unless
        it is "none") and collects up to ten suggestions, has the moderator select the
        candidates (or fall back when there is no suggestion), runs the vote, and makes
        the winner the current constraint. A failure propagates and leaves the
        constraint and the last event as they were. */
    method ProcessAudienceRound(collectMode: string, voteMode: string, reply: Option<string>,
                                draws: seq<int>, input: seq<string>)
      returns (r: Result<string>, consumed: nat)
      requires voteMode == "simulated" ==> DrawPool(draws)
      modifies this, interface
      ensures turnCounter == old(turnCounter)
      ensures interface.mode == if collectMode == "none" then old(interface.mode) else collectMode
      ensures Round(collectMode, voteMode, reply, draws, input).winner.Ok? ==> (
        var winner := Round(collectMode, voteMode, reply, draws, input).winner.value;
        r == Ok(GetEventConstraint(winner)) &&
        currentConstraint == Some(r.value) && lastEvent == Some(winner))
      ensures Round(collectMode, voteMode, reply, draws, input).winner.Raised? ==> (
        r == Raised(Round(collectMode, voteMode, reply, draws, input).winner.failure) &&
        currentConstraint == old(currentConstraint) && lastEvent == old(lastEvent))
      ensures interface.suggestionHistory == old(interface.suggestionHistory) +
        (if collectMode == "console" then ConsoleSuggestions(input, MaxSuggestions) else [])
      ensures interface.eventHistory == old(interface.eventHistory) +
        Round(collectMode, voteMode, reply, draws, input).record
      ensures consumed == Round(collectMode, voteMode, reply, draws, input).linesRead
    {
      var collected;
      collected, consumed := CollectStep(collectMode, input);
      if collected.Raised? {
        return Raised(collected.failure), consumed;
      }
      var read;
      r, read := SelectAndVote(collected.value, voteMode, reply, draws, input[consumed..]);
      consumed := consumed + read;
    }

    /** The selection and the vote of a round: the moderator's candidates are put to the
        vote, and the winner becomes the current constraint. */
    method SelectAndVote(suggestions: seq<string>, voteMode: string, reply: Option<string>,
                         draws: seq<int>, rest: seq<string>)
      returns (r: Result<string>, read: nat)
      requires voteMode == "simulated" ==> DrawPool(draws)
      modifies this, interface
      ensures turnCounter == old(turnCounter)
      ensures interface.mode == old(interface.mode)
      ensures interface.suggestionHistory == old(interface.suggestionHistory)
      ensures Ballot(suggestions, voteMode, reply, draws, rest).winner.Ok? ==> (
        var winner := Ballot(suggestions, voteMode, reply, draws, rest).winner.value;
        r == Ok(GetEventConstraint(winner)) &&
        currentConstraint == Some(r.value) && lastEvent == Some(winner))
      ensures Ballot(suggestions, voteMode, reply, draws, rest).winner.Raised? ==> (
        r == Raised(Ballot(suggestions, voteMode, reply, draws, rest).winner.failure) &&
        currentConstraint == old(currentConstraint) && lastEvent == old(lastEvent))
      ensures interface.eventHistory == old(interface.eventHistory) +
        Ballot(suggestions, voteMode, reply, draws, rest).record
      ensures read == Ballot(suggestions, voteMode, reply, draws, rest).linesRead
    {
      var candidates := Candidates(suggestions, reply);
      if candidates.Raised? {
        return Raised(candidates.failure), 0;
      }
      var events := candidates.value;
      var weights := if voteMode == "simulated" then Weights(draws, |events|) else [];
      var winner;
      winner, read := interface.ConductVote(events, voteMode, weights, rest);
      if winner.Raised? {
        return Raised(winner.failure), read;
      }
      currentConstraint := Some(GetEventConstraint(winner.value));
      lastEvent := Some(winner.value);
      r := Ok(currentConstraint.value);
    }

    /** The collection step of a round: nothing in mode "none", otherwise the interface
        switched to `collectMode` collects up to ten suggestions. */
    method CollectStep(collectMode: string, input: seq<string>)
      returns (collected: Result<seq<string>>, consumed: nat)
      modifies interface
      ensures collected == RoundSuggestions(collectMode, input)
      ensures consumed == SuggestionLinesRead(collectMode, input)
      ensures interface.mode == if collectMode == "none" then old(interface.mode) else collectMode
      ensures interface.suggestionHistory == old(interface.suggestionHistory) +
        (if collectMode == "console" then ConsoleSuggestions(input, MaxSuggestions) else [])
      ensures interface.eventHistory == old(interface.eventHistory)
    {
      if collectMode == "none" {
        return Ok([]), 0;
      }
      interface.mode := collectMode;
      collected, consumed := interface.CollectSuggestions(MaxSuggestions, input);
    }

    /** `get_current_constraint`. */
    function GetCurrentConstraint(): Option<string>
      reads this
    {
      currentConstraint
    }

    /** `clear_constraint`: drops the constraint and nothing else. */
    method ClearConstraint()
      modifies this
      ensures GetCurrentConstraint() == None
      ensures turnCounter == old(turnCounter) && lastEvent == old(lastEvent)
    {
      currentConstraint := None;
    }

    /** `get_statistics`. */
    function GetStatistics(): Statistics
      reads this, interface
    {
      Statistics(turnCounter, |interface.suggestionHistory|, |interface.eventHistory|, lastEvent)
    }

    /** `reset`: restarts the turn count and forgets the constraint and the last event;
        the interface keeps its histories, so the statistics keep their totals. */
    method Reset()
      modifies this
      ensures GetStatistics() == Statistics(0, old(GetStatistics().totalSuggestions),
                                            old(GetStatistics().totalEvents), None)
      ensures GetCurrentConstraint() == None
    {
      turnCounter := 0;
      currentConstraint := None;
      lastEvent := None;
    }
  }
}
