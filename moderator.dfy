/** The audience moderator: turns the language model's numbered-list reply into disruptive
    events and guarantees the vote a fixed number of candidates. The model's reply is an
    input (`None` when the call raised; the source does not catch that). */
module Moderator {
  import opened Strings
  import opened Outcomes
  import opened Seqs

  /** `{'event': ..., 'description': ...}`. */
  datatype Event = Event(event: string, description: string)

  const NoDescription: string := "Événement perturbateur"
  const Brackets: set<char> := {'[', ']'}

  /** The fixed event number `i` of `_get_default_events`. */
  function DefaultEvent(i: nat): Event
    requires i < 3
  {
    if i == 0 then
      Event("Poupoune (le chien) aboie à la porte",
            "Le chien devient insistant et Jeanne doit aller le calmer")
    else if i == 1 then
      Event("La sonnette retentit", "Quelqu'un est à la porte (facteur ou livreur)")
    else
      Event("Jeanne a une quinte de toux", "Elle doit s'excuser et prendre un verre d'eau")
  }

  /** `_get_default_events`: the three fixed events, the dog first. */
  function DefaultEvents(): (r: seq<Event>)
    ensures |r| == 3
    ensures "Poupoune" <= r[0].event
    ensures r[0] != r[1] && r[1] != r[2] && r[0] != r[2]
  {
    seq(3, i requires 0 <= i < 3 => DefaultEvent(i))
  }

  function Bulleted(suggestions: seq<string>): (r: seq<string>)
    ensures |r| == |suggestions|
    ensures forall i :: 0 <= i < |r| ==> r[i] == "- " + suggestions[i]
  {
    seq(|suggestions|, i requires 0 <= i < |suggestions| => "- " + suggestions[i])
  }

  /** `_format_suggestions`: one "- " line per suggestion. */
  function FormatSuggestions(suggestions: seq<string>): (block: string)
    ensures suggestions == [] ==> block == ""
    ensures forall i :: 0 <= i < |suggestions| ==> Contains(block, "- " + suggestions[i])
  {
    JoinContainsParts(Bulleted(suggestions), "\n");
    Join(Bulleted(suggestions), "\n")
  }

  /** Reading the formatted block back line by line gives each suggestion with its "- "
      prefix, in order, provided no suggestion spans several lines. */
  lemma FormatSuggestionsLines(suggestions: seq<string>)
    requires |suggestions| > 0
    requires forall i :: 0 <= i < |suggestions| ==> '\n' !in suggestions[i]
    ensures Split(FormatSuggestions(suggestions), '\n') == Bulleted(suggestions)
  {
    var lines := Bulleted(suggestions);
    forall i | 0 <= i < |lines|
      ensures '\n' !in lines[i]
    {
      assert lines[i] == "- " + suggestions[i];
    }
    SplitJoin(lines, '\n');
  }

  // ---------------------------------------------------------------------------
  // Parsing the reply

  /** A line the parser keeps: non-blank once stripped and starting with a digit. */
  predicate Kept(line: string)
    ensures Kept(line) <==> exists k :: 0 <= k < |line| && IsDigit(line[k]) && AllSpace(line[..k])
  {
    StripFirst(line);
    Strip(line) != [] && IsDigit(Strip(line)[0])
  }

  /** The line without its leading number: what follows the first '.', stripped, or the
      whole stripped line when it has no '.'. */
  function Body(line: string): (body: string)
    ensures |body| <= |line|
    ensures '.' in Strip(line) ==> |body| < |Strip(line)|
    ensures body != [] ==> !IsSpace(body[0]) && !IsSpace(body[|body| - 1])
  {
    var s := Strip(line);
    if '.' in s then Strip(AfterFirst(s, '.')) else s
  }

  /** The event one reply line yields, if any. */
  function ParseLine(line: string): (e: Option<Event>)
    ensures e.Some? <==> Kept(line)
  {
    if !Kept(line) then None
    else
      var body := Body(line);
      if '-' in body then
        Some(Event(StripChars(Strip(BeforeFirst(body, '-')), Brackets), Strip(AfterFirst(body, '-'))))
      else Some(Event(body, NoDescription))
  }

  /** The events one line contributes: its event when kept, none otherwise. */
  function LineEvents(line: string): (r: seq<Event>)
    ensures |r| <= 1
    ensures forall e :: e in r <==> ParseLine(line) == Some(e)
  {
    match ParseLine(line)
    case Some(e) => [e]
    case None => []
  }

  lemma LineEventsOfNone(line: string)
    requires !Kept(line)
    ensures LineEvents(line) == []
  {
  }

  lemma LineEventsOfSome(line: string, e: Event)
    requires ParseLine(line) == Some(e)
    ensures LineEvents(line) == [e]
  {
  }

  /** The events of a sequence of lines, one per kept line, in order. */
  function ParsedEvents(lines: seq<string>): (events: seq<Event>)
    ensures forall e :: e in events ==> exists k :: 0 <= k < |lines| && ParseLine(lines[k]) == Some(e)
  {
    FlatMapFrom(LineEvents, lines);
    FlatMap(LineEvents, lines)
  }

  /** Parsing distributes over concatenation: each line is parsed on its own and the
      results keep the order of the lines. */
  lemma ParsedEventsAppend(a: seq<string>, b: seq<string>)
    ensures ParsedEvents(a + b) == ParsedEvents(a) + ParsedEvents(b)
  {
    FlatMapAppend(LineEvents, a, b);
  }

  /** A reply never yields more events than it has lines. */
  lemma ParsedEventsBound(lines: seq<string>)
    ensures |ParsedEvents(lines)| <= |lines|
  {
    FlatMapBound(LineEvents, lines);
  }

  /** The lines `_parse_response` walks: the reply stripped, then split on newlines. */
  function ResponseLines(response: string): seq<string>
  {
    Split(Strip(response), '\n')
  }

  /** `_parse_response`: walks the lines and appends one event per kept line. */
  method ParseResponse(response: string) returns (events: seq<Event>)
    ensures events == ParsedEvents(ResponseLines(response))
  {
    events := [];
    var lines := ResponseLines(response);
    var k := 0;
    while k < |lines|
      invariant 0 <= k <= |lines|
      invariant events == ParsedEvents(lines[..k])
    {
      assert lines[..k + 1][..k] == lines[..k];
      assert ParsedEvents(lines[..k + 1]) == ParsedEvents(lines[..k]) + LineEvents(lines[k]);
      var parsed := ParseOne(lines[k]);
      if parsed.Some? {
        LineEventsOfSome(lines[k], parsed.value);
        events := events + [parsed.value];
      } else {
        LineEventsOfNone(lines[k]);
      }
      k := k + 1;
    }
    assert lines[..|lines|] == lines;
  }

  /** One pass of `_parse_response`'s loop: the event of one raw line, if any. */
  method ParseOne(raw: string) returns (parsed: Option<Event>)
    ensures parsed == ParseLine(raw)
  {
    var line := Strip(raw);
    if line == [] || !IsDigit(line[0]) {
      return None;
    }
    line := if '.' in line then Strip(AfterFirst(line, '.')) else line;
    if '-' in line {
      var event := StripChars(Strip(BeforeFirst(line, '-')), Brackets);
      var description := Strip(AfterFirst(line, '-'));
      return Some(Event(event, description));
    }
    return Some(Event(line, NoDescription));
  }

  // ---------------------------------------------------------------------------
  // The reply format round trip

  lemma StripUnchanged(s: string)
    requires s != [] && !IsSpace(s[0]) && !IsSpace(s[|s| - 1])
    ensures Strip(s) == s
  {
  }

  lemma StripLeadingSpace(s: string)
    requires s != [] && !IsSpace(s[0]) && !IsSpace(s[|s| - 1])
    ensures Strip(" " + s) == s
  {
    assert (" " + s)[1..] == s;
  }

  lemma StripTrailingSpace(s: string)
    requires s != [] && !IsSpace(s[0]) && !IsSpace(s[|s| - 1])
    ensures Strip(s + " ") == s
  {
    assert (s + " ")[..|s|] == s;
  }

  /** `strip('[]')` removes exactly the brackets around a label that neither starts nor
      ends with a bracket. */
  lemma StripBrackets(name: string)
    requires name == [] || (name[0] !in Brackets && name[|name| - 1] !in Brackets)
    ensures StripChars("[" + name + "]", Brackets) == name
  {
    var t := name + "]";
    assert ("[" + name + "]")[1..] == t;
    assert StripChars("[" + name + "]", Brackets) == StripChars(t, Brackets);
    if name == [] {
      assert t[..0] == [];
    } else {
      assert t[0] == name[0];
      assert t[..|t| - 1] == name;
      assert StripChars(t, Brackets) == StripChars(name, Brackets);
    }
  }

  /** An event the model can write in the requested format and have read back: a label
      without dashes or newlines that neither starts nor ends with a bracket, and a
      one-line description without surrounding blanks. */
  predicate Printable(e: Event)
  {
    '-' !in e.event && '\n' !in e.event && '\n' !in e.description &&
    (e.event == [] || (e.event[0] !in Brackets && e.event[|e.event| - 1] !in Brackets)) &&
    e.description != [] && !IsSpace(e.description[0]) &&
    !IsSpace(e.description[|e.description| - 1])
  }

  /** The line format the moderator asks the model for: "N. [label] - description". */
  function EventLine(number: string, e: Event): string
  {
    number + ". [" + e.event + "] - " + e.description
  }

  /** A numbered line loses its number, its dot and the blank after it. */
  lemma NumberedBody(number: string, body: string)
    requires IsDigits(number)
    requires body != [] && !IsSpace(body[0]) && !IsSpace(body[|body| - 1])
    ensures Kept(number + ". " + body) && Body(number + ". " + body) == body
  {
    var line := number + ". " + body;
    var rest := " " + body;
    assert line == number + "." + rest;
    StripUnchanged(line);
    assert '.' !in number;
    FirstIndexAfter(number, '.', rest);
    StripLeadingSpace(body);
  }

  /** "[label] - description" splits at its first dash into the label and the
      description. */
  lemma DashedBody(e: Event)
    requires Printable(e)
    ensures var body := "[" + e.event + "] - " + e.description;
      '-' in body &&
      StripChars(Strip(BeforeFirst(body, '-')), Brackets) == e.event &&
      Strip(AfterFirst(body, '-')) == e.description
  {
    var bracketed := "[" + e.event + "]";
    var head := bracketed + " ";
    var tail := " " + e.description;
    var body := "[" + e.event + "] - " + e.description;
    assert body == head + ['-'] + tail;
    assert '-' !in head;
    CutAt(head, '-', tail);
    assert BeforeFirst(body, '-') == head;
    assert AfterFirst(body, '-') == tail;
    StripTrailingSpace(bracketed);
    StripBrackets(e.event);
    StripLeadingSpace(e.description);
  }

  /** A line in the requested format parses back to the event it was written from. */
  lemma EventLineRoundTrip(number: string, e: Event)
    requires IsDigits(number) && Printable(e)
    ensures ParseLine(EventLine(number, e)) == Some(e)
  {
    var body := "[" + e.event + "] - " + e.description;
    assert EventLine(number, e) == number + ". " + body;
    NumberedBody(number, body);
    DashedBody(e);
  }

  /** A numbered line without a dash gives its text as the label and the fixed
      description. */
  lemma NoDashLine(number: string, name: string)
    requires IsDigits(number)
    requires name != [] && !IsSpace(name[0]) && !IsSpace(name[|name| - 1])
    requires '-' !in name
    ensures ParseLine(number + ". " + name) == Some(Event(name, NoDescription))
  {
    NumberedBody(number, name);
  }

  /** The unbracketed form "N. label - description" also parses back to its event, when
      the label has no blank at either end. */
  lemma PlainLineRoundTrip(number: string, e: Event)
    requires IsDigits(number) && Printable(e)
    requires e.event != [] && !IsSpace(e.event[0]) && !IsSpace(e.event[|e.event| - 1])
    ensures ParseLine(number + ". " + e.event + " - " + e.description) == Some(e)
  {
    var head := e.event + " ";
    var tail := " " + e.description;
    var body := head + ['-'] + tail;
    assert number + ". " + e.event + " - " + e.description == number + ". " + body;
    assert body[0] == e.event[0] && body[|body| - 1] == e.description[|e.description| - 1];
    NumberedBody(number, body);
    assert '-' !in head;
    CutAt(head, '-', tail);
    StripTrailingSpace(e.event);
    assert StripChars(e.event, Brackets) == e.event;
    StripLeadingSpace(e.description);
  }

  /** The event of the first line of the reply in tests/test_audience_system.py. */
  lemma DogEventPrintable(e: Event)
    requires e == Event("Le chien aboie", "Il demande à sortir")
    ensures Printable(e)
  {
    DogEventChars(e.event, e.description);
  }

  lemma DogEventChars(event: string, description: string)
    requires event == "Le chien aboie" && description == "Il demande à sortir"
    ensures '-' !in event && '\n' !in event && '\n' !in description
    ensures event[0] == 'L' && event[|event| - 1] == 'e'
    ensures description[0] == 'I' && description[|description| - 1] == 'r'
  {
  }

  /** The first line of that reply parses to the event the test expects. */
  lemma DogLineParses(line: string, e: Event)
    requires line == "1. Le chien aboie - Il demande à sortir"
    requires e == Event("Le chien aboie", "Il demande à sortir")
    ensures ParseLine(line) == Some(e)
  {
    assert IsDigits("1");
    DogEventPrintable(e);
    PlainLineRoundTrip("1", e);
    DogLineText(line, e.event, e.description);
  }

  lemma DogLineText(line: string, event: string, description: string)
    requires line == "1. Le chien aboie - Il demande à sortir"
    requires event == "Le chien aboie" && description == "Il demande à sortir"
    ensures "1" + ". " + event + " - " + description == line
  {
  }

  /** The lines of a reply listing `events` under the given numbers. */
  function EventLines(numbers: seq<string>, events: seq<Event>): (lines: seq<string>)
    requires |numbers| == |events|
    ensures |lines| == |events|
  {
    seq(|events|, i requires 0 <= i < |events| => EventLine(numbers[i], events[i]))
  }

  lemma EventLinesParse(numbers: seq<string>, events: seq<Event>)
    requires |numbers| == |events|
    requires forall i :: 0 <= i < |events| ==> IsDigits(numbers[i]) && Printable(events[i])
    ensures ParsedEvents(EventLines(numbers, events)) == events
  {
    var lines := EventLines(numbers, events);
    forall i | 0 <= i < |lines|
      ensures LineEvents(lines[i]) == [events[i]]
    {
      EventLineRoundTrip(numbers[i], events[i]);
      LineEventsOfSome(lines[i], events[i]);
    }
    FlatMapSingletons(LineEvents, lines, events);
  }

  /** The first and last characters of a join are those of its first and last parts. */
  lemma JoinEdges(parts: seq<string>, sep: string)
    requires |parts| > 0 && parts[0] != [] && parts[|parts| - 1] != []
    ensures var j := Join(parts, sep);
      j != [] && j[0] == parts[0][0] && j[|j| - 1] == parts[|parts| - 1][|parts[|parts| - 1]| - 1]
  {
    var n := |parts|;
    if n > 1 {
      JoinAppend([parts[0]], parts[1..], sep);
      assert [parts[0]] + parts[1..] == parts;
      JoinAppend(parts[..n - 1], [parts[n - 1]], sep);
      assert parts[..n - 1] + [parts[n - 1]] == parts;
    }
  }

  /** A reply the model writes in the requested format, one event per line, parses back
      to exactly the events it lists, in order. */
  lemma ReplyRoundTrip(numbers: seq<string>, events: seq<Event>)
    requires |numbers| == |events| > 0
    requires forall i :: 0 <= i < |events| ==>
      IsDigits(numbers[i]) && '\n' !in numbers[i] && Printable(events[i])
    ensures ParsedEvents(ResponseLines(Join(EventLines(numbers, events), "\n"))) == events
  {
    var lines := EventLines(numbers, events);
    forall i | 0 <= i < |lines|
      ensures '\n' !in lines[i] && lines[i] != []
      ensures !IsSpace(lines[i][0]) && !IsSpace(lines[i][|lines[i]| - 1])
    {
      var e := events[i];
      assert lines[i] == numbers[i] + ". [" + e.event + "] - " + e.description;
    }
    var reply := Join(lines, "\n");
    JoinEdges(lines, "\n");
    StripUnchanged(reply);
    SplitJoin(lines, '\n');
    EventLinesParse(numbers, events);
  }

  // ---------------------------------------------------------------------------
  // Selecting the candidates

  /** `filter_and_select`: no suggestion means the defaults without asking the model;
      otherwise the events of the model's reply, in order, padded from the default pool
      and cut to exactly three. */
  function FilterAndSelect(suggestions: seq<string>, reply: Option<string>): (r: Result<seq<Event>>)
    ensures suggestions == [] ==> r == Ok(DefaultEvents())
    ensures suggestions != [] && reply.None? ==> r == Raised(LlmUnavailable)
    ensures r.Ok? ==> |r.value| == 3
    ensures suggestions != [] && reply.Some? ==> (
      var parsed := ParsedEvents(ResponseLines(reply.value));
      r.Ok? &&
      (forall i :: 0 <= i < 3 && i < |parsed| ==> r.value[i] == parsed[i]) &&
      (forall i :: |parsed| <= i < 3 ==> r.value[i] == DefaultEvents()[i]))
  {
    if suggestions == [] then Ok(DefaultEvents())
    else if reply.None? then Raised(LlmUnavailable)
    else
      var parsed := ParsedEvents(ResponseLines(reply.value));
      var padded := if |parsed| < 3 then parsed + DefaultEvents()[|parsed|..3] else parsed;
      Ok(padded[..3])
  }

  /** `generate_fallback_events`: the first (at most three) events of the model's reply,
      or the defaults when it yields none. */
  function GenerateFallbackEvents(reply: Option<string>): (r: Result<seq<Event>>)
    ensures reply.None? ==> r == Raised(LlmUnavailable)
    ensures r.Ok? ==> 1 <= |r.value| <= 3
    ensures reply.Some? ==> (
      var parsed := ParsedEvents(ResponseLines(reply.value));
      r.Ok? &&
      (parsed == [] ==> r.value == DefaultEvents()) &&
      (parsed != [] ==> r.value <= parsed && |r.value| == if |parsed| < 3 then |parsed| else 3))
  {
    if reply.None? then Raised(LlmUnavailable)
    else
      var parsed := ParsedEvents(ResponseLines(reply.value));
      if parsed != [] then Ok(parsed[..if |parsed| < 3 then |parsed| else 3])
      else Ok(DefaultEvents())
  }
}
