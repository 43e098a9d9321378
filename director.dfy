/** The director: scans the conversation history against a staged scam script and
    derives the current stage, the completed stages, a risk tier and the context text
    handed to the victim. */
module Director {
  import opened Strings

  /** One history entry, `{"role": ..., "content": ...}`. */
  datatype Message = Message(role: string, content: string)

  datatype Stage = Stage(
    stageId: string,
    summary: string,
    successSignals: seq<string>,
    victimObjectives: seq<string>)

  datatype Script = Script(scriptId: string, title: string, description: string, stages: seq<Stage>)

  datatype DirectorUpdate = DirectorUpdate(
    scriptId: string,
    stageId: string,
    completedStages: seq<string>,
    nextObjectiveForVictim: string,
    dynamicContextFromDirector: string,
    riskLevel: int)

  /** Whether a success signal matches a message content: `matches(signal, content)`. */
  type Matcher = (string, string) -> bool

  // ---------------------------------------------------------------------------
  // Stage progress

  function Ids(stages: seq<Stage>): (ids: seq<string>)
    ensures |ids| == |stages|
    ensures forall i :: 0 <= i < |stages| ==> ids[i] == stages[i].stageId
  {
    seq(|stages|, i requires 0 <= i < |stages| => stages[i].stageId)
  }

  /** Some message of the history matches `signal`. */
  predicate SignalSeen(signal: string, history: seq<Message>, matches: Matcher)
  {
    exists j | 0 <= j < |history| :: matches(signal, history[j].content)
  }

  /** Some success signal of `stage` matches some message of the history. */
  predicate StageReached(stage: Stage, history: seq<Message>, matches: Matcher)
  {
    exists i | 0 <= i < |stage.successSignals| :: SignalSeen(stage.successSignals[i], history, matches)
  }

  /** Length of the longest prefix of `stages` whose every stage is reached. */
  function ReachedCount(stages: seq<Stage>, history: seq<Message>, matches: Matcher): (k: nat)
    ensures k <= |stages|
    ensures forall i :: 0 <= i < k ==> StageReached(stages[i], history, matches)
    ensures k < |stages| ==> !StageReached(stages[k], history, matches)
  {
    if stages == [] || !StageReached(stages[0], history, matches) then 0
    else 1 + ReachedCount(stages[1..], history, matches)
  }

  /** The completed stages: the ids of the longest reached prefix, in script order. */
  function CompletedStages(stages: seq<Stage>, history: seq<Message>, matches: Matcher): (done: seq<string>)
    ensures |done| <= |stages| && done == Ids(stages)[..|done|]
    ensures forall i :: 0 <= i < |done| ==> StageReached(stages[i], history, matches)
    ensures |done| < |stages| ==> !StageReached(stages[|done|], history, matches)
  {
    Ids(stages)[..ReachedCount(stages, history, matches)]
  }

  /** The current stage: the first stage while none is completed, else the last completed one. */
  function CurrentStageId(stages: seq<Stage>, history: seq<Message>, matches: Matcher): (id: string)
    requires |stages| > 0
    ensures id in Ids(stages)
  {
    var done := CompletedStages(stages, history, matches);
    if done == [] then stages[0].stageId else done[|done| - 1]
  }

  /** `_find_stage`: the nested scan over stages, signals and messages, stopping at the
      first stage none of whose signals matches. */
  method FindStage(history: seq<Message>, stages: seq<Stage>, matches: Matcher)
    returns (current: string, completed: seq<string>)
    requires |stages| > 0
    ensures completed == CompletedStages(stages, history, matches)
    ensures current == CurrentStageId(stages, history, matches)
  {
    completed := [];
    current := stages[0].stageId;
    var s := 0;
    while s < |stages|
      invariant 0 <= s <= |stages|
      invariant forall t :: 0 <= t < s ==> StageReached(stages[t], history, matches)
      invariant completed == Ids(stages)[..s]
      invariant current == if s == 0 then stages[0].stageId else stages[s - 1].stageId
    {
      var stage := stages[s];
      var found := false;
      var i := 0;
      while i < |stage.successSignals|
        invariant 0 <= i <= |stage.successSignals|
        invariant !found
        invariant forall i' :: 0 <= i' < i ==> !SignalSeen(stage.successSignals[i'], history, matches)
      {
        var signal := stage.successSignals[i];
        var j := 0;
        while j < |history|
          invariant 0 <= j <= |history|
          invariant !found
          invariant forall j' :: 0 <= j' < j ==> !matches(signal, history[j'].content)
        {
          if matches(signal, history[j].content) {
            found := true;
            break;
          }
          j := j + 1;
        }
        if found {
          break;
        }
        i := i + 1;
      }
      if found {
        assert Ids(stages)[..s + 1] == Ids(stages)[..s] + [stage.stageId];
        completed := completed + [stage.stageId];
        current := stage.stageId;
      } else {
        break;
      }
      s := s + 1;
    }
  }

  /** Every completed stage was reached, and evaluation stops at the first unreached one:
      a later stage is never completed while an earlier one is not. */
  lemma CompletedIsReachedPrefix(stages: seq<Stage>, history: seq<Message>, matches: Matcher, k: nat)
    requires k < |stages| && !StageReached(stages[k], history, matches)
    ensures |CompletedStages(stages, history, matches)| <= k
  {
  }

  /** A stage with no success signal halts progress. */
  lemma {:induction false} EmptySignalsHalt(stages: seq<Stage>, history: seq<Message>, matches: Matcher, k: nat)
    requires k < |stages| && stages[k].successSignals == []
    ensures |CompletedStages(stages, history, matches)| <= k
  {
    assert !StageReached(stages[k], history, matches);
  }

  /** An empty history completes nothing and sits on the first stage. */
  lemma EmptyHistoryStart(stages: seq<Stage>, matches: Matcher)
    requires |stages| > 0
    ensures CompletedStages(stages, [], matches) == []
    ensures CurrentStageId(stages, [], matches) == stages[0].stageId
  {
    assert !StageReached(stages[0], [], matches);
  }

  lemma SignalSeenGrows(signal: string, history: seq<Message>, more: seq<Message>, matches: Matcher)
    requires SignalSeen(signal, history, matches)
    ensures SignalSeen(signal, history + more, matches)
  {
    var j :| 0 <= j < |history| && matches(signal, history[j].content);
    assert (history + more)[j] == history[j];
  }

  lemma StageReachedGrows(stage: Stage, history: seq<Message>, more: seq<Message>, matches: Matcher)
    requires StageReached(stage, history, matches)
    ensures StageReached(stage, history + more, matches)
  {
    var i :| 0 <= i < |stage.successSignals| && SignalSeen(stage.successSignals[i], history, matches);
    SignalSeenGrows(stage.successSignals[i], history, more, matches);
  }

  /** Appending messages can only lengthen the completed list, whatever the matcher:
      the old list is a prefix of the new one. */
  lemma {:induction false} CompletedGrows(stages: seq<Stage>, history: seq<Message>, more: seq<Message>, matches: Matcher)
    ensures CompletedStages(stages, history, matches) <= CompletedStages(stages, history + more, matches)
  {
    var k := ReachedCount(stages, history, matches);
    var k' := ReachedCount(stages, history + more, matches);
    forall t | 0 <= t < k
      ensures StageReached(stages[t], history + more, matches)
    {
      StageReachedGrows(stages[t], history, more, matches);
    }
    assert k <= k';
  }

  // ---------------------------------------------------------------------------
  // Stage matchers

  /** The matcher as written: `rf"\\b{signal}\\b"` is the regular expression for a literal
      backslash followed by `b`, so it looks for the text `\b<signal>\b`, ignoring case. */
  predicate LiteralMatch(signal: string, content: string)
    ensures LiteralMatch(signal, content) ==> Contains(Lower(content), Lower(signal))
  {
    LowerAppend("\\b" + signal, "\\b");
    LowerAppend("\\b", signal);
    if Contains(Lower(content), Lower("\\b" + signal + "\\b")) then
      ContainsInner(Lower(content), Lower("\\b"), Lower(signal), Lower("\\b"));
      true
    else false
  }

  /** A word character for the regular expression `\b`: underscore and what `str.isalnum()`
      accepts, up to U+00FF (ASCII letters and digits, the Latin-1 letters, and the
      Latin-1 superscripts, fractions and ordinal indicators). */
  predicate IsWordChar(c: char)
  {
    IsDigit(c) || c == '_' || ('a' <= c <= 'z') || ('A' <= c <= 'Z') ||
    ('À' <= c <= 'ÿ' && c != '×' && c != '÷') ||
    c == 'ª' || c == '²' || c == '³' || c == 'µ' || c == '¹' || c == 'º' ||
    c == '¼' || c == '½' || c == '¾'
  }

  /** A word boundary at position `p` of `t`: exactly one side is a word character. */
  predicate BoundaryAt(t: string, p: int)
    requires 0 <= p <= |t|
  {
    (p > 0 && IsWordChar(t[p - 1])) != (p < |t| && IsWordChar(t[p]))
  }

  /** The evidently intended matcher: `signal` as a whole word, ignoring case. */
  predicate WordMatch(signal: string, content: string)
    ensures WordMatch(signal, content) ==> Contains(Lower(content), Lower(signal))
  {
    exists i | 0 <= i <= |content| ::
      OccursAt(Lower(content), Lower(signal), i) &&
      BoundaryAt(Lower(content), i) && BoundaryAt(Lower(content), i + |signal|)
  }

  // ---------------------------------------------------------------------------
  // Risk

  const Sensitive: seq<string> :=
    ["iban", "carte", "sms", "otp", "paiement", "numéro de carte", "virement", "mot de passe"]
  const Remote: seq<string> := ["teamviewer", "anydesk", "prise en main", "installer un logiciel"]
  const Urgent: seq<string> := ["urgence", "immédiat", "dépêcher", "vite"]

  function LoweredContents(history: seq<Message>): (texts: seq<string>)
    ensures |texts| == |history|
    ensures forall i :: 0 <= i < |history| ==> texts[i] == Lower(history[i].content)
  {
    seq(|history|, i requires 0 <= i < |history| => Lower(history[i].content))
  }

  /** `" ".join(m['content'].lower() for m in history)`. */
  function HistoryText(history: seq<Message>): (text: string)
    ensures history == [] ==> text == ""
    ensures forall i :: 0 <= i < |history| ==> Contains(text, Lower(history[i].content))
  {
    JoinContainsParts(LoweredContents(history), " ");
    Join(LoweredContents(history), " ")
  }

  /** Some term is a substring of the text. */
  predicate AnyOccurs(text: string, terms: seq<string>)
  {
    exists i | 0 <= i < |terms| :: Contains(text, terms[i])
  }

  /** `_get_risk_level`: the highest tier with a term in the history text,
      sensitive data (3) over remote control (2) over urgency (1). */
  function RiskLevel(history: seq<Message>): (r: int)
    ensures 0 <= r <= 3
    ensures r == 3 <==> AnyOccurs(HistoryText(history), Sensitive)
    ensures r == 2 <==> !AnyOccurs(HistoryText(history), Sensitive) && AnyOccurs(HistoryText(history), Remote)
    ensures r == 0 <==> !AnyOccurs(HistoryText(history), Sensitive + Remote + Urgent)
  {
    var text := HistoryText(history);
    assert AnyOccurs(text, Sensitive + Remote + Urgent) ==>
      AnyOccurs(text, Sensitive) || AnyOccurs(text, Remote) || AnyOccurs(text, Urgent) by {
      if AnyOccurs(text, Sensitive + Remote + Urgent) {
        var i :| 0 <= i < |Sensitive + Remote + Urgent| && Contains(text, (Sensitive + Remote + Urgent)[i]);
        if i < |Sensitive| {
          assert Contains(text, Sensitive[i]);
        } else if i < |Sensitive| + |Remote| {
          assert Contains(text, Remote[i - |Sensitive|]);
        } else {
          assert Contains(text, Urgent[i - |Sensitive| - |Remote|]);
        }
      }
    }
    assert AnyOccurs(text, Urgent) ==> AnyOccurs(text, Sensitive + Remote + Urgent) by {
      if AnyOccurs(text, Urgent) {
        var i :| 0 <= i < |Urgent| && Contains(text, Urgent[i]);
        assert (Sensitive + Remote + Urgent)[|Sensitive| + |Remote| + i] == Urgent[i];
      }
    }
    assert AnyOccurs(text, Sensitive) ==> AnyOccurs(text, Sensitive + Remote + Urgent) by {
      if AnyOccurs(text, Sensitive) {
        var i :| 0 <= i < |Sensitive| && Contains(text, Sensitive[i]);
        assert (Sensitive + Remote + Urgent)[i] == Sensitive[i];
      }
    }
    assert AnyOccurs(text, Remote) ==> AnyOccurs(text, Sensitive + Remote + Urgent) by {
      if AnyOccurs(text, Remote) {
        var i :| 0 <= i < |Remote| && Contains(text, Remote[i]);
        assert (Sensitive + Remote + Urgent)[|Sensitive| + i] == Remote[i];
      }
    }
    if AnyOccurs(text, Sensitive) then 3
    else if AnyOccurs(text, Remote) then 2
    else if AnyOccurs(text, Urgent) then 1
    else 0
  }

  lemma AnyOccursGrows(text: string, more: string, terms: seq<string>)
    requires AnyOccurs(text, terms)
    ensures AnyOccurs(text + more, terms)
  {
    var i :| 0 <= i < |terms| && Contains(text, terms[i]);
    ContainsGrow(text, terms[i], "", more);
    assert "" + text + more == text + more;
  }

  /** The text of a history is a prefix of the text of any extension of it. */
  lemma HistoryTextPrefix(history: seq<Message>, more: seq<Message>)
    ensures HistoryText(history) <= HistoryText(history + more)
  {
    assert LoweredContents(history + more) == LoweredContents(history) + LoweredContents(more);
    JoinPrefix(LoweredContents(history), LoweredContents(more), " ");
  }

  /** Risk never decreases as messages are appended. */
  lemma RiskMonotone(history: seq<Message>, more: seq<Message>)
    ensures RiskLevel(history) <= RiskLevel(history + more)
  {
    var t := HistoryText(history);
    var t' := HistoryText(history + more);
    HistoryTextPrefix(history, more);
    assert t' == t + t'[|t|..];
    forall terms | terms in [Sensitive, Remote, Sensitive + Remote + Urgent] && AnyOccurs(t, terms)
      ensures AnyOccurs(t', terms)
    {
      AnyOccursGrows(t, t'[|t|..], terms);
    }
  }

  /** A non-empty term never occurs in the empty text. */
  lemma NothingOccursInEmpty(terms: seq<string>)
    requires forall i :: 0 <= i < |terms| ==> terms[i] != ""
    ensures !AnyOccurs("", terms)
  {
  }

  /** The empty history scores 0. */
  lemma EmptyHistoryRisk()
    ensures RiskLevel([]) == 0
  {
    assert HistoryText([]) == "";
    NothingOccursInEmpty(Sensitive + Remote + Urgent);
  }

  /** Tier priority: a history mentioning both "urgence" and "iban" scores 3, not 1. */
  lemma UrgentAndIbanScoresThree()
    ensures RiskLevel([Message("scammer", "URGENCE, IBAN")]) == 3
  {
    var h := [Message("scammer", "URGENCE, IBAN")];
    var text := "urgence, iban";
    assert Lower(h[0].content) == text;
    assert HistoryText(h) == text;
    assert text[9..13] == "iban";
    assert OccursAt(text, Sensitive[0], 9);
  }

  // ---------------------------------------------------------------------------
  // Context and the full analysis

  const Advice: string :=
    "Rappel : ne jamais donner d'informations sensibles (IBAN, carte, code, mot de passe).\n" +
    "Si le scammeur insiste, évoquez une distraction (chien, lunettes, TV, sonnette).\n" +
    "Essayez de gagner du temps ou de détourner la conversation."

  /** Where `next(s for s in stages if s['stage_id'] == id)` stops: the first stage with
      that id. */
  function StageIndex(stages: seq<Stage>, id: string): (k: nat)
    requires id in Ids(stages)
    ensures k < |stages| && stages[k].stageId == id
    ensures forall j :: 0 <= j < k ==> stages[j].stageId != id
  {
    if stages[0].stageId == id then 0
    else
      assert Ids(stages) == [stages[0].stageId] + Ids(stages[1..]);
      1 + StageIndex(stages[1..], id)
  }

  /** The stage `next(...)` finds. */
  function StageById(stages: seq<Stage>, id: string): (s: Stage)
    requires id in Ids(stages)
    ensures s in stages && s.stageId == id
  {
    stages[StageIndex(stages, id)]
  }

  function ContextHead(title: string): string
  {
    "Scénario en cours : " + title + ".\nÉtape actuelle : "
  }

  function ObjectiveLine(objective: string): string
  {
    "\nObjectif pour vous : " + objective + "\n"
  }

  /** `_build_context`: the scenario title, the stage summary, the objective and the fixed
      advice block, in that order and with nothing else. */
  function BuildContext(script: Script, stageId: string, nextObjective: string): (r: string)
    requires stageId in Ids(script.stages)
    ensures ContextHead(script.title) <= r
    ensures Contains(r, StageById(script.stages, stageId).summary)
    ensures Contains(r, ObjectiveLine(nextObjective))
    ensures OccursAt(r, StageById(script.stages, stageId).summary, |ContextHead(script.title)|)
    ensures OccursAt(r, ObjectiveLine(nextObjective),
      |ContextHead(script.title)| + |StageById(script.stages, stageId).summary|)
    ensures |r| >= |Advice| && r[|r| - |Advice|..] == Advice
    ensures |r| == |ContextHead(script.title)| + |StageById(script.stages, stageId).summary|
      + |ObjectiveLine(nextObjective)| + |Advice|
  {
    var head := ContextHead(script.title);
    var summary := StageById(script.stages, stageId).summary;
    var r := head + summary + ObjectiveLine(nextObjective) + Advice;
    assert r[|head|..|head| + |summary|] == summary;
    assert OccursAt(r, summary, |head|);
    assert r[|head| + |summary|..|head| + |summary| + |ObjectiveLine(nextObjective)|] == ObjectiveLine(nextObjective);
    assert OccursAt(r, ObjectiveLine(nextObjective), |head| + |summary|);
    r
  }

  /** The objective is carried verbatim: two contexts of the same stage agree only when
      their objectives agree. */
  lemma ContextDeterminesObjective(script: Script, stageId: string, o1: string, o2: string)
    requires stageId in Ids(script.stages)
    requires BuildContext(script, stageId, o1) == BuildContext(script, stageId, o2)
    ensures o1 == o2
  {
    var summary := StageById(script.stages, stageId).summary;
    var objectiveLabel := "\nObjectif pour vous : ";
    var head := ContextHead(script.title) + summary + objectiveLabel;
    var tail := "\n" + Advice;
    Regroup(ContextHead(script.title), summary, objectiveLabel, o1, "\n", Advice);
    Regroup(ContextHead(script.title), summary, objectiveLabel, o2, "\n", Advice);
    MiddleDetermined(head, o1, o2, tail);
  }

  lemma Regroup(h: string, s: string, p: string, o: string, q: string, a: string)
    ensures h + s + (p + o + q) + a == (h + s + p) + o + (q + a)
  {
  }

  /** The objective of a stage: its first victim objective, or "Rester prudent". */
  function NextObjective(stage: Stage): (objective: string)
    ensures stage.victimObjectives == [] ==> objective == "Rester prudent"
    ensures stage.victimObjectives != [] ==> objective == stage.victimObjectives[0]
  {
    if stage.victimObjectives != [] then stage.victimObjectives[0] else "Rester prudent"
  }

  /** The update `analyze_conversation` returns, as a function of history and script. */
  function Analysis(history: seq<Message>, script: Script, matches: Matcher): (u: DirectorUpdate)
    requires |script.stages| > 0
    ensures u.stageId in Ids(script.stages)
    ensures 0 <= u.riskLevel <= 3
  {
    var stageId := CurrentStageId(script.stages, history, matches);
    var objective := NextObjective(StageById(script.stages, stageId));
    DirectorUpdate(
      script.scriptId,
      stageId,
      CompletedStages(script.stages, history, matches),
      objective,
      BuildContext(script, stageId, objective),
      RiskLevel(history))
  }

  /** The fields of an update fit together: the script's id, the completed prefix of the
      script's ids, the current stage as the last completed one (the first while none is),
      that stage's objective, and a context made of the title line, that stage's summary,
      the objective line and the advice, in that order and with nothing else. */
  lemma AnalysisConsistent(history: seq<Message>, script: Script, matches: Matcher)
    requires |script.stages| > 0
    ensures var u := Analysis(history, script, matches);
      var stage := StageById(script.stages, u.stageId);
      && u.scriptId == script.scriptId
      && u.completedStages == Ids(script.stages)[..|u.completedStages|]
      && (u.completedStages == [] ==> u.stageId == script.stages[0].stageId)
      && (u.completedStages != [] ==> u.stageId == u.completedStages[|u.completedStages| - 1])
      && (stage.victimObjectives == [] ==> u.nextObjectiveForVictim == "Rester prudent")
      && (stage.victimObjectives != [] ==> u.nextObjectiveForVictim == stage.victimObjectives[0])
      && ContextHead(script.title) <= u.dynamicContextFromDirector
      && Contains(u.dynamicContextFromDirector, stage.summary)
      && Contains(u.dynamicContextFromDirector, ObjectiveLine(u.nextObjectiveForVictim))
      && OccursAt(u.dynamicContextFromDirector, stage.summary, |ContextHead(script.title)|)
      && OccursAt(u.dynamicContextFromDirector, ObjectiveLine(u.nextObjectiveForVictim),
           |ContextHead(script.title)| + |stage.summary|)
      && u.dynamicContextFromDirector[|u.dynamicContextFromDirector| - |Advice|..] == Advice
      && |u.dynamicContextFromDirector| ==
           |ContextHead(script.title)| + |stage.summary| + |ObjectiveLine(u.nextObjectiveForVictim)| + |Advice|
      && u.riskLevel == RiskLevel(history)
  {
    var u := Analysis(history, script, matches);
    assert u.dynamicContextFromDirector == BuildContext(script, u.stageId, u.nextObjectiveForVictim);
  }

  /** `analyze_conversation`: stage scan, objective lookup, context and risk, bundled. */
  method AnalyzeConversation(history: seq<Message>, script: Script, matches: Matcher)
    returns (update: DirectorUpdate)
    requires |script.stages| > 0
    ensures update == Analysis(history, script, matches)
  {
    var stageId, completed := FindStage(history, script.stages, matches);
    var stage := StageById(script.stages, stageId);
    var nextObjective := if stage.victimObjectives != [] then stage.victimObjectives[0] else "Rester prudent";
    var context := BuildContext(script, stageId, nextObjective);
    var risk := RiskLevel(history);
    update := DirectorUpdate(script.scriptId, stageId, completed, nextObjective, context, risk);
  }
}
