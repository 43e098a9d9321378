/** What the stage matcher does as written, against the whole-word match it was evidently
    meant to be, on the three-message scenario "virus" then "anydesk". */
module DirectorFindings {
  import opened Strings
  import opened Director

  /** Lowering never produces a backslash from anything but a backslash. */
  lemma LowerKeepsBackslash(c: char)
    ensures LowerChar(c) == '\\' <==> c == '\\'
  {
  }

  /** As written, a success signal can only match a message that contains a backslash. */
  lemma LiteralMatchNeedsBackslash(signal: string, content: string)
    requires LiteralMatch(signal, content)
    ensures '\\' in content
  {
    var pattern := Lower("\\b" + signal + "\\b");
    assert pattern[0] == LowerChar('\\') == '\\';
    ContainsChar(Lower(content), pattern, '\\');
    var k :| 0 <= k < |content| && Lower(content)[k] == '\\';
    LowerKeepsBackslash(content[k]);
  }

  /** Hence, as written, a conversation without backslashes never completes a stage. */
  lemma NoBackslashNoProgress(stages: seq<Stage>, history: seq<Message>)
    requires |stages| > 0
    requires forall j :: 0 <= j < |history| ==> '\\' !in history[j].content
    ensures CompletedStages(stages, history, LiteralMatch) == []
    ensures CurrentStageId(stages, history, LiteralMatch) == stages[0].stageId
  {
    if StageReached(stages[0], history, LiteralMatch) {
      var i :| 0 <= i < |stages[0].successSignals| &&
        SignalSeen(stages[0].successSignals[i], history, LiteralMatch);
      var j :| 0 <= j < |history| && LiteralMatch(stages[0].successSignals[i], history[j].content);
      LiteralMatchNeedsBackslash(stages[0].successSignals[i], history[j].content);
    }
  }

  const VirusStage: Stage := Stage("s1", "The computer has a virus", ["virus"], ["Ask silly questions"])
  const RemoteStage: Stage := Stage("s2", "Install remote control", ["anydesk"], [])

  const ScenarioStages: seq<Stage> := [VirusStage, RemoteStage]

  const ScenarioHistory: seq<Message> := [
    Message("scammer", "a virus"),
    Message("victim", "oh"),
    Message("scammer", "use anydesk")]

  /** As written: the scenario completes no stage and stays on the first one. */
  lemma AsWrittenScenario()
    ensures CompletedStages(ScenarioStages, ScenarioHistory, LiteralMatch) == []
    ensures CurrentStageId(ScenarioStages, ScenarioHistory, LiteralMatch) == "s1"
  {
    assert '\\' !in ScenarioHistory[0].content;
    assert '\\' !in ScenarioHistory[1].content;
    assert '\\' !in ScenarioHistory[2].content;
    NoBackslashNoProgress(ScenarioStages, ScenarioHistory);
  }

  lemma LowerOfLowercase(s: string)
    requires forall i :: 0 <= i < |s| ==> ('a' <= s[i] <= 'z') || s[i] == ' '
    ensures Lower(s) == s
  {
  }

  /** A signal that stands as a whole word of a lower-case text matches it. */
  lemma WordMatchAt(signal: string, content: string, i: nat)
    requires forall k :: 0 <= k < |content| ==> ('a' <= content[k] <= 'z') || content[k] == ' '
    requires forall k :: 0 <= k < |signal| ==> 'a' <= signal[k] <= 'z'
    requires |signal| > 0 && i + |signal| <= |content| && content[i..i + |signal|] == signal
    requires i == 0 || content[i - 1] == ' '
    requires i + |signal| == |content| || content[i + |signal|] == ' '
    ensures WordMatch(signal, content)
  {
    LowerOfLowercase(content);
    LowerOfLowercase(signal);
    assert content[i] == signal[0];
    assert content[i + |signal| - 1] == signal[|signal| - 1];
    assert BoundaryAt(content, i);
    assert BoundaryAt(content, i + |signal|);
    assert OccursAt(content, signal, i);
  }

  lemma VirusStageReached()
    ensures StageReached(VirusStage, ScenarioHistory, WordMatch)
  {
    var c := ScenarioHistory[0].content;
    assert c[2..7] == "virus";
    WordMatchAt("virus", c, 2);
    assert VirusStage.successSignals[0] == "virus";
  }

  lemma RemoteStageReached()
    ensures StageReached(RemoteStage, ScenarioHistory, WordMatch)
  {
    var c := ScenarioHistory[2].content;
    assert c[4..11] == "anydesk";
    WordMatchAt("anydesk", c, 4);
    assert RemoteStage.successSignals[0] == "anydesk";
  }

  /** Intended: "virus" completes the first stage and "anydesk" the second. */
  lemma IntendedScenario()
    ensures CompletedStages(ScenarioStages, ScenarioHistory, WordMatch) == ["s1", "s2"]
    ensures CurrentStageId(ScenarioStages, ScenarioHistory, WordMatch) == "s2"
  {
    VirusStageReached();
    RemoteStageReached();
    assert ReachedCount(ScenarioStages, ScenarioHistory, WordMatch) == 2;
    assert Ids(ScenarioStages) == ["s1", "s2"];
  }

  /** A character absent from the text rules out every pattern that contains it. */
  lemma AbsentChar(t: string, p: string, c: char)
    requires c in p && c !in t
    ensures !Contains(t, p)
  {
    if Contains(t, p) {
      ContainsChar(t, p, c);
    }
  }

  const ScenarioText: string := "a virus oh use anydesk"

  lemma ScenarioHistoryText()
    ensures HistoryText(ScenarioHistory) == ScenarioText
  {
    var h := ScenarioHistory;
    LowerOfLowercase(h[0].content);
    LowerOfLowercase(h[1].content);
    LowerOfLowercase(h[2].content);
    var parts := LoweredContents(h);
    assert parts == [h[0].content, h[1].content, h[2].content];
    ScenarioJoin(parts);
  }

  lemma ScenarioJoin(parts: seq<string>)
    requires parts == ["a virus", "oh", "use anydesk"]
    ensures Join(parts, " ") == ScenarioText
  {
    assert parts[1..] == ["oh", "use anydesk"];
    assert parts[1..][1..] == ["use anydesk"];
    assert Join(parts[1..], " ") == "oh use anydesk";
  }

  lemma ScenarioTextLacks()
    ensures 'b' !in ScenarioText && 'c' !in ScenarioText
    ensures 'm' !in ScenarioText && 'p' !in ScenarioText
  {
  }

  lemma NoSensitiveInScenario()
    ensures !AnyOccurs(ScenarioText, Sensitive)
  {
    var t := ScenarioText;
    ScenarioTextLacks();
    forall i | 0 <= i < |Sensitive|
      ensures !Contains(t, Sensitive[i])
    {
      var c := if i == 0 then 'b' else if i == 1 then 'c' else if i == 3 || i == 4 then 'p' else 'm';
      assert c in Sensitive[i];
      AbsentChar(t, Sensitive[i], c);
    }
  }

  /** Both matchers agree on the risk: remote-control tier, since "anydesk" occurs and
      no sensitive term does. */
  lemma ScenarioRisk()
    ensures RiskLevel(ScenarioHistory) == 2
  {
    ScenarioHistoryText();
    NoSensitiveInScenario();
    assert ScenarioText[15..22] == "anydesk";
    assert OccursAt(ScenarioText, Remote[1], 15);
  }
}
