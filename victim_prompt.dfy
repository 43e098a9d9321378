/** The victim's system prompt: a fixed character sheet with two slots, the current
    objective and the audience context. */
module VictimPrompt {
  import opened Strings

  /** The objective the victim starts with and returns to on reset. */
  const DefaultObjective: string := "Listen politely and be confused"

  /** Number of lines of the character sheet before the objective slot. */
  const HeadLineCount: nat := 29

  /** The character sheet line by line, each with its line break, up to the objective
      slot (the last line ends with the objective label). */
  function HeadLine(i: nat): string
    requires i < HeadLineCount
  {
    if i == 0 then "You are playing Mme Jeanne Dubois, a 78-year-old French woman.\n"
    else     if i == 1 then "\n"
    else     if i == 2 then "PERSONALITY TRAITS:\n"
    else     if i == 3 then "- Elderly and slightly confused\n"
    else     if i == 4 then "- Speaks slowly and carefully\n"
    else     if i == 5 then "- Polite but suspicious by nature\n"
    else     if i == 6 then "- Hard of hearing sometimes\n"
    else     if i == 7 then "- Often mentions family, grandchildren, husband passed away\n"
    else     if i == 8 then "- Pets: Scooty (dog) and Fluffy (cat)\n"
    else     if i == 9 then "- Easily distracted and forgetful\n"
    else     if i == 10 then "- Not very comfortable with technology\n"
    else     if i == 11 then "- French accent in English speech\n"
    else     if i == 12 then "\n"
    else     if i == 13 then "SPEECH PATTERNS:\n"
    else     if i == 14 then "- Use phrases like: \"Oh dear\", \"Hmm\", \"I'm not sure\", \"Let me see\", \"Hold on\"\n"
    else     if i == 15 then "- Sometimes repeats herself\n"
    else     if i == 16 then "- Apologizes frequently\n"
    else     if i == 17 then "- Gets confused with technical terms\n"
    else     if i == 18 then "- Speaks about mundane things (weather, garden, health)\n"
    else     if i == 19 then "\n"
    else     if i == 20 then "CRITICAL RULES FOR RESISTANCE:\n"
    else     if i == 21 then "1. NEVER give real passwords, PIN codes, account numbers, or credit card information\n"
    else     if i == 22 then "2. You CAN invent fake data (example: \"My password is... um... bluejay47? Or was it sunflower?\")\n"
    else     if i == 23 then "3. If asked for dangerous information, STALL or CREATE DISTRACTIONS\n"
    else     if i == 24 then "4. You can use sound effects if needed: [SOUND: DOG_BARKING], [SOUND: DOORBELL], etc.\n"
    else     if i == 25 then "5. Be slow to follow technical instructions (can't find buttons, keyboard issues, etc.)\n"
    else     if i == 26 then "6. Never sound like a robot - be authentically confused but earnest\n"
    else     if i == 27 then "\n"
    else "CURRENT OBJECTIVE: "
  }

  /** Lines put back together. */
  function Concat(lines: seq<string>): string
  {
    if lines == [] then [] else lines[0] + Concat(lines[1..])
  }

  /** The character sheet up to the objective slot. */
  function PromptHead(): string
  {
    Concat(seq(HeadLineCount, i requires 0 <= i < HeadLineCount => HeadLine(i)))
  }

  /** The text between the objective slot and the audience-context slot. */
  const ContextLabel: string := "\n\nAUDIENCE CONTEXT: "

  /** The text after the audience-context slot. */
  const PromptTail: string :=
    "\n\nRESPOND IN FRENCH. Keep responses 2-4 sentences maximum. Be natural and authentic."

  const ConstraintLabel: string := "\nAUDIENCE CONSTRAINT: "

  /** What fills the audience-context slot: nothing without a constraint, otherwise the
      constraint on its own labelled line. */
  function ConstraintText(constraint: string): (t: string)
    ensures constraint == [] <==> t == []
    ensures constraint != [] ==> ConstraintLabel <= t && t[|ConstraintLabel|..] == constraint
  {
    if constraint == [] then [] else ConstraintLabel + constraint
  }

  /** Different constraints fill the slot differently. */
  lemma ConstraintTextInjective(c1: string, c2: string)
    requires ConstraintText(c1) == ConstraintText(c2)
    ensures c1 == c2
  {
    if c1 != [] && c2 != [] {
      assert c1 == ConstraintText(c1)[|ConstraintLabel|..];
    }
  }

  /** `get_victim_prompt`: the character sheet with the objective and the constraint text
      inserted verbatim into their slots. */
  function GetVictimPrompt(objective: string, constraint: string): (prompt: string)
    ensures PromptHead() <= prompt && OccursAt(prompt, objective, |PromptHead()|)
  {
    TemplateSlots(PromptHead(), objective, ContextLabel, ConstraintText(constraint), PromptTail,
      PromptHead() + objective + ContextLabel + ConstraintText(constraint) + PromptTail);
    PromptHead() + objective + ContextLabel + ConstraintText(constraint) + PromptTail
  }

  /** The prompt opens with the character sheet, the objective follows it, the context
      label follows the objective, the constraint, when there is one, sits on its labelled
      line after that label, and the prompt ends with the fixed response instructions;
      nothing else is in it. */
  lemma PromptSlots(objective: string, constraint: string)
    ensures var r := GetVictimPrompt(objective, constraint);
      && PromptHead() <= r
      && OccursAt(r, objective, |PromptHead()|)
      && OccursAt(r, ContextLabel, |PromptHead()| + |objective|)
      && OccursAt(r, ConstraintText(constraint), |PromptHead()| + |objective| + |ContextLabel|)
      && |r| >= |PromptTail| && r[|r| - |PromptTail|..] == PromptTail
      && |r| == |PromptHead()| + |objective| + |ContextLabel| + |ConstraintText(constraint)| + |PromptTail|
      && (constraint != [] ==> Contains(r, ConstraintLabel + constraint))
  {
    TemplateSlots(PromptHead(), objective, ContextLabel, ConstraintText(constraint), PromptTail,
      GetVictimPrompt(objective, constraint));
  }

  /** The prompt determines both slots, as long as the objective is one line. */
  lemma PromptDeterminesSlots(o1: string, c1: string, o2: string, c2: string)
    requires '\n' !in o1 && '\n' !in o2
    requires GetVictimPrompt(o1, c1) == GetVictimPrompt(o2, c2)
    ensures o1 == o2 && c1 == c2
  {
    assert ContextLabel[0] == '\n';
    TemplateInjective(PromptHead(), o1, o2, ContextLabel, ConstraintText(c1), ConstraintText(c2),
      PromptTail, '\n');
    ConstraintTextInjective(c1, c2);
  }
}
