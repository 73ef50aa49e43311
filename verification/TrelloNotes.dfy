/** Card descriptions of the roadmap board: a generated header, then human notes
    (tools/trello/sync_board.py). */
module TrelloNotes {
  import opened Common

  datatype RoadmapCard = RoadmapCard(
    code: string,
    title: string,
    listName: string,
    status: string,
    goal: string,
    planPath: string,
    nextAction: Option<string>)

  const MARKER := "## Заметки\n"

  const SEPARATOR := " ·"

  predicate OccursAt(s: string, part: string, i: nat) {
    i + |part| <= |s| && s[i..i + |part|] == part
  }

  predicate Occurs(s: string, part: string) {
    exists i: nat :: i <= |s| && OccursAt(s, part, i)
  }

  /** Where the part occurs first. */
  function First(s: string, part: string): (r: Option<nat>)
    ensures r.Some? ==> OccursAt(s, part, r.value) && forall i: nat :: i < r.value ==> !OccursAt(s, part, i)
    ensures r.None? ==> !Occurs(s, part)
  {
    FirstFrom(s, part, 0)
  }

  function FirstFrom(s: string, part: string, from: nat): (r: Option<nat>)
    requires from <= |s|
    ensures r.Some? ==>
      from <= r.value && OccursAt(s, part, r.value) && forall i: nat :: from <= i < r.value ==> !OccursAt(s, part, i)
    ensures r.None? ==> forall i: nat :: from <= i ==> !OccursAt(s, part, i)
    decreases |s| - from
  {
    if OccursAt(s, part, from) then Some(from)
    else if from == |s| then None
    else FirstFrom(s, part, from + 1)
  }

  function NextStep(card: RoadmapCard): string {
    if card.nextAction.Some? && card.nextAction.value != "" then "\nСледующий шаг: " + card.nextAction.value else ""
  }

  function Summary(card: RoadmapCard): string {
    "Статус: " + card.status + "\nЦель: " + card.goal + NextStep(card) + "\nПлан: `" + card.planPath + "`\n\n"
  }

  function Header(card: RoadmapCard): string {
    "## Сводка\n" + Summary(card)
  }

  function Description(card: RoadmapCard, notes: string): string {
    Header(card) + MARKER + notes
  }

  /** The text after the first marker. */
  function Notes(description: string): string {
    var at := First(description, MARKER);
    if at.None? then "" else description[at.value + |MARKER|..]
  }

  function WithPreservedNotes(description: string, card: RoadmapCard): string {
    Description(card, Notes(description))
  }

  function CardName(card: RoadmapCard): string {
    card.code + SEPARATOR + " " + card.title
  }

  /** The part of a card's name before the first separator. */
  function CodeOf(name: string): string {
    var at := First(name, SEPARATOR);
    if at.None? then name else name[..at.value]
  }

  /** The last character of the part is nowhere else in it, so the part cannot overlap itself. */
  predicate EndsUniquely(part: string) {
    |part| > 0 && forall k :: 0 <= k < |part| - 1 ==> part[k] != part[|part| - 1]
  }

  lemma OccursInPrefix(a: string, part: string, b: string, i: nat)
    requires EndsUniquely(part) && i < |a|
    ensures OccursAt(a + part + b, part, i) <==> OccursAt(a, part, i)
  {
    var s := a + part + b;
    if i + |part| <= |a| {
      assert s[i..i + |part|] == a[i..i + |part|];
    } else {
      var last := |part| - 1;
      assert s[i + last] == part[i + last - |a|] != part[last];
      assert i + |part| <= |s| ==> s[i..i + |part|][last] == s[i + last];
    }
  }

  /** The first occurrence in a + part + b is the one after a, exactly when there is none in a. */
  lemma FirstIsAfter(a: string, part: string, b: string)
    requires EndsUniquely(part)
    ensures First(a + part + b, part).Some?
    ensures First(a + part + b, part).value <= |a|
    ensures First(a + part + b, part).value == |a| <==> !Occurs(a, part)
  {
    var s := a + part + b;
    assert s[|a|..|a| + |part|] == part;
    assert OccursAt(s, part, |a|);
    var first := First(s, part);
    assert first.Some?;
    if first.value < |a| {
      OccursInPrefix(a, part, b, first.value);
      assert OccursAt(a, part, first.value);
    } else if Occurs(a, part) {
      var i: nat :| i <= |a| && OccursAt(a, part, i);
      OccursInPrefix(a, part, b, i);
    }
  }

  lemma MarkerEndsUniquely()
    ensures EndsUniquely(MARKER) && EndsUniquely(SEPARATOR)
  {
  }

  /** The notes of a generated description are read back exactly when the header holds no marker. */
  lemma NotesReadBackExactly(card: RoadmapCard, notes: string)
    ensures Notes(Description(card, notes)) == notes <==> !Occurs(Header(card), MARKER)
  {
    MarkerEndsUniquely();
    FirstIsAfter(Header(card), MARKER, notes);
    var s := Description(card, notes);
    var first := First(s, MARKER).value;
    if first == |Header(card)| {
      assert s[first + |MARKER|..] == notes;
    } else {
      assert |Notes(s)| > |notes|;
    }
  }

  /** A refreshed description is left alone by the next refresh exactly when the header holds no
      marker; and then the notes are those it had before the first refresh. */
  lemma RefreshIsFixpointExactly(card: RoadmapCard, description: string)
    ensures
      var once := WithPreservedNotes(description, card);
      && (WithPreservedNotes(once, card) == once <==> !Occurs(Header(card), MARKER))
      && (Notes(once) == Notes(description) <==> !Occurs(Header(card), MARKER))
  {
    NotesReadBackExactly(card, Notes(description));
    SameNotes(card, Notes(WithPreservedNotes(description, card)), Notes(description));
  }

  lemma SameNotes(card: RoadmapCard, notes: string, notes': string)
    ensures Description(card, notes) == Description(card, notes') <==> notes == notes'
  {
    var n := |Header(card) + MARKER|;
    assert Description(card, notes)[n..] == notes && Description(card, notes')[n..] == notes';
  }

  lemma MarkerNeedsSigns(title: string, rest: string)
    requires |title| > 3 && title[3] != MARKER[3] && '#' !in title[2..] && '#' !in rest
    ensures !Occurs(title + rest, MARKER)
  {
    var s := title + rest;
    forall k | 2 <= k < |s|
      ensures s[k] != '#'
    {
      assert k < |title| ==> s[k] == title[2..][k - 2];
      assert k >= |title| ==> s[k] == rest[k - |title|];
    }
    forall i: nat | i <= |s|
      ensures !OccursAt(s, MARKER, i)
    {
      if i + |MARKER| <= |s| {
        assert s[i..i + |MARKER|][1] == s[i + 1] && s[i..i + |MARKER|][3] == s[i + 3];
        assert MARKER[1] == '#';
      }
    }
  }

  /** No generated header holds the marker if no field of the card holds a number sign. */
  lemma PlainFieldsGiveCleanHeaders(card: RoadmapCard)
    requires '#' !in card.status && '#' !in card.goal && '#' !in NextStep(card) && '#' !in card.planPath
    ensures !Occurs(Header(card), MARKER)
  {
    MarkerNeedsSigns("## Сводка\n", Summary(card));
  }

  /** A generated name carries its card's code exactly when the code holds no separator. */
  lemma NameCarriesCodeExactly(card: RoadmapCard)
    ensures CodeOf(CardName(card)) == card.code <==> !Occurs(card.code, SEPARATOR)
  {
    MarkerEndsUniquely();
    assert CardName(card) == card.code + SEPARATOR + (" " + card.title);
    FirstIsAfter(card.code, SEPARATOR, " " + card.title);
    var first := First(CardName(card), SEPARATOR).value;
    assert |CardName(card)[..first]| == first;
    if first == |card.code| {
      assert CardName(card)[..first] == card.code;
    }
  }

  // ---- what a reader of the board sees ----

  /** The text, line by line. */
  function Lines(text: string): (r: seq<string>)
    ensures |r| >= 1
  {
    if text == "" then [""]
    else if text[0] == '\n' then [""] + Lines(text[1..])
    else
      var rest := Lines(text[1..]);
      [[text[0]] + rest[0]] + rest[1..]
  }

  lemma {:induction false} LineAndRest(line: string, rest: string)
    requires '\n' !in line
    ensures Lines(line + "\n" + rest) == [line] + Lines(rest)
    decreases |line|
  {
    var text := line + "\n" + rest;
    if line == "" {
      assert text[1..] == rest;
    } else {
      LineAndRest(line[1..], rest);
      assert text[1..] == line[1..] + "\n" + rest;
      assert [line[0]] + line[1..] == line;
    }
  }

  predicate OneLine(card: RoadmapCard) {
    && '\n' !in card.status && '\n' !in card.goal && '\n' !in card.planPath
    && (card.nextAction.Some? ==> '\n' !in card.nextAction.value)
  }

  lemma PlanLines(planPath: string, notes: string)
    requires '\n' !in planPath
    ensures Lines("План: `" + planPath + "`\n\n" + MARKER + notes)
         == ["План: `" + planPath + "`", "", "## Заметки"] + Lines(notes)
  {
    var plan := "План: `" + planPath + "`";
    LineAndRest("## Заметки", notes);
    LineAndRest("", "## Заметки" + "\n" + notes);
    LineAndRest(plan, "" + "\n" + ("## Заметки" + "\n" + notes));
    assert "План: `" + planPath + "`\n\n" + MARKER + notes
        == plan + "\n" + ("" + "\n" + ("## Заметки" + "\n" + notes));
  }

  lemma Regroup(title: string, a: string, b: string, step: string, plan: string, marker: string, notes: string)
    ensures title + (a + b + step + plan) + marker + notes == title + (a + (b + (step + (plan + marker + notes))))
  {
  }

  /** What follows the goal's line. */
  function AfterGoal(card: RoadmapCard, tail: string): string {
    if card.nextAction.Some? && card.nextAction.value != ""
    then "Следующий шаг: " + card.nextAction.value + "\n" + tail else tail
  }

  lemma DescriptionSplits(card: RoadmapCard, notes: string)
    ensures
      var tail := "План: `" + card.planPath + "`\n\n" + MARKER + notes;
      var goal := "Цель: " + card.goal + "\n" + AfterGoal(card, tail);
      Description(card, notes) == "## Сводка" + "\n" + ("Статус: " + card.status + "\n" + goal)
  {
    hide AfterGoal, NextStep;
    var status, goal := "Статус: " + card.status, "\nЦель: " + card.goal;
    var plan := "\nПлан: `" + card.planPath + "`\n\n";
    var tail := "План: `" + card.planPath + "`\n\n" + MARKER + notes;
    assert Summary(card) == status + goal + NextStep(card) + plan;
    Regroup("## Сводка\n", status, goal, NextStep(card), plan, MARKER, notes);
    assert plan + MARKER + notes == "\n" + tail;
    StepSplits(card, tail);
    assert goal + ("\n" + AfterGoal(card, tail)) == "\n" + ("Цель: " + card.goal + "\n" + AfterGoal(card, tail));
  }

  lemma StepSplits(card: RoadmapCard, tail: string)
    ensures NextStep(card) + ("\n" + tail) == "\n" + AfterGoal(card, tail)
  {
  }

  lemma StepLine(card: RoadmapCard, tail: string)
    requires OneLine(card)
    ensures Lines(AfterGoal(card, tail))
         == (if card.nextAction.Some? && card.nextAction.value != ""
             then ["Следующий шаг: " + card.nextAction.value] else []) + Lines(tail)
  {
    if card.nextAction.Some? && card.nextAction.value != "" {
      LineAndRest("Следующий шаг: " + card.nextAction.value, tail);
    }
  }

  /** A card of one-line fields shows each of them on a line of its own, under its label, then the notes. */
  lemma DescriptionShowsFields(card: RoadmapCard, notes: string)
    requires OneLine(card)
    ensures Lines(Description(card, notes))
         == ["## Сводка", "Статус: " + card.status, "Цель: " + card.goal]
            + (if card.nextAction.Some? && card.nextAction.value != ""
               then ["Следующий шаг: " + card.nextAction.value] else [])
            + ["План: `" + card.planPath + "`", "", "## Заметки"] + Lines(notes)
  {
    var tail := "План: `" + card.planPath + "`\n\n" + MARKER + notes;
    var status, goal := "Статус: " + card.status, "Цель: " + card.goal;
    var rest := AfterGoal(card, tail);
    DescriptionSplits(card, notes);
    hide Description, AfterGoal, Lines;
    PlanLines(card.planPath, notes);
    StepLine(card, tail);
    LineAndRest(goal, rest);
    LineAndRest(status, goal + "\n" + rest);
    LineAndRest("## Сводка", status + "\n" + (goal + "\n" + rest));
  }
}
