/**
 * Subtask generation and commit (`ConfigureReminderView`): the prompt sent to
 * the chat model, the parser that turns its numbered reply into subtask
 * titles, and the loop that saves one new reminder per subtask and then
 * commits them.
 */
module ConfigureReminder {
  import opened Wrappers
  import opened TextLines
  import opened EventKit

  // ---------------------------------------------------------------------
  // Parsing the reply (`processResultString`)
  // ---------------------------------------------------------------------

  /** Index of the first space of `line`, or `|line|` if it has none. */
  function FirstSpace(line: string): (k: nat)
    ensures k <= |line|
    ensures forall j :: 0 <= j < k ==> line[j] != ' '
    ensures k < |line| ==> line[k] == ' '
  {
    if line == [] || line[0] == ' ' then 0 else 1 + FirstSpace(line[1..])
  }

  /**
   * The `compactMap` closure: a line without a space is dropped; otherwise
   * the entry is everything after the first space (the "1." marker and the
   * space are removed).
   */
  function StripMarker(line: string): (entry: Option<string>)
    ensures entry.None? <==> ' ' !in line
    ensures entry.Some? ==>
      exists k :: (0 <= k < |line| && line[k] == ' ' && ' ' !in line[..k] &&
                   entry.value == line[k + 1..])
  {
    var k := FirstSpace(line);
    if k < |line| then
      assert line[k] in line;
      Some(line[k + 1..])
    else
      None
  }

  /** `lines.compactMap(StripMarker)`. */
  function ParseLines(lines: seq<string>): (entries: seq<string>)
    ensures |entries| <= |lines|
  {
    if lines == [] then []
    else
      match StripMarker(lines[0])
      case None => ParseLines(lines[1..])
      case Some(entry) => [entry] + ParseLines(lines[1..])
  }

  /** `processResultString`: the subtask titles parsed from the model's reply. */
  function ParseResults(reply: string): (entries: seq<string>)
    ensures |entries| <= |SplitLines(reply)|
    ensures forall i :: 0 <= i < |entries| ==> '\n' !in entries[i]
  {
    var lines := SplitLines(reply);
    ParseLinesWithoutNewline(lines);
    ParseLines(lines)
  }

  lemma {:induction false} ParseLinesWithoutNewline(lines: seq<string>)
    requires forall i :: 0 <= i < |lines| ==> '\n' !in lines[i]
    ensures forall i :: 0 <= i < |ParseLines(lines)| ==> '\n' !in ParseLines(lines)[i]
    decreases |lines|
  {
    if lines != [] {
      ParseLinesWithoutNewline(lines[1..]);
      var line := lines[0];
      var k := FirstSpace(line);
      if k < |line| {
        assert forall c :: c in line[k + 1..] ==> c in line;
      }
    }
  }

  /** Parsing is line by line: the entries of a concatenation are the concatenated entries. */
  lemma {:induction false} ParseLinesAppend(a: seq<string>, b: seq<string>)
    ensures ParseLines(a + b) == ParseLines(a) + ParseLines(b)
    decreases |a|
  {
    if a == [] {
      assert a + b == b;
    } else {
      assert (a + b)[1..] == a[1..] + b;
      ParseLinesAppend(a[1..], b);
    }
  }

  /** A line containing no space contributes nothing, wherever it stands. */
  lemma ParseSkipsLineWithoutSpace(before: seq<string>, line: string, after: seq<string>)
    requires ' ' !in line
    ensures ParseLines(before + [line] + after) == ParseLines(before + after)
  {
    ParseLinesAppend(before + [line], after);
    ParseLinesAppend(before, [line]);
    ParseLinesAppend(before, after);
    assert ParseLines([line]) == [];
  }

  /** Adds one to every index. */
  function Shifted(idx: seq<nat>): (r: seq<nat>)
    ensures |r| == |idx|
    ensures forall j :: 0 <= j < |r| ==> r[j] == idx[j] + 1
  {
    seq(|idx|, j requires 0 <= j < |idx| => idx[j] + 1)
  }

  /** For each parsed entry, the index of the line it came from. */
  function EntrySources(lines: seq<string>): (idx: seq<nat>)
    ensures |idx| == |ParseLines(lines)|
    ensures forall j :: 0 <= j < |idx| ==> idx[j] < |lines|
  {
    if lines == [] then []
    else
      var rest := Shifted(EntrySources(lines[1..]));
      if ' ' in lines[0] then [0] + rest else rest
  }

  /**
   * Entries keep the order of their lines: the source indices increase, and
   * each entry is its source line with the marker stripped.
   */
  lemma {:induction false} EntrySourcesOrdered(lines: seq<string>)
    ensures var idx := EntrySources(lines);
      (forall j :: 0 <= j < |idx| ==> StripMarker(lines[idx[j]]) == Some(ParseLines(lines)[j])) &&
      (forall j1, j2 :: 0 <= j1 < j2 < |idx| ==> idx[j1] < idx[j2])
    decreases |lines|
  {
    if lines != [] {
      EntrySourcesOrdered(lines[1..]);
      var tail := lines[1..];
      var restIdx := EntrySources(tail);
      var rest := Shifted(restIdx);
      var idx := EntrySources(lines);
      var entries := ParseLines(lines);
      forall j | 0 <= j < |rest| ensures lines[rest[j]] == tail[restIdx[j]] {
      }
      if ' ' in lines[0] {
        assert idx == [0] + rest;
        assert entries == [StripMarker(lines[0]).value] + ParseLines(tail);
        forall j | 0 <= j < |idx| ensures StripMarker(lines[idx[j]]) == Some(entries[j]) {
          if j > 0 { assert idx[j] == rest[j - 1]; }
        }
      } else {
        assert idx == rest;
        assert entries == ParseLines(tail);
      }
    }
  }

  /** A line is the source of an entry exactly when it contains a space. */
  lemma {:induction false} EntrySourcesComplete(lines: seq<string>, i: nat)
    requires i < |lines|
    ensures i in EntrySources(lines) <==> ' ' in lines[i]
    decreases |lines|
  {
    var tail := lines[1..];
    var restIdx := EntrySources(tail);
    var rest := Shifted(restIdx);
    var idx := EntrySources(lines);
    assert idx == if ' ' in lines[0] then [0] + rest else rest;
    assert 0 !in rest;
    if i > 0 {
      EntrySourcesComplete(tail, i - 1);
      assert lines[i] == tail[i - 1];
      if i - 1 in restIdx {
        var j :| 0 <= j < |restIdx| && restIdx[j] == i - 1;
        assert rest[j] == i;
      }
      if i in rest {
        var j :| 0 <= j < |rest| && rest[j] == i;
        assert restIdx[j] == i - 1;
      }
    }
  }

  /** The line "n. entry" the model is asked to produce for the n-th subtask. */
  function NumberedLine(n: nat, entry: string): string
  {
    NatToString(n) + ". " + entry
  }

  /** Numbered lines for `entries`, the first numbered `first`. */
  function NumberedLines(entries: seq<string>, first: nat): (lines: seq<string>)
    ensures |lines| == |entries|
    ensures forall i :: 0 <= i < |lines| ==> lines[i] == NumberedLine(first + i, entries[i])
  {
    if entries == [] then []
    else [NumberedLine(first, entries[0])] + NumberedLines(entries[1..], first + 1)
  }

  /** A well-formed reply: "1. s1\n2. s2\n...". */
  function NumberedReply(entries: seq<string>): string
  {
    JoinLines(NumberedLines(entries, 1))
  }

  /** Stripping the marker of a numbered line gives its entry back. */
  lemma StripNumberedLine(n: nat, entry: string)
    ensures StripMarker(NumberedLine(n, entry)) == Some(entry)
  {
    var digits := NatToString(n);
    var line := NumberedLine(n, entry);
    assert line == digits + ['.', ' '] + entry;
    assert line[|digits| + 1] == ' ';
    assert forall j :: 0 <= j < |digits| + 1 ==> line[j] != ' ' by {
      forall j | 0 <= j < |digits| + 1 ensures line[j] != ' ' {
        if j < |digits| { assert line[j] == digits[j]; }
      }
    }
    assert FirstSpace(line) == |digits| + 1;
    assert line[|digits| + 2..] == entry;
  }

  lemma {:induction false} ParseNumberedLines(entries: seq<string>, first: nat)
    ensures ParseLines(NumberedLines(entries, first)) == entries
    decreases |entries|
  {
    if entries != [] {
      var lines := NumberedLines(entries, first);
      StripNumberedLine(first, entries[0]);
      ParseNumberedLines(entries[1..], first + 1);
      assert lines[1..] == NumberedLines(entries[1..], first + 1);
      assert entries == [entries[0]] + entries[1..];
    }
  }

  /**
   * Round trip: when the model answers in the requested format, the parser
   * returns exactly the subtasks, in order (an entry may even be empty).
   */
  lemma ParseNumberedReply(entries: seq<string>)
    requires forall i :: 0 <= i < |entries| ==> '\n' !in entries[i]
    ensures ParseResults(NumberedReply(entries)) == entries
  {
    var lines := NumberedLines(entries, 1);
    forall i | 0 <= i < |lines| ensures IsLine(lines[i]) {
      NumberedLineIsLine(1 + i, entries[i]);
    }
    SplitJoinLines(lines);
    ParseNumberedLines(entries, 1);
  }

  /** A numbered line is a line when its entry holds no newline. */
  lemma NumberedLineIsLine(n: nat, entry: string)
    requires '\n' !in entry
    ensures IsLine(NumberedLine(n, entry))
  {
    var digits := NatToString(n);
    var line := NumberedLine(n, entry);
    assert line == digits + ['.', ' '] + entry;
    forall k | 0 <= k < |line| ensures line[k] != '\n' {
      if k < |digits| {
        assert line[k] == digits[k];
      } else if k >= |digits| + 2 {
        assert line[k] == entry[k - |digits| - 2];
      }
    }
  }

  /** The numbered reply for three example subtasks, line by line. */
  lemma ExampleReplyIsNumbered()
    ensures NumberedReply(["Get the mop", "Wet the mop", "Wipe the floor"])
      == "1. Get the mop" + "\n" + ("2. Wet the mop" + "\n" + "3. Wipe the floor")
  {
    var entries := ["Get the mop", "Wet the mop", "Wipe the floor"];
    var l1, l2, l3 := NumberedLine(1, entries[0]), NumberedLine(2, entries[1]), NumberedLine(3, entries[2]);
    assert l1 == "1. Get the mop" && l2 == "2. Wet the mop" && l3 == "3. Wipe the floor";
    var lines := NumberedLines(entries, 1);
    assert lines == [l1, l2, l3];
    assert lines[1..] == [l2, l3] && [l2, l3][1..] == [l3];
    assert JoinLines([l3]) == l3;
    assert JoinLines([l2, l3]) == l2 + "\n" + l3;
  }

  /** The example reply, written as its three lines joined by newlines. */
  lemma ExampleReplyLines(reply: string)
    requires reply == "1. Get the mop\n2. Wet the mop\n3. Wipe the floor"
    ensures reply == "1. Get the mop" + "\n" + ("2. Wet the mop" + "\n" + "3. Wipe the floor")
  {
  }

  /** A reply of three numbered lines parses to the three subtasks. */
  lemma ParseExample(reply: string)
    requires reply == "1. Get the mop\n2. Wet the mop\n3. Wipe the floor"
    ensures ParseResults(reply) == ["Get the mop", "Wet the mop", "Wipe the floor"]
  {
    var entries := ["Get the mop", "Wet the mop", "Wipe the floor"];
    ParseNumberedReply(entries);
    ExampleReplyIsNumbered();
    ExampleReplyLines(reply);
  }

  /** A reply of a single line parses to that line's entry, if it has one. */
  lemma ParseSingleLine(line: string)
    requires IsLine(line)
    ensures ParseResults(line) == match StripMarker(line) case None => [] case Some(entry) => [entry]
  {
    SplitLinesSingle(line);
    assert [line][1..] == [];
  }

  /** A line without a space is dropped silently. */
  lemma ParseNoSpaceExample()
    ensures ParseResults("NoSpaceHere") == []
  {
    var line := "NoSpaceHere";
    assert IsLine(line) && ' ' !in line;
    ParseSingleLine(line);
  }

  /** A bare marker gives an empty entry: entries may be empty. */
  lemma ParseBareMarkerExample()
    ensures ParseResults("1. ") == [""]
  {
    var line := "1. ";
    assert IsLine(line);
    assert FirstSpace(line) == 2;
    ParseSingleLine(line);
  }

  // ---------------------------------------------------------------------
  // The prompt (`figureOutResults`)
  // ---------------------------------------------------------------------

  /** The number of subtasks requested for a detail level. */
  function SubtaskCount(detailLevel: int): (count: int)
    ensures 1 <= detailLevel <= 5 ==> 4 <= count <= 20
    ensures count / 4 == detailLevel && count % 4 == 0
  {
    detailLevel * 4
  }

  /** The instructions opening every prompt. */
  const Instructions: string :=
    "You will be given some text representing a single task that the user has to complete, an optional "
    + "further description of the task, and the number of subtasks you should respond with. Your job is to "
    + "respond with subtasks that the user can use to complete the specified task. Your response should "
    + "contain the given number of subtasks. Your response should only contain the subtasks and nothing "
    + "else. Each of the subtasks should be no longer than 6 words, as if the user was 5 years old, and "
    + "on a new numbered line."

  function TaskLine(title: string): string
  {
    "The single task is: " + title
  }

  /** The notes clause: empty when the reminder has no notes at all. */
  function NotesClause(notes: Option<string>): (clause: string)
    ensures clause == [] <==> notes.None?
  {
    match notes
    case None => ""
    case Some(text) => "The additional description is: " + text
  }

  function CountLine(detailLevel: int): string
  {
    "The number of subtasks are: " + IntToString(SubtaskCount(detailLevel))
  }

  /**
   * The text sent to the chat model for a reminder with this title and
   * notes: the instructions first, the requested count at the very end.
   */
  function Prompt(title: string, notes: Option<string>, detailLevel: int): (prompt: string)
    ensures Instructions <= prompt
    ensures var count := CountLine(detailLevel);
      |count| <= |prompt| && prompt[|prompt| - |count|..] == count
  {
    var intro := Instructions;
    var count := CountLine(detailLevel);
    var body := "\n\n" + TaskLine(title) + "\n" + NotesClause(notes) + "\n";
    assert (intro + body + count)[..|intro|] == intro;
    assert (intro + body + count)[|intro + body|..] == count;
    intro + body + count
  }

  /** The line structure of the prompt template, for any parts. */
  lemma PromptShape(intro: string, task: string, clause: string, count: string)
    ensures SplitLines(intro + ("\n\n" + task + "\n" + clause + "\n") + count)
      == SplitLines(intro) + SplitLines(task) + SplitLines(clause) + SplitLines(count)
  {
    var tail := task + "\n" + (clause + "\n" + count);
    assert intro + ("\n\n" + task + "\n" + clause + "\n") + count == intro + "\n" + ([] + "\n" + tail);
    SplitLinesAtNewline(intro, [] + "\n" + tail);
    SplitLinesAtNewline([], tail);
    SplitLinesAtNewline(task, clause + "\n" + count);
    SplitLinesAtNewline(clause, count);
  }

  /** A non-empty newline-free prefix followed by newline-free text is a line. */
  lemma PrefixedLine(prefix: string, rest: string)
    requires prefix != [] && '\n' !in prefix && '\n' !in rest
    ensures IsLine(prefix + rest)
  {
    forall k | 0 <= k < |prefix + rest| ensures (prefix + rest)[k] != '\n' {
      if k < |prefix| {
        assert (prefix + rest)[k] == prefix[k];
      } else {
        assert (prefix + rest)[k] == rest[k - |prefix|];
      }
    }
  }

  lemma TaskLineLines(title: string)
    requires '\n' !in title
    ensures SplitLines(TaskLine(title)) == [TaskLine(title)]
  {
    PrefixedLine("The single task is: ", title);
    SplitLinesSingle(TaskLine(title));
  }

  lemma NotesClauseLines(notes: Option<string>)
    requires notes.Some? ==> '\n' !in notes.value
    ensures SplitLines(NotesClause(notes)) == if notes.Some? then [NotesClause(notes)] else []
  {
    if notes.Some? {
      PrefixedLine("The additional description is: ", notes.value);
      SplitLinesSingle(NotesClause(notes));
    }
  }

  lemma CountLineLines(detailLevel: int)
    ensures SplitLines(CountLine(detailLevel)) == [CountLine(detailLevel)]
  {
    PrefixedLine("The number of subtasks are: ", IntToString(SubtaskCount(detailLevel)));
    SplitLinesSingle(CountLine(detailLevel));
  }

  /** Notes, whatever their text, add at least one line exactly when they are non-nil. */
  lemma NotesClauseAddsLines(notes: Option<string>)
    ensures SplitLines(NotesClause(notes)) != [] <==> notes.Some?
  {
    var clause := NotesClause(notes);
    SplitLinesEmpty(clause);
    if notes.Some? {
      assert clause[0] == 'T';
    }
  }

  /**
   * For any title and notes (newlines included), the prompt's last line is
   * the count line, and the lines before it are those of the instructions,
   * the task and the notes clause.
   */
  lemma PromptEndsWithCount(title: string, notes: Option<string>, detailLevel: int)
    ensures var lines := SplitLines(Prompt(title, notes, detailLevel));
      lines != [] && lines[|lines| - 1] == CountLine(detailLevel) &&
      lines[..|lines| - 1] ==
        SplitLines(Instructions) + SplitLines(TaskLine(title)) + SplitLines(NotesClause(notes))
  {
    PromptShape(Instructions, TaskLine(title), NotesClause(notes), CountLine(detailLevel));
    CountLineLines(detailLevel);
  }

  /**
   * For a title and notes without newlines, the prompt's lines exactly: the
   * instructions, the task, a notes line exactly when the reminder has
   * notes, and last the requested count.
   */
  lemma PromptLines(title: string, notes: Option<string>, detailLevel: int)
    requires '\n' !in title
    requires notes.Some? ==> '\n' !in notes.value
    ensures SplitLines(Prompt(title, notes, detailLevel)) ==
      SplitLines(Instructions) + [TaskLine(title)]
      + (if notes.Some? then [NotesClause(notes)] else [])
      + [CountLine(detailLevel)]
  {
    PromptShape(Instructions, TaskLine(title), NotesClause(notes), CountLine(detailLevel));
    TaskLineLines(title);
    NotesClauseLines(notes);
    CountLineLines(detailLevel);
  }

  /** The count line reads back as four times the detail level. */
  lemma CountLineValue(detailLevel: nat)
    ensures var line := CountLine(detailLevel);
      var digits := line[|"The number of subtasks are: "|..];
      (forall k :: 0 <= k < |digits| ==> '0' <= digits[k] <= '9') &&
      DecimalValue(digits) == 4 * detailLevel
  {
    var digits := NatToString(SubtaskCount(detailLevel));
    assert CountLine(detailLevel)[|"The number of subtasks are: "|..] == digits;
    DecimalRoundTrip(SubtaskCount(detailLevel));
  }

  /**
   * The guard of `figureOutResults`: no request without an API key or a
   * title; otherwise the prompt for the reminder.
   */
  function GenerationPrompt(apiKey: string, reminder: Reminder, detailLevel: int): (prompt: Option<string>)
    ensures prompt.None? <==> apiKey == [] || reminder.title.None?
  {
    if apiKey == [] || reminder.title.None? then None
    else Some(Prompt(reminder.title.value, reminder.notes, detailLevel))
  }

  // ---------------------------------------------------------------------
  // Committing (`commitNewReminders`)
  // ---------------------------------------------------------------------

  /** The index of the first failing save among the first `n`, or `n` when none of them fails. */
  function FirstFailure(n: nat, failing: set<nat>): (k: nat)
    ensures k <= n
    ensures forall j :: 0 <= j < k ==> j !in failing
    ensures k < n ==> k in failing
  {
    if n == 0 then 0
    else
      var k := FirstFailure(n - 1, failing);
      if k < n - 1 then k
      else if n - 1 in failing then n - 1
      else n
  }

  /** The new reminders for `titles`, all in `calendar`. */
  function Drafts(calendar: string, titles: seq<string>): (drafts: seq<NewReminder>)
    ensures |drafts| == |titles|
    ensures forall i :: 0 <= i < |drafts| ==> drafts[i] == NewReminder(calendar, titles[i])
  {
    seq(|titles|, i requires 0 <= i < |titles| => NewReminder(calendar, titles[i]))
  }

  /** The configuration sheet's state for one source reminder. */
  class ConfigureReminderView {
    const reminder: Reminder
    var detailLevel: int
    var apiKey: string
    var results: seq<string>
    var isLoading: bool

    constructor (reminder: Reminder, detailLevel: int, apiKey: string)
      ensures this.reminder == reminder
      ensures this.detailLevel == detailLevel && this.apiKey == apiKey
      ensures results == [] && !isLoading
    {
      this.reminder := reminder;
      this.detailLevel := detailLevel;
      this.apiKey := apiKey;
      results := [];
      isLoading := false;
    }

    /** `processResultString`: replaces the results with the parsed reply. */
    method ProcessResultString(reply: string)
      modifies this`results
      ensures results == ParseResults(reply)
    {
      results := ParseResults(reply);
    }

    /**
     * `figureOutResults`, run to completion: `reply` is what the chat
     * client's `sendMessage` gives back (`None`: it threw). Returns the
     * prompt sent, or `None` when the guard stops the request.
     */
    method FigureOutResults(reply: Option<string>) returns (sent: Option<string>)
      modifies this`results, this`isLoading
      ensures sent == GenerationPrompt(apiKey, reminder, detailLevel)
      ensures sent.None? ==> results == old(results) && isLoading == old(isLoading)
      ensures sent.Some? ==> !isLoading
      ensures sent.Some? ==> results == if reply.Some? then ParseResults(reply.value) else old(results)
    {
      if apiKey == [] || reminder.title.None? {
        return None;
      }
      sent := Some(Prompt(reminder.title.value, reminder.notes, detailLevel));
      isLoading := true;
      match reply {
        case Some(text) => ProcessResultString(text);
        case None =>
      }
      isLoading := false;
    }

    /**
     * `commitNewReminders`: saves one new reminder per result, in the source
     * reminder's calendar, stopping at the first save that throws (the
     * indices in `failing`); `commit()` is called only when every save
     * succeeded, and `commitFails` says whether it throws.
     */
    method CommitNewReminders(store: ReminderStore, failing: set<nat>, commitFails: bool)
      modifies store
      ensures var k := FirstFailure(|results|, failing);
        var drafts := Drafts(reminder.calendar, results[..k]);
        if k < |results| then
          store.saved == old(store.saved) + drafts &&
          store.committed == old(store.committed) &&
          store.commitCalls == old(store.commitCalls)
        else
          store.commitCalls == old(store.commitCalls) + 1 &&
          if commitFails then
            store.saved == old(store.saved) + drafts && store.committed == old(store.committed)
          else
            store.saved == [] && store.committed == old(store.committed) + old(store.saved) + drafts
    {
      var calendar := reminder.calendar;
      var i := 0;
      while i < |results|
        invariant 0 <= i <= |results|
        invariant forall j :: 0 <= j < i ==> j !in failing
        invariant store.saved == old(store.saved) + Drafts(calendar, results[..i])
        invariant store.committed == old(store.committed)
        invariant store.commitCalls == old(store.commitCalls)
      {
        var newItem := NewReminder(calendar, results[i]);
        var thrown := store.Save(newItem, i in failing);
        if thrown {
          assert FirstFailure(|results|, failing) == i;
          return;
        }
        assert Drafts(calendar, results[..i + 1]) == Drafts(calendar, results[..i]) + [newItem];
        i := i + 1;
      }
      assert results[..i] == results;
      var thrown := store.Commit(commitFails);
    }
  }
}
