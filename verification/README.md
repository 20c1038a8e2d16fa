# ToFigureOut — a Dafny model of its reminder logic

ToFigureOut is a small macOS utility. The user drags a reminder onto a drop
target. The app asks a chat model to break the reminder into short numbered
subtasks, parses the reply, and saves one new reminder per subtask in the
source reminder's calendar. This project models the logic under that flow,
over `seq<char>` strings and a plain `Reminder` datatype:

- `reminder_manager.dfy` (module `ReminderManagement`): the process-wide cache
  of incomplete reminders. It is a class whose `reminders` field each
  refresh replaces with the incomplete part of the fetched list. A nil fetch
  leaves the field alone.
- `reminder_drop.dfy` (module `ReminderDrop`): drop resolution. The first
  non-empty line of the dragged text is looked up by exact title in the cache
  (first hit wins). The delegate class updates its hover (`prototypeReminder`)
  and drop (`targetReminder`) fields from the three drag callbacks.
- `configure_reminder.dfy` (module `ConfigureReminder`): the prompt (guard,
  subtask count `detailLevel * 4`, optional notes clause), the reply parser,
  and the save/commit loop, all on a class holding the sheet's `results` and
  `isLoading` state.
- `text_lines.dfy` (module `TextLines`): Swift's `split(separator: "\n")`
  (empty pieces omitted) and decimal rendering of integers, with their
  round-trip lemmas.
- `event_kit.dfy` (module `EventKit`): the reminder record and a stand-in
  for the shared event store. The stand-in has a queue of saved records, a
  list of committed records and a count of `commit()` calls. The caller
  decides whether each save or commit throws.
- `wrappers.dfy`: `Option`.

Each asynchronous callback (drag resolution, chat request, fetch completion)
is modelled as one atomic step that takes the outcome of the foreign call as
an input:

- the decoded drag text, or `None`;
- the chat reply, or `None` when `sendMessage` threw;
- the fetched list, or `None` when the store delivered nil;
- the set of save indices that throw, and whether `commit()` throws.

Behaviour of the code worth knowing, all of it kept by the model:

- After a failed save, `commitNewReminders` goes straight to `catch`, so
  `commit()` is never called and the records saved so far stay queued and
  uncommitted.
- The notes clause is added whenever notes is non-nil, including when it is
  the empty string.
- A parsed subtask can be empty: the line `"1. "` yields `""`.
- `dropExited` clears the hover reminder only when the payload resolves
  again to a cached reminder.

## Model

| member | source | states |
|---|---|---|
| `TextLines.SplitLines` | ToFigureOut/ConfigureReminderView.swift:128 | every piece of `split(separator: "\n")` is non-empty and newline-free |
| `TextLines.SplitLinesKeepsText` | ToFigureOut/ConfigureReminderView.swift:128 | concatenating the pieces gives the input minus its newlines, in order (nothing else is lost or reordered) |
| `TextLines.SplitLinesEmpty` | ToFigureOut/ReminderDropView.swift:107 | no pieces exactly when the text is empty or all newlines |
| `TextLines.SplitLinesAtNewline` | ToFigureOut/ConfigureReminderView.swift:128 | splitting `a + "\n" + b` gives the pieces of `a` followed by those of `b` |
| `TextLines.SplitLinesCons` | ToFigureOut/ConfigureReminderView.swift:128 | a newline-free non-empty line followed by a newline is the first piece |
| `TextLines.SplitLinesSingle` | ToFigureOut/ConfigureReminderView.swift:128 | a newline-free non-empty string is its own single piece |
| `TextLines.SplitJoinLines` | ToFigureOut/ConfigureReminderView.swift:128 | round trip: splitting lines joined by newlines gives the lines back |
| `TextLines.NatToString` | ToFigureOut/ConfigureReminderView.swift:113 | interpolating a count gives a non-empty string of decimal digits with no leading zero |
| `TextLines.IntToString` | ToFigureOut/ConfigureReminderView.swift:113 | an interpolated integer is non-empty and has no space or newline |
| `TextLines.DecimalRoundTrip` | ToFigureOut/ConfigureReminderView.swift:113 | the digits read back as the number |
| `ConfigureReminder.FirstSpace` | ToFigureOut/ConfigureReminderView.swift:131 | `firstIndex(of: " ")`: no space before it; a space at it, unless it is the end |
| `ConfigureReminder.StripMarker` | ToFigureOut/ConfigureReminderView.swift:130-133 | a line is dropped exactly when it has no space; otherwise the entry is the suffix after the first space |
| `ConfigureReminder.ParseLines` | ToFigureOut/ConfigureReminderView.swift:130-133 | `compactMap` yields at most one entry per line |
| `ConfigureReminder.ParseResults` | ToFigureOut/ConfigureReminderView.swift:127-134 | no more entries than non-empty lines, and no entry contains a newline |
| `ConfigureReminder.ParseLinesWithoutNewline` | ToFigureOut/ConfigureReminderView.swift:131-132 | entries taken from newline-free lines are newline-free |
| `ConfigureReminder.ParseLinesAppend` | ToFigureOut/ConfigureReminderView.swift:130-133 | parsing is line by line: entries of concatenated lines are the concatenated entries |
| `ConfigureReminder.ParseSkipsLineWithoutSpace` | ToFigureOut/ConfigureReminderView.swift:131 | a line with no space contributes nothing, wherever it stands |
| `ConfigureReminder.EntrySources` | ToFigureOut/ConfigureReminderView.swift:130-133 | each entry has a source line index inside the reply |
| `ConfigureReminder.EntrySourcesOrdered` | ToFigureOut/ConfigureReminderView.swift:130-133 | source indices strictly increase, and each entry is its source line with the marker stripped (order is kept) |
| `ConfigureReminder.EntrySourcesComplete` | ToFigureOut/ConfigureReminderView.swift:131 | a line is the source of an entry exactly when it contains a space |
| `ConfigureReminder.NumberedLineIsLine` | ToFigureOut/ConfigureReminderView.swift:108-109 | a numbered line "n. s" with newline-free `s` is a line |
| `ConfigureReminder.StripNumberedLine` | ToFigureOut/ConfigureReminderView.swift:129-132 | stripping the marker of "n. s" gives `s` back, even when `s` has spaces |
| `ConfigureReminder.ParseNumberedLines` | ToFigureOut/ConfigureReminderView.swift:130-133 | parsing numbered lines gives their entries back |
| `ConfigureReminder.ParseNumberedReply` | ToFigureOut/ConfigureReminderView.swift:128-133 | round trip: "1. s1\n2. s2\n…" parses to `[s1, s2, …]` for newline-free `s_i` |
| `ConfigureReminder.ExampleReplyIsNumbered` | ToFigureOut/ConfigureReminderView.swift:108-109 | the three-subtask reply is the numbered reply of its subtasks |
| `ConfigureReminder.ExampleReplyLines` | ToFigureOut/ConfigureReminderView.swift:128 | the example reply is its three lines joined by newlines |
| `ConfigureReminder.ParseExample` | ToFigureOut/ConfigureReminderView.swift:128-133 | "1. Get the mop\n2. Wet the mop\n3. Wipe the floor" parses to the three titles |
| `ConfigureReminder.ParseSingleLine` | ToFigureOut/ConfigureReminderView.swift:128-133 | a one-line reply parses to that line's stripped entry or to nothing |
| `ConfigureReminder.ParseNoSpaceExample` | ToFigureOut/ConfigureReminderView.swift:131 | "NoSpaceHere" parses to no entries, with no error |
| `ConfigureReminder.ParseBareMarkerExample` | ToFigureOut/ConfigureReminderView.swift:132 | "1. " parses to one empty entry |
| `ConfigureReminder.SubtaskCount` | ToFigureOut/ConfigureReminderView.swift:113 | the count is a multiple of four whose quarter is the detail level; levels 1..5 of the picker (line 47) give 4..20 |
| `ConfigureReminder.NotesClause` | ToFigureOut/ConfigureReminderView.swift:112 | the notes clause is empty exactly when notes is nil |
| `ConfigureReminder.PromptShape` | ToFigureOut/ConfigureReminderView.swift:102-114 | the template's lines are those of the instructions, task, notes clause and count, in that order |
| `ConfigureReminder.PrefixedLine` | ToFigureOut/ConfigureReminderView.swift:111-113 | a fixed label followed by newline-free text is one line |
| `ConfigureReminder.TaskLineLines` | ToFigureOut/ConfigureReminderView.swift:111 | the task line is a single line for a newline-free title |
| `ConfigureReminder.NotesClauseLines` | ToFigureOut/ConfigureReminderView.swift:112 | the notes clause adds one line with notes and none without |
| `ConfigureReminder.CountLineLines` | ToFigureOut/ConfigureReminderView.swift:113 | the count line is a single line |
| `ConfigureReminder.Prompt` | ToFigureOut/ConfigureReminderView.swift:102-114 | the query text: the fixed instructions (`Instructions`, lines 104-109), a blank line, `TaskLine` (line 111), the notes clause (line 112) and `CountLine` (line 113); it starts with the instructions and ends with the count line |
| `ConfigureReminder.NotesClauseAddsLines` | ToFigureOut/ConfigureReminderView.swift:112 | for any notes text, newlines included, the clause adds lines exactly when notes is non-nil |
| `ConfigureReminder.PromptEndsWithCount` | ToFigureOut/ConfigureReminderView.swift:102-114 | for any title and notes, the prompt's last line is the count line, preceded by the lines of the instructions, task and notes clause |
| `ConfigureReminder.PromptLines` | ToFigureOut/ConfigureReminderView.swift:102-114 | for newline-free title and notes, the prompt's lines exactly: instructions, task, a notes line if and only if notes is non-nil, then the count line last |
| `ConfigureReminder.CountLineValue` | ToFigureOut/ConfigureReminderView.swift:113 | the count line's number is all digits and reads back as `4 * detailLevel` |
| `ConfigureReminder.GenerationPrompt` | ToFigureOut/ConfigureReminderView.swift:98 | no request exactly when the API key is empty or the title is nil |
| `ConfigureReminder.FirstFailure` | ToFigureOut/ConfigureReminderView.swift:140-146 | the first throwing save index: every earlier save succeeds, and it fails unless it is the end |
| `ConfigureReminder.Drafts` | ToFigureOut/ConfigureReminderView.swift:141-143 | the i-th new reminder has the source calendar and title `results[i]` |
| `ConfigureReminder.ConfigureReminderView.constructor` | ToFigureOut/ConfigureReminderView.swift:15-19 | a new sheet has no results and is not loading |
| `ConfigureReminder.ConfigureReminderView.ProcessResultString` | ToFigureOut/ConfigureReminderView.swift:127-134 | `results` becomes the parsed reply |
| `ConfigureReminder.ConfigureReminderView.FigureOutResults` | ToFigureOut/ConfigureReminderView.swift:97-125 | guard blocked: nothing changes and no request. Otherwise the prompt is sent, loading ends false, and `results` is replaced only on a reply (unchanged on a thrown error) |
| `ConfigureReminder.ConfigureReminderView.CommitNewReminders` | ToFigureOut/ConfigureReminderView.swift:136-150 | if save k throws, exactly items 0..k-1 were saved and `commit()` is not called. Otherwise all are saved, then `commit()` is called once |
| `ReminderManagement.Incomplete` | ToFigureOut/ReminderManager.swift:39 | kept reminders are all incomplete; a reminder is kept exactly when it was fetched and is incomplete |
| `ReminderManagement.Refreshed` | ToFigureOut/ReminderManager.swift:34-41 | a nil fetch keeps the cache; otherwise the cache is exactly the fetched incomplete reminders, nothing old survives |
| `ReminderManagement.IncompleteAppend` | ToFigureOut/ReminderManager.swift:39 | filtering keeps relative order (it distributes over concatenation) |
| `ReminderManagement.IncompleteCount` | ToFigureOut/ReminderManager.swift:39 | each incomplete reminder is kept as often as it was fetched; completed ones never |
| `ReminderManagement.IncompleteIdempotent` | ToFigureOut/ReminderManager.swift:39-41 | filtering the cache again changes nothing |
| `ReminderManagement.RefreshTwice` | ToFigureOut/ReminderManager.swift:39-41 | refreshing twice with the same fetch gives the same cache |
| `ReminderManagement.ReminderManager.constructor` | ToFigureOut/ReminderManager.swift:15 | the cache starts empty |
| `ReminderManagement.ReminderManager.FetchReminders` | ToFigureOut/ReminderManager.swift:32-44 | keeps every cached reminder incomplete; the new cache is the refresh of the old one by the fetch |
| `ReminderDrop.FirstLine` | ToFigureOut/ReminderDropView.swift:105-110 | no title exactly for an all-newline payload; a title is non-empty and newline-free |
| `ReminderDrop.FirstLineIsFirstSegment` | ToFigureOut/ReminderDropView.swift:107 | the title is the text between the leading newlines and the next newline or the end |
| `ReminderDrop.FirstLineExample` | ToFigureOut/ReminderDropView.swift:107 | "Buy milk\nextra notes" gives "Buy milk" |
| `ReminderDrop.FirstTitleMatch` | ToFigureOut/ReminderDropView.swift:93 | index of the first exact title match; no earlier entry matches |
| `ReminderDrop.ReminderForTitle` | ToFigureOut/ReminderDropView.swift:92-94 | none exactly when no cached title matches; a found reminder has that title, is cached, and no earlier entry has it |
| `ReminderDrop.ReminderForPayload` | ToFigureOut/ReminderDropView.swift:87-90 | nothing is found exactly when there is no text, no first line, or no cached reminder with that title; otherwise the result is the lookup of the first line, so a cached reminder whose title it is |
| `ReminderDrop.LookupAfterRefresh` | ToFigureOut/ReminderDropView.swift:93 | after a refresh, an incomplete reminder with a unique title is found by its title |
| `ReminderDrop.LookupNeverCompleted` | ToFigureOut/ReminderDropView.swift:93 | after a refresh, lookup never returns a completed reminder |
| `ReminderDrop.ReminderDropDelegate.constructor` | ToFigureOut/ReminderDropView.swift:57-60 | the delegate starts with the bindings it is given |
| `ReminderDrop.ReminderDropDelegate.DropEntered` | ToFigureOut/ReminderDropView.swift:62-67 | sets the hover reminder on a match, else leaves it; never touches the target; a newly shown hover reminder is incomplete when the cache is |
| `ReminderDrop.ReminderDropDelegate.DropExited` | ToFigureOut/ReminderDropView.swift:70-75 | clears the hover reminder only on a match; never touches the target |
| `ReminderDrop.ReminderDropDelegate.PerformDrop` | ToFigureOut/ReminderDropView.swift:78-85 | always returns true; sets the target only on a match; never touches the hover reminder; a newly set target is incomplete when the cache is |

## Left out

- SwiftUI view bodies, sheets, the picker, the progress view and `presentationMode`: rendering with no logic beyond the guards modelled above.
- EventKit: access requests, `fetchReminders(matching:)` and the real `save`/`commit`. These are foreign calls. The fetch result and each save/commit failure are inputs, and the store is the small queue model in `event_kit.dfy`.
- The chat client (`ChatGPTAPI`, `sendMessage`, `deleteHistoryList`): a network client. Its reply, or its error, is an input.
- `ConfigureReminder.ConfigureReminderView.FigureOutResults`: does not record the history clearing (`deleteHistoryList`) done before the request, because the chat client's state is not modelled. It also shows only the final `isLoading` value (false), not the `true` seen while the request is in flight.
- `Task {}` scheduling, continuations, `DispatchQueue.main.async` and the change-notification observer: each callback is one atomic step. Races between overlapping hover, exit and drop tasks, and between overlapping refreshes, are not modelled.
- The second `resume` when loading the drag data reports an error (ReminderDropView.swift:100-103) is a runtime trap, not a contract. Any failure to obtain the text is modelled as `None`.
- The `ReminderManager.shared` singleton and `requestAccess`: the delegate receives the manager as a parameter, and access is outside the model.
- `@AppStorage` persistence of `detailLevel` and `apiKey`: they are plain fields.
- `ConfigureReminder.SubtaskCount`: uses unbounded integers, so Swift's overflow trap for a `detailLevel` near `Int.max` is not modelled. The picker only offers 1..5.
- `ConfigureReminder.PromptLines`: states the instructions' lines as `SplitLines(Instructions)` rather than proving the instructions paragraph is a single line.
- Swift `Character` semantics: strings are `seq<char>`, one `char` per Character. So `"\r\n"`, which Swift treats as one Character unequal to `"\n"`, is not modelled. Swift's `String ==` in the title lookup (ReminderDropView.swift:93) compares by canonical equivalence; the model compares the sequences exactly. UTF-8 decoding of the drag data is not modelled either: the decoded text is an input.
- The `print` diagnostics: logging only.
