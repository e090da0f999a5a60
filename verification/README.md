# Edit sessions, batches and lists of a PDF reader

A Dafny model of the main process of a desktop PDF reader (Rust, `src-tauri/`). The main process
parses no PDF: each open document has a sandboxed worker that may crash, time out or answer nonsense
at any request, and the main process keeps five views of the document in agreement: the file on disk,
the worker's edited copy, the history of edits, the crash recovery journal, and what the page is told.

The project has these parts.

- **The edit session** (`Edits`, `History`, `Stores`, `Worker`, `Journals`, `Sessions`,
  `OpenDocuments`, `Invariant`, `SessionProofs`, `SavingProofs`, `RecoveryProofs`, `Consequences`).
  `Sessions` says what each command does to the state; `OpenDocuments` does the same step by step on
  the fields of a class. One invariant holds after every command of every run, whatever the worker did.
- **Coming back** (`Restart`, `ComingBack`, `Reopening`, `JournalSizes`, `RecoveredNextTo`, `PictureLimit`,
  `SizeLimit`): what a crash of the app or of a worker gives back, and exactly when.
- **The form and the outline** (`Told`): when what the page is told of them is so.
- **What is accepted** (`Permits`, `Authors`, `Verdicts`, `Answers`): which edits, journals and commands, said once
  more from the outside, without the order in which the code looks at them.
- **Document numbers** (`Versions`): threads, locks and the numbers documents are known by.
- **Pages** (`PageLists`): what the edits do to the list of pages, and the worker's way of moving them.
- **Text boxes** (`TextBoxes`, `TextBoxFonts`, `TextBoxRequests`): batched font preparation against one box after the
  other, which font each box is set in, and how many requests it takes.
- **The hidden window** (`Background`) and **batches** (`Batch`, `Decimals`).
- **Names and lists** (`NaturalOrder`, `Fonts`, `Markdown`).
- **Passwords** (`Passwords`): which are remembered and which are tried.

## What is taken for granted

- MuPDF is an `Engine` of which nothing is assumed but that it is a function: a request the worker does
  has the result the engine says. What happens to the n-th request (done, failed, half done, nonsense)
  is read from `fault(n)`, any function, so every lemma is for every pattern of failures.
- A worker error other than `Internal` and `LimitExceeded` that leaves the worker alive leaves its copy
  as it was; after those two an edit may be half made, and the code gives the copy up.
- A file's size and modification time name its content: a stamp no other state of it has.
- How large a journal is follows from the edits, pictures and words it says (`J.Rules`), and one that says less
  is no larger (`Monotone`); the file's path, size and time, which it also says, do not count.
- Journal names are new ones, a sensitive mark changes no page (`AppOk`), and the app's data folder is
  there. What is said of permissions and of a journal being worth something later also rests on the worker's edits
  keeping the author's permissions and leaving the number of pages foreseen, and on a mark staying as it is while edits
  are made (`Faithful`); the rest of the invariant does not.
- What is said of the form and of the outline rests on something else (`PartForeseen`): flattening ends a form, a
  bookmark added makes an outline, deleting pages and applying redactions may take the last field, deleting bookmarks
  the last bookmark, and no other edit, nor a mark, does anything to either.
- Commands on one document are single steps, as its lock makes them; `Versions` is where they are not.
- A path is the key of a file, without regard to case, as the file system compares it; what was written for it
  is kept beside it, because a save compares paths as they are spelled (`Place`). Dialogs, clocks and random
  bytes are parameters.
- No lower case of what is not a digit begins with a digit (`LowerOk`).

## Where the code does other than it says

For each there is a lemma or a method with a concrete input or run; and, where the last one does not say
otherwise, one that says exactly when it happens.

- Of the commands modelled, one that fails changes nothing, but for two on a document opened with a password
  (`Consequences.FailureChangesNothing` is exact). Saving or marking it puts the file in place first, and answers
  an error if the worker is lost when it is told to start from that file (`Reopening.WrittenYetFailed`).
  Discarding the edits offered on it deletes them, and answers an error, if the worker was lost before and its tab
  has not noticed: while the file was loaded and its journal made again (`Reopening.DiscardedYetFailed`), or while
  pages were recognised (`documents.rs:3847-3850`).
- The journal is checked to be small enough when an edit is made, not when edits are recovered. Next to a larger
  picture of the document's own, under a number of the journal's, what was recovered is not written down, and after
  a crash what is offered is not what was done (`SizeLimit.AnotherIsOffered`). Over any run the journal says what
  was done exactly until that happens (`JournalSizes.OpenedSaysAll`), and it does not where no number was taken
  (`JournalSizes.NotTakenFits`).
- `reopen` compares only pages: another file with the same pages is taken for the document's, unnoticed
  (`Reopening.AnotherFileIsTaken`; `LiveAgainExactlyWhen` says exactly when a lost document comes back).
- Recovering restores pictures and words under their old numbers only where a number is free: one that was
  taken meanwhile gives the edit another picture (`Stores.RestoreTakesAnother`, `RestoreMeansTheJournals`).
- A journal whose edits name more than 16 pictures is written and then never read again; recovering next to a
  picture of the document's own leads to one (`PictureLimit.SeventeenPictures`, `ComingBack.JournalIsReadable`).
- A save, which keeps the document's number, may tell it after an edit told the next: the document then
  cannot be looked up by any command until its tab is closed (`Versions.SaveAndEditMayStrand`, `StuckStays`).
  Over any run it happens exactly when a step renumbers a document, or loses it, while another thread is about
  to tell the number it had (`RunTold`, `AtRestAllAreTold`); where every change renumbers, it never does
  (`RenumberingNeverStrands`).
- The app is to close once the user has read the message of the batch that ended; the message of an earlier
  batch closes it too (`Backgrounds.EarlierMessageCloses`; `RunMessages` is exact, over runs). A batch begun
  while the app is closing can leave the window hidden without its icon (`HiddenWithoutIcon`; `RunIcon`).
- A close that was refused, because no batch ran, still discards what is unsaved if the window is hidden
  before it goes on, though hidden to discard nothing (`Backgrounds.RefusedDiscardsHidden`; `RunRefusals`,
  `DiscardsAsChosen`).
- A password is remembered for the file that was asked about, not for the one it opened, if another file took
  its place in between (`Passwords.ReplacedMeanwhile`, `KeptForWhatAsked`).
- `escape_markdown` looks for a list or heading mark only in the first column; Markdown looks for it after up
  to three spaces (`Markdown.SpacedItemIsLeft`, `MarkIsLeftAfterSpaces`).
- `hasForm` is to say whether there is a form with a field (`forms.md:16`). Deleting the pages of the last fields, or
  redacting them, leaves the form told of (`Told.DeletedFieldStaysTold`), and deleting the last bookmark the outline
  (`DeletedBookmarkStaysTold`). What is told is so exactly when no applied edit did that (`ToldIsThere`; over every run
  from the opening of a file, `OpenedIsTrue`). A save after such an edit takes the file to have what it has not, and
  nothing else does, while no changed file is read (`NextIsRight`, `OpenedIsTrue`).
- `limits.rs:270-277` counts at most 30 requests to prepare 1,000 text boxes. That holds for boxes of one family
  while nothing is deferred (`TextBoxRequests.OneFamilyThirty`). 1,000 boxes of one family take 63 and more when
  their models are large (`OneFamilySixtyThree`), and 31 boxes of 31 families take 31 and more
  (`ThirtyOneFamilies`). How many it
  is, when nothing is deferred, is `TextBoxes.Requests`: over the rounds and the families tried in each, the
  boxes left divided by 200 and rounded up. When boxes are deferred, only bounds are proved: no more than there are
  families to try over all boxes, and as many as the models set in one answer call for (`TextBoxes.PrepareInserted`).

## Model

| member | source | states |
|---|---|---|
| `Histories.History.Push` | src-tauri/src/history.rs:51-56 | an applied edit joins the edits the document has; what was undone is gone |
| `Histories.History.MarkUndone` | src-tauri/src/history.rs:63-66 | the last edit leaves the applied ones and can be made again; with none nothing changes |
| `Histories.History.MarkRedone` | src-tauri/src/history.rs:73-76 | the next undone edit is applied again; with none nothing changes |
| `Histories.UndoRedo` | src-tauri/src/history.rs:63-76 | undo and redo are each other's inverse, from either side |
| `Histories.UndoThenRedoTimes` | src-tauri/src/history.rs:58-76 | any number of undos followed by as many redos is nothing, whatever the history |
| `Edits.JournalledIsLongest` | src-tauri/src/documents.rs:3189-3202 | what a journal keeps is the longest run of edits that takes no other file's pages |
| `Permits.AcceptedExactlyWhen` | src-tauri/src/documents.rs:3020-3187 | an edit is accepted iff its author allows what this kind of edit needs, every page it names and the place are there, the other file is kept, and it leaves a page and not more than 100,000; then the count is that, and only too many pages is refused as such |
| `Permits.CountOnceIs` | src-tauri/src/documents.rs:3114-3168 | the count foreseen is that of the page list after the edit |
| `Permits.AllAcceptedExactlyWhen` | src-tauri/src/documents.rs:3204-3214 | edits are accepted together iff each is on the pages the ones before it leave |
| `Authors.NextAllowed` | src-tauri/src/documents.rs:594-982 | no step of any kind puts an edit the author forbids among the document's edits, and what is told of the author's will stays |
| `Authors.OpenedIsAllowed` | src-tauri/src/documents.rs:594-982 | over every run from the opening of any file, the permissions told are the file's, and no edit the document has, undone ones included, is forbidden by them |
| `Stores.RestoreKeepsOwn` | src-tauri/src/pictures.rs:80-88 | taking a journal's pictures and words never changes what the document's own edits name |
| `Stores.RestoreMeansTheJournals` | src-tauri/src/text_boxes.rs:89-97 | a journal's edits mean what they did exactly when no number of theirs is taken by another thing |
| `Stores.RestoreTakesAnother` | src-tauri/src/documents.rs:761-774 | a picture prepared before recovering is stamped in place of the journal's |
| `Journals.FoundExactlyWhen` | src-tauri/src/recovery.rs:212-253 | opening a file finds a journal iff it can be taken, none that sorts before it can, and fewer than 64 sort before it |
| `Worker.RevertReplays` | crates/pdf_worker/src/serve.rs:732-790 | opening from the kept bytes and making a list of edits gives what making them one after the other gave |
| `Worker.GoneWrong` | crates/worker_host/src/lib.rs:650-748 | a request that goes wrong leaves every copy as it was, or none when the process is dropped; only an edit made in part leaves another |
| `OpenDocuments.OpenDocument.Reopen` | src-tauri/src/documents.rs:3450-3487 | the file opened again with the unsaved edits, step by step, is the specified state; with other pages it is refused |
| `OpenDocuments.OpenDocument.LiveWorker` | src-tauri/src/documents.rs:2990-3006 | a lost document is opened again first, never a protected one |
| `OpenDocuments.OpenDocument.ShowHistory` | src-tauri/src/documents.rs:3319-3343 | the page is told form, outline, unsaved, undo and redo as the history says |
| `OpenDocuments.OpenDocument.KeepJournal` | src-tauri/src/documents.rs:2856-2889 | the journal says what the history and the stores say, or is gone when nothing is unsaved |
| `OpenDocuments.OpenDocument.ApplyEdit` | src-tauri/src/documents.rs:594-661 | checks, the worker's edit, the page count, history, journal and number: the whole new state, on every path |
| `OpenDocuments.OpenDocument.Undo` | src-tauri/src/documents.rs:670-711 | undo by opening again from the kept bytes: the whole new state, on every path |
| `OpenDocuments.OpenDocument.Redo` | src-tauri/src/documents.rs:713-744 | the next undone edit made again: the whole new state, on every path |
| `OpenDocuments.OpenDocument.Replay` | src-tauri/src/documents.rs:3216-3249 | a journal's edits made one by one and then pushed: the whole new state, on every path |
| `OpenDocuments.OpenDocument.Recover` | src-tauri/src/documents.rs:745-786 | things restored, edits replayed, the journal taken over: the whole new state, on every path |
| `OpenDocuments.OpenDocument.Save` | src-tauri/src/documents.rs:805-879 | identity check, temporary file, worker, the file put in place and what becomes of every view: the whole new state, on every path |
| `OpenDocuments.OpenDocument.SetSensitive` | src-tauri/src/documents.rs:927-978 | the mark written into the file and the worker's copy opened from it: the whole new state, on every path |
| `OpenDocuments.OpenDocument.ChangeDocument` | src-tauri/src/documents.rs:2678-2710 | around the work of a command: nothing is done once the tab has given the document up; one that is gone after the work, even if it was before, is given up and answered with an error whatever the work came to |
| `SessionProofs.LiveWorkerKeeps` | src-tauri/src/documents.rs:2990-3018 | after a worker is there again, its copy is the file it read with exactly the applied edits, and the pages are those told |
| `SessionProofs.ApplyKeeps` | src-tauri/src/documents.rs:594-661 | an edit keeps the invariant however the worker answers |
| `SessionProofs.UndoKeeps` | src-tauri/src/documents.rs:670-711 | undo keeps the invariant however the worker answers |
| `SessionProofs.RedoKeeps` | src-tauri/src/documents.rs:713-744 | redo keeps the invariant however the worker answers |
| `SavingProofs.SaveKeeps` | src-tauri/src/documents.rs:799-880 | saving keeps the invariant however files and worker fail, and the document then goes by the file written, by what its new worker opened, or by what it did before: which one is a function of the states |
| `SavingProofs.SetSensitiveKeeps` | src-tauri/src/documents.rs:912-982 | marking keeps the invariant however files and worker fail, with the marked file as what the document goes by once it is put in place |
| `RecoveryProofs.RecoverKeeps` | src-tauri/src/documents.rs:745-786 | recovering keeps the invariant; the journal is in step if what was recovered fits into one (see `JournalSizes.RunSaysAll`) |
| `RecoveryProofs.StepKeeps` | src-tauri/src/documents.rs:594-982 | every command, and every change of a file by others, keeps: lost, or copy equal to the applied edits on what the document goes by; told pages and flags in agreement; the journal too, if it fits. What it goes by changes only when it is written or opened again |
| `RecoveryProofs.RunKeeps` | src-tauri/src/documents.rs:594-982 | the same at the end of every run of commands, failures and file changes, with what the document goes by computed along the run |
| `RecoveryProofs.OthersDoNotCount` | src-tauri/src/documents.rs:2990-3018 | over any run without a lost worker or a write, the worker's copy is the applied edits on the content first read, whatever others do to the file |
| `Consequences.FailureChangesNothing` | src-tauri/src/documents.rs:2678-2710 | a command that fails leaves the files, the journals, the history, what its edits name and everything told as they were, iff it neither put the file of a protected document in place and lost the worker then, nor discarded what is offered on one that was lost before, unnoticed |
| `Consequences.SaveWrites` | src-tauri/src/documents.rs:805-879 | a save that puts its file in place wrote the base with exactly the applied edits to its destination, as spelled the document's file from then on, and changed no other file |
| `Consequences.SaveOverwritesOnlyWhatWasRead` | src-tauri/src/documents.rs:813-828 | saving with no destination only ever replaces the very content the document was read from |
| `Consequences.PermissionsAreTold` | src-tauri/src/documents.rs:3685-3700 | the permissions told are those of the document as it is |
| `Told.ToldIsThere` | src-tauri/src/documents.rs:3319-3331 | while the file is taken for what it is, a form or outline that is there is told, and what is told is so iff no applied edit took the last field or bookmark with none made, and no form flattened, since |
| `Told.OnceSaved` | src-tauri/src/documents.rs:799-880 | a save writes the document as it is, and takes the file to have what was told |
| `Told.NextIsRight` | src-tauri/src/documents.rs:594-982 | after a save that wrote, the file is taken for what it is iff what was told was so; after every other command, iff it was before |
| `Told.RunIsRight` | src-tauri/src/documents.rs:871-872 | over every run the file is taken for what it is all the way iff no save writes a document of which an edit took the last field or bookmark |
| `Told.RunIsTrue` | src-tauri/src/documents.rs:3319-3331 | over every run what is told is so all the way iff at no state an applied edit took the last of it |
| `Told.OpenedIsTrue` | src-tauri/src/documents.rs:358-382 | both, over every run from the opening of any file, whatever journal was made again on it |
| `Told.ToldOnceBack` | src-tauri/src/documents.rs:2894-2931 | a protected document that comes back takes its file for what it is, and tells of form and outline what it told before iff it did so then, or the edits alone decide it |
| `Told.DeletedFieldStaysTold` | crates/pdf_worker/src/leftovers.rs:23-50 | a file of two pages opened and the one with its only field deleted: the form is still told |
| `Told.DeletedBookmarkStaysTold` | src-tauri/src/documents.rs:3327-3331 | a file opened and its last bookmark deleted: the outline is still told |
| `Consequences.SuccessDoes` | src-tauri/src/documents.rs:594-982 | what each command that succeeds does to the history, and which of them give the document a new number: an edit goes on top and cuts the redo tail, undo and redo move by one, recovering takes the edits found on, a save that wrote leaves none |
| `Consequences.WhatBecomesOfTheOffer` | src-tauri/src/documents.rs:788-862 | the edits an earlier run left are deleted once discarded; a save to the document's own place, spelled the same, leaves them stale; a save to any other gives them up to be found again |
| `Consequences.GuardedIsNeverReopened` | src-tauri/src/documents.rs:2992-3006 | no command opens a document again that was opened with a password |
| `Restart.OpenFileKeeps` | src-tauri/src/documents.rs:294-425 | a file that opens is in order from the start, whatever journal was found, made again or offered |
| `Verdicts.OfferedExactlyWhen` | src-tauri/src/documents.rs:2891-2931 | of every file that opens: a journal offered was left for its path, not in use, is whole, and is Available, Partial, Lost or Stale as its stamp, and its edits on the file's pages and permissions, say; edits are made unasked only from the released journal, all of it, if it still fits |
| `Verdicts.ReadExactlyWhen` | src-tauri/src/recovery.rs:361-438 | a journal is whole, and only then read, iff it says something, is within the limits, names no other file, and every edit is well formed and has the picture and the words it names |
| `Verdicts.ChangedFileIsStale` | src-tauri/src/documents.rs:2911-2929 | a journal left for another content than the file has: told Stale, nothing asked of the worker but opening, and recovering is refused |
| `Verdicts.OpensExactlyWhen` | src-tauri/src/documents.rs:288-426 | a file opens iff it is there, unlocked by what is given, and has between 1 and 100,000 pages |
| `Verdicts.OpenedSays` | src-tauri/src/documents.rs:356-400 | what is told of it, and remembered of how it was opened, is the file's |
| `ComingBack.JournalIsReadable` | src-tauri/src/recovery.rs:361-438 | a journal the app wrote can be read back iff it fits and holds at most 16 pictures |
| `PictureLimit.SeventeenPictures` | src-tauri/src/documents.rs:745-786 | a run from opening a file to a journal of seventeen pictures, which no opening takes |
| `ComingBack.FindsOwn` | src-tauri/src/recovery.rs:212-253 | after a crash the document's own journal is found, saying what was done, iff that fits into a journal, names at most 16 pictures, and no other journal for the file comes first among 64 |
| `ComingBack.Judged` | src-tauri/src/documents.rs:2908-2929 | an unchanged file's journal is Available, Partial or Lost iff the first edit taking another file's pages is absent, later or first |
| `ComingBack.OfferedAgain` | src-tauri/src/documents.rs:2894-2931 | after a crash the file opens with its journal offered |
| `ComingBack.RecoverBringsBack` | src-tauri/src/documents.rs:745-786 | recovering then gives the file with exactly the longest prefix that takes no other file's pages, as history, and the journal back |
| `ComingBack.UndoAllGivesTheFile` | src-tauri/src/documents.rs:670-711 | undoing every edit gives the file's content and pages back and leaves no journal |
| `ComingBack.CrashRecovery` | src-tauri/src/documents.rs:2894-2931 | the whole round trip, from any state with unsaved edits whose own journal is found: crash, open, recover, undo all |
| `ComingBack.ProtectedComesBack` | src-tauri/src/documents.rs:2716-2747 | a protected document lost with its worker comes back on unlocking with the same edits, content, pages and journal, if its journal can be read and no edit took another file's pages; else nothing is made unasked |
| `JournalSizes.NotTakenFits` | src-tauri/src/documents.rs:745-786 | recovering where no number of the journal's things was taken by another thing is never too large |
| `JournalSizes.NextFits` | src-tauri/src/documents.rs:616-631 | whatever is done, edits that fit into a journal go on fitting, undone ones too, iff nothing too large is recovered; and then the journal does not say what was done |
| `JournalSizes.RunSaysAll` | src-tauri/src/documents.rs:2858-2889 | over every run the journal says exactly what was done to the file all the way iff nothing too large is recovered on it |
| `JournalSizes.OpenedSaysAll` | src-tauri/src/documents.rs:2858-2889 | the same over every run from the opening of a file on |
| `JournalSizes.CrashAnywhere` | src-tauri/src/documents.rs:2894-2931 | from the opening of a file through any run in which nothing too large is recovered, to the crash and all the way back |
| `JournalSizes.ProtectedAnywhere` | src-tauri/src/documents.rs:2716-2747 | the same for a protected document lost with its worker |
| `SizeLimit.AnotherIsOffered` | src-tauri/src/documents.rs:745-786 | a run from opening a file: a picture of a megabyte is prepared, a journal with another under its number and one as large is recovered, and after a crash the other one is offered |
| `Reopening.LiveAgainExactlyWhen` | src-tauri/src/documents.rs:3450-3487 | with a willing worker a lost document comes back iff unprotected, its file there, unlocked, and giving the pages told |
| `Reopening.UnchangedComesBack` | src-tauri/src/documents.rs:2990-3006 | while nobody changed its file, an unprotected document always comes back as it was |
| `Reopening.RefusedExactlyWhen` | src-tauri/src/documents.rs:594-640 | an edit is asked of the worker iff it is well formed and accepted, what it names is kept, fewer than 1,000 are applied and the journal has room; and when it is refused as exceeding a limit |
| `Reopening.AppliedExactlyWhen` | src-tauri/src/documents.rs:594-661 | with a willing worker an edit is made iff that holds, the engine can make it, and it leaves as many pages as foreseen |
| `Answers.UndoneExactlyWhen` | src-tauri/src/documents.rs:664-708 | undo succeeds iff an edit is applied and the kept bytes open with what is given; else what is answered |
| `Answers.RedoneExactlyWhen` | src-tauri/src/documents.rs:711-740 | redo succeeds iff an edit was undone and the engine can make it |
| `Answers.RecoveredExactlyWhen` | src-tauri/src/documents.rs:745-786 | recovering succeeds iff edits are offered in whole or in part, nothing is unsaved, and they can all be made on the file, with the count foreseen |
| `Answers.PictureKeptExactlyWhen` | src-tauri/src/documents.rs:2269-2306 | a picture is kept iff annotating is allowed and fewer than 16 are in use; under a new number, beside those in use |
| `Answers.WordsKeptExactlyWhen` | src-tauri/src/documents.rs:2336-2370 | the same of prepared words |
| `Answers.SourceKeptExactlyWhen` | src-tauri/src/documents.rs:2137-2193 | the same of a file to take pages from, whatever its text boxes cost |
| `Answers.InsertedExactlyWhen` | src-tauri/src/documents.rs:3136-3149 | the pages of a file can be put in iff it is kept, there is such a place, the author allows assembling, and the document has at most 100,000 pages then |
| `Answers.SentWith` | src-tauri/src/documents.rs:3251-3271 | with an edit goes the thing it names, and nothing with one that names none |
| `Answers.NamesSomething` | crates/ipc_contract/src/worker.rs:599-803 | a file is named by inserting its pages only, a picture by a picture stamp, prepared words by a text box added or worded anew |
| `Answers.LosesWorkerExactlyWhen` | src-tauri/src/documents.rs:640-661 | an edit asked of the worker costs the worker iff the request fails for good or halfway, or what is made has no pages, too many, or another number than foreseen |
| `Answers.StaysInTabExactlyWhen` | src-tauri/src/documents.rs:2678-2710 | the tab gives its document up after a command iff it was opened with a password and has no worker |
| `Consequences.SavePutsWhen` | src-tauri/src/documents.rs:809-886 | with its worker there, a save puts its file in place iff something is unsaved and its own file is as known, or a place was chosen, and the file is not read-only and nothing fails |
| `Consequences.MarkPutsWhen` | src-tauri/src/documents.rs:915-982 | a mark is written iff the document is not signed, the mark changes, nothing is unsaved or offered, its file is as known and not read-only, and nothing fails |
| `Consequences.MarkWrites` | src-tauri/src/documents.rs:915-982 | a mark answered Ok wrote the file as it was read with the mark put in or taken out, in its place, and no other file; the document goes by that file from then on, with its pages as they were |
| `Reopening.AnotherFileIsTaken` | src-tauri/src/documents.rs:3479-3485 | another file with the same pages is taken for the document's |
| `Reopening.WrittenYetFailed` | src-tauri/src/documents.rs:2694-2697 | a protected document saved elsewhere: the file is written, and an error answered |
| `Reopening.DiscardedYetFailed` | src-tauri/src/documents.rs:788-802 | a file opened with its password whose journal is made again and whose worker crashes: discarding what is then offered deletes the journal, and an error is answered |
| `PageLists.DeletedCount` | src-tauri/src/documents.rs:3121-3128 | deleting distinct pages of the document leaves as many fewer |
| `PageLists.DeletedAt` | crates/pdf_worker/src/engine.rs:900-924 | a page that stays moves up by as many as are deleted before it |
| `PageLists.MovedPermutes` | src-tauri/src/documents.rs:3129-3135 | a move loses and doubles no page |
| `PageLists.MovedAt` | crates/pdf_worker/src/engine.rs:926-963 | where each page goes: the moved ones side by side and in their order just before the place named, the others in theirs |
| `PageLists.InsertedAt` | crates/pdf_worker/src/engine.rs:963-976 | pages put in, or a blank one, are all there from the place named on, and the others in their order around them |
| `PageLists.TurnedAt` | crates/pdf_worker/src/engine.rs:866-892 | a quarter turns the pages named and no others, two are a half, and with three more all are as they were |
| `PageLists.NoPageLeftIsRefused` | src-tauri/src/documents.rs:3121-3128 | a deletion is refused iff it would leave no page |
| `PageLists.CountIsForeseen` | src-tauri/src/documents.rs:3020-3187 | the foreseen count is that of the page list after the edit, within 1 and the limit |
| `PageLists.CountsAreForeseen` | src-tauri/src/documents.rs:3204-3214 | the same for every sequence of accepted edits |
| `PageLists.PageTree.MovePages` | crates/pdf_worker/src/engine.rs:926-963 | moving one page at a time, to the end and then into place, is the block move; after a failure halfway the pages are as they were, if the moves made can be made back, and none is lost or doubled if not |
| `TextBoxes.SetGroup` | src-tauri/src/documents.rs:2028-2113 | one family's boxes, in chunks: every request makes fewer candidates left, and what is learned of each box stays true |
| `TextBoxes.Grouped` | src-tauri/src/documents.rs:2003-2024 | every unresolved box is in the one group of the family it tries next, only those are, and the groups are in the order of their keys |
| `TextBoxes.PrepareInserted` | src-tauri/src/documents.rs:1950-2130 | ends, with at most as many requests as families to try, and exactly `Requests` of them when nothing fails or is deferred; with no failure it equals the one-by-one loop however answers are deferred; with failures every model is still a candidate's own; if no answer sets more than so many texts, it asks as often as that takes |
| `TextBoxFonts.CandidatesAre` | src-tauri/src/documents.rs:1961-1999 | a box tries its own family, then exactly the fallbacks of another name, each once, in order |
| `TextBoxFonts.TriedByName` | src-tauri/src/documents.rs:1961-1999 | by name, for a family that is no fallback and for one that is |
| `TextBoxFonts.SameNameIs` | src-tauri/src/documents.rs:1987-2030 | names are compared without regard to the case of ASCII letters, and of no others |
| `TextBoxFonts.TryIs` | src-tauri/src/documents.rs:2026-2052 | of a family the first of the lightest and most upright fonts is used, if it can be read |
| `TextBoxFonts.FirstFamilySets` | src-tauri/src/documents.rs:1956-2129 | when nothing fails, each of the first 1,000 boxes with a valid text and a family that sets it is in the result, behind what came before it, with the model of the first such family |
| `TextBoxFonts.NoneSets` | src-tauri/src/documents.rs:2117-2129 | a box none of whose families sets its text is left out |
| `TextBoxRequests.TakenExactlyWhen` | crates/ipc_contract/src/validate.rs:1829-1881 | an answer is taken iff it has an outcome for each text and what is deferred is all at its end, after a text that was set |
| `TextBoxRequests.PrepareTexts` | crates/pdf_worker/src/engine/text_box/font.rs:213-251 | the worker's loop over the texts of a request, up to 32 MiB of models: the specified outcomes |
| `TextBoxRequests.WorkerIsTrue` | crates/pdf_worker/src/engine/text_box/font.rs:213-251 | what the worker answers is true of every text and an answer the host takes: deferred last, and after one that was set |
| `TextBoxRequests.OneFamilySixtyThree` | crates/ipc_contract/src/limits.rs:270-277 | 1,000 boxes of one family whose models are of the largest size take 63 requests and more |
| `TextBoxRequests.OneFamilyThirty` | crates/ipc_contract/src/limits.rs:270-277 | boxes of one family, at most 1,000, take at most 30 requests when nothing is deferred |
| `TextBoxRequests.AtLeastOneEach` | crates/ipc_contract/src/limits.rs:270-277 | boxes of as many families take at least as many requests |
| `TextBoxRequests.ThirtyOneFamilies` | crates/ipc_contract/src/limits.rs:270-277 | 31 boxes, each of a family of its own, take 31 requests and more, whatever the worker makes of them |
| `Versions.NextKeeps` | src-tauri/src/documents.rs:2655-2710 | every step of every thread keeps numbers drawn once, one lock holder, and retired numbers retired |
| `Versions.WorksOnWhatWasNamed` | src-tauri/src/documents.rs:2655-2694 | work is only done on a document that has the number named, by one thread at a time |
| `Versions.NumbersDiffer` | src-tauri/src/documents.rs:2933-2935 | no two documents have the same number |
| `Versions.AtMostOneChanges` | src-tauri/src/documents.rs:652-735 | in every interleaving, of all commands naming one number at most one changes the document |
| `Versions.NextTold` | src-tauri/src/documents.rs:2700-2709 | one step of any thread keeps every open document told, or about to be told, under the number it has, iff it does not renumber or lose one whose number another thread is about to tell |
| `Versions.RunTold` | src-tauri/src/documents.rs:2700-2709 | over every run, saves and losses included, each document is told, or about to be, all the way iff no step renumbers or loses one while another thread is about to tell its number |
| `Versions.AtRestAllAreTold` | src-tauri/src/documents.rs:2700-2709 | after any run none of whose steps strands a document, one that nobody is about to tell of is told under its own number |
| `Versions.RenumberingNeverStrands` | src-tauri/src/documents.rs:2700-2709 | where every change renumbers, no step of any run strands a document |
| `Versions.FoundExactlyWhen` | src-tauri/src/documents.rs:2655-2694 | a command finds its document iff it names the number last told of an open tab, and works on it iff the document still has it |
| `Versions.OpensExactlyWhen` | src-tauri/src/documents.rs:288-426 | a file is opened in a tab iff no other thread opens one there, and it has no document and was not closed |
| `Versions.ClosesExactlyWhen` | src-tauri/src/documents.rs:482-508 | a tab closes iff nobody works on its document, and then nothing is found or opened in it any more |
| `Versions.GivesUpExactly` | src-tauri/src/documents.rs:2678-2710 | work that fails leaves the document as it was; one given up is gone, and who waited for it finds nothing |
| `Versions.RefreshesExactlyWhen` | src-tauri/src/documents.rs:2813-2841 | a state is told again under the number the document has, while nobody works on it |
| `Versions.NoneWaitsForGood` | src-tauri/src/documents.rs:2655-2710 | no deadlock: in every state of every run a thread goes on, or waits for a lock whose holder goes on |
| `Versions.StuckStays` | src-tauri/src/documents.rs:2684-2694 | a document told under another number stays out of reach of every command |
| `Versions.SaveAndEditMayStrand` | src-tauri/src/documents.rs:2700-2709 | a run of a save and an edit that ends there |
| `Passwords.GainsOnlyWhatOpened` | src-tauri/src/documents.rs:361-367 | with unchanged files the store gains only a password typed, asked to be kept, that just opened the file with that key |
| `Passwords.RememberedOpened` | src-tauri/src/documents.rs:450-479 | over any run, whatever is remembered for a key was typed for a file with that key and opened it |
| `Passwords.LoadedExactlyWhen` | src-tauri/src/documents.rs:288-426 | a file opens iff it has no password or the one tried; what is asked, what is protected, and what is remembered then |
| `Passwords.AsksUntilOpened` | src-tauri/src/documents.rs:288-478 | a tab opens its file once, asks while the password is not known, and keeps asking until the right one is typed |
| `Passwords.OpensUnasked` | src-tauri/src/documents.rs:2716-2747 | a document lost with its worker is opened again unasked iff its password is remembered and still opens the file |
| `Passwords.ForgottenIsGone` | src-tauri/src/documents.rs:2786-2841 | forgetting takes the one entry, or all, and nothing else |
| `Passwords.TriedOnce` | src-tauri/src/documents.rs:327-345 | a remembered password is tried at most once per opening, and one that does not fit leaves the store as it is |
| `Passwords.KeptForWhatAsked` | src-tauri/src/documents.rs:361-367 | the password is kept for the file it opened iff that is the file asked about |
| `Passwords.ReplacedMeanwhile` | src-tauri/src/documents.rs:337-367 | a file replaced while its password was asked for |
| `Backgrounds.NextKeeps` | src-tauri/src/background.rs:93-286 | hidden means a batch runs or ended unheard; closing means a message or its close is to come; whatever the order |
| `Backgrounds.SomethingIsToCome` | src-tauri/src/background.rs:236-286 | while the window is hidden something can happen by itself: a batch ends, a task is done, a message is read |
| `Backgrounds.ByItselfEnds` | src-tauri/src/commands.rs:1949-1976 | each such step leaves less to come |
| `Backgrounds.BackBeforeLong` | src-tauri/src/background.rs:236-286 | from every state of every run, such steps are at most as many as there is to come, and when none is left the window is shown or closed |
| `Backgrounds.DiscardsAsChosen` | src-tauri/src/background.rs:272-286 | with the window hidden and no refused close outstanding, any step discards unsaved changes iff it is the close after the message was read and the last close that hid the window chose so |
| `Backgrounds.DiscardsWhen` | src-tauri/src/commands.rs:2233-2236 | whatever the state, unsaved changes are discarded iff the close task runs with that choice or a refused close of the page goes on, and then the window is closed |
| `Backgrounds.RunRefusals` | src-tauri/src/background.rs:92-114 | over every run, a hidden window never has a refused close outstanding iff no step hides it, or refuses one, against that |
| `Backgrounds.RefusedDiscardsHidden` | src-tauri/src/commands.rs:2230-2236 | a run in which a refused close discards what the hidden window was to keep |
| `Backgrounds.ShowTaskShows` | src-tauri/src/background.rs:151-168 | asked for, a window that was not closed for good is shown, the close called off and the icon gone; batches and what waits go on |
| `Backgrounds.ShownOnceAsked` | src-tauri/src/background.rs:151-168 | from every state of every run, once asked for it is shown, or was closed, when the main thread has done what waited, whatever happens meanwhile |
| `Backgrounds.HideTaskHides` | src-tauri/src/background.rs:93-115 | closing hides it iff a batch runs and the system lets it, with the choice made now; else whoever asked may close |
| `Backgrounds.EndedTaskTells` | src-tauri/src/background.rs:235-271 | the message is put up iff the window is hidden and no batch runs any more |
| `Backgrounds.CloseTaskCloses` | src-tauri/src/background.rs:273-286 | a message that was read closes the app iff it was to close |
| `Backgrounds.ShownAgainStays` | src-tauri/src/background.rs:272-278 | a message read after the window was shown again closes nothing |
| `Backgrounds.IconStays` | src-tauri/src/background.rs:93-114 | the icon is there exactly while the window waits after any step but one: a hide while the app is closing and a batch runs |
| `Backgrounds.RunIcon` | src-tauri/src/background.rs:93-114 | over every run, the icon is there exactly while the window waits all the way iff no such step is taken |
| `Backgrounds.IconIfBegunInTime` | src-tauri/src/background.rs:93-114 | so it is over every run in which no batch is begun while the app is closing |
| `Backgrounds.HiddenWithoutIcon` | src-tauri/src/background.rs:101-113 | a run that leaves the window hidden without it |
| `Backgrounds.OneMessageStays` | src-tauri/src/background.rs:240-270 | after a step one message at most is out iff the step does not show the window, or hide it again, while the one message is out |
| `Backgrounds.RunMessages` | src-tauri/src/background.rs:240-270 | over every run, one message at most is out all the way iff no such step is taken |
| `Backgrounds.ClosesOnceRead` | src-tauri/src/background.rs:272-286 | then the app closes only once the message was read |
| `Backgrounds.EarlierMessageCloses` | src-tauri/src/background.rs:240-286 | a run in which the message of an earlier batch closes the app |
| `Backgrounds.Background.HideWindow` | src-tauri/src/background.rs:92-114 | the window is hidden iff a batch runs and the system lets it, with the icon and the choice as specified |
| `Backgrounds.Background.RunTask` | src-tauri/src/background.rs:64-81 | the main thread does what waits for it in turn, as specified |
| `Batches.NumberedDiffers` | src-tauri/src/batch.rs:96-104 | different numbers give different names, for every name |
| `Batches.NumberedBeforeExtension` | src-tauri/src/batch.rs:94-106 | from the second copy on the number stands in brackets in front of the last extension |
| `Batches.NumberedAtEnd` | src-tauri/src/batch.rs:94-106 | or at the end of a name that has none; the first copy has the name itself |
| `Batches.Place` | src-tauri/src/documents.rs:1543-1556 | the copy gets the first free of 999 names and replaces nothing; refused iff all are taken, when placing does not fail |
| `Batches.Run` | src-tauri/src/batch.rs:109-180 | the outcomes and the folder are those of the files done one after the other; done, failed and skipped add up, the skipped are those after the stop, nothing that was there changes, exactly as many files come, all of different names, and the Bates numbers are one run without gap or repeat |
| `Batches.MarkedExactlyWhen` | crates/ipc_contract/src/types.rs:1300-1341 | as many pages are marked as there are to be (all; all but the first; those named); refused iff that is none, a named one is not there, or the last number has too many digits |
| `Batches.FailedWith` | src-tauri/src/documents.rs:1432-1560 | why a file fails: the first of what keeps it from being opened, marked, copied and placed |
| `Batches.DoneExactlyWhen` | src-tauri/src/batch.rs:109-180 | a file is done iff the batch was not stopped, it can be opened, it has pages to mark and numbers for them, and a name is free; its Bates range is as long as its pages to mark, from the next number on |
| `Batches.EachPageIsNumbered` | src-tauri/src/batch.rs:109-180 | every page to be marked of every file that is done has exactly one number: the k-th, file by file and in order, the k-th from the start, within the range told of its file |
| `Batches.NumbersLookDifferent` | crates/ipc_contract/src/types.rs:1213-1230 | no two numbers of a batch look alike |
| `Decimals.AsWritten` | crates/ipc_contract/src/types.rs:1214-1221 | numbers are written as usual, the ones last |
| `Decimals.PaddedReads` | crates/ipc_contract/src/types.rs:1214-1221 | a padded number reads as itself and takes just its places when it fits them |
| `NaturalOrders.TakeDigits` | src-tauri/src/create_pdf.rs:116-123 | the whole run of digits is taken, without the zeros in front |
| `NaturalOrders.NaturalOrder` | src-tauri/src/create_pdf.rs:82-114 | names compare as their lists of tokens, runs of digits of any length by value |
| `NaturalOrders.NaturalOrderIsTotal` | src-tauri/src/create_pdf.rs:82-114 | the order is a total preorder, and equal means equal tokens |
| `NaturalOrders.SmallerNumberFirst` | src-tauri/src/create_pdf.rs:79-114 | of names alike up to a number the one with the smaller number comes first, however many digits and whatever follows |
| `NaturalOrders.SmallerLetterFirst` | src-tauri/src/create_pdf.rs:79-114 | of names alike up to a letter the one whose letter is first in lower case, and one that ends there |
| `NaturalOrders.CaseDoesNotCount` | src-tauri/src/create_pdf.rs:79-114 | names alike in lower case compare equal |
| `NaturalOrders.SortSorts` | src-tauri/src/create_pdf.rs:72-73 | the sources come out in order, all of them, and those that compare equal as they were picked |
| `NaturalOrders.SourcesOf` | src-tauri/src/create_pdf.rs:52-75 | refused iff none, too many, an unknown kind, or another kind than pictures among several; else in order |
| `Markdown.EscapeMarkdown` | src-tauri/src/export.rs:453-471 | the escaped line, as specified |
| `Markdown.RoundTrip` | src-tauri/src/export.rs:450-471 | undoing backslash escapes gives every line back |
| `Markdown.NoSpecialIsLeft` | src-tauri/src/export.rs:455-463 | no special character reads as itself unescaped |
| `Markdown.EscapedExactlyWhen` | src-tauri/src/export.rs:453-471 | character by character the line reads as the text, and escaped are exactly the twelve special characters and the mark it begins with |
| `Markdown.NoMarkIsLeft` | src-tauri/src/export.rs:464-469 | the line never begins with what starts a list or underlines a heading |
| `Markdown.MarkIsLeftAfterSpaces` | src-tauri/src/export.rs:464-469 | after up to three spaces such a mark is left iff the text begins with a space and had one there |
| `Markdown.SpacedItemIsLeft` | src-tauri/src/export.rs:464-469 | a list item after a space, which is left as it is |
| `FontLists.Retain` | src-tauri/src/fonts.rs:458-459 | of each name, without regard to case, the first font stays |
| `FontLists.UserWins` | src-tauri/src/fonts.rs:263-267 | a machine font is listed only if the user has none of its name |
| `FontLists.UserIsListed` | src-tauri/src/fonts.rs:263-267 | what the user registered is listed, the first of each name, however many fonts the machine has, while the user's own names are within the limit |
| `FontLists.ImportedWins` | src-tauri/src/fonts.rs:452-459 | an installed font is listed only if none of its name was imported |
| `FontLists.FirstIsListed` | src-tauri/src/fonts.rs:458-460 | with imported and installed fonts together within the limit, every name has its first font in the list |
| `FontLists.InstalledIsListed` | src-tauri/src/fonts.rs:452-460 | an installed font is in the joined list iff none of its name was imported and fewer names than the limit come before it, imported or installed and sorting before it |
| `FontLists.UserIsListedToo` | src-tauri/src/fonts.rs:452-460 | the same of what the user registered, from the registrations on |
| `FontLists.LastGoes` | src-tauri/src/fonts.rs:458-460 | with as many installed as the limit and one imported, the installed one that sorts last goes, whoever registered it |
| `FontLists.FontOrderIs` | src-tauri/src/fonts.rs:461-468 | the order: by family, not bold before bold, upright before italic, then by name, in lower case |
| `FontLists.ListIsInOrder` | src-tauri/src/fonts.rs:458-468 | the list is in order, no name twice, and within the limit |
| `FontLists.IdOf` | src-tauri/src/fonts.rs:286-300 | the first free number from the hash on, around; it ends while fewer than 2^32 are taken |
| `FontLists.FontIndex.List` | src-tauri/src/fonts.rs:470-481 | numbers are distinct, each font's own unless taken, and the maps hold exactly them |
| `FontLists.Style` | src-tauri/src/fonts.rs:138-154 | the style words at the end, all of them and no more, say bold and italic; one word stays the family |

## Left out

- OCR, signing, attachments, comparing, text export and the single-shot copies: each is a guard and a worker call.
- The PDF engine, the frames between processes and the validators of what the page sends, but for what an edit of pages asks.
- Preparing pictures, words and source files for edits is modelled on values only (`Sessions.AddPicture` and its kind); the three stores are maps there, without their byte limits.
- `Sessions.AddSource`: the texts and fonts of the requests for text boxes that come along with the pages are in
  `TextBoxes` only; here each of them may fail, and one that loses the worker is the last.
- Forgetting a password (`documents.rs:2798-2808`), which on a document that is gone is done and answered with an error.
- The display name, the security report, the edit count and the encrypted flag of what the page is told.
- Windows' file calls: a temporary file is made, checked and put in place, or fails with an error and leaves the destination.
- Reports and progress of batches (`Record`), and the map of running batches: members that follow from one body.
- The wait of five seconds for a page that does not answer is only one of those who ask to close.
- The list of recent files, the tabs' order and the window's title.
- Fonts: which registrations are font files, and the import of one; hashing is any function below 2^32.
- `OpenDocuments.OpenDocument.KeepJournal`: a write of the journal that fails on disk, which the code ignores, is not modelled; what is found after a crash is then an older journal.
- Two threads that tell a document's state at once are only in `Versions`; the other modules take the state told last for the one told.
