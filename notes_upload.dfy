/**
 * The notes library: the list of uploaded notes, the drag-highlight flag,
 * the processing flag and the selected tab.
 *
 * Each handler is one atomic state transition. The random note ids, the
 * outcome of the simulated processing (success, or the error that lands in
 * the `catch` branch) and the locale date string are parameters.
 */
module NotesUpload {
  import opened Wrappers

  datatype Status = Processing | Completed | Failed

  datatype Flashcard = Flashcard(question: string, answer: string)

  /** A multiple-choice question; `correct` indexes `options`. */
  datatype QuizItem = QuizItem(question: string, options: seq<string>, correct: int)

  /** What the widget reads from a browser `File`: its name, MIME type and byte size. */
  datatype FileInfo = FileInfo(name: string, mimeType: string, size: nat)

  /**
   * An uploaded note. `size` is the file's byte count (the widget keeps only
   * its megabyte label); the generated material is absent until processing
   * completes.
   */
  datatype Note = Note(
    id: string,
    name: string,
    mimeType: string,
    size: nat,
    uploadDate: string,
    status: Status,
    summary: Option<string>,
    flashcards: Option<seq<Flashcard>>,
    quiz: Option<seq<QuizItem>>)

  datatype Tab = UploadTab | LibraryTab | TextInputTab

  /** The kinds of drag event the drop zone listens to. */
  datatype DragKind = DragEnter | DragOver | DragLeave | DragOther

  // ---------------------------------------------------------------------
  // Processing one note
  // ---------------------------------------------------------------------

  /** `name.split(".")[0]`: the name up to its first dot, or all of it. */
  function Stem(name: string): (r: string)
    ensures |r| <= |name| && r == name[..|r|]
    ensures '.' !in r
    ensures |r| < |name| ==> name[|r|] == '.'
  {
    if name == [] || name[0] == '.' then [] else [name[0]] + Stem(name[1..])
  }

  /** The three properties of `Stem` determine it: no other prefix has them. */
  lemma StemUnique(name: string, r: string)
    requires |r| <= |name| && r == name[..|r|]
    requires '.' !in r
    requires |r| < |name| ==> name[|r|] == '.'
    ensures r == Stem(name)
  {
  }

  /** A name without a dot is its own stem. */
  lemma StemOfDotless(name: string)
    requires '.' !in name
    ensures Stem(name) == name
  {
  }

  const SummaryHead: string := "This note covers key concepts in "

  const SummaryTail: string :=
    ". Main topics include fundamental principles, practical applications, and important definitions. The content provides a comprehensive overview suitable for exam preparation and quick review."

  /**
   * The mock summary, which quotes the name's stem after its opening words:
   * it ends with the fixed closing sentences and grows only with the stem.
   */
  function Summary(name: string): (s: string)
    ensures |s| == |SummaryHead| + |Stem(name)| + |SummaryTail|
    ensures s[|s| - |SummaryTail|..] == SummaryTail
  {
    var s := SummaryHead + Stem(name) + SummaryTail;
    assert s[|s| - |SummaryTail|..] == SummaryTail;
    s
  }

  /** The middle part of a three-part concatenation is found right after the first part. */
  lemma MiddleOfThree<T>(a: seq<T>, b: seq<T>, c: seq<T>)
    ensures (a + b + c)[|a|..|a| + |b|] == b
  {
    assert (a + b + c)[|a|..|a| + |b|] == (a + b)[|a|..];
  }

  /** The summary embeds the name up to its first dot right after the opening words. */
  lemma SummaryEmbedsStem(name: string)
    ensures Summary(name)[..|SummaryHead|] == SummaryHead
    ensures Summary(name)[|SummaryHead|..|SummaryHead| + |Stem(name)|] == Stem(name)
  {
    MiddleOfThree(SummaryHead, Stem(name), SummaryTail);
    assert Summary(name)[..|SummaryHead|] == (SummaryHead + (Stem(name) + SummaryTail))[..|SummaryHead|];
  }

  /** The `k`th mock flashcard. */
  function MockFlashcard(k: nat): Flashcard
    requires k < 3
  {
    if k == 0 then
      Flashcard("What is the main concept discussed?",
                "The fundamental principles and applications covered in the study material.")
    else if k == 1 then
      Flashcard("Key takeaway from this topic?",
                "Understanding the practical applications and theoretical foundations.")
    else
      Flashcard("Important definition to remember?",
                "Core terminology and concepts essential for mastery.")
  }

  /** The `k`th mock quiz question: four options, the last one correct. */
  function MockQuizItem(k: nat): (q: QuizItem)
    requires k < 2
    ensures |q.options| == 4 && q.correct == 3
  {
    if k == 0 then
      QuizItem("Which of the following best describes the main concept?",
               ["Option A: Basic principle", "Option B: Advanced theory",
                "Option C: Practical application", "Option D: All of the above"],
               3)
    else
      QuizItem("What is the most important aspect to remember?",
               ["Memorization", "Understanding", "Application", "All three"],
               3)
  }

  function MockFlashcards(): (cards: seq<Flashcard>)
    ensures |cards| == 3
  {
    seq(3, k requires 0 <= k < 3 => MockFlashcard(k))
  }

  function MockQuiz(): (quiz: seq<QuizItem>)
    ensures |quiz| == 2
    ensures forall i :: 0 <= i < |quiz| ==> |quiz[i].options| == 4 && quiz[i].correct == 3
  {
    seq(2, k requires 0 <= k < 2 => MockQuizItem(k))
  }

  /**
   * `processNote`: the note keeps its identity and file data, becomes
   * completed and gains the summary, three flashcards and two quiz
   * questions, each of whose answer index lies among its four options.
   */
  function ProcessNote(note: Note): (r: Note)
    ensures r.id == note.id && r.name == note.name && r.mimeType == note.mimeType
    ensures r.size == note.size && r.uploadDate == note.uploadDate
    ensures r.status == Completed
    ensures r.summary == Some(Summary(note.name))
    ensures r.flashcards.Some? && |r.flashcards.value| == 3
    ensures r.quiz.Some? && |r.quiz.value| == 2
    ensures forall q :: q in r.quiz.value ==> |q.options| == 4 && q.correct == 3 && 0 <= q.correct < |q.options|
  {
    note.(status := Completed, summary := Some(Summary(note.name)),
          flashcards := Some(MockFlashcards()), quiz := Some(MockQuiz()))
  }

  // ---------------------------------------------------------------------
  // Notes for files
  // ---------------------------------------------------------------------

  const OctetStream: string := "application/octet-stream"

  /** `file.type || "application/octet-stream"`: an empty MIME type gets the generic one. */
  function DefaultMime(mimeType: string): (r: string)
    ensures r != ""
    ensures mimeType != "" ==> r == mimeType
    ensures mimeType == "" ==> r == OctetStream
  {
    if mimeType == "" then OctetStream else mimeType
  }

  /**
   * The processing note `handleFiles` creates for a file: the file's name and
   * size, its type or the generic one, the date, and no generated material yet.
   */
  function NewNote(file: FileInfo, id: string, today: string): (r: Note)
    ensures r.id == id && r.name == file.name && r.mimeType == DefaultMime(file.mimeType)
    ensures r.size == file.size && r.uploadDate == today
    ensures r.status == Processing
    ensures r.summary.None? && r.flashcards.None? && r.quiz.None?
  {
    Note(id, file.name, DefaultMime(file.mimeType), file.size, today, Processing, None, None, None)
  }

  /**
   * How a processing note settles: it is processed, or, when processing
   * raised an error (`failed`), only its status becomes failed.
   */
  function Settled(note: Note, failed: bool): (r: Note)
    ensures r.id == note.id && r.name == note.name && r.mimeType == note.mimeType
    ensures r.size == note.size && r.uploadDate == note.uploadDate
    ensures r.status == (if failed then Failed else Completed)
    ensures failed ==> r == note.(status := Failed)
    ensures !failed ==> r.summary.Some? && r.flashcards.Some? && r.quiz.Some?
  {
    if failed then note.(status := Failed) else ProcessNote(note)
  }

  /**
   * The note a file ends up as: the processed note, or the new note marked
   * failed when processing raised an error.
   */
  function ResolvedNote(file: FileInfo, id: string, today: string, failed: bool): (r: Note)
    ensures r.id == id && r.name == file.name && r.mimeType == DefaultMime(file.mimeType)
    ensures r.size == file.size && r.uploadDate == today
    ensures r.status != Processing
    ensures r.status == Failed <==> failed
    ensures failed ==> r.summary.None? && r.flashcards.None? && r.quiz.None?
  {
    Settled(NewNote(file, id, today), failed)
  }

  /** The notes the first `n` files end up as, in file order. */
  function ResolvedNotes(files: seq<FileInfo>, ids: seq<string>, failures: seq<bool>, dates: seq<string>, n: nat)
    : (r: seq<Note>)
    requires n <= |files| == |ids| == |failures| == |dates|
    ensures |r| == n
  {
    if n == 0 then []
    else ResolvedNotes(files, ids, failures, dates, n - 1) + [ResolvedNote(files[n - 1], ids[n - 1], dates[n - 1], failures[n - 1])]
  }

  /** One more file adds its settled note at the end. */
  lemma ResolvedNotesStep(start: seq<Note>, files: seq<FileInfo>, ids: seq<string>, failures: seq<bool>,
                          dates: seq<string>, k: nat)
    requires k < |files| == |ids| == |failures| == |dates|
    ensures start + ResolvedNotes(files, ids, failures, dates, k + 1)
         == start + ResolvedNotes(files, ids, failures, dates, k) + [ResolvedNote(files[k], ids[k], dates[k], failures[k])]
  {
  }

  /** The `i`th of those notes is what the `i`th file ends up as. */
  lemma {:induction false} ResolvedNotesSpec(files: seq<FileInfo>, ids: seq<string>, failures: seq<bool>,
                                             dates: seq<string>, n: nat)
    requires n <= |files| == |ids| == |failures| == |dates|
    ensures forall i :: 0 <= i < n ==>
      ResolvedNotes(files, ids, failures, dates, n)[i] == ResolvedNote(files[i], ids[i], dates[i], failures[i])
  {
    if n > 0 {
      ResolvedNotesSpec(files, ids, failures, dates, n - 1);
    }
  }

  // ---------------------------------------------------------------------
  // Updates keyed by id
  // ---------------------------------------------------------------------

  /** `prev.map(note => note.id === id ? processed : note)`. */
  function ReplaceById(notes: seq<Note>, id: string, processed: Note): (r: seq<Note>)
    ensures |r| == |notes|
    ensures forall i :: 0 <= i < |r| ==> r[i] == (if notes[i].id == id then processed else notes[i])
  {
    if notes == [] then []
    else [if notes[0].id == id then processed else notes[0]] + ReplaceById(notes[1..], id, processed)
  }

  /** `prev.map(note => note.id === id ? { ...note, status: "failed" } : note)`. */
  function MarkFailedById(notes: seq<Note>, id: string): (r: seq<Note>)
    ensures |r| == |notes|
    ensures forall i :: 0 <= i < |r| ==> r[i] == (if notes[i].id == id then notes[i].(status := Failed) else notes[i])
  {
    if notes == [] then []
    else [if notes[0].id == id then notes[0].(status := Failed) else notes[0]] + MarkFailedById(notes[1..], id)
  }

  predicate HasId(notes: seq<Note>, id: string)
  {
    exists i :: 0 <= i < |notes| && notes[i].id == id
  }

  /** Replacing the id of a note just appended to notes that lack it replaces that note only. */
  lemma ReplaceAppended(prefix: seq<Note>, note: Note, processed: Note)
    requires !HasId(prefix, note.id)
    ensures ReplaceById(prefix + [note], note.id, processed) == prefix + [processed]
  {
    var r := ReplaceById(prefix + [note], note.id, processed);
    forall i | 0 <= i < |prefix|
      ensures r[i] == prefix[i]
    {
      assert (prefix + [note])[i] == prefix[i];
    }
  }

  /** Marking the id of a note just appended to notes that lack it marks that note only. */
  lemma MarkFailedAppended(prefix: seq<Note>, note: Note)
    requires !HasId(prefix, note.id)
    ensures MarkFailedById(prefix + [note], note.id) == prefix + [note.(status := Failed)]
  {
    var r := MarkFailedById(prefix + [note], note.id);
    forall i | 0 <= i < |prefix|
      ensures r[i] == prefix[i]
    {
      assert (prefix + [note])[i] == prefix[i];
    }
  }

  /** `prev.filter(note => note.id !== id)`. */
  function WithoutId(notes: seq<Note>, id: string): (r: seq<Note>)
    ensures |r| <= |notes|
    ensures forall n :: n in r <==> n in notes && n.id != id
  {
    if notes == [] then []
    else if notes[0].id == id then WithoutId(notes[1..], id)
    else [notes[0]] + WithoutId(notes[1..], id)
  }

  /** Deleting distributes over concatenation, so the kept notes stay in their order. */
  lemma {:induction false} WithoutIdAppend(a: seq<Note>, b: seq<Note>, id: string)
    ensures WithoutId(a + b, id) == WithoutId(a, id) + WithoutId(b, id)
  {
    if a != [] {
      assert (a + b)[1..] == a[1..] + b;
      WithoutIdAppend(a[1..], b, id);
    } else {
      assert a + b == b;
    }
  }

  /** Deleting an id no note carries changes nothing. */
  lemma {:induction false} WithoutAbsentId(notes: seq<Note>, id: string)
    requires !HasId(notes, id)
    ensures WithoutId(notes, id) == notes
  {
    if notes != [] {
      assert !HasId(notes[1..], id) by {
        forall i | 0 <= i < |notes[1..]|
          ensures notes[1..][i].id != id
        {
          assert notes[1..][i] == notes[i + 1];
        }
      }
      WithoutAbsentId(notes[1..], id);
      assert [notes[0]] + notes[1..] == notes;
    }
  }

  /** No two notes share an id. */
  predicate UniqueIds(notes: seq<Note>)
  {
    forall i, j :: 0 <= i < j < |notes| ==> notes[i].id != notes[j].id
  }

  /** Deleting keeps ids unique. */
  lemma {:induction false} WithoutIdKeepsUnique(notes: seq<Note>, id: string)
    requires UniqueIds(notes)
    ensures UniqueIds(WithoutId(notes, id))
  {
    if notes != [] {
      var rest := WithoutId(notes[1..], id);
      WithoutIdKeepsUnique(notes[1..], id);
      if notes[0].id != id {
        forall j | 0 <= j < |rest|
          ensures rest[j].id != notes[0].id
        {
          assert rest[j] in notes[1..];
          var k :| 0 <= k < |notes[1..]| && notes[1..][k] == rest[j];
          assert notes[k + 1] == rest[j];
        }
        var r := [notes[0]] + rest;
        forall i, j | 0 <= i < j < |r|
          ensures r[i].id != r[j].id
        {
          if i > 0 {
            assert r[i] == rest[i - 1] && r[j] == rest[j - 1];
          } else {
            assert r[j] == rest[j - 1];
          }
        }
      }
    }
  }

  // ---------------------------------------------------------------------
  // The widget
  // ---------------------------------------------------------------------

  /** Every note has reached completed or failed. */
  predicate AllSettled(notes: seq<Note>)
  {
    forall i :: 0 <= i < |notes| ==> notes[i].status != Processing
  }

  class NotesLibrary {
    var notes: seq<Note>
    var dragActive: bool
    var processing: bool
    var activeTab: Tab

    /** Between handlers, ids are unique and no note is still processing. */
    ghost predicate Valid()
      reads this
    {
      UniqueIds(notes) && AllSettled(notes)
    }

    constructor ()
      ensures Valid()
      ensures notes == [] && !dragActive && !processing && activeTab == UploadTab
    {
      notes := [];
      dragActive := false;
      processing := false;
      activeTab := UploadTab;
    }

    /** `handleDrag`: enter and over raise the highlight, leave drops it, other kinds leave it. */
    method HandleDrag(kind: DragKind)
      modifies this`dragActive
      ensures kind == DragEnter || kind == DragOver ==> dragActive
      ensures kind == DragLeave ==> !dragActive
      ensures kind == DragOther ==> dragActive == old(dragActive)
    {
      if kind == DragEnter || kind == DragOver {
        dragActive := true;
      } else if kind == DragLeave {
        dragActive := false;
      }
    }

    /** `handleDrop`: the highlight goes; a drop with files handles them, an empty one nothing more. */
    method HandleDrop(files: seq<FileInfo>, ids: seq<string>, failures: seq<bool>, dates: seq<string>)
      requires Valid()
      requires |files| == |ids| == |failures| == |dates|
      requires FreshIds(notes, ids)
      modifies this`dragActive, this`notes, this`processing, this`activeTab
      ensures Valid() && !dragActive
      ensures files == [] ==>
        notes == old(notes) && processing == old(processing) && activeTab == old(activeTab)
      ensures files != [] ==>
        && notes == old(notes) + ResolvedNotes(files, ids, failures, dates, |files|)
        && !processing && activeTab == LibraryTab
    {
      dragActive := false;
      if files != [] {
        HandleFiles(files, ids, failures, dates);
      }
    }

    /** The file picker's change event hands every chosen file, possibly none, to `handleFiles`. */
    method HandleFileInput(files: seq<FileInfo>, ids: seq<string>, failures: seq<bool>, dates: seq<string>)
      requires Valid()
      requires |files| == |ids| == |failures| == |dates|
      requires FreshIds(notes, ids)
      modifies this`notes, this`processing, this`activeTab
      ensures Valid()
      ensures notes == old(notes) + ResolvedNotes(files, ids, failures, dates, |files|)
      ensures !processing && activeTab == LibraryTab
    {
      HandleFiles(files, ids, failures, dates);
    }

    /**
     * `handleFiles`: sets the processing flag, settles one file after
     * another, then clears the flag and shows the library.
     */
    method HandleFiles(files: seq<FileInfo>, ids: seq<string>, failures: seq<bool>, dates: seq<string>)
      requires Valid()
      requires |files| == |ids| == |failures| == |dates|
      requires FreshIds(notes, ids)
      modifies this`notes, this`processing, this`activeTab
      ensures Valid()
      ensures notes == old(notes) + ResolvedNotes(files, ids, failures, dates, |files|)
      ensures !processing && activeTab == LibraryTab
    {
      processing := true;
      ghost var start := notes;
      var k := 0;
      while k < |files|
        invariant 0 <= k <= |files|
        invariant notes == start + ResolvedNotes(files, ids, failures, dates, k)
        invariant Valid()
      {
        FreshAfterResolved(start, files, ids, failures, dates, k);
        ghost var before := notes;
        var note := NewNote(files[k], ids[k], dates[k]);
        AppendNote(note);
        SettleNote(note, failures[k], before);
        ResolvedNotesStep(start, files, ids, failures, dates, k);
        assert notes == before + [ResolvedNote(files[k], ids[k], dates[k], failures[k])];
        k := k + 1;
      }
      processing := false;
      activeTab := LibraryTab;
    }

    /**
     * The first half of one pass of `handleFiles`' loop: the new note is
     * appended. Until `SettleNote` runs, the library is not `Valid`, since
     * this note is still processing.
     */
    method AppendNote(note: Note)
      requires UniqueIds(notes) && !HasId(notes, note.id)
      modifies this`notes
      ensures notes == old(notes) + [note]
      ensures UniqueIds(notes)
    {
      AppendKeepsUnique(notes, note);
      notes := notes + [note];
    }

    /**
     * The second half: the note, the last one and the only one not yet
     * settled, is replaced by id with its processed version, or marked
     * failed when processing raised (`failed`). `prefix` names the notes
     * before it.
     */
    method SettleNote(note: Note, failed: bool, ghost prefix: seq<Note>)
      requires notes == prefix + [note] && UniqueIds(notes) && AllSettled(prefix)
      modifies this`notes
      ensures Valid()
      ensures notes == prefix + [Settled(note, failed)]
    {
      UniqueSplit(prefix, note);
      var settled := Settled(note, failed);
      if failed {
        MarkFailedAppended(prefix, note);
        notes := MarkFailedById(notes, note.id);
      } else {
        ReplaceAppended(prefix, note, settled);
        notes := ReplaceById(notes, note.id, ProcessNote(note));
      }
      AppendKeepsUnique(prefix, settled);
    }

    /** `deleteNote`: every note with the id goes, the rest stay as they were. */
    method DeleteNote(id: string)
      requires Valid()
      modifies this`notes
      ensures Valid()
      ensures notes == WithoutId(old(notes), id)
    {
      WithoutIdKeepsUnique(notes, id);
      notes := WithoutId(notes, id);
    }

    /** Switching tabs by clicking a tab trigger. */
    method SelectTab(tab: Tab)
      modifies this`activeTab
      ensures activeTab == tab
    {
      activeTab := tab;
    }
  }

  /** The injected ids are pairwise distinct and carried by no existing note. */
  predicate FreshIds(notes: seq<Note>, ids: seq<string>)
  {
    && (forall i, j :: 0 <= i < j < |ids| ==> ids[i] != ids[j])
    && (forall i :: 0 <= i < |ids| ==> !HasId(notes, ids[i]))
  }

  /** The `k`th fresh id is not yet among the notes the earlier files produced. */
  lemma FreshAfterResolved(start: seq<Note>, files: seq<FileInfo>, ids: seq<string>, failures: seq<bool>,
                           dates: seq<string>, k: nat)
    requires k < |files| == |ids| == |failures| == |dates|
    requires FreshIds(start, ids)
    ensures !HasId(start + ResolvedNotes(files, ids, failures, dates, k), ids[k])
  {
    var all := start + ResolvedNotes(files, ids, failures, dates, k);
    ResolvedNotesSpec(files, ids, failures, dates, k);
    forall i | 0 <= i < |all|
      ensures all[i].id != ids[k]
    {
      if i >= |start| {
        assert all[i].id == ids[i - |start|];
      } else {
        assert all[i] == start[i];
      }
    }
  }

  /** Unique ids in `prefix + [note]` mean unique ids in `prefix`, none of them `note`'s. */
  lemma UniqueSplit(prefix: seq<Note>, note: Note)
    requires UniqueIds(prefix + [note])
    ensures UniqueIds(prefix) && !HasId(prefix, note.id)
  {
    var all := prefix + [note];
    forall i | 0 <= i < |prefix|
      ensures prefix[i].id != note.id && prefix[i] == all[i]
    {
      assert all[i] == prefix[i] && all[|prefix|] == note;
    }
  }

  /** Appending a note whose id is new keeps ids unique. */
  lemma AppendKeepsUnique(notes: seq<Note>, note: Note)
    requires UniqueIds(notes) && !HasId(notes, note.id)
    ensures UniqueIds(notes + [note])
  {
    var all := notes + [note];
    forall i, j | 0 <= i < j < |all|
      ensures all[i].id != all[j].id
    {
      assert all[i] == notes[i];
      if j < |notes| {
        assert all[j] == notes[j];
      }
    }
  }
}
