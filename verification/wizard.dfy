/**
  The job-creation wizard: a four-step linear state machine collecting a job
  name, a scene count and an optional configuration path, with one cursor
  shared by the three text buffers.
 */
module Wizard {
  import opened Errors
  import opened Text
  import Int32

  datatype WizardStep = JobName | NumScenes | ConfigFile | Confirm

  /** Position of a step along the wizard, from 0 (JobName) to 3 (Confirm). */
  function Ordinal(s: WizardStep): nat
  {
    match s
    case JobName => 0
    case NumScenes => 1
    case ConfigFile => 2
    case Confirm => 3
  }

  /** The step after `s`; Confirm is terminal. */
  function Succ(s: WizardStep): (r: WizardStep)
    ensures Ordinal(r) == if Ordinal(s) < 3 then Ordinal(s) + 1 else 3
  {
    match s
    case JobName => NumScenes
    case NumScenes => ConfigFile
    case ConfigFile => Confirm
    case Confirm => Confirm
  }

  /** The step before `s`; JobName is the first. */
  function Pred(s: WizardStep): (r: WizardStep)
    ensures Ordinal(r) == if Ordinal(s) > 0 then Ordinal(s) - 1 else 0
  {
    match s
    case JobName => JobName
    case NumScenes => JobName
    case ConfigFile => NumScenes
    case Confirm => ConfigFile
  }

  /** Stepping back undoes stepping forward everywhere except at Confirm,
      and stepping forward undoes stepping back everywhere except at JobName. */
  lemma StepsInvert(s: WizardStep)
    ensures s != Confirm ==> Pred(Succ(s)) == s
    ensures s != JobName ==> Succ(Pred(s)) == s
  {
  }

  /** The wizard's buffers. `cursor` is one offset shared by whichever buffer
      the current step edits. */
  datatype JobWizard = JobWizard(
    step: WizardStep,
    jobName: string,
    numScenes: string,
    configFile: string,
    cursor: nat)

  /** The scene count a fresh wizard proposes. */
  const DefaultScenes: string := "100"

  /** The wizard as created and as reset. */
  function New(): (r: JobWizard)
    ensures r.step == JobName && r.cursor == 0
    ensures r.jobName == [] && r.configFile == [] && r.numScenes == "100"
    ensures Int32.Parse(r.numScenes) == Some(100)
  {
    Int32.ParseExamples();
    JobWizard(JobName, [], DefaultScenes, [], 0)
  }

  /** Back to the first step with cleared name and configuration path, the
      default scene count and the cursor at 0, whatever was entered before. */
  function Reset(w: JobWizard): (r: JobWizard)
    ensures r.step == JobName
    ensures r.jobName == [] && r.configFile == [] && r.numScenes == "100"
    ensures r.cursor == 0
    ensures r == New()
  {
    New()
  }

  /** Advances the step only; buffers and cursor are untouched. */
  function NextStep(w: JobWizard): (r: JobWizard)
    ensures Ordinal(r.step) == if Ordinal(w.step) < 3 then Ordinal(w.step) + 1 else 3
    ensures r == w.(step := r.step)
  {
    w.(step := Succ(w.step))
  }

  /** Retreats the step only; buffers and cursor are untouched. */
  function PreviousStep(w: JobWizard): (r: JobWizard)
    ensures Ordinal(r.step) == if Ordinal(w.step) > 0 then Ordinal(w.step) - 1 else 0
    ensures r == w.(step := r.step)
  {
    w.(step := Pred(w.step))
  }

  /** The buffer a step edits; Confirm edits none. */
  function Field(w: JobWizard, s: WizardStep): string
    requires s != Confirm
  {
    match s
    case JobName => w.jobName
    case NumScenes => w.numScenes
    case ConfigFile => w.configFile
  }

  /** `w` with the buffer of step `s` replaced by `f`. */
  function WithField(w: JobWizard, s: WizardStep, f: string): (r: JobWizard)
    requires s != Confirm
    ensures Field(r, s) == f
    ensures forall t :: t != Confirm && t != s ==> Field(r, t) == Field(w, t)
    ensures r.step == w.step && r.cursor == w.cursor
  {
    match s
    case JobName => w.(jobName := f)
    case NumScenes => w.(numScenes := f)
    case ConfigFile => w.(configFile := f)
  }

  /** Typing is defined when the cursor lies inside the current buffer
      (or at Confirm, where typing is ignored); otherwise the program panics. */
  predicate CharSafe(w: JobWizard)
  {
    w.step == Confirm || w.cursor <= |Field(w, w.step)|
  }

  /** Erasing is defined when the cursor is at 0 (nothing happens), at
      Confirm, or inside the current buffer; otherwise the program panics. */
  predicate BackspaceSafe(w: JobWizard)
  {
    w.cursor == 0 || CharSafe(w)
  }

  /** Inserts `c` at the cursor into the current step's buffer only and
      advances the cursor; ignored at Confirm. */
  function HandleChar(w: JobWizard, c: char): (r: JobWizard)
    requires CharSafe(w)
    ensures w.step == Confirm ==> r == w
    ensures w.step != Confirm ==>
      var f := Field(w, w.step);
      var g := Field(r, w.step);
      && r.step == w.step
      && r.cursor == w.cursor + 1
      && |g| == |f| + 1
      && g[w.cursor] == c
      && g[..w.cursor] == f[..w.cursor]
      && g[w.cursor + 1..] == f[w.cursor..]
    ensures forall t :: t != Confirm && t != w.step ==> Field(r, t) == Field(w, t)
  {
    if w.step == Confirm then w
    else
      var r := WithField(w, w.step, InsertAt(Field(w, w.step), w.cursor, c));
      r.(cursor := w.cursor + 1)
  }

  /** Deletes the character before the cursor from the current step's buffer
      only and moves the cursor back; ignored at cursor 0 and at Confirm. */
  function HandleBackspace(w: JobWizard): (r: JobWizard)
    requires BackspaceSafe(w)
    ensures w.cursor == 0 || w.step == Confirm ==> r == w
    ensures w.cursor > 0 && w.step != Confirm ==>
      var f := Field(w, w.step);
      var g := Field(r, w.step);
      && r.step == w.step
      && r.cursor == w.cursor - 1
      && |g| == |f| - 1
      && g[..w.cursor - 1] == f[..w.cursor - 1]
      && g[w.cursor - 1..] == f[w.cursor..]
    ensures forall t :: t != Confirm && t != w.step ==> Field(r, t) == Field(w, t)
  {
    if w.cursor == 0 || w.step == Confirm then w
    else
      var r := WithField(w, w.step, RemoveAt(Field(w, w.step), w.cursor - 1));
      r.(cursor := w.cursor - 1)
  }

  /** Erasing what was just typed restores the wizard. */
  lemma BackspaceUndoesChar(w: JobWizard, c: char)
    requires w.step != Confirm && CharSafe(w)
    ensures HandleBackspace(HandleChar(w, c)) == w
  {
    RemoveInsert(Field(w, w.step), w.cursor, c);
  }

  /** Submission is allowed when a name was entered and the scene count is
      any text Rust parses as an `i32`: an optional sign, at least one ASCII
      digit, and a value within the 32-bit range. Zero and negative counts are
      accepted; the configuration path never matters. */
  function IsValid(w: JobWizard): (r: bool)
    ensures r <==>
      && w.jobName != []
      && Int32.WellFormed(w.numScenes)
      && Int32.InRange(Int32.Denotation(w.numScenes))
  {
    w.jobName != [] && Int32.Parse(w.numScenes).Some?
  }

  /** Concrete validity cases: zero and negative counts pass, and an empty
      count, a lone sign or a count beyond `i32` do not. */
  lemma IsValidExamples()
    ensures IsValid(New().(jobName := "Run A"))
    ensures IsValid(JobWizard(Confirm, "a", "0", [], 0))
    ensures IsValid(JobWizard(Confirm, "a", "-5", [], 0))
    ensures IsValid(JobWizard(Confirm, "a", "+007", [], 0))
    ensures !IsValid(JobWizard(Confirm, "a", "", [], 0))
    ensures !IsValid(JobWizard(Confirm, "a", "-", [], 0))
    ensures !IsValid(JobWizard(Confirm, "a", "12a", [], 0))
    ensures !IsValid(JobWizard(Confirm, "a", "2147483648", [], 0))
    ensures IsValid(JobWizard(Confirm, "a", "-2147483648", [], 0))
    ensures !IsValid(JobWizard(Confirm, [], "100", [], 0))
  {
    Int32.ParseExamples();
    Int32.ParseBoundaryExamples();
  }

  /** An edit of the buffer under the cursor. */
  datatype Edit = Type(c: char) | Erase

  /** Applies edits one after another while the wizard stays at JobName; the
      cursor keeps pointing just past the end of the name. */
  function ApplyEdits(w: JobWizard, edits: seq<Edit>): (r: JobWizard)
    requires w.step == JobName && w.cursor == |w.jobName|
    ensures r.step == JobName && r.cursor == |r.jobName|
    ensures r.numScenes == w.numScenes && r.configFile == w.configFile
    decreases |edits|
  {
    if edits == [] then w
    else
      var next := match edits[0]
        case Type(c) => HandleChar(w, c)
        case Erase => HandleBackspace(w);
      ApplyEdits(next, edits[1..])
  }

  /** From a reset wizard, any typing and erasing on the first step keeps the
      cursor at the end of the name, so the edits never panic. */
  lemma EditsFromResetKeepCursor(w: JobWizard, edits: seq<Edit>)
    ensures var r := ApplyEdits(Reset(w), edits);
            r.step == JobName && r.cursor == |r.jobName| && CharSafe(r)
  {
  }

  /** The cursor is shared and not repositioned when the step changes, so a
      name longer than the next buffer leaves the cursor outside it: typing a
      four-letter name and pressing Tab makes the next key press panic. */
  lemma CursorOverrunsNextBuffer()
    ensures var w := NextStep(ApplyEdits(New(), [Type('a'), Type('b'), Type('c'), Type('d')]));
            && w.step == NumScenes && w.numScenes == "100" && w.cursor == 4
            && !CharSafe(w) && !BackspaceSafe(w)
  {
  }

  /** The evidently intended navigation: changing step moves the cursor to
      the end of the buffer of the step entered (0 at Confirm). */
  function EnterStep(w: JobWizard, s: WizardStep): (r: JobWizard)
    ensures r.step == s
    ensures r.jobName == w.jobName && r.numScenes == w.numScenes && r.configFile == w.configFile
    ensures s != Confirm ==> r.cursor == |Field(w, s)|
    ensures s == Confirm ==> r.cursor == 0
  {
    w.(step := s, cursor := if s == Confirm then 0 else |Field(w, s)|)
  }

  /** Every wizard key as the corrected wizard handles it. */
  datatype WizardKey = Key(c: char) | Backspace | Forward | Back

  /** The corrected wizard's invariant: outside Confirm the cursor is at the
      end of the current buffer. */
  predicate CursorAtEnd(w: JobWizard)
  {
    w.step == Confirm || w.cursor == |Field(w, w.step)|
  }

  /** One key of the corrected wizard: the as-written editing, with the
      cursor repositioned on every step change. */
  function HandleKeyFixed(w: JobWizard, k: WizardKey): (r: JobWizard)
    requires CursorAtEnd(w)
    ensures CursorAtEnd(r)
    ensures CharSafe(r) && BackspaceSafe(r)
    ensures k.Forward? ==> r.step == Succ(w.step)
    ensures k.Back? ==> r.step == Pred(w.step)
    ensures k.Forward? || k.Back? ==>
      r.jobName == w.jobName && r.numScenes == w.numScenes && r.configFile == w.configFile
  {
    match k
    case Key(c) => HandleChar(w, c)
    case Backspace => HandleBackspace(w)
    case Forward => EnterStep(w, Succ(w.step))
    case Back => EnterStep(w, Pred(w.step))
  }

  /** Runs keys through the corrected wizard. */
  function RunFixed(w: JobWizard, keys: seq<WizardKey>): (r: JobWizard)
    requires CursorAtEnd(w)
    ensures CursorAtEnd(r)
    decreases |keys|
  {
    if keys == [] then w else RunFixed(HandleKeyFixed(w, keys[0]), keys[1..])
  }

  /** With the correction, no sequence of keys from a reset wizard can reach
      a state where typing or erasing would panic. */
  lemma FixedWizardNeverPanics(w: JobWizard, keys: seq<WizardKey>)
    ensures var r := RunFixed(Reset(w), keys);
            CharSafe(r) && BackspaceSafe(r)
  {
  }
}
