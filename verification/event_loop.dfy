/**
  The body of the interactive loop: how one key press is routed to the
  wizard, the search box, the pending status message or the global key
  bindings (in that priority order), and when the periodic refresh runs.

  Drawing the screen and waiting for input are left to the caller: an
  iteration receives the event that arrived (or none, when the 100 ms poll
  timed out) and the answers of the remote service it may need.
 */
module EventLoop {
  import opened Errors
  import opened Api
  import Search
  import Wizard
  import opened Session

  datatype KeyCode = Char(c: char) | Enter | Esc | Tab | BackTab | Backspace | Up | Down | OtherKey

  datatype KeyEventKind = Press | Repeat | Release

  /** A terminal event: a key event, or anything else (mouse, resize, focus). */
  datatype Event = Key(code: KeyCode, kind: KeyEventKind) | NonKey

  /** What the outside world supplies to one iteration: the answers the
      remote service gives if the iteration lists jobs, lists assets or
      creates a job, and the clock reading, in milliseconds. */
  datatype Remote = Remote(
    jobs: Result<seq<Job>>,
    assets: Result<seq<Asset>>,
    created: Result<Job>,
    now: nat)

  /** Which handler a key press goes to. */
  datatype Route = WizardRoute | SearchRoute | StatusRoute | GlobalRoute

  /** The wizard takes every key while it is open; otherwise an active search
      box takes them; otherwise a pending message swallows one key; only then
      do the global bindings apply. */
  function RouteOf(app: App): (r: Route)
    ensures r == WizardRoute <==> app.state == CreateJob
    ensures r == SearchRoute <==> app.state != CreateJob && app.search.active
    ensures r == StatusRoute <==> app.state != CreateJob && !app.search.active && app.status.Some?
    ensures r == GlobalRoute <==> app.state != CreateJob && !app.search.active && app.status.None?
  {
    if app.state == CreateJob then WizardRoute
    else if app.search.active then SearchRoute
    else if app.status.Some? then StatusRoute
    else GlobalRoute
  }

  /** Handling `code` does not panic: typing and erasing in the wizard or the
      search box need the shared cursor to lie inside the edited buffer. */
  predicate KeySafe(app: App, code: KeyCode)
  {
    match RouteOf(app)
    case WizardRoute =>
      (code.Char? ==> Wizard.CharSafe(app.wizard)) && (code.Backspace? ==> Wizard.BackspaceSafe(app.wizard))
    case SearchRoute =>
      (code.Char? || code.Backspace?) ==> Search.CursorFits(app.search)
    case _ => true
  }

  /** Keys while the wizard is open. Esc cancels to the job list; Tab and
      Shift-Tab move between steps; Enter submits from ANY step; characters
      and Backspace edit the current buffer. Nothing here quits, and the view
      can only change to the job list (cancel, or a successful submission). */
  function WizardKey(app: App, code: KeyCode, remote: Remote): (r: App)
    requires app.state == CreateJob
    requires code.Char? ==> Wizard.CharSafe(app.wizard)
    requires code.Backspace? ==> Wizard.BackspaceSafe(app.wizard)
    ensures r.state == CreateJob || r.state == Jobs
    ensures r.state == Jobs <==>
      code.Esc? || (code.Enter? && Wizard.IsValid(app.wizard) && remote.created.Ok?)
    ensures r.search == app.search && r.showHelp == app.showHelp
    ensures r.selectedJob == app.selectedJob && r.selectedAsset == app.selectedAsset
    ensures code.Tab? || code.BackTab? || code.Char? || code.Backspace? ==> r == app.(wizard := r.wizard)
    ensures code.Tab? ==> r.wizard == Wizard.NextStep(app.wizard) && r.wizard.step == Wizard.Succ(app.wizard.step)
    ensures code.BackTab? ==> r.wizard == Wizard.PreviousStep(app.wizard) && r.wizard.step == Wizard.Pred(app.wizard.step)
    ensures code.Esc? ==> r == CancelCreateJob(app) && r.wizard == Wizard.New()
    ensures code.Enter? ==> r == Submit(app, remote.created, remote.jobs, remote.assets, remote.now)
    ensures code.Char? ==> r.wizard == Wizard.HandleChar(app.wizard, code.c)
    ensures code.Backspace? ==> r.wizard == Wizard.HandleBackspace(app.wizard)
    ensures code.Up? || code.Down? || code.OtherKey? ==> r == app
  {
    match code
    case Esc => CancelCreateJob(app)
    case Tab => app.(wizard := Wizard.NextStep(app.wizard))
    case BackTab => app.(wizard := Wizard.PreviousStep(app.wizard))
    case Enter => Submit(app, remote.created, remote.jobs, remote.assets, remote.now)
    case Char(c) => app.(wizard := Wizard.HandleChar(app.wizard, c))
    case Backspace => app.(wizard := Wizard.HandleBackspace(app.wizard))
    case _ => app
  }

  /** Keys while the search box is active. Esc empties and deactivates it;
      Enter deactivates it and keeps the query; characters and Backspace edit
      the query. Nothing but the search box changes. */
  function SearchKey(app: App, code: KeyCode): (r: App)
    requires code.Char? || code.Backspace? ==> Search.CursorFits(app.search)
    ensures r == app.(search := r.search)
    ensures code.Esc? ==> r.search.query == [] && !r.search.active
    ensures code.Enter? ==> r.search == Search.Deactivate(app.search)
    ensures code.Enter? ==> r.search.query == app.search.query && !r.search.active
    ensures code.Esc? ==> r == ClearSearch(app)
    ensures code.Char? ==> r.search == Search.HandleChar(app.search, code.c)
    ensures code.Backspace? ==> r.search == Search.HandleBackspace(app.search)
    ensures Search.Valid(app.search) ==> Search.Valid(r.search)
    ensures !(code.Esc? || code.Enter? || code.Char? || code.Backspace?) ==> r == app
  {
    match code
    case Esc => ClearSearch(app)
    case Enter => app.(search := Search.Deactivate(app.search))
    case Char(c) => app.(search := Search.HandleChar(app.search, c))
    case Backspace => app.(search := Search.HandleBackspace(app.search))
    case _ => app
  }

  /** The global key bindings: q quits, r refreshes, c opens the wizard, /
      toggles search, Tab and Shift-Tab move around the views, Down/j and Up/k
      move the selection, ? toggles help; Enter and every other key do
      nothing. Returns the new session and whether to quit. */
  function GlobalKey(app: App, code: KeyCode, remote: Remote): (r: (App, bool))
    ensures r.1 <==> code == Char('q')
    ensures r.1 ==> r.0 == app
    ensures code == Char('c') ==> r.0 == StartCreateJob(app) && r.0.state == CreateJob && r.0.wizard == Wizard.New()
    ensures code == Tab ==> r.0 == app.(state := NextView(app.state))
    ensures code == BackTab ==> r.0 == app.(state := PreviousView(app.state))
    ensures code == Char('r') ==> r.0 == Refresh(app, remote.jobs, remote.assets, remote.now)
    ensures code == Char('r') ==> !ShouldRefresh(r.0, remote.now)
    ensures code == Char('/') ==> r.0 == ToggleSearch(app)
    ensures code == Down || code == Char('j') ==> r.0 == OnDown(app)
    ensures code == Up || code == Char('k') ==> r.0 == OnUp(app)
    ensures code == Char('?') ==> r.0 == ToggleHelp(app)
    ensures code.Char? && code.c !in {'q', 'r', 'c', '/', 'j', 'k', '?'} ==> r.0 == app
    ensures code.Enter? || code.Esc? || code.Backspace? || code.OtherKey? ==> r.0 == app
  {
    match code
    case Char('q') => (app, true)
    case Char('r') => (Refresh(app, remote.jobs, remote.assets, remote.now), false)
    case Char('c') => (StartCreateJob(app), false)
    case Char('/') => (ToggleSearch(app), false)
    case Tab => (app.(state := NextView(app.state)), false)
    case BackTab => (app.(state := PreviousView(app.state)), false)
    case Down => (OnDown(app), false)
    case Char('j') => (OnDown(app), false)
    case Up => (OnUp(app), false)
    case Char('k') => (OnUp(app), false)
    case Enter => (app, false)
    case Char('?') => (ToggleHelp(app), false)
    case _ => (app, false)
  }

  /** The outcome of handling one key press: the new session, whether the
      loop returns, and whether the key was consumed by the wizard, the search
      box or the status message (which skips the refresh check). */
  datatype Handled = Handled(app: App, quit: bool, consumed: bool)

  /** Routes one key press by priority. */
  function HandleKey(app: App, code: KeyCode, remote: Remote): (r: Handled)
    requires KeySafe(app, code)
    ensures r.consumed <==> RouteOf(app) != GlobalRoute
    ensures r.quit <==> RouteOf(app) == GlobalRoute && code == Char('q')
    ensures RouteOf(app) == StatusRoute ==> r.app == app.(status := None)
    ensures RouteOf(app) == SearchRoute ==> r.app == SearchKey(app, code) && r.app == app.(search := r.app.search)
    ensures RouteOf(app) == WizardRoute ==> r.app == WizardKey(app, code, remote)
    ensures RouteOf(app) == GlobalRoute ==> (r.app, r.quit) == GlobalKey(app, code, remote)
  {
    match RouteOf(app)
    case WizardRoute => Handled(WizardKey(app, code, remote), false, true)
    case SearchRoute => Handled(SearchKey(app, code), false, true)
    case StatusRoute => Handled(ClearStatus(app), false, true)
    case GlobalRoute =>
      var (next, quit) := GlobalKey(app, code, remote);
      Handled(next, quit, false)
  }

  /** The result of one loop iteration: the new session, whether the loop
      returns, and whether the periodic refresh ran. */
  datatype Tick = Tick(app: App, quit: bool, refreshed: bool)

  /** The refresh check at the end of an iteration. */
  function AutoRefresh(app: App, remote: Remote): (r: Tick)
    ensures !r.quit
    ensures r.refreshed <==> ShouldRefresh(app, remote.now)
    ensures !r.refreshed ==> r.app == app
    ensures r.refreshed ==> r.app == Refresh(app, remote.jobs, remote.assets, remote.now)
    ensures r.refreshed ==> !ShouldRefresh(r.app, remote.now)
  {
    if ShouldRefresh(app, remote.now) then
      Tick(Refresh(app, remote.jobs, remote.assets, remote.now), false, true)
    else
      Tick(app, false, false)
  }

  /** A key press, as opposed to a release, a repeat or a non-key event. */
  predicate IsPress(ev: Option<Event>)
  {
    ev.Some? && ev.value.Key? && ev.value.kind == Press
  }

  /** One iteration after drawing: dispatch the event that arrived, if it is
      a key press, then run the refresh check unless the key was consumed by
      the wizard, the search box or the status message, or quit the loop. */
  function Iterate(app: App, ev: Option<Event>, remote: Remote): (r: Tick)
    requires IsPress(ev) ==> KeySafe(app, ev.value.code)
    ensures r.quit <==> IsPress(ev) && ev.value.code == Char('q') && RouteOf(app) == GlobalRoute
    ensures r.quit ==> !r.refreshed && r.app == app
    ensures !IsPress(ev) ==> r == AutoRefresh(app, remote)
    ensures IsPress(ev) && RouteOf(app) != GlobalRoute ==> !r.refreshed
    ensures IsPress(ev) && RouteOf(app) != GlobalRoute ==> r.app == HandleKey(app, ev.value.code, remote).app
    ensures IsPress(ev) && !r.quit && RouteOf(app) == GlobalRoute ==>
      r == AutoRefresh(GlobalKey(app, ev.value.code, remote).0, remote)
  {
    if IsPress(ev) then
      var h := HandleKey(app, ev.value.code, remote);
      if h.quit then Tick(h.app, true, false)
      else if h.consumed then Tick(h.app, false, false)
      else AutoRefresh(h.app, remote)
    else
      AutoRefresh(app, remote)
  }

  /** An iteration whose key press reaches the global bindings (other than
      q) refreshes exactly when the refresh is due after the key's effect. */
  lemma GlobalKeyThenRefreshCheck(app: App, code: KeyCode, remote: Remote)
    requires RouteOf(app) == GlobalRoute && code != Char('q')
    ensures var r := Iterate(app, Some(Key(code, Press)), remote);
            var after := GlobalKey(app, code, remote).0;
            r.refreshed <==> ShouldRefresh(after, remote.now)
  {
  }

  /** While the wizard is open no key quits, moves around the view ring,
      opens help or touches the search box. */
  lemma WizardIsModal(app: App, code: KeyCode, remote: Remote)
    requires app.state == CreateJob && KeySafe(app, code)
    ensures var r := Iterate(app, Some(Key(code, Press)), remote);
            && !r.quit && !r.refreshed
            && (r.app.state == CreateJob || r.app.state == Jobs)
            && r.app.search == app.search && r.app.showHelp == app.showHelp
  {
  }

  /** While search is active (outside the wizard) no global binding fires:
      only the search box changes, and q is typed rather than quitting. */
  lemma SearchIsModal(app: App, code: KeyCode, remote: Remote)
    requires app.state != CreateJob && app.search.active && KeySafe(app, code)
    ensures var r := Iterate(app, Some(Key(code, Press)), remote);
            && !r.quit && !r.refreshed
            && r.app == app.(search := r.app.search)
    ensures code == Char('q') ==>
      Iterate(app, Some(Key(code, Press)), remote).app.search.query == Search.HandleChar(app.search, 'q').query
  {
  }

  /** A pending message swallows the next key press, whatever it is. */
  lemma StatusSwallowsKey(app: App, code: KeyCode, remote: Remote)
    requires app.state != CreateJob && !app.search.active && app.status.Some?
    ensures var r := Iterate(app, Some(Key(code, Press)), remote);
            !r.quit && !r.refreshed && r.app == app.(status := None)
  {
  }

  /** Every iteration keeps the search box's cursor at the end of its query. */
  lemma IterateKeepsSearchValid(app: App, ev: Option<Event>, remote: Remote)
    requires IsPress(ev) ==> KeySafe(app, ev.value.code)
    ensures Search.Valid(app.search) ==> Search.Valid(Iterate(app, ev, remote).app.search)
  {
  }

  /** One iteration's inputs. */
  datatype Input = Input(event: Option<Event>, remote: Remote)

  /** How a run of the loop over a finite input script ends: the loop
      returned (q), the script ran out, or a key press panicked. */
  datatype Outcome = Exited(app: App) | Running(app: App) | Panicked(app: App)

  /** The loop over a script of inputs. */
  function Run(app: App, inputs: seq<Input>): (r: Outcome)
    ensures r.Exited? ==> exists i :: 0 <= i < |inputs| && inputs[i].event == Some(Key(Char('q'), Press))
    ensures Search.Valid(app.search) && !r.Panicked? ==> Search.Valid(r.app.search)
    ensures Search.Valid(app.search) && r.Panicked? ==> r.app.state == CreateJob
    decreases |inputs|
  {
    if inputs == [] then Running(app)
    else
      var ev := inputs[0].event;
      if IsPress(ev) && !KeySafe(app, ev.value.code) then Panicked(app)
      else
        var t := Iterate(app, ev, inputs[0].remote);
        IterateKeepsSearchValid(app, ev, inputs[0].remote);
        if t.quit then Exited(t.app)
        else
          var r := Run(t.app, inputs[1..]);
          assert r.Exited? ==> exists i :: 0 <= i < |inputs[1..]| && inputs[1..][i].event == Some(Key(Char('q'), Press));
          r
  }

  /** A press of `code` with the given answers from the outside world. */
  function Pressed(code: KeyCode, remote: Remote): Input
  {
    Input(Some(Key(code, Press)), remote)
  }

  /** A script whose first iteration neither panics nor quits continues
      from the session that iteration leaves. */
  lemma RunStep(app: App, first: Input, rest: seq<Input>)
    requires IsPress(first.event) ==> KeySafe(app, first.event.value.code)
    requires !Iterate(app, first.event, first.remote).quit
    ensures Run(app, [first] + rest) == Run(Iterate(app, first.event, first.remote).app, rest)
  {
    assert ([first] + rest)[1..] == rest;
  }

  /** Inside the wizard, Tab advances the form's step and a character is
      typed into it; the loop stays in the wizard. */
  lemma WizardStepOrType(app: App, code: KeyCode, remote: Remote)
    requires app.state == CreateJob && (code.Tab? || code.Char?) && KeySafe(app, code)
    ensures var t := Iterate(app, Some(Key(code, Press)), remote);
            && !t.quit && t.app.state == CreateJob
            && t.app.wizard == (if code.Tab? then Wizard.NextStep(app.wizard) else Wizard.HandleChar(app.wizard, code.c))
  {
  }

  /** Two Tabs after a one-letter name leave the cursor at 1 in the empty
      config-file buffer, so the next character panics. */
  lemma PanicAfterTwoTabs(app: App, remote: Remote)
    requires app.state == CreateJob && app.wizard.step == Wizard.JobName
    requires app.wizard.cursor == 1 && app.wizard.configFile == []
    ensures Run(app, [Pressed(Tab, remote), Pressed(Tab, remote), Pressed(Char('x'), remote)]).Panicked?
  {
    var s2 := [Pressed(Char('x'), remote)];
    var s1 := [Pressed(Tab, remote)] + s2;
    WizardStepOrType(app, Tab, remote);
    var a1 := Iterate(app, Some(Key(Tab, Press)), remote).app;
    RunStep(app, Pressed(Tab, remote), s1);
    WizardStepOrType(a1, Tab, remote);
    var a2 := Iterate(a1, Some(Key(Tab, Press)), remote).app;
    RunStep(a1, Pressed(Tab, remote), s2);
    assert a2.wizard.step == Wizard.ConfigFile && a2.wizard.cursor == 1 && a2.wizard.configFile == [];
    assert !KeySafe(a2, Char('x'));
  }

  /** In a freshly opened wizard, one letter, two Tabs and a character panic. */
  lemma PanicAfterOneLetter(app: App, remote: Remote)
    requires app.state == CreateJob && app.wizard == Wizard.New()
    ensures Run(app, [Pressed(Char('a'), remote), Pressed(Tab, remote), Pressed(Tab, remote),
                      Pressed(Char('x'), remote)]).Panicked?
  {
    var rest := [Pressed(Tab, remote), Pressed(Tab, remote), Pressed(Char('x'), remote)];
    WizardStepOrType(app, Char('a'), remote);
    var a1 := Iterate(app, Some(Key(Char('a'), Press)), remote).app;
    RunStep(app, Pressed(Char('a'), remote), rest);
    PanicAfterTwoTabs(a1, remote);
  }

  /** The loop as written panics from a fresh session: open the wizard, type
      one letter of the name, Tab twice to the (empty) config-file buffer and
      type anything; the shared cursor still points past that buffer's end. */
  lemma PanicReachable(remote: Remote)
    ensures var script := [Pressed(Char('c'), remote), Pressed(Char('a'), remote), Pressed(Tab, remote),
                           Pressed(Tab, remote), Pressed(Char('x'), remote)];
            Run(Start(remote.jobs, remote.assets, remote.now), script).Panicked?
  {
    var rest := [Pressed(Char('a'), remote), Pressed(Tab, remote), Pressed(Tab, remote), Pressed(Char('x'), remote)];
    var app := Start(remote.jobs, remote.assets, remote.now);
    assert RouteOf(app) == GlobalRoute;
    var a1 := Iterate(app, Some(Key(Char('c'), Press)), remote).app;
    RunStep(app, Pressed(Char('c'), remote), rest);
    PanicAfterOneLetter(a1, remote);
  }
}
