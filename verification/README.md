# zeredata-cli session engine in Dafny

This project models the interactive terminal session of the `zere` command-line
client for the Zeredata synthetic-data service. It also proves properties of that
model. The modelled parts are:

- **SearchBox**: an editable query with a cursor, a case-insensitive subsequence
  ("fuzzy") match, and a tiered relevance score.
- **JobWizard**: a four-step form (name → scene count → config path → confirm)
  whose three text buffers share one cursor.
- **App**: the session state. It holds the current view, the job and asset
  snapshots, the selections, the help flag, the wizard, the search box, a pending
  status message and the time of the last refresh. It also holds the operations
  that move between views, move the selection, submit a job and rank the search
  results.
- **The event loop**: one iteration dispatches a key press to the wizard, to the
  search box, to the pending message or to the global bindings, in that priority
  order. It then decides whether the 5-second auto-refresh is due. A whole run
  over a finite script of inputs ends by quitting, by running out of input, or by
  panicking.
- **Config**: the defaults, the setters and the authentication check.

The remote service and the clock are parameters. An operation that lists jobs,
lists assets or creates a job receives the service's answer as a
`Result`-typed input. Time is a natural number of milliseconds.

Modules, one per file:

| file | module | role |
|---|---|---|
| `errors.dfy` | `Errors` | `Option`, `Result` and the error kinds of the client |
| `text.dfy` | `Text` | ASCII lowercasing, insertion and removal at an index, prefix, substring and subsequence |
| `int32.dfy` | `Int32` | the decimal `i32` parser the wizard's validity check uses |
| `search.dfy` | `Search` | the search box |
| `ranking.dfy` | `Ranking` | order-preserving filter and the stable descending insertion sort |
| `wizard.dfy` | `Wizard` | the job wizard, as written and with the cursor correction |
| `api.dfy` | `Api` | the job, asset and job-request records |
| `session.dfy` | `Session` | the session state and its operations |
| `event_loop.dfy` | `EventLoop` | key routing, one loop iteration, and a run over an input script |
| `config.dfy` | `Settings` | the pure part of the configuration |

## Behaviour worth knowing

The code behaves as follows in places where a reader might expect otherwise.
The model keeps each of these behaviours.

- A refresh whose fetch fails replaces that list with the empty list
  (`unwrap_or_default`). It does not keep the previous list, and it always
  succeeds.
- `SearchBox::clear` leaves the box's `active` flag alone. Only `App::clear_search`
  also deactivates it.
- The scene count is valid whenever it parses as an `i32`. So `"0"`, `"-5"` and
  `"+007"` are accepted.
- The config *path* text itself is sent as `config_yaml`. No file is read.
- Enter submits the wizard from any step, not only from Confirm.
- Moving the selection down is bounded by the length of the full list, not the
  filtered one.
- A refresh fetches jobs and then assets, one after the other.
- A successful submission refreshes both lists.
- The help flag is not cleared when Tab leaves the Help view. So `?`, Tab, `?`
  ends on Dashboard with help off (`Session.HelpFlagOutlivesHelpView`).

## Model

| member | source | states |
|---|---|---|
| Text.LowerStr | src/tui/components/search.rs:85-86 | lowercasing keeps the length and lowers each character in place |
| Text.LowerStrIdempotent | src/tui/components/search.rs:85-86 | lowercasing an already lowercased string changes nothing |
| Text.InsertAt | src/tui/components/search.rs:39 | `String::insert` at a valid index puts the character there and shifts the rest right by one |
| Text.RemoveAt | src/tui/components/search.rs:46 | `String::remove` at a valid index drops exactly that character and shifts the rest left |
| Text.RemoveInsert | src/tui/components/search.rs:37-49 | removing at the index just inserted at gives back the original string |
| Text.Contains | src/tui/components/search.rs:120 | the substring test holds iff the pattern occurs at some offset |
| Text.LowerStrFixed | src/tui/components/search.rs:85-86 | a string without upper-case letters is unchanged by lowercasing |
| Text.MissingCharRejects | src/tui/components/search.rs:90-94 | a query holding a character that the text lacks is not a subsequence of it |
| Int32.Parse | src/tui/components/job_wizard.rs:89 | `str::parse::<i32>` succeeds iff the text is an optional sign then at least one digit, with a value in the `i32` range; the value is the one the digits denote |
| Int32.ParseShow | src/tui/components/job_wizard.rs:89 | every `i32` printed in decimal parses back to itself |
| Int32.ParseExamples | src/tui/components/job_wizard.rs:88-90 | "100", "0", "-5" and "+007" parse; "", "-" and "12a" do not |
| Int32.ParseBoundaryExamples | src/tui/components/job_wizard.rs:88-90 | 2147483648 is rejected and -2147483648 is accepted |
| Search.New | src/tui/components/search.rs:16-22 | a new box is empty, inactive, and has its cursor at the end of the query |
| Search.Activate | src/tui/components/search.rs:24-26 | activating keeps the query and the cursor |
| Search.Deactivate | src/tui/components/search.rs:28-30 | deactivating keeps the query and the cursor |
| Search.Clear | src/tui/components/search.rs:32-35 | clearing empties the query and rewinds the cursor but keeps the active flag; the cursor invariant holds afterwards |
| Search.HandleChar | src/tui/components/search.rs:37-42 | ignored when inactive; otherwise the character lands at the cursor and the cursor advances; the cursor stays at the end of the query |
| Search.HandleBackspace | src/tui/components/search.rs:44-49 | ignored when inactive or at cursor 0; otherwise the character before the cursor goes and the cursor steps back; the cursor invariant is kept |
| Search.BackspaceUndoesChar | src/tui/components/search.rs:37-49 | on an active box, a backspace undoes the character just typed |
| Search.GreedyScanIsSubsequence | src/tui/components/search.rs:88-97 | the greedy left-to-right scan succeeds iff the query is a subsequence of the text |
| Search.Matches | src/tui/components/search.rs:80-98 | the empty query matches everything; otherwise the text matches iff the lowercased query is a subsequence of the lowercased text |
| Search.MatchesIgnoresCase | src/tui/components/search.rs:80-98 | lowercasing query and text in advance never changes the verdict |
| Search.MatchScore | src/tui/components/search.rs:101-130 | the score is one of 0, 10, 110, 510 and 1010; it is 0 for the empty query; otherwise it reaches the fuzzy bonus iff the text matches |
| Search.TierImpliesMatch | src/tui/components/search.rs:111-127 | a substring or prefix hit is always also a fuzzy match, so it always earns the bonus |
| Search.ScoreTiers | src/tui/components/search.rs:101-130 | 1010 iff the lowered texts are equal; 510 iff a proper prefix; 110 iff a non-prefix substring; 10 iff a subsequence only; 0 iff no subsequence |
| Search.FuzzyMatchExamples | src/tui/components/search.rs:138-145 | "wrhs" matches "warehouse" and "Warehouse Test Job" but not "robot arm" |
| Search.MatchesWarehouse | src/tui/components/search.rs:142 | "wrhs" matches "warehouse" |
| Search.MatchesWarehouseTestJob | src/tui/components/search.rs:143 | "wrhs" matches "Warehouse Test Job" regardless of case |
| Search.RejectsRobotArm | src/tui/components/search.rs:144 | "wrhs" does not match "robot arm" |
| Search.MatchScoreExamples | src/tui/components/search.rs:147-154 | "test" outscores "testing", and "test job" outscores "my test" |
| Search.ExactScoreExample | src/tui/components/search.rs:112-113 | an exact match scores 1010 |
| Search.PrefixScoreExample | src/tui/components/search.rs:116-117 | "testing" and "test job" score 510 for the query "test" |
| Search.SubstringScoreExample | src/tui/components/search.rs:120-121 | "my test" scores 110 for the query "test" |
| Search.NoRunOfTest | src/tui/components/search.rs:120 | "the best" does not contain "test" as a substring |
| Search.BonusOnlyExample | src/tui/components/search.rs:124-127 | "the best" holds "test" only as a subsequence and scores 10 |
| Search.NoMatchExample | src/tui/components/search.rs:101-130 | "robot" scores 0 for the query "test" |
| Ranking.Filter | src/tui/app.rs:208-213 | every element of the result is in the input and satisfies the predicate, and every satisfying element of the input is in the result; the result is no longer than the input |
| Ranking.FilterCounts | src/tui/app.rs:208-213 | a satisfying element is kept exactly as often as it occurs in the input; any other element does not occur in the result |
| Ranking.FilterAppend | src/tui/app.rs:208-213 | filtering a concatenation gives the filtered first part followed by the filtered second part, so kept elements stay in input order |
| Ranking.FilterTier | src/tui/app.rs:208-220 | the kept elements with a given sort key are the kept elements of that key's input elements, in the same order |
| Ranking.SortDesc | src/tui/app.rs:216-220 | the sort is a permutation of its input and its keys never increase |
| Ranking.InsertDescending | src/tui/app.rs:216-220 | inserting into a descending sequence keeps it descending |
| Ranking.ConsDescending | src/tui/app.rs:216-220 | an element put in front of a descending sequence whose keys are all at most its own gives a descending sequence |
| Ranking.InsertTier | src/tui/app.rs:216-220 | an inserted element goes to the front of its own key's elements and no other key's elements move |
| Ranking.SortDescStable | src/tui/app.rs:216-220 | the sort is stable: for each key, the elements with that key keep their input order |
| Wizard.Succ | src/tui/components/job_wizard.rs:37-42 | the next step is one further along the wizard; Confirm is a fixed point |
| Wizard.Pred | src/tui/components/job_wizard.rs:46-51 | the previous step is one back; JobName is a fixed point |
| Wizard.StepsInvert | src/tui/components/job_wizard.rs:36-52 | going back undoes going forward everywhere except Confirm, and going forward undoes going back everywhere except JobName |
| Wizard.New | src/tui/components/job_wizard.rs:26-34 | a new wizard is at JobName with an empty name and path, the scene count "100" (which parses as 100) and cursor 0 |
| Wizard.Reset | src/tui/components/job_wizard.rs:80-86 | resetting forgets all input and equals a new wizard |
| Wizard.NextStep | src/tui/components/job_wizard.rs:36-43 | only the step changes, one forward, stopping at Confirm |
| Wizard.PreviousStep | src/tui/components/job_wizard.rs:45-52 | only the step changes, one back, stopping at JobName |
| Wizard.HandleChar | src/tui/components/job_wizard.rs:54-64 | ignored at Confirm; otherwise the character lands at the cursor in the current step's buffer, the cursor advances, and the other two buffers are untouched |
| Wizard.HandleBackspace | src/tui/components/job_wizard.rs:66-78 | ignored at cursor 0 or at Confirm; otherwise the character before the cursor leaves the current buffer only and the cursor steps back |
| Wizard.BackspaceUndoesChar | src/tui/components/job_wizard.rs:54-78 | outside Confirm, a backspace undoes the character just typed |
| Wizard.IsValid | src/tui/components/job_wizard.rs:88-90 | the form is valid iff the name is non-empty and the scene count is a signed decimal numeral in the `i32` range |
| Wizard.IsValidExamples | src/tui/components/job_wizard.rs:88-90 | "0", "-5", "+007" and -2147483648 are valid counts; "", "-", "12a" and 2147483648 are not; an empty name is invalid |
| Wizard.ApplyEdits | src/tui/components/job_wizard.rs:54-78 | any typing and erasing at JobName keeps the cursor at the end of the name and leaves the other buffers alone |
| Wizard.EditsFromResetKeepCursor | src/tui/components/job_wizard.rs:54-86 | from a reset wizard, edits at the first step never leave the cursor outside the name |
| Wizard.CursorOverrunsNextBuffer | src/tui/components/job_wizard.rs:36-64 | a four-letter name followed by Tab leaves the cursor at 4 in the 3-character scene buffer, where neither typing nor erasing is safe |
| Wizard.EnterStep | src/tui/components/job_wizard.rs:36-52 | corrected navigation: entering a step puts the cursor at the end of that step's buffer and keeps all three buffers |
| Wizard.HandleKeyFixed | src/tui/components/job_wizard.rs:36-78 | with the correction, every key keeps the cursor at the end of the current buffer, so the next edit is always safe |
| Wizard.RunFixed | src/tui/components/job_wizard.rs:36-78 | the corrected wizard keeps the cursor at the end of the current buffer over any key sequence |
| Wizard.FixedWizardNeverPanics | src/tui/components/job_wizard.rs:36-86 | from a reset, no key sequence in the corrected wizard reaches a state where typing or erasing would panic |
| Session.ShouldRefresh | src/tui/app.rs:66-68 | a refresh is due iff more than 5000 ms have passed since the last one |
| Session.Refresh | src/tui/app.rs:55-64 | each list becomes the fetched list, or empty if its fetch failed; the refresh time becomes now; nothing else changes |
| Session.RefreshResetsTimer | src/tui/app.rs:62-68 | right after a refresh none is due, and a later one is due iff more than 5000 ms have passed |
| Session.Start | src/tui/app.rs:33-53 | a new session is on Dashboard with no help, no message, both selections at 0, a new wizard and search box, freshly fetched lists, and its refresh time stamped now, so no refresh is due |
| Session.NextView | src/tui/app.rs:70-78 | on Dashboard, Jobs and Assets it moves one step around the three-view ring; Help goes to Dashboard; CreateJob stays |
| Session.PreviousView | src/tui/app.rs:80-88 | on the ring it moves one step backwards; Help goes to Dashboard; CreateJob stays |
| Session.RingLaws | src/tui/app.rs:70-88 | on the ring, three forward moves are the identity and each direction undoes the other |
| Session.OnUp | src/tui/app.rs:90-104 | in Jobs or Assets that view's selection goes up one unless it is at 0; the other selection and other views are untouched |
| Session.OnDown | src/tui/app.rs:106-120 | in Jobs or Assets that view's selection goes down one iff another element follows in the full list; otherwise it stays |
| Session.SelectionStaysInBounds | src/tui/app.rs:90-120 | a selection inside its list stays inside under both moves, and one beyond the end is never moved further down |
| Session.SelectionExamples | src/tui/app.rs:90-120 | at the last of three jobs, Down stays put; on an empty list with the selection at 0 neither move changes anything; on an empty list with a stale selection above 0, Down stays put and Up still moves it up by one |
| Session.StaleSelectionAfterFailedRefresh | src/tui/app.rs:55-64 | with three jobs, two Downs and then a refresh whose job fetch fails leave the selection at 2 on an empty list, and Up then moves it to 1 |
| Session.ToggleHelp | src/tui/app.rs:128-135 | the help flag flips; the view becomes Help when it turns on and Dashboard when it turns off; nothing else changes |
| Session.HelpFlagOutlivesHelpView | src/tui/app.rs:70-78 | after `?` then Tab, the help flag is still set, so a second `?` lands on Dashboard with help off |
| Session.StartCreateJob | src/tui/app.rs:149-152 | the wizard opens on a reset form; nothing else changes |
| Session.CancelCreateJob | src/tui/app.rs:154-157 | leaving the wizard goes to the job list and resets the form; nothing else changes |
| Session.ClearStatus | src/tui/app.rs:248-250 | the pending message is dropped and nothing else changes |
| Session.SubmitRequest | src/tui/app.rs:160-176 | a request exists iff the form is valid; it carries the name and the parsed count; its config is absent iff the path is empty, and otherwise it is the path text |
| Session.Submit | src/tui/app.rs:159-189 | an invalid form only sets "Invalid job parameters"; a creation goes to Jobs with the success message, a reset form and refreshed lists; a rejection only sets "Failed to create job: " plus the error text |
| Session.ToggleSearch | src/tui/app.rs:191-197 | only the search box's active flag flips; its query and cursor stay |
| Session.ClearSearch | src/tui/app.rs:199-202 | the search box becomes empty and inactive; nothing else changes |
| Session.FilteredJobs | src/tui/app.rs:204-224 | an empty query lists every job in order; otherwise the result holds exactly the jobs whose name or status matches, each as often as in the list, in descending order of name score |
| Session.FilteredJobsCounts | src/tui/app.rs:204-224 | with a non-empty query, each matching job is listed exactly as often as it occurs in the job list, and no other job is listed |
| Session.FilteredJobsStable | src/tui/app.rs:216-220 | jobs with equal name score keep their list order |
| Session.FilteredAssets | src/tui/app.rs:226-246 | the same as for jobs, with assets matched on name or file type |
| Session.FilteredAssetsCounts | src/tui/app.rs:226-246 | with a non-empty query, each matching asset is listed exactly as often as it occurs in the asset list, and no other asset is listed |
| Session.FilteredAssetsStable | src/tui/app.rs:238-242 | assets with equal name score keep their list order |
| Session.CountStatus | src/tui/app.rs:137-147 | the count of jobs with a status is its multiplicity among the statuses, and at most the number of jobs |
| Session.RunningCount | src/tui/app.rs:137-139 | the number of jobs whose status is "running", which is at most the number of jobs |
| Session.CompletedCount | src/tui/app.rs:141-143 | the number of jobs whose status is "completed", which is at most the number of jobs |
| Session.QueuedCount | src/tui/app.rs:145-147 | the number of jobs whose status is "queued", which is at most the number of jobs |
| Session.DistinctStatusCountsBounded | src/tui/app.rs:137-147 | the counts of any three different statuses add up to at most the number of jobs |
| Session.StatusCountsBounded | src/tui/app.rs:137-147 | the dashboard's running, completed and queued counters together are never more than all jobs |
| EventLoop.RouteOf | src/tui/mod.rs:59-108 | the wizard takes every key while open; otherwise an active search box takes it; otherwise a pending message does; only then the global bindings |
| EventLoop.WizardKey | src/tui/mod.rs:59-82 | in the wizard, Esc is exactly a cancel, which resets the form and goes to Jobs with nothing else changed; Enter is exactly a submission, so it goes to Jobs iff the form is valid and the creation succeeds; Tab and BackTab are exactly the wizard's own step moves, which leave the cursor and the buffers alone; a character is typed into the form and Backspace erases from it, with nothing else changing; arrows and other keys change nothing; search, help and selections never change |
| EventLoop.WizardStepOrType | src/tui/mod.rs:64-75 | in the wizard, Tab moves the form one step forward and a character is typed into it; the loop stays in the wizard |
| EventLoop.SearchKey | src/tui/mod.rs:85-102 | in search, Esc empties and deactivates the box, Enter deactivates it and keeps the query and the cursor, a character is inserted at the cursor and Backspace removes the character before it; only the search box changes and its cursor invariant is kept |
| EventLoop.GlobalKey | src/tui/mod.rs:111-141 | only q quits, and it changes nothing; r replaces both lists with the fetched ones and restarts the timer; c opens a reset wizard; / toggles search; Tab and BackTab move around the ring; Down or j and Up or k move the selection; ? toggles help; Enter, Esc, Backspace and every other character change nothing |
| EventLoop.HandleKey | src/tui/mod.rs:57-141 | a key is consumed iff a modal handler takes it; it quits iff it is q at the global bindings; the wizard, search and global routes give exactly what their handlers give; a pending message is only cleared |
| EventLoop.AutoRefresh | src/tui/mod.rs:146-149 | refreshes iff more than 5000 ms have passed since the last refresh; a refresh replaces both lists with the fetched ones and restarts the timer; otherwise nothing changes |
| EventLoop.Iterate | src/tui/mod.rs:55-149 | an iteration quits iff a q press reaches the global bindings; without a key press it only runs the refresh check; a key taken by the wizard, the search box or the message gives that handler's session and skips the refresh check; any other key gives the global binding's session followed by the refresh check |
| EventLoop.GlobalKeyThenRefreshCheck | src/tui/mod.rs:111-149 | after a global binding other than q, the refresh check runs on the session the key produced |
| EventLoop.WizardIsModal | src/tui/mod.rs:59-82 | while the wizard is open no key quits, refreshes, moves to any view but Jobs, or touches help or search |
| EventLoop.SearchIsModal | src/tui/mod.rs:85-102 | while search is active no global binding fires; only the search box changes, and q is typed into the query |
| EventLoop.StatusSwallowsKey | src/tui/mod.rs:105-108 | a pending message absorbs the next key press and is cleared; nothing else happens |
| EventLoop.IterateKeepsSearchValid | src/tui/mod.rs:85-102 | no iteration moves the search cursor off the end of the query |
| EventLoop.Run | src/tui/mod.rs:51-150 | the loop exits only after some q press; a run keeps the search cursor at the end of the query; over character-indexed strings, a cursor-overrun panic can only happen in the wizard |
| EventLoop.PanicReachable | src/tui/mod.rs:59-82 | from a new session, c, a, Tab, Tab, x panics: the cursor left at 1 points past the empty config-path buffer |
| Settings.IsAuthenticated | src/config.rs:97-99 | the configuration is authenticated iff an API key is stored |
| Settings.Default | src/config.rs:25-38 | the default endpoint is https://api.zeredata.com with no key, so it is not authenticated |
| Settings.SetEndpoint | src/config.rs:87-89 | only the endpoint changes; the authentication state is kept |
| Settings.SetApiKey | src/config.rs:92-94 | only the key changes; the session is authenticated iff the new key is present |
| Settings.RequireAuth | src/config.rs:102-106 | it returns the stored key iff one is present, and otherwise the not-authenticated error |
| Settings.KeyRoundTrip | src/config.rs:92-106 | storing a key and requiring it gives that key back; removing it gives the not-authenticated error; the endpoint is irrelevant |
| Settings.SettersCommute | src/config.rs:87-94 | the two setters commute, and setting the same field twice keeps only the second value |

## Left out

- Rendering: the `render*` functions, the views and the layout are drawing only. No decision logic is modelled from them.
- Floating-point display maths (gauge percentages, size formatting) is not modelled.
- The HTTP client and the API wrappers are not modelled. Their answers enter as `Result` parameters (`Remote`, `Session.Refresh`, `Session.Submit`).
- The one-shot commands, argument parsing and `main` are not modelled.
- `Config::load`, `save`, `config_dir` and `config_path` are filesystem and TOML I/O and are not modelled. `App::new` is modelled from the moment the client exists (`Session.Start`).
- Terminal setup, the 100 ms poll, drawing errors and async execution are not modelled. An iteration receives the event that arrived, if any, and one clock reading.
- Text.LowerStr: lowers ASCII letters only. Rust's `to_lowercase` is full Unicode and can change the length of a string.
- Strings are sequences of characters and every cursor is a character index. In the code the cursor also counts characters, but `String::insert` and `String::remove` take byte offsets. So after any non-ASCII character, typing or erasing in the search box or the wizard can panic at a non-boundary byte offset (for example `/`, `é`, `a` calls `"é".insert(1, 'a')`). These UTF-8 panics are not modelled.
- Wizard.HandleChar: the panic of `String::insert` on a cursor past the end of the buffer is a precondition (`CharSafe`), not modelled behaviour. The event loop turns it into the `Panicked` outcome of `EventLoop.Run`.
- Wizard.HandleBackspace: likewise, the panic of `String::remove` on a cursor past the end is the precondition `BackspaceSafe`.
- Search.HandleChar: likewise, requires the cursor to lie inside the query when the box is active.
- Search.HandleBackspace: likewise, requires the cursor to lie inside the query when the box is active and the cursor is above 0.
- EventLoop.Run: a panic is said to happen only in the wizard for the cursor-overrun panics the model has. The UTF-8 byte-offset panics above can also happen in the search box.
- `App::on_select` is a placeholder that changes nothing. Enter at the global bindings is modelled as leaving the session unchanged (`EventLoop.GlobalKey`).
- The `?` propagation of `refresh` and `submit_job` errors is not modelled. Both always return `Ok` in the code, because failed fetches are turned into empty lists.
- The `Errors.Describe` texts follow the `Display` strings of the error kinds. The messages of the wrapped network and I/O errors are free text parameters.

## Findings

| source | as written | input that shows it | evidently intended | confidence | as-written member | corrected member |
|---|---|---|---|---|---|---|
| src/tui/components/job_wizard.rs:36-64 | `next_step` and `previous_step` change the step but not the shared `cursor_position`, and `handle_char` inserts at that position into the new step's buffer | in the wizard, type `abcd`, press Tab, type any character (`"100".insert(4, c)`); or type `a`, Tab, Tab, type any character (`"".insert(1, c)`) | entering a step puts the cursor at the end of that step's buffer, so typing and erasing never index past it | not executed | Wizard.CursorOverrunsNextBuffer, EventLoop.PanicReachable | Wizard.EnterStep, Wizard.HandleKeyFixed, Wizard.FixedWizardNeverPanics |

The session and the event loop keep the as-written wizard. This lets
`EventLoop.Run` report the panic as an outcome. The corrected wizard is proved
on its own.
