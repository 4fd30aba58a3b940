/**
  The session state of the terminal dashboard and every operation on it:
  view navigation, list selection, the help toggle, entering and leaving the
  job wizard, job submission, the search toggle, filtering and ranking of the
  lists, refreshing the snapshots, and the job-status counts.

  Calls to the remote service are not made here: their results are
  parameters (`Result` values), and the clock is a parameter `now` in
  milliseconds.
 */
module Session {
  import opened Errors
  import opened Api
  import Search
  import Wizard
  import Ranking
  import Int32

  datatype View = Dashboard | Assets | Jobs | Help | CreateJob

  /** The whole session. `showHelp` is a flag of its own, flipped only by the
      help toggle, beside the current view `state`. */
  datatype App = App(
    state: View,
    jobs: seq<Job>,
    assets: seq<Asset>,
    selectedJob: nat,
    selectedAsset: nat,
    showHelp: bool,
    wizard: Wizard.JobWizard,
    search: Search.SearchBox,
    status: Option<string>,
    lastRefresh: nat)

  /** Snapshots older than this many milliseconds are refreshed. */
  const RefreshIntervalMs: int := 5000

  // ---------------------------------------------------------------------
  // Refresh

  /** Replaces both snapshots with what the service returned. A failed fetch
      replaces its snapshot with the EMPTY list; the two fetches do not
      affect each other; the refresh time is recorded either way. */
  function Refresh(app: App, fetchedJobs: Result<seq<Job>>, fetchedAssets: Result<seq<Asset>>, now: nat): (r: App)
    ensures fetchedJobs.Ok? ==> r.jobs == fetchedJobs.value
    ensures fetchedJobs.Err? ==> r.jobs == []
    ensures fetchedAssets.Ok? ==> r.assets == fetchedAssets.value
    ensures fetchedAssets.Err? ==> r.assets == []
    ensures r.lastRefresh == now
    ensures r == app.(jobs := r.jobs, assets := r.assets, lastRefresh := now)
  {
    app.(jobs := fetchedJobs.GetOr([]), assets := fetchedAssets.GetOr([]), lastRefresh := now)
  }

  /** Whether more than the refresh interval has passed since the last
      refresh. */
  function ShouldRefresh(app: App, now: nat): (r: bool)
    ensures r <==> now > app.lastRefresh + RefreshIntervalMs
  {
    now - app.lastRefresh > RefreshIntervalMs
  }

  /** A refresh at time `now` is not due again at `now`, whatever the fetches
      returned, so a failing service is not polled on every iteration; it is
      due again once more than the interval has passed. */
  lemma RefreshResetsTimer(app: App, fj: Result<seq<Job>>, fa: Result<seq<Asset>>, now: nat, later: nat)
    ensures !ShouldRefresh(Refresh(app, fj, fa, now), now)
    ensures ShouldRefresh(Refresh(app, fj, fa, now), later) <==> later > now + RefreshIntervalMs
  {
  }

  /** The session as created: the dashboard, empty selections, help off, a
      fresh wizard and search box, no message, followed by a first refresh. */
  function Start(fetchedJobs: Result<seq<Job>>, fetchedAssets: Result<seq<Asset>>, now: nat): (r: App)
    ensures r.state == Dashboard && !r.showHelp && r.status == None
    ensures r.selectedJob == 0 && r.selectedAsset == 0
    ensures r.wizard == Wizard.New() && r.search == Search.New()
    ensures r.jobs == fetchedJobs.GetOr([]) && r.assets == fetchedAssets.GetOr([])
    ensures r.lastRefresh == now
    ensures !ShouldRefresh(r, now)
  {
    var initial := App(Dashboard, [], [], 0, 0, false, Wizard.New(), Search.New(), None, now);
    Refresh(initial, fetchedJobs, fetchedAssets, now)
  }

  // ---------------------------------------------------------------------
  // Views

  /** The three views plain navigation cycles through. */
  predicate InRing(v: View)
  {
    v == Dashboard || v == Jobs || v == Assets
  }

  /** Position on the ring: Dashboard 0, Jobs 1, Assets 2. */
  function RingIndex(v: View): nat
    requires InRing(v)
  {
    match v
    case Dashboard => 0
    case Jobs => 1
    case Assets => 2
  }

  /** Tab: one step forward on the ring; Help goes to Dashboard; the wizard
      view stays put. */
  function NextView(v: View): (r: View)
    ensures InRing(v) ==> InRing(r) && RingIndex(r) == (RingIndex(v) + 1) % 3
    ensures v == Help ==> r == Dashboard
    ensures v == CreateJob ==> r == CreateJob
  {
    match v
    case Dashboard => Jobs
    case Jobs => Assets
    case Assets => Dashboard
    case Help => Dashboard
    case CreateJob => CreateJob
  }

  /** Shift-Tab: one step backward on the ring; Help goes to Dashboard; the
      wizard view stays put. */
  function PreviousView(v: View): (r: View)
    ensures InRing(v) ==> InRing(r) && RingIndex(r) == (RingIndex(v) + 2) % 3
    ensures v == Help ==> r == Dashboard
    ensures v == CreateJob ==> r == CreateJob
  {
    match v
    case Dashboard => Assets
    case Assets => Jobs
    case Jobs => Dashboard
    case Help => Dashboard
    case CreateJob => CreateJob
  }

  /** Three steps forward around the ring come back; a step back undoes a
      step forward and vice versa. */
  lemma RingLaws(v: View)
    requires InRing(v)
    ensures NextView(NextView(NextView(v))) == v
    ensures PreviousView(NextView(v)) == v
    ensures NextView(PreviousView(v)) == v
  {
  }

  // ---------------------------------------------------------------------
  // Selection

  /** Moves the selection of the current list up by one unless it is at the
      top; outside the job and asset views nothing moves. */
  function OnUp(app: App): (r: App)
    ensures app.state == Jobs ==>
      r == app.(selectedJob := if app.selectedJob > 0 then app.selectedJob - 1 else 0)
    ensures app.state == Assets ==>
      r == app.(selectedAsset := if app.selectedAsset > 0 then app.selectedAsset - 1 else 0)
    ensures app.state != Jobs && app.state != Assets ==> r == app
  {
    match app.state
    case Jobs =>
      if app.selectedJob > 0 then app.(selectedJob := app.selectedJob - 1) else app
    case Assets =>
      if app.selectedAsset > 0 then app.(selectedAsset := app.selectedAsset - 1) else app
    case _ => app
  }

  /** `a - b`, stopping at 0 (`usize::saturating_sub`). */
  function SaturatingSub(a: nat, b: nat): nat
  {
    if a >= b then a - b else 0
  }

  /** Moves the selection of the current list down by one while it is before
      the last element of the FULL, unfiltered list; outside the job and asset
      views nothing moves. */
  function OnDown(app: App): (r: App)
    ensures app.state == Jobs ==>
      && r == app.(selectedJob := r.selectedJob)
      && (r.selectedJob == app.selectedJob + 1 <==> app.selectedJob + 1 < |app.jobs|)
      && (r.selectedJob != app.selectedJob + 1 ==> r.selectedJob == app.selectedJob)
    ensures app.state == Assets ==>
      && r == app.(selectedAsset := r.selectedAsset)
      && (r.selectedAsset == app.selectedAsset + 1 <==> app.selectedAsset + 1 < |app.assets|)
      && (r.selectedAsset != app.selectedAsset + 1 ==> r.selectedAsset == app.selectedAsset)
    ensures app.state != Jobs && app.state != Assets ==> r == app
  {
    match app.state
    case Jobs =>
      if app.selectedJob < SaturatingSub(|app.jobs|, 1) then app.(selectedJob := app.selectedJob + 1) else app
    case Assets =>
      if app.selectedAsset < SaturatingSub(|app.assets|, 1) then app.(selectedAsset := app.selectedAsset + 1) else app
    case _ => app
  }

  /** A selection inside its list stays inside it under both moves, and a
      selection beyond the end (left there by a refresh that shortened the
      list) is never moved further down. */
  lemma SelectionStaysInBounds(app: App)
    ensures app.selectedJob < |app.jobs| ==> OnDown(app).selectedJob < |app.jobs| && OnUp(app).selectedJob < |app.jobs|
    ensures app.selectedAsset < |app.assets| ==> OnDown(app).selectedAsset < |app.assets| && OnUp(app).selectedAsset < |app.assets|
    ensures OnDown(app).selectedJob <= app.selectedJob || OnDown(app).selectedJob < |app.jobs|
    ensures OnDown(app).selectedAsset <= app.selectedAsset || OnDown(app).selectedAsset < |app.assets|
  {
  }

  /** Concrete clamping: at the last of three jobs, moving down stays put;
      on an empty list with the selection at 0 neither move changes
      anything, but a stale selection on an empty list still moves up. */
  lemma SelectionExamples(app: App)
    requires app.state == Jobs
    ensures |app.jobs| == 3 && app.selectedJob == 2 ==> OnDown(app).selectedJob == 2
    ensures |app.jobs| == 0 && app.selectedJob == 0 ==> OnDown(app) == app && OnUp(app) == app
    ensures |app.jobs| == 0 && app.selectedJob > 0 ==>
      OnDown(app) == app && OnUp(app).selectedJob == app.selectedJob - 1
  {
  }

  /** A refresh whose job fetch fails empties the list but keeps the
      selection: two Downs on three jobs, then a failed refresh, leave the
      selection at 2 on an empty list, and Up still moves it to 1. */
  lemma StaleSelectionAfterFailedRefresh(app: App, fj: Result<seq<Job>>, fa: Result<seq<Asset>>, now: nat)
    requires app.state == Jobs && |app.jobs| == 3 && app.selectedJob == 0 && fj.Err?
    ensures var a := Refresh(OnDown(OnDown(app)), fj, fa, now);
            && a.jobs == [] && a.selectedJob == 2
            && OnUp(a).selectedJob == 1 && OnDown(a) == a
  {
  }

  // ---------------------------------------------------------------------
  // Help, wizard and status

  /** Flips the help flag and shows Help when it turns on, Dashboard when it
      turns off, whatever view was current. */
  function ToggleHelp(app: App): (r: App)
    ensures r.showHelp == !app.showHelp
    ensures r.state == (if r.showHelp then Help else Dashboard)
    ensures r == app.(showHelp := r.showHelp, state := r.state)
  {
    var show := !app.showHelp;
    app.(showHelp := show, state := if show then Help else Dashboard)
  }

  /** The help flag is not cleared by leaving Help with Tab, so the next
      help toggle turns help OFF and lands on Dashboard instead of showing
      help. */
  lemma HelpFlagOutlivesHelpView(app: App)
    requires !app.showHelp
    ensures var shown := ToggleHelp(app);
            var left := shown.(state := NextView(shown.state));
            var again := ToggleHelp(left);
            shown.state == Help && left.state == Dashboard && left.showHelp
            && again.state == Dashboard && !again.showHelp
  {
  }

  /** Opens the wizard on a reset form. */
  function StartCreateJob(app: App): (r: App)
    ensures r.state == CreateJob && r.wizard == Wizard.New()
    ensures r == app.(state := CreateJob, wizard := r.wizard)
  {
    app.(state := CreateJob, wizard := Wizard.Reset(app.wizard))
  }

  /** Leaves the wizard for the job list, discarding the form. */
  function CancelCreateJob(app: App): (r: App)
    ensures r.state == Jobs && r.wizard == Wizard.New()
    ensures r == app.(state := Jobs, wizard := r.wizard)
  {
    app.(state := Jobs, wizard := Wizard.Reset(app.wizard))
  }

  /** Drops the pending status message. */
  function ClearStatus(app: App): (r: App)
    ensures r.status == None
    ensures r == app.(status := None)
  {
    app.(status := None)
  }

  // ---------------------------------------------------------------------
  // Submission

  const InvalidMessage: string := "Invalid job parameters"
  const CreatedMessage: string := "Job created successfully!"
  const FailedPrefix: string := "Failed to create job: "

  /** The request a wizard produces, if it is valid: its name, its parsed
      scene count, and the configuration PATH text itself (not the file's
      contents) as `configYaml`, absent when the path is empty. */
  function SubmitRequest(w: Wizard.JobWizard): (r: Option<CreateJobRequest>)
    ensures r.Some? <==> Wizard.IsValid(w)
    ensures r.Some? ==>
      && r.value.name == w.jobName
      && Int32.Parse(w.numScenes) == Some(r.value.numScenes)
      && (r.value.configYaml.None? <==> w.configFile == [])
      && (r.value.configYaml.Some? ==> r.value.configYaml.value == w.configFile)
  {
    if !Wizard.IsValid(w) then None
    else
      var scenes := Int32.Parse(w.numScenes).GetOr(100);
      var config := if w.configFile == [] then None else Some(w.configFile);
      Some(CreateJobRequest(w.jobName, scenes, config))
  }

  /** Submits the wizard. `created` is the service's answer to
      `SubmitRequest(app.wizard)`; `fetchedJobs`, `fetchedAssets` and `now`
      feed the refresh that follows a successful creation.
      - invalid form: only the status message changes;
      - created: back to the job list with a success message, a reset form
        and refreshed snapshots;
      - rejected: only the status message changes, naming the error. */
  function Submit(app: App, created: Result<Job>, fetchedJobs: Result<seq<Job>>,
                  fetchedAssets: Result<seq<Asset>>, now: nat): (r: App)
    ensures !Wizard.IsValid(app.wizard) ==> r == app.(status := Some(InvalidMessage))
    ensures Wizard.IsValid(app.wizard) && created.Ok? ==>
      && r.state == Jobs
      && r.status == Some(CreatedMessage)
      && r.wizard == Wizard.New()
      && r.jobs == fetchedJobs.GetOr([]) && r.assets == fetchedAssets.GetOr([])
      && r.lastRefresh == now
      && r == app.(state := Jobs, status := r.status, wizard := r.wizard,
                   jobs := r.jobs, assets := r.assets, lastRefresh := now)
    ensures Wizard.IsValid(app.wizard) && created.Err? ==>
      r == app.(status := Some(FailedPrefix + Describe(created.error)))
  {
    match SubmitRequest(app.wizard)
    case None => app.(status := Some(InvalidMessage))
    case Some(_) =>
      match created
      case Ok(_) =>
        var done := app.(status := Some(CreatedMessage), state := Jobs, wizard := Wizard.Reset(app.wizard));
        Refresh(done, fetchedJobs, fetchedAssets, now)
      case Err(e) => app.(status := Some(FailedPrefix + Describe(e)))
  }

  // ---------------------------------------------------------------------
  // Search

  /** `/`: activates the search box, or deactivates it if it was active; the
      query is kept either way. */
  function ToggleSearch(app: App): (r: App)
    ensures r.search.active == !app.search.active
    ensures r.search.query == app.search.query && r.search.cursor == app.search.cursor
    ensures r == app.(search := r.search)
  {
    if app.search.active then app.(search := Search.Deactivate(app.search))
    else app.(search := Search.Activate(app.search))
  }

  /** Empties the query AND deactivates the box. */
  function ClearSearch(app: App): (r: App)
    ensures r.search == Search.SearchBox([], 0, false)
    ensures r == app.(search := r.search)
  {
    app.(search := Search.Deactivate(Search.Clear(app.search)))
  }

  /** A job is a hit when the query matches its name or its status. */
  predicate JobHit(query: string, j: Job)
  {
    Search.Matches(query, j.name) || Search.Matches(query, j.status)
  }

  /** Jobs rank by the score of their name alone. */
  function JobScore(query: string): Job -> int
  {
    (j: Job) => Search.MatchScore(query, j.name)
  }

  /** The hits among `jobs`, in list order. */
  function JobHits(jobs: seq<Job>, query: string): seq<Job>
  {
    Ranking.Filter(jobs, j => JobHit(query, j))
  }

  /** The job list as displayed: everything, in order, for an empty query;
      otherwise exactly the hits, sorted by descending name score, ties in
      list order. */
  function FilteredJobs(app: App): (r: seq<Job>)
    ensures app.search.query == [] ==> r == app.jobs
    ensures app.search.query != [] ==>
      && (forall j :: j in r <==> j in app.jobs && JobHit(app.search.query, j))
      && multiset(r) == multiset(JobHits(app.jobs, app.search.query))
      && (forall i, k :: 0 <= i < k < |r| ==>
            Search.MatchScore(app.search.query, r[i].name) >= Search.MatchScore(app.search.query, r[k].name))
  {
    var q := app.search.query;
    if q == [] then app.jobs
    else
      var hits := JobHits(app.jobs, q);
      var r := Ranking.SortDesc(hits, JobScore(q));
      assert forall j :: j in r <==> j in hits by {
        forall j
          ensures j in r <==> j in hits
        {
          assert j in r <==> j in multiset(r);
          assert j in hits <==> j in multiset(hits);
        }
      }
      assert forall j :: j in hits <==> j in app.jobs && JobHit(q, j);
      r
  }

  /** Ranking is stable: for every score, the jobs with that score appear in
      the same relative order as in the list. */
  lemma FilteredJobsStable(app: App, score: int)
    requires app.search.query != []
    ensures var q := app.search.query;
            Ranking.Tier(FilteredJobs(app), JobScore(q), score) == Ranking.Tier(JobHits(app.jobs, q), JobScore(q), score)
  {
    Ranking.SortDescStable(JobHits(app.jobs, app.search.query), JobScore(app.search.query), score);
  }

  /** With a non-empty query, every matching job is listed exactly as often
      as it occurs in the job list, and no other job is listed. */
  lemma FilteredJobsCounts(app: App)
    requires app.search.query != []
    ensures forall j {:trigger multiset(FilteredJobs(app))[j]} ::
      multiset(FilteredJobs(app))[j] == if JobHit(app.search.query, j) then multiset(app.jobs)[j] else 0
  {
    Ranking.FilterCounts(app.jobs, j => JobHit(app.search.query, j));
  }

  /** An asset is a hit when the query matches its name or its file type. */
  predicate AssetHit(query: string, a: Asset)
  {
    Search.Matches(query, a.name) || Search.Matches(query, a.fileType)
  }

  /** Assets rank by the score of their name alone. */
  function AssetScore(query: string): Asset -> int
  {
    (a: Asset) => Search.MatchScore(query, a.name)
  }

  /** The hits among `assets`, in list order. */
  function AssetHits(assets: seq<Asset>, query: string): seq<Asset>
  {
    Ranking.Filter(assets, a => AssetHit(query, a))
  }

  /** The asset list as displayed: everything, in order, for an empty query;
      otherwise exactly the hits, sorted by descending name score, ties in
      list order. */
  function FilteredAssets(app: App): (r: seq<Asset>)
    ensures app.search.query == [] ==> r == app.assets
    ensures app.search.query != [] ==>
      && (forall a :: a in r <==> a in app.assets && AssetHit(app.search.query, a))
      && multiset(r) == multiset(AssetHits(app.assets, app.search.query))
      && (forall i, k :: 0 <= i < k < |r| ==>
            Search.MatchScore(app.search.query, r[i].name) >= Search.MatchScore(app.search.query, r[k].name))
  {
    var q := app.search.query;
    if q == [] then app.assets
    else
      var hits := AssetHits(app.assets, q);
      var r := Ranking.SortDesc(hits, AssetScore(q));
      assert forall a :: a in r <==> a in hits by {
        forall a
          ensures a in r <==> a in hits
        {
          assert a in r <==> a in multiset(r);
          assert a in hits <==> a in multiset(hits);
        }
      }
      assert forall a :: a in hits <==> a in app.assets && AssetHit(q, a);
      r
  }

  /** Ranking of assets is stable in the same sense as for jobs. */
  lemma FilteredAssetsStable(app: App, score: int)
    requires app.search.query != []
    ensures var q := app.search.query;
            Ranking.Tier(FilteredAssets(app), AssetScore(q), score) == Ranking.Tier(AssetHits(app.assets, q), AssetScore(q), score)
  {
    Ranking.SortDescStable(AssetHits(app.assets, app.search.query), AssetScore(app.search.query), score);
  }

  /** With a non-empty query, every matching asset is listed exactly as
      often as it occurs in the asset list, and no other asset is listed. */
  lemma FilteredAssetsCounts(app: App)
    requires app.search.query != []
    ensures forall a {:trigger multiset(FilteredAssets(app))[a]} ::
      multiset(FilteredAssets(app))[a] == if AssetHit(app.search.query, a) then multiset(app.assets)[a] else 0
  {
    Ranking.FilterCounts(app.assets, a => AssetHit(app.search.query, a));
  }

  // ---------------------------------------------------------------------
  // Status counts

  /** The statuses of `jobs`, in order. */
  function Statuses(jobs: seq<Job>): (r: seq<string>)
    ensures |r| == |jobs|
    ensures forall i :: 0 <= i < |jobs| ==> r[i] == jobs[i].status
  {
    seq(|jobs|, i requires 0 <= i < |jobs| => jobs[i].status)
  }

  /** How many jobs carry exactly the status `s`. */
  function CountStatus(jobs: seq<Job>, s: string): (r: nat)
    ensures r == multiset(Statuses(jobs))[s]
    ensures r <= |jobs|
  {
    if jobs == [] then 0
    else
      assert Statuses(jobs) == [jobs[0].status] + Statuses(jobs[1..]);
      (if jobs[0].status == s then 1 else 0) + CountStatus(jobs[1..], s)
  }

  /** The dashboard's count of running jobs. */
  function RunningCount(app: App): (r: nat)
    ensures r == multiset(Statuses(app.jobs))["running"]
    ensures r <= |app.jobs|
  {
    CountStatus(app.jobs, "running")
  }

  /** The dashboard's count of completed jobs. */
  function CompletedCount(app: App): (r: nat)
    ensures r == multiset(Statuses(app.jobs))["completed"]
    ensures r <= |app.jobs|
  {
    CountStatus(app.jobs, "completed")
  }

  /** The dashboard's count of queued jobs. */
  function QueuedCount(app: App): (r: nat)
    ensures r == multiset(Statuses(app.jobs))["queued"]
    ensures r <= |app.jobs|
  {
    CountStatus(app.jobs, "queued")
  }

  /** Counts of three different statuses never add up to more than the
      number of jobs, since no job carries two statuses. */
  lemma {:induction false} DistinctStatusCountsBounded(jobs: seq<Job>, a: string, b: string, c: string)
    requires a != b && b != c && a != c
    ensures CountStatus(jobs, a) + CountStatus(jobs, b) + CountStatus(jobs, c) <= |jobs|
    decreases |jobs|
  {
    if jobs != [] {
      DistinctStatusCountsBounded(jobs[1..], a, b, c);
    }
  }

  /** The dashboard's three counters never add up to more than the number
      of jobs. */
  lemma StatusCountsBounded(app: App)
    ensures RunningCount(app) + CompletedCount(app) + QueuedCount(app) <= |app.jobs|
  {
    DistinctStatusCountsBounded(app.jobs, "running", "completed", "queued");
  }
}
