/**
 * JobRunner (cai_integration/trigger_jobs.py): looks the root job of the jobs
 * configuration up by name in the project's job listing, falls back to the first
 * configured job the project has, triggers that one job, and polls its run.
 */
module TriggerJobs {
  import opened Wrappers
  import opened JsonValue
  import opened CmlApi

  /** A job's `name:` entry: absent, present but null, or a string. */
  datatype NameEntry = Unnamed | NullName | Named(s: string)

  /** One entry of the `jobs` section of the jobs configuration, under its key. */
  datatype JobSpec = JobSpec(key: string, name: NameEntry, parent: Option<string>, timeout: Option<int>)

  /** A dict has each key once. */
  predicate DistinctKeys(jobs: seq<JobSpec>) {
    forall i, j :: 0 <= i < j < |jobs| ==> jobs[i].key != jobs[j].key
  }

  /** The `jobs` section in declaration order; a missing section is the empty one. */
  type JobsConfig = jobs: seq<JobSpec> | DistinctKeys(jobs)

  /** `job_config.get("name", job_key)`: `None` for a name that is present but null. */
  function NameOf(spec: JobSpec): Option<string> {
    match spec.name
    case Unnamed => Some(spec.key)
    case NullName => None
    case Named(s) => Some(s)
  }

  /** `job_name in listed`: `None` is never a key of a listing. */
  predicate Listed(name: Option<string>, listed: map<string, Json>) {
    name.Some? && name.value in listed
  }

  /** `root_job_config.get("timeout", 3600)` */
  function TimeoutOf(spec: JobSpec): int {
    spec.timeout.GetOr(3600)
  }

  /** The constructor: it exits unless both `CML_HOST` and `CML_API_KEY` are set and non-empty. */
  function NewRunner(host: Option<string>, apiKey: Option<string>): (r: Option<Client>)
    ensures r.Some? <==> host.Some? && host.value != [] && apiKey.Some? && apiKey.value != []
    ensures r.Some? ==> r.value == Connect(host.value, apiKey.value)
  {
    if host.Some? && host.value != [] && apiKey.Some? && apiKey.value != [] then
      Some(Connect(host.value, apiKey.value))
    else None
  }

  function JobsEndpoint(projectId: string): string {
    "projects/" + projectId + "/jobs"
  }

  function RunsEndpoint(projectId: string, jobId: Json): string {
    "projects/" + projectId + "/jobs/" + Show(jobId) + "/runs"
  }

  function RunEndpoint(projectId: string, jobId: Json, runId: Json): string {
    RunsEndpoint(projectId, jobId) + "/" + Show(runId)
  }

  // ----- list_jobs -----

  /** The listing's entries, `result.get("jobs", [])` of a usable reply, or `None` where
      `for job in ...` or `job.get` raises: iterating `None`, a bool or an int raises
      TypeError, and the items of a non-empty string or dict (characters, keys) have no
      `.get`. */
  function Entries(result: Option<Fields>): Option<seq<Fields>> {
    if !Usable(result) then Some([])
    else match Get(result.value, "jobs", JArr([]))
      case JArr(items) =>
        if forall k :: 0 <= k < |items| ==> items[k].JObj? then
          Some(seq(|items|, k requires 0 <= k < |items| && items[k].JObj? => items[k].fields))
        else None
      case JObj(m) => if m == map[] then Some([]) else None
      case JStr(chars) => if chars == [] then Some([]) else None
      case _ => None
  }

  /** `jobs[job_name] = job_id` raises TypeError when the name is a list or a dict. */
  predicate StoresUnhashable(entry: Fields) {
    var name := Get(entry, "name", JStr(""));
    var id := Get(entry, "id", JStr(""));
    (name.JArr? || name.JObj?) && Truthy(name) && Truthy(id)
  }

  /** What `list_jobs` returns, or `None` when it raises. */
  function ListOutcome(result: Option<Fields>): Option<map<string, Json>> {
    match Entries(result)
    case None => None
    case Some(entries) =>
      if exists k :: 0 <= k < |entries| && StoresUnhashable(entries[k]) then None
      else Some(JobMap(entries))
  }

  /** `(name, id)` of an entry whose name and id are both truthy. */
  function EntryPair(entry: Fields): Option<(string, Json)> {
    var name := Get(entry, "name", JStr(""));
    var id := Get(entry, "id", JStr(""));
    if name.JStr? && Truthy(name) && Truthy(id) then Some((name.s, id)) else None
  }

  predicate Names(entry: Fields, name: string) {
    EntryPair(entry).Some? && EntryPair(entry).value.0 == name
  }

  /** The name -> id dict that `list_jobs` fills, entry after entry. */
  function JobMap(entries: seq<Fields>): map<string, Json>
    decreases |entries|
  {
    if entries == [] then map[]
    else
      var m := JobMap(entries[..|entries| - 1]);
      match EntryPair(entries[|entries| - 1])
      case None => m
      case Some(p) => m[p.0 := p.1]
  }

  /** A name is in the map iff some entry names it. */
  lemma {:induction false} JobMapDomain(entries: seq<Fields>, name: string)
    ensures name in JobMap(entries) <==> exists k :: 0 <= k < |entries| && Names(entries[k], name)
    decreases |entries|
  {
    if entries != [] {
      var init := entries[..|entries| - 1];
      JobMapDomain(init, name);
      if name in JobMap(init) {
        var k :| 0 <= k < |init| && Names(init[k], name);
        assert Names(entries[k], name);
      }
      if exists k :: 0 <= k < |entries| && Names(entries[k], name) {
        var k :| 0 <= k < |entries| && Names(entries[k], name);
        if k < |init| {
          assert Names(init[k], name);
        }
      }
    }
  }

  /** The id kept for a name is that of the last entry naming it. */
  lemma {:induction false} JobMapValue(entries: seq<Fields>, name: string, k: nat)
    requires k < |entries| && Names(entries[k], name)
    requires forall j :: k < j < |entries| ==> !Names(entries[j], name)
    ensures name in JobMap(entries) && JobMap(entries)[name] == EntryPair(entries[k]).value.1
    decreases |entries|
  {
    if k < |entries| - 1 {
      var init := entries[..|entries| - 1];
      assert !Names(entries[|entries| - 1], name);
      assert forall j :: k < j < |init| ==> init[j] == entries[j];
      JobMapValue(init, name, k);
    }
  }

  /** Every id in the map is truthy. */
  lemma {:induction false} JobMapTruthy(entries: seq<Fields>, name: string)
    ensures name in JobMap(entries) ==> Truthy(JobMap(entries)[name])
    decreases |entries|
  {
    if entries != [] {
      JobMapTruthy(entries[..|entries| - 1], name);
    }
  }

  /** A name is in the map iff some entry names it; its id is that of the LAST such entry,
      and every id in the map is truthy. */
  lemma JobMapLastWins(entries: seq<Fields>, name: string)
    ensures name in JobMap(entries) <==> exists k :: 0 <= k < |entries| && Names(entries[k], name)
    ensures forall k :: 0 <= k < |entries| && Names(entries[k], name)
                        && (forall j :: k < j < |entries| ==> !Names(entries[j], name))
                        ==> name in JobMap(entries) && JobMap(entries)[name] == EntryPair(entries[k]).value.1
    ensures name in JobMap(entries) ==> Truthy(JobMap(entries)[name])
  {
    JobMapDomain(entries, name);
    JobMapTruthy(entries, name);
    forall k | 0 <= k < |entries| && Names(entries[k], name)
               && (forall j :: k < j < |entries| ==> !Names(entries[j], name))
      ensures name in JobMap(entries) && JobMap(entries)[name] == EntryPair(entries[k]).value.1
    {
      JobMapValue(entries, name, k);
    }
  }

  /** `list_jobs`: the loop over the listing's entries; `None` when it raises. */
  method ListJobs(listing: Reply) returns (jobs: Option<map<string, Json>>)
    ensures jobs == ListOutcome(MakeRequest(listing))
    ensures !Usable(MakeRequest(listing)) ==> jobs == Some(map[])
  {
    var result := MakeRequest(listing);
    if !Usable(result) {
      return Some(map[]);
    }
    var entries := Entries(result);
    if entries.None? {
      return None;
    }
    var es := entries.value;
    var found := map[];
    var i := 0;
    while i < |es|
      invariant i <= |es|
      invariant found == JobMap(es[..i])
      invariant forall k :: 0 <= k < i ==> !StoresUnhashable(es[k])
    {
      assert es[..i + 1][..i] == es[..i];
      var entry := es[i];
      var jobName := Get(entry, "name", JStr(""));
      var jobId := Get(entry, "id", JStr(""));
      if Truthy(jobName) && Truthy(jobId) {
        if jobName.JStr? {
          found := found[jobName.s := jobId];
        } else if jobName.JArr? || jobName.JObj? {
          assert StoresUnhashable(es[i]);
          return None;
        }
      }
      i := i + 1;
    }
    assert es[..i] == es;
    jobs := Some(found);
  }

  /** `get_job_id_by_name`: `None` when `list_jobs` raises; otherwise the listed id, or
      `JNull` (Python's `None`) unless some listed entry carries the name. */
  method GetJobIdByName(listing: Reply, jobName: Option<string>) returns (id: Option<Json>)
    ensures id.None? <==> ListOutcome(MakeRequest(listing)).None?
    ensures id.Some? ==>
      && (Truthy(id.value) <==> jobName.Some? && exists k :: 0 <= k < |Entries(MakeRequest(listing)).value|
                                                       && Names(Entries(MakeRequest(listing)).value[k], jobName.value))
      && id.value == (if jobName.Some? then Get(ListOutcome(MakeRequest(listing)).value, jobName.value, JNull) else JNull)
  {
    var jobs := ListJobs(listing);
    if jobs.None? {
      return None;
    }
    if jobName.None? {
      return Some(JNull);
    }
    JobMapLastWins(Entries(MakeRequest(listing)).value, jobName.value);
    id := Some(Get(jobs.value, jobName.value, JNull));
  }

  // ----- get_root_job -----

  /** The index of the first job from `i` on that has no parent. */
  function FirstRootFrom(jobs: seq<JobSpec>, i: nat): (r: Option<nat>)
    requires i <= |jobs|
    ensures r.Some? ==> i <= r.value < |jobs| && jobs[r.value].parent.None?
                        && forall j :: i <= j < r.value ==> jobs[j].parent.Some?
    ensures r.None? ==> forall j :: i <= j < |jobs| ==> jobs[j].parent.Some?
    decreases |jobs| - i
  {
    if i == |jobs| then None
    else if jobs[i].parent.None? then Some(i)
    else FirstRootFrom(jobs, i + 1)
  }

  /** `get_root_job`: the key of the first declared job whose `parent_job_key` is absent or null. */
  function GetRootJob(jobs: JobsConfig): (r: Option<string>)
    ensures r.Some? <==> exists k :: 0 <= k < |jobs| && jobs[k].parent.None?
    ensures r.Some? ==> exists k :: 0 <= k < |jobs| && jobs[k].key == r.value && jobs[k].parent.None?
                                   && forall j :: 0 <= j < k ==> jobs[j].parent.Some?
  {
    match FirstRootFrom(jobs, 0)
    case None => None
    case Some(k) => Some(jobs[k].key)
  }

  // ----- run -----

  /** The index of the first job from `i` on whose name the project lists. */
  function FirstListedFrom(jobs: seq<JobSpec>, listed: map<string, Json>, i: nat): (r: Option<nat>)
    requires i <= |jobs|
    ensures r.Some? ==> i <= r.value < |jobs| && Listed(NameOf(jobs[r.value]), listed)
                        && forall j :: i <= j < r.value ==> !Listed(NameOf(jobs[j]), listed)
    ensures r.None? ==> forall j :: i <= j < |jobs| ==> !Listed(NameOf(jobs[j]), listed)
    decreases |jobs| - i
  {
    if i == |jobs| then None
    else if Listed(NameOf(jobs[i]), listed) then Some(i)
    else FirstListedFrom(jobs, listed, i + 1)
  }

  /** Which job `run` triggers, or why it gives up before triggering. `relisted` says
      whether the fallback listed the project's jobs a second time; `ListingRaised` is a
      listing whose `list_jobs` raised. */
  datatype Choice =
    | NoRoot
    | ListingRaised(relisted: bool)
    | NoJobsListed
    | NoMatch
    | Chosen(spec: JobSpec, name: string, id: Json, relisted: bool)
  {
    /** Whether the choice was made after the second listing was requested. */
    predicate Relisted() {
      match this
      case NoRoot => false
      case ListingRaised(relisted) => relisted
      case NoJobsListed => true
      case NoMatch => true
      case Chosen(_, _, _, relisted) => relisted
    }
  }

  /** The selection part of `run`: the root job by name in the first listing, or else
      the first configured job whose name the second listing has. */
  function Plan(jobs: JobsConfig, listing: Reply, relisting: Reply): (choice: Choice)
    ensures choice.Chosen? ==> choice.spec in jobs && NameOf(choice.spec) == Some(choice.name) && Truthy(choice.id)
  {
    match FirstRootFrom(jobs, 0)
    case None => NoRoot
    case Some(r) =>
      if jobs[r].key == [] then NoRoot
      else match ListOutcome(MakeRequest(listing))
        case None => ListingRaised(false)
        case Some(first) =>
          var rootName := NameOf(jobs[r]);
          if rootName.Some? && Truthy(Get(first, rootName.value, JNull)) then
            Chosen(jobs[r], rootName.value, first[rootName.value], false)
          else FallbackChoice(jobs, relisting)
  }

  /** The fallback of `run`: the first configured job that the second listing has. */
  function FallbackChoice(jobs: JobsConfig, relisting: Reply): (choice: Choice)
    ensures choice.Chosen? ==> choice.spec in jobs && NameOf(choice.spec) == Some(choice.name) && Truthy(choice.id)
  {
    match ListOutcome(MakeRequest(relisting))
    case None => ListingRaised(true)
    case Some(all) =>
      if all == map[] then NoJobsListed
      else match FirstListedFrom(jobs, all, 0)
        case None => NoMatch
        case Some(k) =>
          JobMapLastWins(Entries(MakeRequest(relisting)).value, NameOf(jobs[k]).value);
          Chosen(jobs[k], NameOf(jobs[k]).value, all[NameOf(jobs[k]).value], true)
  }

  /** What the selection guarantees: no root (or an empty root key) stops it, and so does
      a first listing that raises, before anything else is requested; without the
      fallback the chosen job is the root job, listed under its name. */
  lemma PlanCases(jobs: JobsConfig, listing: Reply, relisting: Reply)
    ensures var choice := Plan(jobs, listing, relisting);
      var first := ListOutcome(MakeRequest(listing));
      && (choice.NoRoot? <==> GetRootJob(jobs).None? || GetRootJob(jobs).value == [])
      && (choice == ListingRaised(false) <==> !choice.NoRoot? && first.None?)
      && (choice.Chosen? && !choice.relisted ==>
            GetRootJob(jobs) == Some(choice.spec.key) && first.Some? && choice.id == first.value[choice.name])
      && (choice.Relisted() ==> first.Some? && choice == FallbackChoice(jobs, relisting))
  {
  }

  /** The fallback stops when the second listing raises or is empty; otherwise it chooses
      the first configured job that listing has, under its listed id, or none. */
  lemma FallbackCases(jobs: JobsConfig, relisting: Reply)
    ensures var choice := FallbackChoice(jobs, relisting);
      var all := ListOutcome(MakeRequest(relisting));
      && choice.Relisted()
      && (choice.ListingRaised? <==> all.None?)
      && (choice.NoJobsListed? <==> all == Some(map[]))
      && (choice.Chosen? ==>
            && all.Some? && choice.id == all.value[choice.name]
            && exists k :: 0 <= k < |jobs| && jobs[k] == choice.spec
                         && forall j :: 0 <= j < k ==> !Listed(NameOf(jobs[j]), all.value))
      && (choice.NoMatch? <==>
            all.Some? && all.value != map[] && forall j :: 0 <= j < |jobs| ==> !Listed(NameOf(jobs[j]), all.value))
  {
    var all := ListOutcome(MakeRequest(relisting));
    if all.Some? && all.value != map[] && FirstListedFrom(jobs, all.value, 0).Some? {
      var k := FirstListedFrom(jobs, all.value, 0).value;
      assert jobs[k] == FallbackChoice(jobs, relisting).spec;
    }
  }

  /** A listing that raises stops `run` after that one request: nothing is triggered. */
  lemma RaisingListingStops(c: Client, projectId: string, jobs: JobsConfig, listing: Reply, relisting: Reply,
                            trigger: Reply, polls: seq<Reply>)
    requires GetRootJob(jobs).Some? && GetRootJob(jobs).value != []
    requires ListOutcome(MakeRequest(listing)).None?
    ensures Plan(jobs, listing, relisting) == ListingRaised(false)
    ensures RunLog(c, projectId, jobs, listing, relisting, trigger, polls) == [GetRequest(c, JobsEndpoint(projectId))]
  {
    PlanCases(jobs, listing, relisting);
  }

  /** `trigger_job`: the run id from the trigger reply, `None` (`JNull`) when it failed. */
  function RunId(trigger: Reply): (id: Json)
    ensures Truthy(id) <==>
      && trigger.Answered? && 200 <= trigger.status < 300 && trigger.text != []
      && trigger.body.Object? && "id" in trigger.body.fields && Truthy(trigger.body.fields["id"])
    ensures Truthy(id) ==> id == trigger.body.fields["id"]
  {
    var result := MakeRequest(trigger);
    if Usable(result) then Get(result.value, "id", JNull) else JNull
  }

  /** How `wait_for_job_completion` reads one poll: "succeeded" passes; "failed",
      "stopped" and "killed" fail; any other status and a failed poll go on. */
  function JobJudge(result: Option<Fields>): Verdict {
    if !Usable(result) then Pending
    else
      var status := StatusOf(result.value);
      if status == JStr("succeeded") then Pass
      else if status in [JStr("failed"), JStr("stopped"), JStr("killed")] then Fail
      else Pending
  }

  /** `wait_for_job_completion`, polling the run's status URL. */
  method WaitForJobCompletion(c: Client, projectId: string, jobId: Json, runId: Json, polls: seq<Reply>, timeout: int)
    returns (succeeded: bool, sent: seq<Request>)
    ensures Waited(succeeded, |sent|) == PollOutcome(polls, JobJudge, 0, PollBudget(timeout))
    ensures sent == Repeat(GetRequest(c, RunEndpoint(projectId, jobId, runId)), |sent|)
  {
    var budget := PollBudget(timeout);
    var poll := GetRequest(c, RunEndpoint(projectId, jobId, runId));
    sent := [];
    var i := 0;
    while i < budget
      invariant i <= budget && sent == Repeat(poll, i)
      invariant PollOutcome(polls, JobJudge, i, budget) == PollOutcome(polls, JobJudge, 0, budget)
    {
      sent := sent + [poll];
      var result := Observe(polls, i);
      if Usable(result) {
        var status := StatusOf(result.value);
        if status == JStr("succeeded") {
          return true, sent;
        } else if status in [JStr("failed"), JStr("stopped"), JStr("killed")] {
          return false, sent;
        }
      }
      i := i + 1;
    }
    succeeded := false;
  }

  /** The job is reported successful only when a poll observes "succeeded" before any
      failed, stopped or killed status; timing out or a failed status gives false. */
  lemma JobSucceedsOnlyOnSucceeded(polls: seq<Reply>, budget: nat)
    ensures var w := PollOutcome(polls, JobJudge, 0, budget);
      w.succeeded <==> exists k :: 0 <= k < budget && JobJudge(Observe(polls, k)) == Pass
                                && forall j :: 0 <= j < k ==> JobJudge(Observe(polls, j)) == Pending
  {
    PollSucceedsIff(polls, JobJudge, budget);
  }

  /** The listing requests `run` sends before it triggers or gives up. */
  function LookupLog(c: Client, projectId: string, choice: Choice): seq<Request> {
    var list := GetRequest(c, JobsEndpoint(projectId));
    match choice
    case NoRoot => []
    case ListingRaised(relisted) => if relisted then [list, list] else [list]
    case NoJobsListed => [list, list]
    case NoMatch => [list, list]
    case Chosen(_, _, _, relisted) => if relisted then [list, list] else [list]
  }

  /** The requests `run` sends, in order. */
  function RunLog(c: Client, projectId: string, jobs: JobsConfig, listing: Reply, relisting: Reply,
                  trigger: Reply, polls: seq<Reply>): seq<Request>
  {
    var choice := Plan(jobs, listing, relisting);
    var lookups := LookupLog(c, projectId, choice);
    if !choice.Chosen? then lookups
    else
      var post := PostRequest(c, RunsEndpoint(projectId, choice.id), None);
      var runId := RunId(trigger);
      if !Truthy(runId) then lookups + [post]
      else
        var w := PollOutcome(polls, JobJudge, 0, PollBudget(TimeoutOf(choice.spec)));
        lookups + [post] + Repeat(GetRequest(c, RunEndpoint(projectId, choice.id, runId)), w.polled)
  }

  /** `run` sends exactly one POST when it has chosen a job, to that job's runs URL, and
      none otherwise: it never triggers the child jobs itself. */
  lemma RunTriggersOnce(c: Client, projectId: string, jobs: JobsConfig, listing: Reply, relisting: Reply,
                        trigger: Reply, polls: seq<Reply>)
    ensures var log := RunLog(c, projectId, jobs, listing, relisting, trigger, polls);
            var choice := Plan(jobs, listing, relisting);
            && CountVerb(log, "POST") == (if choice.Chosen? then 1 else 0)
            && (choice.Chosen? ==> PostRequest(c, RunsEndpoint(projectId, choice.id), None) in log)
  {
    var choice := Plan(jobs, listing, relisting);
    var lookups := LookupLog(c, projectId, choice);
    LookupLogSendsNoPost(c, projectId, choice);
    if choice.Chosen? {
      var post := PostRequest(c, RunsEndpoint(projectId, choice.id), None);
      var runId := RunId(trigger);
      if Truthy(runId) {
        var w := PollOutcome(polls, JobJudge, 0, PollBudget(TimeoutOf(choice.spec)));
        var get := GetRequest(c, RunEndpoint(projectId, choice.id, runId));
        CountVerbRepeat(get, w.polled, "POST");
        OnePostBetween(lookups, post, Repeat(get, w.polled));
      } else {
        OnePostBetween(lookups, post, []);
        assert lookups + [post] + [] == lookups + [post];
      }
    }
  }

  /** The listing requests are all GETs. */
  lemma LookupLogSendsNoPost(c: Client, projectId: string, choice: Choice)
    ensures CountVerb(LookupLog(c, projectId, choice), "POST") == 0
  {
    var list := GetRequest(c, JobsEndpoint(projectId));
    CountVerbAppend([], [list], "POST");
    CountVerbAppend([list], [list], "POST");
  }

  /** A POST between two runs of requests without a POST is the only POST. */
  lemma OnePostBetween(before: seq<Request>, post: Request, after: seq<Request>)
    requires CountVerb(before, "POST") == 0 && CountVerb(after, "POST") == 0 && post.verb == "POST"
    ensures CountVerb(before + [post] + after, "POST") == 1
    ensures post in before + [post] + after
  {
    CountVerbAppend(before, [post], "POST");
    CountVerbAppend(before + [post], after, "POST");
    assert (before + [post] + after)[|before|] == post;
  }

  /** The selection part of `run`, up to the trigger: the root lookup and the fallback loop. */
  method ChooseJob(c: Client, projectId: string, jobs: JobsConfig, listing: Reply, relisting: Reply)
    returns (choice: Choice, sent: seq<Request>)
    ensures choice == Plan(jobs, listing, relisting)
    ensures sent == LookupLog(c, projectId, choice)
  {
    var list := GetRequest(c, JobsEndpoint(projectId));
    sent := [];
    var root := FirstRootFrom(jobs, 0);
    if root.None? || jobs[root.value].key == [] {
      return NoRoot, sent;
    }
    var rootSpec := jobs[root.value];
    var rootName := NameOf(rootSpec);
    sent := sent + [list];
    var rootId := GetJobIdByName(listing, rootName);
    if rootId.None? {
      return ListingRaised(false), sent;
    }
    if Truthy(rootId.value) {
      return Chosen(rootSpec, rootName.value, rootId.value, false), sent;
    }
    sent := sent + [list];
    choice := ChooseFallback(jobs, relisting);
  }

  /** The fallback loop of `run` over the configured jobs. */
  method ChooseFallback(jobs: JobsConfig, relisting: Reply) returns (choice: Choice)
    ensures choice == FallbackChoice(jobs, relisting)
  {
    var all := ListJobs(relisting);
    if all.None? {
      return ListingRaised(true);
    }
    if all.value == map[] {
      return NoJobsListed;
    }
    var rootName: Option<string> := None;
    var rootSpec: JobSpec;
    var id := JNull;
    var k := 0;
    while k < |jobs|
      invariant k <= |jobs|
      invariant forall j :: 0 <= j < k ==> !Listed(NameOf(jobs[j]), all.value)
      invariant id == JNull
    {
      var jobName := NameOf(jobs[k]);
      if jobName.Some? && jobName.value in all.value {
        rootName := jobName;
        rootSpec := jobs[k];
        id := all.value[jobName.value];
        JobMapLastWins(Entries(MakeRequest(relisting)).value, jobName.value);
        break;
      }
      k := k + 1;
    }
    if !Truthy(id) {
      return NoMatch;
    }
    assert FirstListedFrom(jobs, all.value, 0) == Some(k);
    choice := Chosen(rootSpec, rootName.value, id, true);
  }

  /** `run`: choose the job, trigger it once, and wait for the run with the chosen
      job's timeout. A listing that raises ends `run` with the exception, which `main`
      turns into exit status 1 just like a False return; both are `ok == false` here. */
  method Run(c: Client, projectId: string, jobs: JobsConfig, listing: Reply, relisting: Reply,
             trigger: Reply, polls: seq<Reply>)
    returns (ok: bool, sent: seq<Request>)
    ensures var choice := Plan(jobs, listing, relisting);
            ok <==> && choice.Chosen? && Truthy(RunId(trigger))
                    && PollOutcome(polls, JobJudge, 0, PollBudget(TimeoutOf(choice.spec))).succeeded
    ensures sent == RunLog(c, projectId, jobs, listing, relisting, trigger, polls)
    ensures CountVerb(sent, "POST") == (if Plan(jobs, listing, relisting).Chosen? then 1 else 0)
    ensures Plan(jobs, listing, relisting) == ListingRaised(false) ==>
              !ok && sent == [GetRequest(c, JobsEndpoint(projectId))]
  {
    RunTriggersOnce(c, projectId, jobs, listing, relisting, trigger, polls);
    var choice;
    choice, sent := ChooseJob(c, projectId, jobs, listing, relisting);
    if !choice.Chosen? {
      return false, sent;
    }
    var post := PostRequest(c, RunsEndpoint(projectId, choice.id), None);
    sent := sent + [post];
    var runId := RunId(trigger);
    if !Truthy(runId) {
      return false, sent;
    }
    var waited, pollsSent := WaitForJobCompletion(c, projectId, choice.id, runId, polls, TimeoutOf(choice.spec));
    sent := sent + pollsSent;
    ok := waited;
  }
}
