/** The HTTP service (main.py): the store of profiles loaded from the
    profile files of its directory, the table of scrape tasks, and the
    handlers that read and change them. Routing, response models and the
    background scheduler are not modelled; each handler is a member of one
    object that owns the two module-level dictionaries and the directory. */
module Service {
  import opened Strings
  import opened Wrappers
  import opened Sequences
  import opened Records
  import opened Identity
  import opened Orchestrator

  /** The `status` of a task. */
  datatype TaskStatus = Queued | Running | Completed | Error

  /** A task entry: its status, the `profile_id` once it runs, the `error`
      message once it fails. */
  datatype Task = Task(status: TaskStatus, profileId: Option<string>, error: Option<string>)

  /** The status sequences a task can go through. */
  predicate Lifecycle(h: seq<TaskStatus>) {
    h == [Queued] || h == [Queued, Running] ||
    h == [Queued, Running, Completed] || h == [Queued, Running, Error]
  }

  /** The keys of an entry agree with its status. */
  predicate WellFormedTask(t: Task) {
    (t.profileId.Some? <==> t.status != Queued) && (t.error.Some? <==> t.status == Error)
  }

  /** A file of the directory that glob("linkedin_profile_*.json") lists. */
  predicate IsProfileFileName(name: string) {
    StartsWith(name, ProfileFilePrefix) && EndsWith(name, ProfileFileSuffix)
  }

  predicate NoSlash(s: string) {
    forall j :: 0 <= j < |s| ==> s[j] != '/'
  }

  /** The key a profile file is loaded under. */
  function StoredSlug(directory: string, name: string): string {
    SlugFromPath(PathJoin(directory, name))
  }

  /** The file a key was loaded from is the profile file named after it. */
  lemma StoredSlugNamesFile(directory: string, name: string)
    requires NoSlash(name) && IsProfileFileName(name)
    ensures ProfileFileName(StoredSlug(directory, name)) == name
  {
    BasenameOfJoin(directory, name);
  }

  /** The file written for a profile id is a profile file without '/'. */
  lemma ProfileFileNameShape(id: string)
    requires NoSlash(id)
    ensures NoSlash(ProfileFileName(id)) && IsProfileFileName(ProfileFileName(id))
  {
    var name := ProfileFileName(id);
    forall k | 0 <= k < |name|
      ensures name[k] != '/'
    {
      if k < |ProfileFilePrefix| {
        assert name[k] == ProfileFilePrefix[k];
      } else if k < |ProfileFilePrefix| + |id| {
        assert name[k] == id[k - |ProfileFilePrefix|];
      } else {
        assert name[k] == ProfileFileSuffix[k - |ProfileFilePrefix| - |id|];
      }
    }
    assert name[..|ProfileFilePrefix|] == ProfileFilePrefix;
    assert name[|name| - |ProfileFileSuffix|..] == ProfileFileSuffix;
  }

  /** A stored profile: the file's object with `id` set to its key. */
  function WithId(data: Profile, id: string): Profile {
    data["id" := Text(id)]
  }

  /** The store holds exactly the readable profile files of `files`:
      each under the id its name carries and with `id` set to that key. */
  ghost predicate LoadedFrom(profiles: map<string, Profile>, files: Files, directory: string) {
    (forall n :: n in files && IsProfileFileName(n) && files[n].Parsed? ==>
       StoredSlug(directory, n) in profiles &&
       profiles[StoredSlug(directory, n)] == WithId(files[n].data, StoredSlug(directory, n))) &&
    (forall k :: k in profiles ==>
       ProfileFileName(k) in files && files[ProfileFileName(k)].Parsed? &&
       profiles[k] == WithId(files[ProfileFileName(k)].data, k))
  }

  /** The store invariant: `order` lists each key once, every stored
      profile's `id` is its key, and file names carry no directory part. */
  ghost predicate StoreValid(order: seq<string>, profiles: map<string, Profile>, files: Files) {
    NoDuplicates(order) &&
    (forall k :: k in profiles <==> k in order) &&
    (forall k :: k in profiles ==> "id" in profiles[k] && profiles[k]["id"] == Text(k)) &&
    (forall n :: n in files ==> NoSlash(n))
  }

  /** The task-table invariant: every task has gone through a prefix of its
      lifecycle and its entry agrees with where it stands. */
  ghost predicate TasksValid(tasks: map<string, Task>, history: map<string, seq<TaskStatus>>) {
    tasks.Keys == history.Keys &&
    forall t :: t in tasks ==>
      Lifecycle(history[t]) && history[t][|history[t]| - 1] == tasks[t].status &&
      WellFormedTask(tasks[t])
  }

  /** Moving one task to an entry that agrees with a lifecycle prefix keeps
      the task table consistent. */
  lemma TasksValidUpdate(tasks: map<string, Task>, history: map<string, seq<TaskStatus>>,
                         id: string, task: Task, statuses: seq<TaskStatus>)
    requires TasksValid(tasks, history)
    requires Lifecycle(statuses) && statuses[|statuses| - 1] == task.status && WellFormedTask(task)
    ensures TasksValid(tasks[id := task], history[id := statuses])
  {
  }

  /** What load_profiles keeps true while files remain in `pending`: the
      store holds exactly the readable profile files already taken. */
  ghost predicate Loading(files: Files, directory: string, pending: set<string>,
                          order: seq<string>, profiles: map<string, Profile>) {
    LoadingTaken(files, pending, order, profiles) && LoadingSeen(files, directory, pending, profiles)
  }

  /** Every stored profile comes from a readable profile file already taken. */
  ghost predicate LoadingTaken(files: Files, pending: set<string>,
                               order: seq<string>, profiles: map<string, Profile>) {
    pending <= files.Keys &&
    (forall n :: n in pending ==> IsProfileFileName(n)) &&
    NoDuplicates(order) &&
    (forall k :: k in profiles <==> k in order) &&
    (forall k :: k in profiles ==> "id" in profiles[k] && profiles[k]["id"] == Text(k)) &&
    (forall k :: k in profiles ==>
       ProfileFileName(k) in files && ProfileFileName(k) !in pending &&
       files[ProfileFileName(k)].Parsed? &&
       profiles[k] == WithId(files[ProfileFileName(k)].data, k))
  }

  /** Every readable profile file already taken is stored. */
  ghost predicate LoadingSeen(files: Files, directory: string, pending: set<string>,
                              profiles: map<string, Profile>) {
    forall n :: n in files && IsProfileFileName(n) && n !in pending && files[n].Parsed? ==>
      StoredSlug(directory, n) in profiles &&
      profiles[StoredSlug(directory, n)] == WithId(files[n].data, StoredSlug(directory, n))
  }

  /** Taking a file that is not valid JSON changes nothing in the store. */
  lemma LoadSkip(files: Files, directory: string, pending: set<string>,
                 order: seq<string>, profiles: map<string, Profile>, name: string)
    requires Loading(files, directory, pending, order, profiles)
    requires name in pending && files[name].Corrupt?
    ensures Loading(files, directory, pending - {name}, order, profiles)
  {
  }

  /** Taking a readable profile file stores its object, with `id` set, under
      the id its name carries, appending that id to `order` when it is new. */
  lemma LoadStep(files: Files, directory: string, pending: set<string>,
                 order: seq<string>, profiles: map<string, Profile>, name: string)
    requires Loading(files, directory, pending, order, profiles)
    requires forall n :: n in files ==> NoSlash(n)
    requires name in pending && files[name].Parsed?
    ensures var slug := StoredSlug(directory, name);
      Loading(files, directory, pending - {name},
              if slug in profiles then order else order + [slug],
              profiles[slug := WithId(files[name].data, slug)])
  {
    StoredSlugNamesFile(directory, name);
    LoadStepTaken(files, directory, pending, order, profiles, name);
    LoadStepSeen(files, directory, pending, order, profiles, name);
  }

  lemma LoadStepTaken(files: Files, directory: string, pending: set<string>,
                      order: seq<string>, profiles: map<string, Profile>, name: string)
    requires LoadingTaken(files, pending, order, profiles)
    requires name in pending && files[name].Parsed?
    requires ProfileFileName(StoredSlug(directory, name)) == name
    ensures var slug := StoredSlug(directory, name);
      LoadingTaken(files, pending - {name},
                   if slug in profiles then order else order + [slug],
                   profiles[slug := WithId(files[name].data, slug)])
  {
  }

  lemma LoadStepSeen(files: Files, directory: string, pending: set<string>,
                     order: seq<string>, profiles: map<string, Profile>, name: string)
    requires Loading(files, directory, pending, order, profiles)
    requires forall n :: n in files ==> NoSlash(n)
    requires name in pending && files[name].Parsed?
    requires ProfileFileName(StoredSlug(directory, name)) == name
    ensures var slug := StoredSlug(directory, name);
      LoadingSeen(files, directory, pending - {name}, profiles[slug := WithId(files[name].data, slug)])
  {
  }

  /** Once every file is taken, the store is valid and loaded from the files. */
  lemma LoadDone(files: Files, directory: string, order: seq<string>, profiles: map<string, Profile>)
    requires Loading(files, directory, {}, order, profiles)
    requires forall n :: n in files ==> NoSlash(n)
    ensures StoreValid(order, profiles, files) && LoadedFrom(profiles, files, directory)
  {
  }

  /** After a load, the profile file of an id is stored under that id. */
  lemma LoadedFile(profiles: map<string, Profile>, files: Files, directory: string, id: string)
    requires LoadedFrom(profiles, files, directory) && NoSlash(id)
    requires ProfileFileName(id) in files && files[ProfileFileName(id)].Parsed?
    ensures id in profiles && profiles[id] == WithId(files[ProfileFileName(id)].data, id)
  {
    ProfileFileNameShape(id);
    SlugFromFileRoundTrip(directory, id);
  }

  /** The object stored in a file, or `{}` when there is none. */
  function StoredData(files: Files, name: string): Profile {
    if name in files && files[name].Parsed? then files[name].data else map[]
  }

  /** A scrape task ends in error when the scraper raises (`run` before its
      own `try`, such as a browser that cannot be launched, or
      `close_browser`), or when a non-empty result is to be merged into a
      file that is not valid JSON. */
  predicate TaskFails(files: Files, url: string, scraped: Profile, scrapeError: Option<string>) {
    var name := ProfileFileName(ProfileId(url));
    scrapeError.Some? || (scraped != map[] && name in files && files[name].Corrupt?)
  }

  /** Each status a running task can end in extends its history by one. */
  lemma LifecycleSteps(last: TaskStatus)
    requires last == Completed || last == Error
    ensures Lifecycle([Queued, Running]) && [Queued, Running][..1] == [Queued]
    ensures Lifecycle([Queued, Running, last]) && [Queued, Running, last][..2] == [Queued, Running]
  {
  }

  /** A second update of the same key replaces the first. */
  lemma UpdateTwice<K, V>(m: map<K, V>, k: K, first: V, second: V)
    ensures m[k := first][k := second] == m[k := second]
  {
  }

  /** The minimal view list and search return. */
  datatype Summary = Summary(id: string, firstName: Option<Field>, lastName: Option<Field>, headline: Option<Field>)

  /** `p.get(key)`. */
  function Get(p: Profile, key: string): Option<Field> {
    if key in p then Some(p[key]) else None
  }

  function SummaryOf(id: string, p: Profile): Summary {
    Summary(id, Get(p, "first_name"), Get(p, "last_name"), Get(p, "headline"))
  }

  /** `filter(None, [value])`: a field takes part in the search text when
      it is a non-empty string. */
  function SearchPart(o: Option<Field>): seq<string> {
    if o.Some? && o.value.Text? && o.value.text != "" then [o.value.text] else []
  }

  /** The lower-cased, space-joined name and headline of a profile. */
  function SearchText(p: Profile): string {
    Lower(Join(" ", SearchPart(Get(p, "first_name")) + SearchPart(Get(p, "last_name")) + SearchPart(Get(p, "headline"))))
  }

  predicate MatchesQuery(p: Profile, query: string) {
    Contains(SearchText(p), Lower(query))
  }

  /** The list entry of a stored profile. */
  function Listed(profiles: map<string, Profile>): string -> Option<Summary> {
    id => if id in profiles then Some(SummaryOf(id, profiles[id])) else None
  }

  /** The list entry of a stored profile that matches the query. */
  function SearchHit(profiles: map<string, Profile>, query: string): string -> Option<Summary> {
    id => if id in profiles && MatchesQuery(profiles[id], query) then Some(SummaryOf(id, profiles[id])) else None
  }

  /** What search returns: the matching profiles in store order. */
  function SearchResults(order: seq<string>, profiles: map<string, Profile>, query: string): seq<Summary> {
    Collect(order, SearchHit(profiles, query))
  }

  /** What list returns: every stored profile's summary in store order. */
  function Listing(order: seq<string>, profiles: map<string, Profile>): seq<Summary> {
    Collect(order, Listed(profiles))
  }

  /** Search returns exactly the summaries of the stored profiles that
      match, when every stored key is in `order`. */
  lemma SearchMember(order: seq<string>, profiles: map<string, Profile>, query: string, s: Summary)
    requires forall k :: k in profiles ==> k in order
    ensures s in SearchResults(order, profiles, query) <==>
      s.id in profiles && MatchesQuery(profiles[s.id], query) && s == SummaryOf(s.id, profiles[s.id])
  {
    CollectMember(order, SearchHit(profiles, query), s);
    if s.id in profiles && MatchesQuery(profiles[s.id], query) && s == SummaryOf(s.id, profiles[s.id]) {
      var i := FirstIndex(order, s.id);
      assert SearchHit(profiles, query)(order[i]) == Some(s);
    }
  }

  /** The empty query matches every profile, so search returns the list. */
  lemma EmptyQueryListsAll(order: seq<string>, profiles: map<string, Profile>)
    ensures SearchResults(order, profiles, "") == Listing(order, profiles)
  {
    forall i | 0 <= i < |order|
      ensures SearchHit(profiles, "")(order[i]) == Listed(profiles)(order[i])
    {
      if order[i] in profiles {
        ContainsEmpty(SearchText(profiles[order[i]]));
        assert Lower("") == "";
      }
    }
    CollectPointwise(order, SearchHit(profiles, ""), Listed(profiles));
  }

  /** Queries that differ only in letter case give the same results. */
  lemma SearchIgnoresCase(order: seq<string>, profiles: map<string, Profile>, q1: string, q2: string)
    requires Lower(q1) == Lower(q2)
    ensures SearchResults(order, profiles, q1) == SearchResults(order, profiles, q2)
  {
    forall i | 0 <= i < |order|
      ensures SearchHit(profiles, q1)(order[i]) == SearchHit(profiles, q2)(order[i])
    {
    }
    CollectPointwise(order, SearchHit(profiles, q1), SearchHit(profiles, q2));
  }

  /** The message a task records when the stored file is not valid JSON. */
  const CorruptFileMessage := "the profile file is not valid JSON"

  class ProfileService {
    /** The keys of `_profiles` in insertion order. */
    var order: seq<string>
    /** `_profiles`. */
    var profiles: map<string, Profile>
    /** `_tasks`. */
    var tasks: map<string, Task>
    /** The statuses each task has had, oldest first. */
    ghost var history: map<string, seq<TaskStatus>>
    /** The files of BASE_DIR by name. */
    var files: Files
    /** BASE_DIR. */
    const baseDir: string

    ghost predicate Valid()
      reads this
    {
      StoreValid(order, profiles, files) && TasksValid(tasks, history)
    }

    /** The service before its first load: no profiles and no tasks. */
    constructor(directory: string, disk: Files)
      requires forall n :: n in disk ==> NoSlash(n)
      ensures Valid()
      ensures baseDir == directory && files == disk
      ensures profiles == map[] && order == [] && tasks == map[]
    {
      baseDir := directory;
      files := disk;
      profiles := map[];
      order := [];
      tasks := map[];
      history := map[];
    }

    /** load_profiles: the store is cleared and refilled from the profile
        files, taken in the order glob lists them (any order); a file that
        is not a JSON object is skipped. Afterwards the store holds exactly
        the readable profile files, each under the id its name carries and
        with `id` set to that key. */
    method LoadProfiles()
      requires Valid()
      modifies this
      ensures Valid()
      ensures tasks == old(tasks) && history == old(history) && files == old(files)
      ensures LoadedFrom(profiles, files, baseDir)
    {
      profiles := map[];
      order := [];
      var pending := set n | n in files && IsProfileFileName(n);
      while pending != {}
        invariant Loading(files, baseDir, pending, order, profiles)
        invariant files == old(files) && tasks == old(tasks) && history == old(history)
        decreases pending
      {
        var name :| name in pending;
        var path := PathJoin(baseDir, name);
        var content := files[name];
        if content.Parsed? {
          var slug := SlugFromPath(path);
          LoadStep(files, baseDir, pending, order, profiles, name);
          var data := content.data["id" := Text(slug)];
          if slug !in profiles {
            order := order + [slug];
          }
          profiles := profiles[slug := data];
        } else {
          LoadSkip(files, baseDir, pending, order, profiles, name);
        }
        pending := pending - {name};
      }
      LoadDone(files, baseDir, order, profiles);
    }

    /** list_profiles: one summary per stored profile, in store order. */
    function ListProfiles(): (r: seq<Summary>)
      reads this
      requires Valid()
      ensures |r| == |order|
      ensures forall s :: s in r <==> s.id in profiles && s == SummaryOf(s.id, profiles[s.id])
    {
      var r := Listing(order, profiles);
      CollectTotal(order, Listed(profiles));
      assert forall s :: s in r <==> s.id in profiles && s == SummaryOf(s.id, profiles[s.id]) by {
        forall s
          ensures s in r <==> s.id in profiles && s == SummaryOf(s.id, profiles[s.id])
        {
          CollectMember(order, Listed(profiles), s);
          if s.id in profiles && s == SummaryOf(s.id, profiles[s.id]) {
            var i := FirstIndex(order, s.id);
            assert Listed(profiles)(order[i]) == Some(s);
          }
        }
      }
      r
    }

    /** search_profiles: walks the store in order and keeps the summaries of
        the profiles whose search text contains the lower-cased query. */
    method SearchProfiles(query: string) returns (results: seq<Summary>)
      requires Valid()
      ensures results == SearchResults(order, profiles, query)
    {
      var queryLower := Lower(query);
      results := [];
      var i := 0;
      while i < |order|
        invariant i <= |order|
        invariant results == Collect(order[..i], SearchHit(profiles, query))
      {
        var id := order[i];
        var p := profiles[id];
        var concatFields := SearchText(p);
        CollectStep(order, i, SearchHit(profiles, query));
        if Contains(concatFields, queryLower) {
          assert SearchHit(profiles, query)(id) == Some(SummaryOf(id, p));
          results := results + [SummaryOf(id, p)];
        } else {
          assert SearchHit(profiles, query)(id) == None;
        }
        i := i + 1;
      }
      CollectWhole(order, SearchHit(profiles, query));
    }

    /** get_profile: the stored object, or 404 when the id is not a key. */
    method GetProfile(profileId: string) returns (result: Result<Profile, int>)
      ensures result.Failure? <==> profileId !in profiles
      ensures result.Failure? ==> result.error == 404
      ensures result.Success? ==> result.value == profiles[profileId]
    {
      if profileId !in profiles {
        return Failure(404);
      }
      return Success(profiles[profileId]);
    }

    /** get_task_status: the task entry, or 404 when the id is unknown. */
    method GetTaskStatus(taskId: string) returns (result: Result<Task, int>)
      ensures result.Failure? <==> taskId !in tasks
      ensures result.Failure? ==> result.error == 404
      ensures result.Success? ==> result.value == tasks[taskId]
    {
      if taskId !in tasks {
        return Failure(404);
      }
      return Success(tasks[taskId]);
    }

    /** scrape_profile: records a new queued task under a fresh id and
        answers with the profile id derived from the URL. */
    method ScrapeProfile(taskId: string, url: string) returns (profileId: string)
      requires Valid() && taskId !in tasks
      modifies this
      ensures Valid()
      ensures tasks == old(tasks)[taskId := Task(Queued, None, None)]
      ensures history == old(history)[taskId := [Queued]]
      ensures profiles == old(profiles) && order == old(order) && files == old(files)
      ensures profileId == ProfileId(url)
    {
      TasksValidUpdate(tasks, history, taskId, Task(Queued, None, None), [Queued]);
      tasks := tasks[taskId := Task(Queued, None, None)];
      history := history[taskId := [Queued]];
      profileId := ProfileId(url);
    }

    /** _run_scraper_task for a queued task, given what the scraper
        returned and the message of the exception the scraper raised, if
        any: one raised by `LinkedInScraper.run` outside its own `try`
        (launching the browser, opening the page) or by `close_browser`.
        The task becomes running with its profile id; then it ends in error
        when the scraper raised or when a non-empty result meets an
        unreadable stored file, and otherwise the result is merged into the
        profile file, the store is reloaded and the task completes. */
    method RunScraperTask(taskId: string, url: string, scraped: Profile, scrapeError: Option<string>)
      requires Valid() && taskId in tasks && tasks[taskId].status == Queued
      modifies this
      ensures Valid()
      ensures taskId in tasks && tasks == old(tasks)[taskId := tasks[taskId]]
      ensures history == old(history)[taskId := [Queued, Running, tasks[taskId].status]]
      ensures tasks[taskId].profileId == Some(ProfileId(url))
      ensures var failed := TaskFails(old(files), url, scraped, scrapeError);
        tasks[taskId].status == (if failed then Error else Completed) &&
        (scrapeError.Some? ==> tasks[taskId].error == scrapeError) &&
        (failed ==> files == old(files) && profiles == old(profiles) && order == old(order)) &&
        (!failed ==> LoadedFrom(profiles, files, baseDir))
      ensures !TaskFails(old(files), url, scraped, scrapeError) && scraped != map[] ==>
        var name := ProfileFileName(ProfileId(url));
        files == old(files)[name := Parsed(Merge(StoredData(old(files), name), scraped))]
      ensures scraped == map[] ==> files == old(files)
      ensures !TaskFails(old(files), url, scraped, scrapeError) && scraped != map[] ==>
        var id := ProfileId(url);
        id in profiles &&
        profiles[id] == WithId(Merge(StoredData(old(files), ProfileFileName(id)), scraped), id)
    {
      var profileName := ProfileId(url);
      assert history[taskId] == [Queued];
      LifecycleSteps(Completed);
      SetTask(taskId, Task(Running, Some(profileName), None), [Queued, Running]);
      if scrapeError.Some? {
        Finish(taskId, Task(Error, Some(profileName), scrapeError));
        UpdateTwice(old(tasks), taskId, Task(Running, Some(profileName), None), Task(Error, Some(profileName), scrapeError));
        UpdateTwice(old(history), taskId, [Queued, Running], [Queued, Running, Error]);
        return;
      }
      if scraped != map[] {
        var saved := SaveMerged(profileName, scraped);
        if !saved {
          Finish(taskId, Task(Error, Some(profileName), Some(CorruptFileMessage)));
          UpdateTwice(old(tasks), taskId, Task(Running, Some(profileName), None), Task(Error, Some(profileName), Some(CorruptFileMessage)));
          UpdateTwice(old(history), taskId, [Queued, Running], [Queued, Running, Error]);
          return;
        }
      }
      LoadProfiles();
      if scraped != map[] {
        LoadedFile(profiles, files, baseDir, profileName);
      }
      Finish(taskId, Task(Completed, Some(profileName), None));
      UpdateTwice(old(tasks), taskId, Task(Running, Some(profileName), None), Task(Completed, Some(profileName), None));
      UpdateTwice(old(history), taskId, [Queued, Running], [Queued, Running, Completed]);
    }

    /** `_tasks[task_id] = ...`: one task entry moves to a new status. */
    method SetTask(taskId: string, task: Task, statuses: seq<TaskStatus>)
      requires Valid()
      requires Lifecycle(statuses) && statuses[|statuses| - 1] == task.status && WellFormedTask(task)
      requires taskId in history ==> statuses[..|statuses| - 1] == history[taskId]
      modifies this
      ensures Valid()
      ensures tasks == old(tasks)[taskId := task] && history == old(history)[taskId := statuses]
      ensures profiles == old(profiles) && order == old(order) && files == old(files)
    {
      TasksValidUpdate(tasks, history, taskId, task, statuses);
      tasks := tasks[taskId := task];
      history := history[taskId := statuses];
    }

    /** The last status change of a running task: it completes or fails. */
    method Finish(taskId: string, task: Task)
      requires Valid() && taskId in history && history[taskId] == [Queued, Running]
      requires (task.status == Completed || task.status == Error) && WellFormedTask(task)
      modifies this
      ensures Valid()
      ensures tasks == old(tasks)[taskId := task]
      ensures history == old(history)[taskId := [Queued, Running, task.status]]
      ensures profiles == old(profiles) && order == old(order) && files == old(files)
    {
      LifecycleSteps(task.status);
      SetTask(taskId, task, [Queued, Running, task.status]);
    }

    /** Reads the profile file of `profileName` (`{}` when there is none),
        merges the scraped fields into it and writes it back; fails, writing
        nothing, when the file is not valid JSON. */
    method SaveMerged(profileName: string, scraped: Profile) returns (saved: bool)
      requires Valid() && NoSlash(profileName)
      modifies this
      ensures Valid()
      ensures var name := ProfileFileName(profileName);
        saved == !(name in old(files) && old(files)[name].Corrupt?) &&
        files == (if saved then old(files)[name := Parsed(Merge(StoredData(old(files), name), scraped))] else old(files))
      ensures tasks == old(tasks) && history == old(history) && profiles == old(profiles) && order == old(order)
    {
      var fileName := ProfileFileName(profileName);
      ProfileFileNameShape(profileName);
      var existing: Profile := map[];
      if fileName in files {
        if files[fileName].Corrupt? {
          return false;
        }
        existing := files[fileName].data;
      }
      existing := Merge(existing, scraped);
      files := files[fileName := Parsed(existing)];
      return true;
    }
  }
}
