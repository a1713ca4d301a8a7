/** What the runtime reads and paints put on show: exactly which loads and
    refreshes install, and what an open queue shows meanwhile. */
module RuntimeReads {
  import opened Options
  import opened RuntimeStore
  import opened RuntimeProtocol
  import opened RuntimeLedger

  // --- what happens to a project between two points of a run ---

  /** The event is a call on the project, which the store knows. */
  ghost predicate Writes(w: World, id: ProjectId, e: Event) {
    e.Set? && e.id == id && id in w.client.projects
  }

  ghost predicate Unwritten(w: World, id: ProjectId, es: seq<Event>)
    decreases |es|
  {
    es == [] || (!Writes(w, id, es[0]) && Unwritten(Step(w, es[0]), id, es[1..]))
  }

  /** No later load of the project. */
  predicate Unloaded(id: ProjectId, es: seq<Event>) {
    forall i :: 0 <= i < |es| ==> es[i] != Load(id)
  }

  predicate Unrefreshed(es: seq<Event>) {
    forall i :: 0 <= i < |es| ==> es[i] != Refresh
  }

  lemma WriteStep(w: World, id: ProjectId, e: Event)
    ensures var g := Generation(Step(w, e).client.mutationGeneration, id);
            && g >= Generation(w.client.mutationGeneration, id)
            && (g == Generation(w.client.mutationGeneration, id) <==> !Writes(w, id, e))
    ensures !Writes(w, id, e) && id !in w.client.activeMutation ==> id !in Step(w, e).client.activeMutation
  {
  }

  lemma LoadStep(w: World, id: ProjectId, e: Event)
    ensures var g := Generation(Step(w, e).client.loadGeneration, id);
            && g >= Generation(w.client.loadGeneration, id)
            && (g == Generation(w.client.loadGeneration, id) <==> e != Load(id))
  {
  }

  lemma RefreshStep(w: World, e: Event)
    ensures var g := Step(w, e).client.configurationGeneration;
            && g >= w.client.configurationGeneration && (g == w.client.configurationGeneration <==> e != Refresh)
  {
  }

  lemma {:induction false} WritesTell(w: World, id: ProjectId, es: seq<Event>)
    ensures var g := Generation(Run(w, es).client.mutationGeneration, id);
            && g >= Generation(w.client.mutationGeneration, id)
            && (g == Generation(w.client.mutationGeneration, id) <==> Unwritten(w, id, es))
    ensures Unwritten(w, id, es) && id !in w.client.activeMutation ==> id !in Run(w, es).client.activeMutation
    decreases |es|
  {
    if es != [] {
      WriteStep(w, id, es[0]);
      WritesTell(Step(w, es[0]), id, es[1..]);
    }
  }

  lemma {:induction false} LoadsTell(w: World, id: ProjectId, es: seq<Event>)
    ensures var g := Generation(Run(w, es).client.loadGeneration, id);
            && g >= Generation(w.client.loadGeneration, id)
            && (g == Generation(w.client.loadGeneration, id) <==> Unloaded(id, es))
    decreases |es|
  {
    if es != [] {
      LoadStep(w, id, es[0]);
      LoadsTell(Step(w, es[0]), id, es[1..]);
      assert es == [es[0]] + es[1..];
    }
  }

  lemma {:induction false} RefreshesTell(w: World, es: seq<Event>)
    ensures var g := Run(w, es).client.configurationGeneration;
            && g >= w.client.configurationGeneration && (g == w.client.configurationGeneration <==> Unrefreshed(es))
    decreases |es|
  {
    if es != [] {
      RefreshStep(w, es[0]);
      RefreshesTell(Step(w, es[0]), es[1..]);
      assert es == [es[0]] + es[1..];
    }
  }

  // --- loads ---

  lemma FetchStep(w: World, e: Event, rid: nat)
    requires rid < w.next && rid in Step(w, e).fetches
    ensures rid in w.fetches
    ensures Step(w, e).fetches[rid].id == w.fetches[rid].id && Step(w, e).fetches[rid].ticket == w.fetches[rid].ticket
  {
  }

  lemma NextStep(w: World, e: Event)
    ensures w.next <= Step(w, e).next
  {
  }

  lemma {:induction false} FetchIsKept(w: World, es: seq<Event>, rid: nat)
    requires rid < w.next && rid in Run(w, es).fetches
    ensures rid in w.fetches
    ensures Run(w, es).fetches[rid].id == w.fetches[rid].id && Run(w, es).fetches[rid].ticket == w.fetches[rid].ticket
    decreases |es|
  {
    if es != [] {
      NextStep(w, es[0]);
      FetchIsKept(Step(w, es[0]), es[1..], rid);
      FetchStep(w, es[0], rid);
    }
  }

  lemma LoadInstallsWhen(w: World, id: ProjectId, between: seq<Event>)
    requires Inv(w)
    requires var v := Run(Step(w, Load(id)), between); w.next in v.fetches && v.fetches[w.next].sample.Some?
    ensures var s, v := Step(w, Load(id)), Run(Step(w, Load(id)), between);
            var c := Step(v, LoadReply(w.next, true)).client;
            if id !in w.client.queues && Unwritten(s, id, between) && Unloaded(id, between)
            then c == v.client.(runtime := v.client.runtime[id := v.fetches[w.next].sample.value])
            else c == v.client
  {
    var s, v := Step(w, Load(id)), Run(Step(w, Load(id)), between);
    assert Sound(SliceOf(w, id));
    WritesTell(s, id, between);
    LoadsTell(s, id, between);
    FetchIsKept(s, between, w.next);
  }

  /** In every run: a successful load installs what it read exactly if no write of
      its project was pending when it was sent, and since then no call on the
      project was made and no newer load of it sent. What it installs is what the
      engine has, and a reply that does not install changes nothing. */
  lemma LoadInstallsExactly(projects: map<ProjectId, Project>, server: map<ProjectId, Runtime>, earlier: seq<Event>,
                            id: ProjectId, between: seq<Event>)
    requires var w := Run(Init(projects, server), earlier);
             var v := Run(Step(w, Load(id)), between);
             w.next in v.fetches && v.fetches[w.next].sample.Some?
    ensures var w := Run(Init(projects, server), earlier);
            var s, v := Step(w, Load(id)), Run(Step(w, Load(id)), between);
            var c := Step(v, LoadReply(w.next, true)).client;
            if id !in w.client.queues && Unwritten(s, id, between) && Unloaded(id, between)
            then id in v.server && v.fetches[w.next].sample.value == v.server[id]
                 && c == v.client.(runtime := v.client.runtime[id := v.server[id]])
            else c == v.client
  {
    var w := Run(Init(projects, server), earlier);
    RunKeeps(Init(projects, server), earlier);
    LoadInstallsWhen(w, id, between);
    var s, v := Step(w, Load(id)), Run(Step(w, Load(id)), between);
    StepKeeps(w, Load(id));
    RunKeeps(s, between);
    assert Sound(SliceOf(w, id)) && FetchSound(v, v.fetches[w.next]);
    WritesTell(s, id, between);
    FetchIsKept(s, between, w.next);
  }

  /** From any state a run can reach, a load of a project with no write pending
      that nothing disturbs shows what the engine has. */
  lemma UndisturbedLoadShows(projects: map<ProjectId, Project>, server: map<ProjectId, Runtime>, earlier: seq<Event>,
                             id: ProjectId)
    requires var w := Run(Init(projects, server), earlier); id !in w.client.queues && id in w.server
    ensures var w := Run(Init(projects, server), earlier);
            var v := Step(Step(Step(w, Load(id)), EngineReads(w.next)), LoadReply(w.next, true));
            Lookup(v.client.runtime, id) == Some(w.server[id]) && v.server == w.server
  {
    RunKeeps(Init(projects, server), earlier);
    QuietLoadShows(Run(Init(projects, server), earlier), id);
  }

  lemma QuietLoadShows(w: World, id: ProjectId)
    requires Inv(w) && id !in w.client.queues && id in w.server
    ensures var v := Step(Step(Step(w, Load(id)), EngineReads(w.next)), LoadReply(w.next, true));
            Lookup(v.client.runtime, id) == Some(w.server[id]) && v.server == w.server
  {
    OneRead(Step(w, Load(id)), w.next, id);
    ReadIs(w, id);
    LoadInstallsWhen(w, id, [EngineReads(w.next)]);
  }

  /** The engine answers with what it has. */
  lemma ReadIs(w: World, id: ProjectId)
    requires id in w.server
    ensures var v := Step(Step(w, Load(id)), EngineReads(w.next));
            v.server == w.server && w.next in v.fetches && v.fetches[w.next].id == id
            && v.fetches[w.next].sample == Some(w.server[id])
  {
  }

  lemma OneRead(s: World, rid: nat, id: ProjectId)
    ensures Run(s, [EngineReads(rid)]) == Step(s, EngineReads(rid)) && Unwritten(s, id, [EngineReads(rid)])
  {
    assert [EngineReads(rid)][1..] == [];
    assert Unwritten(Step(s, EngineReads(rid)), id, []);
  }

  // --- configuration refreshes ---

  lemma ConfigStep(w: World, e: Event, rid: nat)
    requires rid < w.next && rid in Step(w, e).configs
    ensures rid in w.configs && Step(w, e).configs[rid].generation == w.configs[rid].generation
    ensures w.configs[rid].snapshots.Some? ==> Step(w, e).configs[rid].snapshots == w.configs[rid].snapshots
  {
  }

  lemma {:induction false} ConfigIsKept(w: World, es: seq<Event>, rid: nat)
    requires rid < w.next && rid in Run(w, es).configs
    ensures rid in w.configs && Run(w, es).configs[rid].generation == w.configs[rid].generation
    ensures w.configs[rid].snapshots.Some? ==> Run(w, es).configs[rid].snapshots == w.configs[rid].snapshots
    decreases |es|
  {
    if es != [] {
      NextStep(w, es[0]);
      ConfigIsKept(Step(w, es[0]), es[1..], rid);
      ConfigStep(w, es[0], rid);
    }
  }

  lemma ConfigurationShows(c: Client, generation: nat, snapshots: map<ProjectId, Snapshot>,
                           replies: map<ProjectId, Runtime>, id: ProjectId)
    ensures var d := FinishConfiguration(c, generation, snapshots, replies);
            && d == c.(runtime := d.runtime)
            && Lookup(d.runtime, id) ==
                 if generation == c.configurationGeneration && id in replies && Accepts(c, snapshots, id)
                 then Some(replies[id]) else Lookup(c.runtime, id)
  {
  }

  /** What a refresh reply does to one project, by the points its guard compares. */
  lemma ReplyInstalls(v: World, rid: nat, answered: set<ProjectId>, id: ProjectId)
    requires rid in v.configs && v.configs[rid].snapshots.Some?
    ensures var c, snapshots := v.configs[rid], v.configs[rid].snapshots.value;
            var u := Step(v, RefreshReply(rid, answered)).client;
            && u == v.client.(runtime := u.runtime)
            && Lookup(u.runtime, id) ==
                 if && c.generation == v.client.configurationGeneration && id in c.samples && id in answered
                    && Accepts(v.client, snapshots, id)
                 then Some(c.samples[id]) else Lookup(v.client.runtime, id)
  {
    var c := v.configs[rid];
    ConfigurationShows(v.client, c.generation, c.snapshots.value,
                       map k | k in c.samples && k in answered :: c.samples[k], id);
  }

  /** The worlds of a refresh: when it is sent, when the agents are loaded, and
      when its replies come in. */
  ghost predicate Refreshes(w: World, waiting: seq<Event>, reading: seq<Event>) {
    var loaded := Run(Step(w, Refresh), waiting);
    var v := Run(Step(loaded, AgentsLoaded(w.next)), reading);
    w.next in loaded.configs && loaded.configs[w.next].snapshots.None? && w.next in v.configs
  }

  lemma RefreshGeneration(w: World, waiting: seq<Event>, reading: seq<Event>)
    requires Refreshes(w, waiting, reading)
    ensures var loaded := Run(Step(w, Refresh), waiting);
            var v := Run(Step(loaded, AgentsLoaded(w.next)), reading);
            && v.configs[w.next].snapshots == Some(Snapshots(loaded.client))
            && (v.configs[w.next].generation == v.client.configurationGeneration <==>
                  Unrefreshed(waiting) && Unrefreshed(reading))
  {
    var loaded := Run(Step(w, Refresh), waiting);
    var taken := Step(loaded, AgentsLoaded(w.next));
    NextGrows(Step(w, Refresh), waiting);
    RefreshesTell(Step(w, Refresh), waiting);
    RefreshesTell(taken, reading);
    ConfigIsKept(Step(w, Refresh), waiting, w.next);
    ConfigIsKept(taken, reading, w.next);
  }

  lemma {:induction false} NextGrows(w: World, es: seq<Event>)
    ensures w.next <= Run(w, es).next
    decreases |es|
  {
    if es != [] {
      NextStep(w, es[0]);
      NextGrows(Step(w, es[0]), es[1..]);
    }
  }

  lemma RefreshInstallsWhen(w: World, waiting: seq<Event>, reading: seq<Event>, answered: set<ProjectId>,
                            id: ProjectId)
    requires Refreshes(w, waiting, reading)
    requires Sound(SliceOf(Run(Step(w, Refresh), waiting), id))
    ensures InstalledBy(w, waiting, reading, answered, id)
  {
    var loaded := Run(Step(w, Refresh), waiting);
    var taken := Step(loaded, AgentsLoaded(w.next));
    RefreshGeneration(w, waiting, reading);
    SnapshotStands(loaded, w.next, reading, id);
    ReplyInstalls(Run(taken, reading), w.next, answered, id);
  }

  /** A snapshot passes its guard later exactly if the project was on show with no
      write pending, and no call on it was made since. */
  lemma SnapshotStands(w: World, rid: nat, reading: seq<Event>, id: ProjectId)
    requires Sound(SliceOf(w, id))
    ensures var taken := Step(w, AgentsLoaded(rid));
            Accepts(Run(taken, reading).client, Snapshots(w.client), id) <==>
              id in w.client.runtime && id !in w.client.queues && Unwritten(taken, id, reading)
  {
    var taken := Step(w, AgentsLoaded(rid));
    assert taken.client == w.client;
    WritesTell(taken, id, reading);
  }

  /** What the replies of a refresh leave of a project. */
  ghost predicate InstalledBy(w: World, waiting: seq<Event>, reading: seq<Event>, answered: set<ProjectId>,
                              id: ProjectId)
    requires Refreshes(w, waiting, reading)
  {
    var loaded := Run(Step(w, Refresh), waiting);
    var taken := Step(loaded, AgentsLoaded(w.next));
    var v := Run(taken, reading);
    var c, samples := Step(v, RefreshReply(w.next, answered)).client, v.configs[w.next].samples;
    && c == v.client.(runtime := c.runtime)
    && Lookup(c.runtime, id) ==
         if && Unrefreshed(waiting) && Unrefreshed(reading) && id in answered && id in samples
            && id in loaded.client.runtime && id !in loaded.client.queues && Unwritten(taken, id, reading)
         then Some(samples[id]) else Lookup(v.client.runtime, id)
  }

  /** In every run: the replies of a configuration refresh install, of each project
      that answered, what was read for it, exactly if no newer refresh was begun,
      the project was on show with no write pending when the agents were loaded,
      and no call on it was made since. Nothing else changes. */
  lemma RefreshInstallsExactly(projects: map<ProjectId, Project>, server: map<ProjectId, Runtime>, earlier: seq<Event>,
                               waiting: seq<Event>, reading: seq<Event>, answered: set<ProjectId>, id: ProjectId)
    requires Refreshes(Run(Init(projects, server), earlier), waiting, reading)
    ensures InstalledBy(Run(Init(projects, server), earlier), waiting, reading, answered, id)
  {
    var w := Run(Init(projects, server), earlier);
    RunKeeps(Init(projects, server), earlier);
    StepKeeps(w, Refresh);
    RunKeeps(Step(w, Refresh), waiting);
    RefreshInstallsWhen(w, waiting, reading, answered, id);
  }

  // --- what an open queue shows ---

  /** What a project shows after these calls, the first of them on a project that
      showed `before`: the model and effort last asked for, and for the rest what
      was there, or what a runtime is taken to be that nothing is known of. */
  function Expected(id: ProjectId, before: Option<Runtime>, calls: seq<Project>): Runtime
    requires calls != []
  {
    var first, last := calls[0], calls[|calls| - 1];
    match before
    case Some(r) =>
      Runtime(r.projectId, last.model, last.effort, r.effectiveEffort, r.effectiveEffortLabel, r.effectiveSource,
              r.storedEffortStatus, r.modelInfo)
    case None =>
      Runtime(id, last.model, last.effort, first.effort, first.effort,
              if first.effort in {None, Some("")} then FromNothing else FromProject, Valid, None)
  }

  ghost predicate Paints(l: Ledger, id: ProjectId) {
    id in l.w.client.queues ==>
      l.calls != [] && Lookup(l.w.client.runtime, id) == Some(Expected(id, l.before, l.calls))
  }

  lemma SetPaints(l: Ledger, id: ProjectId, model: Option<string>, effort: Option<string>)
    requires Paints(l, id)
    ensures Paints(Follow(l, id, Set(id, model, effort)), id)
  {
  }

  /** An answer either leaves the paint or empties the queue. */
  lemma ReplyPaints(l: Ledger, id: ProjectId, k: nat)
    requires Inv(l.w) && Paints(l, id)
    ensures Paints(Follow(l, id, WriteReply(id, k)), id)
  {
    if Answers(l.w, id, k) {
      assert Sound(SliceOf(l.w, id));
      LatestDrains(l.w, id);
    }
  }

  /** Loads and refreshes do not install over an open queue. */
  lemma OtherwisePaints(l: Ledger, id: ProjectId, e: Event)
    requires Inv(l.w) && Paints(l, id) && !(e.Set? && e.id == id) && !(e.WriteReply? && e.id == id)
    ensures Paints(Follow(l, id, e), id)
  {
    assert Sound(SliceOf(l.w, id));
    match e
    case Set(other, model, effort) =>
      if other in l.w.client.projects { BeginWriteFrame(l.w.client, other, model, effort, id); }
    case RefreshReply(rid, answered) =>
      if rid in l.w.configs && l.w.configs[rid].snapshots.Some? { ReplyInstalls(l.w, rid, answered, id); }
    case _ =>
  }

  lemma {:induction false} BookPaints(projects: map<ProjectId, Project>, server: map<ProjectId, Runtime>,
                                      es: seq<Event>, id: ProjectId)
    ensures Paints(Book(Open(projects, server), id, es), id)
  {
    if es != [] {
      var n := |es| - 1;
      var l, e := Book(Open(projects, server), id, es[..n]), es[n];
      BookPaints(projects, server, es[..n], id);
      BookIsRun(Open(projects, server), id, es[..n]);
      RunKeeps(Init(projects, server), es[..n]);
      if e.Set? && e.id == id {
        SetPaints(l, id, e.model, e.effort);
      } else if e.WriteReply? && e.id == id {
        ReplyPaints(l, id, e.k);
      } else {
        OtherwisePaints(l, id, e);
      }
    }
  }

  /** In every run: a project with writes pending shows the model and the effort of
      the last call, and for the rest what it showed when its queue was opened. */
  lemma OpenQueueShowsLastCall(projects: map<ProjectId, Project>, server: map<ProjectId, Runtime>, es: seq<Event>,
                               id: ProjectId)
    ensures var l := Book(Open(projects, server), id, es);
            && l.w == Run(Init(projects, server), es)
            && (id in l.w.client.queues ==>
                  l.calls != [] && Lookup(l.w.client.runtime, id) == Some(Expected(id, l.before, l.calls)))
  {
    BookIsRun(Open(projects, server), id, es);
    BookPaints(projects, server, es, id);
  }

  // --- the settings of a project ---

  function SettingOf(projects: map<ProjectId, Project>, id: ProjectId): Option<Project> {
    if id in projects then Some(projects[id]) else None
  }

  /** This reply empties the project's queue. */
  ghost predicate Drains(w: World, id: ProjectId, e: Event) {
    e.WriteReply? && e.id == id && id in w.client.queues && id !in Step(w, e).client.queues
  }

  /** A project's settings by what happened last: the list was loaded anew, a call
      was made, or the last answer came in. */
  ghost function Settings(projects: map<ProjectId, Project>, server: map<ProjectId, Runtime>, es: seq<Event>,
                          id: ProjectId): Option<Project>
  {
    if es == [] then SettingOf(projects, id)
    else
      var init, last := es[..|es| - 1], es[|es| - 1];
      var before := Settings(projects, server, init, id);
      if last.ProjectsReloaded? then SettingOf(last.projects, id)
      else if before == None then None
      else if last.Set? && last.id == id then Some(Project(last.model, last.effort))
      else if Drains(Run(Init(projects, server), init), id, last) then
        var l := Book(Open(projects, server), id, es);
        Some(LastSettings(l.settings, l.answers))
      else before
  }

  lemma SettingsStay(w: World, id: ProjectId, e: Event)
    requires Inv(w) && !e.ProjectsReloaded? && !(e.Set? && e.id == id) && !Drains(w, id, e)
    ensures SettingOf(Step(w, e).client.projects, id) == SettingOf(w.client.projects, id)
  {
    if e.WriteReply? && Answers(w, e.id, e.k) {
      assert Sound(SliceOf(w, e.id));
      LatestDrains(w, e.id);
    }
  }

  lemma DrainedSettings(l: Ledger, id: ProjectId, e: Event)
    requires Inv(l.w) && InStep(l, id) && Drains(l.w, id, e) && id in l.w.client.projects
    ensures var m := Follow(l, id, e);
            Step(l.w, e).client.projects[id] == LastSettings(m.settings, m.answers)
  {
    assert Answers(l.w, id, e.k) && Sound(SliceOf(l.w, id));
    LatestDrains(l.w, id);
    AnswerConfirms(l, id);
  }

  lemma SettingsStep(l: Ledger, id: ProjectId, e: Event)
    requires Inv(l.w) && InStep(l, id)
    ensures var before, after := SettingOf(l.w.client.projects, id), SettingOf(Step(l.w, e).client.projects, id);
            var m := Follow(l, id, e);
            after == if e.ProjectsReloaded? then SettingOf(e.projects, id)
                     else if before == None then None
                     else if e.Set? && e.id == id then Some(Project(e.model, e.effort))
                     else if Drains(l.w, id, e) then Some(LastSettings(m.settings, m.answers))
                     else before
  {
    if Drains(l.w, id, e) {
      if id in l.w.client.projects { DrainedSettings(l, id, e); }
    } else if !e.ProjectsReloaded? && !(e.Set? && e.id == id) {
      SettingsStay(l.w, id, e);
    }
  }

  lemma SettingsNext(projects: map<ProjectId, Project>, server: map<ProjectId, Runtime>, es: seq<Event>, e: Event,
                     id: ProjectId)
    requires SettingOf(Run(Init(projects, server), es).client.projects, id) == Settings(projects, server, es, id)
    ensures SettingOf(Run(Init(projects, server), es + [e]).client.projects, id)
         == Settings(projects, server, es + [e], id)
  {
    assert (es + [e])[..|es|] == es;
    RunSnoc(Init(projects, server), es, e);
    RunKeeps(Init(projects, server), es);
    BookIsRun(Open(projects, server), id, es);
    BookInStep(projects, server, es, id);
    SettingsStep(Book(Open(projects, server), id, es), id, e);
  }

  /** In every run a project has the settings of the list last loaded, of the last
      call since, or, once the last call is answered, of the last write
      acknowledged. */
  lemma {:induction false} SettingsAreTheLast(projects: map<ProjectId, Project>, server: map<ProjectId, Runtime>,
                                              es: seq<Event>, id: ProjectId)
    ensures SettingOf(Run(Init(projects, server), es).client.projects, id) == Settings(projects, server, es, id)
  {
    if es != [] {
      SettingsAreTheLast(projects, server, es[..|es| - 1], id);
      SettingsNext(projects, server, es[..|es| - 1], es[|es| - 1], id);
      assert es == es[..|es| - 1] + [es[|es| - 1]];
    }
  }
}
