/** Runtime writes and guarded reads against an engine that answers in any
    order. This client is the engine's only writer. */
module RuntimeProtocol {
  import opened Options
  import opened RuntimeStore

  datatype Phase = Sent | Applied(data: Runtime) | Rejected

  /** A write the engine has been asked for and has not answered. */
  datatype Flight = Flight(intent: nat, phase: Phase)

  /** A `loadProjectRuntime` request in flight. */
  datatype Fetch = Fetch(id: ProjectId, ticket: Ticket, sample: Option<Runtime>)

  /** A `refreshModelConfiguration`: first it waits for the agents
      (`snapshots` is None), then for one reply per project. */
  datatype Config = Config(generation: nat, snapshots: Option<map<ProjectId, Snapshot>>,
                           samples: map<ProjectId, Runtime>)

  /** `asked` and `issued` are histories, per project: the values of the calls
      made, and of the requests sent to the engine. */
  datatype World = World(client: Client, server: map<ProjectId, Runtime>,
                         flights: map<ProjectId, seq<Flight>>, fetches: map<nat, Fetch>,
                         configs: map<nat, Config>, next: nat,
                         asked: map<ProjectId, seq<Project>>, issued: map<ProjectId, seq<Project>>)

  datatype Event =
    | Load(id: ProjectId)
    | EngineReads(rid: nat)
    | LoadReply(rid: nat, ok: bool)
    | Set(id: ProjectId, model: Option<string>, effort: Option<string>)
    | ChainAdvances(id: ProjectId)
    | EngineWrites(id: ProjectId, k: nat, data: Runtime)
    | EngineRejects(id: ProjectId, k: nat)
    | WriteReply(id: ProjectId, k: nat)
    | Refresh
    | AgentsLoaded(rid: nat)
    | EngineReadsFor(rid: nat, id: ProjectId)
    | RefreshReply(rid: nat, answered: set<ProjectId>)
    | ProjectsReloaded(projects: map<ProjectId, Project>)

  function History(m: map<ProjectId, seq<Project>>, id: ProjectId): seq<Project> {
    if id in m then m[id] else []
  }

  function Values(tail: seq<Write>): seq<Project> {
    seq(|tail|, i requires 0 <= i < |tail| => tail[i].value)
  }

  function Flights(w: World, id: ProjectId): seq<Flight> {
    if id in w.flights then w.flights[id] else []
  }

  /** A chained write may start once every earlier write of its project has settled. */
  ghost predicate MayStart(w: World, id: ProjectId) {
    && id in w.client.queues && w.client.queues[id].tail != []
    && forall f :: f in Flights(w, id) ==> f.intent >= w.client.queues[id].tail[0].intent
  }

  function Issued(w: World, id: ProjectId, write: Write): map<ProjectId, seq<Project>> {
    w.issued[id := History(w.issued, id) + [write.value]]
  }

  function Launched(w: World, id: ProjectId, write: Write): map<ProjectId, seq<Flight>> {
    w.flights[id := Flights(w, id) + [Flight(write.intent, Sent)]]
  }

  ghost function SetStep(w: World, id: ProjectId, model: Option<string>, effort: Option<string>): World {
    if id !in w.client.projects then w
    else
      var write, now := NewWrite(w.client, id, model, effort), StartsNow(w.client, id);
      w.(client := BeginWrite(w.client, id, model, effort),
         asked := w.asked[id := History(w.asked, id) + [write.value]],
         flights := if now then Launched(w, id, write) else w.flights,
         issued := if now then Issued(w, id, write) else w.issued)
  }

  ghost function WriteReplyStep(w: World, id: ProjectId, k: nat): World {
    var fs := Flights(w, id);
    if k >= |fs| || fs[k].phase.Sent? || id !in w.client.queues || w.client.queues[id].pending == 0 then w
    else w.(client := FinishWrite(w.client, id, fs[k].intent,
                                  if fs[k].phase.Applied? then Some(fs[k].phase.data) else None),
            flights := w.flights[id := fs[..k] + fs[k + 1..]])
  }

  ghost function RefreshReplyStep(w: World, rid: nat, answered: set<ProjectId>): World {
    if rid !in w.configs || w.configs[rid].snapshots.None? then w
    else
      var c := w.configs[rid];
      w.(client := FinishConfiguration(w.client, c.generation, c.snapshots.value,
                                       map id | id in c.samples && id in answered :: c.samples[id]),
         configs := w.configs - {rid})
  }

  ghost function Step(w: World, e: Event): World {
    match e
    case Load(id) =>
      var (c, t) := BeginLoad(w.client, id);
      w.(client := c, fetches := w.fetches[w.next := Fetch(id, t, None)], next := w.next + 1)
    case EngineReads(rid) =>
      if rid in w.fetches && w.fetches[rid].sample.None? && w.fetches[rid].id in w.server
      then w.(fetches := w.fetches[rid := w.fetches[rid].(sample := Some(w.server[w.fetches[rid].id]))])
      else w
    case LoadReply(rid, ok) =>
      if rid in w.fetches
      then w.(client := FinishLoad(w.client, w.fetches[rid].id, w.fetches[rid].ticket,
                                   if ok then w.fetches[rid].sample else None),
              fetches := w.fetches - {rid})
      else w
    case Set(id, model, effort) => SetStep(w, id, model, effort)
    case ChainAdvances(id) =>
      if MayStart(w, id)
      then w.(client := StartNext(w.client, id),
              flights := Launched(w, id, w.client.queues[id].tail[0]),
              issued := Issued(w, id, w.client.queues[id].tail[0]))
      else w
    case EngineWrites(id, k, data) =>
      var fs := Flights(w, id);
      if k < |fs| && fs[k].phase.Sent?
      then w.(server := w.server[id := data], flights := w.flights[id := fs[k := fs[k].(phase := Applied(data))]])
      else w
    case EngineRejects(id, k) =>
      var fs := Flights(w, id);
      if k < |fs| && fs[k].phase.Sent? then w.(flights := w.flights[id := fs[k := fs[k].(phase := Rejected)]]) else w
    case WriteReply(id, k) => WriteReplyStep(w, id, k)
    case Refresh =>
      var c := BeginConfiguration(w.client);
      w.(client := c, configs := w.configs[w.next := Config(c.configurationGeneration, None, map[])],
         next := w.next + 1)
    case AgentsLoaded(rid) =>
      if rid in w.configs && w.configs[rid].snapshots.None?
      then w.(configs := w.configs[rid := w.configs[rid].(snapshots := Some(Snapshots(w.client)))])
      else w
    case EngineReadsFor(rid, id) =>
      if rid in w.configs && w.configs[rid].snapshots.Some? && id in w.configs[rid].snapshots.value
         && id !in w.configs[rid].samples && id in w.server
      then w.(configs := w.configs[rid := w.configs[rid].(samples := w.configs[rid].samples[id := w.server[id]])])
      else w
    case RefreshReply(rid, answered) => RefreshReplyStep(w, rid, answered)
    case ProjectsReloaded(projects) => w.(client := w.client.(projects := projects))
  }

  ghost function Run(w: World, es: seq<Event>): World
    decreases |es|
  {
    if es == [] then w else Run(Step(w, es[0]), es[1..])
  }

  ghost function Init(projects: map<ProjectId, Project>, server: map<ProjectId, Runtime>): World {
    World(Client(projects, map[], map[], map[], map[], map[], 0), server, map[], map[], map[], 0, map[], map[])
  }

  // --- the invariant, one project at a time ---

  /** Everything the protocol keeps about one project. */
  datatype Slice = Slice(shown: Option<Runtime>, active: bool, generation: nat, queue: Option<Queue>,
                         flights: seq<Flight>, engine: Option<Runtime>, asked: seq<Project>, issued: seq<Project>)

  function SliceOf(w: World, id: ProjectId): Slice {
    Slice(Lookup(w.client.runtime, id), id in w.client.activeMutation, Generation(w.client.mutationGeneration, id),
          if id in w.client.queues then Some(w.client.queues[id]) else None,
          Flights(w, id), Lookup(w.server, id), History(w.asked, id), History(w.issued, id))
  }

  /** Idle: what is shown is the engine's, and everything asked for was sent. */
  ghost predicate IdleSound(s: Slice) {
    && !s.active && s.flights == []
    && (s.shown.Some? ==> s.shown == s.engine)
    && s.asked == s.issued
  }

  /** Writing: at most one request is out, it is the oldest unsettled call, the
      chain holds the later ones in order, and the confirmed runtime is the
      engine's unless an acknowledgement is on its way. */
  ghost predicate WritingSound(s: Slice, q: Queue) {
    && s.active && |s.flights| <= 1
    && q.pending == |q.tail| + |s.flights|
    && 0 < q.pending <= q.latestIntent
    && (forall k :: 0 <= k < |q.tail| ==> q.tail[k].intent == q.latestIntent - |q.tail| + 1 + k)
    && (s.flights != [] ==> s.flights[0].intent == q.latestIntent - |q.tail|)
    && (if s.flights != [] && s.flights[0].phase.Applied?
        then s.engine == Some(s.flights[0].phase.data)
        else q.confirmedRuntime.Some? ==> s.engine == q.confirmedRuntime)
    && s.asked == s.issued + Values(q.tail)
  }

  ghost predicate Sound(s: Slice) {
    if s.queue.None? then IdleSound(s) else WritingSound(s, s.queue.value)
  }

  /** A reading taken outside any mutation, at generation `g`, is either
      overtaken or still what the engine holds. */
  ghost predicate Stands(s: Slice, g: nat, sample: Option<Runtime>) {
    && g <= s.generation
    && (g == s.generation ==> !s.active && (sample.Some? ==> sample == s.engine))
  }

  ghost predicate FetchSound(w: World, f: Fetch) {
    !f.ticket.startedDuringMutation ==> Stands(SliceOf(w, f.id), f.ticket.mutationGeneration, f.sample)
  }

  ghost predicate ConfigSound(w: World, c: Config) {
    if c.snapshots.None? then c.samples == map[]
    else forall id :: id in c.snapshots.value && !c.snapshots.value[id].active
           ==> Stands(SliceOf(w, id), c.snapshots.value[id].generation, Lookup(c.samples, id))
  }

  ghost predicate Inv(w: World) {
    && (forall id :: Sound(SliceOf(w, id)))
    && (forall r :: r in w.fetches ==> FetchSound(w, w.fetches[r]))
    && (forall r :: r in w.configs ==> ConfigSound(w, w.configs[r]))
  }

  // --- every step keeps it ---

  /** A step that disturbs at most the slice of `id`, starts no read, and leaves
      that slice sound and every standing read of it standing, keeps everything. */
  lemma OneProjectStep(w: World, v: World, id: ProjectId)
    requires Inv(w) && v.fetches == w.fetches && v.configs == w.configs
    requires forall other :: other != id ==> SliceOf(v, other) == SliceOf(w, other)
    requires Sound(SliceOf(v, id))
    requires forall g, sample :: Stands(SliceOf(w, id), g, sample) ==> Stands(SliceOf(v, id), g, sample)
    ensures Inv(v)
  {
    forall r | r in v.fetches ensures FetchSound(v, v.fetches[r]) {
      assert FetchSound(w, w.fetches[r]);
    }
    forall r | r in v.configs ensures ConfigSound(v, v.configs[r]) {
      assert ConfigSound(w, w.configs[r]);
    }
  }

  lemma BeginWriteOwn(c: Client, id: ProjectId, model: Option<string>, effort: Option<string>)
    requires id in c.projects
    ensures var d, q, write := BeginWrite(c, id, model, effort), OpenQueue(c, id), NewWrite(c, id, model, effort);
            && id in d.activeMutation
            && Generation(d.mutationGeneration, id) == Generation(c.mutationGeneration, id) + 1
            && id in d.queues
            && d.queues[id] == q.(pending := q.pending + 1, latestIntent := q.latestIntent + 1,
                                  tail := if StartsNow(c, id) then q.tail else q.tail + [write])
  {
  }

  lemma ValuesAppend(tail: seq<Write>, write: Write)
    ensures Values(tail + [write]) == Values(tail) + [write.value]
  {
  }

  /** What a call does to its own project's slice. */
  lemma SetSliceIs(w: World, id: ProjectId, model: Option<string>, effort: Option<string>)
    requires id in w.client.projects
    ensures var s, v := SliceOf(w, id), SliceOf(SetStep(w, id, model, effort), id);
            var q, write, now := OpenQueue(w.client, id), NewWrite(w.client, id, model, effort),
                StartsNow(w.client, id);
            && v.active && v.engine == s.engine && v.generation == s.generation + 1
            && v.asked == s.asked + [write.value]
            && v.queue == Some(Grown(q, write))
            && v.flights == (if now then s.flights + [Flight(write.intent, Sent)] else s.flights)
            && v.issued == (if now then s.issued + [write.value] else s.issued)
  {
    BeginWriteOwn(w.client, id, model, effort);
  }

  function Grown(q: Queue, write: Write): Queue {
    q.(pending := q.pending + 1, latestIntent := q.latestIntent + 1,
       tail := if q.pending == 0 then q.tail else q.tail + [write])
  }

  /** A queue that is already open takes one more write at its end. */
  lemma WritingGrows(s: Slice, q: Queue, write: Write, v: Slice)
    requires WritingSound(s, q) && write.intent == q.latestIntent + 1
    requires v.active && v.engine == s.engine && v.flights == s.flights && v.issued == s.issued
    requires v.asked == s.asked + [write.value]
    ensures WritingSound(v, Grown(q, write))
  {
    ValuesAppend(q.tail, write);
  }

  lemma SetSlice(w: World, id: ProjectId, model: Option<string>, effort: Option<string>)
    requires id in w.client.projects && Sound(SliceOf(w, id))
    ensures var s, v := SliceOf(w, id), SliceOf(SetStep(w, id, model, effort), id);
            && v.active && v.engine == s.engine && v.generation == s.generation + 1
            && v.asked == s.asked + [Project(model, effort)]
            && v.queue.Some? && WritingSound(v, v.queue.value)
  {
    var s, v := SliceOf(w, id), SliceOf(SetStep(w, id, model, effort), id);
    var q, write := OpenQueue(w.client, id), NewWrite(w.client, id, model, effort);
    SetSliceIs(w, id, model, effort);
    if s.queue.Some? {
      WritingGrows(s, q, write, v);
    } else {
      assert Values([]) == [];
    }
  }

  lemma SetFrame(w: World, id: ProjectId, model: Option<string>, effort: Option<string>, other: ProjectId)
    requires other != id
    ensures SliceOf(SetStep(w, id, model, effort), other) == SliceOf(w, other)
  {
    if id in w.client.projects {
      BeginWriteFrame(w.client, id, model, effort, other);
    }
  }

  lemma BeginWriteFrame(c: Client, id: ProjectId, model: Option<string>, effort: Option<string>, other: ProjectId)
    requires other != id && id in c.projects
    ensures var d := BeginWrite(c, id, model, effort);
            && Lookup(d.runtime, other) == Lookup(c.runtime, other)
            && (other in d.activeMutation <==> other in c.activeMutation)
            && Generation(d.mutationGeneration, other) == Generation(c.mutationGeneration, other)
            && (other in d.queues <==> other in c.queues)
            && (other in c.queues ==> d.queues[other] == c.queues[other])
  {
  }

  lemma SetKeeps(w: World, id: ProjectId, model: Option<string>, effort: Option<string>)
    requires Inv(w)
    ensures Inv(SetStep(w, id, model, effort))
  {
    if id in w.client.projects {
      assert Sound(SliceOf(w, id));
      SetSlice(w, id, model, effort);
      var v := SetStep(w, id, model, effort);
      assert v.fetches == w.fetches && v.configs == w.configs;
      forall other | other != id ensures SliceOf(v, other) == SliceOf(w, other) {
        SetFrame(w, id, model, effort, other);
      }
      OneProjectStep(w, v, id);
    }
  }

  lemma AdvanceFrame(w: World, id: ProjectId, other: ProjectId)
    requires other != id
    ensures SliceOf(Step(w, ChainAdvances(id)), other) == SliceOf(w, other)
  {
  }

  lemma AdvanceSlice(w: World, id: ProjectId)
    requires Sound(SliceOf(w, id))
    ensures Sound(SliceOf(Step(w, ChainAdvances(id)), id))
  {
  }

  lemma AdvanceStands(w: World, id: ProjectId, g: nat, sample: Option<Runtime>)
    requires Sound(SliceOf(w, id)) && Stands(SliceOf(w, id), g, sample)
    ensures Stands(SliceOf(Step(w, ChainAdvances(id)), id), g, sample)
  {
  }

  lemma ChainAdvancesKeeps(w: World, id: ProjectId)
    requires Inv(w)
    ensures Inv(Step(w, ChainAdvances(id)))
  {
    var v := Step(w, ChainAdvances(id));
    assert Sound(SliceOf(w, id));
    AdvanceSlice(w, id);
    forall other | other != id ensures SliceOf(v, other) == SliceOf(w, other) { AdvanceFrame(w, id, other); }
    forall g, sample | Stands(SliceOf(w, id), g, sample) ensures Stands(SliceOf(v, id), g, sample) {
      AdvanceStands(w, id, g, sample);
    }
    OneProjectStep(w, v, id);
  }

  lemma EngineWritesKeeps(w: World, id: ProjectId, k: nat, data: Runtime)
    requires Inv(w)
    ensures Inv(Step(w, EngineWrites(id, k, data)))
  {
    assert Sound(SliceOf(w, id));
    OneProjectStep(w, Step(w, EngineWrites(id, k, data)), id);
  }

  lemma EngineRejectsKeeps(w: World, id: ProjectId, k: nat)
    requires Inv(w)
    ensures Inv(Step(w, EngineRejects(id, k)))
  {
    assert Sound(SliceOf(w, id));
    OneProjectStep(w, Step(w, EngineRejects(id, k)), id);
  }

  lemma WriteReplySlice(w: World, id: ProjectId, k: nat)
    requires Sound(SliceOf(w, id))
    ensures Sound(SliceOf(WriteReplyStep(w, id, k), id))
  {
  }

  lemma WriteReplyStands(w: World, id: ProjectId, k: nat, g: nat, sample: Option<Runtime>)
    requires Sound(SliceOf(w, id)) && Stands(SliceOf(w, id), g, sample)
    ensures Stands(SliceOf(WriteReplyStep(w, id, k), id), g, sample)
  {
  }

  lemma WriteReplyFrame(w: World, id: ProjectId, k: nat, other: ProjectId)
    requires other != id
    ensures SliceOf(WriteReplyStep(w, id, k), other) == SliceOf(w, other)
  {
  }

  lemma WriteReplyKeeps(w: World, id: ProjectId, k: nat)
    requires Inv(w)
    ensures Inv(WriteReplyStep(w, id, k))
  {
    var v := WriteReplyStep(w, id, k);
    assert Sound(SliceOf(w, id));
    WriteReplySlice(w, id, k);
    forall g, sample | Stands(SliceOf(w, id), g, sample) ensures Stands(SliceOf(v, id), g, sample) {
      WriteReplyStands(w, id, k, g, sample);
    }
    forall other | other != id ensures SliceOf(v, other) == SliceOf(w, other) {
      WriteReplyFrame(w, id, k, other);
    }
    OneProjectStep(w, v, id);
  }

  /** A configuration reply changes only what is shown. */
  lemma RefreshReplyFrame(w: World, rid: nat, answered: set<ProjectId>, id: ProjectId)
    requires rid in w.configs
    ensures var v := RefreshReplyStep(w, rid, answered);
            SliceOf(v, id) == SliceOf(w, id).(shown := Lookup(v.client.runtime, id))
  {
    var v := RefreshReplyStep(w, rid, answered);
    assert v.server == w.server && v.flights == w.flights && v.asked == w.asked && v.issued == w.issued;
    assert v.client == w.client.(runtime := v.client.runtime);
  }

  /** What it changes it changes to readings that stand. */
  lemma RefreshReplySlice(w: World, rid: nat, answered: set<ProjectId>, id: ProjectId)
    requires rid in w.configs && ConfigSound(w, w.configs[rid]) && Sound(SliceOf(w, id))
    ensures var v := RefreshReplyStep(w, rid, answered);
            && SliceOf(v, id) == SliceOf(w, id).(shown := Lookup(v.client.runtime, id))
            && Sound(SliceOf(v, id))
  {
    var c := w.configs[rid];
    RefreshReplyFrame(w, rid, answered, id);
    if c.snapshots.Some? {
      var replies := map k | k in c.samples && k in answered :: c.samples[k];
      if id in replies && Accepts(w.client, c.snapshots.value, id) {
        assert Stands(SliceOf(w, id), c.snapshots.value[id].generation, Lookup(c.samples, id));
      }
    }
  }


  lemma RefreshReplyKeeps(w: World, rid: nat, answered: set<ProjectId>)
    requires Inv(w)
    ensures Inv(RefreshReplyStep(w, rid, answered))
  {
    if rid in w.configs && w.configs[rid].snapshots.Some? {
      var v := RefreshReplyStep(w, rid, answered);
      forall id
        ensures Sound(SliceOf(v, id)) && SliceOf(v, id).(shown := None) == SliceOf(w, id).(shown := None)
      {
        assert Sound(SliceOf(w, id));
        RefreshReplySlice(w, rid, answered, id);
      }
      assert v.fetches == w.fetches && v.configs == w.configs - {rid};
      SameReadings(w, v);
    }
  }

  /** A step that leaves every slice's generation, activity and engine value
      alone, and starts no read, leaves every reading sound. */
  lemma SameReadings(w: World, v: World)
    requires Inv(w) && v.fetches.Keys <= w.fetches.Keys && v.configs.Keys <= w.configs.Keys
    requires forall r :: r in v.fetches ==> v.fetches[r] == w.fetches[r]
    requires forall r :: r in v.configs ==> v.configs[r] == w.configs[r]
    requires forall id :: SliceOf(v, id).(shown := None) == SliceOf(w, id).(shown := None)
    ensures forall r :: r in v.fetches ==> FetchSound(v, v.fetches[r])
    ensures forall r :: r in v.configs ==> ConfigSound(v, v.configs[r])
  {
    forall r | r in v.fetches ensures FetchSound(v, v.fetches[r]) {
      assert FetchSound(w, w.fetches[r]);
      assert SliceOf(v, v.fetches[r].id).(shown := None) == SliceOf(w, v.fetches[r].id).(shown := None);
    }
    forall r | r in v.configs ensures ConfigSound(v, v.configs[r]) {
      assert ConfigSound(w, w.configs[r]);
      if v.configs[r].snapshots.Some? {
        forall id | id in v.configs[r].snapshots.value && !v.configs[r].snapshots.value[id].active
          ensures Stands(SliceOf(v, id), v.configs[r].snapshots.value[id].generation, Lookup(v.configs[r].samples, id))
        {
          assert SliceOf(v, id).(shown := None) == SliceOf(w, id).(shown := None);
        }
      }
    }
  }

  /** A step that touches no slice keeps everything, provided the reads it
      starts or samples are sound. */
  lemma ReadStep(w: World, v: World)
    requires Inv(w) && forall id :: SliceOf(v, id) == SliceOf(w, id)
    requires forall r :: r in v.fetches ==>
               (r in w.fetches && v.fetches[r] == w.fetches[r]) || FetchSound(w, v.fetches[r])
    requires forall r :: r in v.configs ==>
               (r in w.configs && v.configs[r] == w.configs[r]) || ConfigSound(w, v.configs[r])
    ensures Inv(v)
  {
    forall id ensures Sound(SliceOf(v, id)) {
      assert Sound(SliceOf(w, id));
    }
    forall r | r in v.fetches ensures FetchSound(v, v.fetches[r]) {
      assert FetchSound(w, v.fetches[r]);
      assert SliceOf(v, v.fetches[r].id) == SliceOf(w, v.fetches[r].id);
    }
    forall r | r in v.configs ensures ConfigSound(v, v.configs[r]) {
      assert ConfigSound(w, v.configs[r]);
    }
  }

  lemma LoadKeeps(w: World, id: ProjectId)
    requires Inv(w)
    ensures Inv(Step(w, Load(id)))
  {
    assert Sound(SliceOf(w, id));
    ReadStep(w, Step(w, Load(id)));
  }

  lemma EngineReadsKeeps(w: World, rid: nat)
    requires Inv(w)
    ensures Inv(Step(w, EngineReads(rid)))
  {
    if rid in w.fetches { assert FetchSound(w, w.fetches[rid]); }
    ReadStep(w, Step(w, EngineReads(rid)));
  }

  lemma AgentsLoadedKeeps(w: World, rid: nat)
    requires Inv(w)
    ensures Inv(Step(w, AgentsLoaded(rid)))
  {
    if rid in w.configs { assert ConfigSound(w, w.configs[rid]); }
    forall id | id in Snapshots(w.client) && !Snapshots(w.client)[id].active
      ensures Stands(SliceOf(w, id), Snapshots(w.client)[id].generation, None)
    {
      assert Sound(SliceOf(w, id));
    }
    ReadStep(w, Step(w, AgentsLoaded(rid)));
  }

  lemma EngineReadsForKeeps(w: World, rid: nat, id: ProjectId)
    requires Inv(w)
    ensures Inv(Step(w, EngineReadsFor(rid, id)))
  {
    var v := Step(w, EngineReadsFor(rid, id));
    if rid in w.configs && v.configs != w.configs {
      var c, d := w.configs[rid], v.configs[rid];
      assert ConfigSound(w, c);
      forall k | k in d.snapshots.value && !d.snapshots.value[k].active
        ensures Stands(SliceOf(w, k), d.snapshots.value[k].generation, Lookup(d.samples, k))
      {
        assert Stands(SliceOf(w, k), c.snapshots.value[k].generation, Lookup(c.samples, k));
      }
      assert ConfigSound(w, d);
    }
    ReadStep(w, v);
  }

  lemma LoadReplyKeeps(w: World, rid: nat, ok: bool)
    requires Inv(w)
    ensures Inv(Step(w, LoadReply(rid, ok)))
  {
    if rid in w.fetches {
      var v := Step(w, LoadReply(rid, ok));
      assert FetchSound(w, w.fetches[rid]);
      forall id ensures Sound(SliceOf(v, id)) {
        assert Sound(SliceOf(w, id));
        assert SliceOf(v, id) == SliceOf(w, id).(shown := Lookup(v.client.runtime, id));
      }
      SameReadings(w, v);
    }
  }

  lemma StepKeeps(w: World, e: Event)
    requires Inv(w)
    ensures Inv(Step(w, e))
  {
    match e
    case Set(id, model, effort) => SetKeeps(w, id, model, effort);
    case ChainAdvances(id) => ChainAdvancesKeeps(w, id);
    case EngineWrites(id, k, data) => EngineWritesKeeps(w, id, k, data);
    case EngineRejects(id, k) => EngineRejectsKeeps(w, id, k);
    case WriteReply(id, k) => WriteReplyKeeps(w, id, k);
    case LoadReply(rid, ok) => LoadReplyKeeps(w, rid, ok);
    case RefreshReply(rid, answered) => RefreshReplyKeeps(w, rid, answered);
    case Load(id) => LoadKeeps(w, id);
    case EngineReads(rid) => EngineReadsKeeps(w, rid);
    case AgentsLoaded(rid) => AgentsLoadedKeeps(w, rid);
    case EngineReadsFor(rid, id) => EngineReadsForKeeps(w, rid, id);
    case Refresh => ReadStep(w, Step(w, e));
    case ProjectsReloaded(_) => ReadStep(w, Step(w, e));
  }

  lemma {:induction false} RunKeeps(w: World, es: seq<Event>)
    requires Inv(w)
    ensures Inv(Run(w, es))
    decreases |es|
  {
    if es != [] {
      StepKeeps(w, es[0]);
      RunKeeps(Step(w, es[0]), es[1..]);
    }
  }

  /** The store's promise, in every run: a project with no write pending shows
      nothing or the engine's runtime; and the queue, its pending count and the
      active-mutation marker come and go together. */
  lemma RuntimeAgreesInEveryRun(projects: map<ProjectId, Project>, server: map<ProjectId, Runtime>, es: seq<Event>,
                                id: ProjectId)
    ensures var w := Run(Init(projects, server), es);
            && (id !in w.client.queues ==> id in w.client.runtime ==>
                  id in w.server && w.client.runtime[id] == w.server[id])
            && (id in w.client.queues <==> id in w.client.activeMutation)
            && (id in w.client.queues ==> w.client.queues[id].pending > 0)
  {
    RunKeeps(Init(projects, server), es);
    assert Sound(SliceOf(Run(Init(projects, server), es), id));
  }

  /** Requests leave in call order and one at a time: what was sent is a prefix
      of what was asked, the chain holds the rest, and at most one is unanswered. */
  lemma WritesIssueInOrderOneAtATime(projects: map<ProjectId, Project>, server: map<ProjectId, Runtime>,
                                     es: seq<Event>, id: ProjectId)
    ensures var w := Run(Init(projects, server), es);
            && |Flights(w, id)| <= 1
            && History(w.asked, id) == History(w.issued, id)
                 + (if id in w.client.queues then Values(w.client.queues[id].tail) else [])
            && (Flights(w, id) == [] && id in w.client.queues ==> MayStart(w, id))
  {
    RunKeeps(Init(projects, server), es);
    assert Sound(SliceOf(Run(Init(projects, server), es), id));
  }
}
