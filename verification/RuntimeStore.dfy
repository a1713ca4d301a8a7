/** The per-project runtime writes and guarded reads of the main store. The
    functions specify each stretch of code between two awaits; the class is the
    store that runs them. */
module RuntimeStore {
  import opened Options

  /** Identifiers are only ever compared. */
  type ProjectId = nat

  datatype Source = FromProject | FromNothing | FromElsewhere(name: string)
  datatype Status = Valid | Other(name: string)

  datatype Runtime = Runtime(projectId: ProjectId, model: Option<string>, storedEffort: Option<string>,
                             effectiveEffort: Option<string>, effectiveEffortLabel: Option<string>,
                             effectiveSource: Source, storedEffortStatus: Status, modelInfo: Option<string>)

  datatype Project = Project(model: Option<string>, effort: Option<string>)

  /** One `setProjectRuntime` call waiting on its queue's promise chain. */
  datatype Write = Write(intent: nat, value: Project)

  datatype Queue = Queue(pending: nat, latestIntent: nat, confirmed: Project, confirmedRuntime: Option<Runtime>,
                         tail: seq<Write>)

  datatype Client = Client(projects: map<ProjectId, Project>, runtime: map<ProjectId, Runtime>,
                           mutationGeneration: map<ProjectId, nat>, activeMutation: map<ProjectId, nat>,
                           loadGeneration: map<ProjectId, nat>, queues: map<ProjectId, Queue>,
                           configurationGeneration: nat)

  /** What `loadProjectRuntime` remembers across its await. */
  datatype Ticket = Ticket(mutationGeneration: nat, startedDuringMutation: bool, loadGeneration: nat)

  /** What `refreshModelConfiguration` remembers of one project across its await. */
  datatype Snapshot = Snapshot(generation: nat, active: bool)

  function Generation(m: map<ProjectId, nat>, id: ProjectId): nat {
    if id in m then m[id] else 0
  }

  function Lookup(m: map<ProjectId, Runtime>, id: ProjectId): Option<Runtime> {
    if id in m then Some(m[id]) else None
  }

  function BeginLoad(c: Client, id: ProjectId): (Client, Ticket) {
    var g := Generation(c.loadGeneration, id) + 1;
    (c.(loadGeneration := c.loadGeneration[id := g]),
     Ticket(Generation(c.mutationGeneration, id), id in c.activeMutation, g))
  }

  function FinishLoad(c: Client, id: ProjectId, t: Ticket, reply: Option<Runtime>): Client {
    if && reply.Some? && !t.startedDuringMutation && id !in c.activeMutation
       && Generation(c.mutationGeneration, id) == t.mutationGeneration
       && Generation(c.loadGeneration, id) == t.loadGeneration
    then c.(runtime := c.runtime[id := reply.value])
    else c
  }

  function OpenQueue(c: Client, id: ProjectId): Queue
    requires id in c.projects
  {
    if id in c.queues then c.queues[id] else Queue(0, 0, c.projects[id], Lookup(c.runtime, id), [])
  }

  function Optimistic(id: ProjectId, previous: Option<Runtime>, model: Option<string>,
                      effort: Option<string>): Runtime {
    if previous.Some? then previous.value.(model := model, storedEffort := effort)
    else Runtime(id, model, effort, effort, effort,
                 if effort.Some? && effort.value != "" then FromProject else FromNothing, Valid, None)
  }

  function NewWrite(c: Client, id: ProjectId, model: Option<string>, effort: Option<string>): Write
    requires id in c.projects
  {
    Write(OpenQueue(c, id).latestIntent + 1, Project(model, effort))
  }

  /** A call on a known project; the write goes out at once when it is alone in
      its queue (`StartsNow`), and is chained otherwise. */
  function BeginWrite(c: Client, id: ProjectId, model: Option<string>, effort: Option<string>): Client
    requires id in c.projects
  {
    var q := OpenQueue(c, id);
    var w := NewWrite(c, id, model, effort);
    var g := Generation(c.mutationGeneration, id) + 1;
    c.(queues := c.queues[id := q.(pending := q.pending + 1, latestIntent := w.intent,
                                   tail := if q.pending == 0 then q.tail else q.tail + [w])],
       mutationGeneration := c.mutationGeneration[id := g],
       activeMutation := c.activeMutation[id := g],
       projects := c.projects[id := Project(model, effort)],
       runtime := c.runtime[id := Optimistic(id, Lookup(c.runtime, id), model, effort)])
  }

  predicate StartsNow(c: Client, id: ProjectId)
    requires id in c.projects
  {
    OpenQueue(c, id).pending == 0
  }

  /** The next write of the chain goes out. */
  function StartNext(c: Client, id: ProjectId): Client
    requires id in c.queues && c.queues[id].tail != []
  {
    c.(queues := c.queues[id := c.queues[id].(tail := c.queues[id].tail[1..])])
  }

  function Confirm(q: Queue, reply: Option<Runtime>): Queue
    requires q.pending > 0
  {
    var p := q.(pending := q.pending - 1);
    if reply.None? then p
    else p.(confirmedRuntime := reply, confirmed := Project(reply.value.model, reply.value.storedEffort))
  }

  /** A write's reply: `reply` is None when the request failed or threw. */
  function FinishWrite(c: Client, id: ProjectId, intent: nat, reply: Option<Runtime>): Client
    requires id in c.queues && c.queues[id].pending > 0
  {
    var q := Confirm(c.queues[id], reply);
    var d := if intent != q.latestIntent then c
             else c.(activeMutation := c.activeMutation - {id},
                     runtime := if q.confirmedRuntime.Some? then c.runtime[id := q.confirmedRuntime.value]
                                else c.runtime - {id},
                     projects := if id in c.projects then c.projects[id := q.confirmed] else c.projects);
    d.(queues := if q.pending == 0 then d.queues - {id} else d.queues[id := q])
  }

  function BeginConfiguration(c: Client): Client {
    c.(configurationGeneration := c.configurationGeneration + 1)
  }

  function Snapshots(c: Client): map<ProjectId, Snapshot> {
    map id | id in c.runtime :: Snapshot(Generation(c.mutationGeneration, id), id in c.activeMutation)
  }

  /** The per-project guard of a configuration refresh. */
  predicate Accepts(c: Client, snapshots: map<ProjectId, Snapshot>, id: ProjectId) {
    && id in snapshots && !snapshots[id].active && id !in c.activeMutation
    && Generation(c.mutationGeneration, id) == snapshots[id].generation
  }

  function FinishConfiguration(c: Client, generation: nat, snapshots: map<ProjectId, Snapshot>,
                               replies: map<ProjectId, Runtime>): Client
  {
    if generation != c.configurationGeneration then c
    else c.(runtime := c.runtime + Accepted(c, snapshots, replies))
  }

  /** The replies that pass their project's guard. */
  function Accepted(c: Client, snapshots: map<ProjectId, Snapshot>, replies: map<ProjectId, Runtime>)
    : map<ProjectId, Runtime>
  {
    map id | id in replies && Accepts(c, snapshots, id) :: replies[id]
  }

  lemma AcceptedOneMore(c: Client, snapshots: map<ProjectId, Snapshot>, replies: map<ProjectId, Runtime>,
                        id: ProjectId, reply: Runtime)
    requires id !in replies
    ensures var more := Accepted(c, snapshots, replies[id := reply]);
            more == if Accepts(c, snapshots, id) then Accepted(c, snapshots, replies)[id := reply]
                    else Accepted(c, snapshots, replies)
  {
  }

  class Store {
    var projects: map<ProjectId, Project>
    var runtime: map<ProjectId, Runtime>
    var mutationGeneration: map<ProjectId, nat>
    var activeMutation: map<ProjectId, nat>
    var loadGeneration: map<ProjectId, nat>
    var queues: map<ProjectId, Queue>
    var configurationGeneration: nat

    ghost function View(): Client
      reads this
    {
      Client(projects, runtime, mutationGeneration, activeMutation, loadGeneration, queues, configurationGeneration)
    }

    method LoadProjectRuntime(id: ProjectId) returns (t: Ticket)
      modifies this`loadGeneration
      ensures (View(), t) == BeginLoad(old(View()), id)
    {
      var g := (if id in loadGeneration then loadGeneration[id] else 0) + 1;
      loadGeneration := loadGeneration[id := g];
      t := Ticket(if id in mutationGeneration then mutationGeneration[id] else 0, id in activeMutation, g);
    }

    method ProjectRuntimeReplied(id: ProjectId, t: Ticket, reply: Option<Runtime>)
      modifies this`runtime
      ensures View() == FinishLoad(old(View()), id, t, reply)
      ensures var latest := t.loadGeneration == Generation(loadGeneration, id);
              var undisturbed := t.mutationGeneration == Generation(mutationGeneration, id) && id !in activeMutation;
              runtime == if reply.Some? && latest && undisturbed && !t.startedDuringMutation
                         then old(runtime)[id := reply.value] else old(runtime)
    {
      if reply.Some? && !t.startedDuringMutation && id !in activeMutation {
        if Generation(mutationGeneration, id) == t.mutationGeneration
           && Generation(loadGeneration, id) == t.loadGeneration {
          runtime := runtime[id := reply.value];
        }
      }
    }

    /** `accepted` is false exactly for an unknown project, which changes nothing. */
    method SetProjectRuntime(id: ProjectId, model: Option<string>, effort: Option<string>)
      returns (accepted: bool, startsNow: bool, intent: nat)
      modifies this
      ensures accepted == (id in old(projects))
      ensures !accepted ==> View() == old(View())
      ensures accepted ==>
                && View() == BeginWrite(old(View()), id, model, effort)
                && startsNow == StartsNow(old(View()), id)
                && intent == NewWrite(old(View()), id, model, effort).intent
    {
      accepted, startsNow, intent := false, false, 0;
      if id !in projects { return; }
      accepted := true;
      var previous := Lookup(runtime, id);
      var queue := if id in queues then queues[id] else Queue(0, 0, projects[id], previous, []);
      intent := queue.latestIntent + 1;
      queue := queue.(latestIntent := intent, pending := queue.pending + 1);
      var g := Generation(mutationGeneration, id) + 1;
      mutationGeneration := mutationGeneration[id := g];
      activeMutation := activeMutation[id := g];
      projects := projects[id := Project(model, effort)];
      runtime := runtime[id := Optimistic(id, previous, model, effort)];
      startsNow := queue.pending == 1;
      if !startsNow {
        queue := queue.(tail := queue.tail + [Write(intent, Project(model, effort))]);
      }
      queues := queues[id := queue];
    }

    method StartChained(id: ProjectId) returns (w: Write)
      requires id in queues && queues[id].tail != []
      modifies this`queues
      ensures View() == StartNext(old(View()), id) && w == old(queues)[id].tail[0]
    {
      w := queues[id].tail[0];
      queues := queues[id := queues[id].(tail := queues[id].tail[1..])];
    }

    method WriteReplied(id: ProjectId, intent: nat, reply: Option<Runtime>)
      requires id in queues && queues[id].pending > 0
      modifies this
      ensures View() == FinishWrite(old(View()), id, intent, reply)
    {
      var queue := queues[id];
      if reply.Some? {
        queue := queue.(confirmedRuntime := reply, confirmed := Project(reply.value.model, reply.value.storedEffort));
      }
      queue := queue.(pending := queue.pending - 1);
      if intent == queue.latestIntent {
        activeMutation := activeMutation - {id};
        if queue.confirmedRuntime.Some? {
          runtime := runtime[id := queue.confirmedRuntime.value];
        } else {
          runtime := runtime - {id};
        }
        if id in projects { projects := projects[id := queue.confirmed]; }
      }
      queues := if queue.pending == 0 then queues - {id} else queues[id := queue];
    }

    method RefreshModelConfiguration() returns (generation: nat)
      modifies this`configurationGeneration
      ensures View() == BeginConfiguration(old(View())) && generation == configurationGeneration
    {
      configurationGeneration := configurationGeneration + 1;
      generation := configurationGeneration;
    }

    method TakeSnapshots() returns (snapshots: map<ProjectId, Snapshot>)
      ensures snapshots == Snapshots(View())
    {
      snapshots := map id | id in runtime :: Snapshot(Generation(mutationGeneration, id), id in activeMutation);
    }

    /** `entries` are the per-project replies in the order they were asked for;
        a failed one carries None. */
    method ConfigurationReplied(generation: nat, snapshots: map<ProjectId, Snapshot>,
                                entries: seq<(ProjectId, Option<Runtime>)>)
      requires forall i, j :: 0 <= i < j < |entries| ==> entries[i].0 != entries[j].0
      modifies this`runtime
      ensures View() == FinishConfiguration(old(View()), generation, snapshots, Answered(entries))
    {
      if generation != configurationGeneration { return; }
      var next := runtime;
      ghost var c := View();
      for i := 0 to |entries|
        invariant next == c.runtime + Accepted(c, snapshots, Answered(entries[..i]))
      {
        assert entries[..i + 1][..i] == entries[..i];
        var (id, result) := entries[i];
        Unasked(entries[..i], id);
        if result.Some? {
          AcceptedOneMore(c, snapshots, Answered(entries[..i]), id, result.value);
          if id in snapshots && !snapshots[id].active && id !in activeMutation {
            if Generation(mutationGeneration, id) == snapshots[id].generation {
              next := next[id := result.value];
            }
          }
        }
      }
      assert entries[..|entries|] == entries;
      runtime := next;
    }
  }

  /** The successful replies, by project. */
  function Answered(entries: seq<(ProjectId, Option<Runtime>)>): map<ProjectId, Runtime> {
    if entries == [] then map[]
    else
      var (id, result) := entries[|entries| - 1];
      var before := Answered(entries[..|entries| - 1]);
      if result.Some? then before[id := result.value] else before
  }

  /** The replies are those that succeeded, each its project's. */
  lemma {:induction false} AnsweredExactly(entries: seq<(ProjectId, Option<Runtime>)>, i: nat)
    requires i < |entries| && forall j :: 0 <= j < |entries| && j != i ==> entries[j].0 != entries[i].0
    ensures var (id, result) := entries[i];
            (id in Answered(entries) <==> result.Some?) && (result.Some? ==> Answered(entries)[id] == result.value)
  {
    var init := entries[..|entries| - 1];
    if i < |init| {
      AnsweredExactly(init, i);
    } else {
      Unasked(init, entries[i].0);
    }
  }

  /** A project not asked about has no reply. */
  lemma {:induction false} Unasked(entries: seq<(ProjectId, Option<Runtime>)>, id: ProjectId)
    requires forall i :: 0 <= i < |entries| ==> entries[i].0 != id
    ensures id !in Answered(entries)
  {
    if entries != [] { Unasked(entries[..|entries| - 1], id); }
  }
}
