/** The agent store: what each stretch of its code between two awaits does to
    its fields. The class is the store; the functions are its specification,
    which the protocol module reasons about. */
module AgentStore {
  import opened Options
  import opened AgentRoster

  datatype Mutation =
    | Create(input: Editable)
    | Update(agentId: string, input: Editable)
    | Duplicate(agentId: string)
    | Remove(agentId: string)
    | SetDefault(agentId: string)
    | SetSubagentModel(model: string)

  /** A mutation's reply: the one row it touched, or the whole registry. */
  datatype Reply = Row(row: Summary) | Whole(registry: Registry)

  /** What a mutation remembers for its rollback. */
  datatype Undo = Undo(previous: Option<Registry>, revision: nat)

  datatype Client = Client(registry: Option<Registry>, loaded: bool,
                           loadGeneration: nat, registryRevision: nat,
                           pendingReads: nat, pendingMutations: nat, queue: seq<Mutation>)

  const FRESH_CLIENT := Client(None, false, 0, 0, 0, 0, [])

  predicate Fits(m: Mutation, reply: Reply) {
    match m
    case Create(_) => reply.Row?
    case Duplicate(_) => reply.Row?
    case Update(id, _) => reply.Row? && reply.row.id == id
    case _ => reply.Whole?
  }

  /** The optimistic paint. `focused` is the summary the detail view holds:
      `update` paints from it when it shows the edited agent. */
  function Paint(m: Mutation, focused: Option<Summary>, r: Registry): Registry {
    match m
    case Update(id, input) =>
      if focused.Some? && focused.value.id == id
      then PatchRoster(r, id, focused.value.(edit := input))
      else PatchRosterFields(r, id, input)
    case SetDefault(id) => MarkDefault(r, id)
    case SetSubagentModel(model) => r.(subagentModel := model)
    case _ => r
  }

  function PaintOption(m: Mutation, focused: Option<Summary>, r: Option<Registry>): Option<Registry> {
    if r.None? then None else Some(Paint(m, focused, r.value))
  }

  function BeginLoad(c: Client): Client {
    c.(loadGeneration := c.loadGeneration + 1, pendingReads := c.pendingReads + 1)
  }

  /** A load's reply: `data` is None when the registry request failed. */
  function FinishLoad(c: Client, generation: nat, data: Option<Registry>): Client
    requires c.pendingReads > 0
  {
    var d := c.(pendingReads := c.pendingReads - 1);
    if c.loadGeneration != generation || data.None? then d
    else d.(registry := data, loaded := true, registryRevision := c.registryRevision + 1)
  }

  function EnqueueMutation(c: Client, m: Mutation): Client {
    c.(pendingMutations := c.pendingMutations + 1, queue := c.queue + [m])
  }

  function BeginMutation(c: Client, focused: Option<Summary>): Client
    requires c.queue != []
  {
    c.(queue := c.queue[1..], loadGeneration := c.loadGeneration + 1,
       registry := PaintOption(c.queue[0], focused, c.registry))
  }

  function Settle(m: Mutation, reply: Reply, r: Option<Registry>): Option<Registry>
    requires Fits(m, reply)
  {
    match m
    case Create(_) => if r.None? then None else Some(UpsertRoster(r.value, reply.row))
    case Duplicate(_) => if r.None? then None else Some(UpsertRoster(r.value, reply.row))
    case Update(id, _) => if r.None? then None else Some(PatchRoster(r.value, id, reply.row))
    case _ => Some(reply.registry)
  }

  function MutationSucceeded(c: Client, m: Mutation, reply: Reply): Client
    requires Fits(m, reply) && c.pendingMutations > 0
  {
    c.(pendingMutations := c.pendingMutations - 1, loadGeneration := c.loadGeneration + 1,
       registry := Settle(m, reply, c.registry))
  }

  /** Only the painting mutations roll back, and only while no read has
      installed a registry since the paint. */
  predicate RollsBack(c: Client, m: Mutation, undo: Undo) {
    (m.Update? || m.SetDefault? || m.SetSubagentModel?) && c.registryRevision == undo.revision
  }

  function MutationFailed(c: Client, m: Mutation, undo: Undo): Client
    requires c.pendingMutations > 0
  {
    c.(pendingMutations := c.pendingMutations - 1,
       registry := if RollsBack(c, m, undo) then undo.previous else c.registry)
  }

  class Store {
    var registry: Option<Registry>
    var loaded: bool
    var loading: bool
    var saving: bool
    var loadGeneration: nat
    var registryRevision: nat
    var pendingReads: nat
    var pendingMutations: nat
    var mutationTail: seq<Mutation>  // operations chained on the tail and not yet started

    /** The two busy flags say exactly whether a read or a mutation is outstanding. */
    ghost predicate Valid()
      reads this
    {
      loading == (pendingReads > 0) && saving == (pendingMutations > 0)
    }

    ghost function View(): Client
      reads this
    {
      Client(registry, loaded, loadGeneration, registryRevision, pendingReads, pendingMutations, mutationTail)
    }

    constructor ()
      ensures Valid() && View() == FRESH_CLIENT
    {
      registry, loaded, loading, saving := None, false, false, false;
      loadGeneration, registryRevision, pendingReads, pendingMutations, mutationTail := 0, 0, 0, 0, [];
    }

    method FenceReads()
      modifies this`loadGeneration
      ensures loadGeneration == old(loadGeneration) + 1
    {
      loadGeneration := loadGeneration + 1;
    }

    method Load() returns (generation: nat)
      requires Valid()
      modifies this
      ensures Valid() && View() == BeginLoad(old(View())) && generation == loadGeneration
    {
      loadGeneration := loadGeneration + 1;
      generation := loadGeneration;
      pendingReads := pendingReads + 1;
      loading := true;
    }

    method LoadReplied(generation: nat, data: Option<Registry>)
      requires Valid() && pendingReads > 0
      modifies this
      ensures Valid() && View() == FinishLoad(old(View()), generation, data)
    {
      if loadGeneration == generation && data.Some? {
        registryRevision := registryRevision + 1;
        registry := data;
        loaded := true;
      }
      pendingReads := pendingReads - 1;
      loading := pendingReads > 0;
    }

    method Enqueue(m: Mutation)
      requires Valid()
      modifies this
      ensures Valid() && View() == EnqueueMutation(old(View()), m)
    {
      pendingMutations := pendingMutations + 1;
      saving := true;
      mutationTail := mutationTail + [m];
    }

    /** The head of the tail starts: fence, remember, paint. */
    method StartMutation(focused: Option<Summary>) returns (m: Mutation, undo: Undo)
      requires Valid() && mutationTail != []
      modifies this
      ensures Valid() && View() == BeginMutation(old(View()), focused)
      ensures loadGeneration == old(loadGeneration) + 1
      ensures m == old(mutationTail)[0] && undo == Undo(old(registry), registryRevision)
    {
      m := mutationTail[0];
      mutationTail := mutationTail[1..];
      FenceReads();
      undo := Undo(registry, registryRevision);
      if registry.Some? {
        match m {
          case Update(id, input) =>
            if focused.Some? && focused.value.id == id {
              registry := Some(PatchRoster(registry.value, id, focused.value.(edit := input)));
            } else {
              registry := Some(PatchRosterFields(registry.value, id, input));
            }
          case SetDefault(id) => registry := Some(MarkDefault(registry.value, id));
          case SetSubagentModel(model) => registry := Some(registry.value.(subagentModel := model));
          case _ =>
        }
      }
    }

    method Succeed(m: Mutation, reply: Reply)
      requires Valid() && Fits(m, reply) && pendingMutations > 0
      modifies this
      ensures Valid() && View() == MutationSucceeded(old(View()), m, reply)
    {
      FenceReads();
      match m {
        case Update(id, _) =>
          if registry.Some? { registry := Some(PatchRoster(registry.value, id, reply.row)); }
        case Create(_) =>
          if registry.Some? { registry := Some(UpsertRoster(registry.value, reply.row)); }
        case Duplicate(_) =>
          if registry.Some? { registry := Some(UpsertRoster(registry.value, reply.row)); }
        case _ => registry := Some(reply.registry);
      }
      pendingMutations := pendingMutations - 1;
      saving := pendingMutations > 0;
    }

    method RollbackResources(undo: Undo)
      modifies this`registry
      ensures registry == if registryRevision == undo.revision then undo.previous else old(registry)
    {
      if registryRevision == undo.revision { registry := undo.previous; }
    }

    method Fail(m: Mutation, undo: Undo)
      requires Valid() && pendingMutations > 0
      modifies this
      ensures Valid() && View() == MutationFailed(old(View()), m, undo)
    {
      if m.Update? || m.SetDefault? || m.SetSubagentModel? { RollbackResources(undo); }
      pendingMutations := pendingMutations - 1;
      saving := pendingMutations > 0;
    }
  }
}
