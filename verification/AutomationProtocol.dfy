/** Automation in every interleaving: any number of dispatches, webhooks and
    test deliveries under way, each stopping at every await, sessions ending
    and being announced in between. */
module AutomationProtocol {
  import opened Options
  import opened Automation

  /** The call that created a row. */
  datatype Root = Root(task: nat, kind: Kind)

  /** What a call decided for its row. */
  datatype Course = Settles(status: Status) | Runs(session: nat)

  /** The engine with its history: each row's root and course, the session
      started for it, the rows whose session's origin could not be written, those
      whose deciding write failed, how each session's end was first written, and
      how many hooks each call was given. `worker` is the call the lifecycle
      worker began last, `observed` the session whose event each of its calls
      answers. */
  datatype World = World(s: State, roots: map<nat, Root>, courses: map<nat, Course>, launches: map<nat, nat>,
                         orphans: set<nat>, lost: set<nat>, ends: map<nat, bool>, offers: map<nat, nat>,
                         worker: Option<nat>, observed: map<nat, nat>)

  /** A lifecycle event comes from a session, an external one from a gateway or
      the scheduler; each meets the hooks enabled for it. */
  datatype Event =
    | NewSession
    | Lifecycle(session: nat, hooks: seq<nat>)
    | External(hooks: seq<nat>)
    | Webhook(hook: nat)
    | Test(hook: nat)
    | CreateReply(t: nat, ok: bool)
    | Act(t: nat, limiter: Verdict, action: Action)
    | SettleReply(t: nat, ok: bool)
    | OriginReply(t: nat, ok: bool)
    | LinkReply(t: nat, ok: bool)
    | Announce(t: nat)
    | SessionEnds(session: nat, success: bool, ok: bool)
    | AnnounceEnd(run: nat)

  const INIT := World(EMPTY, map[], map[], map[], {}, {}, map[], map[], None, map[])

  /** Sessions with an origin, and unknown ones, trigger nothing. */
  predicate Triggers(s: State, session: nat) {
    session in s.sessions && s.sessions[session].None?
  }

  /** One worker takes the lifecycle events and awaits the call each begins. */
  predicate Idle(w: World) {
    w.worker.Some? ==> w.worker.value !in w.s.tasks
  }

  predicate At(w: World, t: nat, phase: Phase) {
    Stands(w.s, t) && w.s.tasks[t].phase == phase
  }

  function Begun(w: World, kind: Kind, hooks: seq<nat>): World {
    w.(s := Begin(w.s, kind, 0, hooks),
       offers := if hooks == [] then w.offers else w.offers[w.s.nextTask := |hooks|])
  }

  /** The worker looks at an event of a session that is not muted. */
  function Observed(w: World, session: nat, hooks: seq<nat>): World {
    if hooks == [] then w
    else Begun(w, ForEvent, hooks).(worker := Some(w.s.nextTask), observed := w.observed[w.s.nextTask := session])
  }

  function CreateReplied(w: World, t: nat, ok: bool): World
    requires Stands(w.s, t)
  {
    w.(s := RowCreated(w.s, t, ok), roots := if ok then w.roots[w.s.nextRun := Root(t, w.s.tasks[t].kind)] else w.roots)
  }

  function Decided(w: World, t: nat, limiter: Verdict, action: Action): World
    requires Stands(w.s, t) && w.s.tasks[t].phase.Created?
  {
    var task := w.s.tasks[t];
    w.(s := Acted(w.s, t, limiter, action),
       courses := match Decide(task.kind, task.depth, limiter, action)
                  case Settle(status) => w.courses[task.phase.run := Settles(status)]
                  case _ => w.courses,
       launches := if Decide(task.kind, task.depth, limiter, action).Launch?
                   then w.launches[task.phase.run := w.s.nextSession] else w.launches)
  }

  /** With its origin written the session is the row's; without, a dispatched row
      is to fail and a webhook's is left alone. */
  function OriginReplied(w: World, t: nat, ok: bool): World
    requires Stands(w.s, t) && w.s.tasks[t].phase.Originating?
  {
    var task := w.s.tasks[t];
    w.(s := OriginWritten(w.s, t, ok),
       courses := if ok then w.courses[task.phase.run := Runs(task.phase.session)]
                  else if task.kind.ForWebhook? then w.courses
                  else w.courses[task.phase.run := Settles(Failed)],
       orphans := if ok then w.orphans else w.orphans + {task.phase.run})
  }

  function Lost(w: World, run: nat, ok: bool): set<nat> {
    if ok then w.lost else w.lost + {run}
  }

  function SettleReplied(w: World, t: nat, ok: bool): World
    requires Stands(w.s, t) && w.s.tasks[t].phase.Settling?
  {
    w.(s := SettleWritten(w.s, t, ok), lost := Lost(w, w.s.tasks[t].phase.run, ok))
  }

  function LinkReplied(w: World, t: nat, ok: bool): World
    requires Stands(w.s, t) && w.s.tasks[t].phase.Linking?
  {
    w.(s := LinkWritten(w.s, t, ok), lost := Lost(w, w.s.tasks[t].phase.run, ok))
  }

  function Said(w: World, t: nat): World
    requires Stands(w.s, t) && w.s.tasks[t].phase.Announcing?
  {
    w.(s := Announced(w.s, t))
  }

  function Step(w: World, e: Event): World {
    match e
    case NewSession => w.(s := SessionStarted(w.s))
    case Lifecycle(session, hooks) => if Idle(w) && Triggers(w.s, session) then Observed(w, session, hooks) else w
    case External(hooks) => Begun(w, ForEvent, hooks)
    case Webhook(hook) => Begun(w, ForWebhook, [hook])
    case Test(hook) => Begun(w, ForTest, [hook])
    case CreateReply(t, ok) => if At(w, t, Ready) then CreateReplied(w, t, ok) else w
    case Act(t, limiter, action) =>
      if Stands(w.s, t) && w.s.tasks[t].phase.Created? then Decided(w, t, limiter, action) else w
    case SettleReply(t, ok) =>
      if Stands(w.s, t) && w.s.tasks[t].phase.Settling? then SettleReplied(w, t, ok) else w
    case OriginReply(t, ok) =>
      if Stands(w.s, t) && w.s.tasks[t].phase.Originating? then OriginReplied(w, t, ok) else w
    case LinkReply(t, ok) =>
      if Stands(w.s, t) && w.s.tasks[t].phase.Linking? then LinkReplied(w, t, ok) else w
    case Announce(t) => if Stands(w.s, t) && w.s.tasks[t].phase.Announcing? then Said(w, t) else w
    case SessionEnds(session, success, ok) =>
      w.(s := SessionEnded(w.s, session, success, ok),
         ends := if ok && EndsRun(w.s, session) then w.ends[session := success] else w.ends)
    case AnnounceEnd(run) => w.(s := EndAnnounced(w.s, run))
  }

  function Run(w: World, es: seq<Event>): World {
    if es == [] then w else Step(Run(w, es[..|es| - 1]), es[|es| - 1])
  }

  // --- one row at a time ---

  function RunOf(phase: Phase): Option<nat> {
    match phase
    case Ready => None
    case Created(run) => Some(run)
    case Settling(run, _) => Some(run)
    case Originating(run, _) => Some(run)
    case Linking(run, _) => Some(run)
    case Announcing(run, _) => Some(run)
  }

  /** Where its call stands with a row; Ready once it has left it. */
  function PhaseOf(w: World, r: nat): Phase {
    if r in w.roots && w.roots[r].task in w.s.tasks && RunOf(w.s.tasks[w.roots[r].task].phase) == Some(r)
    then w.s.tasks[w.roots[r].task].phase else Ready
  }

  /** The last status announced for a run. */
  function Told(emitted: seq<(nat, Status)>, r: nat): Option<Status> {
    if emitted == [] then None
    else if emitted[|emitted| - 1].0 == r then Some(emitted[|emitted| - 1].1)
    else Told(emitted[..|emitted| - 1], r)
  }

  function Get<T>(m: map<nat, T>, k: nat): Option<T> {
    if k in m then Some(m[k]) else None
  }

  function EndOf(course: Option<Course>, ends: map<nat, bool>): Option<bool> {
    if course.Some? && course.value.Runs? then Get(ends, course.value.session) else None
  }

  /** Everything the protocol keeps about one row. */
  datatype Slice = Slice(row: RunRow, kind: Kind, phase: Phase, course: Option<Course>, launch: Option<nat>,
                         orphan: bool, lost: bool, end: Option<bool>, due: Option<Status>, told: Option<Status>)

  function SliceOf(w: World, r: nat): Slice
    requires r in w.s.runs && r in w.roots
  {
    var course := Get(w.courses, r);
    Slice(w.s.runs[r], w.roots[r].kind, PhaseOf(w, r), course, Get(w.launches, r), r in w.orphans, r in w.lost,
          EndOf(course, w.ends), Get(w.s.due, r), Told(w.s.emitted, r))
  }

  /** The row as its history so far says it must be. */
  function Expected(hook: nat, x: Slice): RunRow {
    match x.course
    case None => RunRow(hook, Queued, None)
    case Some(Settles(status)) => RunRow(hook, if x.phase.Settling? || x.lost then Queued else status, None)
    case Some(Runs(session)) =>
      if x.end.Some? then RunRow(hook, EndStatus(x.end.value), Some(session))
      else if x.phase.Linking? || x.lost then RunRow(hook, Queued, None)
      else RunRow(hook, Running, Some(session))
  }

  /** Which phases a course passes through. */
  ghost predicate OnCourse(x: Slice) {
    match x.course
    case None =>
      || (x.phase.Created? && x.launch == None)
      || (x.phase.Originating? && x.launch == Some(x.phase.session) && !x.kind.ForTest?)
      || (x.phase.Ready? && x.kind.ForWebhook?)
    case Some(Settles(status)) =>
      && !Open(status) && !x.kind.ForWebhook? && (x.kind.ForTest? ==> !status.Skipped?)
      && (x.launch.Some? ==> status.Failed? && x.kind.ForEvent?)
      && (x.phase.Ready? || (x.phase.Settling? && x.phase.status == status)
          || (x.phase.Announcing? && x.phase.status == status && !x.kind.ForTest?))
    case Some(Runs(session)) =>
      && !x.kind.ForTest? && x.launch == Some(session)
      && (x.phase.Ready? || (x.phase.Linking? && x.phase.session == session)
          || (x.phase.Announcing? && x.phase.status.Running?))
  }

  /** What has been announced, given what has been written. */
  ghost predicate ToldSound(x: Slice) {
    if x.course == None then x.told == None && x.due == None
    else if x.course.value.Settles? then
      && x.due == None
      && x.told == if x.phase.Ready? && !x.lost && !x.kind.ForTest? then Some(x.course.value.status) else None
    else if x.end.None? then
      x.due == None && x.told == if x.phase.Ready? && !x.lost then Some(Running) else None
    else
      var closed := EndStatus(x.end.value);
      if x.due.Some? then
        x.due == Some(closed) && (x.told == None || (x.told == Some(Running) && x.phase.Ready?))
      else x.told == Some(closed) || (x.told == Some(Running) && x.phase.Ready?)
  }

  ghost predicate Sound(x: Slice) {
    && x.row == Expected(x.row.hook, x)
    && OnCourse(x) && ToldSound(x)
    && (x.lost ==> x.phase.Ready? && x.course.Some?)
    && (x.orphan <==> x.launch.Some? && !x.phase.Originating? && !(x.course.Some? && x.course.value.Runs?))
  }

  ghost predicate TaskSound(w: World, t: nat) {
    t in w.s.tasks ==>
      var task := w.s.tasks[t];
      && t < w.s.nextTask && task.depth == 0 && task.hooks != [] && t in w.offers
      && (RunOf(task.phase).Some? ==>
            var r := RunOf(task.phase).value;
            r in w.s.runs && r in w.roots && w.roots[r] == Root(t, task.kind) && w.s.runs[r].hook == task.hooks[0])
  }

  /** A session with an origin is one step from a root event, and is the one
      session of its run. */
  ghost predicate SessionSound(w: World, session: nat) {
    session in w.s.sessions && w.s.sessions[session].Some? ==>
      var o := w.s.sessions[session].value;
      && o.depth == 1 && o.run in w.s.runs && o.hook == w.s.runs[o.run].hook
      && o.run in w.courses && w.courses[o.run] == Runs(session)
  }

  ghost predicate CourseSound(w: World, r: nat) {
    r in w.courses && w.courses[r].Runs? ==>
      var session := w.courses[r].session;
      session in w.s.sessions && w.s.sessions[session].Some? && w.s.sessions[session].value.run == r
  }

  /** A session started for a row has the origin of that row, or none. */
  ghost predicate LaunchSound(w: World, r: nat) {
    r in w.launches ==>
      var session := w.launches[r];
      && r in w.s.runs && session in w.s.sessions
      && (w.s.sessions[session].Some? ==> w.s.sessions[session].value.run == r)
  }

  ghost predicate OneLaunchEach(launches: map<nat, nat>) {
    forall r, q :: r in launches && q in launches && launches[r] == launches[q] ==> r == q
  }

  ghost predicate Ids(w: World) {
    && w.roots.Keys == w.s.runs.Keys
    && (forall r :: r in w.s.runs ==> r < w.s.nextRun)
    && (forall r :: r in w.courses ==> r in w.s.runs)
    && (forall r :: r in w.lost ==> r in w.s.runs)
    && (forall r :: r in w.orphans ==> r in w.s.runs)
    && (forall r :: r in w.s.due ==> r in w.s.runs)
    && (forall i :: 0 <= i < |w.s.emitted| ==> w.s.emitted[i].0 in w.s.runs)
    && (forall x :: x in w.s.sessions ==> x < w.s.nextSession)
    && (forall x :: x in w.ends ==> x in w.s.sessions && w.s.sessions[x].Some?)
    && OneLaunchEach(w.launches)
    && (forall t :: t in w.offers ==> t < w.s.nextTask)
    && (forall r :: r in w.roots ==> w.roots[r].task in w.offers)
  }

  ghost predicate RowSound(w: World, r: nat) {
    r in w.s.runs && r in w.roots ==> Sound(SliceOf(w, r))
  }

  ghost predicate Inv(w: World) {
    && Ids(w)
    && (forall t :: TaskSound(w, t)) && (forall x :: SessionSound(w, x)) && (forall r :: CourseSound(w, r))
    && (forall r :: LaunchSound(w, r)) && (forall r :: RowSound(w, r))
  }
}
