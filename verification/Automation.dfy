/** Automation hooks: what each stretch of the control plane's code between two
    awaits does to run rows, sessions and announcements. What the database, the
    limiter and the outside world answer is part of the input. */
module Automation {
  import opened Options

  datatype Status = Queued | Running | Succeeded | Failed | Skipped

  datatype Origin = Origin(hook: nat, run: nat, depth: nat)

  datatype RunRow = RunRow(hook: nat, status: Status, session: Option<nat>)

  datatype Verdict = Accepted | HookLimited | EngineLimited | DepthLimited

  datatype Action =
    | WebhookOutbound(delivered: bool)
    | AgentRun(local: bool, projectExists: bool, serializes: bool, starts: bool)

  /** What a call does next with the row at hand: create it, act on it, write
      the origin of the session started for it, write that session into it, write
      how it ended, or announce what was written. */
  datatype Phase =
    | Ready
    | Created(run: nat)
    | Settling(run: nat, status: Status)
    | Originating(run: nat, session: nat)
    | Linking(run: nat, session: nat)
    | Announcing(run: nat, status: Status)

  datatype Kind = ForEvent | ForWebhook | ForTest

  /** A call under way, with the hooks it has not finished, the one at hand first. */
  datatype Task = Task(kind: Kind, depth: nat, hooks: seq<nat>, phase: Phase)

  /** `sessions` gives each session the origin written for it, if any;
      `emitted` the run changes announced, in order; `due` the ends of sessions
      written and not yet announced, by run. */
  datatype State = State(runs: map<nat, RunRow>, nextRun: nat, sessions: map<nat, Option<Origin>>, nextSession: nat,
                         emitted: seq<(nat, Status)>, tasks: map<nat, Task>, nextTask: nat, due: map<nat, Status>)

  const EMPTY := State(map[], 0, map[], 0, [], map[], 0, map[])

  const MAX_DEPTH := 3

  function RateVerdict(limiter: Verdict, depth: nat): Verdict {
    if depth >= MAX_DEPTH then DepthLimited else limiter
  }

  predicate Open(s: Status) {
    s.Queued? || s.Running?
  }

  predicate Stands(s: State, t: nat) {
    t in s.tasks && s.tasks[t].hooks != []
  }

  function Begin(s: State, kind: Kind, depth: nat, hooks: seq<nat>): State {
    if hooks == [] then s
    else s.(tasks := s.tasks[s.nextTask := Task(kind, depth, hooks, Ready)], nextTask := s.nextTask + 1)
  }

  function WithPhase(s: State, t: nat, phase: Phase): State
    requires Stands(s, t)
  {
    s.(tasks := s.tasks[t := s.tasks[t].(phase := phase)])
  }

  /** On to the next hook; a call that has none left is over. */
  function NextHook(s: State, t: nat): State
    requires Stands(s, t)
  {
    var task := s.tasks[t];
    s.(tasks := if |task.hooks| == 1 then s.tasks - {t}
                else s.tasks[t := task.(hooks := task.hooks[1..], phase := Ready)])
  }

  function RowCreated(s: State, t: nat, ok: bool): State
    requires Stands(s, t)
  {
    if !ok then NextHook(s, t)
    else
      WithPhase(s.(runs := s.runs[s.nextRun := RunRow(s.tasks[t].hooks[0], Queued, None)], nextRun := s.nextRun + 1),
                t, Created(s.nextRun))
  }

  datatype Decision = Settle(status: Status) | Launch | GiveUp

  /** What a call decides once it has its row. Only the event path asks the
      limiter here, and only it settles a row whose session did not start. */
  function Decide(kind: Kind, depth: nat, limiter: Verdict, action: Action): Decision {
    match kind
    case ForEvent =>
      if !RateVerdict(limiter, depth).Accepted? then Settle(Skipped)
      else if action.WebhookOutbound? then Settle(if action.delivered then Succeeded else Failed)
      else if action.local && action.projectExists && action.serializes && action.starts then Launch
      else Settle(Failed)
    case ForWebhook => if action.AgentRun? && action.serializes && action.starts then Launch else GiveUp
    case ForTest => Settle(if action.WebhookOutbound? && action.delivered then Succeeded else Failed)
  }

  function Acted(s: State, t: nat, limiter: Verdict, action: Action): State
    requires Stands(s, t) && s.tasks[t].phase.Created?
  {
    var task := s.tasks[t];
    var run := task.phase.run;
    match Decide(task.kind, task.depth, limiter, action)
    case Settle(status) => WithPhase(s, t, Settling(run, status))
    case GiveUp => NextHook(s, t)
    case Launch =>
      WithPhase(s.(sessions := s.sessions[s.nextSession := None], nextSession := s.nextSession + 1), t,
                Originating(run, s.nextSession))
  }

  /** The session is running by now. When its origin cannot be written, the start
      has failed for the call, and the session goes on without one. */
  function OriginWritten(s: State, t: nat, ok: bool): State
    requires Stands(s, t) && s.tasks[t].phase.Originating?
  {
    var task := s.tasks[t];
    var phase := task.phase;
    if ok then
      WithPhase(s.(sessions := s.sessions[phase.session := Some(Origin(task.hooks[0], phase.run, task.depth + 1))]), t,
                Linking(phase.run, phase.session))
    else if task.kind.ForWebhook? then NextHook(s, t)
    else WithPhase(s, t, Settling(phase.run, Failed))
  }

  /** Only an open row is finished, and only a change is announced; a test
      delivery announces nothing. */
  function SettleWritten(s: State, t: nat, ok: bool): State
    requires Stands(s, t) && s.tasks[t].phase.Settling?
  {
    var phase := s.tasks[t].phase;
    if ok && phase.run in s.runs && Open(s.runs[phase.run].status) then
      var u := s.(runs := s.runs[phase.run := s.runs[phase.run].(status := phase.status)]);
      if s.tasks[t].kind.ForTest? then NextHook(u, t) else WithPhase(u, t, Announcing(phase.run, phase.status))
    else NextHook(s, t)
  }

  /** Only a queued row is linked. The event path announces a change, the
      webhook path whatever the write found. */
  function LinkWritten(s: State, t: nat, ok: bool): State
    requires Stands(s, t) && s.tasks[t].phase.Linking?
  {
    var phase := s.tasks[t].phase;
    var changed := ok && phase.run in s.runs && s.runs[phase.run].status.Queued?;
    var u := if changed
             then s.(runs := s.runs[phase.run := s.runs[phase.run].(status := Running, session := Some(phase.session))])
             else s;
    if changed || (ok && s.tasks[t].kind.ForWebhook?) then WithPhase(u, t, Announcing(phase.run, Running))
    else NextHook(u, t)
  }

  function Announced(s: State, t: nat): State
    requires Stands(s, t) && s.tasks[t].phase.Announcing?
  {
    NextHook(s.(emitted := s.emitted + [(s.tasks[t].phase.run, s.tasks[t].phase.status)]), t)
  }

  predicate EndsRun(s: State, session: nat) {
    && session in s.sessions && s.sessions[session].Some?
    && s.sessions[session].value.run in s.runs && Open(s.runs[s.sessions[session].value.run].status)
  }

  function EndStatus(success: bool): Status {
    if success then Succeeded else Failed
  }

  /** The end of a session with an origin finishes its run, if still open. */
  function SessionEnded(s: State, session: nat, success: bool, ok: bool): State {
    if !ok || !EndsRun(s, session) then s
    else
      var run := s.sessions[session].value.run;
      s.(runs := s.runs[run := s.runs[run].(status := EndStatus(success), session := Some(session))],
         due := s.due[run := EndStatus(success)])
  }

  function EndAnnounced(s: State, run: nat): State {
    if run !in s.due then s else s.(emitted := s.emitted + [(run, s.due[run])], due := s.due - {run})
  }

  function SessionStarted(s: State): State {
    s.(sessions := s.sessions[s.nextSession := None], nextSession := s.nextSession + 1)
  }

  // --- inbound webhooks at the door ---

  /** `lookup` is None when the project lookup fails. */
  datatype Call = Call(hook: nat, enabled: bool, agentRun: bool, local: bool, lookup: Option<bool>, limiter: Verdict,
                       fits: bool)

  datatype Refusal = Invalid | RateLimited | Unavailable

  class ControlPlane {
    var runs: map<nat, RunRow>
    var nextRun: nat
    var sessions: map<nat, Option<Origin>>
    var nextSession: nat
    var emitted: seq<(nat, Status)>
    var tasks: map<nat, Task>  // the calls that have been made and have not returned
    var nextTask: nat
    var due: map<nat, Status>

    ghost function View(): State
      reads this
    {
      State(runs, nextRun, sessions, nextSession, emitted, tasks, nextTask, due)
    }

    constructor ()
      ensures View() == EMPTY
    {
      runs, nextRun, sessions, nextSession, emitted := map[], 0, map[], 0, [];
      tasks, nextTask, due := map[], 0, map[];
    }

    method DispatchAutomationEvent(depth: nat, hooks: seq<nat>)
      modifies this
      ensures View() == Begin(old(View()), ForEvent, depth, hooks)
    {
      if hooks == [] { return; }
      tasks := tasks[nextTask := Task(ForEvent, depth, hooks, Ready)];
      nextTask := nextTask + 1;
    }

    /** A refused call changes nothing; an admitted one goes on to create its row. */
    method DispatchInboundWebhook(c: Call) returns (refusal: Option<Refusal>)
      modifies this
      ensures refusal.None? <==>
                c.enabled && c.agentRun && c.local && c.lookup == Some(true) && c.limiter == Accepted && c.fits
      ensures refusal == Some(Unavailable) <==> c.enabled && c.agentRun && c.local && c.lookup == None
      ensures refusal == Some(RateLimited) <==>
                c.enabled && c.agentRun && c.local && c.lookup == Some(true) && c.limiter != Accepted
      ensures View() == if refusal.Some? then old(View()) else Begin(old(View()), ForWebhook, 0, [c.hook])
    {
      if !c.enabled || !c.agentRun || !c.local { return Some(Invalid); }
      if c.lookup.None? { return Some(Unavailable); }
      if !c.lookup.value { return Some(Invalid); }
      if RateVerdict(c.limiter, 0) != Accepted { return Some(RateLimited); }
      if !c.fits { return Some(Invalid); }
      tasks := tasks[nextTask := Task(ForWebhook, 0, [c.hook], Ready)];
      nextTask := nextTask + 1;
      return None;
    }

    /** Only an outbound hook can be tested. */
    method TestHook(hook: nat, outbound: bool) returns (accepted: bool)
      modifies this
      ensures accepted == outbound
      ensures View() == if accepted then Begin(old(View()), ForTest, 0, [hook]) else old(View())
    {
      accepted := outbound;
      if accepted {
        tasks := tasks[nextTask := Task(ForTest, 0, [hook], Ready)];
        nextTask := nextTask + 1;
      }
    }

    method Continue(t: nat)
      requires Stands(View(), t)
      modifies this`tasks
      ensures View() == NextHook(old(View()), t)
    {
      var hooks := tasks[t].hooks[1..];
      tasks := if hooks == [] then tasks - {t} else tasks[t := tasks[t].(hooks := hooks, phase := Ready)];
    }

    method CreateRunReplied(t: nat, ok: bool)
      requires Stands(View(), t)
      modifies this
      ensures View() == RowCreated(old(View()), t, ok)
    {
      if !ok {
        Continue(t);
        return;
      }
      runs := runs[nextRun := RunRow(tasks[t].hooks[0], Queued, None)];
      tasks := tasks[t := tasks[t].(phase := Created(nextRun))];
      nextRun := nextRun + 1;
    }

    /** The loop body from the created row to the next write. */
    method HandleHook(t: nat, limiter: Verdict, action: Action)
      requires Stands(View(), t) && tasks[t].phase.Created? && tasks[t].kind.ForEvent?
      modifies this
      ensures View() == Acted(old(View()), t, limiter, action)
      ensures limiter != Accepted || old(tasks)[t].depth >= 3 ==>
                View() == old(View()).(tasks := old(tasks)[t := old(tasks)[t].(phase := Settling(
                                       old(tasks)[t].phase.run, Skipped))])
    {
      var run := tasks[t].phase.run;
      if RateVerdict(limiter, tasks[t].depth) != Accepted {
        Settle(t, run, Skipped);
        return;
      }
      match action {
        case WebhookOutbound(delivered) => Settle(t, run, if delivered then Succeeded else Failed);
        case AgentRun(local, projectExists, serializes, starts) =>
          if !local { Settle(t, run, Failed); return; }
          if !projectExists { Settle(t, run, Failed); return; }
          if !serializes { Settle(t, run, Failed); return; }
          if !starts { Settle(t, run, Failed); return; }
          StartSession(t, run);
      }
    }

    /** The webhook path: a failure returns to the caller and leaves the row as it is. */
    method HandleWebhook(t: nat, serializes: bool, starts: bool)
      requires Stands(View(), t) && tasks[t].phase.Created? && tasks[t].kind.ForWebhook?
      modifies this
      ensures forall limiter :: View() == Acted(old(View()), t, limiter, AgentRun(true, true, serializes, starts))
    {
      if !serializes || !starts {
        Continue(t);
        return;
      }
      StartSession(t, tasks[t].phase.run);
    }

    method HandleTest(t: nat, delivered: bool)
      requires Stands(View(), t) && tasks[t].phase.Created? && tasks[t].kind.ForTest?
      modifies this
      ensures forall limiter :: View() == Acted(old(View()), t, limiter, WebhookOutbound(delivered))
    {
      Settle(t, tasks[t].phase.run, if delivered then Succeeded else Failed);
    }

    method Settle(t: nat, run: nat, status: Status)
      requires Stands(View(), t)
      modifies this`tasks
      ensures View() == WithPhase(old(View()), t, Settling(run, status))
    {
      tasks := tasks[t := tasks[t].(phase := Settling(run, status))];
    }

    /** The session is announced and running before its origin is written. */
    method StartSession(t: nat, run: nat)
      requires Stands(View(), t)
      modifies this
      ensures sessions == old(sessions)[old(nextSession) := None]
      ensures tasks == old(tasks)[t := old(tasks)[t].(phase := Originating(run, old(nextSession)))]
      ensures nextSession == old(nextSession) + 1
      ensures runs == old(runs) && nextRun == old(nextRun) && emitted == old(emitted)
      ensures nextTask == old(nextTask) && due == old(due)
    {
      sessions := sessions[nextSession := None];
      tasks := tasks[t := tasks[t].(phase := Originating(run, nextSession))];
      nextSession := nextSession + 1;
    }

    method InsertHookOriginReplied(t: nat, ok: bool)
      requires Stands(View(), t) && tasks[t].phase.Originating?
      modifies this
      ensures View() == OriginWritten(old(View()), t, ok)
    {
      var run, session := tasks[t].phase.run, tasks[t].phase.session;
      if ok {
        sessions := sessions[session := Some(Origin(tasks[t].hooks[0], run, tasks[t].depth + 1))];
        tasks := tasks[t := tasks[t].(phase := Linking(run, session))];
      } else if tasks[t].kind.ForWebhook? {
        Continue(t);
      } else {
        Settle(t, run, Failed);
      }
    }

    method FinishRunReplied(t: nat, ok: bool)
      requires Stands(View(), t) && tasks[t].phase.Settling?
      modifies this
      ensures View() == SettleWritten(old(View()), t, ok)
    {
      var run, status := tasks[t].phase.run, tasks[t].phase.status;
      var changed := ok && run in runs && Open(runs[run].status);
      if changed { runs := runs[run := runs[run].(status := status)]; }
      if changed && !tasks[t].kind.ForTest? {
        tasks := tasks[t := tasks[t].(phase := Announcing(run, status))];
      } else {
        Continue(t);
      }
    }

    method LinkRunSessionReplied(t: nat, ok: bool)
      requires Stands(View(), t) && tasks[t].phase.Linking?
      modifies this
      ensures View() == LinkWritten(old(View()), t, ok)
    {
      var run, session := tasks[t].phase.run, tasks[t].phase.session;
      var changed := ok && run in runs && runs[run].status.Queued?;
      if changed { runs := runs[run := runs[run].(status := Running, session := Some(session))]; }
      if changed || (ok && tasks[t].kind.ForWebhook?) {
        tasks := tasks[t := tasks[t].(phase := Announcing(run, Running))];
      } else {
        Continue(t);
      }
    }

    method EmitAutomationRunChanged(t: nat)
      requires Stands(View(), t) && tasks[t].phase.Announcing?
      modifies this
      ensures View() == Announced(old(View()), t)
    {
      emitted := emitted + [(tasks[t].phase.run, tasks[t].phase.status)];
      Continue(t);
    }

    method FinishAutomationSession(session: nat, success: bool, ok: bool)
      modifies this
      ensures View() == SessionEnded(old(View()), session, success, ok)
    {
      if session !in sessions || sessions[session].None? { return; }
      var run := sessions[session].value.run;
      if ok && run in runs && Open(runs[run].status) {
        runs := runs[run := runs[run].(status := EndStatus(success), session := Some(session))];
        due := due[run := EndStatus(success)];
      }
    }

    method EmitSessionEnd(run: nat)
      modifies this
      ensures View() == EndAnnounced(old(View()), run)
    {
      if run in due {
        emitted := emitted + [(run, due[run])];
        due := due - {run};
      }
    }
  }
}
