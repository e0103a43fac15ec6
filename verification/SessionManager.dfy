/** The session manager as the object it is, each method proved against the lifecycle steps. */
module SessionManager {
  import opened SessionLifecycle
  import opened Wrappers
  import opened CrashRecovery
  import opened TerminalSignal

  class AgentSessionManager {
    var sessions: Store
    var terminalEmittedSessions: set<Id>
    var stopRequestedSessions: set<Id>

    // What the manager acts on: the state file, the router's locks, the activity log.
    var stateFile: Store
    var routerLocks: set<Id>
    var log: seq<Event>

    ghost function View(): World
      reads this
    {
      World(true, sessions, terminalEmittedSessions, stopRequestedSessions, multiset{}, stateFile, map[], routerLocks, log)
    }

    /** A new process: memory is empty until the state file is restored. */
    constructor (saved: Store, locks: set<Id>, events: seq<Event>)
      ensures View() == World(true, map[], {}, {}, multiset{}, saved, map[], locks, events)
    {
      sessions, terminalEmittedSessions, stopRequestedSessions := map[], {}, {};
      stateFile, routerLocks, log := saved, locks, events;
    }

    method RestoreState(serialized: Store)
      modifies this`sessions, this`terminalEmittedSessions
      ensures sessions == serialized
      ensures terminalEmittedSessions == set id | id in serialized && serialized[id].terminal.Some?
    {
      sessions := map[];
      terminalEmittedSessions := {};
      var todo := serialized.Keys;
      while todo != {}
        invariant todo <= serialized.Keys
        invariant sessions == map id | id in serialized && id !in todo :: serialized[id]
        invariant terminalEmittedSessions
               == set id | id in serialized && id !in todo && serialized[id].terminal.Some?
      {
        var id :| id in todo;
        sessions := sessions[id := serialized[id]];
        if serialized[id].terminal.Some? {
          terminalEmittedSessions := terminalEmittedSessions + {id};
        }
        todo := todo - {id};
      }
    }

    method CreateSession(id: Id)
      modifies this
      ensures View() == Apply(old(View()), Create(id))
      ensures sessions == old(sessions)[id := Session(Active, None, false)] && routerLocks == old(routerLocks) + {id}
    {
      sessions := sessions[id := Session(Active, None, false)];
      routerLocks := routerLocks + {id};
    }

    method AddAgentRunner(id: Id)
      modifies this
      ensures View() == Apply(old(View()), Attach(id))
      ensures id !in old(sessions) ==> View() == old(View())
      ensures id in old(sessions) ==>
                var was := old(sessions)[id];
                var revived := (id in old(terminalEmittedSessions) || was.terminal.Some?) && was.status in {Complete, Error};
                && sessions == old(sessions)[id := Session(if revived then Active else was.status, None, true)]
                && terminalEmittedSessions == old(terminalEmittedSessions) - {id} && routerLocks == old(routerLocks) + {id}
                && log == old(log) + [Resumed(id)]
    {
      if id !in sessions {
        return;
      }
      var session := sessions[id];
      var emitted := id in terminalEmittedSessions;
      terminalEmittedSessions := terminalEmittedSessions - {id};
      if emitted || session.terminal.Some? {
        if TerminalStatus(session.status) {
          session := session.(status := Active);
        }
      }
      session := session.(terminal := None, runner := true);
      sessions := sessions[id := session];
      routerLocks := routerLocks + {id};
      log := log + [Resumed(id)];
    }

    method UpdateSessionStatus(id: Id, status: Status)
      modifies this`sessions
      ensures View() == Apply(old(View()), SetStatus(id, status))
      ensures sessions == if id in old(sessions) then old(sessions)[id := old(sessions)[id].(status := status)] else old(sessions)
    {
      if id in sessions {
        sessions := sessions[id := sessions[id].(status := status)];
      }
    }

    method PostActivity(id: Id, activity: Activity)
      modifies this`log
      ensures View() == Apply(old(View()), Post(id, activity))
      ensures log == old(log) + [Posted(id, activity)]
    {
      log := log + [Posted(id, activity)];
    }

    method RequestSessionStop(id: Id)
      modifies this`stopRequestedSessions
      ensures View() == Apply(old(View()), RequestStop(id))
      ensures stopRequestedSessions == old(stopRequestedSessions) + {id}
    {
      stopRequestedSessions := stopRequestedSessions + {id};
    }

    method ConsumeStopRequest(id: Id) returns (stopped: bool)
      modifies this`stopRequestedSessions
      ensures stopped == (id in old(stopRequestedSessions))
      ensures View() == Apply(old(View()), DropStop(id))
      ensures stopRequestedSessions == old(stopRequestedSessions) - {id}
    {
      stopped := id in stopRequestedSessions;
      stopRequestedSessions := stopRequestedSessions - {id};
    }

    method EmitTerminalOnce(id: Id, state: Terminal, force: bool, flushOk: bool)
      modifies this
      ensures View() == EmitOnce(old(View()), Signal(id, state, force), flushOk)
    {
      ghost var g := Signal(id, state, force);
      if id in terminalEmittedSessions && !force {
        return;
      }
      EmitEffect(View(), g, flushOk);
      hide EmitOnce;
      terminalEmittedSessions := terminalEmittedSessions + {id};
      if id in sessions {
        sessions := sessions[id := sessions[id].(terminal := Some(state))];
      }
      if flushOk {
        stateFile := Serialized(sessions);
      }
      log := log + [Flushed(flushOk)];
      routerLocks := routerLocks - {id};
      log := log + [Signalled(Signal(id, state, force))];
    }

    method CompleteSession(id: Id, success: bool, env: Surroundings)
      modifies this
      ensures View() == Completion(old(View()), id, success, env)
    {
      if id !in sessions {
        return;
      }
      var wasStopRequested := ConsumeStopRequest(id);
      var status := if wasStopRequested then Error else if success then Complete else Error;
      UpdateSessionStatus(id, status);
      var terminalState := if wasStopRequested then Stopped else if success then Completed else Failed;
      if wasStopRequested {
        if !env.postThrows {
          PostActivity(id, ErrorActivity);
        }
        EmitTerminalOnce(id, terminalState, false, env.flushOk);
        return;
      }
      var pendingWork := false;
      if !env.postThrows {
        if !env.blank {
          PostActivity(id, ResultEntry);
        }
        if success {
          pendingWork := env.pendingWork && sessions[id].runner;
          if pendingWork && !env.thoughtThrows {
            PostActivity(id, Thought);
          }
        }
      }
      if !pendingWork {
        EmitTerminalOnce(id, terminalState, false, env.flushOk);
      }
    }

    method AbortSession(id: Id, force: bool, flushOk: bool)
      modifies this
      ensures View() == Abort(old(View()), id, force, flushOk)
    {
      EmitTerminalOnce(id, Stopped, force, flushOk);
    }

    method FailSession(id: Id, postThrows: bool, flushOk: bool)
      modifies this
      ensures View() == Failure(old(View()), id, postThrows, flushOk)
    {
      UpdateSessionStatus(id, Error);
      if !postThrows {
        PostActivity(id, ErrorActivity);
      }
      EmitTerminalOnce(id, Failed, false, flushOk);
    }

    /** `turns` is the order in which the session map is walked, with the outcome of each
        post and flush. */
    method ReconcileInterruptedSessions(turns: seq<Turn>) returns (interrupted: seq<Id>)
      requires Distinct(turns) && TurnIds(turns) == sessions.Keys
      modifies this
      ensures View() == Reconcile(old(View()), turns)
      ensures forall id :: id in interrupted <==> Interrupted(old(View()), id)
      ensures forall id :: id in interrupted <==>
                id in old(sessions) && !old(sessions)[id].runner && old(sessions)[id].status in {Active, Pending}
                && old(sessions)[id].terminal.None? && id !in old(terminalEmittedSessions)
    {
      interrupted := [];
      ghost var start := View();
      assert turns[0..] == turns;
      NoTurns(start);
      for i := 0 to |turns|
        invariant Reconciled(start, View(), TurnIds(turns[..i]))
        invariant Reconcile(View(), turns[i..]) == Reconcile(start, turns)
        invariant forall id :: id in interrupted <==> id in TurnIds(turns[..i]) && Interrupted(start, id)
      {
        var turn := turns[i];
        ghost var before := View();
        OneMoreTurn(start, before, turns, i);
        if !(sessions[turn.id].runner || !(sessions[turn.id].status == Active || sessions[turn.id].status == Pending)
             || sessions[turn.id].terminal.Some? || turn.id in terminalEmittedSessions) {
          interrupted := interrupted + [turn.id];
          FailSession(turn.id, turn.postThrows, turn.flushOk);
        }
        assert View() == ReconcileOne(before, turn);
      }
      assert turns[..|turns|] == turns && turns[|turns|..] == [];
    }

    method GetLiveSessionIds() returns (ids: set<Id>)
      ensures ids == Live(sessions)
      ensures forall id :: id in ids <==>
                id in sessions && (sessions[id].runner || (sessions[id].status != Complete && sessions[id].status != Error))
      ensures View() == old(View())
    {
      ids := set id | id in sessions && (sessions[id].runner || !TerminalStatus(sessions[id].status));
    }

    method RemoveSession(id: Id)
      modifies this
      ensures View() == Apply(old(View()), Remove(id))
      ensures sessions == old(sessions) - {id} && stopRequestedSessions == old(stopRequestedSessions) - {id}
      ensures terminalEmittedSessions == old(terminalEmittedSessions) - {id}
    {
      sessions := sessions - {id};
      stopRequestedSessions := stopRequestedSessions - {id};
      terminalEmittedSessions := terminalEmittedSessions - {id};
    }
  }

  lemma NoTurns(w: World)
    ensures Reconciled(w, w, TurnIds([])) && TurnIds([]) == {}
  {
  }

  lemma TurnsUnfold(w: World, turns: seq<Turn>, i: nat)
    requires i < |turns|
    ensures Reconcile(w, turns[i..]) == Reconcile(ReconcileOne(w, turns[i]), turns[i + 1..])
  {
    assert turns[i..][1..] == turns[i + 1..];
    hide ReconcileOne;
  }

  lemma {:induction false} OneMoreTurn(start: World, before: World, turns: seq<Turn>, i: nat)
    requires i < |turns| && Distinct(turns) && TurnIds(turns) == start.sessions.Keys
    requires Reconciled(start, before, TurnIds(turns[..i]))
    ensures turns[i].id in before.sessions
    ensures TurnIds(turns[..i + 1]) == TurnIds(turns[..i]) + {turns[i].id}
    ensures Interrupted(before, turns[i].id) <==> Interrupted(start, turns[i].id)
    ensures Reconciled(start, ReconcileOne(before, turns[i]), TurnIds(turns[..i + 1]))
    ensures Reconcile(before, turns[i..]) == Reconcile(ReconcileOne(before, turns[i]), turns[i + 1..])
  {
    hide Reconcile;
    hide ReconcileOne;
    var id, ids := turns[i].id, TurnIds(turns[..i]);
    assert turns[i] in turns;
    assert turns[..i + 1] == turns[..i] + [turns[i]];
    assert id !in ids;
    TurnsUnfold(before, turns, i);
    ReconcileOneEffect(before, turns[i]);
    assert Interrupted(before, id) <==> Interrupted(start, id);
    ReconciledSnoc(start, before, ReconcileOne(before, turns[i]), ids, id);
  }

  lemma ReconciledSnoc(w: World, v: World, r: World, ids: set<Id>, id: Id)
    requires Reconciled(w, v, ids) && Reconciled(v, r, {id}) && id !in ids
    ensures Reconciled(w, r, ids + {id})
  {
  }

  lemma {:induction false} RecoveredSessions(w: World, turns: seq<Turn>)
    requires RunnerFree(w.disk) && CoversDisk(w, turns)
    ensures Reconcile(Apply(Apply(w, Crash), Restore), turns).sessions == map id | id in w.disk ::
              if w.disk[id].status in {Active, Pending} && w.disk[id].terminal.None? then Session(Error, Some(Failed), false)
              else w.disk[id]
  {
    hide Reconcile;
    ReconcileEffect(Apply(Apply(w, Crash), Restore), turns);
  }

  /** Restart, restore and reconcile in code are the recovery of the theorems. */
  method Boot(w: World, turns: seq<Turn>) returns (m: AgentSessionManager, held: set<Id>)
    requires RunnerFree(w.disk) && CoversDisk(w, turns)
    ensures held == Recover(w, turns).locks
    ensures held <= Recover(w, turns).sessions.Keys
    ensures m.sessions == map id | id in w.disk ::
              if w.disk[id].status in {Active, Pending} && w.disk[id].terminal.None? then Session(Error, Some(Failed), false)
              else w.disk[id]
    ensures forall id :: (id in held && Settled(Recover(w, turns).sessions[id].status)) <==>
                         (id in w.locks && id in w.disk && w.disk[id].status in {Active, Pending} && w.disk[id].terminal.Some?)
  {
    m := new AgentSessionManager(w.disk, w.locks, w.log);
    m.RestoreState(w.disk);
    assert m.View() == Apply(Apply(w, Crash), Restore);
    RecoveredSessions(w, turns);
    hide Reconcile;
    var interrupted := m.ReconcileInterruptedSessions(turns);
    var live := m.GetLiveSessionIds();
    held := m.routerLocks * live;
    forall id
      ensures id in held ==> id in Recover(w, turns).sessions
      ensures (id in held && Settled(Recover(w, turns).sessions[id].status)) <==>
              (id in w.locks && id in w.disk && w.disk[id].status in {Active, Pending} && w.disk[id].terminal.Some?)
    {
      LeakExactly(w, turns, id);
    }
  }
}
