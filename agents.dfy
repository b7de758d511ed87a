/**
 * The agent registry of the dev-task pipeline: the machine state's
 * dictionary from task ids to agent runs, the periodic pass that flags
 * agents silent for more than four hours, the nightly run that hands the
 * top backlog task to a new agent while fewer than two are running, and
 * the calls that end an agent's task (complete, blocked, failed).
 *
 * Times in the state are the ISO strings the scripts store; `instant`
 * stands for datetime.fromisoformat, mapping them to microseconds.
 */
module Agents {
  import opened Text
  import opened TaskFormat
  import opened TaskQueues
  import Pipeline

  /** Four hours in microseconds: an agent silent for longer is possibly stuck. */
  const StuckThreshold: int := 4 * 3600 * 1000000

  /** The nightly run starts no agent while this many are running. */
  const MaxConcurrent: nat := 2

  /** The AgentRun record. */
  datatype AgentRun = AgentRun(taskId: string, sessionKey: string, spawnedAt: string,
                               lastChecked: Option<string>, status: string)

  /**
   * `active_agents`: a dictionary from task ids to runs; `keys` is its
   * iteration order, the order in which the ids were inserted.
   */
  datatype Registry = Registry(keys: seq<string>, runs: map<string, AgentRun>)

  /** The State record of dev-task-state.json. */
  datatype AgentState = AgentState(registry: Registry, lastNightlyRun: Option<string>,
                                   lastMonitorRun: Option<string>)

  predicate Distinct(keys: seq<string>)
  {
    forall i, j :: 0 <= i < j < |keys| ==> keys[i] != keys[j]
  }

  /** The order lists every key of the dictionary exactly once. */
  predicate Valid(r: Registry)
  {
    && Distinct(r.keys)
    && (forall k :: k in r.runs ==> k in r.keys)
    && (forall k :: k in r.keys ==> k in r.runs)
  }

  // ---------------------------------------------------------------------
  // The dictionary
  // ---------------------------------------------------------------------

  /** The keys other than `id`, in their order. */
  function Drop(keys: seq<string>, id: string): (r: seq<string>)
    ensures forall k :: k in r <==> k in keys && k != id
    ensures Distinct(keys) ==> Distinct(r)
  {
    if keys == [] then []
    else
      var pre := Drop(keys[..|keys| - 1], id);
      var last := keys[|keys| - 1];
      assert forall k :: k in keys <==> k in keys[..|keys| - 1] || k == last;
      if last == id then pre
      else
        assert keys[..|keys| - 1] + [last] == keys;
        DistinctSnoc(keys[..|keys| - 1], pre, last);
        pre + [last]
  }

  /** Appending a key that the prefix does not hold, to a sequence with no more keys than it, keeps keys distinct. */
  lemma DistinctSnoc(keys: seq<string>, s: seq<string>, x: string)
    requires forall k :: k in s ==> k in keys
    ensures Distinct(keys + [x]) && Distinct(s) ==> Distinct(s + [x])
  {
    if Distinct(keys + [x]) && Distinct(s) {
      assert x !in keys by {
        assert forall i :: 0 <= i < |keys| ==> (keys + [x])[i] == keys[i];
        assert (keys + [x])[|keys|] == x;
      }
      assert x !in s;
      assert forall i :: 0 <= i < |s| ==> (s + [x])[i] == s[i];
    }
  }

  /** `del active_agents[id]`, done only when the id is present. */
  function Remove(r: Registry, id: string): (r': Registry)
    ensures id !in r'.runs
    ensures forall k :: k != id ==> (k in r'.runs <==> k in r.runs)
    ensures forall k :: k != id && k in r.runs ==> r'.runs[k] == r.runs[k]
    ensures Valid(r) ==> Valid(r')
  {
    if id in r.runs then Registry(Drop(r.keys, id), r.runs - {id}) else r
  }

  /** `active_agents[id] = run`: a new id goes last in the order, a present one keeps its place. */
  function Put(r: Registry, id: string, run: AgentRun): (r': Registry)
    ensures r'.runs == r.runs[id := run]
    ensures Valid(r) ==> Valid(r')
  {
    if id in r.runs then Registry(r.keys, r.runs[id := run])
    else
      assert forall k :: k in r.keys + [id] <==> k in r.keys || k == id;
      Registry(r.keys + [id], r.runs[id := run])
  }

  /** Removing an id that was just put in gives back the dictionary it was put into. */
  lemma RemovePut(r: Registry, id: string, run: AgentRun)
    requires Valid(r) && id !in r.runs
    ensures Remove(Put(r, id, run), id) == r
  {
    var keys := r.keys + [id];
    assert keys[..|keys| - 1] == r.keys;
    DropAbsent(r.keys, id);
    assert r.runs[id := run] - {id} == r.runs;
  }

  lemma {:induction false} DropAbsent(keys: seq<string>, id: string)
    requires id !in keys
    ensures Drop(keys, id) == keys
  {
    if keys != [] {
      DropAbsent(keys[..|keys| - 1], id);
    }
  }

  // ---------------------------------------------------------------------
  // Counting running agents
  // ---------------------------------------------------------------------

  /** How many of the runs under `keys` have status "running". */
  function Running(keys: seq<string>, runs: map<string, AgentRun>): (n: nat)
    requires forall k :: k in keys ==> k in runs
    ensures n <= |keys|
  {
    if keys == [] then 0
    else Running(keys[..|keys| - 1], runs) + (if runs[keys[|keys| - 1]].status == "running" then 1 else 0)
  }

  /** The ids under `keys` whose run has status "running". */
  function RunningIds(keys: seq<string>, runs: map<string, AgentRun>): set<string>
  {
    set k | k in keys && k in runs && runs[k].status == "running"
  }

  /** The count of running agents is the number of distinct running ids. */
  lemma {:induction false} RunningCard(keys: seq<string>, runs: map<string, AgentRun>)
    requires Distinct(keys)
    requires forall k :: k in keys ==> k in runs
    ensures Running(keys, runs) == |RunningIds(keys, runs)|
  {
    if keys != [] {
      var pre, last := keys[..|keys| - 1], keys[|keys| - 1];
      RunningCard(pre, runs);
      assert last !in pre;
      assert forall k :: k in keys <==> k in pre || k == last;
      if runs[last].status == "running" {
        assert RunningIds(keys, runs) == RunningIds(pre, runs) + {last};
      } else {
        assert RunningIds(keys, runs) == RunningIds(pre, runs);
      }
    }
  }

  /** `len([a for a in active_agents.values() if a.status == "running"])` */
  function RunningCount(r: Registry): nat
    requires Valid(r)
  {
    Running(r.keys, r.runs)
  }

  /** The count of running agents is the number of distinct ids whose run is running. */
  lemma RunningCountIsCard(r: Registry)
    requires Valid(r)
    ensures RunningCount(r) == |set k | k in r.runs && r.runs[k].status == "running"|
  {
    RunningCard(r.keys, r.runs);
    assert RunningIds(r.keys, r.runs) == set k | k in r.runs && r.runs[k].status == "running";
  }

  /** The count over the values, one at a time. */
  method CountRunning(r: Registry) returns (n: nat)
    requires Valid(r)
    ensures n == RunningCount(r)
  {
    n := 0;
    var i := 0;
    while i < |r.keys|
      invariant 0 <= i <= |r.keys|
      invariant n == Running(r.keys[..i], r.runs)
    {
      assert r.keys[..i + 1][..i] == r.keys[..i];
      if r.runs[r.keys[i]].status == "running" {
        n := n + 1;
      }
      i := i + 1;
    }
    assert r.keys[..i] == r.keys;
  }

  /** The count depends only on the statuses of the runs under the keys. */
  lemma {:induction false} RunningFrame(keys: seq<string>, a: map<string, AgentRun>, b: map<string, AgentRun>)
    requires forall k :: k in keys ==> k in a && k in b && a[k].status == b[k].status
    ensures Running(keys, a) == Running(keys, b)
  {
    if keys != [] {
      RunningFrame(keys[..|keys| - 1], a, b);
    }
  }

  /** Dropping a key takes one off the count exactly when its run was running. */
  lemma {:induction false} RunningDrop(keys: seq<string>, runs: map<string, AgentRun>, id: string)
    requires Distinct(keys)
    requires forall k :: k in keys ==> k in runs
    ensures Running(Drop(keys, id), runs)
         == Running(keys, runs) - (if id in keys && runs[id].status == "running" then 1 else 0)
  {
    if keys != [] {
      var pre, last := keys[..|keys| - 1], keys[|keys| - 1];
      assert forall k :: k in keys <==> k in pre || k == last;
      RunningDrop(pre, runs, id);
      var d := Drop(pre, id);
      if last != id {
        assert (d + [last])[..|d|] == d;
      } else {
        assert last !in pre;
      }
    }
  }

  /** A new running entry adds one to the count. */
  lemma RunningPut(r: Registry, id: string, run: AgentRun)
    requires Valid(r) && id !in r.runs
    ensures RunningCount(Put(r, id, run)) == RunningCount(r) + (if run.status == "running" then 1 else 0)
  {
    var keys := r.keys + [id];
    assert keys[..|keys| - 1] == r.keys;
    RunningFrame(r.keys, r.runs, r.runs[id := run]);
  }

  /** Removing an entry takes one off the count exactly when that entry was running. */
  lemma RunningRemove(r: Registry, id: string)
    requires Valid(r)
    ensures RunningCount(Remove(r, id))
         == RunningCount(r) - (if id in r.runs && r.runs[id].status == "running" then 1 else 0)
  {
    if id in r.runs {
      RunningDrop(r.keys, r.runs, id);
      RunningFrame(Drop(r.keys, id), r.runs, r.runs - {id});
    }
  }

  // ---------------------------------------------------------------------
  // The monitor pass
  // ---------------------------------------------------------------------

  /** The last sign of activity: the last check, or the spawn when never (or emptily) checked. */
  function LastActivity(a: AgentRun): string
  {
    if Truthy(a.lastChecked) then a.lastChecked.value else a.spawnedAt
  }

  /** Microseconds since the last sign of activity. */
  function Silence(a: AgentRun, now: string, instant: string -> int): int
  {
    instant(now) - instant(LastActivity(a))
  }

  /** A running agent silent for strictly more than four hours. */
  predicate Stuck(a: AgentRun, now: string, instant: string -> int)
  {
    a.status == "running" && Silence(a, now, instant) > StuckThreshold
  }

  /** One entry of the report's "agents" list; `runtime` in microseconds. */
  datatype AgentReport = AgentReport(taskId: string, sessionKey: string, status: string,
                                     spawnedAt: string, runtime: int, possiblyStuck: bool)

  /** One entry of the report's "alerts" list. */
  datatype Alert = StuckAlert(taskId: string, silence: int)

  /** What a monitor pass prints. */
  datatype MonitorReport = NothingToMonitor | Report(timestamp: string, agents: seq<AgentReport>, alerts: seq<Alert>)

  function ReportOf(id: string, a: AgentRun, now: string, instant: string -> int): AgentReport
  {
    AgentReport(id, a.sessionKey, a.status, a.spawnedAt, instant(now) - instant(a.spawnedAt), Stuck(a, now, instant))
  }

  /** The reports on the runs under `keys`, in order. */
  function Reports(keys: seq<string>, runs: map<string, AgentRun>, now: string, instant: string -> int)
    : (rs: seq<AgentReport>)
    requires forall k :: k in keys ==> k in runs
    ensures |rs| == |keys|
  {
    if keys == [] then []
    else
      var last := keys[|keys| - 1];
      Reports(keys[..|keys| - 1], runs, now, instant) + [ReportOf(last, runs[last], now, instant)]
  }

  /** The alerts on the runs under `keys`, in order. */
  function Alerts(keys: seq<string>, runs: map<string, AgentRun>, now: string, instant: string -> int)
    : (rs: seq<Alert>)
    requires forall k :: k in keys ==> k in runs
    ensures |rs| <= |keys|
  {
    if keys == [] then []
    else
      var last := keys[|keys| - 1];
      Alerts(keys[..|keys| - 1], runs, now, instant)
        + (if Stuck(runs[last], now, instant) then [StuckAlert(last, Silence(runs[last], now, instant))] else [])
  }

  lemma ReportsSnoc(keys: seq<string>, runs: map<string, AgentRun>, now: string, instant: string -> int, i: nat)
    requires forall k :: k in keys ==> k in runs
    requires i < |keys|
    ensures Reports(keys[..i + 1], runs, now, instant)
         == Reports(keys[..i], runs, now, instant) + [ReportOf(keys[i], runs[keys[i]], now, instant)]
  {
    assert keys[..i + 1][..i] == keys[..i];
  }

  lemma AlertsSnoc(keys: seq<string>, runs: map<string, AgentRun>, now: string, instant: string -> int, i: nat)
    requires forall k :: k in keys ==> k in runs
    requires i < |keys|
    ensures var a := runs[keys[i]];
      Alerts(keys[..i + 1], runs, now, instant)
        == Alerts(keys[..i], runs, now, instant)
           + if Stuck(a, now, instant) then [StuckAlert(keys[i], Silence(a, now, instant))] else []
  {
    assert keys[..i + 1][..i] == keys[..i];
  }

  /** Every run with its last check set to now. */
  function Touched(runs: map<string, AgentRun>, now: string): map<string, AgentRun>
  {
    map k | k in runs :: runs[k].(lastChecked := Some(now))
  }

  datatype Monitored = Monitored(state: AgentState, report: MonitorReport)

  /** The `main` of agent_monitor.py. */
  function MonitorStep(st: AgentState, now: string, instant: string -> int): Monitored
    requires Valid(st.registry)
  {
    var r := st.registry;
    if r.keys == [] then Monitored(st, NothingToMonitor)
    else
      Monitored(st.(registry := Registry(r.keys, Touched(r.runs, now)), lastMonitorRun := Some(now)),
                Report(now, Reports(r.keys, r.runs, now, instant), Alerts(r.keys, r.runs, now, instant)))
  }

  /** The i-th report is on the i-th agent and flags it exactly when it is stuck. */
  lemma {:induction false} ReportsAt(keys: seq<string>, runs: map<string, AgentRun>, now: string,
                                     instant: string -> int, i: nat)
    requires forall k :: k in keys ==> k in runs
    requires i < |keys|
    ensures var a, rep := runs[keys[i]], Reports(keys, runs, now, instant)[i];
      && rep.taskId == keys[i] && rep.sessionKey == a.sessionKey && rep.status == a.status
      && rep.spawnedAt == a.spawnedAt && rep.runtime == instant(now) - instant(a.spawnedAt)
      && (rep.possiblyStuck <==> a.status == "running" && Silence(a, now, instant) > StuckThreshold)
  {
    var pre := keys[..|keys| - 1];
    if i < |pre| {
      ReportsAt(pre, runs, now, instant, i);
    }
  }

  /** An alert is raised for exactly the stuck agents, with their silence. */
  lemma {:induction false} AlertsSpec(keys: seq<string>, runs: map<string, AgentRun>, now: string,
                                      instant: string -> int, x: Alert)
    requires forall k :: k in keys ==> k in runs
    ensures x in Alerts(keys, runs, now, instant)
        <==> x.taskId in keys && Stuck(runs[x.taskId], now, instant)
             && x.silence == Silence(runs[x.taskId], now, instant)
  {
    if keys != [] {
      var pre, last := keys[..|keys| - 1], keys[|keys| - 1];
      AlertsSpec(pre, runs, now, instant, x);
      assert forall k :: k in keys <==> k in pre || k == last;
    }
  }

  /** No agent is stuck, so no alert is raised. */
  lemma {:induction false} AlertsNone(keys: seq<string>, runs: map<string, AgentRun>, now: string,
                                      instant: string -> int)
    requires forall k :: k in keys ==> k in runs
    requires forall k :: k in keys ==> !Stuck(runs[k], now, instant)
    ensures Alerts(keys, runs, now, instant) == []
  {
    if keys != [] {
      AlertsNone(keys[..|keys| - 1], runs, now, instant);
    }
  }

  /**
   * A pass removes no entry and changes no status: it only stamps every
   * run, and the state, with the time of the pass. With no agents it
   * reports "nothing" and saves nothing.
   */
  lemma MonitorKeeps(st: AgentState, now: string, instant: string -> int)
    requires Valid(st.registry)
    ensures var m := MonitorStep(st, now, instant);
      && Valid(m.state.registry)
      && m.state.registry.keys == st.registry.keys
      && m.state.lastNightlyRun == st.lastNightlyRun
      && (forall k :: k in m.state.registry.runs <==> k in st.registry.runs)
      && (forall k :: k in st.registry.runs ==>
            var a, b := st.registry.runs[k], m.state.registry.runs[k];
            b.status == a.status && b.sessionKey == a.sessionKey && b.spawnedAt == a.spawnedAt
            && b.taskId == a.taskId && b.lastChecked == Some(now))
      && (st.registry.runs == map[] <==> m.report == NothingToMonitor)
      && (st.registry.runs == map[] ==> m.state == st)
      && (st.registry.runs != map[] ==> m.state.lastMonitorRun == Some(now))
  {
    if st.registry.keys != [] {
      assert st.registry.keys[0] in st.registry.runs;
    }
  }

  /**
   * Right after a pass, a second pass no more than four hours later
   * raises no alert: every agent was just checked.
   */
  lemma MonitorQuiet(st: AgentState, now: string, later: string, instant: string -> int)
    requires Valid(st.registry)
    requires now != ""
    requires instant(later) - instant(now) <= StuckThreshold
    ensures var s := MonitorStep(st, now, instant).state;
      MonitorStep(s, later, instant).report.Report? ==> MonitorStep(s, later, instant).report.alerts == []
  {
    var s := MonitorStep(st, now, instant).state;
    MonitorKeeps(st, now, instant);
    var r := s.registry;
    forall k | k in r.keys
      ensures !Stuck(r.runs[k], later, instant)
    {
      assert LastActivity(r.runs[k]) == now;
    }
    AlertsNone(r.keys, r.runs, later, instant);
  }

  // ---------------------------------------------------------------------
  // Ending an agent's task
  // ---------------------------------------------------------------------

  /** What mark_task_complete and mark_task_blocked return: the moved task, or the UnboundLocalError of `return task` when the move failed. */
  datatype Outcome = Returned(task: Task) | Unbound

  datatype Marked = Marked(state: AgentState, files: map<QueueFile, string>, outcome: Outcome)

  function Completion(now: string, result: string): seq<Update>
  {
    [Update("completed_at", Some(now)), Update("result", Some(result))]
  }

  /** The context a failed task gets: the reason, then the context of the first In-Progress task. */
  function FailedContext(reason: string, firstContext: string): string
  {
    "[FAILED: " + reason + "]\n\nOriginal context:\n" + firstContext
  }

  function Failure(reason: string, firstContext: string): seq<Update>
  {
    [Update("context", Some(FailedContext(reason, firstContext))), Update("started_at", None), Update("agent_session", None)]
  }

  /**
   * The shared shape of the mark_* functions: move the task out of
   * In-Progress (a ValueError is swallowed) and drop the registry entry.
   */
  function MarkStep(st: AgentState, files: map<QueueFile, string>, id: string, to: QueueFile,
                    updates: seq<Update>, readFrom: Draw, readTo: Draw): Marked
  {
    var m := Move(files, id, InProgress, to, updates, readFrom, readTo);
    Marked(st.(registry := Remove(st.registry, id)),
           if m.Some? then m.value.files else files,
           if m.Some? then Returned(m.value.task) else Unbound)
  }

  /** mark_task_complete */
  function MarkCompleteStep(st: AgentState, files: map<QueueFile, string>, id: string, result: string,
                            now: string, readFrom: Draw, readTo: Draw): Marked
  {
    MarkStep(st, files, id, Done, Completion(now, result), readFrom, readTo)
  }

  /** mark_task_blocked */
  function MarkBlockedStep(st: AgentState, files: map<QueueFile, string>, id: string, reason: string,
                           readFrom: Draw, readTo: Draw): Marked
  {
    MarkStep(st, files, id, Blocked, Pipeline.BlockedFor(reason), readFrom, readTo)
  }

  /** The context of the first In-Progress task, or "" when there is none. */
  function FirstContext(files: map<QueueFile, string>, read: Draw): string
  {
    var ts := Read(files, InProgress, read);
    if ts == [] then "" else ts[0].context
  }

  /** mark_task_failed: back to the Backlog, with the reason put before the first In-Progress context. */
  function MarkFailedStep(st: AgentState, files: map<QueueFile, string>, id: string, reason: string,
                          readContext: Draw, readFrom: Draw, readTo: Draw): Marked
  {
    MarkStep(st, files, id, Backlog, Failure(reason, FirstContext(files, readContext)), readFrom, readTo)
  }

  lemma CompletionSets(t: Task, now: string, result: string)
    ensures ApplyUpdates(t, Completion(now, result)) == t.(completedAt := Some(now), result := Some(result))
  {
    var u, v := Update("completed_at", Some(now)), Update("result", Some(result));
    ApplyTwo(t, u, v);
    assert AttrOf(u.key) == Some(AttrCompletedAt);
    assert AttrOf(v.key) == Some(AttrResult);
  }

  lemma FailureSets(t: Task, reason: string, first: string)
    ensures ApplyUpdates(t, Failure(reason, first))
         == t.(context := FailedContext(reason, first), startedAt := None, agentSession := None)
  {
    var us := Failure(reason, first);
    ApplyTwo(t, us[0], us[1]);
    assert us[..2] == [us[0], us[1]];
    assert AttrOf(us[0].key) == Some(AttrContext);
    assert AttrOf(us[1].key) == Some(AttrStartedAt);
    assert AttrOf(us[2].key) == Some(AttrAgentSession);
  }

  /**
   * Every mark_* call leaves the task's id out of the registry and every
   * other entry as it was; the running count drops by one exactly when
   * the entry was running. The queues change only when the move found the
   * task, and then the outcome is the moved task, otherwise the call ends
   * in the unbound name.
   */
  lemma MarkRemoves(st: AgentState, files: map<QueueFile, string>, id: string, to: QueueFile,
                    updates: seq<Update>, readFrom: Draw, readTo: Draw)
    requires Valid(st.registry)
    ensures var m := MarkStep(st, files, id, to, updates, readFrom, readTo);
      && Valid(m.state.registry)
      && id !in m.state.registry.runs
      && (forall k :: k != id ==> (k in m.state.registry.runs <==> k in st.registry.runs))
      && m.state.lastNightlyRun == st.lastNightlyRun && m.state.lastMonitorRun == st.lastMonitorRun
      && RunningCount(m.state.registry) == RunningCount(st.registry)
           - (if id in st.registry.runs && st.registry.runs[id].status == "running" then 1 else 0)
      && (m.outcome.Unbound? <==> forall t :: t in Read(files, InProgress, readFrom) ==> t.id != id)
      && (m.outcome.Unbound? ==> m.files == files)
  {
    RunningRemove(st.registry, id);
    MoveFails(files, id, InProgress, to, updates, readFrom, readTo);
  }

  /**
   * mark_task_complete on a task in In-Progress: Done reads back with the
   * task in front, stamped with the completion time and result, and
   * In-Progress without it.
   */
  lemma MarkCompleteMoves(st: AgentState, files: map<QueueFile, string>, id: string, result: string,
                          now: string, readFrom: Draw, readTo: Draw, d: Draw)
    requires Move(files, id, InProgress, Done, Completion(now, result), readFrom, readTo).Some?
    requires forall t :: t in Read(files, InProgress, readFrom) ==> WellFormed(t)
    requires forall t :: t in Read(files, Done, readTo) ==> WellFormed(t)
    requires WellFormed(Move(files, id, InProgress, Done, Completion(now, result), readFrom, readTo).value.task)
    ensures var m := MarkCompleteStep(st, files, id, result, now, readFrom, readTo);
      && m.outcome.Returned?
      && m.outcome.task.id == id
      && m.outcome.task.completedAt == Some(now) && m.outcome.task.result == Some(result)
      && Read(m.files, Done, d) == [m.outcome.task] + Read(files, Done, readTo)
      && Read(m.files, InProgress, d) == Without(Read(files, InProgress, readFrom), id)
  {
    var src := Read(files, InProgress, readFrom);
    var k := LastWithIndex(src, id);
    CompletionSets(src[k], now, result);
    MoveReadBack(files, id, InProgress, Done, Completion(now, result), readFrom, readTo, d, Backlog);
  }

  /**
   * mark_task_blocked on a task in In-Progress: Blocked reads back with
   * the task in front, carrying the reason, and In-Progress without it.
   */
  lemma MarkBlockedMoves(st: AgentState, files: map<QueueFile, string>, id: string, reason: string,
                         readFrom: Draw, readTo: Draw, d: Draw)
    requires Move(files, id, InProgress, Blocked, Pipeline.BlockedFor(reason), readFrom, readTo).Some?
    requires forall t :: t in Read(files, InProgress, readFrom) ==> WellFormed(t)
    requires forall t :: t in Read(files, Blocked, readTo) ==> WellFormed(t)
    requires WellFormed(Move(files, id, InProgress, Blocked, Pipeline.BlockedFor(reason), readFrom, readTo).value.task)
    ensures var m := MarkBlockedStep(st, files, id, reason, readFrom, readTo);
      && m.outcome.Returned?
      && m.outcome.task.id == id
      && m.outcome.task.blockedReason == Some(reason)
      && Read(m.files, Blocked, d) == [m.outcome.task] + Read(files, Blocked, readTo)
      && Read(m.files, InProgress, d) == Without(Read(files, InProgress, readFrom), id)
  {
    var src := Read(files, InProgress, readFrom);
    var k := LastWithIndex(src, id);
    Pipeline.BlockedForSets(src[k], reason);
    MoveReadBack(files, id, InProgress, Blocked, Pipeline.BlockedFor(reason), readFrom, readTo, d, Backlog);
  }

  /**
   * mark_task_failed on a task in In-Progress: In-Progress reads back
   * without it, and the Backlog is rewritten with it in front, with no
   * start time and no agent session, and with a context made of the
   * reason and the context of the FIRST In-Progress task, which is another
   * task's whenever the failed one is not first. That context spans
   * several lines, so the record format does not read it back unchanged.
   */
  lemma MarkFailedMoves(st: AgentState, files: map<QueueFile, string>, id: string, reason: string,
                        readContext: Draw, readFrom: Draw, readTo: Draw, d: Draw)
    requires Move(files, id, InProgress, Backlog, Failure(reason, FirstContext(files, readContext)),
                  readFrom, readTo).Some?
    requires forall t :: t in Read(files, InProgress, readFrom) ==> WellFormed(t)
    ensures var m := MarkFailedStep(st, files, id, reason, readContext, readFrom, readTo);
      var first := Read(files, InProgress, readContext);
      && m.outcome.Returned?
      && m.outcome.task.id == id
      && m.outcome.task.context == FailedContext(reason, if first == [] then "" else first[0].context)
      && m.outcome.task.startedAt == None && m.outcome.task.agentSession == None
      && Backlog in m.files
      && m.files[Backlog] == WriteTasks(Header(Backlog), [m.outcome.task] + Read(files, Backlog, readTo))
      && Read(m.files, InProgress, d) == Without(Read(files, InProgress, readFrom), id)
  {
    var first := FirstContext(files, readContext);
    var us := Failure(reason, first);
    var src := Read(files, InProgress, readFrom);
    var k := LastWithIndex(src, id);
    FailureSets(src[k], reason, first);
    var m := Move(files, id, InProgress, Backlog, us, readFrom, readTo).value;
    var rest := Without(src, id);
    WithoutMembers(src, id);
    TwoWrites(files, InProgress, WriteTasks(Header(InProgress), rest), Backlog,
              WriteTasks(Header(Backlog), [m.task] + Read(files, Backlog, readTo)), Done);
    ReadWritten(m.files, InProgress, rest, d);
  }

  // ---------------------------------------------------------------------
  // The nightly run
  // ---------------------------------------------------------------------

  /** What nightly_dev_run.py prints; `MoveError` is the ValueError move_task raises. */
  datatype NightlyReply =
    | SkipRunning(count: nat)
    | SkipEmpty
    | SkipActive(id: string)
    | MoveError
    | Spawn(task: Task)

  datatype Nightly = Nightly(state: AgentState, files: map<QueueFile, string>, reply: NightlyReply)

  /** The registry entry of a freshly spawned agent: no session yet. */
  function Pending(id: string, now: string): AgentRun
  {
    AgentRun(id, "pending", now, None, "running")
  }

  /** The `main` of nightly_dev_run.py. */
  function NightlyStep(st: AgentState, files: map<QueueFile, string>, now: string,
                       readTop: Draw, readFrom: Draw, readTo: Draw): Nightly
    requires Valid(st.registry)
  {
    var n := RunningCount(st.registry);
    if n >= MaxConcurrent then Nightly(st, files, SkipRunning(n))
    else
      var top := Top(Read(files, Backlog, readTop));
      if top.None? then Nightly(st, files, SkipEmpty)
      else if top.value.id in st.registry.runs then Nightly(st, files, SkipActive(top.value.id))
      else SpawnStep(st, files, top.value.id, now, readFrom, readTo)
  }

  /** The rest of the nightly run once a task is chosen: move it to In-Progress and register its agent. */
  function SpawnStep(st: AgentState, files: map<QueueFile, string>, id: string, now: string,
                     readFrom: Draw, readTo: Draw): Nightly
  {
    var m := Move(files, id, Backlog, InProgress, Pipeline.StartedAt(now), readFrom, readTo);
    if m.None? then Nightly(st, files, MoveError)
    else
      var t := m.value.task;
      Nightly(st.(registry := Put(st.registry, t.id, Pending(t.id, now)), lastNightlyRun := Some(now)),
              m.value.files, Spawn(t))
  }

  /**
   * A spawn registers the chosen id, with the moved task stamped with the
   * start time; a failed move saves nothing.
   */
  lemma SpawnStepShape(st: AgentState, files: map<QueueFile, string>, id: string, now: string,
                       readFrom: Draw, readTo: Draw)
    ensures var n := SpawnStep(st, files, id, now, readFrom, readTo);
      && (n.reply.Spawn? || n.reply.MoveError?)
      && (n.reply.Spawn? ==>
            && n.reply.task.id == id && n.reply.task.startedAt == Some(now)
            && n.state == st.(registry := Put(st.registry, id, Pending(id, now)), lastNightlyRun := Some(now)))
      && (n.reply.MoveError? ==> n.state == st && n.files == files)
  {
    var m := Move(files, id, Backlog, InProgress, Pipeline.StartedAt(now), readFrom, readTo);
    if m.Some? {
      var src := Read(files, Backlog, readFrom);
      var k := LastWithIndex(src, id);
      Pipeline.StartedAtSets(src[k], now);
      assert m.value.task == src[k].(startedAt := Some(now));
    }
  }

  /**
   * The nightly run starts an agent only while fewer than two are running,
   * and then exactly one more is running; every skip saves nothing.
   */
  lemma NightlyCap(st: AgentState, files: map<QueueFile, string>, now: string,
                   readTop: Draw, readFrom: Draw, readTo: Draw)
    requires Valid(st.registry)
    ensures var n := NightlyStep(st, files, now, readTop, readFrom, readTo);
      && Valid(n.state.registry)
      && (n.reply.Spawn? ==> RunningCount(st.registry) < MaxConcurrent
                             && RunningCount(n.state.registry) == RunningCount(st.registry) + 1)
      && (!n.reply.Spawn? ==> n.state == st && n.files == files)
      && RunningCount(n.state.registry) <= if RunningCount(st.registry) <= MaxConcurrent then MaxConcurrent
                                           else RunningCount(st.registry)
  {
    var n := NightlyStep(st, files, now, readTop, readFrom, readTo);
    var top := Top(Read(files, Backlog, readTop));
    if RunningCount(st.registry) < MaxConcurrent && top.Some? && top.value.id !in st.registry.runs {
      var id := top.value.id;
      assert n == SpawnStep(st, files, id, now, readFrom, readTo);
      SpawnStepShape(st, files, id, now, readFrom, readTo);
      if n.reply.Spawn? {
        RunningPut(st.registry, id, Pending(id, now));
      }
    }
  }

  /**
   * A spawn takes the top backlog task, which had no agent: it lands in
   * front of In-Progress with the start time, and the registry gains a
   * pending, running entry under its id, placed last.
   */
  lemma NightlySpawns(st: AgentState, files: map<QueueFile, string>, now: string,
                      readTop: Draw, readFrom: Draw, readTo: Draw, d: Draw)
    requires Valid(st.registry)
    requires NightlyStep(st, files, now, readTop, readFrom, readTo).reply.Spawn?
    requires forall t :: t in Read(files, InProgress, readTo) ==> WellFormed(t)
    requires WellFormed(NightlyStep(st, files, now, readTop, readFrom, readTo).reply.task)
    ensures var n := NightlyStep(st, files, now, readTop, readFrom, readTo);
      var t := n.reply.task;
      && Top(Read(files, Backlog, readTop)).Some?
      && t.id == Top(Read(files, Backlog, readTop)).value.id
      && t.id !in st.registry.runs
      && t.startedAt == Some(now)
      && n.state.registry.keys == st.registry.keys + [t.id]
      && n.state.registry.runs == st.registry.runs[t.id := AgentRun(t.id, "pending", now, None, "running")]
      && n.state.lastNightlyRun == Some(now)
      && Read(n.files, InProgress, d) == [t] + Read(files, InProgress, readTo)
  {
    var n := NightlyStep(st, files, now, readTop, readFrom, readTo);
    var id := Top(Read(files, Backlog, readTop)).value.id;
    assert n == SpawnStep(st, files, id, now, readFrom, readTo);
    SpawnStepShape(st, files, id, now, readFrom, readTo);
    MoveReadTarget(files, id, Backlog, InProgress, Pipeline.StartedAt(now), readFrom, readTo, d);
  }

  /**
   * Completing the task of the agent a nightly run just spawned gives back
   * the registry as it was before the run.
   */
  lemma SpawnThenComplete(st: AgentState, files: map<QueueFile, string>, now: string,
                          readTop: Draw, readFrom: Draw, readTo: Draw,
                          result: string, done: string, readFrom2: Draw, readTo2: Draw)
    requires Valid(st.registry)
    requires NightlyStep(st, files, now, readTop, readFrom, readTo).reply.Spawn?
    ensures var n := NightlyStep(st, files, now, readTop, readFrom, readTo);
      MarkCompleteStep(n.state, n.files, n.reply.task.id, result, done, readFrom2, readTo2).state.registry
        == st.registry
  {
    var n := NightlyStep(st, files, now, readTop, readFrom, readTo);
    var id := Top(Read(files, Backlog, readTop)).value.id;
    assert n == SpawnStep(st, files, id, now, readFrom, readTo);
    SpawnStepShape(st, files, id, now, readFrom, readTo);
    RemovePut(st.registry, id, Pending(id, now));
  }

  /** Runs that hold every run of a registry with its check stamped are the stamped runs. */
  lemma TouchedAll(r: Registry, runs: map<string, AgentRun>, now: string)
    requires Valid(r)
    requires runs.Keys == r.runs.Keys
    requires forall j :: 0 <= j < |r.keys| ==> runs[r.keys[j]] == r.runs[r.keys[j]].(lastChecked := Some(now))
    ensures runs == Touched(r.runs, now)
  {
    forall k | k in runs
      ensures runs[k] == Touched(r.runs, now)[k]
    {
      var j :| 0 <= j < |r.keys| && r.keys[j] == k;
    }
  }

  /**
   * The monitor loop over the agents in order: the reports, the alerts,
   * and the runs with every listed one stamped with the time of the pass.
   */
  method Survey(keys: seq<string>, runs0: map<string, AgentRun>, now: string, instant: string -> int)
    returns (agents: seq<AgentReport>, alerts: seq<Alert>, runs: map<string, AgentRun>)
    requires Distinct(keys)
    requires forall k :: k in keys ==> k in runs0
    ensures agents == Reports(keys, runs0, now, instant)
    ensures alerts == Alerts(keys, runs0, now, instant)
    ensures runs.Keys == runs0.Keys
    ensures forall j :: 0 <= j < |keys| ==> runs[keys[j]] == runs0[keys[j]].(lastChecked := Some(now))
  {
    agents, alerts, runs := [], [], runs0;
    var i := 0;
    while i < |keys|
      invariant 0 <= i <= |keys|
      invariant agents == Reports(keys[..i], runs0, now, instant)
      invariant alerts == Alerts(keys[..i], runs0, now, instant)
      invariant runs.Keys == runs0.Keys
      invariant forall j :: 0 <= j < i ==> runs[keys[j]] == runs0[keys[j]].(lastChecked := Some(now))
      invariant forall j :: i <= j < |keys| ==> runs[keys[j]] == runs0[keys[j]]
    {
      var id := keys[i];
      var agent := runs[id];
      ReportsSnoc(keys, runs0, now, instant, i);
      AlertsSnoc(keys, runs0, now, instant, i);
      var item, alert := Inspect(id, agent, now, instant);
      alerts := alerts + alert;
      agents := agents + [item];
      runs := runs[id := agent.(lastChecked := Some(now))];
      i := i + 1;
    }
    assert keys[..i] == keys;
  }

  /** The body of the monitor loop on one agent: its report, and its alert when it is stuck. */
  method Inspect(id: string, agent: AgentRun, now: string, instant: string -> int)
    returns (item: AgentReport, alert: seq<Alert>)
    ensures item == ReportOf(id, agent, now, instant)
    ensures alert == if Stuck(agent, now, instant) then [StuckAlert(id, Silence(agent, now, instant))] else []
  {
    var spawned := instant(agent.spawnedAt);
    var possiblyStuck := false;
    alert := [];
    if agent.status == "running" {
      var lastCheck := if Truthy(agent.lastChecked) then instant(agent.lastChecked.value) else spawned;
      var sinceCheck := instant(now) - lastCheck;
      if sinceCheck > StuckThreshold {
        possiblyStuck := true;
        alert := [StuckAlert(id, sinceCheck)];
      }
    }
    item := AgentReport(id, agent.sessionKey, agent.status, agent.spawnedAt, instant(now) - spawned, possiblyStuck);
  }

  // ---------------------------------------------------------------------
  // The scripts over the saved state and the queue files
  // ---------------------------------------------------------------------

  /**
   * The machine state of dev-task-state.json and the queue files, as the
   * agent scripts load, change and save them.
   */
  class Scheduler {
    var state: AgentState
    const store: TaskStore

    constructor (initial: AgentState, store: TaskStore)
      requires Valid(initial.registry)
      ensures state == initial && this.store == store
    {
      state := initial;
      this.store := store;
    }

    /** agent_monitor.py's `main`: one report per agent, an alert per stuck one, every run stamped. */
    method Monitor(now: string, instant: string -> int) returns (report: MonitorReport)
      requires Valid(state.registry)
      modifies this
      ensures state == MonitorStep(old(state), now, instant).state
      ensures report == MonitorStep(old(state), now, instant).report
    {
      var st := state;
      var reg := st.registry;
      if reg.keys == [] {
        assert MonitorStep(state, now, instant) == Monitored(state, NothingToMonitor);
        return NothingToMonitor;
      }
      var agents, alerts, runs := Survey(reg.keys, reg.runs, now, instant);
      TouchedAll(reg, runs, now);
      state := st.(registry := Registry(reg.keys, runs), lastMonitorRun := Some(now));
      report := Report(now, agents, alerts);
    }

    /** `del active_agents[id]` after setting the run's status, when the id is present. */
    method Forget(id: string, status: string)
      requires Valid(state.registry)
      modifies this
      ensures state == old(state).(registry := Remove(old(state).registry, id))
    {
      var reg := state.registry;
      if id in reg.runs {
        reg := reg.(runs := reg.runs[id := reg.runs[id].(status := status)]);
        assert reg.runs - {id} == state.registry.runs - {id};
        state := state.(registry := Registry(Drop(reg.keys, id), reg.runs - {id}));
      }
    }

    /** mark_task_complete */
    method MarkTaskComplete(id: string, result: string, now: string, readFrom: Draw, readTo: Draw)
      returns (outcome: Outcome)
      requires Valid(state.registry)
      modifies this, store
      ensures var m := MarkCompleteStep(old(state), old(store.files), id, result, now, readFrom, readTo);
        state == m.state && store.files == m.files && outcome == m.outcome
    {
      var moved := store.MoveTask(id, InProgress, Done, Completion(now, result), readFrom, readTo);
      Forget(id, "completed");
      outcome := if moved.Some? then Returned(moved.value) else Unbound;
    }

    /** mark_task_blocked */
    method MarkTaskBlocked(id: string, reason: string, readFrom: Draw, readTo: Draw)
      returns (outcome: Outcome)
      requires Valid(state.registry)
      modifies this, store
      ensures var m := MarkBlockedStep(old(state), old(store.files), id, reason, readFrom, readTo);
        state == m.state && store.files == m.files && outcome == m.outcome
    {
      var moved := store.MoveTask(id, InProgress, Blocked, Pipeline.BlockedFor(reason), readFrom, readTo);
      Forget(id, "blocked");
      outcome := if moved.Some? then Returned(moved.value) else Unbound;
    }

    /** mark_task_failed: returns nothing, so a failed move ends quietly. */
    method MarkTaskFailed(id: string, reason: string, readContext: Draw, readFrom: Draw, readTo: Draw)
      requires Valid(state.registry)
      modifies this, store
      ensures var m := MarkFailedStep(old(state), old(store.files), id, reason, readContext, readFrom, readTo);
        state == m.state && store.files == m.files
    {
      var inProgress := ParseTasks(Content(store.files, InProgress), readContext.ids, readContext.today);
      var first := if inProgress != [] then inProgress[0].context else "";
      var moved := store.MoveTask(id, InProgress, Backlog, Failure(reason, first), readFrom, readTo);
      if id in state.registry.runs {
        state := state.(registry := Remove(state.registry, id));
      }
    }

    /** nightly_dev_run.py's `main` */
    method NightlyRun(now: string, readTop: Draw, readFrom: Draw, readTo: Draw) returns (reply: NightlyReply)
      requires Valid(state.registry)
      modifies this, store
      ensures var n := NightlyStep(old(state), old(store.files), now, readTop, readFrom, readTo);
        state == n.state && store.files == n.files && reply == n.reply
    {
      var count := CountRunning(state.registry);
      if count >= MaxConcurrent {
        return SkipRunning(count);
      }
      var top := store.GetTopBacklogTask(readTop);
      if top.None? {
        return SkipEmpty;
      }
      if top.value.id in state.registry.runs {
        return SkipActive(top.value.id);
      }
      var moved := store.MoveTask(top.value.id, Backlog, InProgress, Pipeline.StartedAt(now), readFrom, readTo);
      if moved.None? {
        return MoveError;
      }
      var task := moved.value;
      state := state.(registry := Put(state.registry, task.id, Pending(task.id, now)), lastNightlyRun := Some(now));
      reply := Spawn(task);
    }
  }
}
