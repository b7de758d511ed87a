/**
 * The dev-pipeline controller of dev_orchestrator.py: a persisted state
 * machine idle -> preflight -> implementing -> verifying -> committing ->
 * done / failed. Every entry point loads the pipeline state, checks its
 * status, changes fields, moves the current task between queues and saves.
 *
 * Each entry point is specified by a step function from the saved state and
 * the queue files to the new saved state, the new files and the reply. The
 * Orchestrator class performs the same steps in order, on the persisted
 * state and a TaskStore, and is proved to end where its step function says.
 */
module Pipeline {
  import opened Text
  import opened TaskFormat
  import opened TaskQueues

  // ---------------------------------------------------------------------
  // The persisted state
  // ---------------------------------------------------------------------

  datatype Status = Idle | Preflight | Implementing | Verifying | Committing | Done | Failed

  /** The status as it is stored and reported. */
  function StatusName(s: Status): string
  {
    match s
    case Idle => "idle"
    case Preflight => "preflight"
    case Implementing => "implementing"
    case Verifying => "verifying"
    case Committing => "committing"
    case Done => "done"
    case Failed => "failed"
  }

  /** An entry of completed_tasks: the id and title of a task committed in this batch. */
  datatype Completed = Completed(id: Option<string>, title: Option<string>)

  /** The PipelineState dataclass. */
  datatype PipelineState = PipelineState(
    status: Status,
    currentTaskId: Option<string>,
    currentTaskTitle: Option<string>,
    project: Option<string>,
    verifyAttempts: int,
    maxVerifyAttempts: int,
    implSessionKey: Option<string>,
    verifySessionKey: Option<string>,
    batchStartedAt: Option<string>,
    completedTasks: seq<Completed>,
    failedTask: Option<string>,
    errorMessage: Option<string>)

  const MaxVerifyAttempts: int := 3

  /** PipelineState(): what a missing state file loads as and what reset saves. */
  const Initial: PipelineState :=
    PipelineState(Idle, None, None, None, 0, MaxVerifyAttempts, None, None, None, [], None, None)

  /**
   * What the entry points keep true of the state: the retry bound is the
   * default one, a verification in progress has used between one and all
   * of its attempts, and a batch in progress has a current task.
   */
  predicate Sane(st: PipelineState)
  {
    && st.maxVerifyAttempts == MaxVerifyAttempts
    && (st.status == Verifying ==> 1 <= st.verifyAttempts <= st.maxVerifyAttempts)
    && (st.status in {Preflight, Implementing, Verifying, Committing} ==> st.currentTaskId.Some?)
  }

  // ---------------------------------------------------------------------
  // Projects, approved tasks and lookups
  // ---------------------------------------------------------------------

  datatype ProjectConfig = ProjectConfig(repoPath: Option<string>, testCommand: string)

  /** get_project_config: the two known projects, and the default for every other name. */
  function ConfigOf(project: string): (c: ProjectConfig)
    ensures c.repoPath.Some? <==> project == "decent-cloud" || project == "voki"
  {
    if project == "decent-cloud" then ProjectConfig(Some("/projects/decent-cloud"), "cargo test")
    else if project == "voki" then ProjectConfig(Some("/projects/voice-ai-agent"), "pytest")
    else ProjectConfig(None, "echo 'No test command configured'")
  }

  /** P0 and P1 tasks count as approved. */
  predicate IsApproved(t: Task)
  {
    t.priority == P0 || t.priority == P1
  }

  /** get_approved_tasks on the parsed backlog: the approved tasks in backlog order. */
  function Approved(ts: seq<Task>): (r: seq<Task>)
    ensures |r| <= |ts|
  {
    if ts == [] then []
    else if IsApproved(ts[0]) then [ts[0]] + Approved(ts[1..])
    else Approved(ts[1..])
  }

  /** The approved tasks are exactly the backlog's P0 and P1 tasks. */
  lemma {:induction false} ApprovedMembers(ts: seq<Task>)
    ensures forall t :: t in Approved(ts) <==> t in ts && IsApproved(t)
  {
    if ts != [] {
      ApprovedMembers(ts[1..]);
      assert ts == [ts[0]] + ts[1..];
    }
  }

  /** The first approved task is the first P0 or P1 task of the backlog, whatever its priority. */
  lemma {:induction false} ApprovedFirst(ts: seq<Task>) returns (k: nat)
    requires Approved(ts) != []
    ensures k < |ts| && ts[k] == Approved(ts)[0]
    ensures forall j :: 0 <= j < k ==> !IsApproved(ts[j])
  {
    if IsApproved(ts[0]) {
      k := 0;
    } else {
      var k' := ApprovedFirst(ts[1..]);
      k := k' + 1;
    }
  }

  /** `next((t for t in tasks if t.id == id), None)` */
  function FirstWith(ts: seq<Task>, id: Option<string>): Option<Task>
  {
    if ts == [] then None
    else if Some(ts[0].id) == id then Some(ts[0])
    else FirstWith(ts[1..], id)
  }

  /** The lookup fails exactly when no task has the id (and always for no id). */
  lemma {:induction false} FirstWithNone(ts: seq<Task>, id: Option<string>)
    ensures FirstWith(ts, id).None? <==> forall t :: t in ts ==> Some(t.id) != id
  {
    if ts != [] {
      FirstWithNone(ts[1..], id);
      assert ts == [ts[0]] + ts[1..];
    }
  }

  /** What the lookup finds is the earliest task with the id. */
  lemma {:induction false} FirstWithIndex(ts: seq<Task>, id: Option<string>) returns (k: nat)
    requires FirstWith(ts, id).Some?
    ensures k < |ts| && ts[k] == FirstWith(ts, id).value && Some(ts[k].id) == id
    ensures forall j :: 0 <= j < k ==> Some(ts[j].id) != id
  {
    if Some(ts[0].id) == id {
      k := 0;
    } else {
      var k' := FirstWithIndex(ts[1..], id);
      k := k' + 1;
    }
  }

  // ---------------------------------------------------------------------
  // The commit
  // ---------------------------------------------------------------------

  /** The conventional-commit type of a priority. */
  function CommitType(p: Priority): string
  {
    match p
    case P0 => "fix"
    case P1 => "feat"
    case P2 => "feat"
    case P3 => "chore"
  }

  /** build_commit_message */
  function CommitMessage(t: Task): string
  {
    CommitType(t.priority) + ": " + t.title + "\n\nTask ID: " + t.id
      + "\n\nAutomated implementation via dev-orchestrator."
  }

  /** For a one-line title the subject line of the commit is "type: title". */
  lemma CommitSubject(t: Task)
    requires '\n' !in t.title
    ensures BeforeFirst(CommitMessage(t), '\n') == CommitType(t.priority) + ": " + t.title
    ensures CommitType(t.priority) == (if t.priority == P0 then "fix" else if t.priority == P3 then "chore" else "feat")
  {
    var subject := CommitType(t.priority) + ": " + t.title;
    var rest := "\nTask ID: " + t.id + "\n\nAutomated implementation via dev-orchestrator.";
    assert CommitMessage(t) == subject + "\n" + rest;
    assert '\n' !in subject by {
      assert forall i :: 0 <= i < |CommitType(t.priority)| + 2 ==> subject[i] != '\n';
      assert forall i :: |CommitType(t.priority)| + 2 <= i < |subject| ==> subject[i] == t.title[i - |CommitType(t.priority)| - 2];
    }
    BeforeFirstOf(subject, '\n', rest);
  }

  /** `s.replace("'", "'\\''")`: each quote closes the quoting, is escaped and reopens it. */
  function Escape(s: string): (r: string)
    ensures |r| >= |s|
  {
    if s == [] then []
    else if s[0] == '\'' then "'\\''" + Escape(s[1..])
    else [s[0]] + Escape(s[1..])
  }

  function Prepend(c: char, o: Option<string>): Option<string>
  {
    if o.Some? then Some([c] + o.value) else None
  }

  /**
   * How a POSIX shell reads a word made of single-quoted runs and
   * backslash-escaped characters (the only forms the commit command uses):
   * the characters it stands for, or None for an unterminated quote or any
   * other form.
   */
  function ShellWord(w: string, quoted: bool): Option<string>
  {
    if w == [] then (if quoted then None else Some([]))
    else if quoted then
      (if w[0] == '\'' then ShellWord(w[1..], false) else Prepend(w[0], ShellWord(w[1..], true)))
    else if w[0] == '\'' then ShellWord(w[1..], true)
    else if w[0] == '\\' && |w| >= 2 then Prepend(w[1], ShellWord(w[2..], false))
    else None
  }

  /** Inside quotes, an escaped quote stands for one quote and leaves the word quoted. */
  lemma EscapedQuote(e: string)
    ensures ShellWord("'\\''" + e, true) == Prepend('\'', ShellWord(e, true))
  {
    var w := "'\\''" + e;
    assert w[0] == '\'' && w[1..][0] == '\\' && w[1..][1] == '\'';
    assert w[1..][2..] == "'" + e;
    assert ("'" + e)[1..] == e;
    assert ShellWord("'" + e, false) == ShellWord(e, true);
  }

  /** Inside quotes, any other character stands for itself. */
  lemma QuotedChar(c: char, e: string)
    requires c != '\''
    ensures ShellWord([c] + e, true) == Prepend(c, ShellWord(e, true))
  {
    assert ([c] + e)[1..] == e;
  }

  lemma {:induction false} EscapeInQuotes(s: string)
    ensures ShellWord(Escape(s) + "'", true) == Some(s)
  {
    if s == [] {
    } else {
      EscapeInQuotes(s[1..]);
      var e := Escape(s[1..]) + "'";
      assert s == [s[0]] + s[1..];
      if s[0] == '\'' {
        assert Escape(s) + "'" == "'\\''" + e;
        EscapedQuote(e);
      } else {
        assert Escape(s) + "'" == [s[0]] + e;
        QuotedChar(s[0], e);
      }
    }
  }

  /** The quoted commit message reaches git exactly as built, whatever quotes it holds. */
  lemma QuoteRoundTrip(s: string)
    ensures ShellWord("'" + Escape(s) + "'", false) == Some(s)
  {
    EscapeInQuotes(s);
    assert ("'" + Escape(s) + "'")[1..] == Escape(s) + "'";
  }

  /** The commands the commit reply carries: none without a repository. */
  function CommitCommands(t: Task, repo: Option<string>): seq<string>
  {
    if repo.None? then []
    else ["cd " + repo.value, "git add -A", "git commit -m '" + Escape(CommitMessage(t)) + "'"]
  }

  /** The commands run before a verification: none without a repository. */
  function PreVerify(repo: Option<string>): seq<string>
  {
    if repo.None? then [] else ["cd " + repo.value, "git add -A"]
  }

  // ---------------------------------------------------------------------
  // Replies and steps
  // ---------------------------------------------------------------------

  /** The JSON an entry point prints, without the prompts. */
  datatype Reply =
    | Skip(reason: string, currentTask: Option<string>)
    | StartPreflight(task: Task, repoPath: Option<string>)
    | Stop(reason: string, taskId: Option<string>)
    | Implement(task: Task, repoPath: Option<string>, completedSoFar: Option<seq<Completed>>)
    | Verify(task: Task, attempt: int, repoPath: Option<string>, preVerify: seq<string>)
    | Commit(task: Task, message: string, commands: seq<string>)
    | BatchComplete(completed: seq<Completed>, startedAt: Option<string>, completedAt: string)
    | Failure(error: string)
    | Raised
    | ResetDone
    | NoResume(why: string, autoReset: bool)
    | ResumeWork(task: Task, previous: Status, changedFiles: seq<string>)

  /** The saved state, the queue files and the reply after an entry point; Raised is move_task's ValueError escaping. */
  datatype Step = Step(state: PipelineState, files: map<QueueFile, string>, reply: Reply)

  function Unexpected(st: PipelineState): Reply
  {
    Failure("Unexpected state: " + StatusName(st.status))
  }

  /** The fields every failure sets. */
  function Failing(st: PipelineState, message: string): PipelineState
  {
    st.(status := Failed, failedTask := st.currentTaskId, errorMessage := Some(message))
  }

  /** move_task of the current task; a missing id matches no task, so the move fails. */
  function MoveCurrent(files: map<QueueFile, string>, id: Option<string>, from: QueueFile, to: QueueFile,
                       updates: seq<Update>, readFrom: Draw, readTo: Draw): Option<Moved>
  {
    if id.None? then None else Move(files, id.value, from, to, updates, readFrom, readTo)
  }

  function StartedAt(now: string): seq<Update>
  {
    [Update("started_at", Some(now))]
  }

  function BlockedFor(reason: string): seq<Update>
  {
    [Update("blocked_reason", Some(reason))]
  }

  function Finished(now: string): seq<Update>
  {
    [Update("completed_at", Some(now)), Update("result", Some("Implemented and verified automatically"))]
  }

  /** after_preflight's update sets the start time and nothing else. */
  lemma StartedAtSets(t: Task, now: string)
    ensures ApplyUpdates(t, StartedAt(now)) == t.(startedAt := Some(now))
  {
    assert StartedAt(now)[..0] == [];
    assert AttrOf("started_at") == Some(AttrStartedAt);
  }

  /** Blocking sets the reason and nothing else. */
  lemma BlockedForSets(t: Task, reason: string)
    ensures ApplyUpdates(t, BlockedFor(reason)) == t.(blockedReason := Some(reason))
  {
    assert BlockedFor(reason)[..0] == [];
    assert AttrOf("blocked_reason") == Some(AttrBlockedReason);
  }

  /** Completion sets the completion time and the result, and nothing else. */
  lemma FinishedSets(t: Task, now: string)
    ensures ApplyUpdates(t, Finished(now))
         == t.(completedAt := Some(now), result := Some("Implemented and verified automatically"))
  {
    var u, v := Update("completed_at", Some(now)), Update("result", Some("Implemented and verified automatically"));
    ApplyTwo(t, u, v);
    assert AttrOf(u.key) == Some(AttrCompletedAt);
    assert AttrOf(v.key) == Some(AttrResult);
  }

  /**
   * The k-th parse_tasks call of an entry point draws `draw(k)`: the ids it
   * gives tasks without one, and today's date.
   */
  type Draws = nat -> Draw

  /** start_batch */
  function StartBatchStep(st: PipelineState, files: map<QueueFile, string>, now: string, draw: Draws): Step
  {
    if st.status !in {Idle, Status.Done, Failed} then
      Step(st, files, Skip("Pipeline already in progress: " + StatusName(st.status), st.currentTaskId))
    else
      var tasks := Approved(Read(files, Backlog, draw(0)));
      if tasks == [] then Step(st, files, Skip("No approved tasks (P0/P1) in backlog", None))
      else
        var t := tasks[0];
        Step(st.(status := Preflight, currentTaskId := Some(t.id), currentTaskTitle := Some(t.title),
                 project := Some(t.project), verifyAttempts := 0, implSessionKey := None,
                 verifySessionKey := None, batchStartedAt := Some(now), completedTasks := [],
                 failedTask := None, errorMessage := None),
             files, StartPreflight(t, ConfigOf(t.project).repoPath))
  }

  /** after_preflight */
  function AfterPreflightStep(st: PipelineState, files: map<QueueFile, string>, success: bool,
                              error: Option<string>, now: string, draw: Draws): Step
  {
    if st.status != Preflight then Step(st, files, Unexpected(st))
    else if !success then
      var message := OrElse(error, "Preflight failed");
      Step(Failing(st, message), files, Stop(message, st.currentTaskId))
    else
      var m := MoveCurrent(files, st.currentTaskId, Backlog, InProgress, StartedAt(now), draw(0), draw(1));
      if m.None? then Step(st, files, Raised)
      else
        var st' := st.(status := Implementing);
        var t := FirstWith(Read(m.value.files, InProgress, draw(2)), st.currentTaskId);
        if t.None? then
          Step(st', m.value.files, Failure("Task " + Show(st.currentTaskId) + " not found in IN_PROGRESS"))
        else Step(st', m.value.files, Implement(t.value, ConfigOf(t.value.project).repoPath, None))
  }

  /** The saved failure, then the move of the current task to Blocked with the reason. */
  function BlockStep(st: PipelineState, files: map<QueueFile, string>, reason: string,
                     replyId: Option<string>, readFrom: Draw, readTo: Draw): Step
  {
    var m := MoveCurrent(files, st.currentTaskId, InProgress, Blocked, BlockedFor(reason), readFrom, readTo);
    if m.None? then Step(st, files, Raised) else Step(st, m.value.files, Stop(reason, replyId))
  }

  /** A move to Blocked leaves the state as it was given. */
  lemma BlockStepKeeps(st: PipelineState, files: map<QueueFile, string>, reason: string,
                       replyId: Option<string>, readFrom: Draw, readTo: Draw)
    ensures BlockStep(st, files, reason, replyId, readFrom, readTo).state == st
  {
  }

  /** after_implementation */
  function AfterImplementationStep(st: PipelineState, files: map<QueueFile, string>, success: bool,
                                   sessionKey: Option<string>, error: Option<string>, draw: Draws): Step
  {
    if st.status != Implementing then Step(st, files, Unexpected(st))
    else if !success then
      var message := OrElse(error, "Implementation failed");
      BlockStep(Failing(st, message), files, message, st.currentTaskId, draw(0), draw(1))
    else
      var st' := st.(implSessionKey := sessionKey, status := Verifying, verifyAttempts := 1);
      var t := FirstWith(Read(files, InProgress, draw(0)), st.currentTaskId);
      if t.None? then
        Step(st', files, Failure("Task " + Show(st.currentTaskId) + " not found in IN_PROGRESS"))
      else
        var repo := ConfigOf(t.value.project).repoPath;
        Step(st', files, Verify(t.value, 1, repo, PreVerify(repo)))
  }

  function VerificationFailure(max: int): string
  {
    "Verification failed after " + IntToString(max) + " attempts"
  }

  lemma ThreeAttempts()
    ensures VerificationFailure(MaxVerifyAttempts) == "Verification failed after 3 attempts"
  {
    assert IntToString(3) == "3";
  }

  /** after_verification, for the verdicts "clean", "changes_made" and anything else. */
  function AfterVerificationStep(st: PipelineState, files: map<QueueFile, string>, verdict: string,
                                 sessionKey: Option<string>, draw: Draws): Step
  {
    if st.status != Verifying then Step(st, files, Unexpected(st))
    else
      var found := FirstWith(Read(files, InProgress, draw(0)), st.currentTaskId);
      if found.None? then Step(st, files, Failure("Task " + Show(st.currentTaskId) + " not found"))
      else VerdictStep(st.(verifySessionKey := sessionKey), files, found.value, verdict, draw)
  }

  /** The part of after_verification that acts on the verdict for the task found. */
  function VerdictStep(st: PipelineState, files: map<QueueFile, string>, t: Task, verdict: string,
                       draw: Draws): Step
  {
    var repo := ConfigOf(t.project).repoPath;
    if verdict == "clean" then
      Step(st.(status := Committing), files, Commit(t, CommitMessage(t), CommitCommands(t, repo)))
    else if verdict == "changes_made" && st.verifyAttempts < st.maxVerifyAttempts then
      var st' := st.(verifyAttempts := st.verifyAttempts + 1);
      Step(st', files, Verify(t, st'.verifyAttempts, repo, PreVerify(repo)))
    else
      var reason := if verdict == "changes_made" then VerificationFailure(st.maxVerifyAttempts)
                    else "Verification found blocking issues";
      BlockStep(Failing(st, reason), files, reason, Some(t.id), draw(1), draw(2))
  }

  /** after_commit */
  function AfterCommitStep(st: PipelineState, files: map<QueueFile, string>, success: bool,
                           error: Option<string>, now: string, draw: Draws): Step
  {
    if st.status != Committing then Step(st, files, Unexpected(st))
    else if !success then
      var message := OrElse(error, "Commit failed");
      Step(Failing(st, message), files, Stop(message, None))
    else
      var m := MoveCurrent(files, st.currentTaskId, InProgress, QueueFile.Done, Finished(now), draw(0), draw(1));
      if m.None? then Step(st, files, Raised)
      else
        var done := st.completedTasks + [Completed(st.currentTaskId, st.currentTaskTitle)];
        NextTaskStep(st, done, m.value.files, now, draw)
  }

  /**
   * The end of after_commit, with `done` the completed list so far: start
   * the next approved task, or finish the batch. Nothing is saved when the
   * second move raises.
   */
  function NextTaskStep(st: PipelineState, done: seq<Completed>, files: map<QueueFile, string>,
                        now: string, draw: Draws): Step
  {
    var remaining := Approved(Read(files, Backlog, draw(2)));
    if remaining == [] then
      Step(st.(completedTasks := done, status := Status.Done), files, BatchComplete(done, st.batchStartedAt, now))
    else
      var t := remaining[0];
      var m := Move(files, t.id, Backlog, InProgress, StartedAt(now), draw(3), draw(4));
      if m.None? then Step(st, files, Raised)
      else
        Step(st.(completedTasks := done, status := Implementing, currentTaskId := Some(t.id),
                 currentTaskTitle := Some(t.title), project := Some(t.project), verifyAttempts := 0,
                 implSessionKey := None, verifySessionKey := None),
             m.value.files, Implement(t, ConfigOf(t.project).repoPath, Some(done)))
  }

  /** What check_uncommitted_work reports for a repository. */
  datatype Uncommitted = Uncommitted(hasChanges: bool, changedFiles: seq<string>)

  /** resume: whether there is partial work to continue, from the state, the queues and git. */
  function ResumeReply(st: PipelineState, files: map<QueueFile, string>, draw: Draws,
                       git: string -> Uncommitted): Reply
  {
    ResumeFrom(st, Read(files, InProgress, draw(0)), Read(files, Backlog, draw(1)), git)
  }

  /** The decision of resume, given the tasks read from the in-progress and backlog queues. */
  function ResumeFrom(st: PipelineState, inProgressTasks: seq<Task>, backlogTasks: seq<Task>,
                      git: string -> Uncommitted): Reply
  {
    if st.status in {Idle, Status.Done} || !Truthy(st.currentTaskId) then
      NoResume("No partial work (status: " + StatusName(st.status) + ")", false)
    else
      var inProgress := FirstWith(inProgressTasks, st.currentTaskId);
      var found := if inProgress.Some? then inProgress else FirstWith(backlogTasks, st.currentTaskId);
      if found.None? then NoResume("Task " + Show(st.currentTaskId) + " not found, resetting", true)
      else
        var repo := ConfigOf(found.value.project).repoPath;
        if repo.None? then NoResume("No repo path configured", false)
        else
          var work := git(repo.value);
          if !work.hasChanges then
            NoResume("State is " + StatusName(st.status) + " but no uncommitted changes found", false)
          else ResumeWork(found.value, st.status, work.changedFiles)
  }

  // ---------------------------------------------------------------------
  // What the steps promise
  // ---------------------------------------------------------------------

  /** Each after_* entry point refuses to run in any other status, and then saves and moves nothing. */
  lemma UnexpectedStateChangesNothing(st: PipelineState, files: map<QueueFile, string>, success: bool,
                                      error: Option<string>, sessionKey: Option<string>, verdict: string,
                                      now: string, draw: Draws)
    ensures st.status != Preflight ==>
      AfterPreflightStep(st, files, success, error, now, draw) == Step(st, files, Unexpected(st))
    ensures st.status != Implementing ==>
      AfterImplementationStep(st, files, success, sessionKey, error, draw) == Step(st, files, Unexpected(st))
    ensures st.status != Verifying ==>
      AfterVerificationStep(st, files, verdict, sessionKey, draw) == Step(st, files, Unexpected(st))
    ensures st.status != Committing ==>
      AfterCommitStep(st, files, success, error, now, draw) == Step(st, files, Unexpected(st))
  {
  }

  /**
   * start_batch moves no task. It starts a preflight exactly when the
   * pipeline is idle, done or failed and the backlog holds a P0 or P1 task,
   * and then for the first such task in backlog order, with a fresh batch
   * record; otherwise it saves nothing.
   */
  lemma StartBatchPicks(st: PipelineState, files: map<QueueFile, string>, now: string, draw: Draws)
    returns (k: nat)
    ensures StartBatchStep(st, files, now, draw).files == files
    ensures StartBatchStep(st, files, now, draw).reply.StartPreflight?
        <==> st.status in {Idle, Status.Done, Failed}
             && exists t :: t in Read(files, Backlog, draw(0)) && IsApproved(t)
    ensures !StartBatchStep(st, files, now, draw).reply.StartPreflight? ==>
      StartBatchStep(st, files, now, draw).state == st
    ensures var s := StartBatchStep(st, files, now, draw).state;
      var backlog := Read(files, Backlog, draw(0));
      StartBatchStep(st, files, now, draw).reply.StartPreflight? ==>
        && k < |backlog| && IsApproved(backlog[k]) && (forall j :: 0 <= j < k ==> !IsApproved(backlog[j]))
        && s.status == Preflight && s.currentTaskId == Some(backlog[k].id)
        && s.currentTaskTitle == Some(backlog[k].title) && s.project == Some(backlog[k].project)
        && s.verifyAttempts == 0 && s.completedTasks == [] && s.batchStartedAt == Some(now)
        && s.implSessionKey.None? && s.verifySessionKey.None? && s.failedTask.None? && s.errorMessage.None?
  {
    var backlog := Read(files, Backlog, draw(0));
    ApprovedMembers(backlog);
    k := 0;
    if st.status in {Idle, Status.Done, Failed} && Approved(backlog) != [] {
      k := ApprovedFirst(backlog);
      assert Approved(backlog)[0] in Approved(backlog);
    }
  }

  /** Whatever a move does to the tasks, it keeps the id of the task it found. */
  lemma MovedId(files: map<QueueFile, string>, id: string, from: QueueFile, to: QueueFile,
                updates: seq<Update>, readFrom: Draw, readTo: Draw)
    requires Move(files, id, from, to, updates, readFrom, readTo).Some?
    requires forall i :: 0 <= i < |updates| ==> updates[i].key != "id"
    ensures Move(files, id, from, to, updates, readFrom, readTo).value.task.id == id
  {
    var src := Read(files, from, readFrom);
    var k := LastWithIndex(src, id);
    ApplyUpdatesGet(src[k], updates, AttrId);
    NotSetHere(updates, AttrId);
  }

  /** An attribute no update names keeps its value. */
  lemma {:induction false} NotSetHere(us: seq<Update>, a: Attr)
    requires forall i :: 0 <= i < |us| ==> us[i].key != AttrName(a)
    ensures LastSet(us, a).None?
  {
    if us != [] {
      NotSetHere(us[..|us| - 1], a);
    }
  }

  /**
   * On well-formed queues the task after_preflight moves is found again in
   * In-Progress, so the reply is the implementation of that task, which
   * now carries its start time; the not-found error cannot happen.
   */
  lemma PreflightFindsTask(st: PipelineState, files: map<QueueFile, string>, error: Option<string>,
                           now: string, draw: Draws)
    requires st.status == Preflight && st.currentTaskId.Some?
    requires Move(files, st.currentTaskId.value, Backlog, InProgress, StartedAt(now), draw(0), draw(1)).Some?
    requires forall t :: t in Read(files, InProgress, draw(1)) ==> WellFormed(t)
    requires WellFormed(Move(files, st.currentTaskId.value, Backlog, InProgress, StartedAt(now), draw(0), draw(1)).value.task)
    ensures var m := Move(files, st.currentTaskId.value, Backlog, InProgress, StartedAt(now), draw(0), draw(1)).value;
      && m.task.startedAt == Some(now)
      && AfterPreflightStep(st, files, true, error, now, draw)
         == Step(st.(status := Implementing), m.files, Implement(m.task, ConfigOf(m.task.project).repoPath, None))
  {
    var id := st.currentTaskId.value;
    var m := Move(files, id, Backlog, InProgress, StartedAt(now), draw(0), draw(1)).value;
    var src := Read(files, Backlog, draw(0));
    var k := LastWithIndex(src, id);
    StartedAtSets(src[k], now);
    assert m.task == src[k].(startedAt := Some(now));
    MoveReadTarget(files, id, Backlog, InProgress, StartedAt(now), draw(0), draw(1), draw(2));
    var ts := Read(m.files, InProgress, draw(2));
    assert ts[0] == m.task && m.task.id == id;
    assert FirstWith(ts, st.currentTaskId) == Some(m.task);
  }

  /** start_batch keeps the state sane, and so does reset, which saves the initial state. */
  lemma StartBatchSane(st: PipelineState, files: map<QueueFile, string>, now: string, draw: Draws)
    requires Sane(st)
    ensures Sane(StartBatchStep(st, files, now, draw).state)
    ensures Sane(Initial)
  {
  }

  lemma AfterPreflightSane(st: PipelineState, files: map<QueueFile, string>, success: bool,
                           error: Option<string>, now: string, draw: Draws)
    requires Sane(st)
    ensures Sane(AfterPreflightStep(st, files, success, error, now, draw).state)
  {
  }

  lemma AfterImplementationSane(st: PipelineState, files: map<QueueFile, string>, success: bool,
                                sessionKey: Option<string>, error: Option<string>, draw: Draws)
    requires Sane(st)
    ensures Sane(AfterImplementationStep(st, files, success, sessionKey, error, draw).state)
  {
  }

  lemma AfterVerificationSane(st: PipelineState, files: map<QueueFile, string>, verdict: string,
                              sessionKey: Option<string>, draw: Draws)
    requires Sane(st)
    ensures Sane(AfterVerificationStep(st, files, verdict, sessionKey, draw).state)
  {
    var s := AfterVerificationStep(st, files, verdict, sessionKey, draw);
    if st.status == Verifying {
      var st1 := st.(verifySessionKey := sessionKey);
      var found := FirstWith(Read(files, InProgress, draw(0)), st.currentTaskId);
      if found.Some? && verdict != "clean" && !(verdict == "changes_made" && st1.verifyAttempts < st1.maxVerifyAttempts) {
        var reason := if verdict == "changes_made" then VerificationFailure(st1.maxVerifyAttempts)
                      else "Verification found blocking issues";
        BlockStepKeeps(Failing(st1, reason), files, reason, Some(found.value.id), draw(1), draw(2));
        assert s.state == Failing(st1, reason);
      }
    }
  }

  lemma AfterCommitSane(st: PipelineState, files: map<QueueFile, string>, success: bool,
                        error: Option<string>, now: string, draw: Draws)
    requires Sane(st)
    ensures Sane(AfterCommitStep(st, files, success, error, now, draw).state)
  {
    if st.status == Committing && success {
      var m := MoveCurrent(files, st.currentTaskId, InProgress, QueueFile.Done, Finished(now), draw(0), draw(1));
      if m.Some? {
        var done := st.completedTasks + [Completed(st.currentTaskId, st.currentTaskTitle)];
        NextTaskSane(st, done, m.value.files, now, draw);
      }
    }
  }

  lemma NextTaskSane(st: PipelineState, done: seq<Completed>, files: map<QueueFile, string>, now: string, draw: Draws)
    requires Sane(st)
    ensures Sane(NextTaskStep(st, done, files, now, draw).state)
  {
  }

  /**
   * A "changes_made" verdict asks for another verification while fewer
   * than three have been made, and after the third fails the task with
   * "Verification failed after 3 attempts".
   */
  lemma VerificationRetries(st: PipelineState, files: map<QueueFile, string>, sessionKey: Option<string>,
                            draw: Draws)
    requires Sane(st) && st.status == Verifying && st.verifyAttempts < 3
    requires FirstWith(Read(files, InProgress, draw(0)), st.currentTaskId).Some?
    ensures var s := AfterVerificationStep(st, files, "changes_made", sessionKey, draw);
      && s.state.status == Verifying && s.state.verifyAttempts == st.verifyAttempts + 1 <= 3
      && s.reply.Verify? && s.reply.attempt == s.state.verifyAttempts && s.files == files
  {
    assert "changes_made" != "clean";
  }

  lemma VerificationGivesUp(st: PipelineState, files: map<QueueFile, string>, sessionKey: Option<string>,
                            draw: Draws)
    requires Sane(st) && st.status == Verifying && st.verifyAttempts == 3
    requires FirstWith(Read(files, InProgress, draw(0)), st.currentTaskId).Some?
    ensures var s := AfterVerificationStep(st, files, "changes_made", sessionKey, draw);
      && s.state.status == Failed && s.state.failedTask == st.currentTaskId
      && s.state.errorMessage == Some("Verification failed after 3 attempts")
      && (s.reply.Stop? || s.reply.Raised?)
    ensures var s := AfterVerificationStep(st, files, "changes_made", sessionKey, draw);
      var t := FirstWith(Read(files, InProgress, draw(0)), st.currentTaskId).value;
      var reason := "Verification failed after 3 attempts";
      var m := MoveCurrent(files, st.currentTaskId, InProgress, Blocked, BlockedFor(reason), draw(1), draw(2));
      && (m.None? ==> s.reply == Raised && s.files == files)
      && (m.Some? ==>
            && s.reply == Stop(reason, Some(t.id)) && s.files == m.value.files
            && Some(m.value.task.id) == st.currentTaskId && m.value.task.blockedReason == Some(reason))
  {
    ThreeAttempts();
    var t := FirstWith(Read(files, InProgress, draw(0)), st.currentTaskId).value;
    assert "changes_made" != "clean";
    VerdictOutcome(st, files, "changes_made", sessionKey, draw);
    VerdictFails(st.(verifySessionKey := sessionKey), files, t, "changes_made", draw);
  }

  /**
   * after_verification: a task missing from In-Progress is reported and
   * nothing is saved; otherwise the session key is recorded and the verdict
   * acts on the task found (VerdictProceeds, VerdictFails).
   */
  lemma VerdictOutcome(st: PipelineState, files: map<QueueFile, string>, verdict: string,
                       sessionKey: Option<string>, draw: Draws)
    requires st.status == Verifying
    ensures var s := AfterVerificationStep(st, files, verdict, sessionKey, draw);
      var found := FirstWith(Read(files, InProgress, draw(0)), st.currentTaskId);
      && (found.None? ==> s == Step(st, files, Failure("Task " + Show(st.currentTaskId) + " not found")))
      && (found.Some? ==> s == VerdictStep(st.(verifySessionKey := sessionKey), files, found.value, verdict, draw))
      && (found.Some? ==> Some(found.value.id) == st.currentTaskId)
  {
    var src := Read(files, InProgress, draw(0));
    FirstWithNone(src, st.currentTaskId);
    if FirstWith(src, st.currentTaskId).Some? {
      var k := FirstWithIndex(src, st.currentTaskId);
    }
  }

  /** The verdicts that go on: "clean" to committing, "changes_made" below the limit to one more verification. */
  lemma VerdictProceeds(st: PipelineState, files: map<QueueFile, string>, t: Task, verdict: string, draw: Draws)
    requires verdict == "clean" || (verdict == "changes_made" && st.verifyAttempts < st.maxVerifyAttempts)
    ensures var s := VerdictStep(st, files, t, verdict, draw);
      var repo := ConfigOf(t.project).repoPath;
      && (verdict == "clean" ==> s == Step(st.(status := Committing), files, Commit(t, CommitMessage(t), CommitCommands(t, repo))))
      && (verdict != "clean" ==>
            s == Step(st.(verifyAttempts := st.verifyAttempts + 1), files,
                      Verify(t, st.verifyAttempts + 1, repo, PreVerify(repo))))
  {
  }

  /** The failing verdicts: the batch fails with the reason and the task is blocked with it. */
  lemma VerdictFails(st: PipelineState, files: map<QueueFile, string>, t: Task, verdict: string, draw: Draws)
    requires verdict != "clean" && !(verdict == "changes_made" && st.verifyAttempts < st.maxVerifyAttempts)
    ensures var s := VerdictStep(st, files, t, verdict, draw);
      var reason := if verdict == "changes_made" then VerificationFailure(st.maxVerifyAttempts)
                    else "Verification found blocking issues";
      var m := MoveCurrent(files, st.currentTaskId, InProgress, Blocked, BlockedFor(reason), draw(1), draw(2));
      && s.state == Failing(st, reason)
      && (m.None? ==> s.reply == Raised && s.files == files)
      && (m.Some? ==>
            && s.reply == Stop(reason, Some(t.id)) && s.files == m.value.files
            && Some(m.value.task.id) == st.currentTaskId && m.value.task.blockedReason == Some(reason))
  {
    var reason := if verdict == "changes_made" then VerificationFailure(st.maxVerifyAttempts)
                  else "Verification found blocking issues";
    assert VerdictStep(st, files, t, verdict, draw)
        == BlockStep(Failing(st, reason), files, reason, Some(t.id), draw(1), draw(2));
    BlockStepKeeps(Failing(st, reason), files, reason, Some(t.id), draw(1), draw(2));
    var m := MoveCurrent(files, st.currentTaskId, InProgress, Blocked, BlockedFor(reason), draw(1), draw(2));
    if m.Some? {
      var id := st.currentTaskId.value;
      var src := Read(files, InProgress, draw(1));
      var k := LastWithIndex(src, id);
      BlockedForSets(src[k], reason);
      assert BlockedFor(reason)[0].key != "id";
      MovedId(files, id, InProgress, Blocked, BlockedFor(reason), draw(1), draw(2));
    }
  }

  /**
   * after_preflight: a failed preflight fails the batch with the error (or
   * "Preflight failed"), names the current task as the failed one, and
   * moves nothing, so the task stays in the backlog.
   */
  lemma PreflightFails(st: PipelineState, files: map<QueueFile, string>, error: Option<string>,
                       now: string, draw: Draws)
    requires st.status == Preflight
    ensures var s := AfterPreflightStep(st, files, false, error, now, draw);
      var message := OrElse(error, "Preflight failed");
      && s.state == st.(status := Failed, failedTask := st.currentTaskId, errorMessage := Some(message))
      && s.files == files
      && s.reply == Stop(message, st.currentTaskId)
  {
  }

  /**
   * after_implementation: a failure fails the batch with the error (or
   * "Implementation failed") and blocks the current task with that reason;
   * a success records the session key and starts the first verification,
   * moving nothing.
   */
  lemma ImplementationOutcome(st: PipelineState, files: map<QueueFile, string>, success: bool,
                              sessionKey: Option<string>, error: Option<string>, draw: Draws)
    requires st.status == Implementing
    ensures var s := AfterImplementationStep(st, files, success, sessionKey, error, draw);
      var message := OrElse(error, "Implementation failed");
      var m := MoveCurrent(files, st.currentTaskId, InProgress, Blocked, BlockedFor(message), draw(0), draw(1));
      && (success ==> s.state == st.(implSessionKey := sessionKey, status := Verifying, verifyAttempts := 1)
                      && s.files == files)
      && (!success ==> s.state == Failing(st, message))
      && (!success && m.None? ==> s.reply == Raised && s.files == files)
      && (!success && m.Some? ==>
            && s.reply == Stop(message, st.currentTaskId) && s.files == m.value.files
            && Some(m.value.task.id) == st.currentTaskId && m.value.task.blockedReason == Some(message))
  {
    var message := OrElse(error, "Implementation failed");
    if !success {
      var s := AfterImplementationStep(st, files, success, sessionKey, error, draw);
      assert s == BlockStep(Failing(st, message), files, message, st.currentTaskId, draw(0), draw(1));
      BlockStepKeeps(Failing(st, message), files, message, st.currentTaskId, draw(0), draw(1));
      var m := MoveCurrent(files, st.currentTaskId, InProgress, Blocked, BlockedFor(message), draw(0), draw(1));
      if m.Some? {
        var id := st.currentTaskId.value;
        var src := Read(files, InProgress, draw(0));
        var k := LastWithIndex(src, id);
        BlockedForSets(src[k], message);
        assert BlockedFor(message)[0].key != "id";
        MovedId(files, id, InProgress, Blocked, BlockedFor(message), draw(0), draw(1));
      }
    }
  }

  /**
   * after_commit: a failure fails the batch and leaves the task in
   * In-Progress; a success moves the current task to Done with its
   * completion time and result, and goes on with the completed list grown
   * by that task.
   */
  lemma CommitOutcome(st: PipelineState, files: map<QueueFile, string>, success: bool,
                      error: Option<string>, now: string, draw: Draws)
    requires st.status == Committing
    ensures var s := AfterCommitStep(st, files, success, error, now, draw);
      var message := OrElse(error, "Commit failed");
      var m := MoveCurrent(files, st.currentTaskId, InProgress, QueueFile.Done, Finished(now), draw(0), draw(1));
      var done := st.completedTasks + [Completed(st.currentTaskId, st.currentTaskTitle)];
      && (!success ==> s == Step(Failing(st, message), files, Stop(message, None)))
      && (success && m.None? ==> s == Step(st, files, Raised))
      && (success && m.Some? ==>
            && Some(m.value.task.id) == st.currentTaskId
            && m.value.task.completedAt == Some(now)
            && m.value.task.result == Some("Implemented and verified automatically")
            && s == NextTaskStep(st, done, m.value.files, now, draw))
  {
    var m := MoveCurrent(files, st.currentTaskId, InProgress, QueueFile.Done, Finished(now), draw(0), draw(1));
    if success && m.Some? {
      FinishedMove(files, st.currentTaskId.value, InProgress, QueueFile.Done, now, draw(0), draw(1));
    }
  }

  /** The task a completing move finds keeps its id and gets the completion time and the result. */
  lemma FinishedMove(files: map<QueueFile, string>, id: string, from: QueueFile, to: QueueFile, now: string,
                     readFrom: Draw, readTo: Draw)
    requires Move(files, id, from, to, Finished(now), readFrom, readTo).Some?
    ensures var t := Move(files, id, from, to, Finished(now), readFrom, readTo).value.task;
      t.id == id && t.completedAt == Some(now) && t.result == Some("Implemented and verified automatically")
  {
    var src := Read(files, from, readFrom);
    var k := LastWithIndex(src, id);
    assert Move(files, id, from, to, Finished(now), readFrom, readTo).value.task == ApplyUpdates(src[k], Finished(now));
    FinishedSets(src[k], now);
  }

  /**
   * The end of after_commit: the batch is complete exactly when the
   * backlog holds no approved task; otherwise the first approved task is
   * moved to In-Progress and becomes the current task, with the attempt
   * count and the session keys cleared. When that move raises nothing is
   * saved.
   */
  lemma NextTaskOutcome(st: PipelineState, done: seq<Completed>, files: map<QueueFile, string>,
                        now: string, draw: Draws) returns (k: nat)
    ensures var s := NextTaskStep(st, done, files, now, draw);
      var backlog := Read(files, Backlog, draw(2));
      && (s.reply.BatchComplete? || s.reply.Raised? || s.reply.Implement?)
      && (s.reply.BatchComplete? <==> forall t :: t in backlog ==> !IsApproved(t))
      && (s.reply.BatchComplete? ==> s.state == st.(completedTasks := done, status := Status.Done) && s.files == files)
      && (s.reply.Raised? ==> s.state == st && s.files == files)
      && (s.reply.Implement? ==>
            && k < |backlog| && IsApproved(backlog[k]) && (forall j :: 0 <= j < k ==> !IsApproved(backlog[j]))
            && s.reply.task == backlog[k]
            && s.state.status == Implementing && s.state.currentTaskId == Some(backlog[k].id)
            && s.state.completedTasks == done && s.state.verifyAttempts == 0
            && s.state.implSessionKey.None? && s.state.verifySessionKey.None?
            && s.files == Move(files, backlog[k].id, Backlog, InProgress, StartedAt(now), draw(3), draw(4)).value.files)
  {
    var backlog := Read(files, Backlog, draw(2));
    ApprovedMembers(backlog);
    if Approved(backlog) != [] {
      k := ApprovedFirst(backlog);
      assert Approved(backlog)[0] in Approved(backlog);
    } else {
      k := 0;
    }
  }

  /**
   * resume continues work only on a batch in progress whose task is still
   * queued (in progress first, else the backlog), whose project has a
   * repository, and where git reports changes; it asks for a reset exactly
   * when the task is queued nowhere.
   */
  lemma ResumeSpec(st: PipelineState, inProgress: seq<Task>, backlog: seq<Task>, git: string -> Uncommitted)
    ensures var r := ResumeFrom(st, inProgress, backlog, git);
      && (r.NoResume? || r.ResumeWork?)
      && (st.status in {Idle, Status.Done} || !Truthy(st.currentTaskId) ==> r.NoResume? && !r.autoReset)
      && (r.NoResume? && r.autoReset <==>
            && st.status !in {Idle, Status.Done} && Truthy(st.currentTaskId)
            && (forall t :: t in inProgress ==> Some(t.id) != st.currentTaskId)
            && (forall t :: t in backlog ==> Some(t.id) != st.currentTaskId))
      && (r.ResumeWork? ==>
            && st.status !in {Idle, Status.Done} && r.previous == st.status
            && Some(r.task.id) == st.currentTaskId
            && (r.task in inProgress || r.task in backlog)
            && ConfigOf(r.task.project).repoPath.Some?
            && git(ConfigOf(r.task.project).repoPath.value) == Uncommitted(true, r.changedFiles))
      && (st.status !in {Idle, Status.Done} && Truthy(st.currentTaskId) ==>
            var first := FirstWith(inProgress, st.currentTaskId);
            var found := if first.Some? then first else FirstWith(backlog, st.currentTaskId);
            && (r.ResumeWork? ==> found == Some(r.task))
            && (found.Some? && ConfigOf(found.value.project).repoPath.None? ==>
                  r == NoResume("No repo path configured", false))
            && (found.Some? && ConfigOf(found.value.project).repoPath.Some? ==>
                  var work := git(ConfigOf(found.value.project).repoPath.value);
                  && (!work.hasChanges ==> r.NoResume? && !r.autoReset)
                  && (work.hasChanges ==> r == ResumeWork(found.value, st.status, work.changedFiles))))
  {
    var id := st.currentTaskId;
    FirstWithNone(inProgress, id);
    FirstWithNone(backlog, id);
    if FirstWith(inProgress, id).Some? {
      var k := FirstWithIndex(inProgress, id);
    } else if FirstWith(backlog, id).Some? {
      var k := FirstWithIndex(backlog, id);
    }
  }

  // ---------------------------------------------------------------------
  // The controller
  // ---------------------------------------------------------------------

  /**
   * The pipeline: the persisted state and the task queues. Each method is
   * one entry point of dev_orchestrator.py; a local copy of the state is
   * the loaded PipelineState, and assigning it to `state` is a save.
   */
  class Orchestrator {
    var state: PipelineState
    const store: TaskStore

    constructor (initial: PipelineState, store: TaskStore)
      ensures state == initial && this.store == store
    {
      state := initial;
      this.store := store;
    }

    /** start_batch: picks the first approved task and enters preflight; no task moves. */
    method StartBatch(now: string, draw: Draws) returns (r: Reply)
      modifies this
      ensures var s := StartBatchStep(old(state), store.files, now, draw);
        state == s.state && store.files == s.files && r == s.reply
    {
      var st := state;
      if st.status !in {Idle, Status.Done, Failed} {
        return Skip("Pipeline already in progress: " + StatusName(st.status), st.currentTaskId);
      }
      var backlog := ParseTasks(Content(store.files, Backlog), draw(0).ids, draw(0).today);
      var tasks := Approved(backlog);
      if tasks == [] {
        return Skip("No approved tasks (P0/P1) in backlog", None);
      }
      var task := tasks[0];
      st := st.(status := Preflight);
      st := st.(currentTaskId := Some(task.id), currentTaskTitle := Some(task.title), project := Some(task.project));
      st := st.(verifyAttempts := 0, implSessionKey := None, verifySessionKey := None);
      st := st.(batchStartedAt := Some(now), completedTasks := [], failedTask := None, errorMessage := None);
      state := st;
      r := StartPreflight(task, ConfigOf(task.project).repoPath);
    }

    /** move_task on the current task id; there is nothing to move without one. */
    method MoveCurrentTask(id: Option<string>, from: QueueFile, to: QueueFile, updates: seq<Update>,
                           readFrom: Draw, readTo: Draw) returns (r: Option<Task>)
      modifies store
      ensures var m := MoveCurrent(old(store.files), id, from, to, updates, readFrom, readTo);
        && (m.None? ==> r.None? && store.files == old(store.files))
        && (m.Some? ==> r == Some(m.value.task) && store.files == m.value.files)
    {
      if id.None? {
        return None;
      }
      r := store.MoveTask(id.value, from, to, updates, readFrom, readTo);
    }

    /** after_preflight */
    method AfterPreflight(success: bool, error: Option<string>, now: string, draw: Draws) returns (r: Reply)
      modifies this, store
      ensures var s := AfterPreflightStep(old(state), old(store.files), success, error, now, draw);
        state == s.state && store.files == s.files && r == s.reply
    {
      var st := state;
      if st.status != Preflight {
        return Unexpected(st);
      }
      if !success {
        var message := OrElse(error, "Preflight failed");
        st := Failing(st, message);
        state := st;
        return Stop(message, st.currentTaskId);
      }
      var moved := MoveCurrentTask(st.currentTaskId, Backlog, InProgress, StartedAt(now), draw(0), draw(1));
      if moved.None? {
        return Raised;
      }
      st := st.(status := Implementing);
      state := st;
      var tasks := ParseTasks(Content(store.files, InProgress), draw(2).ids, draw(2).today);
      var task := FirstWith(tasks, st.currentTaskId);
      if task.None? {
        return Failure("Task " + Show(st.currentTaskId) + " not found in IN_PROGRESS");
      }
      r := Implement(task.value, ConfigOf(task.value.project).repoPath, None);
    }

    /** After a failure has been saved: move the current task to Blocked with the reason. */
    method BlockCurrent(reason: string, replyId: Option<string>, readFrom: Draw, readTo: Draw) returns (r: Reply)
      modifies store
      ensures var s := BlockStep(state, old(store.files), reason, replyId, readFrom, readTo);
        store.files == s.files && r == s.reply
    {
      var moved := MoveCurrentTask(state.currentTaskId, InProgress, Blocked, BlockedFor(reason), readFrom, readTo);
      if moved.None? {
        return Raised;
      }
      r := Stop(reason, replyId);
    }

    /** after_implementation */
    method AfterImplementation(success: bool, sessionKey: Option<string>, error: Option<string>, draw: Draws)
      returns (r: Reply)
      modifies this, store
      ensures var s := AfterImplementationStep(old(state), old(store.files), success, sessionKey, error, draw);
        state == s.state && store.files == s.files && r == s.reply
    {
      var st := state;
      if st.status != Implementing {
        return Unexpected(st);
      }
      if !success {
        var message := OrElse(error, "Implementation failed");
        st := Failing(st, message);
        state := st;
        r := BlockCurrent(message, st.currentTaskId, draw(0), draw(1));
        return;
      }
      st := st.(implSessionKey := sessionKey);
      st := st.(status := Verifying);
      st := st.(verifyAttempts := 1);
      state := st;
      var tasks := ParseTasks(Content(store.files, InProgress), draw(0).ids, draw(0).today);
      var task := FirstWith(tasks, st.currentTaskId);
      if task.None? {
        return Failure("Task " + Show(st.currentTaskId) + " not found in IN_PROGRESS");
      }
      var repo := ConfigOf(task.value.project).repoPath;
      r := Verify(task.value, st.verifyAttempts, repo, PreVerify(repo));
    }

    /** after_verification */
    method AfterVerification(verdict: string, sessionKey: Option<string>, draw: Draws) returns (r: Reply)
      modifies this, store
      ensures var s := AfterVerificationStep(old(state), old(store.files), verdict, sessionKey, draw);
        state == s.state && store.files == s.files && r == s.reply
    {
      if state.status != Verifying {
        return Unexpected(state);
      }
      var tasks := ParseTasks(Content(store.files, InProgress), draw(0).ids, draw(0).today);
      var found := FirstWith(tasks, state.currentTaskId);
      if found.None? {
        return Failure("Task " + Show(state.currentTaskId) + " not found");
      }
      state := state.(verifySessionKey := sessionKey);
      r := ApplyVerdict(found.value, verdict, draw);
    }

    /** The verdict handling of after_verification, on the state with the session key recorded. */
    method ApplyVerdict(task: Task, verdict: string, draw: Draws) returns (r: Reply)
      modifies this, store
      ensures var s := VerdictStep(old(state), old(store.files), task, verdict, draw);
        state == s.state && store.files == s.files && r == s.reply
    {
      var st := state;
      var repo := ConfigOf(task.project).repoPath;
      if verdict == "clean" {
        state := st.(status := Committing);
        return Commit(task, CommitMessage(task), CommitCommands(task, repo));
      } else if verdict == "changes_made" && st.verifyAttempts < st.maxVerifyAttempts {
        state := st.(verifyAttempts := st.verifyAttempts + 1);
        return Verify(task, state.verifyAttempts, repo, PreVerify(repo));
      }
      var message := if verdict == "changes_made" then VerificationFailure(st.maxVerifyAttempts)
                     else "Verification found blocking issues";
      state := Failing(st, message);
      r := BlockCurrent(message, Some(task.id), draw(1), draw(2));
    }

    /** after_commit */
    method AfterCommit(success: bool, error: Option<string>, now: string, draw: Draws) returns (r: Reply)
      modifies this, store
      ensures var s := AfterCommitStep(old(state), old(store.files), success, error, now, draw);
        state == s.state && store.files == s.files && r == s.reply
    {
      var st := state;
      if st.status != Committing {
        return Unexpected(st);
      }
      if !success {
        var message := OrElse(error, "Commit failed");
        st := Failing(st, message);
        state := st;
        return Stop(message, None);
      }
      var moved := MoveCurrentTask(st.currentTaskId, InProgress, QueueFile.Done, Finished(now), draw(0), draw(1));
      if moved.None? {
        return Raised;
      }
      r := StartNext(st.completedTasks + [Completed(st.currentTaskId, st.currentTaskTitle)], now, draw);
    }

    /** The end of after_commit, on the state as loaded and the completed list so far. */
    method StartNext(done: seq<Completed>, now: string, draw: Draws) returns (r: Reply)
      modifies this, store
      ensures var s := NextTaskStep(old(state), done, old(store.files), now, draw);
        state == s.state && store.files == s.files && r == s.reply
    {
      var st := state.(completedTasks := done);
      var backlog := ParseTasks(Content(store.files, Backlog), draw(2).ids, draw(2).today);
      var remaining := Approved(backlog);
      if remaining != [] {
        var task := remaining[0];
        var moved := store.MoveTask(task.id, Backlog, InProgress, StartedAt(now), draw(3), draw(4));
        if moved.None? {
          return Raised;
        }
        st := st.(status := Implementing, currentTaskId := Some(task.id), currentTaskTitle := Some(task.title));
        st := st.(project := Some(task.project), verifyAttempts := 0);
        st := st.(implSessionKey := None, verifySessionKey := None);
        state := st;
        return Implement(task, ConfigOf(task.project).repoPath, Some(st.completedTasks));
      }
      st := st.(status := Status.Done);
      state := st;
      r := BatchComplete(st.completedTasks, st.batchStartedAt, now);
    }

    /** reset */
    method Reset() returns (r: Reply)
      modifies this
      ensures state == Initial && r == ResetDone
    {
      state := Initial;
      r := ResetDone;
    }

    /** resume: reads the state, the queues and git, and changes nothing. */
    method Resume(draw: Draws, git: string -> Uncommitted) returns (r: Reply)
      ensures r == ResumeReply(state, store.files, draw, git)
    {
      var st := state;
      if st.status in {Idle, Status.Done} || !Truthy(st.currentTaskId) {
        return NoResume("No partial work (status: " + StatusName(st.status) + ")", false);
      }
      var tasks := ParseTasks(Content(store.files, InProgress), draw(0).ids, draw(0).today);
      var task := FirstWith(tasks, st.currentTaskId);
      if task.None? {
        tasks := ParseTasks(Content(store.files, Backlog), draw(1).ids, draw(1).today);
        task := FirstWith(tasks, st.currentTaskId);
      }
      if task.None? {
        return NoResume("Task " + Show(st.currentTaskId) + " not found, resetting", true);
      }
      var repo := ConfigOf(task.value.project).repoPath;
      if repo.None? {
        return NoResume("No repo path configured", false);
      }
      var work := git(repo.value);
      if !work.hasChanges {
        return NoResume("State is " + StatusName(st.status) + " but no uncommitted changes found", false);
      }
      r := ResumeWork(task.value, st.status, work.changedFiles);
    }
  }
}
