/** The jobs behind the scripts of an update: the two models run together. */
module UpdateScripts {
  import opened UpdateTypes
  import opened UpdateStatus
  import opened UpdateFlow
  import opened YtsaurusClient
  import opened Controller
  import opened UpdateRun
  import opened UpdateSafety
  import opened MasterMaintenance
  import opened UpdateTheorems
  import J = InitJob

  /** The cluster with its update, and the job of the primary master. */
  datatype Joint = Joint(w: World, v: J.World)

  // ----- Steps -----

  /** Anything but the work of scripts; the job's conditions are cleared with the update. */
  ghost predicate OtherWork(j: Joint, j': Joint) {
    && (|| ControlStep(j.w, j'.w)
        || ClientTurn(j.w, j'.w)
        || (MasterTurn(j.w, j'.w) && !IsScript(j.w.status.update.state))
        || (exists c, value :: OtherTurn(j.w, j'.w, c, value))
        || StatusTurn(j.w, j'.w)
        || (exists health :: HealthTurn(j.w, j'.w, health))
        || TriggerTurn(j.w, j'.w)
        || (exists i :: DropTurn(j.w, j'.w, i))
        || OutsideTurn(j.w, j'.w))
    && (if InUpdate(j.w) && !InUpdate(j'.w) then J.NextUpdate(j.v, j'.v) else j'.v == j.v)
  }

  predicate IsComplete(v: J.World, u: UpdateState) {
    u in v.saved.complete && v.saved.complete[u]
  }

  /** The primary master calls for the script of the current state, and reports with the same save that it is complete. */
  ghost predicate CallWork(j: Joint, j': Joint, s: J.JobStatus) {
    var u := j.w.status.update.state;
    && j.w.status.state == Updating && IsScript(u) && J.UpdateCall(j.v, j'.v, s, u)
    && j'.w == if IsComplete(j'.v, u) then j.w.(status := MasterReport(j.w.status, u)) else j.w
  }

  /** Outside updates the job serves other purposes. */
  ghost predicate InitWork(j: Joint, j': Joint, s: J.JobStatus, name: string, ready: bool) {
    !InUpdate(j.w) && J.OtherCall(j.v, j'.v, s, name, ready) && j'.w == j.w
  }

  /** A script of an update is at work. */
  predicate AtWork(v: J.World) {
    v.objects.job.Some? && v.objects.job.value.phase == J.Active && v.objects.job.value.reason.ForUpdate?
  }

  /** What the running script does to the cluster, until it ends. */
  ghost predicate ScriptWork(j: Joint, j': Joint) {
    && AtWork(j.v)
    && (j'.v == j.v || J.JobRuns(j.v, j'.v))
    && j'.w == j.w.(
      yt := j.w.yt.(readOnly := j'.w.yt.readOnly),
      done := if j'.v.log == j.v.log then j.w.done else j.w.done + {j.v.objects.job.value.reason.state})
    && Acts(j.v.objects.job.value.reason.state, j.w.yt.readOnly, j'.w.yt.readOnly, j'.v.log != j.v.log)
  }

  /** Entering read-only sets it, leaving resets it, at the latest when the script completes; others leave it alone. */
  predicate Acts(x: UpdateState, before: bool, after: bool, completes: bool) {
    if EntersReadOnly(x) then after || (after == before && !completes)
    else if ExitsReadOnly(x) then !after || (after == before && !completes)
    else after == before
  }

  ghost predicate InitRuns(j: Joint, j': Joint) {
    !AtWork(j.v) && J.JobRuns(j.v, j'.v) && j'.w == j.w
  }

  ghost predicate JointStep(j: Joint, j': Joint) {
    || OtherWork(j, j')
    || (exists s :: CallWork(j, j', s))
    || (exists s, name, ready :: InitWork(j, j', s, name, ready))
    || ScriptWork(j, j')
    || InitRuns(j, j')
  }

  // ----- What holds of both -----

  /** A script of an update is at work only in its own state of the current update. */
  ghost predicate InPlace(j: Joint) {
    AtWork(j.v) ==>
      var job := j.v.objects.job.value;
      && j.w.status.state == Updating && job.reason.state == j.w.status.update.state && IsScript(job.reason.state)
      && job.born == j.v.update && job.reason.state in j.v.saved.complete
      && j.v.saved.Started(job.reason) && j.v.objects.config.Some?
  }

  /** Once done, the script of the current state rests. */
  ghost predicate AtRest(j: Joint) {
    var u := j.w.status.update.state;
    j.w.status.state == Updating && IsScript(u) && u in j.w.done ==>
      && u in j.v.saved.complete && j.v.saved.Started(J.ForUpdate(u))
      && j.v.objects.Exist() && j.v.objects.job.value.phase == J.Complete
  }

  /** What has run in this update is known to be done. */
  ghost predicate Logged(j: Joint) {
    && (forall x :: (J.ForUpdate(x), j.v.update) in j.v.log ==> InUpdate(j.w) && x in j.w.done)
    && (forall e :: e in j.v.log ==> e.1 <= j.v.update)
    && (j.v.objects.job.Some? ==> j.v.objects.job.value.born <= j.v.update)
  }

  /** Both models agree on which scripts are complete. */
  ghost predicate Agree(j: Joint) {
    if InUpdate(j.w) then forall x :: IsScript(x) ==> (Complete(j.w.status, x) <==> IsComplete(j.v, x))
    else j.v.saved.complete == map[]
  }

  ghost predicate JointInv(j: Joint) {
    InPlace(j) && AtRest(j) && Logged(j) && Agree(j) && J.Inv(j.v)
  }

  // ----- Calls -----

  /** A call in the current state is a step of the update, or none. */
  lemma CallIsStep(j: Joint, j': Joint, s: J.JobStatus)
    requires JointInv(j) && CallWork(j, j', s)
    ensures j'.w == j.w || MasterTurn(j.w, j'.w)
  {
    var u := j.w.status.update.state;
    J.RunsUpdateKeepsGood(j.v.saved, j.v.objects, s, j'.v.objects, u, j.v.update, j.v.log);
    if IsComplete(j'.v, u) {
      assert (J.ForUpdate(u), j.v.update) in j.v.log;
    }
  }

  /** What a call leaves of the job and of the condition. */
  ghost predicate CallLeaves(v: J.World, v': J.World, u: UpdateState) {
    && v'.update == v.update && v'.log == v.log
    && (forall x :: x != u ==> (IsComplete(v', x) <==> IsComplete(v, x)))
    && (IsComplete(v, u) ==> IsComplete(v', u))
    && (v'.objects.job == v.objects.job || v'.objects.job.None? ||
        (v'.objects.job == Some(J.Job(J.ForUpdate(u), v.update, J.Active)) && v'.objects.config.Some? &&
         u in v'.saved.complete && v'.saved.Started(J.ForUpdate(u))))
  }

  /** What a sync leaves of the job: the same, none, or a new one that was checkpointed before. */
  ghost predicate JobLeft(s: J.JobStatus, o: J.Objects, s': J.JobStatus, o': J.Objects, reason: J.Reason, update: nat) {
    && s'.complete == s.complete
    && (o'.job == o.job || o'.job.None? ||
        (o'.job == Some(J.Job(reason, update, J.Active)) && o'.config.Some? && s.Started(reason) && s'.Started(reason)))
  }

  lemma StartsLeave(s: J.JobStatus, o: J.Objects, s': J.JobStatus, o': J.Objects, reason: J.Reason, update: nat)
    requires J.Starts(s, o, s', o', reason, update)
    ensures JobLeft(s, o, s', o', reason, update)
  {
  }

  lemma SyncsLeave(s: J.JobStatus, o: J.Objects, s': J.JobStatus, o': J.Objects, reason: J.Reason, update: nat, ready: bool)
    requires J.Syncs(s, o, s', o', reason, update, ready)
    ensures JobLeft(s, o, s', o', reason, update)
  {
    if !ready && (!s.Started(reason) || !o.Exist() || o.job.value.phase == J.Failed) {
      StartsLeave(s, o, s', o', reason, update);
    }
  }

  lemma CallLeavesThat(v: J.World, v': J.World, s: J.JobStatus, u: UpdateState)
    requires J.UpdateCall(v, v', s, u)
    ensures CallLeaves(v, v', u)
  {
    var p := J.Prepared(v.saved, u);
    if J.Syncs(p, v.objects, s, v'.objects, J.ForUpdate(u), v.update, false) {
      SyncsLeave(p, v.objects, s, v'.objects, J.ForUpdate(u), v.update, false);
    } else if J.Syncs(p, v.objects, p, v'.objects, J.ForUpdate(u), v.update, true) {
      SyncsLeave(p, v.objects, p, v'.objects, J.ForUpdate(u), v.update, true);
    }
  }

  /** A job at work for the current state is left alone, and so is one that is complete. */
  lemma CallSparesJob(v: J.World, v': J.World, s: J.JobStatus, u: UpdateState)
    requires J.UpdateCall(v, v', s, u) && u in v.saved.complete && v.saved.Started(J.ForUpdate(u)) && v.objects.Exist()
    requires v.objects.job.value.phase != J.Failed
    ensures v'.objects == v.objects && u in v'.saved.complete && v'.saved.Started(J.ForUpdate(u))
  {
  }

  lemma CallKeepsAgreement(j: Joint, j': Joint, s: J.JobStatus)
    requires Agree(j) && CallWork(j, j', s)
    ensures Agree(j')
  {
    var u := j.w.status.update.state;
    CallLeavesThat(j.v, j'.v, s, u);
    forall x | IsScript(x) ensures Complete(j'.w.status, x) <==> IsComplete(j'.v, x) {
      ReportCompletes(j.w.status, u, x);
    }
  }

  lemma CallKeepsPlace(j: Joint, j': Joint, s: J.JobStatus)
    requires InPlace(j) && AtRest(j) && Logged(j) && CallWork(j, j', s)
    ensures InPlace(j') && AtRest(j') && Logged(j')
  {
    var u := j.w.status.update.state;
    CallLeavesThat(j.v, j'.v, s, u);
    if AtWork(j.v) || u in j.w.done {
      CallSparesJob(j.v, j'.v, s, u);
    }
  }

  lemma CallKeeps(j: Joint, j': Joint, s: J.JobStatus)
    requires JointInv(j) && CallWork(j, j', s)
    ensures JointInv(j')
  {
    CallKeepsAgreement(j, j', s);
    CallKeepsPlace(j, j', s);
    assert J.Step(j.v, j'.v);
    J.InvKept(j.v, j'.v);
  }

  // ----- Scripts -----

  /** What a script does is a step of the update. */
  lemma ScriptIsStep(j: Joint, j': Joint)
    requires JointInv(j) && ScriptWork(j, j')
    ensures ScriptTurn(j.w, j'.w)
  {
    var u := j.w.status.update.state;
    assert u !in j.w.done;
    if j'.v.log != j.v.log {
      assert u in j'.w.done;
    }
  }

  lemma ScriptKeeps(j: Joint, j': Joint)
    requires JointInv(j) && ScriptWork(j, j')
    ensures JointInv(j')
  {
    if j'.v != j.v {
      assert J.Step(j.v, j'.v);
      J.InvKept(j.v, j'.v);
    }
    assert forall x :: IsComplete(j'.v, x) <==> IsComplete(j.v, x);
  }

  lemma InitKeeps(j: Joint, j': Joint, s: J.JobStatus, name: string, ready: bool)
    requires JointInv(j) && InitWork(j, j', s, name, ready)
    ensures JointInv(j')
  {
    assert J.Step(j.v, j'.v);
    J.InvKept(j.v, j'.v);
  }

  lemma InitRunsKeeps(j: Joint, j': Joint)
    requires JointInv(j) && InitRuns(j, j')
    ensures JointInv(j')
  {
    assert J.Step(j.v, j'.v);
    J.InvKept(j.v, j'.v);
  }

  // ----- Everything else -----

  lemma OtherWorkIsStep(j: Joint, j': Joint)
    requires OtherWork(j, j')
    ensures Step(j.w, j'.w)
  {
  }

  /** Which scripts are complete, and in what place the update is, does not change. */
  ghost predicate LeavesScripts(w: World, w': World) {
    && w'.status.state == w.status.state && w'.status.update.state == w.status.update.state && w'.done == w.done
    && forall x :: IsScript(x) ==> (Complete(w'.status, x) <==> Complete(w.status, x))
  }

  lemma ClientLeavesScripts(w: World, w': World)
    requires ClientTurn(w, w')
    ensures LeavesScripts(w, w')
  {
    ClientStaysInUpdate(w, w');
    var s :| ClientStep(w.status, w.yt, s, w'.yt) && (w'.status == s || w'.status == w.status);
    ClientReportsNoScript(w.status, w.yt, s, w'.yt);
  }

  lemma AcceptionLeavesScripts(w: World, w': World)
    requires MasterTurn(w, w') && !IsScript(w.status.update.state)
    ensures LeavesScripts(w, w')
  {
    MasterKeepsSnapshot(w.status, w.status.update.state);
    forall x | IsScript(x) ensures Complete(w'.status, x) <==> Complete(w.status, x) {
      ReportCompletes(w.status, w.status.update.state, x);
    }
  }

  lemma OtherLeavesScripts(w: World, w': World, c: Condition, value: bool)
    requires OtherTurn(w, w', c, value)
    ensures LeavesScripts(w, w')
  {
    forall x | IsScript(x) ensures Complete(w'.status, x) <==> Complete(w.status, x) {
      assert Home(StateComplete(x)) == Some(x);
    }
  }

  lemma OthersLeaveScripts(j: Joint, j': Joint)
    requires OtherWork(j, j') && !ControlStep(j.w, j'.w) && InUpdate(j.w)
    ensures LeavesScripts(j.w, j'.w)
  {
    if ClientTurn(j.w, j'.w) {
      ClientLeavesScripts(j.w, j'.w);
    } else if MasterTurn(j.w, j'.w) && !IsScript(j.w.status.update.state) {
      AcceptionLeavesScripts(j.w, j'.w);
    } else if c, value :| OtherTurn(j.w, j'.w, c, value) {
      OtherLeavesScripts(j.w, j'.w, c, value);
    }
  }

  lemma LeftScriptsKeep(j: Joint, j': Joint)
    requires JointInv(j) && InUpdate(j.w) && LeavesScripts(j.w, j'.w) && j'.v == j.v
    ensures JointInv(j')
  {
  }

  /** A state whose script is at work cannot be left. */
  lemma NotLeftAtWork(j: Joint)
    requires JointInv(j) && DoneInv(j.w) && j.w.status.state == Updating && Confirmed(j.w.status, j.w.status.update.state)
    ensures !AtWork(j.v)
  {
    if AtWork(j.v) {
      ScriptAwaits(j.w.status.update.state);
    }
  }

  lemma ScriptAwaits(u: UpdateState)
    requires IsScript(u)
    ensures FlowCondition(u) == Some(Update(if u == WaitingForSnapshots then SnapshotsSaved else StateComplete(u)))
  {
  }

  /** An execution moves on only from a confirmed state, and to one whose script is not done. */
  lemma ExecutionMoves(w: World, w': World)
    requires FlowInv(w) && DoneInv(w) && ControlStep(w, w') && w.status.state == Updating
    ensures w'.done == w.done && InUpdate(w') && w'.status.update.conditions == w.status.update.conditions
    ensures w'.status == w.status || Confirmed(w.status, w.status.update.state)
    ensures w'.status.update.state != w.status.update.state && w'.status.update.state != ImpossibleToStart ==>
      w'.status.update.state !in w.done
  {
    var f :| Controls(w.spec, f, w.status, w'.status);
    var u := w.status.update.state;
    assert InFlow(w.cfg, u);
    ExecutionStaysInUpdate(w.spec, f, w.status, w'.status);
    var progressed :| Executes(w.cfg, f.observed, w.status, w'.status, progressed);
    if progressed {
      if MarkOf(u, w.status, f.observed) == Happy {
        HappyConfirms(u, w.status, f.observed);
      } else {
        assert u == PossibilityCheck;
      }
    }
  }

  lemma ExecutionKeepsJoint(j: Joint, j': Joint)
    requires JointInv(j) && FlowInv(j.w) && DoneInv(j.w) && ControlStep(j.w, j'.w) && j.w.status.state == Updating && j'.v == j.v
    ensures JointInv(j')
  {
    ExecutionMoves(j.w, j'.w);
    if j'.w.status != j.w.status {
      NotLeftAtWork(j);
    }
    assert forall x :: Complete(j'.w.status, x) <==> Complete(j.w.status, x);
  }

  lemma BeginLeavesNothing(w: World, w': World)
    requires FlowInv(w) && CleanSlate(w) && ControlStep(w, w') && !InUpdate(w) && InUpdate(w')
    ensures w'.done == {} && forall x :: !Complete(w'.status, x)
  {
    assert w'.done == {} by { ControlBegins(w, w'); }
    assert forall c :: w'.status.IsUpdateTrue(c) ==> Home(c).None? by { BeginKnowsNothing(w, w'); }
    NothingComplete(w'.status);
  }

  lemma NothingComplete(s: Status)
    requires forall c :: s.IsUpdateTrue(c) ==> Home(c).None?
    ensures forall x :: !Complete(s, x)
  {
    forall x ensures !Complete(s, x) {
      assert Home(StateComplete(x)) == Some(x);
    }
  }

  lemma FreshKeepsJoint(j: Joint, j': Joint)
    requires JointInv(j) && !InUpdate(j.w) && InUpdate(j'.w) && j'.v == j.v
    requires j'.w.done == {} && forall x :: !Complete(j'.w.status, x)
    ensures JointInv(j')
  {
  }

  lemma BeginKeepsJoint(j: Joint, j': Joint)
    requires JointInv(j) && FlowInv(j.w) && CleanSlate(j.w) && ControlStep(j.w, j'.w) && !InUpdate(j.w) && InUpdate(j'.w)
    requires j'.v == j.v
    ensures JointInv(j')
  {
    BeginLeavesNothing(j.w, j'.w);
    FreshKeepsJoint(j, j');
  }

  lemma ClearKeepsJoint(j: Joint, j': Joint)
    requires JointInv(j) && InUpdate(j.w) && j.w.status.state != Updating && !InUpdate(j'.w) && J.NextUpdate(j.v, j'.v)
    ensures JointInv(j')
  {
    assert J.Step(j.v, j'.v);
    J.InvKept(j.v, j'.v);
  }

  lemma RestKeepsJoint(j: Joint, j': Joint)
    requires JointInv(j) && !InUpdate(j.w) && !InUpdate(j'.w) && j'.v == j.v
    ensures JointInv(j')
  {
  }

  /** Outside updates only the controller begins one, and in an update only the controller ends or clears it. */
  lemma ControlClears(w: World, w': World)
    requires ControlStep(w, w') && (w.status.state == UpdateFinished || w.status.state == UpdateCanceled)
    ensures !InUpdate(w')
  {
  }

  lemma OthersStayOutside(w: World, w': World)
    requires Step(w, w') && !ControlStep(w, w') && !InUpdate(w)
    ensures !InUpdate(w')
  {
  }

  lemma OtherWorkKeeps(j: Joint, j': Joint)
    requires JointInv(j) && FlowInv(j.w) && DoneInv(j.w) && CleanSlate(j.w) && OtherWork(j, j')
    ensures JointInv(j')
  {
    if !ControlStep(j.w, j'.w) {
      if InUpdate(j.w) {
        OthersLeaveScripts(j, j');
        LeftScriptsKeep(j, j');
      } else {
        OtherWorkIsStep(j, j');
        OthersStayOutside(j.w, j'.w);
        RestKeepsJoint(j, j');
      }
    } else if j.w.status.state == Updating {
      ExecutionMoves(j.w, j'.w);
      ExecutionKeepsJoint(j, j');
    } else if InUpdate(j.w) {
      ControlClears(j.w, j'.w);
      ClearKeepsJoint(j, j');
    } else if InUpdate(j'.w) {
      BeginKeepsJoint(j, j');
    } else {
      RestKeepsJoint(j, j');
    }
  }

  // ----- Runs -----

  lemma JointStepKeeps(j: Joint, j': Joint)
    requires JointInv(j) && FlowInv(j.w) && DoneInv(j.w) && CleanSlate(j.w) && JointStep(j, j')
    ensures JointInv(j') && (j'.w == j.w || Step(j.w, j'.w))
  {
    if OtherWork(j, j') {
      OtherWorkIsStep(j, j');
      OtherWorkKeeps(j, j');
    } else if s :| CallWork(j, j', s) {
      CallIsStep(j, j', s);
      CallKeeps(j, j', s);
    } else if s, name, ready :| InitWork(j, j', s, name, ready) {
      InitKeeps(j, j', s, name, ready);
    } else if ScriptWork(j, j') {
      ScriptIsStep(j, j');
      ScriptKeeps(j, j');
    } else {
      InitRunsKeeps(j, j');
    }
  }

  ghost predicate JointAt(run: seq<Joint>, k: nat) {
    0 < k < |run| ==> JointStep(run[k - 1], run[k])
  }

  ghost predicate IsJointRun(run: seq<Joint>) {
    && run != [] && Initial(run[0].w) && J.Initial(run[0].v)
    && forall k: nat :: JointAt(run, k)
  }

  lemma ReachedFlow(w: World)
    requires Reached(w)
    ensures FlowInv(w) && DoneInv(w) && CleanSlate(w)
  {
    ReachedInv(w);
  }

  lemma InitialReached(w: World)
    requires Initial(w)
    ensures Reached(w)
  {
    var run := [w];
    forall j: nat ensures StepAt(run, j) {
    }
    assert IsRun(run) && run[|run| - 1] == w;
  }

  /**
    However the operator, the jobs and the cluster interleave, with job writes and status saves lost at will, the update
    goes through a run of the update model: its theorems hold here too. And a script of an update is at work only in its
    own state of the current update.
   */
  lemma {:induction false} JointRunRefines(run: seq<Joint>, k: nat)
    requires IsJointRun(run) && k < |run|
    ensures Reached(run[k].w) && JointInv(run[k])
  {
    if k == 0 {
      InitialReached(run[0].w);
    } else {
      JointRunRefines(run, k - 1);
      assert JointAt(run, k);
      ReachedFlow(run[k - 1].w);
      JointStepKeeps(run[k - 1], run[k]);
      ReachedNext(run[k - 1].w, run[k].w);
    }
  }

  lemma ScriptsStayInPlace(run: seq<Joint>, k: nat)
    requires IsJointRun(run) && k < |run| && AtWork(run[k].v)
    ensures run[k].w.status.state == Updating
    ensures run[k].v.objects.job.value.reason == J.ForUpdate(run[k].w.status.update.state)
    ensures run[k].v.objects.job.value.born == run[k].v.update
  {
    JointRunRefines(run, k);
  }
}
