/** Scripts that run as jobs: a checkpoint protocol between the status and separately written objects. */
module InitJob {
  import opened UpdateTypes
  import opened YtCluster

  /** Why a job runs: for an update state, or for anything else. */
  datatype Reason = ForUpdate(state: UpdateState) | Otherwise(name: string)

  datatype JobCondition = JobCondition(reason: Reason, completed: bool)

  /** The job's part of the status, which is saved as a whole at the end of a reconcile. */
  datatype JobStatus = JobStatus(condition: Option<JobCondition>, complete: map<UpdateState, bool>) {
    predicate Started(reason: Reason) {
      condition.Some? && condition.value.reason == reason
    }

    function With(reason: Reason, completed: bool): JobStatus {
      this.(condition := Some(JobCondition(reason, completed)))
    }
  }

  datatype Phase = Active | Complete | Failed

  /** A job, with the number of the update during which it was created. */
  datatype Job = Job(reason: Reason, born: nat, phase: Phase)

  /** The job's scripts, with the number of the update during which they were last written. */
  datatype Config = Config(reason: Reason, written: nat)

  /** What is written to the cluster at once, without waiting for the status to be saved. */
  datatype Objects = Objects(job: Option<Job>, config: Option<Config>) {
    predicate Exist() {
      job.Some? && config.Some?
    }
  }

  // ----- The calls, as relations -----

  function Written(o: Objects, reason: Reason, update: nat): Option<Config> {
    if o.config.Some? && o.config.value.reason == reason then o.config else Some(Config(reason, update))
  }

  /** One call towards a fresh start: it does at most one of the steps below, and may fail in the middle of it. */
  ghost predicate Starts(s: JobStatus, o: Objects, s': JobStatus, o': Objects, reason: Reason, update: nat) {
    if o.job.Some? then
      s' == s && (o' == o || o' == o.(job := None))
    else if s.condition.None? && o.config.Some? then
      s' == s && (o' == o || o' == o.(config := None))
    else if !s.Started(reason) then
      s' == s.With(reason, false) && o' == o
    else
      || (s' == s && o' == o)
      || (s' == s && o' == o.(config := Written(o, reason, update)))
      || ((s' == s || s' == s.With(reason, false)) &&
          o' == Objects(Some(Job(reason, update, Active)), Written(o, reason, update)))
  }

  ghost predicate Syncs(s: JobStatus, o: Objects, s': JobStatus, o': Objects, reason: Reason, update: nat, ready: bool) {
    if o.Exist() && s.condition == Some(JobCondition(reason, true)) then
      s' == s && o' == o && ready
    else if !s.Started(reason) || !o.Exist() || o.job.value.phase == Failed then
      Starts(s, o, s', o', reason, update) && !ready
    else
      s' == s.With(reason, o.job.value.phase == Complete) && o' == o && !ready
  }

  /** The first call in an update state forgets the condition, to force a fresh start. */
  function Prepared(s: JobStatus, u: UpdateState): JobStatus {
    if u in s.complete then s else JobStatus(None, s.complete[u := false])
  }

  ghost predicate RunsUpdate(s: JobStatus, o: Objects, s': JobStatus, o': Objects, u: UpdateState, update: nat) {
    || (s' == Prepared(s, u) && o' == o)
    || Syncs(Prepared(s, u), o, s', o', ForUpdate(u), update, false)
    || (Syncs(Prepared(s, u), o, Prepared(s, u), o', ForUpdate(u), update, true)
        && s' == Prepared(s, u).(complete := Prepared(s, u).complete[u := true]))
  }

  // ----- The calls -----

  class InitJob {
    var status: JobStatus
    var objects: Objects
    var calls: nat
    /** The number of the current update. */
    const update: nat
    const outcome: nat -> Outcome

    constructor (status: JobStatus, objects: Objects, update: nat, outcome: nat -> Outcome)
      ensures this.status == status && this.objects == objects && this.update == update && this.outcome == outcome
    {
      this.status, this.objects, this.update, this.outcome, this.calls := status, objects, update, outcome, 0;
    }

    ghost predicate Reliable() {
      forall n: nat :: outcome(n) == Acknowledged
    }

    method Write(next: Objects) returns (ok: bool)
      modifies this`objects, this`calls
      ensures objects == next || (!ok && objects == old(objects))
      ensures Reliable() ==> ok
    {
      var how := outcome(calls);
      calls := calls + 1;
      if how != Lost {
        objects := next;
      }
      ok := how == Acknowledged;
    }

    method Restart()
      modifies this`status
      ensures status == old(status).(condition := None)
    {
      status := status.(condition := None);
    }

    method SetCondition(reason: Reason, completed: bool)
      modifies this`status
      ensures status == old(status).With(reason, completed)
    {
      status := status.(condition := Some(JobCondition(reason, completed)));
    }

    method Start(reason: Reason, isStarted: bool, isRestarted: bool) returns (ok: bool)
      requires isStarted == status.Started(reason) && isRestarted == status.condition.None?
      modifies this
      ensures Starts(old(status), old(objects), status, objects, reason, update)
      ensures Reliable() ==> ok && Moves(old(status), old(objects), status, objects, reason, update)
    {
      if objects.job.Some? {
        ok := Write(objects.(job := None));
        return;
      }
      if isRestarted && objects.config.Some? {
        ok := Write(objects.(config := None));
        return;
      }
      if !isStarted {
        SetCondition(reason, false);
        return true;
      }
      if objects.config.None? || objects.config.value.reason != reason {
        ok := Write(objects.(config := Some(Config(reason, update))));
        if !ok {
          return;
        }
      }
      ok := Write(objects.(job := Some(Job(reason, update, Active))));
      if !ok {
        return;
      }
      SetCondition(reason, false);
    }

    method Sync(reason: Reason) returns (ready: bool, ok: bool)
      modifies this
      ensures Syncs(old(status), old(objects), status, objects, reason, update, ready)
      ensures ready <==> old(objects).Exist() && old(status).Started(reason) && old(status).condition.value.completed
      ensures ready ==> ok
      ensures Reliable() ==> ok && (Unsettled(old(status), old(objects), reason) ==>
        Moves(old(status), old(objects), status, objects, reason, update))
    {
      var exists_, isStarted := objects.job.Some? && objects.config.Some?, status.Started(reason);
      if exists_ && isStarted && status.condition.value.completed {
        return true, true;
      }
      if !isStarted || !exists_ || objects.job.value.phase == Failed {
        ok := Start(reason, isStarted, status.condition.None?);
        return false, ok;
      }
      SetCondition(reason, objects.job.value.phase == Complete);
      return false, true;
    }

    /** A script that the job does not have is an error. */
    method RunScript(reason: Reason, known: bool) returns (ready: bool, ok: bool)
      modifies this
      ensures known ==> Syncs(old(status), old(objects), status, objects, reason, update, ready)
      ensures !known ==> !ready && !ok && status == old(status) && objects == old(objects)
      ensures ready ==> ok && objects == old(objects) && objects.Exist()
      ensures Reliable() && known ==> ok && (Unsettled(old(status), old(objects), reason) ==>
        Moves(old(status), old(objects), status, objects, reason, update))
    {
      if !known {
        return false, false;
      }
      ready, ok := Sync(reason);
    }

    method RunUpdateScript(u: UpdateState, known: bool) returns (ready: bool, ok: bool)
      modifies this
      ensures RunsUpdate(old(status), old(objects), status, objects, u, update)
      ensures ready ==> u in status.complete && status.complete[u] && objects.Exist()
      ensures Reliable() && known ==> ok && Proceeds(old(status), old(objects), status, objects, u, update)
    {
      if u !in status.complete {
        Restart();
        status := status.(complete := status.complete[u := false]);
      }
      ready, ok := RunScript(ForUpdate(u), known);
      if ok && ready {
        status := status.(complete := status.complete[u := true]);
      }
    }
  }

  /** The job must be started, or started again. */
  predicate Unsettled(s: JobStatus, o: Objects, reason: Reason) {
    && !(o.Exist() && s.condition == Some(JobCondition(reason, true)))
    && (!s.Started(reason) || !o.Exist() || o.job.value.phase == Failed)
  }

  /** What a call towards a start does when every write succeeds. */
  ghost predicate Moves(s: JobStatus, o: Objects, s': JobStatus, o': Objects, reason: Reason, update: nat) {
    if o.job.Some? then s' == s && o' == o.(job := None)
    else if s.condition.None? && o.config.Some? then s' == s && o' == o.(config := None)
    else if !s.Started(reason) then s' == s.With(reason, false) && o' == o
    else s' == s.With(reason, false) && o' == Objects(Some(Job(reason, update, Active)), Written(o, reason, update))
  }

  // ----- All runs, with crashes -----

  /** `log` records the jobs that ran to completion, with the update they were created in. */
  datatype World = World(saved: JobStatus, objects: Objects, update: nat, log: set<(Reason, nat)>)

  /** A reconcile's call, after which the status `s` is saved or lost. */
  ghost predicate UpdateCall(w: World, w': World, s: JobStatus, u: UpdateState) {
    && RunsUpdate(w.saved, w.objects, s, w'.objects, u, w.update)
    && SavedOrLost(w, w', s)
  }

  ghost predicate OtherCall(w: World, w': World, s: JobStatus, name: string, ready: bool) {
    && Syncs(w.saved, w.objects, s, w'.objects, Otherwise(name), w.update, ready)
    && SavedOrLost(w, w', s)
  }

  ghost predicate SavedOrLost(w: World, w': World, s: JobStatus) {
    w' == w.(saved := s, objects := w'.objects) || w' == w.(objects := w'.objects)
  }

  ghost predicate RestartCall(w: World, w': World) {
    w' == w.(saved := w.saved.(condition := None))
  }

  ghost predicate JobRuns(w: World, w': World) {
    && w.objects.job.Some? && w.objects.job.value.phase == Active
    && var job := w.objects.job.value;
       || w' == w.(objects := w.objects.(job := Some(job.(phase := Failed))))
       || w' == w.(objects := w.objects.(job := Some(job.(phase := Complete))), log := w.log + {(job.reason, job.born)})
  }

  /** The update ends, and its conditions are cleared. */
  ghost predicate NextUpdate(w: World, w': World) {
    w' == w.(saved := w.saved.(complete := map[]), update := w.update + 1)
  }

  ghost predicate Step(w: World, w': World) {
    || (exists s, u :: UpdateCall(w, w', s, u))
    || (exists s, name, ready :: OtherCall(w, w', s, name, ready))
    || RestartCall(w, w')
    || JobRuns(w, w')
    || NextUpdate(w, w')
  }

  ghost predicate Initial(w: World) {
    w.saved == JobStatus(None, map[]) && w.objects == Objects(None, None) && w.log == {}
  }

  /** A job belongs to the reason of the condition, has its scripts, and is in the log once complete. */
  ghost predicate Matches(s: JobStatus, o: Objects, log: set<(Reason, nat)>) {
    o.job.Some? ==>
      && (s.condition.Some? ==> s.condition.value.reason == o.job.value.reason)
      && o.config.Some? && o.config.value.reason == o.job.value.reason
      && (o.job.value.phase == Complete ==> (o.job.value.reason, o.job.value.born) in log)
  }

  /** Once a state of this update was begun, a condition means that the objects are of this update. */
  ghost predicate Fresh(s: JobStatus, o: Objects, update: nat, log: set<(Reason, nat)>) {
    s.complete != map[] && s.condition.Some? ==>
      && (o.job.Some? ==> o.job.value.born == update)
      && (o.config.Some? ==> o.config.value.written == update)
      && (s.condition.value.completed ==> (s.condition.value.reason, update) in log)
  }

  ghost predicate Accepted(s: JobStatus, update: nat, log: set<(Reason, nat)>) {
    forall u :: u in s.complete && s.complete[u] ==> (ForUpdate(u), update) in log
  }

  ghost predicate Good(s: JobStatus, o: Objects, update: nat, log: set<(Reason, nat)>) {
    Matches(s, o, log) && Fresh(s, o, update, log) && Accepted(s, update, log)
  }

  ghost predicate Inv(w: World) {
    Good(w.saved, w.objects, w.update, w.log)
  }

  lemma StartsKeepsGood(s: JobStatus, o: Objects, s': JobStatus, o': Objects, reason: Reason, update: nat, log: set<(Reason, nat)>)
    requires Good(s, o, update, log) && Starts(s, o, s', o', reason, update)
    ensures Good(s', o', update, log) && Good(s, o', update, log)
  {
  }

  lemma SyncsKeepsGood(s: JobStatus, o: Objects, s': JobStatus, o': Objects, reason: Reason, update: nat, ready: bool, log: set<(Reason, nat)>)
    requires Good(s, o, update, log) && Syncs(s, o, s', o', reason, update, ready)
    ensures Good(s', o', update, log) && Good(s, o', update, log)
    ensures ready && s.complete != map[] ==> (reason, update) in log
  {
    if !ready && (!s.Started(reason) || !o.Exist() || o.job.value.phase == Failed) {
      StartsKeepsGood(s, o, s', o', reason, update, log);
    }
  }

  lemma PreparedIsGood(s: JobStatus, o: Objects, u: UpdateState, update: nat, log: set<(Reason, nat)>)
    requires Good(s, o, update, log)
    ensures Good(Prepared(s, u), o, update, log) && u in Prepared(s, u).complete
  {
  }

  /** Starting over only deletes objects until the forgotten condition is saved. */
  lemma UnpreparedStaysGood(s: JobStatus, o: Objects, s': JobStatus, o': Objects, u: UpdateState, update: nat, log: set<(Reason, nat)>)
    requires Good(s, o, update, log) && u !in s.complete && RunsUpdate(s, o, s', o', u, update)
    ensures Good(s, o', update, log)
  {
  }

  lemma RunsUpdateKeepsGood(s: JobStatus, o: Objects, s': JobStatus, o': Objects, u: UpdateState, update: nat, log: set<(Reason, nat)>)
    requires Good(s, o, update, log) && RunsUpdate(s, o, s', o', u, update)
    ensures Good(s', o', update, log) && Good(s, o', update, log)
  {
    PreparedIsGood(s, o, u, update, log);
    if Syncs(Prepared(s, u), o, s', o', ForUpdate(u), update, false) {
      SyncsKeepsGood(Prepared(s, u), o, s', o', ForUpdate(u), update, false, log);
    } else if s' != Prepared(s, u) {
      SyncsKeepsGood(Prepared(s, u), o, Prepared(s, u), o', ForUpdate(u), update, true, log);
    }
    if u !in s.complete {
      UnpreparedStaysGood(s, o, s', o', u, update, log);
    }
  }

  lemma InvKept(w: World, w': World)
    requires Inv(w) && Step(w, w')
    ensures Inv(w')
  {
    if s, u :| UpdateCall(w, w', s, u) {
      RunsUpdateKeepsGood(w.saved, w.objects, s, w'.objects, u, w.update, w.log);
    } else if s, name, ready :| OtherCall(w, w', s, name, ready) {
      SyncsKeepsGood(w.saved, w.objects, s, w'.objects, Otherwise(name), w.update, ready, w.log);
    }
  }

  ghost predicate IsRun(run: seq<World>) {
    && run != [] && Initial(run[0])
    && forall i, j :: 0 <= i && j == i + 1 && j < |run| ==> Step(run[i], run[j])
  }

  lemma {:induction false} RunInv(run: seq<World>, i: nat)
    requires IsRun(run) && i < |run|
    ensures Inv(run[i])
  {
    if i > 0 {
      RunInv(run, i - 1);
      InvKept(run[i - 1], run[i]);
    }
  }

  /** The log holds only jobs that were seen running and then complete. */
  lemma {:induction false} LogIsHistory(run: seq<World>, i: nat, reason: Reason, update: nat) returns (k: nat)
    requires IsRun(run) && i < |run| && (reason, update) in run[i].log
    ensures k < i && run[k].objects.job == Some(Job(reason, update, Active))
    ensures run[k + 1].objects.job == Some(Job(reason, update, Complete))
  {
    if (reason, update) in run[i - 1].log {
      k := LogIsHistory(run, i - 1, reason, update);
    } else {
      assert Step(run[i - 1], run[i]);
      assert JobRuns(run[i - 1], run[i]);
      k := i - 1;
    }
  }

  /**
    Whatever writes and saves were lost, a state is complete only after a job that was created during this same
    update, for this same state, ran to completion.
   */
  lemma FreshExecution(run: seq<World>, i: nat, u: UpdateState) returns (k: nat)
    requires IsRun(run) && i < |run| && u in run[i].saved.complete && run[i].saved.complete[u]
    ensures k < i && run[k].objects.job == Some(Job(ForUpdate(u), run[i].update, Active))
    ensures run[k + 1].objects.job == Some(Job(ForUpdate(u), run[i].update, Complete))
  {
    RunInv(run, i);
    k := LogIsHistory(run, i, ForUpdate(u), run[i].update);
  }

  // ----- Progress -----

  /** What a call in an update state does when every write succeeds. */
  ghost predicate Proceeds(s: JobStatus, o: Objects, s': JobStatus, o': Objects, u: UpdateState, update: nat) {
    var p, reason := Prepared(s, u), ForUpdate(u);
    if o.Exist() && p.condition == Some(JobCondition(reason, true)) then
      o' == o && s' == p.(complete := p.complete[u := true])
    else if Unsettled(p, o, reason) then
      Moves(p, o, s', o', reason, update)
    else
      o' == o && s' == p.With(reason, o.job.value.phase == Complete)
  }

  /** Calls still needed to complete a state, not counting those that wait for the job. */
  function Distance(s: JobStatus, o: Objects, u: UpdateState): nat {
    var p, reason := Prepared(s, u), ForUpdate(u);
    if o.Exist() && p.condition == Some(JobCondition(reason, true)) then
      if u in s.complete && s.complete[u] then 0 else 1
    else if p.Started(reason) then
      if o.job.None? then 4
      else if o.Exist() && o.job.value.phase != Failed then (if o.job.value.phase == Complete then 2 else 3)
      else 5
    else
      5 + (if o.job.Some? then 1 else 0) + (if p.condition.None? && o.config.Some? then 1 else 0)
  }

  predicate Ran(o: Objects) {
    o.job.Some? && o.job.value.phase == Active
  }

  function Completed(o: Objects): Objects
    requires Ran(o)
  {
    o.(job := Some(o.job.value.(phase := Complete)))
  }

  /** One event without faults: a call, or the completion of the running job. */
  datatype Event = Event(isCall: bool, s: JobStatus, o: Objects)

  /** Events in an update state, from the given status and objects on. */
  ghost predicate Faultless(events: seq<Event>, s: JobStatus, o: Objects, u: UpdateState, update: nat) {
    events != [] ==>
      && (if events[0].isCall then Proceeds(s, o, events[0].s, events[0].o, u, update)
          else Ran(o) && events[0].s == s && events[0].o == Completed(o))
      && Faultless(events[1..], events[0].s, events[0].o, u, update)
  }

  /** Calls that find something to do, rather than a job that is still running. */
  function WorkingCalls(events: seq<Event>, s: JobStatus, o: Objects, u: UpdateState): nat {
    if events == [] then 0
    else
      (if events[0].isCall && Distance(s, o, u) != 3 then 1 else 0) + WorkingCalls(events[1..], events[0].s, events[0].o, u)
  }

  lemma CompletionNeverHurts(s: JobStatus, o: Objects, u: UpdateState)
    requires Ran(o)
    ensures Distance(s, Completed(o), u) <= Distance(s, o, u)
  {
  }

  /** Without faults every call brings the state nearer to completion, except while the job is running. */
  lemma CallProgresses(s: JobStatus, o: Objects, s': JobStatus, o': Objects, u: UpdateState, update: nat)
    requires Proceeds(s, o, s', o', u, update)
    ensures Distance(s, o, u) == 0 ==> Distance(s', o', u) == 0
    ensures Distance(s, o, u) == 3 ==> Distance(s', o', u) == 3
    ensures Distance(s, o, u) > 0 && Distance(s, o, u) != 3 ==> Distance(s', o', u) < Distance(s, o, u)
  {
  }

  /** Whatever the order of calls and of the job's completion, each call that finds something to do brings the end nearer. */
  lemma {:induction false} CallsCount(events: seq<Event>, s: JobStatus, o: Objects, u: UpdateState, update: nat)
    requires Faultless(events, s, o, u, update)
    ensures var end := if events == [] then Event(true, s, o) else events[|events| - 1];
      Distance(end.s, end.o, u) == 0 || WorkingCalls(events, s, o, u) + Distance(end.s, end.o, u) <= Distance(s, o, u)
    decreases |events|
  {
    if events != [] {
      var e, rest := events[0], events[1..];
      CallsCount(rest, e.s, e.o, u, update);
      if e.isCall {
        CallProgresses(s, o, e.s, e.o, u, update);
      } else {
        CompletionNeverHurts(s, o, u);
      }
      if rest != [] {
        assert rest[|rest| - 1] == events[|events| - 1];
      }
    }
  }

  lemma DistanceBounded(s: JobStatus, o: Objects, u: UpdateState)
    ensures Distance(s, o, u) <= 7
    ensures Distance(s, o, u) == 0 ==> u in s.complete && s.complete[u]
  {
  }

  /** From any status and objects, seven calls that find something to do complete the state, however many wait for the job. */
  lemma SevenCallsComplete(events: seq<Event>, s: JobStatus, o: Objects, u: UpdateState, update: nat)
    requires Faultless(events, s, o, u, update) && WorkingCalls(events, s, o, u) >= 7
    ensures events != [] && u in events[|events| - 1].s.complete && events[|events| - 1].s.complete[u]
  {
    CallsCount(events, s, o, u, update);
    DistanceBounded(s, o, u);
    DistanceBounded(events[|events| - 1].s, events[|events| - 1].o, u);
  }
}
