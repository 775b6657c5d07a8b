/** The health checks that decide whether a cluster may be updated. */
module HealthChecks {
  import opened UpdateTypes

  /** The status of a condition that reports a check: passed, failed, or not known because a request failed. */
  datatype Verdict = Good | Bad | Unknown

  /**
    What the cluster answers: whether each master cell has its quorum, how many vital chunks are lost, how many chunks
    miss their quorum, and which tablet cell bundles are not in good health. A request that fails has no answer. Nothing
    is asked where no masters are expected to be alive.
   */
  datatype Health = Health(
    skipped: bool,
    quorums: seq<Option<bool>>,
    lostVitalChunks: Option<int>,
    quorumMissingChunks: Option<int>,
    notGoodBundles: Option<seq<string>>)
  {
    predicate Answered() {
      skipped || (
        && (forall i :: 0 <= i < |quorums| ==> quorums[i].Some?)
        && lostVitalChunks.Some? && quorumMissingChunks.Some? && notGoodBundles.Some?)
    }

    /** Every check was answered, and well. */
    predicate IsGood() {
      skipped || (
        && (forall i :: 0 <= i < |quorums| ==> quorums[i].Some? && quorums[i].value)
        && lostVitalChunks == Some(0) && quorumMissingChunks == Some(0) && notGoodBundles == Some([]))
    }

    /** Some check was answered badly, whatever became of the others. */
    predicate IsBad() {
      && !skipped
      && (|| (exists i :: 0 <= i < |quorums| && quorums[i].Some? && !quorums[i].value)
          || (lostVitalChunks.Some? && lostVitalChunks.value != 0)
          || (quorumMissingChunks.Some? && quorumMissingChunks.value != 0)
          || (notGoodBundles.Some? && notGoodBundles.value != []))
    }

    function Verdict(): (v: Verdict)
      ensures (v == Good <==> IsGood()) && (v == Bad <==> IsBad())
      ensures v == Unknown ==> !Answered()
    {
      if IsGood() then Good else if IsBad() then Bad else Unknown
    }
  }

  function MakeCondition<T>(answer: Option<T>, ok: T -> bool): Verdict {
    if answer.None? then Unknown else if ok(answer.value) then Good else Bad
  }

  /** One bad input makes the whole bad; otherwise an unknown one makes it unknown. */
  method MergeConditions(inputs: seq<Verdict>) returns (output: Verdict)
    ensures output == Good <==> forall i :: 0 <= i < |inputs| ==> inputs[i] == Good
    ensures output == Bad <==> Bad in inputs
  {
    output := Good;
    for i := 0 to |inputs|
      invariant output == Good <==> forall k :: 0 <= k < i ==> inputs[k] == Good
      invariant output == Bad <==> Bad in inputs[..i]
    {
      assert inputs[..i + 1] == inputs[..i] + [inputs[i]];
      if inputs[i] != Good {
        if inputs[i] == Bad || output == Good {
          output := inputs[i];
        }
      }
    }
    assert inputs[..|inputs|] == inputs;
  }

  method MasterQuorumCheck(quorums: seq<Option<bool>>) returns (v: Verdict)
    ensures v == Good <==> forall i :: 0 <= i < |quorums| ==> quorums[i].Some? && quorums[i].value
    ensures v == Bad <==> exists i :: 0 <= i < |quorums| && quorums[i].Some? && !quorums[i].value
  {
    var conditions: seq<Verdict> := [];
    for i := 0 to |quorums|
      invariant |conditions| == i
      invariant forall k :: 0 <= k < i ==> (conditions[k] == Good <==> quorums[k].Some? && quorums[k].value)
      invariant forall k :: 0 <= k < i ==> (conditions[k] == Bad <==> quorums[k].Some? && !quorums[k].value)
    {
      conditions := conditions + [MakeCondition(quorums[i], ok => ok)];
    }
    v := MergeConditions(conditions);
    assert v == Bad ==> exists k :: 0 <= k < |conditions| && conditions[k] == Bad;
  }

  /** An update is judged possible exactly if all checks are good, and impossible exactly if one is bad. */
  method UpdateClusterHealthChecks(health: Health) returns (v: Verdict, ok: bool)
    ensures v == health.Verdict()
    ensures ok <==> health.Answered()
  {
    if health.skipped {
      return Good, true;
    }
    var quorum := MasterQuorumCheck(health.quorums);
    var conditions := [
      quorum,
      MakeCondition(health.lostVitalChunks, value => value == 0),
      MakeCondition(health.quorumMissingChunks, value => value == 0),
      MakeCondition(health.notGoodBundles, bundles => bundles == [])];
    v := MergeConditions(conditions);
    MergedFour(conditions, v);
    ok := health.Answered();
  }

  lemma MergedFour(conditions: seq<Verdict>, v: Verdict)
    requires |conditions| == 4
    requires v == Good <==> forall i :: 0 <= i < |conditions| ==> conditions[i] == Good
    requires v == Bad <==> Bad in conditions
    ensures v == Good <==> conditions[0] == Good && conditions[1] == Good && conditions[2] == Good && conditions[3] == Good
    ensures v == Bad <==> conditions[0] == Bad || conditions[1] == Bad || conditions[2] == Bad || conditions[3] == Bad
  {
  }
}
