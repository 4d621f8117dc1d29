/** Building runs step by step, for the lemmas that show what can happen. */
module RunKit {
  import opened Common
  import opened TaskTables
  import opened Protocol
  import opened PlanRows
  import opened ProtocolRows
  import opened ProtocolSafety
  import opened ProtocolRuns

  /** A run during which no source changes. */
  ghost predicate CalmRun(plan: Plan, trace: seq<World>, labels: seq<Label>)
    requires PlanShape(plan)
  {
    IsRun(plan, trace, labels) && forall i :: 0 <= i < |labels| ==> !labels[i].SourceChanges?
  }

  /** Some calm run goes from w to w'. */
  ghost predicate Leads(plan: Plan, w: World, w': World)
    requires PlanShape(plan)
  {
    exists trace, labels :: CalmRun(plan, trace, labels) && trace[0] == w && trace[|labels|] == w'
  }

  lemma LeadsNowhere(plan: Plan, w: World)
    requires PlanShape(plan)
    ensures IsRun(plan, [w], []) && Leads(plan, w, w)
  {
    assert CalmRun(plan, [w], []);
  }

  lemma LeadsOn(plan: Plan, w0: World, w: World, l: Label, w': World)
    requires PlanShape(plan) && Leads(plan, w0, w) && Next(plan, w, l) == Some(w') && !l.SourceChanges?
    ensures Leads(plan, w0, w')
  {
    hide Next;
    var trace, labels :| CalmRun(plan, trace, labels) && trace[0] == w0 && trace[|labels|] == w;
    var trace', labels' := trace + [w'], labels + [l];
    forall i | 0 <= i < |labels'| ensures Next(plan, trace'[i], labels'[i]) == Some(trace'[i + 1]) && !labels'[i].SourceChanges? {
      if i < |labels| {
        assert labels'[i] == labels[i] && trace'[i] == trace[i] && trace'[i + 1] == trace[i + 1];
      }
    }
    assert CalmRun(plan, trace', labels');
  }

  /** Runs can be put one after the other. */
  lemma LeadsChains(plan: Plan, w0: World, w1: World, w2: World)
    requires PlanShape(plan) && Leads(plan, w0, w1) && Leads(plan, w1, w2)
    ensures Leads(plan, w0, w2)
  {
    hide Next;
    var trace: seq<World>, labels: seq<Label> :| CalmRun(plan, trace, labels) && trace[0] == w1 && trace[|labels|] == w2;
    var i := 0;
    while i < |labels|
      invariant i <= |labels| && Leads(plan, w0, trace[i])
    {
      assert Next(plan, trace[i], labels[i]) == Some(trace[i + 1]) && !labels[i].SourceChanges?;
      LeadsOn(plan, w0, trace[i], labels[i], trace[i + 1]);
      i := i + 1;
    }
  }

  lemma StepOfRun(plan: Plan, w: World, l: Label, w': World)
    requires PlanShape(plan) && IsRun(plan, [w] + [w'], [] + [l])
    ensures Next(plan, w, l) == Some(w')
  {
    hide Next;
    assert ([] + [l])[0] == l && ([w] + [w'])[0] == w && ([w] + [w'])[1] == w';
  }

  /** Reached from w0, with everything that is known of reachable states. */
  ghost predicate At(plan: Plan, w0: World, w: World)
    requires PlanShape(plan)
  {
    Leads(plan, w0, w) && Inv(plan, w)
  }

  lemma Walk(plan: Plan, w0: World, w: World, l: Label, w': World)
    requires PlanShape(plan) && At(plan, w0, w) && Next(plan, w, l) == Some(w') && !l.SourceChanges? && !MovesFiles(l)
    ensures At(plan, w0, w')
  {
    hide Inv, Next, Leads;
    LeadsOn(plan, w0, w, l, w');
    StepKeepsInv(plan, w, l, w');
  }

  /** The same for a step that another lemma has shown as a run of one step. */
  lemma WalkRun(plan: Plan, w0: World, w: World, l: Label, w': World)
    requires PlanShape(plan) && At(plan, w0, w) && IsRun(plan, [w] + [w'], [] + [l]) && !l.SourceChanges? && !MovesFiles(l)
    ensures At(plan, w0, w')
  {
    hide IsRun, At;
    StepOfRun(plan, w, l, w');
    Walk(plan, w0, w, l, w');
  }
}
