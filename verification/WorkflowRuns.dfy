/** A workflow made and run: what the run theorems say about its objects (jiradozer/workflow.go). */
module WorkflowRuns {
  import opened Common
  import opened WorkflowSteps
  import opened WorkflowSpec
  import opened WorkflowShape
  import opened WorkflowProgram
  import opened PhaseLabels
  import WorkflowBounds
  import LabelRuns
  import ReviewGates

  /**
    A new workflow on an issue ends its run with an unbroken history and no refused transition, no agent having run more
    than maxRedos + 1 times, every move out of a gate justified; and, if nobody else edits labels, what its phases say
    its tracker's labels say.
   */
  method RunIssue(config: Config, replies: Replies, labels: set<Label>) returns (ending: Ending, w: Workflow)
    ensures ending in {NotResolved, Interrupted, Returned, Broke}
    ensures (ending == Returned ==> w.state.step == Done) && (ending == Broke ==> w.state.step == Failed)
    ensures w.state.rejected == 0 && Chain(w.state.Val()) && forall s :: multiset(w.ran)[s] <= config.maxRedos + 1
    ensures var passes := ReviewGates.RunPasses(config, replies, Initial(config, labels, Remote(labels, 0, [])));
            forall k :: 0 <= k < |w.state.history| ==>
              ReviewGates.Justified(config, replies, w.state.history, passes, k)
    ensures Alone(replies) ==> forall p ::
              && (w.State(p) == InProgress ==> InProgressLabel(p) in w.tracker.labels)
              && (w.State(p) == Completed ==> DoneLabel(p) in w.tracker.labels || Configured(config, labels, p))
  {
    hide WorkflowShape.Run, Initial, Alone, Chain, ReviewGates.Justified, ReviewGates.RunPasses, Configured;
    var tracker := new Tracker(replies, labels, 0);
    w := new Workflow(config, tracker, labels);
    ghost var remote := Remote(labels, 0, []);
    ending := w.Run();
    WorkflowBounds.EveryRunEnds(config, replies, labels, remote);
    ReviewGates.EveryGateIsJustified(config, replies, labels, remote);
    if Alone(replies) {
      forall p
        ensures w.State(p) == InProgress ==> InProgressLabel(p) in w.tracker.labels
        ensures w.State(p) == Completed ==> DoneLabel(p) in w.tracker.labels || Configured(config, labels, p)
      {
        LabelRuns.MemoryAndTrackerAgree(config, labels, replies, 0, p);
      }
    }
  }
}
