/**
  What a review gate hears, told from the replies to the calls of its step (jiradozer/workflow.go,
  jiradozer/poller.go).
 */
module Feedback {
  import opened Common
  import opened WorkflowSteps
  import opened WorkflowSpec
  import opened WorkflowShape
  import opened Positions

  // ----- whose comment counts -----

  /** c is the last of the comments that the workflow does not exclude as its own. */
  ghost predicate IsLatest(c: Comment, comments: seq<Comment>, bot: seq<CommentId>) {
    exists i ::
      && 0 <= i < |comments| && comments[i] == c && c.id !in bot
      && forall j :: i < j < |comments| ==> comments[j].id in bot
  }

  lemma {:induction false} LatestMeaning(comments: seq<Comment>, bot: seq<CommentId>)
    ensures match Latest(comments, bot)
            case Some(c) => IsLatest(c, comments, bot)
            case None => forall c :: c in comments ==> c.id in bot
  {
    if comments != [] && comments[|comments| - 1].id in bot {
      var front := comments[..|comments| - 1];
      LatestMeaning(front, bot);
      if Latest(front, bot).Some? {
        var c := Latest(front, bot).value;
        var i :| 0 <= i < |front| && front[i] == c && c.id !in bot && forall j :: i < j < |front| ==>
            front[j].id in bot;
        assert comments[i] == c;
      } else {
        assert comments == front + [comments[|comments| - 1]];
      }
    }
  }

  /** A fetch gives exactly the comments from its cut-off on. */
  lemma {:induction false} FetchedMeaning(comments: seq<Comment>, since: Option<Time>, c: Comment)
    ensures c in Fetched(comments, since) <==> c in comments && (since.Some? ==> since.value <= c.at)
  {
    if comments != [] {
      FetchedMeaning(comments[1..], since, c);
      assert comments == [comments[0]] + comments[1..];
    }
  }

  /** A fetch by position: the comments from the cut-off on, in order. */
  lemma {:induction false} FetchedByPosition(comments: seq<Comment>, since: Option<Time>) returns (at: seq<nat>)
    ensures Ascending(at, |comments|)
    ensures forall i: nat :: i in at <==> i < |comments| && (since.Some? ==> since.value <= comments[i].at)
    ensures Lists(Fetched(comments, since), comments, at)
  {
    at := [];
    if comments != [] {
      var keep := since.Some? ==> since.value <= comments[0].at;
      var rest := FetchedByPosition(comments[1..], since);
      BehindMeaning(keep, rest, |comments| - 1);
      ListsBehind(Fetched(comments[1..], since), comments, rest, keep);
      at := Behind(keep, rest);
      hide Ascending, Lists, Behind;
      forall i: nat ensures i in at <==> i < |comments| && (since.Some? ==> since.value <= comments[i].at) {
        assert 0 < i < |comments| ==> comments[i] == comments[1..][i - 1];
      }
    }
  }

  /** The latest of a fetch, seen in all the comments. */
  lemma LatestFetched(comments: seq<Comment>, since: Time, bot: seq<CommentId>, c: Comment) returns (i: nat)
    requires IsLatest(c, Fetched(comments, Some(since)), bot)
    ensures i < |comments| && comments[i] == c && c.id !in bot && since <= c.at
    ensures forall j :: i < j < |comments| ==> comments[j].id in bot || comments[j].at < since
  {
    hide Fetched;
    var fetched := Fetched(comments, Some(since));
    var at := FetchedByPosition(comments, Some(since));
    var n :| 0 <= n < |fetched| && fetched[n] == c && c.id !in bot && forall j :: n < j < |fetched| ==>
        fetched[j].id in bot;
    i := at[n];
    assert i in at;
    forall j | i < j < |comments| ensures comments[j].id in bot || comments[j].at < since {
      if since <= comments[j].at {
        assert j in at;
        var m :| 0 <= m < |at| && at[m] == j;
        assert fetched[m] == comments[j] && n < m;
      }
    }
  }

  /** Polling ends with the latest comment of the first batch that has one from the cut-off on. */
  lemma {:induction false} PollMeaning(batches: seq<Option<seq<Comment>>>, since: Option<Time>, bot: seq<CommentId>)
    ensures match Poll(batches, since, bot)
            case Some(c) =>
              exists k :: 0 <= k < |batches| && batches[k].Some? && IsLatest(c, Fetched(batches[k].value, since), bot)
                          && forall j :: 0 <= j < k ==> NothingNew(batches[j], since, bot)
            case None => forall j :: 0 <= j < |batches| ==> NothingNew(batches[j], since, bot)
  {
    hide IsLatest, Latest, Fetched;
    if batches != [] {
      if batches[0].Some? {
        LatestMeaning(Fetched(batches[0].value, since), bot);
      }
      var rest := batches[1..];
      PollMeaning(rest, since, bot);
      forall j | 0 < j < |batches| ensures batches[j] == rest[j - 1] {
      }
      if batches[0].Some? && Latest(Fetched(batches[0].value, since), bot).Some? {
        assert batches[0].Some?;
      } else if Poll(rest, since, bot).Some? {
        var c := Poll(rest, since, bot).value;
        var k :| 0 <= k < |rest| && rest[k].Some? && IsLatest(c, Fetched(rest[k].value, since), bot)
                 && forall j :: 0 <= j < k ==> NothingNew(rest[j], since, bot);
        assert batches[k + 1] == rest[k];
      }
    }
  }

  /** A failed fetch, or one without a comment of somebody else. */
  ghost predicate NothingNew(batch: Option<seq<Comment>>, since: Option<Time>, bot: seq<CommentId>) {
    batch.Some? ==> forall c :: c in Fetched(batch.value, since) ==> c.id in bot
  }

  // ----- what a step's call brought -----

  /** The step did not get through: its context ended, an agent failed, or a comment could not be rendered. */
  ghost predicate Fails(s: Step, reply: StepReply) {
    match reply
    case Session(ran, rendered, _, noChange) => !ran || (!rendered && !(s == Building && noChange))
    case Rounds(rounds, _) =>
      exists i :: 0 <= i < |rounds| && (rounds[i].cancelled || !rounds[i].ran || !rounds[i].rendered)
  }

  /** id is that of a comment the step posted: the session's, or some round's. */
  ghost predicate StepPosted(reply: StepReply, id: CommentId) {
    match reply
    case Session(_, _, posted, _) => posted.id == Some(id)
    case Rounds(rounds, _) => exists i :: 0 <= i < |rounds| && rounds[i].posted.id == Some(id)
  }

  /** The server time of the step's last comment. */
  function StepTime(reply: StepReply): Option<Time> {
    match reply
    case Session(_, _, posted, _) => posted.at
    case Rounds(rounds, _) => if rounds == [] then None else rounds[|rounds| - 1].posted.at
  }

  lemma {:induction false} RoundsMeaning(rounds: seq<Round>)
    ensures var res := AllRounds(rounds);
            && (res.failed <==>
                  exists i :: 0 <= i < |rounds| && (rounds[i].cancelled || !rounds[i].ran || !rounds[i].rendered))
            && (!res.failed ==>
                  && (forall id :: id in res.ids <==> exists i :: 0 <= i < |rounds| && rounds[i].posted.id == Some(id))
                  && res.at == if rounds == [] then None else rounds[|rounds| - 1].posted.at)
  {
    if rounds != [] {
      var first, rest := rounds[0], rounds[1..];
      RoundsMeaning(rest);
      assert rounds == [first] + rest;
      if first.cancelled || !first.ran || !first.rendered {
        assert rounds[0] == first;
      } else {
        RoundsShift(rounds);
      }
    }
  }

  /** What some round satisfies, the first or a later one does. */
  lemma RoundsShift(rounds: seq<Round>)
    requires rounds != []
    ensures (exists i :: 0 <= i < |rounds| && (rounds[i].cancelled || !rounds[i].ran || !rounds[i].rendered)) <==>
              || rounds[0].cancelled || !rounds[0].ran || !rounds[0].rendered
              || exists i :: 0 <= i < |rounds| - 1
                  && (rounds[1..][i].cancelled || !rounds[1..][i].ran || !rounds[1..][i].rendered)
    ensures forall id ::
              (exists i :: 0 <= i < |rounds| && rounds[i].posted.id == Some(id)) <==>
              (|| rounds[0].posted.id == Some(id)
               || exists i :: 0 <= i < |rounds| - 1 && rounds[1..][i].posted.id == Some(id))
  {
    forall i | 0 <= i < |rounds| - 1 ensures rounds[1..][i] == rounds[i + 1] {
    }
    forall i | 0 < i < |rounds| ensures rounds[i] == rounds[1..][i - 1] {
    }
  }

  lemma OutcomeMeaning(s: Step, reply: StepReply)
    ensures var res := Outcome(s, reply);
            && (res.failed <==> Fails(s, reply))
            && (!res.failed ==> res.noChange == reply.noChange)
            && (!res.failed && !(s == Building && reply.noChange) ==>
                  (forall id :: id in res.ids <==> StepPosted(reply, id)) && res.at == StepTime(reply))
  {
    if reply.Rounds? {
      RoundsMeaning(reply.rounds);
    }
  }

  // ----- what a gate hears -----

  /** The configuration lets the phase's gate pass by itself. */
  predicate PassesAlone(cfg: Config, p: Phase) {
    match p
    case Plan => cfg.autoPlan
    case Build => cfg.autoBuild
    case Validate => cfg.autoValidate
    case Ship => cfg.autoShip
  }

  /** A gate that does not pass by itself announces that it waits. */
  predicate Waits(cfg: Config, w: W) {
    !w.approveAll && !(Home(w.Step()).Some? && PassesAlone(cfg, Home(w.Step()).value))
  }

  lemma WaitsMeaning(cfg: Config, w: W)
    requires IsReview(w.Step())
    ensures AutoApproves(cfg, w, w.Step()) <==> !Waits(cfg, w)
    ensures ConfigAutoApproves(cfg, w.Step()) <==> PassesAlone(cfg, Home(w.Step()).value)
  {
  }

  /** id is that of a comment the workflow posted since call made the gate's step run: the step's or the waiting one. */
  ghost predicate Own(cfg: Config, rs: Replies, call: nat, w: W, id: CommentId) {
    StepPosted(rs(call).agent, id) || (Waits(cfg, w) && rs(call + 1).posted.id == Some(id))
  }

  /**
    The time the gate listens from: that of the step's last comment, or of the waiting comment, or the clock when the
    gate was announced or, if it was not, when it asks.
   */
  function Since(cfg: Config, rs: Replies, call: nat, w: W): Time {
    var step, waiting := StepTime(rs(call).agent), rs(call + 1);
    if step.Some? then step.value
    else if !Waits(cfg, w) then rs(w.remote.calls).now
    else if waiting.posted.at.Some? then waiting.posted.at.value
    else waiting.now
  }

  /** c is the last of the comments that are somebody else's and not from before the gate. */
  ghost predicate LastWord(cfg: Config, rs: Replies, call: nat, w: W, comments: seq<Comment>, c: Comment) {
    exists i :: 0 <= i < |comments| && comments[i] == c
                && !Own(cfg, rs, call, w, c.id) && Since(cfg, rs, call, w) <= c.at
                && forall j :: i < j < |comments| ==>
                     Own(cfg, rs, call, w, comments[j].id) || comments[j].at < Since(cfg, rs, call, w)
  }

  ghost predicate Silent(cfg: Config, rs: Replies, call: nat, w: W, comments: seq<Comment>) {
    forall c :: c in comments ==> Own(cfg, rs, call, w, c.id) || c.at < Since(cfg, rs, call, w)
  }

  /** c is the last word in what the gate fetched: once if it passes by itself, else in the first batch with any. */
  ghost predicate HeardAt(cfg: Config, rs: Replies, call: nat, w: W, c: Comment) {
    var reply := rs(w.remote.calls);
    if !Waits(cfg, w) then reply.ok && LastWord(cfg, rs, call, w, reply.comments, c)
    else exists k :: 0 <= k < |reply.batches| && reply.batches[k].Some?
                     && LastWord(cfg, rs, call, w, reply.batches[k].value, c)
                     && forall j :: 0 <= j < k && reply.batches[j].Some? ==>
                          Silent(cfg, rs, call, w, reply.batches[j].value)
  }

  /** Nothing the gate fetched was somebody else's. */
  ghost predicate NobodySpoke(cfg: Config, rs: Replies, call: nat, w: W) {
    var reply := rs(w.remote.calls);
    if !Waits(cfg, w) then reply.ok ==> Silent(cfg, rs, call, w, reply.comments)
    else forall j :: 0 <= j < |reply.batches| && reply.batches[j].Some? ==>
           Silent(cfg, rs, call, w, reply.batches[j].value)
  }

  /** At a gate the workflow excludes exactly its own comments, and listens from the right time. */
  ghost predicate Listening(cfg: Config, rs: Replies, call: nat, w: W) {
    && (forall id :: id in w.thread.bot <==> Own(cfg, rs, call, w, id))
    && Cutoff(cfg, rs, w) == Some(Since(cfg, rs, call, w))
  }

  lemma HeardIsLastWord(cfg: Config, rs: Replies, call: nat, w: W, comments: seq<Comment>, c: Comment)
    requires Listening(cfg, rs, call, w) && IsLatest(c, Fetched(comments, Cutoff(cfg, rs, w)), w.thread.bot)
    ensures LastWord(cfg, rs, call, w, comments, c)
  {
    var i := LatestFetched(comments, Since(cfg, rs, call, w), w.thread.bot, c);
    hide Own, Since, Fetched, Cutoff;
    assert comments[i] == c;
  }

  lemma QuietIsSilent(cfg: Config, rs: Replies, call: nat, w: W, comments: seq<Comment>)
    requires Listening(cfg, rs, call, w)
    requires forall c :: c in Fetched(comments, Cutoff(cfg, rs, w)) ==> c.id in w.thread.bot
    ensures Silent(cfg, rs, call, w, comments)
  {
    forall c | c in comments ensures Own(cfg, rs, call, w, c.id) || c.at < Since(cfg, rs, call, w) {
      FetchedMeaning(comments, Cutoff(cfg, rs, w), c);
    }
  }

  /** What an auto-approving gate concludes, and what a polling one does. */
  lemma AutoGateDecision(cfg: Config, rs: Replies, call: nat, w: W)
    requires IsReview(w.Step()) && Listening(cfg, rs, call, w) && !Waits(cfg, w)
    ensures match Listen(cfg, rs, w)
            case Auto => NobodySpoke(cfg, rs, call, w)
            case Heard(c) => HeardAt(cfg, rs, call, w, c)
            case Nothing => false
  {
    WaitsMeaning(cfg, w);
    var comments, since := rs(w.remote.calls).comments, Cutoff(cfg, rs, w);
    hide Waits, AutoApproves, Listening, Latest, Fetched, Cutoff, IsLatest, LastWord, Silent;
    LatestMeaning(Fetched(comments, since), w.thread.bot);
    var latest := Latest(Fetched(comments, since), w.thread.bot);
    if latest.Some? {
      HeardIsLastWord(cfg, rs, call, w, comments, latest.value);
    } else {
      QuietIsSilent(cfg, rs, call, w, comments);
    }
  }

  lemma PollingGateDecision(cfg: Config, rs: Replies, call: nat, w: W)
    requires IsReview(w.Step()) && Listening(cfg, rs, call, w) && Waits(cfg, w)
    ensures match Listen(cfg, rs, w)
            case Auto => false
            case Heard(c) => HeardAt(cfg, rs, call, w, c)
            case Nothing => NobodySpoke(cfg, rs, call, w)
  {
    var batches, since, bot := rs(w.remote.calls).batches, Cutoff(cfg, rs, w), w.thread.bot;
    hide Waits, Listening, Poll, Fetched, Cutoff, IsLatest, LastWord, Silent, AutoApproves;
    WaitsMeaning(cfg, w);
    PollMeaning(batches, since, bot);
    forall j | 0 <= j < |batches| && batches[j].Some? && NothingNew(batches[j], since, bot)
      ensures Silent(cfg, rs, call, w, batches[j].value)
    {
      QuietIsSilent(cfg, rs, call, w, batches[j].value);
    }
    if Poll(batches, since, bot).Some? {
      var c := Poll(batches, since, bot).value;
      var k :| 0 <= k < |batches| && batches[k].Some? && IsLatest(c, Fetched(batches[k].value, since), bot)
               && forall j :: 0 <= j < k ==> NothingNew(batches[j], since, bot);
      HeardIsLastWord(cfg, rs, call, w, batches[k].value, c);
    }
  }

  lemma GateDecision(cfg: Config, rs: Replies, call: nat, w: W)
    requires IsReview(w.Step()) && Listening(cfg, rs, call, w)
    ensures match Listen(cfg, rs, w)
            case Auto => !Waits(cfg, w) && NobodySpoke(cfg, rs, call, w)
            case Heard(c) => HeardAt(cfg, rs, call, w, c)
            case Nothing => Waits(cfg, w) && NobodySpoke(cfg, rs, call, w)
  {
    hide Listen, Listening, HeardAt, NobodySpoke;
    if Waits(cfg, w) {
      PollingGateDecision(cfg, rs, call, w);
    } else {
      AutoGateDecision(cfg, rs, call, w);
    }
  }

  /** A polling gate remembers the time of what it heard; any other keeps the time it listened from. */
  lemma GateRemembers(cfg: Config, rs: Replies, call: nat, w: W)
    requires IsReview(w.Step()) && Listening(cfg, rs, call, w)
    ensures var heard, t := Listen(cfg, rs, w), Asked(cfg, rs, w);
            && t.thread.bot == w.thread.bot
            && t.thread.since ==
                 Some(if Waits(cfg, w) && heard.Heard? then heard.comment.at else Since(cfg, rs, call, w))
  {
    hide Listen, Cutoff, Own, Since;
  }

  // ----- a gate is ready to listen when a pass finds it -----

  /** A pass that ends at a gate ran that gate's step, whose call it made first. */
  ghost predicate Ready(cfg: Config, rs: Replies, w: W, t: W) {
    IsReview(t.Step()) ==>
      && !IsReview(w.Step()) && Next(w.Step()) == t.Step() && !Fails(w.Step(), rs(w.remote.calls).agent)
      && (forall id :: id in t.thread.bot <==> Own(cfg, rs, w.remote.calls, t, id))
      && (t.thread.since.Some? ==> t.thread.since.value == Since(cfg, rs, w.remote.calls, t))
      && (t.thread.since.None? <==> !Waits(cfg, t) && StepTime(rs(w.remote.calls).agent).None?)
  }

  lemma ReadyGateListens(cfg: Config, rs: Replies, w: W, t: W)
    requires Ready(cfg, rs, w, t) && IsReview(t.Step())
    ensures var asked := t.(remote := t.remote.Touch(rs)); Listening(cfg, rs, w.remote.calls, asked)
  {
    WaitsMeaning(cfg, t);
    hide ConfigAutoApproves, PassesAlone;
  }

  /** The step's thread before the gate is announced: its own comments, and the time of its last one. */
  ghost predicate FromStep(reply: StepReply, thread: Thread) {
    (forall id :: id in thread.bot <==> StepPosted(reply, id)) && thread.since == StepTime(reply)
  }

  lemma ToReviewIsReady(cfg: Config, rs: Replies, w: W, t: W)
    requires !IsReview(w.Step()) && Allowed(w.Step(), Next(w.Step())) && !Fails(w.Step(), rs(w.remote.calls).agent)
    requires t.Step() == w.Step() && t.remote.calls == w.remote.calls + 1
    requires FromStep(rs(w.remote.calls).agent, t.thread)
    ensures Ready(cfg, rs, w, ToReview(cfg, rs, t, Next(w.Step())))
  {
    hide Allowed, StepPosted, StepTime, Fails, ConfigAutoApproves, PassesAlone, IsReview, Next;
    if IsReview(Next(w.Step())) {
      WaitsMeaning(cfg, t.Move(Next(w.Step()), StepComplete));
    }
  }

  lemma AgentIsReady(cfg: Config, rs: Replies, w: W)
    requires Runs(w.Step()) && !IsReview(w.Step())
    ensures Ready(cfg, rs, w, RunAgent(cfg, rs, w, Next(w.Step())))
  {
    hide ToReview, Outcome, AtDone, Next, Allowed, Ready, StepPosted, StepTime, Fails;
    AgentLeadsOn(w.Step());
    var reply := rs(w.remote.calls).agent;
    OutcomeMeaning(w.Step(), reply);
    var res := Outcome(w.Step(), reply);
    var t := Stepped(rs, w);
    if res.failed {
      OffGateIsReady(cfg, rs, w, Fail(t));
    } else if w.Step() == Building && res.noChange {
      OffGateIsReady(cfg, rs, w, Boundary(cfg, rs, t.Force(Done)));
    } else {
      ToReviewIsReady(cfg, rs, w, t);
    }
  }

  lemma OffGateIsReady(cfg: Config, rs: Replies, w: W, t: W)
    requires !IsReview(t.Step())
    ensures Ready(cfg, rs, w, t)
  {
  }

  lemma LeavesTheGate(cfg: Config, rs: Replies, w: W, t: W)
    requires IsReview(w.Step()) && ReviewShape(cfg, rs, w, t)
    ensures !IsReview(t.Step())
  {
    hide Listen, Chain;
  }

  /** A pass that leads to a gate is the one that ran the gate's step. */
  lemma IterateIsReady(cfg: Config, rs: Replies, w: W)
    requires Runs(w.Step())
    ensures Ready(cfg, rs, w, Iterate(cfg, rs, w))
  {
    hide RunAgent, RunReview, Ready, ReviewShape;
    if IsReview(w.Step()) {
      ReviewHasShape(cfg, rs, w);
      LeavesTheGate(cfg, rs, w, Iterate(cfg, rs, w));
      OffGateIsReady(cfg, rs, w, Iterate(cfg, rs, w));
    } else {
      AgentIsReady(cfg, rs, w);
    }
  }

  /** Where a step leads, from what its call brought. */
  lemma StepLeads(cfg: Config, rs: Replies, w: W)
    requires Runs(w.Step()) && !IsReview(w.Step())
    ensures var reply := rs(w.remote.calls).agent;
            Iterate(cfg, rs, w).machine ==
              if Fails(w.Step(), reply) then w.machine.Transition(Failed, Error)
              else if w.Step() == Building && reply.noChange then w.machine.ForceState(Done)
              else w.machine.Transition(Next(w.Step()), StepComplete)
  {
    hide RunReview, Outcome, Allowed, AtDone, Fails, StepPosted, StepTime, Announce, Next;
    AgentLeadsOn(w.Step());
    OutcomeMeaning(w.Step(), rs(w.remote.calls).agent);
    IterateRunsAgent(cfg, rs, w);
  }

  lemma IterateRunsAgent(cfg: Config, rs: Replies, w: W)
    requires Runs(w.Step()) && !IsReview(w.Step())
    ensures Iterate(cfg, rs, w) == RunAgent(cfg, rs, w, Next(w.Step()))
  {
    hide RunAgent, RunReview;
  }
}
