// One goroutine of the interleaved machine, from its start to its end: it is
// ProcessEvent, whatever the other goroutines and workers are doing.
module QueueAlone {
  import opened Options
  import opened Backoff
  import opened Queue
  import opened QueueLaws
  import opened QueueProgress
  import opened QueueService

  /** It reads its endpoint and, with one, makes its one request. */
  lemma Delivers(s: Settings, acts: seq<Action>, i: nat, net: Net) returns (longer: seq<Action>)
    requires Live(Run(s, acts), i) && Run(s, acts).owners[i].stage.Fetching?
    ensures acts <= longer
    ensures var w := Run(s, acts);
      Run(s, longer) == At(w, i, Answered(OutcomeOf(net))).(
        sends := w.sends + if net.endpoint == Url then [Send(w.owners[i].event.id, net.code)] else [])
  {
    hide Run;
    RunSnoc(s, acts, ReadEndpoint(i, net.endpoint));
    longer := acts + [ReadEndpoint(i, net.endpoint)];
    if net.endpoint.Url? {
      RunSnoc(s, longer, Post(i, net.code, net.error));
      longer := longer + [Post(i, net.code, net.error)];
    } else {
      assert Run(s, acts).sends + [] == Run(s, acts).sends;
    }
  }

  lemma Writes(s: Settings, w: World, i: nat, now: int, roll: Option<nat>)
    requires Live(w, i) && w.owners[i].stage.Answered?
    requires !LockedByClaim(w, w.owners[i].event.id) && !LockedByBurial(w, i, w.owners[i].event.id)
    ensures var e := w.owners[i].event;
      var write := Decide(s, e, w.owners[i].stage.outcome, now, roll);
      var v := Next(s, false, w, Settle(i, now, roll));
      if write.Bury? then Next(s, false, v, CommitBurial(i)) == At(w, i, Gone).(db := Applied(w.db, e, write))
      else v == At(w, i, Gone).(db := Applied(w.db, e, write))
  {
    hide LockedByClaim, LockedByBurial, Decide, Applied;
  }

  /** A goroutine that meets net in the interleaved machine does to the tables
      what ProcessEvent does, with the same request, and never waits. */
  lemma EventIsMachineRun(s: Settings, acts: seq<Action>, i: nat, net: Net) returns (longer: seq<Action>)
    requires Live(Run(s, acts), i) && Run(s, acts).owners[i].stage.Fetching?
    ensures acts <= longer && !Live(Run(s, longer), i)
    ensures var w, v := Run(s, acts), Run(s, longer);
      var e := w.owners[i].event;
      && v.db == Processed(s, w.db, e, net) && v.claims == w.claims
      && v.sends == w.sends + if net.endpoint == Url then [Send(e.id, net.code)] else []
  {
    longer := Delivers(s, acts, i, net);
    var w := Run(s, longer);
    RunKeeps(s, longer);
    Unblocked(s, w, i);
    hide Run, Inv, LockedByClaim, LockedByBurial, Decide, Applied, OutcomeOf;
    var act := if net.stored then Settle(i, net.now, net.roll) else Lose(i);
    RunSnoc(s, longer, act);
    longer := longer + [act];
    if net.stored {
      Writes(s, w, i, net.now, net.roll);
      if WriteOf(s, w.owners[i].event, net).Bury? {
        RunSnoc(s, longer, CommitBurial(i));
        longer := longer + [CommitBurial(i)];
      }
    }
  }

  // --------------------------------------------------------------- defaults

  const SECOND := 1_000_000_000
  const DEFAULTS := Settings(5, 30 * SECOND, 3600 * SECOND)

  /** With the default settings a job is dead-lettered after five requests and at
      most nine minutes of waiting between them. */
  lemma DefaultsGiveNineMinutes(rolls: seq<Option<nat>>)
    requires |rolls| == Limit(DEFAULTS) - 1
    ensures Limit(DEFAULTS) == 5 && TotalDelay(DEFAULTS.base, DEFAULTS.cap, rolls) <= 540 * SECOND
  {
    TotalDelayBound(DEFAULTS.base, DEFAULTS.cap, rolls);
    Pow2Adds(2, 2);
    Pow2Adds(1, 1);
  }
}
