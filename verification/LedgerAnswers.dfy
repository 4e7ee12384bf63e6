// Who is told what: each caller gets the decision recorded for its own call,
// and no decision is told to two callers.
module LedgerAnswers {
  import opened Money
  import opened Ids
  import opened Ledger
  import opened LedgerMachine

  /** The position in the history of the decision on this call, once taken. */
  function Slot(p: Proc): set<nat> {
    match p
    case Finished(_, at) => {at}
    case Locking(_, _, _, _, Doomed(at)) => {at}
    case _ => {}
  }

  /** p is a call of op, and its decision, once taken, is on record. */
  predicate CallOf(history: seq<Rec>, op: Op, p: Proc) {
    match p
    case Finished(rec, at) => rec.op == op && at < |history| && history[at] == rec
    case Locking(_, _, _, _, Doomed(at)) => p.op == op && at < |history| && history[at] == Rec(op, 0, Err(AccountNotFound))
    case Aborted => true
    case _ => p.op == op
  }

  ghost predicate OwnCall(acts: seq<Action>, history: seq<Rec>, pid: Id, p: Proc) {
    exists op :: Start(pid, op) in acts && CallOf(history, op, p)
  }

  ghost predicate Distinct(procs: map<Id, Proc>) {
    forall p, q :: p in procs && q in procs && p != q ==> Slot(procs[p]) !! Slot(procs[q])
  }

  ghost predicate Own(acts: seq<Action>, w: World) {
    Distinct(w.procs) && forall p :: p in w.procs ==> OwnCall(acts, w.history, p, w.procs[p])
  }

  // ------------------------------------------------------------------ steps

  /** A step of one call: nothing; or the call moves on with what was decided on
      it; or it is decided, in a new record. */
  predicate Moves(w: World, v: World, pid: Id, p: Proc) {
    || (v.procs == w.procs && v.history == w.history)
    || (&& pid in v.procs && v.procs == w.procs[pid := v.procs[pid]]
        && ((v.history == w.history && Slot(v.procs[pid]) <= Slot(p))
            || (|v.history| == |w.history| + 1 && w.history <= v.history && Slot(v.procs[pid]) <= {|w.history|})))
  }

  lemma AdvanceMoves(cfg: Config, w: World, pid: Id, p: Proc, newId: Id, order: seq<Entry>, op: Op)
    requires pid in w.procs && w.procs[pid] == p && CallOf(w.history, op, p)
    ensures var v := Advance(cfg, w, pid, p, newId, order);
      Moves(w, v, pid, p) && pid in v.procs && CallOf(v.history, op, v.procs[pid])
  {
    hide Install, Project, Validate, Lookup, NoneNegative, FreshTxn, FreshAccount, LockedElsewhere, SharedElsewhere;
    hide RowLockedElsewhere, InRange, BalancesOf, Owned, Sorted;
  }

  lemma OwnKeeps(acts: seq<Action>, w: World, v: World, pid: Id, p: Proc, more: seq<Action>)
    requires Own(acts, w) && pid in w.procs && w.procs[pid] == p && acts <= more
    requires Moves(w, v, pid, p) && OwnCall(more, v.history, pid, v.procs[pid])
    ensures Own(more, v)
  {
    forall q | q in v.procs ensures OwnCall(more, v.history, q, v.procs[q]) {
      if q != pid {
        var op :| Start(q, op) in acts && CallOf(w.history, op, w.procs[q]);
        assert Start(q, op) in more && CallOf(v.history, op, v.procs[q]);
      }
    }
    forall q | q in w.procs ensures forall i :: i in Slot(w.procs[q]) ==> i < |w.history| {
      assert OwnCall(acts, w.history, q, w.procs[q]);
    }
  }

  lemma StartKeeps(acts: seq<Action>, w: World, pid: Id, op: Op)
    requires Own(acts, w) && pid !in w.procs
    ensures Own(acts + [Start(pid, op)], Move(w, pid, Begun(op)))
  {
    var more, v := acts + [Start(pid, op)], Move(w, pid, Begun(op));
    forall q | q in v.procs ensures OwnCall(more, v.history, q, v.procs[q]) {
      if q == pid {
        assert Start(pid, op) in more;
      } else {
        var op' :| Start(q, op') in acts && CallOf(w.history, op', w.procs[q]);
        assert Start(q, op') in more;
      }
    }
  }

  lemma StepOwn(cfg: Config, acts: seq<Action>, w: World, act: Action)
    requires Own(acts, w)
    ensures Own(acts + [act], Next(cfg, w, act))
  {
    var v, more := Next(cfg, w, act), acts + [act];
    if act.Start? && act.pid !in w.procs {
      StartKeeps(acts, w, act.pid, act.op);
    } else if act.pid in w.procs {
      var p := w.procs[act.pid];
      assert OwnCall(acts, w.history, act.pid, p);
      var op :| Start(act.pid, op) in acts && CallOf(w.history, op, p);
      assert Start(act.pid, op) in more;
      if act.Step? {
        AdvanceMoves(cfg, w, act.pid, p, act.newId, act.order, op);
      }
      hide Advance;
      assert CallOf(v.history, op, v.procs[act.pid]);
      OwnKeeps(acts, w, v, act.pid, p, more);
    }
  }

  lemma {:induction false} RunOwn(cfg: Config, genesis: Db, acts: seq<Action>)
    ensures Own(acts, Run(cfg, genesis, acts))
  {
    if acts != [] {
      var init, act := acts[..|acts| - 1], acts[|acts| - 1];
      RunOwn(cfg, genesis, init);
      StepOwn(cfg, init, Run(cfg, genesis, init), act);
      assert acts == init + [act];
    }
  }

  // ---------------------------------------------------------------- answers

  /** Caller pid was told the decision on the call it made. */
  predicate TellsOwn(acts: seq<Action>, w: World, pid: Id)
    requires pid in w.procs && w.procs[pid].Finished?
  {
    var p := w.procs[pid];
    p.at < |w.history| && w.history[p.at] == p.rec && Start(pid, p.rec.op) in acts
  }

  predicate Both(w: World, pid: Id, qid: Id) {
    pid in w.procs && w.procs[pid].Finished? && qid in w.procs && w.procs[qid].Finished?
  }

  /** Every answer is the recorded decision on the caller's own call, and two
      callers' answers are two decisions. */
  lemma AnswersAreOwn(cfg: Config, genesis: Db, acts: seq<Action>)
    ensures var w := Run(cfg, genesis, acts);
      && (forall pid :: pid in w.procs && w.procs[pid].Finished? ==> TellsOwn(acts, w, pid))
      && (forall pid, qid :: Both(w, pid, qid) && pid != qid ==> w.procs[pid].at != w.procs[qid].at)
  {
    RunOwn(cfg, genesis, acts);
    var w := Run(cfg, genesis, acts);
    hide Run;
    forall pid | pid in w.procs && w.procs[pid].Finished? ensures TellsOwn(acts, w, pid) {
      assert OwnCall(acts, w.history, pid, w.procs[pid]);
    }
    forall pid, qid | Both(w, pid, qid) && pid != qid ensures w.procs[pid].at != w.procs[qid].at {
      assert w.procs[pid].at in Slot(w.procs[pid]) && w.procs[qid].at in Slot(w.procs[qid]);
    }
  }
}
