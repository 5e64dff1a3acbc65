/**
 One goroutine running alone, for as many steps as it likes.
 */
module Solo {
  import opened History
  import opened Protocol
  import opened Sqlite

  ghost predicate Path(sh: Shared, me: Local, cs: seq<Choice>, t: Turn)
    decreases |cs|
  {
    if cs == [] then t == Turn(sh, me)
    else Can(sh, me, cs[0]) && Path(Act(sh, me, cs[0]).sh, Act(sh, me, cs[0]).me, cs[1..], t)
  }

  /** The goroutine alone takes the shared state to t.sh and itself to t.me. */
  ghost predicate Alone(sh: Shared, me: Local, t: Turn) {
    exists cs :: Path(sh, me, cs, t)
  }

  lemma {:induction false} PathCompose(sh: Shared, me: Local, cs: seq<Choice>, t: Turn, ds: seq<Choice>, u: Turn)
    requires Path(sh, me, cs, t) && Path(t.sh, t.me, ds, u)
    ensures Path(sh, me, cs + ds, u)
    decreases |cs|
  {
    hide Act, Can;
    if cs == [] {
      assert cs + ds == ds;
    } else {
      assert (cs + ds)[0] == cs[0];
      var a := Act(sh, me, cs[0]);
      PathCompose(a.sh, a.me, cs[1..], t, ds, u);
      assert (cs + ds)[1..] == cs[1..] + ds;
    }
  }

  lemma AloneStart(sh: Shared, me: Local)
    ensures Alone(sh, me, Turn(sh, me))
  {
    assert Path(sh, me, [], Turn(sh, me));
  }

  lemma AloneThen(sh: Shared, me: Local, t: Turn, u: Turn)
    requires Alone(sh, me, t) && Alone(t.sh, t.me, u)
    ensures Alone(sh, me, u)
  {
    var cs :| Path(sh, me, cs, t);
    var ds :| Path(t.sh, t.me, ds, u);
    PathCompose(sh, me, cs, t, ds, u);
  }

  lemma AloneStep(sh: Shared, me: Local, c: Choice)
    requires Can(sh, me, c)
    ensures Alone(sh, me, Act(sh, me, c))
  {
    var t := Act(sh, me, c);
    assert Path(t.sh, t.me, [], t);
    assert [c][1..] == [];
    assert Path(sh, me, [c], t);
  }

  /** Going on from t by one step. */
  lemma AloneOn(sh: Shared, me: Local, t: Turn, c: Choice)
    requires Alone(sh, me, t) && Can(t.sh, t.me, c)
    ensures Alone(sh, me, Act(t.sh, t.me, c))
  {
    AloneStep(t.sh, t.me, c);
    AloneThen(sh, me, t, Act(t.sh, t.me, c));
  }

  /** A goroutine running alone is a run of the whole system. */
  lemma {:induction false} PathLeads(s: State, pid: nat, cs: seq<Choice>, t: Turn) returns (ls: seq<Label>)
    requires pid < |s.procs| && Path(s.sh, s.procs[pid], cs, t)
    ensures Leads(s, ls, State(t.sh, s.procs[pid := t.me]))
    ensures forall k :: 0 <= k < |ls| ==> ls[k].Run?
    decreases |cs|
  {
    if cs == [] {
      ls := [];
      assert s.procs[pid := t.me] == s.procs;
    } else {
      var n := Next(s, Run(pid, cs[0]));
      var rest := PathLeads(n, pid, cs[1..], t);
      ls := [Run(pid, cs[0])] + rest;
      assert n.procs[pid := t.me] == s.procs[pid := t.me];
      assert ls[1..] == rest;
    }
  }

  lemma AloneLeads(s: State, pid: nat, t: Turn) returns (ls: seq<Label>)
    requires pid < |s.procs| && Alone(s.sh, s.procs[pid], t)
    ensures Leads(s, ls, State(t.sh, s.procs[pid := t.me]))
    ensures forall k :: 0 <= k < |ls| ==> ls[k].Run?
  {
    var cs :| Path(s.sh, s.procs[pid], cs, t);
    ls := PathLeads(s, pid, cs, t);
  }

  // ---- A tick that finds the open transaction expired ----

  const GOOD: Choice := Choice(true, Fine, 0, NONE)

  /** The monitor at rest, nothing in its way, and a transaction that has been idle too long. */
  ghost predicate Expired(sh: Shared, me: Local) {
    && me.pc == AtMon(MonIdle) && me.kind.Monitor? && me.q.role == Admin && !sh.stopped
    && sh.txMu && !sh.txOpMu && !sh.writeMu && !sh.fault
    && sh.txID != NONE && sh.conn.inTx && sh.now - sh.txLastUsed > sh.timeout
  }

  /** The monitor with the ID it has loaded. */
  function Holding(me: Local, id: Name, pc: PC): Local {
    me.(q := me.q.(txID := id), pc := pc)
  }

  ghost function Loaded(sh: Shared): Shared {
    sh.(txOpMu := true)
  }

  lemma TickLoads(sh: Shared, me: Local)
    requires Expired(sh, me)
    ensures Alone(sh, me, Turn(Loaded(sh), Holding(me, sh.txID, AtRw(OpRollback, RwLock))))
  {
    AloneStep(sh, me, GOOD);
    var t := Act(sh, me, GOOD);
    AloneOn(sh, me, t, GOOD);
    t := Act(t.sh, t.me, GOOD);
    AloneOn(sh, me, t, GOOD);
    t := Act(t.sh, t.me, GOOD);
    AloneOn(sh, me, t, GOOD);
  }

  /** ROLLBACK as administrator on a connection in a transaction. */
  ghost function RolledBackBy(sh: Shared, me: Local): Shared {
    Record(sh.(conn := sh.conn.(role := Admin, inTx := false)),
           RolledBack(me.q.txID, CredOf(me), Admin, sh.now))
  }

  lemma TickRollsBack(sh: Shared, me: Local)
    requires me.pc == AtRw(OpRollback, RwLock) && me.q.role == Admin
    requires !sh.writeMu && !sh.fault && sh.conn.inTx
    ensures Alone(sh, me, Turn(RolledBackBy(sh, me), me.(pc := AtEnd(false, ClearId))))
  {
    AloneStep(sh, me, GOOD);
    var t := Act(sh, me, GOOD);
    AloneOn(sh, me, t, GOOD);
    t := Act(t.sh, t.me, GOOD);
    AloneOn(sh, me, t, GOOD);
    t := Act(t.sh, t.me, GOOD);
    AloneOn(sh, me, t, GOOD);
    assert Act(t.sh, t.me, GOOD).sh == RolledBackBy(sh, me);
  }

  ghost function Cleared(sh: Shared): Shared {
    sh.(txMu := false, txID := NONE, txOwner := NONE, txLastUsed := sh.now,
        stats := sh.stats.(rollbackCount := sh.stats.rollbackCount + 1),
        log := sh.log.(unattended := sh.log.unattended + 1))
  }

  lemma TickClears(sh: Shared, me: Local)
    requires me.pc == AtEnd(false, ClearId) && me.kind.Monitor? && sh.txMu && !sh.fault
    ensures Alone(sh, me, Turn(Cleared(sh), me.(pc := AtMon(MonUnlock))))
  {
    AloneStep(sh, me, GOOD);
    var t := Act(sh, me, GOOD);
    AloneOn(sh, me, t, GOOD);
    t := Act(t.sh, t.me, GOOD);
    AloneOn(sh, me, t, GOOD);
    t := Act(t.sh, t.me, GOOD);
    AloneOn(sh, me, t, GOOD);
    t := Act(t.sh, t.me, GOOD);
    AloneOn(sh, me, t, GOOD);
    assert Act(t.sh, t.me, GOOD).sh == Cleared(sh);
  }

  /** The whole tick. */
  ghost function Ticked(sh: Shared, me: Local): Shared {
    Cleared(RolledBackBy(Loaded(sh), Holding(me, sh.txID, me.pc))).(txOpMu := false)
  }

  lemma ExpiredTick(sh: Shared, me: Local)
    requires Expired(sh, me)
    ensures Alone(sh, me, Turn(Ticked(sh, me), Holding(me, sh.txID, AtMon(MonIdle))))
  {
    TickLoads(sh, me);
    var held := Holding(me, sh.txID, AtRw(OpRollback, RwLock));
    TickRollsBack(Loaded(sh), held);
    var back := RolledBackBy(Loaded(sh), held);
    AloneThen(sh, me, Turn(Loaded(sh), held), Turn(back, held.(pc := AtEnd(false, ClearId))));
    TickClears(back, held.(pc := AtEnd(false, ClearId)));
    var last := Turn(Cleared(back), held.(pc := AtMon(MonUnlock)));
    AloneThen(sh, me, Turn(back, held.(pc := AtEnd(false, ClearId))), last);
    AloneOn(sh, me, last, GOOD);
  }
}
