/**
 The idle timeout over every run.  A transaction that is last used at u is not rolled back by the
 monitor at or before u + T, and a tick that starts later than that ends it, whatever else happens
 meanwhile.  With ticks T apart and handled on time, that is in the interval (u + T, u + 2T].
 */
module Expiry {
  import opened Agreement
  import opened Atomicity
  import opened Draining
  import opened Frames
  import opened Gauges
  import opened History
  import opened Lifecycle
  import opened Locks
  import opened Protocol
  import opened Roles
  import opened Runs
  import opened Sqlite
  import opened Timeouts

  /** The step stores txLastUsed for a statement or a BEGIN. */
  ghost predicate StoresTime(s: State, l: Label) {
    l.Run? && l.pid < |s.procs| && (s.procs[l.pid].pc == AtBegin(PubTime) || Touches(s.procs[l.pid].pc))
  }

  /** As long as the transaction is open, the run stores txLastUsed for no statement and no BEGIN. */
  ghost predicate Unused(s: State, ls: seq<Label>, id: Name)
    decreases |ls|
  {
    ls == [] ||
    (&& Enabled(s, ls[0]) && (PhaseOf(s.sh.log.trace, id).Active? ==> !StoresTime(s, ls[0]))
     && Unused(Next(s, ls[0]), ls[1..], id))
  }

  /** Whenever the monitor uses the read-write connection, pool and SQLite cooperate. */
  predicate Obliging(ls: seq<Label>) {
    forall k :: 0 <= k < |ls| && ls[k].Run? && ls[k].pid == 0 ==> ls[k].c.ok
  }

  /** The transaction has ended; if the monitor rolled it back, then after lo and no later than hi. */
  ghost predicate EndedWithin(t: Trace, id: Name, lo: int, hi: int) {
    match t
    case Start => false
    case Then(p, Committed(i, _, _)) => i == id || EndedWithin(p, id, lo, hi)
    case Then(p, RolledBack(i, cred, _, at)) =>
      if i == id then cred.kind.Monitor? ==> lo < at <= hi else EndedWithin(p, id, lo, hi)
    case Then(p, _) => EndedWithin(p, id, lo, hi)
  }

  lemma {:induction false} WithinLater(t: Trace, id: Name, lo: int, hi: int, hi': int)
    requires EndedWithin(t, id, lo, hi) && hi <= hi'
    ensures EndedWithin(t, id, lo, hi')
  {
    match t
    case Then(p, Committed(i, _, _)) => if i != id { WithinLater(p, id, lo, hi, hi'); }
    case Then(p, RolledBack(i, _, _, _)) => if i != id { WithinLater(p, id, lo, hi, hi'); }
    case Then(p, _) => WithinLater(p, id, lo, hi, hi');
  }

  lemma {:induction false} WithinIsEnd(t: Trace, id: Name, lo: int, hi: int)
    requires EndedWithin(t, id, lo, hi)
    ensures CommittedIn(t, id) || RolledBackIn(t, id)
  {
    match t
    case Then(p, Committed(i, _, _)) => if i != id { WithinIsEnd(p, id, lo, hi); }
    case Then(p, RolledBack(i, _, _, _)) => if i != id { WithinIsEnd(p, id, lo, hi); }
    case Then(p, _) => WithinIsEnd(p, id, lo, hi);
  }

  // ---- Not before u + T ----

  /** The transaction was last used at u and is open, or it has ended, and not through the monitor before
      its time. */
  ghost predicate Timely(s: State, id: Name, u: int) {
    && id != NONE && id in s.sh.log.issued
    && if PhaseOf(s.sh.log.trace, id).Active? then
         s.sh.txLastUsed == u &&
         forall i :: 0 <= i < |s.procs| && RollingBack(s.procs[i]) ==> s.sh.now > u + s.sh.timeout
       else EndedWithin(s.sh.log.trace, id, u + s.sh.timeout, s.sh.now)
  }

  /** What a step of a goroutine does to an open transaction. */
  lemma OpenStep(sh: Shared, me: Local, c: Choice, id: Name, lo: int)
    requires Can(sh, me, c) && Facts(sh, me) && LogOk(sh) && id != NONE && PhaseOf(sh.log.trace, id).Active?
    requires RollingBack(me) ==> sh.now > lo
    ensures var t := Act(sh, me, c).sh.log.trace;
            PhaseOf(t, id).Active? || EndedWithin(t, id, lo, sh.now)
  {
    StepGrows(sh, me, c);
    if !Records(me.pc) {
      StepFramed(sh, me, c);
    } else if me.pc.AtRo? {
      OpenFetch(sh, me, c, id);
    } else if me.pc.AtRw? {
      OpenExec(sh, me, c, id, lo);
    } else if me.pc.AtTx? {
      assert Act(sh, me, c) == ActTx(sh, me);
    }
  }

  lemma OpenFetch(sh: Shared, me: Local, c: Choice, id: Name)
    requires Can(sh, me, c) && me.pc.AtRo? && me.pc.roAt.RoExec? && PhaseOf(sh.log.trace, id).Active?
    ensures PhaseOf(ActRo(sh, me, c).sh.log.trace, id).Active?
  {
  }

  lemma OpenExec(sh: Shared, me: Local, c: Choice, id: Name, lo: int)
    requires Can(sh, me, c) && Facts(sh, me) && me.pc.AtRw? && me.pc.rwAt.RwExec?
    requires PhaseOf(sh.log.trace, id).Active? && (RollingBack(me) ==> sh.now > lo)
    ensures var t := ActRw(sh, me, c).sh.log.trace;
            PhaseOf(t, id).Active? || EndedWithin(t, id, lo, sh.now)
  {
  }

  /** Nothing happens under an ID that has ended. */
  lemma EndedStep(t: Trace, e: Event, id: Name, lo: int, hi: int)
    requires Orderly(Then(t, e)) && id != NONE && PhaseOf(t, id).Ended? && EndedWithin(t, id, lo, hi)
    ensures PhaseOf(Then(t, e), id).Ended? && EndedWithin(Then(t, e), id, lo, hi)
  {
  }

  /** The time of last use stays while the transaction is open. */
  lemma UseStays(s: State, pid: nat, c: Choice, id: Name)
    requires Inv(s) && LogOk(s.sh) && Enabled(s, Run(pid, c)) && id != NONE
    requires PhaseOf(s.sh.log.trace, id).Active? && !StoresTime(s, Run(pid, c))
    ensures Next(s, Run(pid, c)).sh.txLastUsed == s.sh.txLastUsed
  {
    FactsHold(s, pid);
    StepFramed(s.sh, s.procs[pid], c);
  }

  lemma TimelyRun(db: Db, s: State, pid: nat, c: Choice, id: Name, u: int)
    requires Whole(db, s) && Timely(s, id, u) && Enabled(s, Run(pid, c))
    requires PhaseOf(s.sh.log.trace, id).Active? ==> !StoresTime(s, Run(pid, c))
    ensures Timely(Next(s, Run(pid, c)), id, u)
  {
    var me := s.procs[pid];
    var t := Next(s, Run(pid, c));
    FactsHold(s, pid);
    WholeNext(db, s, Run(pid, c));
    StepFramed(s.sh, me, c);
    StepGrows(s.sh, me, c);
    RollingStep(s.sh, me, c);
    Ownership.IdsStep(s.sh, me, c);
    if PhaseOf(s.sh.log.trace, id).Active? {
      OpenStep(s.sh, me, c, id, u + s.sh.timeout);
      UseStays(s, pid, c, id);
    } else if t.sh.log.trace != s.sh.log.trace {
      EndedStep(s.sh.log.trace, t.sh.log.trace.last, id, u + s.sh.timeout, s.sh.now);
    }
    hide Act, Inv, EndedWithin, PhaseOf, Orderly, RoleInv;
  }

  lemma TimelyNext(db: Db, s: State, l: Label, id: Name, u: int)
    requires Whole(db, s) && Timely(s, id, u) && Enabled(s, l)
    requires PhaseOf(s.sh.log.trace, id).Active? ==> !StoresTime(s, l)
    ensures Timely(Next(s, l), id, u)
  {
    if l.Run? {
      TimelyRun(db, s, l.pid, l.c, id, u);
    } else {
      var t := Next(s, l);
      assert forall i :: 0 <= i < |s.procs| ==> t.procs[i] == s.procs[i];
      if !PhaseOf(s.sh.log.trace, id).Active? {
        WithinLater(s.sh.log.trace, id, u + s.sh.timeout, s.sh.now, t.sh.now);
      }
      hide EndedWithin, PhaseOf, Whole;
    }
  }

  lemma {:induction false} TimelyAlways(db: Db, s: State, ls: seq<Label>, t: State, id: Name, u: int)
    requires Whole(db, s) && Timely(s, id, u) && Leads(s, ls, t) && Unused(s, ls, id)
    ensures Whole(db, t) && Timely(t, id, u) && t.sh.timeout == s.sh.timeout
    decreases |ls|
  {
    if ls != [] {
      var n := Next(s, ls[0]);
      WholeNext(db, s, ls[0]);
      TimelyNext(db, s, ls[0], id, u);
      if ls[0].Run? {
        StepFramed(s.sh, s.procs[ls[0].pid], ls[0].c);
      }
      hide Whole, Timely, Next;
      TimelyAlways(db, n, ls[1..], t, id, u);
    }
  }

  // ---- Not long after ----

  /** The monitor is on its way through a tick and has not executed the rollback. */
  predicate InTick(me: Local) {
    && me.kind.Monitor?
    && match me.pc
       case AtMon(m) => m.MonLock? || m.MonLoad? || m.MonCheck?
       case AtRw(op, at) => op.OpRollback? && !at.RwUnlock?
       case _ => false
  }

  /** The transaction has ended, or it is overdue and the monitor is after it. */
  ghost predicate Pursued(s: State, id: Name, u: int) {
    && |s.procs| > 0
    && (PhaseOf(s.sh.log.trace, id).Active? ==> s.sh.now > u + s.sh.timeout && InTick(s.procs[0]))
  }

  lemma PursuitMon(sh: Shared, me: Local, c: Choice)
    requires InTick(me) && me.pc.AtMon? && sh.txID != NONE && sh.now - sh.txLastUsed > sh.timeout
    ensures InTick(ActMon(sh, me).me)
  {
  }

  lemma PursuitRw(sh: Shared, me: Local, c: Choice)
    requires Can(sh, me, c) && Facts(sh, me) && InTick(me) && me.pc.AtRw? && c.ok
    requires TxFacts(sh, me) && RoleOk(sh, me)
    ensures var t := ActRw(sh, me, c);
            InTick(t.me) || PhaseOf(t.sh.log.trace, sh.txID).Ended?
  {
  }

  lemma PursuitRun(db: Db, s: State, pid: nat, c: Choice, id: Name, u: int)
    requires Whole(db, s) && Routed(s) && Timely(s, id, u) && Pursued(s, id, u) && Enabled(s, Run(pid, c))
    requires PhaseOf(s.sh.log.trace, id).Active? && (pid == 0 ==> c.ok)
    requires Timely(Next(s, Run(pid, c)), id, u)
    ensures Pursued(Next(s, Run(pid, c)), id, u)
  {
    var me := s.procs[pid];
    var t := Next(s, Run(pid, c));
    StepFramed(s.sh, me, c);
    FactsHold(s, pid);
    TxFactsHold(s, pid);
    assert RoleOk(s.sh, me);
    if pid == 0 {
      if me.pc.AtMon? {
        PursuitMon(s.sh, me, c);
        assert Act(s.sh, me, c) == ActMon(s.sh, me);
      } else {
        PursuitRw(s.sh, me, c);
        assert Act(s.sh, me, c) == ActRw(s.sh, me, c);
      }
    }
    hide Act, Inv, PhaseOf, Whole, EndedWithin, InTick;
  }

  lemma PursuitNext(db: Db, s: State, l: Label, id: Name, u: int)
    requires Whole(db, s) && Routed(s) && Timely(s, id, u) && Pursued(s, id, u) && Enabled(s, l)
    requires PhaseOf(s.sh.log.trace, id).Active? ==> !StoresTime(s, l)
    requires l.Run? && l.pid == 0 ==> l.c.ok
    ensures Pursued(Next(s, l), id, u)
  {
    TimelyNext(db, s, l, id, u);
    if !PhaseOf(s.sh.log.trace, id).Active? {
      WholeNext(db, s, l);
      StillEnded(db, s, l, id);
    } else if l.Run? {
      PursuitRun(db, s, l.pid, l.c, id, u);
    } else {
      assert Next(s, l).procs[0] == s.procs[0];
    }
  }

  lemma StillEnded(db: Db, s: State, l: Label, id: Name)
    requires Whole(db, s) && Enabled(s, l) && Whole(db, Next(s, l))
    requires id != NONE && id in s.sh.log.issued && !PhaseOf(s.sh.log.trace, id).Active?
    ensures !PhaseOf(Next(s, l).sh.log.trace, id).Active?
  {
    if l.Run? {
      StepGrows(s.sh, s.procs[l.pid], l.c);
    }
  }

  lemma {:induction false} RoutedEarlier(db: Db, s: State, ls: seq<Label>, t: State)
    requires Whole(db, s) && Leads(s, ls, t) && Routed(t)
    ensures Routed(s)
    decreases |ls|
  {
    if ls != [] {
      WholeNext(db, s, ls[0]);
      RoutedEarlier(db, Next(s, ls[0]), ls[1..], t);
      RoutedBefore(s, ls[0]);
    }
  }

  lemma {:induction false} PursuitAlways(db: Db, s: State, ls: seq<Label>, t: State, id: Name, u: int)
    requires Whole(db, s) && Timely(s, id, u) && Pursued(s, id, u) && Leads(s, ls, t) && Routed(t)
    requires Unused(s, ls, id) && Obliging(ls)
    ensures Pursued(t, id, u)
    decreases |ls|
  {
    if ls != [] {
      var n := Next(s, ls[0]);
      RoutedEarlier(db, s, ls, t);
      WholeNext(db, s, ls[0]);
      TimelyNext(db, s, ls[0], id, u);
      PursuitNext(db, s, ls[0], id, u);
      hide Whole, Timely, Pursued, Next, Routed;
      PursuitAlways(db, n, ls[1..], t, id, u);
    }
  }

  /** The monitor leaves its rest. */
  ghost predicate StartsTickAt(m: State, tick: seq<Label>) {
    |m.procs| > 0 && m.procs[0].pc == AtMon(MonIdle) && tick != [] && tick[0].Run? && tick[0].pid == 0
  }

  lemma TickStarts(db: Db, m: State, c: Choice, id: Name, u: int)
    requires Whole(db, m) && Staffed(m) && m.procs[0].pc == AtMon(MonIdle) && Enabled(m, Run(0, c))
    requires Timely(m, id, u) && m.sh.now > u + m.sh.timeout
    ensures Pursued(Next(m, Run(0, c)), id, u)
  {
    assert Act(m.sh, m.procs[0], c) == ActMon(m.sh, m.procs[0]);
  }

  /** An open transaction, and nobody about to roll it back on the monitor's behalf. */
  ghost predicate OpenAt(s: State, id: Name) {
    && id != NONE && PhaseOf(s.sh.log.trace, id).Active?
    && forall i :: 0 <= i < |s.procs| ==> !RollingBack(s.procs[i])
  }

  lemma OpenIsTimely(db: Db, s: State, id: Name)
    requires Whole(db, s) && OpenAt(s, id)
    ensures Timely(s, id, s.sh.txLastUsed)
  {
  }

  lemma ReachableWhole(s: State) returns (db: Db)
    requires Reachable(s)
    ensures Whole(db, s) && Staffed(s)
  {
    var s0, pre :| Initial(s0) && Leads(s0, pre, s);
    db := s0.sh.conn.committed;
    InitialInv(s0);
    StaffedAlways(s0, pre, s);
    WholeInitial(s0);
    WholeAlways(db, s0, pre, s);
  }

  /** From a state in which the transaction is open and txLastUsed is u: as long as nobody stores a later
      use, the transaction is open or has ended, and the monitor has rolled it back only later than
      u + T. */
  lemma NotBeforeTheorem(s: State, ls: seq<Label>, t: State, id: Name)
    requires Reachable(s) && OpenAt(s, id) && Leads(s, ls, t) && Unused(s, ls, id)
    ensures PhaseOf(t.sh.log.trace, id).Active? ||
            EndedWithin(t.sh.log.trace, id, s.sh.txLastUsed + s.sh.timeout, t.sh.now)
  {
    var db := ReachableWhole(s);
    OpenIsTimely(db, s, id);
    hide Whole, Reachable;
    TimelyAlways(db, s, ls, t, id, s.sh.txLastUsed);
  }

  lemma TickPursues(db: Db, m: State, tick: seq<Label>, n: State, id: Name, u: int)
    requires Whole(db, m) && Staffed(m) && Timely(m, id, u) && m.sh.now > u + m.sh.timeout && StartsTickAt(m, tick)
    requires Leads(m, tick, n) && Unused(m, tick, id) && Obliging(tick) && Routed(n)
    ensures Pursued(n, id, u) && Timely(n, id, u)
  {
    TickStarts(db, m, tick[0].c, id, u);
    WholeNext(db, m, tick[0]);
    TimelyNext(db, m, tick[0], id, u);
    TimelyAlways(db, m, tick, n, id, u);
    assert tick[0] == Run(0, tick[0].c);
    var m' := Next(m, tick[0]);
    assert Leads(m', tick[1..], n) && Unused(m', tick[1..], id) && Obliging(tick[1..]);
    hide Whole, Timely, Pursued, Leads, Unused, Next;
    PursuitAlways(db, m', tick[1..], n, id, u);
  }

  /** Moreover, if the monitor starts a tick later than u + T and completes it, with pool and SQLite
      cooperating, then the transaction has ended: through a client's own COMMIT or ROLLBACK, or
      rolled back by the monitor. */
  lemma ExpiryTheorem(s: State, before: seq<Label>, m: State, tick: seq<Label>, n: State, id: Name)
    requires Reachable(s) && OpenAt(s, id)
    requires Leads(s, before, m) && Unused(s, before, id) && StartsTickAt(m, tick)
    requires m.sh.now > s.sh.txLastUsed + s.sh.timeout
    requires Leads(m, tick, n) && Unused(m, tick, id) && Obliging(tick)
    requires |n.procs| > 0 && n.procs[0].pc == AtMon(MonIdle) && Routed(n)
    ensures EndedWithin(n.sh.log.trace, id, s.sh.txLastUsed + s.sh.timeout, n.sh.now)
    ensures !CommittedIn(n.sh.log.trace, id) ==> RolledBackIn(n.sh.log.trace, id)
    ensures n.sh.timeout == s.sh.timeout
  {
    hide Leads, Unused, Routed, EndedWithin, PhaseOf, Inv;
    var db := ReachableWhole(s);
    var u := s.sh.txLastUsed;
    OpenIsTimely(db, s, id);
    TimelyAlways(db, s, before, m, id, u);
    assert Inv(s);
    StaffedAlways(s, before, m);
    TimelyAlways(db, m, tick, n, id, u);
    TickPursues(db, m, tick, n, id, u);
    hide Whole, Reachable;
    WithinIsEnd(n.sh.log.trace, id, u + s.sh.timeout, n.sh.now);
  }

  /** Of ticks T apart, exactly one falls into (u + T, u + 2T]. */
  lemma DueTick(first: int, period: int, u: int) returns (k: int)
    requires period > 0
    ensures u + period < first + k * period <= u + 2 * period
    ensures forall j :: u + period < first + j * period <= u + 2 * period ==> j == k
  {
    var d := u + 2 * period - first;
    k := d / period;
    assert d == k * period + d % period;
    forall j | u + period < first + j * period <= u + 2 * period ensures j == k {
      Apart(j, k, period);
    }
  }

  lemma Apart(j: int, k: int, period: int)
    requires period > 0
    ensures j < k ==> j * period <= k * period - period
    ensures j > k ==> j * period >= k * period + period
  {
    var d := j - k;
    assert j * period == k * period + d * period;
    if d < 0 {
      assert d * period <= -period;
    } else if d > 0 {
      assert d * period >= period;
    }
  }

  /** With ticks T apart, the k-th at first + k * T, each handled on time: if nobody ends the transaction
      or uses it later than u, the monitor rolls it back in (u + T, u + 2T]. */
  lemma PunctualTheorem(s: State, before: seq<Label>, m: State, tick: seq<Label>, n: State, id: Name,
                        first: int, k: int)
    requires Reachable(s) && OpenAt(s, id) && s.sh.timeout > 0
    requires Leads(s, before, m) && Unused(s, before, id) && StartsTickAt(m, tick)
    requires m.sh.now == first + k * s.sh.timeout
    requires s.sh.txLastUsed + s.sh.timeout < first + k * s.sh.timeout <= s.sh.txLastUsed + 2 * s.sh.timeout
    requires Leads(m, tick, n) && Unused(m, tick, id) && Obliging(tick) && n.sh.now == m.sh.now
    requires |n.procs| > 0 && n.procs[0].pc == AtMon(MonIdle) && Routed(n)
    ensures var u, T := s.sh.txLastUsed, s.sh.timeout;
            EndedWithin(n.sh.log.trace, id, u + T, u + 2 * T)
  {
    ExpiryTheorem(s, before, m, tick, n, id);
    WithinLater(n.sh.log.trace, id, s.sh.txLastUsed + s.sh.timeout, n.sh.now, s.sh.txLastUsed + 2 * s.sh.timeout);
  }
}
