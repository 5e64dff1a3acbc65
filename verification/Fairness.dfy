/**
 Every fair run drains.  Cut a run without new requests into rounds, from one rest of the idle monitor to
 a later one.  A round in which another goroutine steps, or the monitor handles a tick that is due,
 strictly lowers the measure of the pending work, whatever SQLite, the pool and the scheduler
 choose for the others.  So after as many rounds as the measure counts, nothing is pending.
 */
module Fairness {
  import opened Draining
  import opened Expiry
  import opened Frames
  import opened Gauges
  import opened History
  import opened Lifecycle
  import opened Locks
  import opened Progress
  import opened Protocol
  import opened Runs
  import opened Solo
  import opened Sqlite
  import opened Timeouts

  /** In the run, a goroutine other than the monitor steps. */
  predicate OthersStep(ls: seq<Label>) {
    exists k :: 0 <= k < |ls| && ls[k].Run? && ls[k].pid != 0
  }

  /** A goroutine other than the monitor can step. */
  ghost predicate CanWork(s: State) {
    exists pid: nat, c :: pid != 0 && Enabled(s, Run(pid, c))
  }

  ghost predicate MonitorRests(s: State) {
    |s.procs| > 0 && s.procs[0].pc == AtMon(MonIdle)
  }

  /** In the run, the monitor starts on a tick that comes more than the timeout after the last use. */
  ghost predicate StartsDueTick(s: State, ls: seq<Label>)
    decreases |ls|
  {
    ls != [] && Enabled(s, ls[0]) &&
    ((StartsTickAt(s, ls) && s.sh.now > s.sh.txLastUsed + s.sh.timeout) || StartsDueTick(Next(s, ls[0]), ls[1..]))
  }

  /** A stretch of a run without new requests, in which pool and SQLite cooperate with the monitor, from one
      rest of the monitor to another.  If the others can step, one of them does; if none of them
      does and a transaction is open, the monitor handles a tick that is due. */
  ghost predicate Round(m: State, ls: seq<Label>, n: State) {
    && Leads(m, ls, n) && NoArrivals(ls) && Obliging(ls) && MonitorRests(m) && MonitorRests(n)
    && (CanWork(m) ==> OthersStep(ls))
    && (m.sh.txID != NONE && !OthersStep(ls) ==> StartsDueTick(m, ls))
  }

  // ---- What one step does to the work of the others ----

  /** Goroutine 0 is the monitor, and no other is. */
  ghost predicate OneMonitor(s: State) {
    Staffed(s) && forall i :: 0 < i < |s.procs| ==> !s.procs[i].kind.Monitor?
  }

  lemma OneMonitorNext(s: State, l: Label)
    requires Inv(s) && OneMonitor(s) && Enabled(s, l)
    ensures OneMonitor(Next(s, l))
  {
    StaffedAlways(s, [l], Next(s, l)) by {
      LeadsOne(s, l);
    }
    if l.Run? {
      StepLocalOk(s.sh, s.procs[l.pid], l.c);
    }
    forall i | 0 < i < |Next(s, l).procs| ensures !Next(s, l).procs[i].kind.Monitor? {
      if i < |s.procs| {
        assert Next(s, l).procs[i].kind == s.procs[i].kind;
      }
    }
  }

  lemma {:induction false} OneMonitorAlways(s: State, ls: seq<Label>, t: State)
    requires Inv(s) && OneMonitor(s) && Leads(s, ls, t)
    ensures OneMonitor(t)
    decreases |ls|
  {
    if ls != [] {
      InvNext(s, ls[0]);
      OneMonitorNext(s, ls[0]);
      OneMonitorAlways(Next(s, ls[0]), ls[1..], t);
    }
  }

  /** The measure without the monitor's own share. */
  ghost function Load(s: State): int
    requires |s.procs| > 0
  {
    Measure(s) - Rank(s.procs[0].pc)
  }

  lemma LoadOthers(s: State, pid: nat, c: Choice)
    requires Inv(s) && OneMonitor(s) && Enabled(s, Run(pid, c)) && pid != 0
    ensures Load(Next(s, Run(pid, c))) < Load(s)
  {
    assert LocalOk(s.procs[pid]);
    RunDecreases(s, pid, c);
  }

  /** What a step of the monitor does to txID, and that it stores no time for anybody. */
  lemma MonitorStep(sh: Shared, me: Local, c: Choice)
    requires Can(sh, me, c) && Facts(sh, me) && me.kind.Monitor?
    ensures Act(sh, me, c).sh.txID == sh.txID || Act(sh, me, c).sh.txID == NONE
    ensures me.pc != AtBegin(PubTime) && !Touches(me.pc)
  {
    StepSteady(sh, me, c);
  }

  lemma LoadMonitor(s: State, c: Choice)
    requires Inv(s) && Staffed(s) && Enabled(s, Run(0, c))
    ensures var t := Next(s, Run(0, c));
            && t.procs[1..] == s.procs[1..]
            && if t.sh.txID == s.sh.txID then Load(t) == Load(s) else t.sh.txID == NONE && Load(t) < Load(s)
  {
    var me := s.procs[0];
    FactsHold(s, 0);
    MonitorStep(s.sh, me, c);
    TotalRankUpdate(s.procs, 0, Act(s.sh, me, c).me);
  }

  // ---- What a stretch of a run does ----

  /** The work of the others never grows; it shrinks if one of them steps, or if the monitor ends a
      transaction, which is all that the monitor does to it. */
  ghost predicate Eased(s: State, ls: seq<Label>, t: State)
    requires |s.procs| > 0 && |t.procs| > 0
  {
    && Load(t) <= Load(s) && (OthersStep(ls) ==> Load(t) < Load(s))
    && (!OthersStep(ls) ==> t.procs[1..] == s.procs[1..])
    && (!OthersStep(ls) ==> t.sh.txID == s.sh.txID || (t.sh.txID == NONE && Load(t) < Load(s)))
  }

  lemma EasedStep(s: State, l: Label)
    requires Inv(s) && OneMonitor(s) && Enabled(s, l) && (l.Run? || l.Advance?)
    ensures |Next(s, l).procs| > 0 && Eased(s, [l], Next(s, l))
  {
    if l.Run? {
      if l.pid != 0 {
        LoadOthers(s, l.pid, l.c);
        assert [l][0].pid != 0;
      } else {
        LoadMonitor(s, l.c);
      }
    }
  }

  lemma {:induction false} EasedRun(s: State, ls: seq<Label>, t: State)
    requires Inv(s) && OneMonitor(s) && Leads(s, ls, t) && NoArrivals(ls)
    ensures |t.procs| > 0 && Eased(s, ls, t)
    decreases |ls|
  {
    if ls != [] {
      var n := Next(s, ls[0]);
      InvNext(s, ls[0]);
      OneMonitorNext(s, ls[0]);
      EasedStep(s, ls[0]);
      hide Next, Inv, Load, Enabled, OneMonitor;
      EasedRun(n, ls[1..], t);
      OthersFirstOrLater(ls);
    }
  }

  lemma OthersFirstOrLater(ls: seq<Label>)
    requires ls != []
    ensures OthersStep(ls) <==> OthersStep([ls[0]]) || OthersStep(ls[1..])
  {
    if k :| 0 <= k < |ls| && ls[k].Run? && ls[k].pid != 0 {
      if k == 0 {
        assert [ls[0]][0] == ls[k];
      } else {
        assert ls[1..][k - 1] == ls[k];
      }
    }
  }

  // ---- A tick that is due, with nobody else at work ----

  /** Everybody but the monitor has finished, or waits for the open transaction. */
  ghost predicate OthersWait(s: State) {
    |s.procs| > 0 &&
    forall me | me in s.procs[1..] :: Finished(me.pc) || WaitsForTx(me.pc)
  }

  lemma {:induction false} MonitorUses(s: State, ls: seq<Label>, t: State, id: Name)
    requires Inv(s) && OneMonitor(s) && Leads(s, ls, t) && NoArrivals(ls) && !OthersStep(ls)
    ensures Unused(s, ls, id)
    decreases |ls|
  {
    if ls != [] {
      var n := Next(s, ls[0]);
      InvNext(s, ls[0]);
      OneMonitorNext(s, ls[0]);
      OthersFirstOrLater(ls);
      if ls[0].Run? {
        assert [ls[0]][0].pid == 0;
        FactsHold(s, 0);
        MonitorStep(s.sh, s.procs[0], ls[0].c);
      }
      hide Next, Inv, Enabled, OneMonitor;
      MonitorUses(n, ls[1..], t, id);
    }
  }

  /** With nobody at work, txID names a transaction that has not ended. */
  lemma NamesActive(db: Db, s: State)
    requires Whole(db, s) && MonitorRests(s) && OthersWait(s) && s.sh.txID != NONE
    ensures PhaseOf(s.sh.log.trace, s.sh.txID).Active? && OpenAt(s, s.sh.txID)
  {
    forall i | 0 <= i < |s.procs| ensures !EndedUncleared(s.procs[i].pc) && !RollingBack(s.procs[i]) {
      if i > 0 {
        assert s.procs[i] == s.procs[1..][i - 1];
      }
    }
  }

  lemma DueTickEnds(db: Db, m: State, tick: seq<Label>, n: State)
    requires Whole(db, m) && OneMonitor(m) && OthersWait(m) && m.sh.txID != NONE
    requires m.sh.now > m.sh.txLastUsed + m.sh.timeout && StartsTickAt(m, tick)
    requires Leads(m, tick, n) && NoArrivals(tick) && !OthersStep(tick) && Obliging(tick)
    requires Routed(n) && MonitorRests(n)
    ensures n.sh.txID == NONE
  {
    var id, u := m.sh.txID, m.sh.txLastUsed;
    NamesActive(db, m);
    OpenIsTimely(db, m, id);
    MonitorUses(m, tick, n, id);
    TickPursues(db, m, tick, n, id, u);
    WholeAlways(db, m, tick, n);
    EasedRun(m, tick, n);
    hide Whole, Timely, Leads, Unused, StartsTickAt, Obliging, NoArrivals, OthersStep, Routed;
    if n.sh.txID != NONE {
      NamesActive(db, n);
    }
  }

  lemma {:induction false} StretchEnds(db: Db, s: State, ls: seq<Label>, t: State)
    requires Whole(db, s) && OneMonitor(s) && OthersWait(s) && s.sh.txID != NONE && StartsDueTick(s, ls)
    requires Leads(s, ls, t) && NoArrivals(ls) && !OthersStep(ls) && Obliging(ls) && Routed(t) && MonitorRests(t)
    ensures t.sh.txID == NONE
    decreases |ls|
  {
    if StartsTickAt(s, ls) && s.sh.now > s.sh.txLastUsed + s.sh.timeout {
      DueTickEnds(db, s, ls, t);
    } else {
      var n := Next(s, ls[0]);
      WholeNext(db, s, ls[0]);
      OneMonitorNext(s, ls[0]);
      OthersFirstOrLater(ls);
      EasedStep(s, ls[0]);
      EasedRun(n, ls[1..], t);
      hide Next, Whole, Inv, Enabled, Routed;
      if n.sh.txID != NONE {
        StretchEnds(db, n, ls[1..], t);
      }
    }
  }

  // ---- Rounds ----

  /** If the others cannot work, they wait for an open transaction, or nothing is pending. */
  lemma NobodyCanWork(s: State)
    requires Inv(s) && OneMonitor(s) && MonitorRests(s) && !CanWork(s)
    ensures OthersWait(s) && (s.sh.txID == NONE ==> Measure(s) == 0)
  {
    forall i | 0 <= i < |s.procs| ensures Unfinished(s.procs[i]) ==> s.sh.txID != NONE && WaitsForTx(s.procs[i].pc) {
      if Unfinished(s.procs[i]) && (s.sh.txID == NONE || !WaitsForTx(s.procs[i].pc)) {
        var pid, c := NoDeadlock(s, i);
        assert false;
      }
    }
    forall i | 0 < i < |s.procs| ensures s.procs[i].pc != AtMon(MonIdle) {
      assert LocalOk(s.procs[i]);
    }
    if s.sh.txID == NONE {
      RanksZero(s.procs);
    }
  }

  lemma {:induction false} RanksZero(procs: seq<Local>)
    requires forall i :: 0 <= i < |procs| ==> !Unfinished(procs[i])
    ensures TotalRank(procs) == 0
  {
    if procs != [] {
      RanksZero(procs[..|procs| - 1]);
    }
  }

  lemma {:induction false} ZeroRanks(procs: seq<Local>, i: nat)
    requires TotalRank(procs) == 0 && i < |procs|
    ensures !Unfinished(procs[i])
  {
    if i < |procs| - 1 {
      ZeroRanks(procs[..|procs| - 1], i);
    }
  }

  /** A round lowers the measure, as long as there is anything to lower. */
  lemma RoundLowers(db: Db, m: State, ls: seq<Label>, n: State)
    requires Whole(db, m) && OneMonitor(m) && Round(m, ls, n) && Routed(n)
    ensures Measure(n) <= Measure(m) && (Measure(m) > 0 ==> Measure(n) < Measure(m))
  {
    EasedRun(m, ls, n);
    assert Measure(n) - Measure(m) == Load(n) - Load(m);
    if !OthersStep(ls) {
      NobodyCanWork(m);
      if m.sh.txID != NONE {
        StretchEnds(db, m, ls, n);
      }
    }
  }

  /** A state with nothing pending has drained. */
  lemma NothingPending(s: State)
    requires Inv(s) && Staffed(s) && !s.sh.stopped && Routed(s) && Measure(s) == 0
    ensures Drained(s)
  {
    forall i | 0 <= i < |s.procs| ensures !Unfinished(s.procs[i]) {
      ZeroRanks(s.procs, i);
    }
    WaitingState(s);
  }

  /** A run cut into rounds: round k leads from states[k] to states[k + 1]. */
  ghost predicate Rounds(states: seq<State>, rounds: seq<seq<Label>>) {
    |states| == |rounds| + 1 && forall k :: 0 <= k < |rounds| ==> Round(states[k], rounds[k], states[k + 1])
  }

  lemma RoundsTail(states: seq<State>, rounds: seq<seq<Label>>)
    requires Rounds(states, rounds) && rounds != []
    ensures Rounds(states[1..], rounds[1..]) && states[1..][|rounds| - 1] == states[|rounds|]
  {
    forall k | 0 <= k < |rounds| - 1 ensures Round(states[1..][k], rounds[1..][k], states[1..][k + 1]) {
      assert Round(states[k + 1], rounds[k + 1], states[k + 2]);
    }
  }

  lemma {:induction false} StaysOpen(s: State, ls: seq<Label>, t: State)
    requires Leads(s, ls, t) && NoArrivals(ls) && !s.sh.stopped
    ensures !t.sh.stopped
    decreases |ls|
  {
    if ls != [] {
      if ls[0].Run? {
        StepFramed(s.sh, s.procs[ls[0].pid], ls[0].c);
      }
      StaysOpen(Next(s, ls[0]), ls[1..], t);
    }
  }

  lemma {:induction false} RoundsLower(db: Db, states: seq<State>, rounds: seq<seq<Label>>)
    requires Rounds(states, rounds) && Whole(db, states[0]) && OneMonitor(states[0]) && !states[0].sh.stopped
    requires Routed(states[|rounds|])
    ensures var t := states[|rounds|];
            && Whole(db, t) && OneMonitor(t) && !t.sh.stopped
            && (Measure(t) == 0 || Measure(t) + |rounds| <= Measure(states[0]))
    decreases |rounds|
  {
    if rounds != [] {
      var s, n, t := states[0], states[1], states[|rounds|];
      assert Round(s, rounds[0], n);
      WholeAlways(db, s, rounds[0], n);
      OneMonitorAlways(s, rounds[0], n);
      StaysOpen(s, rounds[0], n);
      RoundsTail(states, rounds);
      RoutedThroughout(db, states, rounds);
      RoundLowers(db, s, rounds[0], n);
      hide Round, Whole, Measure, OneMonitor, Routed;
      RoundsLower(db, states[1..], rounds[1..]);
    }
  }

  lemma {:induction false} RoutedThroughout(db: Db, states: seq<State>, rounds: seq<seq<Label>>)
    requires Rounds(states, rounds) && Whole(db, states[0]) && Routed(states[|rounds|])
    ensures forall k :: 0 <= k <= |rounds| ==> Routed(states[k])
    decreases |rounds|
  {
    if rounds != [] {
      assert Round(states[0], rounds[0], states[1]);
      WholeAlways(db, states[0], rounds[0], states[1]);
      RoundsTail(states, rounds);
      RoutedThroughout(db, states[1..], rounds[1..]);
      assert forall k :: 1 <= k <= |rounds| ==> states[k] == states[1..][k - 1];
      RoutedEarlier(db, states[0], rounds[0], states[1]);
    }
  }

  /** Every run without new requests that goes through as many fair rounds as the measure of its first
      state counts, or more, has drained: every call has finished and no transaction is open. */
  lemma FairTheorem(states: seq<State>, rounds: seq<seq<Label>>)
    requires Rounds(states, rounds) && Reachable(states[0]) && !states[0].sh.stopped && Routed(states[|rounds|])
    requires |rounds| >= Measure(states[0])
    ensures Drained(states[|rounds|])
  {
    var s0, pre :| Initial(s0) && Leads(s0, pre, states[0]);
    WholeInitial(s0);
    WholeAlways(s0.sh.conn.committed, s0, pre, states[0]);
    OneMonitorAlways(s0, pre, states[0]);
    RoundsLower(s0.sh.conn.committed, states, rounds);
    NothingPending(states[|rounds|]);
  }

  // ---- Every run can go on fairly ----

  lemma RestsOrWorks(s: State)
    requires Inv(s) && OneMonitor(s)
    ensures MonitorRests(s) || Unfinished(s.procs[0])
  {
    assert LocalOk(s.procs[0]);
  }

  /** A tick under way comes to its end, with the choices of everybody cooperating. */
  lemma TickGoesOn(s: State) returns (ls: seq<Label>, t: State)
    requires Inv(s) && OneMonitor(s) && Attended(s) && Routed(s)
    ensures Leads(s, ls, t) && NoArrivals(ls) && Obliging(ls) && MonitorRests(t) && Routed(t)
    decreases Measure(s)
  {
    RestsOrWorks(s);
    if MonitorRests(s) {
      ls, t := [], s;
    } else {
      var pid, c := NoDeadlock(s, 0);
      var n := Next(s, Run(pid, c));
      RunDecreases(s, pid, c);
      AttendedRun(s, pid, c);
      InvNext(s, Run(pid, c));
      OneMonitorNext(s, Run(pid, c));
      hide Inv, OneMonitor, Attended, Routed, Measure, Next;
      var ms;
      ms, t := TickGoesOn(n);
      ls := [Run(pid, c)] + ms;
      assert ls[1..] == ms;
    }
  }

  /** Time passes, if it has to, and the monitor handles a tick that is due. */
  lemma DueTickGoesOn(m: State) returns (ls: seq<Label>, n: State)
    requires Inv(m) && OneMonitor(m) && Attended(m) && Routed(m) && MonitorRests(m)
    ensures Leads(m, ls, n) && NoArrivals(ls) && Obliging(ls) && MonitorRests(n) && Routed(n) && StartsDueTick(m, ls)
  {
    var d: nat := if m.sh.txLastUsed + m.sh.timeout < m.sh.now then 0
        else m.sh.txLastUsed + m.sh.timeout + 1 - m.sh.now;
    var late := Next(m, Advance(d));
    var l := Run(0, GOOD);
    var s := Next(late, l);
    InvNext(m, Advance(d));
    InvNext(late, l);
    OneMonitorNext(m, Advance(d));
    OneMonitorNext(late, l);
    AttendedRun(late, 0, GOOD);
    var ms;
    ms, n := TickGoesOn(s);
    ls := [Advance(d), l] + ms;
    assert ls[1..] == [l] + ms && ls[1..][1..] == ms;
    hide Inv, OneMonitor, Attended, Routed, Next, MonitorRests;
    assert StartsTickAt(late, ls[1..]);
  }

  /** From every reachable state in which the monitor rests, the run can go on with a fair round. */
  lemma FairRoundExists(m: State) returns (ls: seq<Label>, n: State)
    requires Reachable(m) && Routed(m) && !m.sh.stopped && MonitorRests(m)
    ensures Round(m, ls, n) && Routed(n)
  {
    var s0, pre :| Initial(s0) && Leads(s0, pre, m);
    InitialInv(s0);
    OneMonitorAlways(s0, pre, m);
    ReachableInv(m);
    if pid: nat, c :| pid != 0 && Enabled(m, Run(pid, c)) {
      AttendedRun(m, pid, c);
      ls, n := [Run(pid, c)], Next(m, Run(pid, c));
      LeadsOne(m, Run(pid, c));
      assert ls[0].pid != 0;
    } else {
      ls, n := DueTickGoesOn(m);
    }
  }
}
