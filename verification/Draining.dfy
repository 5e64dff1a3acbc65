/**
 If clients stop sending, every call finishes and the open transaction ends: the calls that can step
 do, and when only waiting ones are left, the idle monitor rolls the transaction back.
 */
module Draining {
  import opened Frames
  import opened Gauges
  import opened History
  import opened Locks
  import opened Progress
  import opened Protocol
  import opened Solo
  import opened Sqlite

  lemma {:induction false} LeadsCompose(s: State, ls: seq<Label>, t: State, ms: seq<Label>, u: State)
    requires Leads(s, ls, t) && Leads(t, ms, u)
    ensures Leads(s, ls + ms, u)
    decreases |ls|
  {
    if ls == [] {
      assert ls + ms == ms;
    } else {
      LeadsCompose(Next(s, ls[0]), ls[1..], t, ms, u);
      assert (ls + ms)[1..] == ls[1..] + ms;
    }
  }

  lemma LeadsOne(s: State, l: Label)
    requires Enabled(s, l)
    ensures Leads(s, [l], Next(s, l))
  {
    assert [l][1..] == [];
    assert Leads(Next(s, l), [], Next(s, l));
  }

  /** No request and no shutdown arrives; goroutines step and time passes. */
  predicate NoArrivals(ls: seq<Label>) {
    forall k :: 0 <= k < |ls| ==> ls[k].Run? || ls[k].Advance?
  }

  /** The monitor is there and works as administrator, and there is a read-only connection. */
  ghost predicate Staffed(s: State) {
    |s.procs| > 0 && s.procs[0].kind.Monitor? && s.procs[0].q.role == Admin && |s.sh.ro| > 0
  }

  ghost predicate Attended(s: State) {
    Staffed(s) && !s.sh.stopped
  }

  lemma {:induction false} StaffedAlways(s: State, ls: seq<Label>, t: State)
    requires Inv(s) && Staffed(s) && Leads(s, ls, t)
    ensures Staffed(t)
    decreases |ls|
  {
    if ls != [] {
      if ls[0].Run? {
        StepFramed(s.sh, s.procs[ls[0].pid], ls[0].c);
        StepLocalOk(s.sh, s.procs[ls[0].pid], ls[0].c);
      }
      InvNext(s, ls[0]);
      StaffedAlways(Next(s, ls[0]), ls[1..], t);
    }
  }

  lemma AttendedRun(s: State, pid: nat, c: Choice)
    requires Inv(s) && Attended(s) && Routed(s) && Enabled(s, Run(pid, c))
    ensures Attended(Next(s, Run(pid, c))) && Routed(Next(s, Run(pid, c)))
  {
    StepFramed(s.sh, s.procs[pid], c);
    StepLocalOk(s.sh, s.procs[pid], c);
  }

  /** Everything has finished, and no transaction is open anywhere. */
  ghost predicate Drained(s: State) {
    Quiescent(s) && s.sh.txID == NONE && !s.sh.txMu && !s.sh.conn.inTx
  }

  /** Only calls that wait for the open transaction are left. */
  ghost predicate OnlyWaiting(s: State) {
    forall i :: 0 <= i < |s.procs| ==> !Unfinished(s.procs[i]) || WaitsForTx(s.procs[i].pc)
  }

  lemma WaitingState(s: State)
    requires Inv(s) && Attended(s) && Routed(s) && OnlyWaiting(s)
    ensures !s.sh.txOpMu && !s.sh.writeMu && (s.sh.conn.inTx <==> s.sh.txID != NONE)
    ensures s.sh.txMu <==> s.sh.txID != NONE
    ensures s.procs[0].pc == AtMon(MonIdle)
  {
    forall i | 0 <= i < |s.procs|
      ensures Weigh(Op, s.procs[i]) == Weigh(Rw, s.procs[i]) == Weigh(Agree, s.procs[i]) == 0
      ensures Weigh(Token, s.procs[i]) == 0
    {
      assert LocalOk(s.procs[i]);
    }
    assert LocalOk(s.procs[0]);
    TotalZero(Op, s.procs);
    TotalZero(Rw, s.procs);
    TotalZero(Agree, s.procs);
    TotalZero(Token, s.procs);
    assert Applies(Op, s) && Applies(Rw, s) && Applies(Agree, s) && Applies(Token, s);
  }

  /** With only waiting calls left, time passes and the monitor's next tick ends the transaction. */
  lemma TickEnds(s: State) returns (ls: seq<Label>, t: State)
    requires Inv(s) && Attended(s) && Routed(s) && OnlyWaiting(s) && s.sh.txID != NONE
    ensures Leads(s, ls, t) && NoArrivals(ls)
    ensures Attended(t) && Routed(t) && Measure(t) < Measure(s)
  {
    WaitingState(s);
    var d: nat := if s.sh.txLastUsed + s.sh.timeout < s.sh.now then 0
        else s.sh.txLastUsed + s.sh.timeout + 1 - s.sh.now;
    var n := Next(s, Advance(d));
    var me := n.procs[0];
    var turn := Turn(Ticked(n.sh, me), Holding(me, n.sh.txID, AtMon(MonIdle)));
    ExpiredTick(n.sh, me);
    var ms := AloneLeads(n, 0, turn);
    t := State(turn.sh, n.procs[0 := turn.me]);
    LeadsOne(s, Advance(d));
    LeadsCompose(s, [Advance(d)], n, ms, t);
    ls := [Advance(d)] + ms;
    TotalRankUpdate(n.procs, 0, turn.me);
  }

  lemma Drain(s: State) returns (ls: seq<Label>, t: State)
    requires Inv(s) && Attended(s) && Routed(s)
    ensures Leads(s, ls, t) && NoArrivals(ls) && Drained(t)
    decreases Measure(s)
  {
    if i :| 0 <= i < |s.procs| && Unfinished(s.procs[i]) && (s.sh.txID == NONE || !WaitsForTx(s.procs[i].pc)) {
      var pid, c := NoDeadlock(s, i);
      var n := Next(s, Run(pid, c));
      RunDecreases(s, pid, c);
      AttendedRun(s, pid, c);
      InvNext(s, Run(pid, c));
      var ms;
      ms, t := Drain(n);
      LeadsOne(s, Run(pid, c));
      LeadsCompose(s, [Run(pid, c)], n, ms, t);
      ls := [Run(pid, c)] + ms;
    } else if s.sh.txID != NONE {
      var ks, n := TickEnds(s);
      InvAlways(s, ks, n);
      var ms;
      ms, t := Drain(n);
      LeadsCompose(s, ks, n, ms, t);
      ls := ks + ms;
    } else {
      WaitingState(s);
      ls, t := [], s;
    }
  }

  /** In every reachable state with an unfinished request, as long as the database is open, somebody can
      step, and not only by being refused; and it is a goroutine at work, unless all that is left waits for
      the open transaction. */
  lemma NeverStuck(s: State, i: nat) returns (pid: nat, c: Choice)
    requires Reachable(s) && !s.sh.stopped && i < |s.procs| && Unfinished(s.procs[i])
    ensures Enabled(s, Run(pid, c)) && c.ok
    ensures Unfinished(s.procs[pid]) || (OnlyWaiting(s) && s.sh.txID != NONE && pid == 0)
  {
    var s0, pre :| Initial(s0) && Leads(s0, pre, s);
    InitialInv(s0);
    StaffedAlways(s0, pre, s);
    ReachableInv(s);
    if s.sh.txID == NONE || !WaitsForTx(s.procs[i].pc) {
      pid, c := NoDeadlock(s, i);
    } else if j :| 0 <= j < |s.procs| && Unfinished(s.procs[j]) && !WaitsForTx(s.procs[j].pc) {
      pid, c := NoDeadlock(s, j);
    } else {
      pid, c := 0, GOOD;
      assert LocalOk(s.procs[0]);
    }
  }

  // ---- Every run without arrivals ----

  ghost function Steps(ls: seq<Label>): nat {
    if ls == [] then 0 else (if ls[0].Run? then 1 else 0) + Steps(ls[1..])
  }

  /** How often the monitor starts on a tick in the run. */
  ghost function Ticks(s: State, ls: seq<Label>): nat
    decreases |ls|
  {
    if ls == [] || !Enabled(s, ls[0]) then 0
    else (if StartsTick(s, ls[0]) then 1 else 0) + Ticks(Next(s, ls[0]), ls[1..])
  }

  /** What a tick adds to the measure, and the step that starts it. */
  const TICK: nat := 16

  lemma TickCosts(s: State, pid: nat, c: Choice)
    requires Enabled(s, Run(pid, c)) && StartsTick(s, Run(pid, c))
    ensures Measure(Next(s, Run(pid, c))) + 1 == Measure(s) + TICK
  {
    assert Act(s.sh, s.procs[pid], c) == ActMon(s.sh, s.procs[pid]);
    TotalRankUpdate(s.procs, pid, Act(s.sh, s.procs[pid], c).me);
  }

  /** In every run without new requests, whatever SQLite and the scheduler choose, the number of steps is
      bounded by the measure of the pending work and a constant for each tick. */
  lemma {:induction false} StepsAreBounded(s: State, ls: seq<Label>, t: State)
    requires Inv(s) && Leads(s, ls, t) && NoArrivals(ls)
    ensures Steps(ls) + Measure(t) <= Measure(s) + TICK * Ticks(s, ls)
    decreases |ls|
  {
    if ls != [] {
      var n := Next(s, ls[0]);
      InvNext(s, ls[0]);
      if ls[0].Run? {
        if StartsTick(s, ls[0]) {
          TickCosts(s, ls[0].pid, ls[0].c);
        } else {
          RunDecreases(s, ls[0].pid, ls[0].c);
        }
      }
      assert NoArrivals(ls[1..]);
      hide Next, Inv, Measure;
      StepsAreBounded(n, ls[1..], t);
    }
  }

  /** A run that can go on only with new ticks has finished every call but those that wait for the open
      transaction; without an open transaction it has drained. */
  lemma OnlyTicksLeft(s: State)
    requires Reachable(s) && Routed(s) && !s.sh.stopped
    requires forall pid, c :: Enabled(s, Run(pid, c)) ==> StartsTick(s, Run(pid, c))
    ensures OnlyWaiting(s)
    ensures s.sh.txID == NONE ==> Drained(s)
  {
    var s0, pre :| Initial(s0) && Leads(s0, pre, s);
    InitialInv(s0);
    StaffedAlways(s0, pre, s);
    ReachableInv(s);
    forall i | 0 <= i < |s.procs| && Unfinished(s.procs[i])
      ensures WaitsForTx(s.procs[i].pc) && s.sh.txID != NONE
    {
      if s.sh.txID == NONE || !WaitsForTx(s.procs[i].pc) {
        var pid, c := NoDeadlock(s, i);
      }
    }
    WaitingState(s);
  }

  /** From every reachable state in which the database is still open there is a run without new
      requests that finishes every call and leaves no transaction open. */
  lemma DrainTheorem(s: State) returns (ls: seq<Label>, t: State)
    requires Reachable(s) && Routed(s) && !s.sh.stopped
    ensures Leads(s, ls, t) && NoArrivals(ls) && Drained(t)
  {
    var s0, pre :| Initial(s0) && Leads(s0, pre, s);
    InitialInv(s0);
    StaffedAlways(s0, pre, s);
    ReachableInv(s);
    ls, t := Drain(s);
  }
}
