/**
 The inductive invariant of the coordinator, and what it says about the three mutexes.
 */
module Locks {
  import opened Frames
  import opened Gauges
  import opened History
  import opened Protocol
  import opened Sqlite

  // ---- Sums over all goroutines ----

  ghost function Total(g: Gauge, procs: seq<Local>): int {
    if procs == [] then 0
    else Total(g, procs[..|procs| - 1]) + Weigh(g, procs[|procs| - 1])
  }

  lemma {:induction false} TotalUpdate(g: Gauge, procs: seq<Local>, i: nat, me: Local)
    requires i < |procs|
    ensures Total(g, procs[i := me]) == Total(g, procs) - Weigh(g, procs[i]) + Weigh(g, me)
  {
    var n := |procs| - 1;
    if i == n {
      assert procs[i := me][..n] == procs[..n];
    } else {
      TotalUpdate(g, procs[..n], i, me);
      assert procs[i := me][..n] == procs[..n][i := me];
    }
  }

  lemma TotalAppend(g: Gauge, procs: seq<Local>, me: Local)
    ensures Total(g, procs + [me]) == Total(g, procs) + Weigh(g, me)
  {
    assert (procs + [me])[..|procs|] == procs;
  }

  predicate Signless(g: Gauge) {
    !g.Agree? && !g.Open?
  }

  lemma {:induction false} TotalAtLeast(g: Gauge, procs: seq<Local>, i: nat)
    requires i < |procs| && Signless(g)
    ensures Total(g, procs) >= Weigh(g, procs[i]) >= 0
  {
    var n := |procs| - 1;
    if i < n {
      TotalAtLeast(g, procs[..n], i);
    } else if n > 0 {
      TotalAtLeast(g, procs[..n], 0);
    }
  }

  lemma {:induction false} TotalAtLeastTwo(g: Gauge, procs: seq<Local>, i: nat, j: nat)
    requires i < j < |procs| && Signless(g)
    ensures Total(g, procs) >= Weigh(g, procs[i]) + Weigh(g, procs[j])
  {
    var n := |procs| - 1;
    if j < n {
      TotalAtLeastTwo(g, procs[..n], i, j);
    } else {
      TotalAtLeast(g, procs[..n], i);
    }
  }

  lemma {:induction false} TotalZero(g: Gauge, procs: seq<Local>)
    requires forall j :: 0 <= j < |procs| ==> Weigh(g, procs[j]) == 0
    ensures Total(g, procs) == 0
  {
    if procs != [] {
      TotalZero(g, procs[..|procs| - 1]);
    }
  }

  /** If every other goroutine weighs nothing, the total is the one that is left. */
  lemma TotalOfOne(g: Gauge, procs: seq<Local>, i: nat)
    requires i < |procs| && forall j :: 0 <= j < |procs| && j != i ==> Weigh(g, procs[j]) == 0
    ensures Total(g, procs) == Weigh(g, procs[i])
  {
    var idle := procs[i].(pc := AtCall(Fail), held := false);
    TotalUpdate(g, procs, i, idle);
    TotalZero(g, procs[i := idle]);
  }

  // ---- The invariant ----

  /** Every statement routed as a read or a write leaves the SQLite transaction alone. */
  ghost predicate Routed(s: State) {
    forall i :: 0 <= i < |s.procs| ==> s.procs[i].q.stmt.control.Plain?
  }

  ghost predicate Applies(g: Gauge, s: State) {
    g.Agree? ==> Routed(s)
  }

  ghost predicate Inv(s: State) {
    && |s.procs| > 0
    && !s.sh.fault
    && (forall i :: 0 <= i < |s.procs| ==> LocalOk(s.procs[i]))
    && (forall i :: 0 <= i < |s.procs| && Validated(s.procs[i]) ==> s.procs[i].q.txID == s.sh.txID)
    && (forall g | Applies(g, s) :: Total(g, s.procs) == Level(g, s.sh))
  }

  lemma InitialLevels(s: State, g: Gauge)
    requires Initial(s)
    ensures Level(g, s.sh) == Weigh(g, IdleMonitor()) == 0
  {
  }

  lemma InitialInv(s: State)
    requires Initial(s)
    ensures Inv(s)
  {
    var m := IdleMonitor();
    assert s.procs == [] + [m];
    assert LocalOk(m) && !Validated(m);
    forall g ensures Total(g, s.procs) == Level(g, s.sh) {
      InitialLevels(s, g);
      hide Level, Weigh;
      TotalAppend(g, [], m);
    }
  }

  /** The two mutexes and each read-only connection are held by one goroutine at a time. */
  lemma Exclusive(s: State, g: Gauge, i: nat, j: nat)
    requires Inv(s) && i < |s.procs| && j < |s.procs| && i != j
    requires g.Token? || g.Op? || g.Rw? || g.Ro?
    requires Weigh(g, s.procs[i]) == 1
    ensures Weigh(g, s.procs[j]) == 0
  {
    TotalAtLeastTwo(g, s.procs, if i < j then i else j, if i < j then j else i);
    assert Applies(g, s);
  }

  lemma FactsHold(s: State, i: nat)
    requires Inv(s) && i < |s.procs|
    ensures Facts(s.sh, s.procs[i])
  {
    var me := s.procs[i];
    TotalAtLeast(Token, s.procs, i);
    TotalAtLeast(Op, s.procs, i);
    TotalAtLeast(Rw, s.procs, i);
    assert Applies(Token, s) && Applies(Op, s) && Applies(Rw, s);
    if me.pc.AtRo? && !me.pc.roAt.RoAcquire? {
      TotalAtLeast(Ro(me.pc.roAt.c), s.procs, i);
      assert Applies(Ro(me.pc.roAt.c), s);
    }
  }

  /** What a step leaves behind for the others: nobody else's transaction is changed under it. */
  lemma RunKeepsValidated(s: State, pid: nat, c: Choice, j: nat)
    requires Inv(s) && Enabled(s, Run(pid, c)) && j < |s.procs| && Validated(s.procs[j])
    ensures pid != j ==> Act(s.sh, s.procs[pid], c).sh.txID == s.procs[j].q.txID
  {
    FactsHold(s, pid);
    FactsHold(s, j);
    StepSteady(s.sh, s.procs[pid], c);
    if pid != j && s.procs[pid].pc.AtEnd? {
      Exclusive(s, Op, pid, j);
      assert false;
    }
  }

  lemma InvRun(s: State, pid: nat, c: Choice)
    requires Inv(s) && Enabled(s, Run(pid, c))
    ensures Inv(Next(s, Run(pid, c)))
  {
    var me := s.procs[pid];
    var me' := Act(s.sh, me, c).me;
    var t := Next(s, Run(pid, c));
    FactsHold(s, pid);
    StepLocalOk(s.sh, me, c);
    StepSteady(s.sh, me, c);
    forall j | 0 <= j < |t.procs| && Validated(t.procs[j]) ensures t.procs[j].q.txID == t.sh.txID {
      if j != pid {
        RunKeepsValidated(s, pid, c, j);
      }
    }
    forall g | Applies(g, t) ensures Total(g, t.procs) == Level(g, t.sh) {
      assert Applies(g, s) by {
        if g.Agree? {
          forall i | 0 <= i < |s.procs| ensures s.procs[i].q.stmt.control.Plain? {
            assert t.procs[i].q.stmt == s.procs[i].q.stmt;
          }
        }
      }
      Balance(s.sh, me, c, g);
      TotalUpdate(g, s.procs, pid, me');
    }
  }

  lemma InvAppend(s: State, t: State, me: Local)
    requires Inv(s) && t.procs == s.procs + [me]
    requires LocalOk(me) && !Validated(me) && (forall g :: Weigh(g, me) == 0)
    requires t.sh.txID == s.sh.txID && !t.sh.fault && forall g :: Level(g, t.sh) == Level(g, s.sh)
    ensures Inv(t)
  {
    forall g | Applies(g, t) ensures Total(g, t.procs) == Level(g, t.sh) {
      assert Applies(g, s) by {
        if g.Agree? {
          forall i | 0 <= i < |s.procs| ensures s.procs[i].q.stmt.control.Plain? {
            assert t.procs[i] == s.procs[i];
          }
        }
      }
      TotalAppend(g, s.procs, me);
    }
  }

  lemma InvArrive(s: State, q: Query)
    requires Inv(s) && Enabled(s, Arrive(q))
    ensures Inv(Next(s, Arrive(q)))
  {
    InvAppend(s, Next(s, Arrive(q)), Caller(q));
  }

  lemma InvShutdown(s: State)
    requires Inv(s) && Enabled(s, Shutdown)
    ensures Inv(Next(s, Shutdown))
  {
    InvAppend(s, Next(s, Shutdown), CloseCall());
  }

  lemma InvAdvance(s: State, d: nat)
    requires Inv(s)
    ensures Inv(Next(s, Advance(d)))
  {
    var t := Next(s, Advance(d));
    forall g | Applies(g, t) ensures Total(g, t.procs) == Level(g, t.sh) {
      assert Applies(g, s);
    }
  }

  lemma InvNext(s: State, l: Label)
    requires Inv(s) && Enabled(s, l)
    ensures Inv(Next(s, l))
  {
    match l
    case Run(pid, c) => InvRun(s, pid, c);
    case Arrive(q) => InvArrive(s, q);
    case Advance(d) => InvAdvance(s, d);
    case Shutdown => InvShutdown(s);
  }

  /** The invariant holds after every run. */
  lemma {:induction false} InvAlways(s: State, ls: seq<Label>, t: State)
    requires Inv(s) && Leads(s, ls, t)
    ensures Inv(t)
    decreases |ls|
  {
    if ls != [] {
      InvNext(s, ls[0]);
      InvAlways(Next(s, ls[0]), ls[1..], t);
    }
  }

  lemma ReachableInv(t: State)
    requires Reachable(t)
    ensures Inv(t)
  {
    var s, ls :| Initial(s) && Leads(s, ls, t);
    InitialInv(s);
    InvAlways(s, ls, t);
  }

  // ---- What the mutexes mean ----

  /** txMu is locked exactly when an open transaction keeps it or one goroutine is to unlock it;
      never both, and never two goroutines. */
  lemma TokenIsExact(s: State)
    requires Reachable(s)
    ensures s.sh.txMu <==> s.sh.txID != NONE || exists i :: 0 <= i < |s.procs| && HasToken(s.procs[i])
    ensures forall i :: 0 <= i < |s.procs| && HasToken(s.procs[i]) ==> s.sh.txID == NONE
    ensures forall i, j :: 0 <= i < j < |s.procs| ==> !HasToken(s.procs[i]) || !HasToken(s.procs[j])
  {
    ReachableInv(s);
    assert Applies(Token, s);
    forall i | 0 <= i < |s.procs| && HasToken(s.procs[i]) ensures s.sh.txMu && s.sh.txID == NONE {
      FactsHold(s, i);
    }
    forall i, j | 0 <= i < j < |s.procs| ensures !HasToken(s.procs[i]) || !HasToken(s.procs[j]) {
      if HasToken(s.procs[i]) {
        Exclusive(s, Token, i, j);
      }
    }
    TotalAtLeast(Token, s.procs, 0);
    if s.sh.txMu && !exists i :: 0 <= i < |s.procs| && HasToken(s.procs[i]) {
      TotalZero(Token, s.procs);
    }
  }

  /** txOpMu is locked exactly when one goroutine holds it, and likewise writeMu. */
  lemma OpAndWriteAreExact(s: State)
    requires Reachable(s)
    ensures s.sh.txOpMu <==> exists i :: 0 <= i < |s.procs| && HasOp(s.procs[i])
    ensures forall i, j :: 0 <= i < j < |s.procs| ==> !HasOp(s.procs[i]) || !HasOp(s.procs[j])
    ensures s.sh.writeMu <==> exists i :: 0 <= i < |s.procs| && InRw(s.procs[i].pc)
  {
    ReachableInv(s);
    assert Applies(Op, s) && Applies(Rw, s);
    forall i | 0 <= i < |s.procs|
      ensures HasOp(s.procs[i]) ==> s.sh.txOpMu
      ensures InRw(s.procs[i].pc) ==> s.sh.writeMu
    {
      FactsHold(s, i);
    }
    forall i, j | 0 <= i < j < |s.procs| ensures !HasOp(s.procs[i]) || !HasOp(s.procs[j]) {
      if HasOp(s.procs[i]) {
        Exclusive(s, Op, i, j);
      }
    }
    if !exists i :: 0 <= i < |s.procs| && HasOp(s.procs[i]) {
      TotalZero(Op, s.procs);
    }
    if !exists i :: 0 <= i < |s.procs| && InRw(s.procs[i].pc) {
      TotalZero(Rw, s.procs);
    }
  }

  /** No run unlocks a mutex that is not locked. */
  lemma NoUnlockOfUnlocked(s: State)
    requires Reachable(s)
    ensures !s.sh.fault
  {
    ReachableInv(s);
  }

  lemma AlmostAlone(s: State, i: nat, j: nat)
    requires Inv(s) && i < |s.procs| && j < |s.procs| && i != j
    requires s.procs[i].pc.AtRw?
    ensures !s.procs[j].pc.AtRw?
  {
    FactsHold(s, i);
    FactsHold(s, j);
    if s.procs[j].pc.AtRw? {
      if HasToken(s.procs[i]) {
        Exclusive(s, Token, i, j);
      } else {
        Exclusive(s, Op, i, j);
      }
    }
  }

  /** At most one goroutine is between asking for writeMu and giving it back, so locking writeMu
      never waits. */
  lemma WriteMuNeverWaits(s: State, i: nat, j: nat)
    requires Reachable(s) && i < |s.procs| && j < |s.procs|
    requires s.procs[i].pc.AtRw? && s.procs[j].pc.AtRw?
    ensures i == j
    ensures s.procs[i].pc.rwAt.RwLock? ==> !s.sh.writeMu
  {
    ReachableInv(s);
    if i != j {
      AlmostAlone(s, i, j);
    } else if s.procs[i].pc.rwAt.RwLock? && s.sh.writeMu {
      OpAndWriteAreExact(s);
      var k :| 0 <= k < |s.procs| && InRw(s.procs[k].pc);
      AlmostAlone(s, i, k);
    }
  }
}
