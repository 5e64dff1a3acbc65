/**
 The theorems about whole runs of the coordinator.
 */
module Runs {
  import opened Agreement
  import opened Frames
  import opened Gauges
  import opened History
  import opened Lifecycle
  import opened Locks
  import opened Ownership
  import opened Protocol
  import opened Reclassify
  import opened Roles
  import opened SerialMeaning
  import opened Sqlite
  import opened Wrappers

  /** Everything that holds after every run from a database whose contents were db.  Routed can only be
      lost in the course of a run, so the last part is conditional on the end. */
  ghost predicate Whole(db: Db, s: State) {
    && Inv(s) && LifeInv(s) && RoleInv(s) && RetryInv(s)
    && (Routed(s) ==> SerialOk(db, s.sh))
  }

  lemma RoutedBefore(s: State, l: Label)
    requires Inv(s) && Enabled(s, l) && Routed(Next(s, l))
    ensures Routed(s)
  {
    if l.Run? {
      StepLocalOk(s.sh, s.procs[l.pid], l.c);
    }
    forall i | 0 <= i < |s.procs| ensures s.procs[i].q.stmt.control.Plain? {
      assert Next(s, l).procs[i].q.stmt == s.procs[i].q.stmt;
    }
  }

  lemma WholeInitial(s: State)
    requires Initial(s)
    ensures Whole(s.sh.conn.committed, s)
  {
    InitialInv(s);
  }

  lemma WholeNext(db: Db, s: State, l: Label)
    requires Whole(db, s) && Enabled(s, l)
    ensures Whole(db, Next(s, l))
  {
    InvNext(s, l);
    LifeNext(s, l);
    RoleNext(s, l);
    RetryNext(s, l);
    if Routed(Next(s, l)) {
      RoutedBefore(s, l);
      SerialNext(db, s, l);
    }
  }

  lemma {:induction false} WholeAlways(db: Db, s: State, ls: seq<Label>, t: State)
    requires Whole(db, s) && Leads(s, ls, t)
    ensures Whole(db, t)
    decreases |ls|
  {
    if ls != [] {
      WholeNext(db, s, ls[0]);
      WholeAlways(db, Next(s, ls[0]), ls[1..], t);
    }
  }

  // ---- Serial meaning and isolation ----

  /** After any run, the committed database is what the serial schedule of the recorded operations
      makes of the initial one, and every read saw the serial state of its moment. */
  lemma SerialTheorem(s: State, ls: seq<Label>, t: State)
    requires Initial(s) && Leads(s, ls, t) && Routed(t)
    ensures t.sh.conn.committed == ReplayBlocks(s.sh.conn.committed, Serial(t.sh.log.trace))
    ensures Isolated(s.sh.conn.committed, t.sh.log.trace)
  {
    WholeInitial(s);
    WholeAlways(s.sh.conn.committed, s, ls, t);
  }

  // ---- Life of an ID ----

  lemma {:induction false} TraceGrows(s: State, ls: seq<Label>, t: State)
    requires Leads(s, ls, t)
    ensures Prefix(s.sh.log.trace, t.sh.log.trace)
    decreases |ls|
  {
    if ls != [] {
      var n := Next(s, ls[0]);
      TraceGrows(n, ls[1..], t);
      if ls[0].Run? {
        StepGrows(s.sh, s.procs[ls[0].pid], ls[0].c);
        if n.sh.log.trace != s.sh.log.trace {
          PrefixStep(n.sh.log.trace, t.sh.log.trace);
        }
      }
    }
  }

  /** An ID goes from fresh to active to ended and never back, and no two are active at once. */
  lemma LifecycleTheorem(s: State, ls: seq<Label>, t: State, id: Name, other: Name)
    requires Reachable(s) && Leads(s, ls, t) && id != NONE && other != NONE
    ensures PhaseRank(PhaseOf(s.sh.log.trace, id)) <= PhaseRank(PhaseOf(t.sh.log.trace, id))
    ensures PhaseOf(t.sh.log.trace, id).Active? && PhaseOf(t.sh.log.trace, other).Active? ==> id == other
  {
    var s0, pre :| Initial(s0) && Leads(s0, pre, s);
    WholeInitial(s0);
    WholeAlways(s0.sh.conn.committed, s0, pre, s);
    WholeAlways(s0.sh.conn.committed, s, ls, t);
    TraceGrows(s, ls, t);
    PhaseOnlyAdvances(s.sh.log.trace, t.sh.log.trace, id);
  }

  /** Where a request that names an ended transaction can be. */
  predicate Refusing(pc: PC) {
    pc == AtCall(Entry) || pc == AtTx(OpLock) || pc == AtTx(CheckId) || pc == AtTx(OpUnlock(false)) ||
    pc == AtCall(Fail) || pc == AtCall(Done(false))
  }

  ghost predicate Refused(s: State, i: nat, id: Name) {
    && i < |s.procs| && s.procs[i].kind.Client? && s.procs[i].q.txID == id != NONE
    && PhaseOf(s.sh.log.trace, id).Ended? && Refusing(s.procs[i].pc)
  }

  lemma RefusedStep(db: Db, s: State, i: nat, id: Name, c: Choice)
    requires Whole(db, s) && Refused(s, i, id) && Enabled(s, Run(i, c))
    ensures var t := Next(s, Run(i, c));
            && Refused(t, i, id)
            && t.sh.conn == s.sh.conn && t.sh.txMu == s.sh.txMu && t.sh.txID == s.sh.txID
            && t.sh.log.trace == s.sh.log.trace
  {
    FactsHold(s, i);
    LiveFactsHold(s, i);
  }

  lemma RefusedMeanwhile(db: Db, s: State, i: nat, id: Name, l: Label)
    requires Whole(db, s) && Refused(s, i, id) && Enabled(s, l) && (l.Run? ==> l.pid != i)
    ensures Refused(Next(s, l), i, id)
  {
    WholeNext(db, s, l);
    if l.Run? {
      StepGrows(s.sh, s.procs[l.pid], l.c);
      PhaseOnlyAdvances(s.sh.log.trace, Next(s, l).sh.log.trace, id);
    }
  }

  /** A request that names an ended transaction is refused before it is classified, whatever else
      runs, and no step of it touches the database, txMu or the open transaction. */
  lemma {:induction false} RefusedTheorem(db: Db, s: State, ls: seq<Label>, t: State, i: nat, id: Name)
    requires Whole(db, s) && Refused(s, i, id) && Leads(s, ls, t)
    ensures Refused(t, i, id)
    decreases |ls|
  {
    if ls != [] {
      if ls[0].Run? && ls[0].pid == i {
        RefusedStep(db, s, i, id, ls[0].c);
      } else {
        RefusedMeanwhile(db, s, i, id, ls[0]);
      }
      WholeNext(db, s, ls[0]);
      RefusedTheorem(db, Next(s, ls[0]), ls[1..], t, i, id);
    }
  }

  // ---- Owners, timeouts, roles ----

  lemma {:induction false} LeakedBefore(s: State, ls: seq<Label>, t: State)
    requires Leads(s, ls, t) && s.sh.log.leaked
    ensures t.sh.log.leaked
    decreases |ls|
  {
    if ls != [] {
      if ls[0].Run? {
        StepFramed(s.sh, s.procs[ls[0].pid], ls[0].c);
      }
      LeakedBefore(Next(s, ls[0]), ls[1..], t);
    }
  }

  lemma {:induction false} OwnAlways(db: Db, s: State, ls: seq<Label>, t: State)
    requires Whole(db, s) && OwnInv(s) && Leads(s, ls, t) && OwnersLand(s, ls) && !t.sh.log.leaked
    ensures OwnInv(t)
    decreases |ls|
  {
    if ls != [] {
      var n := Next(s, ls[0]);
      if n.sh.log.leaked {
        LeakedBefore(n, ls[1..], t);
      }
      WholeNext(db, s, ls[0]);
      OwnNext(s, ls[0]);
      OwnAlways(db, n, ls[1..], t);
    }
  }

  /** If no request used an ID before its BEGIN returned and no owner was stored onto a transaction of
      somebody else, every client statement of a transaction came from the principal that began it. */
  lemma OwnershipTheorem(s: State, ls: seq<Label>, t: State)
    requires Initial(s) && Leads(s, ls, t) && !t.sh.log.leaked && OwnersLand(s, ls)
    ensures OwnersProper(t.sh.log.trace)
  {
    WholeInitial(s);
    OwnAlways(s.sh.conn.committed, s, ls, t);
  }

  lemma {:induction false} IdsAlways(s: State, ls: seq<Label>, t: State)
    requires Inv(s) && IdsInv(s) && Leads(s, ls, t)
    ensures IdsInv(t)
    decreases |ls|
  {
    if ls != [] {
      InvNext(s, ls[0]);
      IdsNext(s, ls[0]);
      IdsAlways(Next(s, ls[0]), ls[1..], t);
    }
  }

  /** In any reachable state: the owner store of a BEGIN leaves txOwner the owner of the open transaction
      if and only if that is the BEGIN's own transaction or one of the same principal. */
  lemma OwnerStoreTheorem(s: State, pid: nat, c: Choice)
    requires Reachable(s) && Enabled(s, Run(pid, c)) && s.procs[pid].pc == AtBegin(PubOwner) && s.sh.txID != NONE
    ensures var t := Next(s, Run(pid, c)).sh;
            t.txOwner == OwnerOf(t.log.trace, t.txID) <==>
              s.sh.txID == s.procs[pid].newID || OwnerOf(s.sh.log.trace, s.sh.txID) == s.procs[pid].q.owner
  {
    var s0, ls :| Initial(s0) && Leads(s0, ls, s);
    InitialInv(s0);
    IdsAlways(s0, ls, s);
    OwnerStore(s, pid, c);
  }

  /** No statement of a transaction is running while the monitor rolls it back. */
  lemma NoRollbackUnderStatement(s: State, i: nat, j: nat)
    requires Reachable(s) && i < |s.procs| && j < |s.procs| && i != j
    requires s.procs[i].kind.Monitor? && s.procs[i].pc.AtRw?
    ensures !Validated(s.procs[j])
  {
    ReachableInv(s);
    FactsHold(s, i);
    FactsHold(s, j);
    Exclusive(s, Op, i, j);
  }

  /** In any run, every statement ran under the role of its request. */
  lemma RoleTheorem(s: State, ls: seq<Label>, t: State)
    requires Initial(s) && Leads(s, ls, t)
    ensures Disciplined(t.sh.log.trace)
  {
    WholeInitial(s);
    WholeAlways(s.sh.conn.committed, s, ls, t);
  }

  /** In any reachable state, no step of a request with the read-only role changes the database, opens
      or ends a transaction, or clears txID: what the authorizer lets it execute cannot. */
  lemma ReadOnlyTheorem(s: State, pid: nat, c: Choice)
    requires Reachable(s) && Enabled(s, Run(pid, c))
    requires s.procs[pid].q.role == ReadOnly && Lawful(s.procs[pid].q.stmt)
    ensures SameData(s.sh.conn, Next(s, Run(pid, c)).sh.conn) && Next(s, Run(pid, c)).sh.txID == s.sh.txID
  {
    var s0, ls :| Initial(s0) && Leads(s0, ls, s);
    WholeInitial(s0);
    WholeAlways(s0.sh.conn.committed, s0, ls, s);
    ReadOnlyStep(s, pid, c);
  }

  // ---- Re-classification ----

  /** When a statement re-classified under txMu comes to be executed, the committed database is the
      one it was re-classified against and no transaction is open; while it holds txMu, it is
      never on the way to a BEGIN. */
  lemma ReclassifyTheorem(s: State, ls: seq<Label>, t: State, i: nat)
    requires Initial(s) && Leads(s, ls, t) && Routed(t) && i < |t.procs| && t.procs[i].held
    ensures Pending(t.procs[i]) ==> t.procs[i].seen == Some(t.sh.conn.committed)
    ensures t.sh.txID == NONE && !t.sh.conn.inTx
    ensures !t.procs[i].pc.AtBegin? && !BeginUnpublished(t.procs[i].pc)
  {
    WholeInitial(s);
    WholeAlways(s.sh.conn.committed, s, ls, t);
    FactsHold(t, i);
    TxFactsHold(t, i);
  }

  // ---- Counters ----

  ghost function Calls(procs: seq<Local>): int {
    if procs == [] then 0
    else Calls(procs[..|procs| - 1]) + Bit(procs[|procs| - 1].kind.Client?)
  }

  lemma {:induction false} RestingWeights(procs: seq<Local>)
    requires forall i :: 0 <= i < |procs| ==>
      LocalOk(procs[i]) && (Finished(procs[i].pc) || procs[i].pc == AtMon(MonIdle))
    ensures Total(Outcomes, procs) == Calls(procs)
    ensures Total(Open, procs) == 0
    ensures forall k :: Total(Tallies(k), procs) == 0
  {
    if procs != [] {
      RestingWeights(procs[..|procs| - 1]);
    }
  }

  /** At rest, each counter is the number of operations of its kind that took effect; finished
      calls and the server's own rollbacks are what the six counters add up to; every begin is
      matched by a commit, a rollback or the open transaction; and the queue gauges are zero. */
  lemma CounterTheorem(s: State)
    requires Reachable(s) && Quiescent(s)
    ensures SixCounters(s.sh.stats) == Calls(s.procs) + s.sh.log.unattended
    ensures s.sh.stats.beginCount == s.sh.stats.commitCount + s.sh.stats.rollbackCount + Bit(s.sh.txID != NONE)
    ensures s.sh.stats.queuedBegins == 0 && s.sh.stats.queuedWrites == 0
    ensures forall k :: Counter(s.sh.stats, k) == Count(s.sh.log.trace, k)
  {
    ReachableInv(s);
    RestingWeights(s.procs);
    TotalZero(QueuedBegins, s.procs);
    TotalZero(QueuedWrites, s.procs);
    assert Applies(Outcomes, s) && Applies(Open, s) && Applies(QueuedBegins, s) && Applies(QueuedWrites, s);
    forall k ensures Counter(s.sh.stats, k) == Count(s.sh.log.trace, k) {
      assert Applies(Tallies(k), s);
    }
  }

  /** At any moment, the queue gauges are the numbers of requests inside their windows. */
  lemma QueueTheorem(s: State)
    requires Reachable(s)
    ensures s.sh.stats.queuedBegins == Total(QueuedBegins, s.procs)
    ensures s.sh.stats.queuedWrites == Total(QueuedWrites, s.procs)
  {
    ReachableInv(s);
    assert Applies(QueuedBegins, s) && Applies(QueuedWrites, s);
  }
}
