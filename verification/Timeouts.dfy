/**
 When the idle monitor is right, over every run: always, except when it rolls back a transaction that
 began within the timeout.  It can, because it may look at a transaction whose BEGIN has stored the
 ID and not yet the time.
 */
module Timeouts {
  import opened Frames
  import opened Gauges
  import opened History
  import opened Lifecycle
  import opened Locks
  import opened Protocol
  import opened Runs
  import opened Sqlite

  /** The BEGIN of this transaction is between the first and the last of its three stores. */
  ghost predicate BeingStored(s: State, id: Name) {
    exists i :: 0 <= i < |s.procs| && InPublication(s.procs[i].pc) && s.procs[i].newID == id
  }

  /** Not used since it began. */
  ghost predicate UnusedSinceBegin(t: Trace, id: Name) {
    LastUse(t, id) == BeganAt(t, id)
  }

  ghost predicate TimeInv(s: State) {
    && s.sh.txLastUsed <= s.sh.now
    && (forall id | id in s.sh.log.issued :: LastUse(s.sh.log.trace, id) <= s.sh.now)
    && (forall id | id in s.sh.log.issued :: BeganAt(s.sh.log.trace, id) <= LastUse(s.sh.log.trace, id))
    && (s.sh.txID != NONE ==>
          LastUse(s.sh.log.trace, s.sh.txID) <= s.sh.txLastUsed ||
          (BeingStored(s, s.sh.txID) && UnusedSinceBegin(s.sh.log.trace, s.sh.txID)))
  }

  /** What a step does to the times. */
  ghost predicate TimesKept(sh: Shared, me: Local, t: Turn) {
    && (t.sh.txLastUsed == sh.txLastUsed || t.sh.txLastUsed == sh.now)
    && (Touches(me.pc) ==> t.sh.txLastUsed == sh.now)
    && (InPublication(me.pc) ==> t.sh.txLastUsed == sh.now || (InPublication(t.me.pc) && t.me.newID == me.newID))
    && (me.pc == AtBegin(PubId) ==> InPublication(t.me.pc) && t.me.newID == t.sh.txID)
  }

  lemma TimesStep(sh: Shared, me: Local, c: Choice)
    requires Can(sh, me, c)
    ensures TimesKept(sh, me, Act(sh, me, c))
  {
    StepFramed(sh, me, c);
    if me.pc.AtBegin? {
      assert Act(sh, me, c) == ActBegin(sh, me, c);
    } else if me.pc.AtEnd? {
      assert Act(sh, me, c) == ActEnd(sh, me);
    } else if me.pc.AtTx? {
      assert Act(sh, me, c) == ActTx(sh, me);
    }
  }

  /** What a step does to the last uses. */
  lemma UsesStep(sh: Shared, me: Local, c: Choice)
    requires Can(sh, me, c)
    requires forall id | id in sh.log.issued :: BeganAt(sh.log.trace, id) <= LastUse(sh.log.trace, id) <= sh.now
    ensures var t := Act(sh, me, c).sh;
            && (forall id | id in t.log.issued :: BeganAt(t.log.trace, id) <= LastUse(t.log.trace, id) <= sh.now)
            && (forall id | id in sh.log.issued :: BeganAt(t.log.trace, id) == BeganAt(sh.log.trace, id))
            && (me.pc == AtBegin(PubId) ==> UnusedSinceBegin(t.log.trace, t.txID))
            && (!Touches(me.pc) ==>
                  forall id | id in sh.log.issued :: LastUse(t.log.trace, id) == LastUse(sh.log.trace, id))
  {
    StepGrows(sh, me, c);
    if me.pc == AtBegin(PubId) {
      assert Act(sh, me, c) == ActBegin(sh, me, c);
    } else if Touches(me.pc) {
      assert Act(sh, me, c) == ActTx(sh, me);
    } else {
      StepFramed(sh, me, c);
    }
  }

  lemma TimeRun(s: State, pid: nat, c: Choice)
    requires Inv(s) && LogOk(s.sh) && TimeInv(s) && Enabled(s, Run(pid, c))
    ensures TimeInv(Next(s, Run(pid, c)))
  {
    var me := s.procs[pid];
    var t := Next(s, Run(pid, c));
    FactsHold(s, pid);
    StepFramed(s.sh, me, c);
    StepSteady(s.sh, me, c);
    TimesStep(s.sh, me, c);
    UsesStep(s.sh, me, c);
    hide Act, LastUse, BeganAt, Inv, LogOk;
    if me.pc == AtBegin(PubId) {
      assert t.procs[pid].newID == t.sh.txID;
    } else if t.sh.txID != NONE && t.sh.txLastUsed != s.sh.now && BeingStored(s, s.sh.txID) {
      var i :| 0 <= i < |s.procs| && InPublication(s.procs[i].pc) && s.procs[i].newID == s.sh.txID;
      assert InPublication(t.procs[i].pc) && t.procs[i].newID == s.sh.txID;
    }
  }

  lemma TimeNext(s: State, l: Label)
    requires Inv(s) && LogOk(s.sh) && TimeInv(s) && Enabled(s, l)
    ensures TimeInv(Next(s, l))
  {
    if l.Run? {
      TimeRun(s, l.pid, l.c);
    } else if s.sh.txID != NONE && BeingStored(s, s.sh.txID) {
      var i :| 0 <= i < |s.procs| && InPublication(s.procs[i].pc) && s.procs[i].newID == s.sh.txID;
      assert Next(s, l).procs[i] == s.procs[i];
    }
  }

  lemma {:induction false} TimeAlways(db: Db, s: State, ls: seq<Label>, t: State)
    requires Whole(db, s) && TimeInv(s) && Leads(s, ls, t)
    ensures TimeInv(t)
    decreases |ls|
  {
    if ls != [] {
      WholeNext(db, s, ls[0]);
      TimeNext(s, ls[0]);
      TimeAlways(db, Next(s, ls[0]), ls[1..], t);
    }
  }

  /** In any reachable state, whatever clients sent and however the monitor was scheduled: if the monitor
      decides on a rollback, it is wrong, the transaction having been used within the timeout, if and only
      if the transaction began within the timeout; and then its BEGIN is still between its stores.
      PrematureRollback shows that this happens. */
  lemma DecisionTheorem(s: State, pid: nat, c: Choice)
    requires Reachable(s) && Decides(s, Run(pid, c))
    ensures var id, T := s.sh.txID, s.sh.timeout;
            var wrong := s.sh.now <= LastUse(s.sh.log.trace, id) + T;
            var young := s.sh.now <= BeganAt(s.sh.log.trace, id) + T;
            (wrong <==> young) && (wrong <==> BeingStored(s, id) && young)
  {
    var s0, ls :| Initial(s0) && Leads(s0, ls, s);
    WholeInitial(s0);
    TimeAlways(s0.sh.conn.committed, s0, ls, s);
    WholeAlways(s0.sh.conn.committed, s0, ls, s);
    FactsHold(s, pid);
  }

  // ---- What the monitor has rolled back ----

  predicate ByMonitor(e: Event) {
    e.RolledBack? && e.cred.kind.Monitor?
  }

  /** The monitor has rolled back nothing that had been used within the timeout. */
  ghost predicate TimesProper(t: Trace, timeout: int) {
    match t
    case Start => true
    case Then(p, e) => TimesProper(p, timeout) && (ByMonitor(e) ==> e.at > LastUse(p, e.id) + timeout)
  }

  /** The monitor has rolled back nothing that had begun within the timeout. */
  ghost predicate NoneYoung(t: Trace, timeout: int) {
    match t
    case Start => true
    case Then(p, e) => NoneYoung(p, timeout) && (ByMonitor(e) ==> e.at > BeganAt(p, e.id) + timeout)
  }

  /** Each single rollback by the monitor was right if and only if what it ended had not begun within the
      timeout. */
  ghost predicate OnlyYoungWrong(t: Trace, timeout: int) {
    match t
    case Start => true
    case Then(p, e) =>
      && OnlyYoungWrong(p, timeout)
      && (ByMonitor(e) ==> (e.at > LastUse(p, e.id) + timeout <==> e.at > BeganAt(p, e.id) + timeout))
  }

  lemma {:induction false} ProperIsNoneYoung(t: Trace, timeout: int)
    requires OnlyYoungWrong(t, timeout)
    ensures TimesProper(t, timeout) <==> NoneYoung(t, timeout)
  {
    if t.Then? {
      ProperIsNoneYoung(t.before, timeout);
    }
  }

  /** The label is the check of the monitor, and it comes out for a rollback. */
  ghost predicate Decides(s: State, l: Label) {
    && l.Run? && l.pid < |s.procs| && s.procs[l.pid].pc == AtMon(MonCheck)
    && s.sh.now - s.sh.txLastUsed > s.sh.timeout
  }

  /** The monitor decides to roll back a transaction that began within the timeout. */
  ghost predicate Hasty(s: State, l: Label) {
    Decides(s, l) && s.sh.now <= BeganAt(s.sh.log.trace, s.sh.txID) + s.sh.timeout
  }

  ghost predicate NeverHasty(s: State, ls: seq<Label>)
    decreases |ls|
  {
    ls == [] || (Enabled(s, ls[0]) && !Hasty(s, ls[0]) && NeverHasty(Next(s, ls[0]), ls[1..]))
  }

  /** The monitor has decided and not yet executed. */
  predicate RollingBack(me: Local) {
    me.kind.Monitor? && me.pc.AtRw? && !me.pc.rwAt.RwUnlock?
  }

  /** What a rollback under way may rely on; careful if no decision has been hasty. */
  ghost predicate Justified(sh: Shared, careful: bool) {
    && (sh.now > LastUse(sh.log.trace, sh.txID) + sh.timeout || UnusedSinceBegin(sh.log.trace, sh.txID))
    && (careful ==> sh.now > BeganAt(sh.log.trace, sh.txID) + sh.timeout)
  }

  ghost predicate Told(sh: Shared, careful: bool) {
    && OnlyYoungWrong(sh.log.trace, sh.timeout)
    && (careful ==> NoneYoung(sh.log.trace, sh.timeout))
  }

  ghost predicate TimesInv(s: State, careful: bool) {
    && TimeInv(s) && Told(s.sh, careful)
    && forall i :: 0 <= i < |s.procs| && RollingBack(s.procs[i]) ==> Justified(s.sh, careful)
  }

  /** Where a rollback by the monitor comes from, and where it is recorded. */
  lemma RollingStep(sh: Shared, me: Local, c: Choice)
    requires Can(sh, me, c) && Facts(sh, me)
    ensures var t := Act(sh, me, c);
            RollingBack(t.me) ==>
              RollingBack(me) || (me.pc == AtMon(MonCheck) && sh.now - sh.txLastUsed > sh.timeout)
  {
    StepLocalOk(sh, me, c);
    if me.pc.AtMon? {
      assert Act(sh, me, c) == ActMon(sh, me);
    } else if me.pc.AtRw? {
      assert Act(sh, me, c) == ActRw(sh, me, c);
    }
  }

  lemma RollbackRecorded(sh: Shared, me: Local, c: Choice, careful: bool)
    requires Can(sh, me, c) && Facts(sh, me) && Told(sh, careful)
    requires RollingBack(me) ==> Justified(sh, careful)
    requires RollingBack(me) ==> BeganAt(sh.log.trace, sh.txID) <= LastUse(sh.log.trace, sh.txID)
    ensures Told(Act(sh, me, c).sh, careful)
  {
    StepGrows(sh, me, c);
    StepFramed(sh, me, c);
    if Records(me.pc) {
      match me.pc
      case AtRo(_, _) => RoRecorded(sh, me, c, careful);
      case AtRw(_, _) => RwRecorded(sh, me, c, careful);
      case AtBegin(_) => assert Act(sh, me, c) == ActBegin(sh, me, c);
      case AtTx(_) => assert Act(sh, me, c) == ActTx(sh, me);
    }
  }

  lemma RoRecorded(sh: Shared, me: Local, c: Choice, careful: bool)
    requires Can(sh, me, c) && me.pc.AtRo? && me.pc.roAt.RoExec? && Told(sh, careful)
    ensures Told(ActRo(sh, me, c).sh, careful)
  {
    hide LastUse, BeganAt;
  }

  lemma RwRecorded(sh: Shared, me: Local, c: Choice, careful: bool)
    requires Can(sh, me, c) && Facts(sh, me) && me.pc.AtRw? && me.pc.rwAt.RwExec? && Told(sh, careful)
    requires RollingBack(me) ==> Justified(sh, careful)
    requires RollingBack(me) ==> BeganAt(sh.log.trace, sh.txID) <= LastUse(sh.log.trace, sh.txID)
    ensures Told(ActRw(sh, me, c).sh, careful)
  {
    hide LastUse, BeganAt;
  }

  /** While the monitor is rolling back, nobody uses the transaction. */
  lemma RollingStays(s: State, pid: nat, c: Choice, i: nat, careful: bool)
    requires Inv(s) && LogOk(s.sh) && TimesInv(s, careful) && Enabled(s, Run(pid, c)) && i < |s.procs| && i != pid
    requires RollingBack(s.procs[i])
    ensures Justified(Next(s, Run(pid, c)).sh, careful)
  {
    var me := s.procs[pid];
    FactsHold(s, pid);
    FactsHold(s, i);
    RunKeepsValidated(s, pid, c, i);
    StepFramed(s.sh, me, c);
    UsesStep(s.sh, me, c);
    if Touches(me.pc) {
      Exclusive(s, Op, pid, i);
    }
    hide Act, LastUse, BeganAt, Inv;
  }

  lemma TimesRun(s: State, pid: nat, c: Choice, careful: bool)
    requires Inv(s) && LogOk(s.sh) && TimesInv(s, careful) && Enabled(s, Run(pid, c))
    requires careful ==> !Hasty(s, Run(pid, c))
    ensures TimesInv(Next(s, Run(pid, c)), careful)
  {
    var me := s.procs[pid];
    var t := Next(s, Run(pid, c));
    FactsHold(s, pid);
    TimeRun(s, pid, c);
    StepFramed(s.sh, me, c);
    StepSteady(s.sh, me, c);
    UsesStep(s.sh, me, c);
    RollingStep(s.sh, me, c);
    RollbackRecorded(s.sh, me, c, careful);
    hide Act, LastUse, BeganAt, Inv, Told, TimeInv;
    forall i | 0 <= i < |t.procs| && RollingBack(t.procs[i]) ensures Justified(t.sh, careful) {
      if i != pid {
        RollingStays(s, pid, c, i, careful);
      } else if !RollingBack(me) {
        CheckJustifies(s, pid, c, careful);
      }
    }
  }

  lemma CheckJustifies(s: State, pid: nat, c: Choice, careful: bool)
    requires Inv(s) && TimeInv(s) && Enabled(s, Run(pid, c)) && Decides(s, Run(pid, c))
    requires careful ==> !Hasty(s, Run(pid, c))
    ensures Justified(s.sh, careful)
  {
    FactsHold(s, pid);
  }

  lemma TimesNext(s: State, l: Label, careful: bool)
    requires Inv(s) && LogOk(s.sh) && TimesInv(s, careful) && Enabled(s, l) && (careful ==> !Hasty(s, l))
    ensures TimesInv(Next(s, l), careful)
  {
    if l.Run? {
      TimesRun(s, l.pid, l.c, careful);
    } else {
      TimeNext(s, l);
      assert forall i :: 0 <= i < |s.procs| ==> Next(s, l).procs[i] == s.procs[i];
    }
  }

  lemma {:induction false} TimesAlways(db: Db, s: State, ls: seq<Label>, t: State, careful: bool)
    requires Whole(db, s) && TimesInv(s, careful) && Leads(s, ls, t) && (careful ==> NeverHasty(s, ls))
    ensures TimesInv(t, careful)
    decreases |ls|
  {
    if ls != [] {
      WholeNext(db, s, ls[0]);
      TimesNext(s, ls[0], careful);
      TimesAlways(db, Next(s, ls[0]), ls[1..], t, careful);
    }
  }

  /** In every run, each rollback by the monitor was right if and only if what it ended had not begun
      within the timeout; so all of them were right exactly if none ended so young a transaction. */
  lemma RollbackTheorem(s: State, ls: seq<Label>, t: State)
    requires Initial(s) && Leads(s, ls, t)
    ensures OnlyYoungWrong(t.sh.log.trace, t.sh.timeout)
    ensures TimesProper(t.sh.log.trace, t.sh.timeout) <==> NoneYoung(t.sh.log.trace, t.sh.timeout)
  {
    WholeInitial(s);
    TimesAlways(s.sh.conn.committed, s, ls, t, false);
    ProperIsNoneYoung(t.sh.log.trace, t.sh.timeout);
  }

  /** Unless the monitor decided on a transaction that began within the timeout, it has rolled back only
      what had not been used for longer than the timeout; whatever clients sent. */
  lemma TimeoutTheorem(s: State, ls: seq<Label>, t: State)
    requires Initial(s) && Leads(s, ls, t) && NeverHasty(s, ls)
    ensures TimesProper(t.sh.log.trace, t.sh.timeout)
  {
    WholeInitial(s);
    TimesAlways(s.sh.conn.committed, s, ls, t, true);
    ProperIsNoneYoung(t.sh.log.trace, t.sh.timeout);
  }
}
