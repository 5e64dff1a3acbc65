/**
 Conservation laws.  A gauge gives every goroutine a weight, read off its program counter, and the
 shared state a level; every step changes the weight of its goroutine and the level by the same
 amount, so the weights of all goroutines always sum to the level.
 */
module Gauges {
  import opened History
  import opened Protocol
  import opened Sqlite
  import opened Wrappers

  datatype Gauge =
    | Token                 // txMu, apart from the lock that an open transaction keeps
    | Op                    // txOpMu
    | Rw                    // writeMu
    | Ro(c: nat)            // read-only connection c
    | Agree                 // SQLite's transaction against txID
    | QueuedBegins | QueuedWrites
    | Tallies(k: Tally)     // a counter against the events of its kind
    | Errors
    | Outcomes              // the six counters against finished calls
    | Open                  // begins against commits, rollbacks and the open transaction

  /** The goroutine holds writeMu. */
  predicate InRw(pc: PC) {
    pc.AtRw? && !pc.rwAt.RwLock?
  }

  /** After a successful COMMIT or ROLLBACK, once txID is cleared and until txMu is unlocked. */
  predicate Ending(pc: PC) {
    pc.AtEnd? && !pc.end.ClearId?
  }

  /** A BEGIN that holds txMu and has not stored its ID. */
  predicate BeginUnpublished(pc: PC) {
    match pc
    case AtRw(op, _) => op.OpBegin?
    case AtBegin(b) => b.PubId? || b.BeginAbort?
    case _ => false
  }

  /** The goroutine itself is to unlock txMu. */
  predicate HasToken(me: Local) {
    BeginUnpublished(me.pc) || Ending(me.pc) || me.held
  }

  /** The goroutine holds txOpMu. */
  predicate HasOp(me: Local) {
    match me.pc
    case AtTx(t) => !t.OpLock?
    case AtMon(m) => !m.MonIdle? && !m.MonLock?
    case AtEnd(_, _) => true
    case AtRw(_, _) => me.q.txID != NONE
    case AtWork(_) => me.q.txID != NONE
    case _ => false
  }

  /** The goroutine has read-only connection c checked out. */
  predicate HasRo(pc: PC, c: nat) {
    pc.AtRo? && !pc.roAt.RoAcquire? && pc.roAt.c == c
  }

  /** SQLite has ended the transaction, txID still names it. */
  predicate EndedUncleared(pc: PC) {
    match pc
    case AtRw(op, RwUnlock(v)) => (op.OpCommit? || op.OpRollback?) && v != Failed
    case AtEnd(_, e) => e.ClearId?
    case _ => false
  }

  /** SQLite has opened a transaction, txID does not name it yet. */
  predicate OpenedUnpublished(pc: PC) {
    match pc
    case AtRw(op, RwUnlock(v)) => op.OpBegin? && v != Failed
    case AtBegin(b) => b.PubId?
    case _ => false
  }

  /** Between the first and the last of a BEGIN's three stores. */
  predicate InPublication(pc: PC) {
    pc.AtBegin? && (pc.begin.PubOwner? || pc.begin.PubTime?)
  }

  predicate InBeginWindow(pc: PC) {
    (pc.AtBegin? && !pc.begin.BeginEnter?) || (pc.AtRw? && pc.op.OpBegin?)
  }

  predicate InWriteWindow(pc: PC) {
    (pc.AtWork? && (pc.work.WriteCount? || pc.work.WriteLeave?)) || (pc.AtRw? && pc.op.OpWrite?)
  }

  /** An operation of this kind has taken effect and its counter has not been incremented. */
  predicate Uncounted(pc: PC, k: Tally) {
    match pc
    case AtRw(op, RwUnlock(v)) =>
      v != Failed &&
      (match k
       case Commits => op.OpCommit?
       case Rollbacks => op.OpRollback?
       case Writes => op.OpWrite?
       case Reads => op.OpRead?
       case Begins => false)
    case AtBegin(b) => k.Begins? && (b.PubOwner? || b.PubTime? || b.PubCount?)
    case AtEnd(commit, e) => (if commit then k.Commits? else k.Rollbacks?) && !e.EndUnlock?
    case AtWork(w) => (w.WriteCount? && k.Writes?) || (w.ReadCount? && k.Reads?)
    case AtRo(_, at) => at.RoCount? && k.Reads?
    case _ => false
  }

  /** The Query call has incremented one of the six counters. */
  predicate Counted(me: Local) {
    me.kind.Client? &&
    match me.pc
    case AtCall(Done(_)) => true
    case AtCall(TokenUnlock(ok)) => ok
    case AtBegin(BeginLeave(ok)) => ok
    case AtWork(WriteLeave(ok)) => ok
    case AtTx(TouchOut(ok)) => ok
    case AtTx(OpUnlock(ok)) => ok
    case AtRo(ro, RoReturn(_, v)) => ro.Fetch? && v != Failed
    case AtEnd(_, e) => e.EndUnlock?
    case _ => false
  }

  function Weigh(g: Gauge, me: Local): int {
    match g
    case Token => Bit(HasToken(me))
    case Op => Bit(HasOp(me))
    case Rw => Bit(InRw(me.pc))
    case Ro(c) => Bit(HasRo(me.pc, c))
    case Agree => Bit(OpenedUnpublished(me.pc)) - Bit(EndedUncleared(me.pc))
    case QueuedBegins => Bit(InBeginWindow(me.pc))
    case QueuedWrites => Bit(InWriteWindow(me.pc))
    case Tallies(k) => Bit(Uncounted(me.pc, k))
    case Errors => Bit(me.pc == AtCall(Done(false)))
    case Outcomes => Bit(Counted(me))
    case Open =>
      Bit(me.pc.AtEnd? && !me.pc.end.ClearId? && !me.pc.end.EndUnlock?) - Bit(Uncounted(me.pc, Begins))
  }

  function Counter(stats: Stats, k: Tally): int {
    match k
    case Begins => stats.beginCount
    case Commits => stats.commitCount
    case Rollbacks => stats.rollbackCount
    case Writes => stats.writeCount
    case Reads => stats.readCount
  }

  function SixCounters(s: Stats): int {
    s.readCount + s.writeCount + s.beginCount + s.commitCount + s.rollbackCount + s.errorCount
  }

  ghost function Level(g: Gauge, sh: Shared): int {
    match g
    case Token => Bit(sh.txMu) - Bit(sh.txID != NONE)
    case Op => Bit(sh.txOpMu)
    case Rw => Bit(sh.writeMu)
    case Ro(c) => Bit(c < |sh.ro| && sh.ro[c].busy)
    case Agree => Bit(sh.conn.inTx) - Bit(sh.txID != NONE)
    case QueuedBegins => sh.stats.queuedBegins
    case QueuedWrites => sh.stats.queuedWrites
    case Tallies(k) => Count(sh.log.trace, k) - Counter(sh.stats, k)
    case Errors => sh.stats.errorCount
    case Outcomes => SixCounters(sh.stats) - sh.log.unattended
    case Open =>
      sh.stats.beginCount - sh.stats.commitCount - sh.stats.rollbackCount - Bit(sh.txID != NONE)
  }

  // ---- Which program counters go with which locals ----

  /** The goroutine works on the transaction it named, and txID has been found to be that one. */
  predicate Validated(me: Local) {
    match me.pc
    case AtTx(t) => t.CheckOwner? || t.TouchIn?
    case AtMon(m) => m.MonCheck?
    case AtEnd(_, e) => e.ClearId?
    case AtRw(_, _) => me.q.txID != NONE
    case AtWork(_) => me.q.txID != NONE
    case _ => false
  }

  predicate LocalOk(me: Local) {
    && (me.held ==> me.q.txID == NONE && me.kind.Client?)
    && match me.pc
       case AtRo(ro, at) =>
         && me.kind.Client? && me.q.txID == NONE && (at.RoCount? ==> ro.Fetch?)
         && (ro.First? ==> !me.held) && (ro.Retry? ==> me.held)
       case AtRw(op, _) =>
         && (op.OpBegin? ==> me.q.txID == NONE && !me.held)
         && (op.OpWrite? ==> (me.q.txID == NONE <==> me.held))
         && (!op.OpBegin? && !op.OpWrite? ==> me.q.txID != NONE)
         && (!op.OpRollback? ==> me.kind.Client?)
       case AtBegin(_) => me.kind.Client? && !me.held && me.q.txID == NONE
       case AtEnd(commit, _) => me.q.txID != NONE && (commit ==> me.kind.Client?)
       case AtTx(_) => me.kind.Client? && !me.held && me.q.txID != NONE
       case AtMon(m) =>
         && !me.kind.Client? && !me.held
         && (m.MonIdle? || m.MonCheck? ==> me.kind.Monitor?)
         && (m.MonCheck? ==> me.q.txID != NONE)
       case AtWork(w) =>
         me.kind.Client? && (me.q.txID == NONE <==> me.held) && (w.ReadCount? ==> !me.held)
       case AtCall(call) =>
         match call
         case TokenUnlock(_) => me.held
         case Done(_) => !me.held && !me.kind.Monitor?
         case Entry | Fail => !me.held && me.kind.Client?
         case CheckOpen | TokenLock(_) => !me.held && me.kind.Client? && me.q.txID == NONE
  }

  /** A goroutine stays the same call; only the server's own rollbacks take their ID from txID. */
  ghost predicate SameCall(me: Local, me': Local) {
    me'.kind == me.kind && me'.q == me.q.(txID := me'.q.txID) && (me.kind.Client? ==> me'.q == me.q)
  }

  // ---- What a goroutine may rely on while it holds something ----

  ghost predicate Facts(sh: Shared, me: Local) {
    && LocalOk(me)
    && (HasToken(me) ==> sh.txMu && sh.txID == NONE)
    && (HasOp(me) ==> sh.txOpMu)
    && (InRw(me.pc) ==> sh.writeMu)
    && (me.pc.AtRo? && !me.pc.roAt.RoAcquire? ==> me.pc.roAt.c < |sh.ro| && sh.ro[me.pc.roAt.c].busy)
    && (Validated(me) ==> sh.txID == me.q.txID)
  }

  // ---- Every step keeps the balance of every gauge ----

  ghost predicate Balanced(g: Gauge, sh: Shared, me: Local, t: Turn) {
    Level(g, t.sh) - Level(g, sh) == Weigh(g, t.me) - Weigh(g, me)
  }

  /** Only the agreement with SQLite needs the assumption that a statement routed as a read or a
      write leaves the transaction alone. */
  ghost predicate Ready(sh: Shared, me: Local, c: Choice, g: Gauge) {
    Can(sh, me, c) && Facts(sh, me) && (g.Agree? ==> me.q.stmt.control.Plain?)
  }

  lemma RoAcquireBalance(sh: Shared, me: Local, c: Choice, g: Gauge)
    requires Ready(sh, me, c, g) && me.pc.AtRo? && me.pc.roAt.RoAcquire?
    ensures Balanced(g, sh, me, ActRo(sh, me, c))
  {
  }

  lemma RoSetRoleBalance(sh: Shared, me: Local, c: Choice, g: Gauge)
    requires Ready(sh, me, c, g) && me.pc.AtRo? && (me.pc.roAt.RoSetRole? || me.pc.roAt.RoCount?)
    ensures Balanced(g, sh, me, ActRo(sh, me, c))
  {
  }

  lemma RoFetchBalance(sh: Shared, me: Local, c: Choice, g: Gauge)
    requires Ready(sh, me, c, g) && me.pc.AtRo? && me.pc.roAt.RoExec? && me.pc.ro.Fetch?
    ensures Balanced(g, sh, me, ActRo(sh, me, c))
  {
  }

  lemma RoExecBalance(sh: Shared, me: Local, c: Choice, g: Gauge)
    requires Ready(sh, me, c, g) && me.pc.AtRo? && me.pc.roAt.RoExec? && !me.pc.ro.Fetch?
    ensures Balanced(g, sh, me, ActRo(sh, me, c))
  {
  }

  lemma RoReturnBalance(sh: Shared, me: Local, c: Choice, g: Gauge)
    requires Ready(sh, me, c, g) && me.pc.AtRo? && me.pc.roAt.RoReturn?
    ensures Balanced(g, sh, me, ActRo(sh, me, c))
  {
  }

  lemma RwLockBalance(sh: Shared, me: Local, c: Choice, g: Gauge)
    requires Ready(sh, me, c, g) && me.pc.AtRw? && (me.pc.rwAt.RwLock? || me.pc.rwAt.RwSetRole?)
    ensures Balanced(g, sh, me, ActRw(sh, me, c))
  {
  }

  lemma RwEndBalance(sh: Shared, me: Local, c: Choice, g: Gauge)
    requires Ready(sh, me, c, g) && me.pc.AtRw? && me.pc.rwAt.RwExec? && (me.pc.op.OpCommit? || me.pc.op.OpRollback?)
    ensures Balanced(g, sh, me, ActRw(sh, me, c))
  {
  }

  lemma RwReadBalance(sh: Shared, me: Local, c: Choice, g: Gauge)
    requires Ready(sh, me, c, g) && me.pc == AtRw(OpRead, RwExec)
    ensures Balanced(g, sh, me, ActRw(sh, me, c))
  {
  }

  lemma RwWriteBalance(sh: Shared, me: Local, c: Choice, g: Gauge)
    requires Ready(sh, me, c, g) && me.pc == AtRw(OpWrite, RwExec)
    ensures Balanced(g, sh, me, ActRw(sh, me, c))
  {
    hide RwRole;
    if sh.conn.Succeeds(StmtFor(me, OpWrite), c.ok) {
      assert ActRw(sh, me, c).me.pc == AtRw(OpWrite, RwUnlock(Fine));
    } else {
      assert ActRw(sh, me, c).me.pc == AtRw(OpWrite, RwUnlock(Failed));
    }
  }

  lemma RwExecBalance(sh: Shared, me: Local, c: Choice, g: Gauge)
    requires Ready(sh, me, c, g) && me.pc.AtRw? && me.pc.rwAt.RwExec? && (me.pc.op.OpBegin? || me.pc.op.OpClassify?)
    ensures Balanced(g, sh, me, ActRw(sh, me, c))
  {
  }

  lemma RwUnlockBalance(sh: Shared, me: Local, c: Choice, g: Gauge)
    requires Ready(sh, me, c, g) && me.pc.AtRw? && me.pc.rwAt.RwUnlock?
    ensures Balanced(g, sh, me, ActRw(sh, me, c))
  {
  }

  lemma BeginEnterBalance(sh: Shared, me: Local, c: Choice, g: Gauge)
    requires Ready(sh, me, c, g) && me.pc.AtBegin?
        && (me.pc.begin.BeginEnter? || me.pc.begin.BeginLock? || me.pc.begin.BeginAbort?)
    ensures Balanced(g, sh, me, ActBegin(sh, me, c))
  {
  }

  lemma PubIdBalance(sh: Shared, me: Local, c: Choice, g: Gauge)
    requires Ready(sh, me, c, g) && me.pc.AtBegin? && me.pc.begin.PubId?
    ensures Balanced(g, sh, me, ActBegin(sh, me, c))
  {
  }

  lemma PubOwnerBalance(sh: Shared, me: Local, c: Choice, g: Gauge)
    requires Ready(sh, me, c, g) && me.pc.AtBegin?
        && (me.pc.begin.PubOwner? || me.pc.begin.PubTime?)
    ensures Balanced(g, sh, me, ActBegin(sh, me, c))
  {
  }

  lemma PubCountBalance(sh: Shared, me: Local, c: Choice, g: Gauge)
    requires Ready(sh, me, c, g) && me.pc.AtBegin? && me.pc.begin.PubCount?
    ensures Balanced(g, sh, me, ActBegin(sh, me, c))
  {
  }

  lemma BeginLeaveBalance(sh: Shared, me: Local, c: Choice, g: Gauge)
    requires Ready(sh, me, c, g) && me.pc.AtBegin? && me.pc.begin.BeginLeave?
    ensures Balanced(g, sh, me, ActBegin(sh, me, c))
  {
  }

  lemma ClearIdBalance(sh: Shared, me: Local, c: Choice, g: Gauge)
    requires Ready(sh, me, c, g) && me.pc.AtEnd?
        && (me.pc.end.ClearId? || me.pc.end.ClearOwner? || me.pc.end.ClearTime?)
    ensures Balanced(g, sh, me, ActEnd(sh, me))
  {
  }

  lemma EndCountBalance(sh: Shared, me: Local, c: Choice, g: Gauge)
    requires Ready(sh, me, c, g) && me.pc.AtEnd? && (me.pc.end.EndCount? || me.pc.end.EndUnlock?)
    ensures Balanced(g, sh, me, ActEnd(sh, me))
  {
  }

  lemma OpLockBalance(sh: Shared, me: Local, c: Choice, g: Gauge)
    requires Ready(sh, me, c, g) && me.pc.AtTx? && (me.pc.tx.OpLock? || me.pc.tx.CheckId? || me.pc.tx.CheckOwner?)
    ensures Balanced(g, sh, me, ActTx(sh, me))
  {
  }

  lemma TouchInBalance(sh: Shared, me: Local, c: Choice, g: Gauge)
    requires Ready(sh, me, c, g) && me.pc.AtTx? && me.pc.tx.TouchIn?
    ensures Balanced(g, sh, me, ActTx(sh, me))
  {
  }

  lemma TouchOutBalance(sh: Shared, me: Local, c: Choice, g: Gauge)
    requires Ready(sh, me, c, g) && me.pc.AtTx? && me.pc.tx.TouchOut?
    ensures Balanced(g, sh, me, ActTx(sh, me))
  {
  }

  lemma OpUnlockBalance(sh: Shared, me: Local, c: Choice, g: Gauge)
    requires Ready(sh, me, c, g) && me.pc.AtTx? && me.pc.tx.OpUnlock?
    ensures Balanced(g, sh, me, ActTx(sh, me))
  {
  }

  lemma MonIdleBalance(sh: Shared, me: Local, c: Choice, g: Gauge)
    requires Ready(sh, me, c, g) && me.pc.AtMon? && (me.pc.mon.MonIdle? || me.pc.mon.MonLock? || me.pc.mon.MonLoad?)
    ensures Balanced(g, sh, me, ActMon(sh, me))
  {
  }

  lemma MonCheckBalance(sh: Shared, me: Local, c: Choice, g: Gauge)
    requires Ready(sh, me, c, g) && me.pc.AtMon? && (me.pc.mon.MonCheck? || me.pc.mon.MonUnlock?)
    ensures Balanced(g, sh, me, ActMon(sh, me))
  {
  }

  lemma WriteEnterBalance(sh: Shared, me: Local, c: Choice, g: Gauge)
    requires Ready(sh, me, c, g) && me.pc.AtWork? && (me.pc.work.WriteEnter? || me.pc.work.WriteCount?)
    ensures Balanced(g, sh, me, ActWork(sh, me))
  {
  }

  lemma WriteLeaveBalance(sh: Shared, me: Local, c: Choice, g: Gauge)
    requires Ready(sh, me, c, g) && me.pc.AtWork? && me.pc.work.WriteLeave?
    ensures Balanced(g, sh, me, ActWork(sh, me))
  {
  }

  lemma ReadCountBalance(sh: Shared, me: Local, c: Choice, g: Gauge)
    requires Ready(sh, me, c, g) && me.pc.AtWork? && me.pc.work.ReadCount?
    ensures Balanced(g, sh, me, ActWork(sh, me))
  {
  }

  lemma EntryBalance(sh: Shared, me: Local, c: Choice, g: Gauge)
    requires Ready(sh, me, c, g) && me.pc.AtCall? && (me.pc.call.Entry? || me.pc.call.Fail?)
    ensures Balanced(g, sh, me, ActCall(sh, me))
  {
  }

  lemma TokenLockBalance(sh: Shared, me: Local, c: Choice, g: Gauge)
    requires Ready(sh, me, c, g) && me.pc.AtCall?
        && (me.pc.call.CheckOpen? || me.pc.call.TokenLock? || me.pc.call.TokenUnlock?)
    ensures Balanced(g, sh, me, ActCall(sh, me))
  {
  }

  lemma Balance(sh: Shared, me: Local, c: Choice, g: Gauge)
    requires Ready(sh, me, c, g)
    ensures Balanced(g, sh, me, Act(sh, me, c))
  {
    match me.pc
    case AtRo(ro, at) =>
      if at.RoAcquire? { RoAcquireBalance(sh, me, c, g); }
      else if at.RoSetRole? || at.RoCount? { RoSetRoleBalance(sh, me, c, g); }
      else if at.RoExec? { if ro.Fetch? { RoFetchBalance(sh, me, c, g); } else { RoExecBalance(sh, me, c, g); } }
      else { RoReturnBalance(sh, me, c, g); }
    case AtRw(op, at) =>
      if at.RwLock? || at.RwSetRole? { RwLockBalance(sh, me, c, g); }
      else if at.RwExec? {
        if op.OpCommit? || op.OpRollback? { RwEndBalance(sh, me, c, g); }
        else if op.OpRead? { RwReadBalance(sh, me, c, g); }
        else if op.OpWrite? { RwWriteBalance(sh, me, c, g); }
        else { RwExecBalance(sh, me, c, g); }
      }
      else { RwUnlockBalance(sh, me, c, g); }
    case AtBegin(at) =>
      if at.BeginEnter? || at.BeginLock? || at.BeginAbort? { BeginEnterBalance(sh, me, c, g); }
      else if at.PubId? { PubIdBalance(sh, me, c, g); }
      else if at.PubOwner? || at.PubTime? { PubOwnerBalance(sh, me, c, g); }
      else if at.PubCount? { PubCountBalance(sh, me, c, g); }
      else { BeginLeaveBalance(sh, me, c, g); }
    case AtEnd(_, at) =>
      if at.ClearId? || at.ClearOwner? || at.ClearTime? { ClearIdBalance(sh, me, c, g); }
      else { EndCountBalance(sh, me, c, g); }
    case AtTx(at) =>
      if at.OpLock? || at.CheckId? || at.CheckOwner? { OpLockBalance(sh, me, c, g); }
      else if at.TouchIn? { TouchInBalance(sh, me, c, g); }
      else if at.TouchOut? { TouchOutBalance(sh, me, c, g); }
      else { OpUnlockBalance(sh, me, c, g); }
    case AtMon(at) =>
      if at.MonIdle? || at.MonLock? || at.MonLoad? { MonIdleBalance(sh, me, c, g); }
      else { MonCheckBalance(sh, me, c, g); }
    case AtWork(at) =>
      if at.WriteEnter? || at.WriteCount? { WriteEnterBalance(sh, me, c, g); }
      else if at.WriteLeave? { WriteLeaveBalance(sh, me, c, g); }
      else { ReadCountBalance(sh, me, c, g); }
    case AtCall(at) =>
      if at.Entry? || at.Fail? { EntryBalance(sh, me, c, g); }
      else { TokenLockBalance(sh, me, c, g); }
  }

  lemma StepSameCall(sh: Shared, me: Local, c: Choice)
    requires Can(sh, me, c) && LocalOk(me)
    ensures SameCall(me, Act(sh, me, c).me)
  {
  }

  lemma ConnStaysOk(sh: Shared, me: Local, c: Choice)
    requires Can(sh, me, c) && LocalOk(me) && (me.pc.AtRo? || me.pc.AtRw?)
    ensures LocalOk(Act(sh, me, c).me)
  {
  }

  lemma CallStaysOk(sh: Shared, me: Local, c: Choice)
    requires Can(sh, me, c) && LocalOk(me) && !me.pc.AtRo? && !me.pc.AtRw?
    ensures LocalOk(Act(sh, me, c).me)
  {
  }

  lemma StepLocalOk(sh: Shared, me: Local, c: Choice)
    requires Can(sh, me, c) && LocalOk(me)
    ensures LocalOk(Act(sh, me, c).me) && SameCall(me, Act(sh, me, c).me)
  {
    StepSameCall(sh, me, c);
    if me.pc.AtRo? || me.pc.AtRw? { ConnStaysOk(sh, me, c); } else { CallStaysOk(sh, me, c); }
  }
}
