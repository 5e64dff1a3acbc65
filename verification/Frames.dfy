/**
 What a step leaves alone.
 */
module Frames {
  import opened Gauges
  import opened History
  import opened Protocol
  import opened Sqlite

  /** No mutex is unlocked that was not locked; txID changes only where it is stored; a goroutine
      that has found its ID in txID works on that transaction. */
  ghost predicate Steady(sh: Shared, me: Local, t: Turn) {
    && (t.sh.fault ==> sh.fault)
    && (t.sh.txID == sh.txID || me.pc == AtBegin(PubId) || (me.pc.AtEnd? && me.pc.end.ClearId?))
    && (Validated(t.me) ==> t.me.q.txID == t.sh.txID)
  }

  ghost predicate SameData(c: Conn, c': Conn) {
    c'.committed == c.committed && c'.working == c.working && c'.inTx == c.inTx
  }

  /** Each part of the shared state changes only at its own program counters. */
  ghost predicate Framed(sh: Shared, pc: PC, sh': Shared) {
    && sh'.now == sh.now && sh'.timeout == sh.timeout && sh'.stopped == sh.stopped
    && |sh'.ro| == |sh.ro|
    && (sh'.ro == sh.ro || pc.AtRo?)
    && (sh'.conn.role == sh.conn.role || (pc.AtRw? && pc.rwAt.RwSetRole?))
    && ((pc.AtRw? && pc.rwAt.RwExec?) || SameData(sh.conn, sh'.conn))
    && (sh'.txOwner == sh.txOwner || pc == AtBegin(PubOwner) || (pc.AtEnd? && pc.end.ClearOwner?))
    && (sh'.txLastUsed == sh.txLastUsed ||
        pc == AtBegin(PubTime) || (pc.AtEnd? && pc.end.ClearTime?) || Touches(pc))
  }

  predicate Touches(pc: PC) {
    pc.AtTx? && (pc.tx.TouchIn? || pc.tx.TouchOut?)
  }

  /** The program counters at which an event may be recorded. */
  predicate Records(pc: PC) {
    (pc.AtRo? && pc.roAt.RoExec?) || (pc.AtRw? && pc.rwAt.RwExec?) || pc == AtBegin(PubId) || Touches(pc)
  }

  ghost predicate FramedLog(log: Log, pc: PC, log': Log) {
    && log'.named == log.named && log'.leaked == log.leaked
    && (log'.trace == log.trace || Records(pc))
    && (log'.issued == log.issued || pc == AtBegin(PubId))
    && (log'.known == log.known || (pc.AtBegin? && pc.begin.BeginLeave?))
  }

  lemma RoAcquireFramed(sh: Shared, me: Local, c: Choice)
    requires Can(sh, me, c) && me.pc.AtRo? && me.pc.roAt.RoAcquire?
    ensures Framed(sh, me.pc, ActRo(sh, me, c).sh) && FramedLog(sh.log, me.pc, ActRo(sh, me, c).sh.log)
  {
  }

  lemma RoSetRoleFramed(sh: Shared, me: Local, c: Choice)
    requires Can(sh, me, c) && me.pc.AtRo? && (me.pc.roAt.RoSetRole? || me.pc.roAt.RoCount?)
    ensures Framed(sh, me.pc, ActRo(sh, me, c).sh) && FramedLog(sh.log, me.pc, ActRo(sh, me, c).sh.log)
  {
  }

  lemma RoFetchFramed(sh: Shared, me: Local, c: Choice)
    requires Can(sh, me, c) && me.pc.AtRo? && me.pc.roAt.RoExec? && me.pc.ro.Fetch?
    ensures Framed(sh, me.pc, ActRo(sh, me, c).sh) && FramedLog(sh.log, me.pc, ActRo(sh, me, c).sh.log)
  {
  }

  lemma RoExecFramed(sh: Shared, me: Local, c: Choice)
    requires Can(sh, me, c) && me.pc.AtRo? && me.pc.roAt.RoExec? && !me.pc.ro.Fetch?
    ensures Framed(sh, me.pc, ActRo(sh, me, c).sh) && FramedLog(sh.log, me.pc, ActRo(sh, me, c).sh.log)
  {
  }

  lemma RoReturnFramed(sh: Shared, me: Local, c: Choice)
    requires Can(sh, me, c) && me.pc.AtRo? && me.pc.roAt.RoReturn?
    ensures Framed(sh, me.pc, ActRo(sh, me, c).sh) && FramedLog(sh.log, me.pc, ActRo(sh, me, c).sh.log)
  {
  }

  lemma AfterKeepsRole(conn: Conn, stmt: Stmt, writes: bool)
    ensures conn.After(stmt, writes).role == conn.role
  {
  }

  lemma RwExecFramed(sh: Shared, me: Local, c: Choice)
    requires Can(sh, me, c) && me.pc.AtRw? && me.pc.rwAt.RwExec?
    ensures Framed(sh, me.pc, ActRw(sh, me, c).sh) && FramedLog(sh.log, me.pc, ActRw(sh, me, c).sh.log)
  {
    AfterKeepsRole(sh.conn, StmtFor(me, me.pc.op), me.pc.op.OpWrite?);
    hide Conn.After, Conn.Succeeds, StmtFor;
  }

  lemma RwFramed(sh: Shared, me: Local, c: Choice)
    requires Can(sh, me, c) && me.pc.AtRw? && !me.pc.rwAt.RwExec?
    ensures Framed(sh, me.pc, ActRw(sh, me, c).sh) && FramedLog(sh.log, me.pc, ActRw(sh, me, c).sh.log)
  {
  }

  lemma BeginEnterFramed(sh: Shared, me: Local, c: Choice)
    requires Can(sh, me, c) && me.pc.AtBegin?
        && (me.pc.begin.BeginEnter? || me.pc.begin.BeginLock? || me.pc.begin.BeginAbort?)
    ensures Framed(sh, me.pc, ActBegin(sh, me, c).sh) && FramedLog(sh.log, me.pc, ActBegin(sh, me, c).sh.log)
  {
  }

  lemma PubIdFramed(sh: Shared, me: Local, c: Choice)
    requires Can(sh, me, c) && me.pc.AtBegin? && me.pc.begin.PubId?
    ensures Framed(sh, me.pc, ActBegin(sh, me, c).sh) && FramedLog(sh.log, me.pc, ActBegin(sh, me, c).sh.log)
  {
  }

  lemma PubOwnerFramed(sh: Shared, me: Local, c: Choice)
    requires Can(sh, me, c) && me.pc.AtBegin?
        && (me.pc.begin.PubOwner? || me.pc.begin.PubTime? || me.pc.begin.PubCount?)
    ensures Framed(sh, me.pc, ActBegin(sh, me, c).sh) && FramedLog(sh.log, me.pc, ActBegin(sh, me, c).sh.log)
  {
  }

  lemma BeginLeaveFramed(sh: Shared, me: Local, c: Choice)
    requires Can(sh, me, c) && me.pc.AtBegin? && me.pc.begin.BeginLeave?
    ensures Framed(sh, me.pc, ActBegin(sh, me, c).sh) && FramedLog(sh.log, me.pc, ActBegin(sh, me, c).sh.log)
  {
  }

  lemma ClearIdFramed(sh: Shared, me: Local, c: Choice)
    requires Can(sh, me, c) && me.pc.AtEnd? && (me.pc.end.ClearId? || me.pc.end.ClearOwner? || me.pc.end.ClearTime?)
    ensures Framed(sh, me.pc, ActEnd(sh, me).sh) && FramedLog(sh.log, me.pc, ActEnd(sh, me).sh.log)
  {
  }

  lemma EndCountFramed(sh: Shared, me: Local, c: Choice)
    requires Can(sh, me, c) && me.pc.AtEnd? && (me.pc.end.EndCount? || me.pc.end.EndUnlock?)
    ensures Framed(sh, me.pc, ActEnd(sh, me).sh) && FramedLog(sh.log, me.pc, ActEnd(sh, me).sh.log)
  {
  }

  lemma TxFramed(sh: Shared, me: Local, c: Choice)
    requires Can(sh, me, c) && me.pc.AtTx?
    ensures Framed(sh, me.pc, ActTx(sh, me).sh) && FramedLog(sh.log, me.pc, ActTx(sh, me).sh.log)
  {
  }

  lemma MonLoadFramed(sh: Shared, me: Local, c: Choice)
    requires Can(sh, me, c) && me.pc == AtMon(MonLoad)
    ensures Framed(sh, me.pc, ActMon(sh, me).sh) && FramedLog(sh.log, me.pc, ActMon(sh, me).sh.log)
  {
  }

  lemma MonFramed(sh: Shared, me: Local, c: Choice)
    requires Can(sh, me, c) && me.pc.AtMon? && me.pc != AtMon(MonLoad)
    ensures Framed(sh, me.pc, ActMon(sh, me).sh) && FramedLog(sh.log, me.pc, ActMon(sh, me).sh.log)
  {
  }

  lemma WorkLeaveFramed(sh: Shared, me: Local, c: Choice)
    requires Can(sh, me, c) && me.pc.AtWork? && me.pc.work.WriteLeave?
    ensures Framed(sh, me.pc, ActWork(sh, me).sh) && FramedLog(sh.log, me.pc, ActWork(sh, me).sh.log)
  {
  }

  lemma WorkFramed(sh: Shared, me: Local, c: Choice)
    requires Can(sh, me, c) && me.pc.AtWork? && !me.pc.work.WriteLeave?
    ensures Framed(sh, me.pc, ActWork(sh, me).sh) && FramedLog(sh.log, me.pc, ActWork(sh, me).sh.log)
  {
  }

  lemma TokenFramed(sh: Shared, me: Local, c: Choice)
    requires Can(sh, me, c) && me.pc.AtCall? && (me.pc.call.TokenLock? || me.pc.call.TokenUnlock?)
    ensures Framed(sh, me.pc, ActCall(sh, me).sh) && FramedLog(sh.log, me.pc, ActCall(sh, me).sh.log)
  {
  }

  lemma CallFramed(sh: Shared, me: Local, c: Choice)
    requires Can(sh, me, c) && me.pc.AtCall? && !me.pc.call.TokenLock? && !me.pc.call.TokenUnlock?
    ensures Framed(sh, me.pc, ActCall(sh, me).sh) && FramedLog(sh.log, me.pc, ActCall(sh, me).sh.log)
  {
  }

  lemma StepFramed(sh: Shared, me: Local, c: Choice)
    requires Can(sh, me, c)
    ensures Framed(sh, me.pc, Act(sh, me, c).sh) && FramedLog(sh.log, me.pc, Act(sh, me, c).sh.log)
  {
    match me.pc
    case AtRo(ro, at) =>
      if at.RoAcquire? { RoAcquireFramed(sh, me, c); }
      else if at.RoSetRole? || at.RoCount? { RoSetRoleFramed(sh, me, c); }
      else if at.RoExec? { if ro.Fetch? { RoFetchFramed(sh, me, c); } else { RoExecFramed(sh, me, c); } }
      else { RoReturnFramed(sh, me, c); }
    case AtRw(_, at) => if at.RwExec? { RwExecFramed(sh, me, c); } else { RwFramed(sh, me, c); }
    case AtBegin(at) =>
      if at.BeginEnter? || at.BeginLock? || at.BeginAbort? { BeginEnterFramed(sh, me, c); }
      else if at.PubId? { PubIdFramed(sh, me, c); }
      else if at.PubOwner? || at.PubTime? || at.PubCount? { PubOwnerFramed(sh, me, c); }
      else { BeginLeaveFramed(sh, me, c); }
    case AtEnd(_, at) =>
      if at.ClearId? || at.ClearOwner? || at.ClearTime? { ClearIdFramed(sh, me, c); }
      else { EndCountFramed(sh, me, c); }
    case AtTx(_) => TxFramed(sh, me, c);
    case AtMon(at) => if at.MonLoad? { MonLoadFramed(sh, me, c); } else { MonFramed(sh, me, c); }
    case AtWork(at) => if at.WriteLeave? { WorkLeaveFramed(sh, me, c); } else { WorkFramed(sh, me, c); }
    case AtCall(at) =>
      if at.TokenLock? || at.TokenUnlock? { TokenFramed(sh, me, c); } else { CallFramed(sh, me, c); }
  }

  lemma RoSteady(sh: Shared, me: Local, c: Choice)
    requires Can(sh, me, c) && Facts(sh, me) && me.pc.AtRo?
    ensures Steady(sh, me, ActRo(sh, me, c))
  {
  }

  lemma RwSteady(sh: Shared, me: Local, c: Choice)
    requires Can(sh, me, c) && Facts(sh, me) && me.pc.AtRw?
    ensures Steady(sh, me, ActRw(sh, me, c))
  {
  }

  lemma BeginSteady(sh: Shared, me: Local, c: Choice)
    requires Can(sh, me, c) && Facts(sh, me) && me.pc.AtBegin?
    ensures Steady(sh, me, ActBegin(sh, me, c))
  {
  }

  lemma EndSteady(sh: Shared, me: Local, c: Choice)
    requires Can(sh, me, c) && Facts(sh, me) && me.pc.AtEnd?
    ensures Steady(sh, me, ActEnd(sh, me))
  {
  }

  lemma TxSteady(sh: Shared, me: Local, c: Choice)
    requires Can(sh, me, c) && Facts(sh, me) && me.pc.AtTx?
    ensures Steady(sh, me, ActTx(sh, me))
  {
  }

  lemma MonSteady(sh: Shared, me: Local, c: Choice)
    requires Can(sh, me, c) && Facts(sh, me) && me.pc.AtMon?
    ensures Steady(sh, me, ActMon(sh, me))
  {
  }

  lemma WorkSteady(sh: Shared, me: Local, c: Choice)
    requires Can(sh, me, c) && Facts(sh, me) && me.pc.AtWork?
    ensures Steady(sh, me, ActWork(sh, me))
  {
  }

  lemma CallSteady(sh: Shared, me: Local, c: Choice)
    requires Can(sh, me, c) && Facts(sh, me) && me.pc.AtCall?
    ensures Steady(sh, me, ActCall(sh, me))
  {
  }

  lemma StepSteady(sh: Shared, me: Local, c: Choice)
    requires Can(sh, me, c) && Facts(sh, me)
    ensures Steady(sh, me, Act(sh, me, c))
  {
    match me.pc
    case AtRo(_, _) => RoSteady(sh, me, c);
    case AtRw(_, _) => RwSteady(sh, me, c);
    case AtBegin(_) => BeginSteady(sh, me, c);
    case AtEnd(_, _) => EndSteady(sh, me, c);
    case AtTx(_) => TxSteady(sh, me, c);
    case AtMon(_) => MonSteady(sh, me, c);
    case AtWork(_) => WorkSteady(sh, me, c);
    case AtCall(_) => CallSteady(sh, me, c);
  }

  /** The trace stays, or grows by one event: a beginning with a new ID where a BEGIN stores it,
      a use where txLastUsed is stored for a statement. */
  ghost predicate Grows(sh: Shared, me: Local, c: Choice, t': Trace) {
    t' == sh.log.trace ||
    (&& t'.Then? && t'.before == sh.log.trace
     && (t'.last.Began? ==> me.pc == AtBegin(PubId) && t'.last.id == c.uuid && c.uuid !in sh.log.issued)
     && (t'.last.Used? ==> Touches(me.pc) && t'.last.id == me.q.txID))
  }

  lemma RoGrows(sh: Shared, me: Local, c: Choice)
    requires Can(sh, me, c) && me.pc.AtRo? && me.pc.roAt.RoExec?
    ensures Grows(sh, me, c, ActRo(sh, me, c).sh.log.trace)
  {
  }

  lemma RwGrows(sh: Shared, me: Local, c: Choice)
    requires Can(sh, me, c) && me.pc.AtRw? && me.pc.rwAt.RwExec?
    ensures Grows(sh, me, c, ActRw(sh, me, c).sh.log.trace)
  {
  }

  lemma BeginGrows(sh: Shared, me: Local, c: Choice)
    requires Can(sh, me, c) && me.pc == AtBegin(PubId)
    ensures Grows(sh, me, c, ActBegin(sh, me, c).sh.log.trace)
  {
  }

  lemma TxGrows(sh: Shared, me: Local, c: Choice)
    requires Can(sh, me, c) && me.pc.AtTx? && Touches(me.pc)
    ensures Grows(sh, me, c, ActTx(sh, me).sh.log.trace)
  {
  }

  lemma StepGrows(sh: Shared, me: Local, c: Choice)
    requires Can(sh, me, c)
    ensures Grows(sh, me, c, Act(sh, me, c).sh.log.trace)
  {
    if !Records(me.pc) {
      StepFramed(sh, me, c);
    } else {
      match me.pc
      case AtRo(_, _) => RoGrows(sh, me, c);
      case AtRw(_, _) => RwGrows(sh, me, c);
      case AtBegin(_) => BeginGrows(sh, me, c);
      case AtTx(_) => TxGrows(sh, me, c);
    }
  }
}
