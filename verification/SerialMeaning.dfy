/**
 Serial meaning: whatever the interleaving, the committed database is the replay, in commit order,
 of each committed transaction's writes as one block and of each other write on its own.
 */
module SerialMeaning {
  import opened Agreement
  import opened Frames
  import opened Gauges
  import opened History
  import opened Lifecycle
  import opened Locks
  import opened Protocol
  import opened Sqlite

  /** What a transaction sees: everything committed, then its own writes so far. */
  ghost function ViewOf(db: Db, t: Trace, id: Name): Db {
    Replay(ReplayBlocks(db, Serial(t)), if id == NONE then [] else WritesOf(t, id))
  }

  /** Every read saw the serial state of its moment, plus its own transaction's writes. */
  ghost predicate Isolated(db: Db, t: Trace) {
    match t
    case Start => true
    case Then(p, e) => Isolated(db, p) && (e.Saw? ==> e.db == ViewOf(db, p, e.id))
  }

  ghost predicate SerialOk(db: Db, sh: Shared) {
    && sh.conn.committed == ReplayBlocks(db, Serial(sh.log.trace))
    && (sh.conn.inTx ==> sh.conn.working == ViewOf(db, sh.log.trace, sh.txID))
    && Isolated(db, sh.log.trace)
  }

  /** Everything a goroutine may rely on in the proof below. */
  ghost predicate Knows(db: Db, sh: Shared, me: Local) {
    && Facts(sh, me) && TxFacts(sh, me) && me.q.stmt.control.Plain?
    && LogOk(sh) && SerialOk(db, sh)
  }

  lemma SerialBegin(db: Db, sh: Shared, me: Local, c: Choice)
    requires Can(sh, me, c) && Knows(db, sh, me) && me.pc == AtRw(OpBegin, RwExec)
    ensures SerialOk(db, ActRw(sh, me, c).sh)
  {
  }

  /** One more block: what the transaction wrote. */
  lemma SerialCommit(db: Db, sh: Shared, me: Local, c: Choice)
    requires Can(sh, me, c) && Knows(db, sh, me) && me.pc == AtRw(OpCommit, RwExec)
    ensures SerialOk(db, ActRw(sh, me, c).sh)
  {
    ReplayOneMore(db, Serial(sh.log.trace), WritesOf(sh.log.trace, me.q.txID));
    hide LogOk, Replay, ReplayBlocks;
  }

  lemma SerialRollback(db: Db, sh: Shared, me: Local, c: Choice)
    requires Can(sh, me, c) && Knows(db, sh, me) && me.pc == AtRw(OpRollback, RwExec)
    ensures SerialOk(db, ActRw(sh, me, c).sh)
  {
    hide LogOk, Replay, ReplayBlocks;
  }

  lemma SerialRead(db: Db, sh: Shared, me: Local, c: Choice)
    requires Can(sh, me, c) && Knows(db, sh, me)
    requires me.pc == AtRw(OpRead, RwExec) || me.pc == AtRw(OpClassify, RwExec)
    ensures SerialOk(db, ActRw(sh, me, c).sh)
  {
  }

  /** A write of its own: one more block. */
  lemma SerialWriteAlone(db: Db, sh: Shared, me: Local, c: Choice)
    requires Can(sh, me, c) && Knows(db, sh, me) && me.pc == AtRw(OpWrite, RwExec) && me.q.txID == NONE
    ensures SerialOk(db, ActRw(sh, me, c).sh)
  {
    ReplaySingle(sh.conn.View(), me.q.stmt);
    ReplayOneMore(db, Serial(sh.log.trace), [me.q.stmt]);
    hide LogOk, Replay, ReplayBlocks;
  }

  /** A write in the transaction: one more write of its own in what it sees. */
  lemma SerialWriteInTx(db: Db, sh: Shared, me: Local, c: Choice)
    requires Can(sh, me, c) && Knows(db, sh, me) && me.pc == AtRw(OpWrite, RwExec) && me.q.txID != NONE
    ensures SerialOk(db, ActRw(sh, me, c).sh)
  {
    var t := sh.log.trace;
    ReplaySingle(sh.conn.View(), me.q.stmt);
    ReplayAppend(ReplayBlocks(db, Serial(t)), WritesOf(t, me.q.txID), [me.q.stmt]);
    hide LogOk, Replay, ReplayBlocks;
  }

  /** What routing is needed for, exactly: while the transaction is open in SQLite, executing a statement of it
      that was taken for a read or a write keeps the committed contents those of the schedule, unless it
      commits, and commits changes. */
  lemma ContentsAreKept(db: Db, sh: Shared, me: Local, c: Choice)
    requires me.pc == AtRw(OpRead, RwExec) || me.pc == AtRw(OpWrite, RwExec)
    requires me.q.txID != NONE && sh.conn.inTx && sh.conn.committed == ReplayBlocks(db, Serial(sh.log.trace))
    ensures var t := ActRw(sh, me, c).sh;
            t.conn.committed == ReplayBlocks(db, Serial(t.log.trace)) <==>
              !(sh.conn.Succeeds(me.q.stmt, c.ok) && me.q.stmt.control.Commits? && sh.conn.working != sh.conn.committed)
  {
    hide ReplayBlocks;
  }

  lemma SerialFetch(db: Db, sh: Shared, me: Local, c: Choice)
    requires Can(sh, me, c) && Knows(db, sh, me) && me.pc.AtRo? && me.pc.roAt.RoExec?
    ensures SerialOk(db, ActRo(sh, me, c).sh)
  {
  }

  lemma SerialPublish(db: Db, sh: Shared, me: Local, c: Choice)
    requires Can(sh, me, c) && Knows(db, sh, me) && me.pc == AtBegin(PubId)
    ensures SerialOk(db, ActBegin(sh, me, c).sh)
  {
    FreshWroteNothing(sh.log.trace, c.uuid);
  }

  lemma SerialTouch(db: Db, sh: Shared, me: Local)
    requires Knows(db, sh, me) && me.pc.AtTx?
    ensures SerialOk(db, ActTx(sh, me).sh)
  {
    var after := ActTx(sh, me).sh;
    assert after.conn == sh.conn && after.txID == sh.txID;
    hide Knows, Facts, LogOk, SerialOk;
    if after.log.trace != sh.log.trace {
      assert after.log.trace.before == sh.log.trace && after.log.trace.last.Used?;
    }
    UseIsNoWrite(db, sh, after);
  }

  /** The record of a use is no part of the schedule. */
  lemma UseIsNoWrite(db: Db, sh: Shared, after: Shared)
    requires SerialOk(db, sh) && after.conn == sh.conn && after.txID == sh.txID
    requires var t := after.log.trace; t == sh.log.trace || (t.Then? && t.before == sh.log.trace && t.last.Used?)
    ensures SerialOk(db, after)
  {
    hide Replay, ReplayBlocks;
  }

  lemma SerialElsewhere(db: Db, sh: Shared, me: Local, c: Choice)
    requires Can(sh, me, c) && Knows(db, sh, me) && !Records(me.pc)
    ensures SerialOk(db, Act(sh, me, c).sh)
  {
    StepFramed(sh, me, c);
    StepSteady(sh, me, c);
  }

  lemma SerialStep(db: Db, sh: Shared, me: Local, c: Choice)
    requires Can(sh, me, c) && Knows(db, sh, me)
    ensures SerialOk(db, Act(sh, me, c).sh)
  {
    if !Records(me.pc) {
      SerialElsewhere(db, sh, me, c);
    } else if me.pc.AtRo? {
      SerialFetch(db, sh, me, c);
    } else if me.pc.AtBegin? {
      SerialPublish(db, sh, me, c);
    } else if me.pc.AtTx? {
      SerialTouch(db, sh, me);
    } else {
      match me.pc.op
      case OpBegin => SerialBegin(db, sh, me, c);
      case OpCommit => SerialCommit(db, sh, me, c);
      case OpRollback => SerialRollback(db, sh, me, c);
      case OpClassify | OpRead => SerialRead(db, sh, me, c);
      case OpWrite =>
        if me.q.txID == NONE { SerialWriteAlone(db, sh, me, c); } else { SerialWriteInTx(db, sh, me, c); }
    }
  }

  lemma SerialNext(db: Db, s: State, l: Label)
    requires Inv(s) && LifeInv(s) && Routed(s) && SerialOk(db, s.sh) && Enabled(s, l)
    ensures SerialOk(db, Next(s, l).sh)
  {
    if l.Run? {
      FactsHold(s, l.pid);
      TxFactsHold(s, l.pid);
      SerialStep(db, s.sh, s.procs[l.pid], l.c);
    }
  }
}
