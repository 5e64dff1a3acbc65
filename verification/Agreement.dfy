/**
 The coordinator's txID against SQLite's own transaction state.
 */
module Agreement {
  import opened Frames
  import opened Gauges
  import opened History
  import opened Locks
  import opened Protocol
  import opened Sqlite

  /** While one goroutine has the read-write connection to itself, no other is inside a window. */
  lemma OthersSettled(s: State, i: nat, j: nat)
    requires Inv(s) && i < |s.procs| && j < |s.procs| && i != j
    requires Validated(s.procs[i]) || HasToken(s.procs[i])
    ensures Weigh(Agree, s.procs[j]) == 0
  {
    FactsHold(s, i);
    FactsHold(s, j);
    if HasToken(s.procs[i]) {
      Exclusive(s, Token, i, j);
    } else {
      Exclusive(s, Op, i, j);
    }
  }

  /** What SQLite's transaction state is while a goroutine works on a transaction, begins one, or
      holds txMu for a statement of its own. */
  ghost predicate TxFacts(sh: Shared, me: Local) {
    && (Validated(me) ==> (sh.conn.inTx <==> !EndedUncleared(me.pc)))
    && (HasToken(me) ==> (sh.conn.inTx <==> OpenedUnpublished(me.pc)))
  }

  lemma TxFactsHold(s: State, i: nat)
    requires Inv(s) && Routed(s) && i < |s.procs|
    ensures TxFacts(s.sh, s.procs[i])
  {
    var me := s.procs[i];
    if Validated(me) || HasToken(me) {
      FactsHold(s, i);
      forall j | 0 <= j < |s.procs| && j != i ensures Weigh(Agree, s.procs[j]) == 0 {
        OthersSettled(s, i, j);
      }
      TotalOfOne(Agree, s.procs, i);
      assert Applies(Agree, s);
    }
  }

  /** Outside the windows in which a BEGIN, COMMIT or ROLLBACK has been executed but not stored,
      txID is set exactly when SQLite is in a transaction. */
  lemma AgreesWithSqlite(s: State)
    requires Reachable(s) && Routed(s)
    requires forall i :: 0 <= i < |s.procs| ==>
      !OpenedUnpublished(s.procs[i].pc) && !EndedUncleared(s.procs[i].pc)
    ensures s.sh.txID != NONE <==> s.sh.conn.inTx
  {
    ReachableInv(s);
    TotalZero(Agree, s.procs);
    assert Applies(Agree, s);
  }

  /** Where the assumption is needed: the execution of an ordinary statement keeps the agreement exactly
      when the statement leaves the transaction alone or fails.  Here a goroutine is about to
      execute one on the read-write connection, and the two agree. */
  lemma AgreementIsKept(sh: Shared, me: Local, c: Choice)
    requires Facts(sh, me) && me.pc.AtRw? && me.pc.rwAt.RwExec? && (me.pc.op.OpRead? || me.pc.op.OpWrite?)
    requires sh.txID != NONE <==> sh.conn.inTx
    ensures var t := ActRw(sh, me, c);
            && t.sh.txID == sh.txID
            && ((t.sh.txID != NONE <==> t.sh.conn.inTx) <==>
                me.q.stmt.control.Plain? || !sh.conn.Succeeds(me.q.stmt, c.ok))
  {
    var t := ActRw(sh, me, c);
    if sh.conn.Succeeds(me.q.stmt, c.ok) {
      assert t.sh.conn == sh.conn.After(me.q.stmt, me.pc.op.OpWrite?);
    }
  }

  // ---- Without the routing assumption ----

  /** txID names a transaction, SQLite is in autocommit, and nobody is about to clear txID. */
  ghost predicate Wedged(s: State, id: Name) {
    && s.sh.txID == id != NONE
    && !s.sh.conn.inTx
    && forall i :: 0 <= i < |s.procs| ==> !EndedUncleared(s.procs[i].pc)
  }

  /** Every statement still to be executed leaves the transaction alone. */
  ghost predicate Tame(s: State) {
    forall i :: 0 <= i < |s.procs| && !Finished(s.procs[i].pc) ==> s.procs[i].q.stmt.control.Plain?
  }

  ghost predicate TameArrivals(ls: seq<Label>) {
    forall k :: 0 <= k < |ls| && ls[k].Arrive? ==> ls[k].q.stmt.control.Plain?
  }

  /** In autocommit, with txMu kept by txID, neither COMMIT nor ROLLBACK nor any other statement
      succeeds in changing the transaction state. */
  lemma WedgedExec(sh: Shared, me: Local, c: Choice)
    requires Can(sh, me, c) && Facts(sh, me) && me.pc.AtRw? && me.q.stmt.control.Plain?
    requires sh.txID != NONE && !sh.conn.inTx && !EndedUncleared(me.pc)
    ensures var t := ActRw(sh, me, c); !t.sh.conn.inTx && !EndedUncleared(t.me.pc)
  {
  }

  lemma WedgedElsewhere(sh: Shared, me: Local, c: Choice)
    requires Can(sh, me, c) && Facts(sh, me) && !me.pc.AtRw?
    requires sh.txID != NONE && !EndedUncleared(me.pc)
    ensures !EndedUncleared(Act(sh, me, c).me.pc)
    ensures me.pc != AtBegin(PubId) && !me.pc.AtEnd?
  {
  }

  lemma WedgedStep(s: State, l: Label, id: Name)
    requires Inv(s) && Wedged(s, id) && Tame(s) && Enabled(s, l)
    requires l.Arrive? ==> l.q.stmt.control.Plain?
    ensures Wedged(Next(s, l), id) && Tame(Next(s, l))
  {
    if l.Run? {
      var me := s.procs[l.pid];
      FactsHold(s, l.pid);
      StepFramed(s.sh, me, l.c);
      StepSteady(s.sh, me, l.c);
      StepLocalOk(s.sh, me, l.c);
      if me.pc.AtRw? {
        WedgedExec(s.sh, me, l.c);
      } else {
        WedgedElsewhere(s.sh, me, l.c);
      }
    }
  }

  /** From such a state on, whatever COMMIT, ROLLBACK, idle tick or other request runs, txID stays
      and txMu stays locked: the coordinator never opens another transaction. */
  lemma {:induction false} WedgedForever(s: State, ls: seq<Label>, t: State, id: Name)
    requires Inv(s) && Wedged(s, id) && Tame(s) && TameArrivals(ls) && Leads(s, ls, t)
    ensures t.sh.txID == id && t.sh.txMu
    decreases |ls|
  {
    if ls == [] {
      TotalAtLeast(Token, s.procs, 0);
      assert Applies(Token, s);
    } else {
      WedgedStep(s, ls[0], id);
      InvNext(s, ls[0]);
      WedgedForever(Next(s, ls[0]), ls[1..], t, id);
    }
  }
}
