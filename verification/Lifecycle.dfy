/**
 The life of a transaction ID: fresh, then active, then ended, over every run and without any
 assumption on the statements or on the clients.
 */
module Lifecycle {
  import opened Frames
  import opened Gauges
  import opened History
  import opened Locks
  import opened Protocol

  /** The records are orderly, issued is the set of IDs that are no longer fresh, and only the ID
      in txID can be active. */
  ghost predicate LogOk(sh: Shared) {
    && Orderly(sh.log.trace)
    && (forall id | id != NONE :: PhaseOf(sh.log.trace, id).Fresh? <==> id !in sh.log.issued)
    && (forall id | id != NONE && PhaseOf(sh.log.trace, id).Active? :: id == sh.txID)
    && (sh.txID != NONE ==> sh.txID in sh.log.issued)
  }

  ghost predicate LifeInv(s: State) {
    && LogOk(s.sh)
    && (forall i :: 0 <= i < |s.procs| && EndedUncleared(s.procs[i].pc) ==>
          PhaseOf(s.sh.log.trace, s.sh.txID).Ended?)
    && (s.sh.txID != NONE && (forall i :: 0 <= i < |s.procs| ==> !EndedUncleared(s.procs[i].pc)) ==>
          PhaseOf(s.sh.log.trace, s.sh.txID).Active?)
  }

  /** While a goroutine holds txOpMu, the transaction in txID is over only if that goroutine has
      ended it. */
  ghost predicate LiveFacts(sh: Shared, me: Local) {
    HasOp(me) && sh.txID != NONE ==>
      if EndedUncleared(me.pc) then PhaseOf(sh.log.trace, sh.txID).Ended?
      else PhaseOf(sh.log.trace, sh.txID).Active?
  }

  lemma LiveFactsHold(s: State, i: nat)
    requires Inv(s) && LifeInv(s) && i < |s.procs|
    ensures LiveFacts(s.sh, s.procs[i])
  {
    if HasOp(s.procs[i]) && !EndedUncleared(s.procs[i].pc) {
      forall j | 0 <= j < |s.procs| ensures !EndedUncleared(s.procs[j].pc) {
        if j != i {
          Exclusive(s, Op, i, j);
          FactsHold(s, j);
        }
      }
    }
  }

  // ---- One step ----

  predicate Ends(e: Event) {
    e.Committed? || e.RolledBack?
  }

  /** Recording an event of the active transaction, or a read or write outside one. */
  lemma LogRecord(sh: Shared, sh': Shared, e: Event)
    requires LogOk(sh) && !e.Began?
    requires sh'.log.trace == Then(sh.log.trace, e)
    requires sh'.log.issued == sh.log.issued && sh'.txID == sh.txID
    requires if e.id == NONE then e.Wrote? || e.Saw? else PhaseOf(sh.log.trace, e.id).Active?
    ensures LogOk(sh')
    ensures Ends(e) ==> PhaseOf(sh'.log.trace, e.id).Ended?
    ensures !Ends(e) ==> forall id :: PhaseOf(sh'.log.trace, id) == PhaseOf(sh.log.trace, id)
  {
  }

  lemma LogRo(sh: Shared, me: Local, c: Choice)
    requires Can(sh, me, c) && LogOk(sh) && me.pc.AtRo? && me.pc.roAt.RoExec?
    ensures LogOk(ActRo(sh, me, c).sh)
    ensures forall id :: PhaseOf(ActRo(sh, me, c).sh.log.trace, id) == PhaseOf(sh.log.trace, id)
  {
    var sh' := ActRo(sh, me, c).sh;
    if sh'.log.trace != sh.log.trace {
      LogRecord(sh, sh', sh'.log.trace.last);
    }
  }

  lemma LogRw(sh: Shared, me: Local, c: Choice)
    requires Can(sh, me, c) && LogOk(sh) && Facts(sh, me) && LiveFacts(sh, me)
    requires me.pc.AtRw? && me.pc.rwAt.RwExec?
    ensures var t := ActRw(sh, me, c);
            && LogOk(t.sh)
            && (EndedUncleared(t.me.pc) ==> PhaseOf(t.sh.log.trace, sh.txID).Ended?)
            && (!EndedUncleared(t.me.pc) ==>
                  forall id :: PhaseOf(t.sh.log.trace, id) == PhaseOf(sh.log.trace, id))
  {
    var sh' := ActRw(sh, me, c).sh;
    if sh'.log.trace != sh.log.trace {
      LogRecord(sh, sh', sh'.log.trace.last);
    }
  }

  lemma LogPubId(sh: Shared, me: Local, c: Choice)
    requires Can(sh, me, c) && LogOk(sh) && Facts(sh, me) && me.pc == AtBegin(PubId)
    ensures var t := ActBegin(sh, me, c);
            && LogOk(t.sh) && PhaseOf(t.sh.log.trace, t.sh.txID).Active?
            && (forall id | id != c.uuid :: PhaseOf(t.sh.log.trace, id) == PhaseOf(sh.log.trace, id))
  {
    assert PhaseOf(sh.log.trace, c.uuid).Fresh?;
  }

  lemma LogTx(sh: Shared, me: Local)
    requires LogOk(sh) && Facts(sh, me) && LiveFacts(sh, me) && me.pc.AtTx?
    ensures LogOk(ActTx(sh, me).sh)
    ensures forall id :: PhaseOf(ActTx(sh, me).sh.log.trace, id) == PhaseOf(sh.log.trace, id)
  {
    var sh' := ActTx(sh, me).sh;
    if sh'.log.trace != sh.log.trace {
      LogRecord(sh, sh', sh'.log.trace.last);
    }
  }

  /** What a step does to the phases, and what it leaves txID pointing at. */
  ghost predicate PhasesKept(sh: Shared, me: Local, t: Turn) {
    && (EndedUncleared(t.me.pc) ==> PhaseOf(t.sh.log.trace, t.sh.txID).Ended?)
    && (me.pc == AtBegin(PubId) ==> PhaseOf(t.sh.log.trace, t.sh.txID).Active?)
    && (!EndedUncleared(t.me.pc) ==>
          forall id | id in sh.log.issued :: PhaseOf(t.sh.log.trace, id) == PhaseOf(sh.log.trace, id))
  }

  lemma LogUntouched(sh: Shared, me: Local, c: Choice)
    requires Can(sh, me, c) && LogOk(sh) && Facts(sh, me) && LiveFacts(sh, me)
    requires !Records(me.pc) && !me.pc.AtTx?
    ensures LogOk(Act(sh, me, c).sh) && PhasesKept(sh, me, Act(sh, me, c))
  {
    var t := Act(sh, me, c);
    StepFramed(sh, me, c);
    StepSteady(sh, me, c);
    assert t.sh.log.trace == sh.log.trace && t.sh.log.issued == sh.log.issued;
    assert EndedUncleared(t.me.pc) ==> EndedUncleared(me.pc);
    hide PhaseOf, Orderly;
  }

  lemma LogStep(sh: Shared, me: Local, c: Choice)
    requires Can(sh, me, c) && LogOk(sh) && Facts(sh, me) && LiveFacts(sh, me)
    ensures LogOk(Act(sh, me, c).sh) && PhasesKept(sh, me, Act(sh, me, c))
  {
    if me.pc.AtRo? && me.pc.roAt.RoExec? {
      LogRo(sh, me, c);
    } else if me.pc.AtRw? && me.pc.rwAt.RwExec? {
      LogRw(sh, me, c);
    } else if me.pc == AtBegin(PubId) {
      LogPubId(sh, me, c);
    } else if me.pc.AtTx? {
      LogTx(sh, me);
    } else {
      LogUntouched(sh, me, c);
    }
  }

  lemma LifeRun(s: State, pid: nat, c: Choice)
    requires Inv(s) && LifeInv(s) && Enabled(s, Run(pid, c))
    ensures LifeInv(Next(s, Run(pid, c)))
  {
    var me := s.procs[pid];
    var t := Next(s, Run(pid, c));
    FactsHold(s, pid);
    LiveFactsHold(s, pid);
    LogStep(s.sh, me, c);
    StepSteady(s.sh, me, c);
    forall i | 0 <= i < |t.procs| && EndedUncleared(t.procs[i].pc)
      ensures PhaseOf(t.sh.log.trace, t.sh.txID).Ended?
    {
      if i != pid {
        FactsHold(s, i);
        RunKeepsValidated(s, pid, c, i);
        if EndedUncleared(t.procs[pid].pc) {
        } else {
          assert PhaseOf(t.sh.log.trace, s.sh.txID) == PhaseOf(s.sh.log.trace, s.sh.txID);
        }
      }
    }
    if t.sh.txID != NONE && forall i :: 0 <= i < |t.procs| ==> !EndedUncleared(t.procs[i].pc) {
      assert !EndedUncleared(t.procs[pid].pc);
      if me.pc != AtBegin(PubId) {
        assert forall i :: 0 <= i < |s.procs| && i != pid ==> t.procs[i] == s.procs[i];
        assert !EndedUncleared(me.pc);
      }
    }
  }

  lemma LifeNext(s: State, l: Label)
    requires Inv(s) && LifeInv(s) && Enabled(s, l)
    ensures LifeInv(Next(s, l))
  {
    if l.Run? {
      LifeRun(s, l.pid, l.c);
    } else if !l.Advance? {
      assert forall i :: 0 <= i < |s.procs| ==> Next(s, l).procs[i] == s.procs[i];
    }
  }
}
