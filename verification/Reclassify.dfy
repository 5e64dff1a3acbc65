/**
 A standalone statement that could not be classified while a transaction was open, and could be once
 txMu was had, is executed on the very database it was classified against.
 */
module Reclassify {
  import opened Frames
  import opened Gauges
  import opened Locks
  import opened Protocol
  import opened Wrappers

  /** Between the classification under txMu and the end of the execution that follows it. */
  predicate Pending(me: Local) {
    me.held && me.seen.Some? &&
    match me.pc
    case AtRo(ro, at) =>
      (ro.Retry? && at.RoReturn? && at.v != Failed) ||
      (ro.Fetch? && (at.RoAcquire? || at.RoSetRole? || at.RoExec?))
    case AtWork(w) => w.WriteEnter?
    case AtRw(_, at) => !at.RwUnlock?
    case _ => false
  }

  /** The statement has not been classified under txMu. */
  predicate Early(pc: PC) {
    (pc.AtCall? && (pc.call.Entry? || pc.call.CheckOpen? || pc.call.TokenLock?)) ||
    (pc.AtRo? && pc.ro.First?)
  }

  ghost predicate RetryOk(sh: Shared, me: Local) {
    && (Early(me.pc) ==> me.seen.None?)
    && (Pending(me) ==> me.seen == Some(sh.conn.committed))
  }

  ghost predicate RetryInv(s: State) {
    forall i :: 0 <= i < |s.procs| ==> RetryOk(s.sh, s.procs[i])
  }

  lemma RetryRo(sh: Shared, me: Local, c: Choice)
    requires Can(sh, me, c) && LocalOk(me) && RetryOk(sh, me) && me.pc.AtRo?
    ensures var t := ActRo(sh, me, c); RetryOk(sh, t.me)
  {
  }

  lemma RetryElsewhere(sh: Shared, me: Local, c: Choice)
    requires Can(sh, me, c) && LocalOk(me) && RetryOk(sh, me) && !me.pc.AtRo?
    ensures var t := Act(sh, me, c);
            RetryOk(sh, t.me) && (Pending(t.me) ==> !me.pc.AtRw? || !me.pc.rwAt.RwExec?)
  {
  }

  /** A step changes the committed database only if nobody else is waiting to execute on it. */
  lemma CommittedStays(s: State, pid: nat, c: Choice, j: nat)
    requires Inv(s) && Enabled(s, Run(pid, c)) && j < |s.procs| && j != pid && s.procs[j].held
    ensures Act(s.sh, s.procs[pid], c).sh.conn.committed == s.sh.conn.committed
  {
    FactsHold(s, pid);
    FactsHold(s, j);
    StepFramed(s.sh, s.procs[pid], c);
    if HasToken(s.procs[pid]) {
      Exclusive(s, Token, pid, j);
    }
  }

  lemma RetryNext(s: State, l: Label)
    requires Inv(s) && RetryInv(s) && Enabled(s, l)
    ensures RetryInv(Next(s, l))
  {
    var t := Next(s, l);
    if l.Run? {
      var me := s.procs[l.pid];
      FactsHold(s, l.pid);
      StepFramed(s.sh, me, l.c);
      if me.pc.AtRo? {
        RetryRo(s.sh, me, l.c);
      } else {
        RetryElsewhere(s.sh, me, l.c);
      }
      forall j | 0 <= j < |t.procs| ensures RetryOk(t.sh, t.procs[j]) {
        if j != l.pid && Pending(s.procs[j]) {
          CommittedStays(s, l.pid, l.c, j);
        }
      }
    } else {
      forall j | 0 <= j < |t.procs| ensures RetryOk(t.sh, t.procs[j]) {
        assert j < |s.procs| ==> t.procs[j] == s.procs[j];
      }
    }
  }
}
