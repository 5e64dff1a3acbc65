/**
 Role discipline: SQLite executes every statement under the role of the request that issued it,
 although classification puts the administrator's role on the same pooled connections.
 */
module Roles {
  import opened Frames
  import opened Gauges
  import opened History
  import opened Locks
  import opened Protocol
  import opened Sqlite

  /** Each event ran under the role of its request, and that role was allowed to run it. */
  ghost predicate Disciplined(t: Trace) {
    match t
    case Start => true
    case Then(p, e) =>
      && Disciplined(p)
      && match e
         case Wrote(_, stmt, cred, runAs) => runAs == cred.role && runAs in stmt.roles
         case Saw(_, stmt, _, cred, runAs) => runAs == cred.role && runAs in stmt.roles
         case Committed(_, cred, runAs) => runAs == cred.role != ReadOnly
         case RolledBack(_, cred, runAs, _) => runAs == cred.role != ReadOnly
         case Began(_, cred, _) => cred.role != ReadOnly
         case Used(_, _) => true
  }

  ghost predicate RoleOk(sh: Shared, me: Local) {
    && (me.pc.AtRw? && me.pc.rwAt.RwExec? ==> sh.conn.role == RwRole(me, me.pc.op))
    && (me.pc.AtRo? && me.pc.roAt.RoExec? ==>
          me.pc.roAt.c < |sh.ro| && sh.ro[me.pc.roAt.c].role == RoRole(me, me.pc.ro))
    && (OpenedUnpublished(me.pc) || EndedUncleared(me.pc) || me.pc.AtEnd? ==> me.q.role != ReadOnly)
    && (!me.kind.Client? ==> me.q.role == Admin)
  }

  ghost predicate RoleInv(s: State) {
    && Disciplined(s.sh.log.trace)
    && forall i :: 0 <= i < |s.procs| ==> RoleOk(s.sh, s.procs[i])
  }

  // ---- The goroutine that steps ----

  lemma RoleFetch(sh: Shared, me: Local, c: Choice)
    requires Can(sh, me, c) && Facts(sh, me) && RoleOk(sh, me) && Disciplined(sh.log.trace)
    requires me.pc.AtRo? && me.pc.roAt.RoExec?
    ensures var t := ActRo(sh, me, c); RoleOk(t.sh, t.me) && Disciplined(t.sh.log.trace)
  {
  }

  lemma RoleRo(sh: Shared, me: Local, c: Choice)
    requires Can(sh, me, c) && Facts(sh, me) && RoleOk(sh, me) && Disciplined(sh.log.trace)
    requires me.pc.AtRo? && !me.pc.roAt.RoExec?
    ensures var t := ActRo(sh, me, c); RoleOk(t.sh, t.me) && Disciplined(t.sh.log.trace)
  {
    hide Disciplined;
  }

  lemma RoleExec(sh: Shared, me: Local, c: Choice)
    requires Can(sh, me, c) && Facts(sh, me) && RoleOk(sh, me) && Disciplined(sh.log.trace)
    requires me.pc.AtRw? && me.pc.rwAt.RwExec?
    ensures var t := ActRw(sh, me, c); RoleOk(t.sh, t.me) && Disciplined(t.sh.log.trace)
  {
  }

  lemma RoleRw(sh: Shared, me: Local, c: Choice)
    requires Can(sh, me, c) && Facts(sh, me) && RoleOk(sh, me) && Disciplined(sh.log.trace)
    requires me.pc.AtRw? && !me.pc.rwAt.RwExec?
    ensures var t := ActRw(sh, me, c); RoleOk(t.sh, t.me) && Disciplined(t.sh.log.trace)
  {
    hide Disciplined;
  }

  lemma RolePublish(sh: Shared, me: Local, c: Choice)
    requires Can(sh, me, c) && Facts(sh, me) && RoleOk(sh, me) && Disciplined(sh.log.trace)
    requires me.pc == AtBegin(PubId)
    ensures var t := ActBegin(sh, me, c); RoleOk(t.sh, t.me) && Disciplined(t.sh.log.trace)
  {
  }

  lemma RoleBegin(sh: Shared, me: Local, c: Choice)
    requires Can(sh, me, c) && Facts(sh, me) && RoleOk(sh, me) && Disciplined(sh.log.trace)
    requires me.pc.AtBegin? && me.pc != AtBegin(PubId)
    ensures var t := ActBegin(sh, me, c); RoleOk(t.sh, t.me) && Disciplined(t.sh.log.trace)
  {
    hide Disciplined;
  }

  lemma RoleTx(sh: Shared, me: Local, c: Choice)
    requires Can(sh, me, c) && Facts(sh, me) && RoleOk(sh, me) && Disciplined(sh.log.trace)
    requires me.pc.AtTx?
    ensures var t := ActTx(sh, me); RoleOk(t.sh, t.me) && Disciplined(t.sh.log.trace)
  {
  }

  lemma RoleElsewhere(sh: Shared, me: Local, c: Choice)
    requires Can(sh, me, c) && Facts(sh, me) && RoleOk(sh, me) && Disciplined(sh.log.trace)
    requires me.pc.AtEnd? || me.pc.AtMon? || me.pc.AtWork? || me.pc.AtCall?
    ensures var t := Act(sh, me, c); RoleOk(t.sh, t.me) && Disciplined(t.sh.log.trace)
  {
    hide Disciplined;
    StepFramed(sh, me, c);
  }

  // ---- The others ----

  /** A step changes the role of no connection but the one it has to itself. */
  lemma OtherRoles(sh: Shared, me: Local, c: Choice, k: nat)
    requires Can(sh, me, c) && k < |sh.ro| && (me.pc.AtRo? && me.pc.roAt.RoSetRole? ==> me.pc.roAt.c != k)
    ensures k < |Act(sh, me, c).sh.ro| && Act(sh, me, c).sh.ro[k].role == sh.ro[k].role
  {
    StepFramed(sh, me, c);
  }

  lemma RoleRun(s: State, pid: nat, c: Choice)
    requires Inv(s) && RoleInv(s) && Enabled(s, Run(pid, c))
    ensures RoleInv(Next(s, Run(pid, c)))
  {
    var me := s.procs[pid];
    var t := Next(s, Run(pid, c));
    FactsHold(s, pid);
    StepFramed(s.sh, me, c);
    if me.pc.AtRo? {
      if me.pc.roAt.RoExec? { RoleFetch(s.sh, me, c); } else { RoleRo(s.sh, me, c); }
    } else if me.pc.AtRw? {
      if me.pc.rwAt.RwExec? { RoleExec(s.sh, me, c); } else { RoleRw(s.sh, me, c); }
    } else if me.pc.AtBegin? {
      if me.pc.begin.PubId? { RolePublish(s.sh, me, c); } else { RoleBegin(s.sh, me, c); }
    } else if me.pc.AtTx? {
      RoleTx(s.sh, me, c);
    } else {
      RoleElsewhere(s.sh, me, c);
    }
    forall j | 0 <= j < |t.procs| ensures RoleOk(t.sh, t.procs[j]) {
      var other := s.procs[j];
      if j != pid {
        if other.pc.AtRo? && other.pc.roAt.RoExec? {
          if me.pc.AtRo? && me.pc.roAt.RoSetRole? && me.pc.roAt.c == other.pc.roAt.c {
            Exclusive(s, Ro(me.pc.roAt.c), pid, j);
          }
          OtherRoles(s.sh, me, c, other.pc.roAt.c);
        } else if InRw(other.pc) && InRw(me.pc) {
          Exclusive(s, Rw, pid, j);
        }
      }
    }
  }

  lemma RoleNext(s: State, l: Label)
    requires Inv(s) && RoleInv(s) && Enabled(s, l)
    ensures RoleInv(Next(s, l))
  {
    if l.Run? {
      RoleRun(s, l.pid, l.c);
    } else if !l.Advance? {
      assert forall i :: 0 <= i < |s.procs| ==> Next(s, l).procs[i] == s.procs[i];
    }
  }

  /** No step of a read-only request changes the database, opens or ends a transaction, or clears
      txID. */
  lemma ReadOnlyStep(s: State, pid: nat, c: Choice)
    requires Inv(s) && RoleInv(s) && Enabled(s, Run(pid, c))
    requires s.procs[pid].q.role == ReadOnly && Lawful(s.procs[pid].q.stmt)
    ensures var t := Next(s, Run(pid, c));
            SameData(s.sh.conn, t.sh.conn) && t.sh.txID == s.sh.txID
  {
    var me := s.procs[pid];
    FactsHold(s, pid);
    StepFramed(s.sh, me, c);
    StepSteady(s.sh, me, c);
    if me.pc.AtRw? && me.pc.rwAt.RwExec? {
      ReadOnlyExec(s.sh, me, c);
    }
  }

  lemma ReadOnlyExec(sh: Shared, me: Local, c: Choice)
    requires Can(sh, me, c) && Facts(sh, me) && RoleOk(sh, me)
    requires me.q.role == ReadOnly && Lawful(me.q.stmt) && me.pc.AtRw? && me.pc.rwAt.RwExec?
    ensures SameData(sh.conn, ActRw(sh, me, c).sh.conn)
  {
  }
}
