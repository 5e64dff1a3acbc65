/**
 What the steps of the system do to one transaction: those of a call that names it, and those of
 everybody else.
 */
module BatchSteps {
  import opened Atomicity
  import opened Frames
  import opened Gauges
  import opened History
  import opened Lifecycle
  import opened Protocol
  import QueryText
  import opened Sqlite

  /** The statements executed in a transaction, reads and writes, in order. */
  ghost function StatementsOf(t: Trace, id: Name): seq<Stmt> {
    match t
    case Start => []
    case Then(p, Wrote(i, s, _, _)) => if i == id then StatementsOf(p, id) + [s] else StatementsOf(p, id)
    case Then(p, Saw(i, s, _, _, _)) => if i == id then StatementsOf(p, id) + [s] else StatementsOf(p, id)
    case Then(p, _) => StatementsOf(p, id)
  }

  /** The records of those executions. */
  ghost function ExecutionsOf(t: Trace, id: Name): seq<Event> {
    match t
    case Start => []
    case Then(p, e) => if (e.Wrote? || e.Saw?) && e.id == id then ExecutionsOf(p, id) + [e] else ExecutionsOf(p, id)
  }

  /** The statements of those records that are writes. */
  ghost function WritesIn(es: seq<Event>): seq<Stmt> {
    if es == [] then []
    else WritesIn(es[..|es| - 1]) + if es[|es| - 1].Wrote? then [es[|es| - 1].stmt] else []
  }

  predicate Executes(e: Event, id: Name) {
    (e.Wrote? || e.Saw?) && e.id == id
  }

  /** The records are executions of exactly these statements, in order. */
  ghost predicate RecordsOf(es: seq<Event>, id: Name, stmts: seq<Stmt>) {
    |es| == |stmts| && forall k :: 0 <= k < |es| ==> Executes(es[k], id) && es[k].stmt == stmts[k]
  }

  lemma WritesInMore(es: seq<Event>, e: Event)
    ensures WritesIn(es + [e]) == WritesIn(es) + if e.Wrote? then [e.stmt] else []
  {
    assert (es + [e])[..|es|] == es;
  }

  lemma RecordsMore(es: seq<Event>, id: Name, stmts: seq<Stmt>, e: Event)
    requires RecordsOf(es, id, stmts) && Executes(e, id)
    ensures RecordsOf(es + [e], id, stmts + [e.stmt])
  {
  }

  /** Execution k of a transaction is of its statement k, and its writes are exactly the executions that
      were writes. */
  lemma {:induction false} WritesAmong(t: Trace, id: Name)
    ensures RecordsOf(ExecutionsOf(t, id), id, StatementsOf(t, id))
    ensures WritesOf(t, id) == WritesIn(ExecutionsOf(t, id))
  {
    if t.Then? {
      WritesAmong(t.before, id);
      hide WritesIn, RecordsOf;
      if Executes(t.last, id) {
        WritesInMore(ExecutionsOf(t.before, id), t.last);
        RecordsMore(ExecutionsOf(t.before, id), id, StatementsOf(t.before, id), t.last);
      }
    } else {
      assert RecordsOf([], id, []);
    }
  }

  lemma {:induction false} FreshIsEmpty(t: Trace, id: Name)
    requires Orderly(t) && id != NONE && PhaseOf(t, id).Fresh?
    ensures StatementsOf(t, id) == [] && !CommittedIn(t, id)
  {
    if t.Then? {
      FreshIsEmpty(t.before, id);
    }
  }

  // ---- A call that names the transaction ----

  /** The statement of the call has taken effect. */
  predicate Executed(pc: PC) {
    match pc
    case AtRw(op, RwUnlock(v)) => !op.OpClassify? && v != Failed
    case AtEnd(_, _) => true
    case AtWork(w) => w.WriteCount? || w.ReadCount? || (w.WriteLeave? && w.ok)
    case AtTx(t) => (t.TouchOut? || t.OpUnlock?) && t.ok
    case AtCall(c) => c.Done? && c.ok
    case _ => false
  }

  /** Which texts lead where. */
  predicate FormOk(me: Local) {
    && me.kind.Client? && me.q.txID != NONE
    && (Executed(me.pc) ==> !me.q.form.BeginText?)
    && match me.pc
       case AtRw(op, _) =>
         (match op case OpCommit => me.q.form.CommitText? case OpRollback => me.q.form.RollbackText?
                   case OpBegin => false case _ => me.q.form.Ordinary?)
       case AtEnd(commit, _) => me.q.form == if commit then QueryText.CommitText else QueryText.RollbackText
       case AtWork(_) => me.q.form.Ordinary?
       case _ => true
  }

  /** What the call, in a transaction whose earlier statements are those in before, has done so far. */
  ghost predicate CallView(t: Trace, me: Local, before: seq<Stmt>) {
    && (Executed(me.pc) && me.q.form.CommitText? ==> CommittedIn(t, me.q.txID))
    && (PhaseOf(t, me.q.txID).Active? ==>
          if Executed(me.pc) then me.q.form.Ordinary? && StatementsOf(t, me.q.txID) == before + [me.q.stmt]
          else StatementsOf(t, me.q.txID) == before)
  }

  /** How far a step commits the transaction. */
  ghost predicate CommitsBy(t: Trace, t': Trace, me: Local, me': Local, before: seq<Stmt>) {
    && me'.q == me.q && (Executed(me.pc) ==> Executed(me'.pc))
    && (CommittedIn(t, me.q.txID) ==> CommittedIn(t', me.q.txID))
    && (CommittedIn(t', me.q.txID) && !CommittedIn(t, me.q.txID) ==>
          me.q.form.CommitText? && PhaseOf(t, me.q.txID).Active? && Executed(me'.pc) &&
          StatementsOf(t', me.q.txID) == before)
    && (CommittedIn(t, me.q.txID) ==> StatementsOf(t', me.q.txID) == StatementsOf(t, me.q.txID))
    && (PhaseOf(t', me.q.txID).Active? ==> PhaseOf(t, me.q.txID).Active?)
  }

  lemma OwnExec(sh: Shared, me: Local, c: Choice, before: seq<Stmt>)
    requires Can(sh, me, c) && Facts(sh, me) && LogOk(sh) && LiveFacts(sh, me) && FormOk(me)
    requires me.pc.AtRw? && me.pc.rwAt.RwExec? && CallView(sh.log.trace, me, before)
    ensures var t := ActRw(sh, me, c);
            FormOk(t.me) && CallView(t.sh.log.trace, t.me, before) &&
            CommitsBy(sh.log.trace, t.sh.log.trace, me, t.me, before)
  {
    EndsOnce(sh.log.trace, me.q.txID);
  }

  lemma OwnTouch(sh: Shared, me: Local, before: seq<Stmt>)
    requires Facts(sh, me) && FormOk(me) && Touches(me.pc) && CallView(sh.log.trace, me, before)
    ensures var t := ActTx(sh, me);
            FormOk(t.me) && CallView(t.sh.log.trace, t.me, before) &&
            CommitsBy(sh.log.trace, t.sh.log.trace, me, t.me, before)
  {
    var t := ActTx(sh, me);
    assert FormOk(t.me) && t.me.q == me.q && (Executed(t.me.pc) <==> Executed(me.pc));
    TouchedView(sh.log.trace, t.sh.log.trace, me.q.txID);
    hide StatementsOf, CommittedIn, PhaseOf;
  }

  lemma TouchedView(t: Trace, t': Trace, id: Name)
    requires t' == t || (t'.Then? && t'.before == t && t'.last.Used?)
    ensures StatementsOf(t', id) == StatementsOf(t, id) && PhaseOf(t', id) == PhaseOf(t, id)
    ensures CommittedIn(t', id) <==> CommittedIn(t, id)
  {
  }

  lemma OwnElsewhere(sh: Shared, me: Local, c: Choice, before: seq<Stmt>)
    requires Can(sh, me, c) && Facts(sh, me) && FormOk(me) && !Records(me.pc)
    requires CallView(sh.log.trace, me, before)
    ensures var t := Act(sh, me, c);
            FormOk(t.me) && CallView(t.sh.log.trace, t.me, before) &&
            CommitsBy(sh.log.trace, t.sh.log.trace, me, t.me, before)
  {
    StepFramed(sh, me, c);
    hide StatementsOf, CommittedIn, PhaseOf;
    assert Act(sh, me, c).sh.log.trace == sh.log.trace;
  }

  lemma OwnStep(sh: Shared, me: Local, c: Choice, before: seq<Stmt>)
    requires Can(sh, me, c) && Facts(sh, me) && LogOk(sh) && LiveFacts(sh, me) && FormOk(me)
    requires CallView(sh.log.trace, me, before)
    ensures var t := Act(sh, me, c);
            FormOk(t.me) && CallView(t.sh.log.trace, t.me, before) &&
            CommitsBy(sh.log.trace, t.sh.log.trace, me, t.me, before)
  {
    if me.pc.AtRw? && me.pc.rwAt.RwExec? {
      OwnExec(sh, me, c, before);
    } else if Touches(me.pc) {
      OwnTouch(sh, me, before);
    } else {
      OwnElsewhere(sh, me, c, before);
    }
  }

  // ---- Everybody else ----

  /** Nothing that matters to the transaction has been added. */
  ghost predicate Untouched(t: Trace, t': Trace, id: Name) {
    && StatementsOf(t', id) == StatementsOf(t, id)
    && (CommittedIn(t', id) <==> CommittedIn(t, id))
    && (PhaseOf(t', id).Active? ==> PhaseOf(t, id).Active?)
  }

  lemma OtherStep(sh: Shared, me: Local, c: Choice, id: Name)
    requires Can(sh, me, c) && Facts(sh, me) && id != NONE && id in sh.log.issued
    requires me.kind.Client? ==> me.q.txID != id
    ensures Untouched(sh.log.trace, Act(sh, me, c).sh.log.trace, id)
  {
    StepGrows(sh, me, c);
    if Records(me.pc) {
      match me.pc
      case AtRo(_, _) => OtherFetch(sh, me, c, id);
      case AtRw(_, _) => OtherExec(sh, me, c, id);
      case AtBegin(_) =>
      case AtTx(_) =>
    } else {
      StepFramed(sh, me, c);
    }
  }

  lemma OtherFetch(sh: Shared, me: Local, c: Choice, id: Name)
    requires Can(sh, me, c) && id != NONE && me.pc.AtRo?
    ensures Untouched(sh.log.trace, ActRo(sh, me, c).sh.log.trace, id)
  {
    var t, t' := sh.log.trace, ActRo(sh, me, c).sh.log.trace;
    assert t' == t || (t'.Then? && t'.before == t && t'.last.Saw? && t'.last.id == NONE);
    hide StatementsOf, CommittedIn, PhaseOf, Untouched;
    if t' != t {
      ForeignEvent(t, t'.last, id);
    } else {
      SameTrace(t, id);
    }
  }

  lemma OtherExec(sh: Shared, me: Local, c: Choice, id: Name)
    requires Can(sh, me, c) && Facts(sh, me) && id != NONE && me.pc.AtRw?
    requires me.kind.Client? ==> me.q.txID != id
    ensures Untouched(sh.log.trace, ActRw(sh, me, c).sh.log.trace, id)
  {
    var t, t' := sh.log.trace, ActRw(sh, me, c).sh.log.trace;
    assert t' == t || (t'.Then? && t'.before == t && t' == Then(t, EventFor(sh, me, me.pc.op)));
    hide StatementsOf, CommittedIn, PhaseOf, Untouched;
    if t' != t {
      ForeignEvent(t, EventFor(sh, me, me.pc.op), id);
    } else {
      SameTrace(t, id);
    }
  }

  lemma SameTrace(t: Trace, id: Name)
    ensures Untouched(t, t, id)
  {
  }

  lemma ForeignEvent(t: Trace, e: Event, id: Name)
    requires e.Wrote? || e.Saw? || e.Committed? || e.RolledBack?
    requires e.id != id || e.RolledBack?
    ensures Untouched(t, Then(t, e), id)
  {
  }
}
