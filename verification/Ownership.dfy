/**
 Who may use a transaction.  A BEGIN stores its ID before its owner, so two things can go wrong: a
 request uses the ID before the owner is stored (leaked), or the owner is stored late, onto another
 transaction.  Where neither happens, owners are respected; the step at which the second happens is
 told exactly.
 */
module Ownership {
  import opened Frames
  import opened Gauges
  import opened History
  import opened Lifecycle
  import opened Locks
  import opened Protocol

  predicate ByClient(e: Event) {
    !e.Began? && !e.Used? && e.cred.kind.Client?
  }

  /** Every statement that a client ran in a transaction, including its COMMIT or ROLLBACK, came
      from the principal that began it; an empty principal is not checked. */
  ghost predicate OwnersProper(t: Trace) {
    match t
    case Start => true
    case Then(p, e) =>
      && OwnersProper(p)
      && (ByClient(e) && e.id != NONE ==> e.cred.owner == NONE || e.cred.owner == OwnerOf(p, e.id))
  }

  // ---- The IDs that BEGINs have made ----

  /** The BEGIN has made an ID and not returned. */
  predicate Returning(pc: PC) {
    pc == AtBegin(PubCount) || pc == AtBegin(BeginLeave(true))
  }

  ghost predicate IdsLocal(log: Log, me: Local) {
    && (me.newID != NONE ==> me.newID in log.issued)
    && (InPublication(me.pc) || Returning(me.pc) ==> me.newID != NONE)
    && (InPublication(me.pc) ==> me.newID !in log.known && OwnerOf(log.trace, me.newID) == me.q.owner)
  }

  ghost predicate Distinct(procs: seq<Local>) {
    forall i, j :: 0 <= i < j < |procs| && procs[i].newID != NONE ==> procs[i].newID != procs[j].newID
  }

  ghost predicate IdsInv(s: State) {
    && NONE !in s.sh.log.issued && s.sh.log.known <= s.sh.log.issued
    && Distinct(s.procs)
    && forall i :: 0 <= i < |s.procs| ==> IdsLocal(s.sh.log, s.procs[i])
  }

  /** What a step does to the sets of IDs and to the ID of its goroutine. */
  ghost predicate IdsKept(sh: Shared, me: Local, c: Choice, t: Turn) {
    && (if me.pc == AtBegin(PubId) then
          t.me.newID == c.uuid && c.uuid != NONE && c.uuid !in sh.log.issued && c.uuid !in sh.log.named &&
          t.sh.log.issued == sh.log.issued + {c.uuid}
        else t.me.newID == me.newID && t.sh.log.issued == sh.log.issued)
    && (t.sh.log.known == sh.log.known ||
        (me.pc == AtBegin(BeginLeave(true)) && t.sh.log.known == sh.log.known + {me.newID}))
    && (InPublication(t.me.pc) ==> me.pc == AtBegin(PubId) || InPublication(me.pc))
    && (Returning(t.me.pc) ==> InPublication(me.pc) || Returning(me.pc))
  }

  lemma IdsStep(sh: Shared, me: Local, c: Choice)
    requires Can(sh, me, c)
    ensures IdsKept(sh, me, c, Act(sh, me, c))
  {
    StepFramed(sh, me, c);
    if me.pc.AtBegin? {
      assert Act(sh, me, c) == ActBegin(sh, me, c);
    } else {
      StepLeaves(sh, me, c);
    }
  }

  lemma StepLeaves(sh: Shared, me: Local, c: Choice)
    requires Can(sh, me, c) && !me.pc.AtBegin?
    ensures var t := Act(sh, me, c).me; t.newID == me.newID && !InPublication(t.pc) && !Returning(t.pc)
  {
  }

  /** A step changes the owner of no ID that is issued already. */
  lemma OwnersStep(sh: Shared, me: Local, c: Choice)
    requires Can(sh, me, c)
    ensures forall id | id in sh.log.issued :: OwnerOf(Act(sh, me, c).sh.log.trace, id) == OwnerOf(sh.log.trace, id)
    ensures me.pc == AtBegin(PubId) ==> OwnerOf(Act(sh, me, c).sh.log.trace, c.uuid) == me.q.owner
  {
    StepGrows(sh, me, c);
    if me.pc == AtBegin(PubId) {
      assert Act(sh, me, c) == ActBegin(sh, me, c);
    }
  }

  lemma IdsRun(s: State, pid: nat, c: Choice)
    requires Inv(s) && IdsInv(s) && Enabled(s, Run(pid, c))
    ensures IdsInv(Next(s, Run(pid, c)))
  {
    var me := s.procs[pid];
    var t := Next(s, Run(pid, c));
    FactsHold(s, pid);
    StepLocalOk(s.sh, me, c);
    IdsStep(s.sh, me, c);
    OwnersStep(s.sh, me, c);
    hide Act, OwnerOf, Inv, LocalOk, Facts;
    forall i, j | 0 <= i < j < |t.procs| && t.procs[i].newID != NONE ensures t.procs[i].newID != t.procs[j].newID {
      assert IdsLocal(s.sh.log, s.procs[i]) && IdsLocal(s.sh.log, s.procs[j]);
    }
    forall i | 0 <= i < |t.procs| ensures IdsLocal(t.sh.log, t.procs[i]) {
      assert IdsLocal(s.sh.log, s.procs[i]) && IdsLocal(s.sh.log, me);
      if i != pid && InPublication(s.procs[i].pc) {
        assert s.procs[i].newID != me.newID;
      }
    }
  }

  lemma IdsNext(s: State, l: Label)
    requires Inv(s) && IdsInv(s) && Enabled(s, l)
    ensures IdsInv(Next(s, l))
  {
    if l.Run? {
      IdsRun(s, l.pid, l.c);
    } else {
      forall i | 0 <= i < |s.procs| ensures IdsLocal(Next(s, l).sh.log, Next(s, l).procs[i]) {
        assert IdsLocal(s.sh.log, s.procs[i]);
      }
    }
  }

  // ---- The owner store ----

  /** If the label is the owner store of a BEGIN, it hits no open transaction, the BEGIN's own, or one of
      the same principal. */
  ghost predicate Lands(s: State, l: Label) {
    l.Run? && l.pid < |s.procs| && s.procs[l.pid].pc == AtBegin(PubOwner) ==>
      s.sh.txID == NONE || s.sh.txID == s.procs[l.pid].newID ||
      OwnerOf(s.sh.log.trace, s.sh.txID) == s.procs[l.pid].q.owner
  }

  /** Exactly then it leaves txOwner the owner of the open transaction. */
  lemma OwnerStore(s: State, pid: nat, c: Choice)
    requires IdsInv(s) && Enabled(s, Run(pid, c)) && s.procs[pid].pc == AtBegin(PubOwner) && s.sh.txID != NONE
    ensures var t := Next(s, Run(pid, c)).sh;
            && t.txID == s.sh.txID
            && (t.txOwner == OwnerOf(t.log.trace, t.txID) <==> Lands(s, Run(pid, c)))
  {
    var me := s.procs[pid];
    assert IdsLocal(s.sh.log, me);
    assert Act(s.sh, me, c) == ActBegin(s.sh, me, c);
    assert Next(s, Run(pid, c)).sh == s.sh.(txOwner := me.q.owner);
  }

  /** In the run, every owner store lands where it belongs. */
  ghost predicate OwnersLand(s: State, ls: seq<Label>)
    decreases |ls|
  {
    ls == [] || (Enabled(s, ls[0]) && Lands(s, ls[0]) && OwnersLand(Next(s, ls[0]), ls[1..]))
  }

  // ---- The invariant ----

  /** Requests name only IDs that have been returned. */
  ghost predicate Discreet(log: Log, me: Local) {
    me.kind.Client? ==> me.q.txID in log.named && (me.q.txID in log.issued ==> me.q.txID in log.known)
  }

  /** The BEGIN of this transaction has not stored its owner. */
  ghost predicate BeingLabelled(s: State, id: Name) {
    exists i :: 0 <= i < |s.procs| && s.procs[i].pc == AtBegin(PubOwner) && s.procs[i].newID == id
  }

  /** txOwner is the owner of the open transaction, unless its BEGIN is yet to store it. */
  ghost predicate Labelled(s: State) {
    s.sh.txID != NONE ==>
      s.sh.txOwner == OwnerOf(s.sh.log.trace, s.sh.txID) || BeingLabelled(s, s.sh.txID)
  }

  /** Past the check, the request has the right to use the transaction. */
  ghost predicate Entitled(t: Trace, me: Local) {
    Validated(me) && me.kind.Client? && me.pc != AtTx(CheckOwner) ==>
      me.q.owner == NONE || me.q.owner == OwnerOf(t, me.q.txID)
  }

  ghost predicate OwnInv(s: State) {
    && IdsInv(s) && Labelled(s) && OwnersProper(s.sh.log.trace)
    && (forall i :: 0 <= i < |s.procs| ==> Discreet(s.sh.log, s.procs[i]))
    && (forall i :: 0 <= i < |s.procs| ==> Entitled(s.sh.log.trace, s.procs[i]))
  }

  /** Where txID or txOwner change. */
  lemma LabelFramed(sh: Shared, me: Local, c: Choice)
    requires Can(sh, me, c) && Facts(sh, me)
    ensures var t := Act(sh, me, c).sh;
            || (t.txID == sh.txID && t.txOwner == sh.txOwner && me.pc != AtBegin(PubOwner))
            || (me.pc == AtBegin(PubOwner) && t == sh.(txOwner := me.q.owner))
            || (me.pc == AtBegin(PubId) && t.txID == c.uuid && Act(sh, me, c).me.pc == AtBegin(PubOwner))
            || t.txID == NONE
  {
    StepFramed(sh, me, c);
    StepSteady(sh, me, c);
    if me.pc.AtBegin? {
      assert Act(sh, me, c) == ActBegin(sh, me, c);
    } else if me.pc.AtEnd? {
      assert Act(sh, me, c) == ActEnd(sh, me);
    }
  }

  lemma LabelledRun(s: State, pid: nat, c: Choice)
    requires Inv(s) && LogOk(s.sh) && IdsInv(s) && Labelled(s) && Enabled(s, Run(pid, c)) && Lands(s, Run(pid, c))
    ensures Labelled(Next(s, Run(pid, c)))
  {
    var me := s.procs[pid];
    var t := Next(s, Run(pid, c));
    FactsHold(s, pid);
    LabelFramed(s.sh, me, c);
    IdsStep(s.sh, me, c);
    OwnersStep(s.sh, me, c);
    assert IdsLocal(s.sh.log, me);
    if me.pc == AtBegin(PubOwner) && s.sh.txID != NONE {
      OwnerStore(s, pid, c);
    }
    hide Act, OwnerOf, Inv, Facts;
    if me.pc == AtBegin(PubId) {
      assert t.procs[pid].newID == c.uuid;
    } else if t.sh.txID != NONE && me.pc != AtBegin(PubOwner) && BeingLabelled(s, s.sh.txID) {
      var i :| 0 <= i < |s.procs| && s.procs[i].pc == AtBegin(PubOwner) && s.procs[i].newID == s.sh.txID;
      assert t.procs[i] == s.procs[i];
    }
  }

  /** A request that has just passed the check of the owner. */
  lemma CheckEntitles(s: State, pid: nat, c: Choice)
    requires Inv(s) && LogOk(s.sh) && IdsInv(s) && Labelled(s) && Enabled(s, Run(pid, c))
    requires s.procs[pid].pc == AtTx(CheckOwner) && Discreet(s.sh.log, s.procs[pid])
    ensures Entitled(s.sh.log.trace, Act(s.sh, s.procs[pid], c).me)
  {
    var me := s.procs[pid];
    FactsHold(s, pid);
    assert Act(s.sh, me, c) == ActTx(s.sh, me);
    forall i | 0 <= i < |s.procs| && s.procs[i].pc == AtBegin(PubOwner)
      ensures s.procs[i].newID != s.sh.txID
    {
      assert IdsLocal(s.sh.log, s.procs[i]);
    }
  }

  /** Validation and entitlement come from the check and from nowhere else. */
  lemma EntitledStep(sh: Shared, me: Local, c: Choice)
    requires Can(sh, me, c) && Facts(sh, me)
    ensures var t := Act(sh, me, c).me;
            Validated(t) && t.kind.Client? && t.pc != AtTx(CheckOwner) ==>
              me.pc == AtTx(CheckOwner) || (Validated(me) && me.kind.Client? && t.q == me.q)
  {
    StepLocalOk(sh, me, c);
    if me.pc.AtTx? {
      assert Act(sh, me, c) == ActTx(sh, me);
    } else if me.pc.AtRw? {
      assert Act(sh, me, c) == ActRw(sh, me, c);
    } else if me.pc.AtMon? {
      assert Act(sh, me, c) == ActMon(sh, me);
    } else {
      EntitledElsewhere(sh, me, c);
    }
  }

  lemma EntitledElsewhere(sh: Shared, me: Local, c: Choice)
    requires Can(sh, me, c) && Facts(sh, me) && !me.pc.AtTx? && !me.pc.AtRw? && !me.pc.AtMon?
    ensures var t := Act(sh, me, c).me; Validated(t) && t.kind.Client? ==> Validated(me) && t.q == me.q
  {
  }

  /** What a step records on behalf of a client in a transaction. */
  ghost predicate Recorded(sh: Shared, me: Local, t: Trace) {
    t == sh.log.trace ||
    (&& t.Then? && t.before == sh.log.trace
     && (ByClient(t.last) && t.last.id != NONE ==>
           && me.kind.Client? && t.last.id == me.q.txID && t.last.cred.owner == me.q.owner
           && Validated(me) && me.pc != AtTx(CheckOwner)))
  }

  lemma RwRecords(sh: Shared, me: Local, c: Choice)
    requires Can(sh, me, c) && Facts(sh, me) && me.pc.AtRw? && me.pc.rwAt.RwExec?
    ensures Recorded(sh, me, ActRw(sh, me, c).sh.log.trace)
  {
  }

  lemma RoRecords(sh: Shared, me: Local, c: Choice)
    requires Can(sh, me, c) && me.pc.AtRo? && me.pc.roAt.RoExec?
    ensures Recorded(sh, me, ActRo(sh, me, c).sh.log.trace)
  {
  }

  lemma EventStep(sh: Shared, me: Local, c: Choice)
    requires Can(sh, me, c) && Facts(sh, me)
    ensures Recorded(sh, me, Act(sh, me, c).sh.log.trace)
  {
    StepGrows(sh, me, c);
    if !Records(me.pc) {
      StepFramed(sh, me, c);
    } else {
      match me.pc
      case AtRo(_, _) => RoRecords(sh, me, c);
      case AtRw(_, _) => RwRecords(sh, me, c);
      case AtBegin(_) => assert Act(sh, me, c) == ActBegin(sh, me, c);
      case AtTx(_) => assert Act(sh, me, c) == ActTx(sh, me);
    }
  }

  lemma DiscreetRun(s: State, pid: nat, c: Choice, i: nat)
    requires Inv(s) && OwnInv(s) && Enabled(s, Run(pid, c)) && i < |s.procs|
    ensures Discreet(Next(s, Run(pid, c)).sh.log, Next(s, Run(pid, c)).procs[i])
  {
    var me := s.procs[pid];
    FactsHold(s, pid);
    StepLocalOk(s.sh, me, c);
    StepFramed(s.sh, me, c);
    IdsStep(s.sh, me, c);
    assert Discreet(s.sh.log, s.procs[i]);
    hide Act, Facts, Inv, LocalOk, Framed;
  }

  lemma EntitledRun(s: State, pid: nat, c: Choice, i: nat)
    requires Inv(s) && LogOk(s.sh) && OwnInv(s) && Enabled(s, Run(pid, c)) && i < |s.procs|
    ensures Entitled(Next(s, Run(pid, c)).sh.log.trace, Next(s, Run(pid, c)).procs[i])
  {
    var me := s.procs[pid];
    var t := Next(s, Run(pid, c));
    FactsHold(s, pid);
    FactsHold(s, i);
    EntitledStep(s.sh, me, c);
    OwnersStep(s.sh, me, c);
    assert Entitled(s.sh.log.trace, s.procs[i]) && Discreet(s.sh.log, me);
    if me.pc == AtTx(CheckOwner) {
      CheckEntitles(s, pid, c);
      StepLocalOk(s.sh, me, c);
    }
    hide Act, OwnerOf, Inv, LocalOk;
  }

  lemma OwnRun(s: State, pid: nat, c: Choice)
    requires Inv(s) && LogOk(s.sh) && OwnInv(s) && Enabled(s, Run(pid, c)) && Lands(s, Run(pid, c))
    ensures OwnInv(Next(s, Run(pid, c)))
  {
    var t := Next(s, Run(pid, c));
    IdsRun(s, pid, c);
    LabelledRun(s, pid, c);
    FactsHold(s, pid);
    EventStep(s.sh, s.procs[pid], c);
    assert Entitled(s.sh.log.trace, s.procs[pid]);
    forall i | 0 <= i < |t.procs| ensures Discreet(t.sh.log, t.procs[i]) && Entitled(t.sh.log.trace, t.procs[i]) {
      DiscreetRun(s, pid, c, i);
      EntitledRun(s, pid, c, i);
    }
    hide Act, Inv, IdsInv, Labelled, Discreet, Facts, LogOk, Lands;
  }

  lemma OwnNext(s: State, l: Label)
    requires Inv(s) && LogOk(s.sh) && OwnInv(s) && Enabled(s, l) && Lands(s, l) && !Next(s, l).sh.log.leaked
    ensures OwnInv(Next(s, l))
  {
    if l.Run? {
      OwnRun(s, l.pid, l.c);
    } else {
      OwnAppended(s, l);
    }
  }

  lemma OwnAppended(s: State, l: Label)
    requires Inv(s) && LogOk(s.sh) && OwnInv(s) && Enabled(s, l) && !l.Run? && !Next(s, l).sh.log.leaked
    ensures OwnInv(Next(s, l))
  {
    var t := Next(s, l);
    IdsNext(s, l);
    if s.sh.txID != NONE && BeingLabelled(s, s.sh.txID) {
      var i :| 0 <= i < |s.procs| && s.procs[i].pc == AtBegin(PubOwner) && s.procs[i].newID == s.sh.txID;
      assert t.procs[i] == s.procs[i];
    }
    hide OwnerOf, Inv, LogOk, IdsInv, OwnersProper;
    forall i | 0 <= i < |t.procs| ensures Discreet(t.sh.log, t.procs[i]) && Entitled(t.sh.log.trace, t.procs[i]) {
      assert i < |s.procs| ==>
        t.procs[i] == s.procs[i] && Discreet(s.sh.log, s.procs[i]) && Entitled(s.sh.log.trace, s.procs[i]);
    }
  }
}
