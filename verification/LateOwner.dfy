/**
 What the ownership theorem needs its assumption for: the owner store of a BEGIN whose transaction is
 already over lands on the next transaction.
 */
module LateOwner {
  import opened Calls
  import opened Coordinator
  import opened Draining
  import opened History
  import opened Locks
  import opened Operations
  import opened Protocol
  import opened QueryText
  import opened Scenarios
  import opened Solo
  import opened Sqlite

  const SECOND: Name := 2
  const OTHER: Name := 2

  function SecondBegin(): Query {
    Query(NONE, OTHER, BeginText, Stmt(db => db, Plain, {Admin}, false), Admin)
  }

  /** COMMIT of the second transaction by the owner of the first. */
  function ForeignCommit(): Query {
    Query(SECOND, OWNER, CommitText, Stmt(db => db, Plain, {Admin}, false), Admin)
  }

  function Fair(): Responses {
    var env := Env(true, true, Fine, 0, SECOND);
    Responses(env, env, env)
  }

  /** The second transaction is open, and stored as the other principal's. */
  ghost predicate SecondOpen(sh: Shared) {
    && sh.txID == SECOND && sh.txMu && sh.conn.inTx && !sh.txOpMu && !sh.writeMu && !sh.stopped
    && OwnerOf(sh.log.trace, SECOND) == OTHER
    && SECOND in sh.log.known && !sh.log.leaked
    && ReadersFree(sh, Fair())
  }

  lemma SecondBegins(t: State)
    requires Overtaken(t)
    ensures var d := QueryDone(Arrived(t.sh, SecondBegin()), Caller(SecondBegin()), Fair());
            SecondOpen(d.sh) && d.me.q == SecondBegin()
  {
    var sh, me := Arrived(t.sh, SecondBegin()), Caller(SecondBegin());
    var queued := sh.(stats := sh.stats.(queuedBegins := sh.stats.queuedBegins + 1));
    assert BeginOk(queued, me, Fair().exec);
    assert BeginDone(sh, me, Fair().exec).sh ==
           BeginStored(RwAfter(queued.(txMu := true), me.(pc := AtBegin(BeginLock)), OpBegin, Fair().exec),
                       me.(pc := AtBegin(BeginLock)), SECOND);
  }

  /** The late store. */
  ghost function Relabelled(sh: Shared): Shared {
    sh.(txOwner := OWNER)
  }

  lemma ForeignCommits(sh: Shared)
    requires SecondOpen(sh) && sh.txOwner == OWNER
    ensures var d := QueryDone(Arrived(sh, ForeignCommit()), Caller(ForeignCommit()), Fair());
            && d.me.q == ForeignCommit() && !d.sh.log.leaked
            && d.sh.log.trace.Then? && d.sh.log.trace.last == Committed(SECOND, Cred(Client, Admin, OWNER), Admin)
            && OwnerOf(d.sh.log.trace, SECOND) == OTHER
  {
    var sh', me := Arrived(sh, ForeignCommit()), Caller(ForeignCommit());
    var entered := TxEntered(sh', me);
    assert Accepts(sh', me.q);
    assert EndOk(entered, Dispatch(me), true, Fair().exec);
    var after := RwAfter(entered, Dispatch(me), OpCommit, Fair().exec);
    assert after.log.trace == Then(entered.log.trace, Committed(SECOND, Cred(Client, Admin, OWNER), Admin));
    var d := TypedDone(entered, Dispatch(me), Fair());
    assert d.sh == EndStored(after, Dispatch(me), true);
    assert d.sh.log.trace == after.log.trace && d.sh.txID == NONE;
    assert TypedOk(d);
  }

  /** A transaction committed by a principal that did not begin it. */
  ghost predicate CommittedByOther(t: State) {
    var e := t.sh.log.trace;
    && e.Then? && e.last.Committed? && e.last.cred.kind.Client?
    && e.last.cred.owner != NONE && e.last.cred.owner != OwnerOf(e, e.last.id)
  }

  ghost predicate Stalled(b: State) {
    && |b.procs| == 3 && b.procs[1] == Caller(BeginCall()).(pc := AtBegin(PubOwner), newID := UUID)
    && Routed(b) && SecondOpen(b.sh)
  }

  /** The late store, then the commit. */
  lemma StoresLate(b: State) returns (ls: seq<Label>, t: State)
    requires Stalled(b)
    ensures Leads(b, ls, t) && Routed(t) && !t.sh.log.leaked && CommittedByOther(t)
  {
    hide QueryDone, Leads;
    assert Enabled(b, Run(1, GOOD));
    var c := Next(b, Run(1, GOOD));
    assert c.sh == Relabelled(b.sh);
    LeadsOne(b, Run(1, GOOD));
    ForeignCommits(c.sh);
    ls := QueryIsRun(c, ForeignCommit(), Fair());
    var e := QueryDone(Arrived(c.sh, ForeignCommit()), Caller(ForeignCommit()), Fair());
    t := State(e.sh, c.procs + [e.me]);
    LeadsCompose(b, [Run(1, GOOD)], c, ls, t);
    ls := [Run(1, GOOD)] + ls;
  }

  /** Without any leaked ID, a principal commits a transaction that another one began: the BEGIN of its
      own transaction was overtaken by the idle monitor, and stored its owner late. */
  lemma LateOwnerStore(s: State) returns (ls: seq<Label>, t: State)
    requires Initial(s)
    ensures Leads(s, ls, t) && Routed(t) && !t.sh.log.leaked && CommittedByOther(t)
  {
    var a: State;
    ls, a := PrematureRollback(s);
    hide QueryDone, Leads;
    SecondBegins(a);
    var ms := QueryIsRun(a, SecondBegin(), Fair());
    var d := QueryDone(Arrived(a.sh, SecondBegin()), Caller(SecondBegin()), Fair());
    var b := State(d.sh, a.procs + [d.me]);
    LeadsCompose(s, ls, a, ms, b);
    var ns;
    ns, t := StoresLate(b);
    LeadsCompose(s, ls + ms, b, ns, t);
    ls := ls + ms + ns;
  }
}
