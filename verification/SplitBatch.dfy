/**
 Why the batch theorem asks for routing: a batch that contains a bare END is committed in part, although
 its response shows an error and the schedule has no block of it.
 */
module SplitBatch {
  import opened Atomicity
  import opened Batch
  import opened Calls
  import opened Coordinator
  import opened Draining
  import opened History
  import opened Locks
  import opened Operations
  import opened Protocol
  import opened QueryText
  import opened RqliteServer
  import opened Sqlite

  const ID: Name := 1

  /** Everything cooperates, and a classification finds v. */
  function Finding(v: Verdict): Responses {
    var env := Env(true, true, v, 0, ID);
    Responses(env, env, env)
  }

  /** A write, a bare END, and a statement whose parameters cannot be converted. */
  function SplitJob(insert: Stmt, owner: Name): Job {
    Job([Good(Ordinary, insert), Good(Ordinary, CommitStmt()), Bad], owner, Admin)
  }

  predicate Inserts(insert: Stmt) {
    insert.control.Plain? && insert.changes && Admin in insert.roles
  }

  /** A query of the batch has been answered or refused. */
  ghost function Called(sh: Shared, q: Query, v: Verdict): Turn
    requires |sh.ro| > 0 && ReadersFree(Arrived(sh, q), Finding(v))
  {
    QueryDone(Arrived(sh, q), Caller(q), Finding(v))
  }

  /** The batch's transaction as the server has it; nothing is in the schedule. */
  ghost predicate Holding(sh: Shared, owner: Name) {
    && sh.txID == ID && sh.txOwner == owner && !sh.txOpMu && !sh.writeMu && !sh.stopped
    && |sh.ro| > 0 && (forall k :: 0 <= k < |sh.ro| ==> !sh.ro[k].busy)
    && Serial(sh.log.trace) == []
  }

  /** Only a COMMIT and a standalone write make a block. */
  lemma NoBlock(t: Trace)
    requires t.Then? && (t.last.Used? || t.last.Saw? || (t.last.Wrote? && t.last.id != NONE))
    ensures Serial(t) == Serial(t.before)
  {
  }

  lemma BeginHolds(sh: Shared, job: Job)
    requires !sh.txMu && !sh.txOpMu && !sh.writeMu && !sh.stopped && !sh.conn.inTx && sh.log.trace == Start
    requires |sh.ro| > 0 && (forall k :: 0 <= k < |sh.ro| ==> !sh.ro[k].busy) && job.role == Admin
    ensures var t := Called(sh, Batch.BeginCall(job), AsWrite);
            && Holding(t.sh, job.owner) && t.sh.conn.inTx
            && t.sh.conn.working == t.sh.conn.committed == sh.conn.committed
            && t.me.pc == AtCall(Done(true)) && t.me.newID == ID
  {
  }

  lemma InsertWorks(sh: Shared, owner: Name, insert: Stmt)
    requires Holding(sh, owner) && sh.conn.inTx && Inserts(insert)
    ensures var t := Called(sh, Query(ID, owner, Ordinary, insert, Admin), AsWrite);
            && Holding(t.sh, owner) && t.sh.conn.inTx && t.sh.conn.working == Effect(insert, sh.conn.working)
            && t.me.pc == AtCall(Done(true))
  {
    var t := Called(sh, Query(ID, owner, Ordinary, insert, Admin), AsWrite).sh.log.trace;
    assert t.before.last.Wrote? && t.before.before.before == sh.log.trace;
    NoBlock(t.before.before);
    NoBlock(t.before);
  }

  lemma BareEndWorks(sh: Shared, owner: Name)
    requires Holding(sh, owner) && sh.conn.inTx
    ensures var t := Called(sh, Query(ID, owner, Ordinary, CommitStmt(), Admin), AsRead);
            && Holding(t.sh, owner) && !t.sh.conn.inTx && t.sh.conn.committed == sh.conn.working
            && t.me.pc == AtCall(Done(true))
  {
    var t := Called(sh, Query(ID, owner, Ordinary, CommitStmt(), Admin), AsRead).sh.log.trace;
    assert t.before.last.Saw? && t.before.before.before == sh.log.trace;
    NoBlock(t.before.before);
    NoBlock(t.before);
  }

  lemma RollbackFails(sh: Shared, job: Job)
    requires Holding(sh, job.owner) && !sh.conn.inTx && job.role == Admin
    ensures var t := Called(sh, RollbackCall(job, ID), AsWrite);
            && Holding(t.sh, job.owner) && t.sh.conn.committed == sh.conn.committed
            && t.me.pc == AtCall(Done(false))
  {
  }

  // ---- The run ----

  /** The world in which the batch has received the result of its call. */
  ghost function Answered(y: World, q: Query, st: Stage, t: Turn): World
    requires StepEnabled(Arriving(y, q, t.me, t.sh, st), Receive)
  {
    ReceiveStep(Arriving(y, q, t.me, t.sh, st))
  }

  lemma AskRuns(x: World, before: seq<Step>, y: World, q: Query, st: Stage, v: Verdict, owner: Name)
    returns (steps: seq<Step>)
    requires Evolves(x, before, y) && BatchInv(y) && OnlyWaiting(y.s) && StepEnabled(y, Send)
    requires SendStep(y) == Sent(y, q, st) && IsOwn(st, |y.s.procs|) && Holding(y.s.sh, owner) && q.txID == ID
    requires Finished(Called(y.s.sh, q, v).me.pc)
    ensures var t := Called(y.s.sh, q, v);
            && StepEnabled(Arriving(y, q, t.me, t.sh, st), Receive) && Evolves(x, steps, Answered(y, q, st, t))
            && BatchInv(Answered(y, q, st, t)) && OnlyWaiting(Answered(y, q, st, t).s)
  {
    var t := Called(y.s.sh, q, v);
    QueryAlone(Arrived(y.s.sh, q), q, Finding(v));
    hide QueryDone, BatchInv, Evolves, SendStep, OnlyWaiting, Holding;
    steps := CallEvolves(x, before, y, q, st, t);
  }

  /** What the batch has done so far: everything answered, its transaction as the server has it. */
  ghost predicate Underway(y: World, job: Job, k: nat) {
    && BatchInv(y) && OnlyWaiting(y.s) && Holding(y.s.sh, job.owner)
    && y.d.job == job && y.d.id == ID && y.d.stage == Ready(k) && y.d.results == seq(k, _ => true)
  }

  lemma Opens(s: State, job: Job) returns (steps: seq<Step>, y: World)
    requires Initial(s) && |job.items| > 0 && job.role == Admin
    ensures Starts(Opening(s, job)) && Evolves(Opening(s, job), steps, y) && Underway(y, job, 0)
    ensures y.s.sh.conn.inTx && y.s.sh.conn.working == s.sh.conn.committed
  {
    InitialInv(s);
    assert Leads(s, [], s);
    assert Reachable(s);
    var q := Batch.BeginCall(job);
    BeginHolds(s.sh, job);
    QueryAlone(Arrived(s.sh, q), q, Finding(AsWrite));
    var t := Called(s.sh, q, AsWrite);
    hide QueryDone, BatchInv, Evolves, Reachable, Inv;
    steps, y := BatchBegins(s, job, t, Answer(ID));
  }

  /** One statement of the list, answered. */
  lemma Goes(x: World, before: seq<Step>, y: World, k: nat, v: Verdict) returns (steps: seq<Step>, z: World)
    requires Evolves(x, before, y) && Underway(y, y.d.job, k) && y.d.job.role == Admin
    requires k < |y.d.job.items| && y.d.job.items[k].Good?
    requires var t := Called(y.s.sh, CallFor(y.d.job, ID, k), v);
             t.me.pc == AtCall(Done(true)) && Holding(t.sh, y.d.job.owner)
    ensures Evolves(x, steps, z) && Underway(z, y.d.job, k + 1)
    ensures z.s.sh == Called(y.s.sh, CallFor(y.d.job, ID, k), v).sh
  {
    var q, st := CallFor(y.d.job, ID, k), Awaiting(k, |y.s.procs|);
    var t := Called(y.s.sh, q, v);
    hide QueryDone, BatchInv, Evolves, OnlyWaiting;
    steps := AskRuns(x, before, y, q, st, v, y.d.job.owner);
    z := Answered(y, q, st, t);
  }

  /** The batch gives up at a statement that cannot be asked, and its ROLLBACK fails. */
  lemma GivesUp(x: World, before: seq<Step>, y: World, k: nat) returns (steps: seq<Step>, z: World)
    requires Evolves(x, before, y) && Underway(y, y.d.job, k) && y.d.job.role == Admin
    requires k < |y.d.job.items| && y.d.job.items[k].Bad? && !y.s.sh.conn.inTx
    ensures Evolves(x, steps, z) && z.d.stage.Over? && z.d.results == seq(k, _ => true) + [false] && z.d.id == ID
    ensures z.s.sh.conn.committed == y.s.sh.conn.committed && Serial(z.s.sh.log.trace) == []
  {
    var n := SendStep(y);
    EvolvesOne(y, Send);
    BatchNext(y, Send);
    EvolvesCompose(x, before, y, [Send], n);
    var q, st := RollbackCall(y.d.job, ID), Undoing(k, |y.s.procs|);
    RollbackFails(y.s.sh, y.d.job);
    var t := Called(y.s.sh, q, AsWrite);
    hide QueryDone, BatchInv, Evolves, OnlyWaiting;
    steps := AskRuns(x, before + [Send], n, q, st, AsWrite, y.d.job.owner);
    z := Answered(n, q, st, t);
  }

  lemma {:induction false} EmptyScheduleCommitsNothing(t: Trace, id: Name)
    requires Serial(t) == []
    ensures !CommittedIn(t, id) && Units(t) == []
  {
    if t.Then? {
      EmptyScheduleCommitsNothing(t.before, id);
    }
  }

  /** The write and the bare END are answered, the last statement is not asked. */
  lemma Splits(x: World, before: seq<Step>, y: World, insert: Stmt, owner: Name) returns (steps: seq<Step>, z: World)
    requires Evolves(x, before, y) && Underway(y, SplitJob(insert, owner), 0) && Inserts(insert) && y.s.sh.conn.inTx
    ensures Evolves(x, steps, z) && z.d.stage.Over? && z.d.results == [true, true, false] && z.d.id == ID
    ensures z.s.sh.conn.committed == Effect(insert, y.s.sh.conn.working) && Serial(z.s.sh.log.trace) == []
  {
    hide Evolves, BatchInv, OnlyWaiting, Called;
    InsertWorks(y.s.sh, owner, insert);
    steps, z := Goes(x, before, y, 0, AsWrite);
    BareEndWorks(z.s.sh, owner);
    steps, z := Goes(x, steps, z, 1, AsRead);
    steps, z := GivesUp(x, steps, z, 2);
  }

  /** On a database just opened, the batch of a write, a bare END and a bad statement shows an error for
      the last one and has no block in the schedule; but its write is in the committed contents. */
  lemma BareEndSplitsBatch(s: State, insert: Stmt, owner: Name) returns (steps: seq<Step>, y: World)
    requires Initial(s) && Inserts(insert)
    ensures var x := Opening(s, SplitJob(insert, owner));
            && StartsAt(s, x) && Evolves(x, steps, y)
            && y.d.stage.Over? && y.d.results == [true, true, false] && !CommittedIn(y.s.sh.log.trace, Secret(y))
            && y.s.sh.conn.committed == Effect(insert, s.sh.conn.committed)
            && (Effect(insert, s.sh.conn.committed) != s.sh.conn.committed ==> !Atomic(s.sh.conn.committed, x, y))
  {
    var job := SplitJob(insert, owner);
    var x := Opening(s, job);
    var before, o := Opens(s, job);
    steps, y := Splits(x, before, o, insert, owner);
    hide Evolves, BatchInv, OnlyWaiting, Starts, Underway, Atomic;
    EmptyScheduleCommitsNothing(y.s.sh.log.trace, ID);
    if y.s.sh.conn.committed != s.sh.conn.committed {
      NotAtomic(s.sh.conn.committed, x, y);
    }
  }

  lemma NotAtomic(db: Db, x: World, y: World)
    requires Serial(y.s.sh.log.trace) == [] && y.s.sh.conn.committed != db
    ensures !Atomic(db, x, y)
  {
  }
}
