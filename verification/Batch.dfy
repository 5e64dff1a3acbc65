/**
 The atomic batch of executeRQLiteQueries (internal/server/rqlite.go): BEGIN, the statements one
 after the other with the new transaction ID, ROLLBACK at the first error, COMMIT otherwise.

 The batch is a client of the step system.  Between its steps everything else may happen: other
 calls, ticks of the idle monitor, shutdown.  Its transaction ID goes to nobody else.
 */
module Batch {
  import opened Atomicity
  import opened BatchSteps
  import opened Frames
  import opened Gauges
  import opened History
  import opened Lifecycle
  import opened Locks
  import opened Protocol
  import opened QueryText
  import opened Runs
  import opened Sqlite

  /** One statement of the list.  Bad stands for an empty query and for parameters that cannot be
      converted, which executeRequestQuery refuses without asking the database. */
  datatype Item = Bad | Good(form: TextKind, stmt: Stmt)

  datatype Job = Job(items: seq<Item>, owner: Name, role: Role)

  /** What the batch is doing: waiting for a call, or about to make one.  k counts the statements
      answered without an error; once it reaches the length of the list, COMMIT is next. */
  datatype Stage =
    | Beginning(pid: nat)
    | Ready(k: nat)
    | Awaiting(k: nat, pid: nat)
    | Abort(k: nat)
    | Undoing(k: nat, pid: nat)
    | Over

  /** results: whether each result in the response is an answer. */
  datatype Driver = Driver(job: Job, stage: Stage, id: Name, results: seq<bool>)

  datatype World = World(s: State, d: Driver)

  function NoStmt(): Stmt {
    Stmt(db => db, Plain, {Admin}, false)
  }

  function BeginCall(job: Job): Query {
    Query(NONE, job.owner, BeginText, NoStmt(), job.role)
  }

  function RollbackCall(job: Job, id: Name): Query {
    Query(id, job.owner, RollbackText, NoStmt(), job.role)
  }

  /** Statement k, or the COMMIT after the last one. */
  function CallFor(job: Job, id: Name, k: nat): Query
    requires k < |job.items| ==> job.items[k].Good?
  {
    if k < |job.items| then Query(id, job.owner, job.items[k].form, job.items[k].stmt, job.role)
    else Query(id, job.owner, CommitText, NoStmt(), job.role)
  }

  // ---- The steps of the batch ----

  datatype Step = Other(l: Label) | Send | Receive

  /** The goroutine that runs the batch's current call. */
  predicate IsOwn(st: Stage, pid: nat) {
    match st
    case Beginning(p) => p == pid
    case Awaiting(_, p) => p == pid
    case Undoing(_, p) => p == pid
    case _ => false
  }

  /** The ID of the batch's transaction, from the moment there is one. */
  ghost function Secret(x: World): Name {
    if x.d.stage.Beginning? && x.d.stage.pid < |x.s.procs| then x.s.procs[x.d.stage.pid].newID else x.d.id
  }

  ghost predicate StepEnabled(x: World, a: Step) {
    match a
    case Other(l) => Enabled(x.s, l) && (l.Arrive? && Secret(x) != NONE ==> l.q.txID != Secret(x))
    case Send => !x.s.sh.stopped && (x.d.stage.Abort? || (x.d.stage.Ready? && x.d.stage.k <= |x.d.job.items|))
    case Receive => exists pid :: 0 <= pid < |x.s.procs| && IsOwn(x.d.stage, pid) && Finished(x.s.procs[pid].pc)
  }

  ghost function Sent(x: World, q: Query, st: Stage): World
    requires !x.s.sh.stopped
  {
    World(Next(x.s, Arrive(q)), x.d.(stage := st))
  }

  ghost function SendStep(x: World): World
    requires StepEnabled(x, Send)
  {
    var job, pid := x.d.job, |x.s.procs|;
    match x.d.stage
    case Ready(k) =>
      if k < |job.items| && job.items[k].Bad? then x.(d := x.d.(stage := Abort(k), results := x.d.results + [false]))
      else Sent(x, CallFor(job, x.d.id, k), Awaiting(k, pid))
    case Abort(k) => Sent(x, RollbackCall(job, x.d.id), Undoing(k, pid))
  }

  ghost function ReceiveStep(x: World): World
    requires StepEnabled(x, Receive)
  {
    var me := x.s.procs[x.d.stage.pid];
    var d := x.d;
    var failed := d.results + [false];
    x.(d :=
      match d.stage
      case Beginning(_) =>
        if me.pc.call.ok then d.(id := me.newID, stage := Ready(0))
        else d.(stage := Over, results := failed)
      case Awaiting(k, _) =>
        if k == |d.job.items| then d.(stage := Over, results := if me.pc.call.ok then d.results else failed)
        else if me.pc.call.ok then d.(stage := Ready(k + 1), results := d.results + [true])
        else d.(stage := Abort(k), results := failed)
      case Undoing(_, _) => d.(stage := Over))
  }

  ghost function Do(x: World, a: Step): World
    requires StepEnabled(x, a)
  {
    match a
    case Other(l) => x.(s := Next(x.s, l))
    case Send => SendStep(x)
    case Receive => ReceiveStep(x)
  }

  /** The batch has sent its BEGIN to the database in state s. */
  ghost predicate StartsAt(s: State, x: World) {
    && !s.sh.stopped && x.s == Next(s, Arrive(BeginCall(x.d.job))) && x.d.stage == Beginning(|s.procs|)
    && |x.d.job.items| > 0 && x.d.id == NONE && x.d.results == []
  }

  /** The batch has sent its BEGIN to a database in any reachable state. */
  ghost predicate Starts(x: World) {
    exists s :: Reachable(s) && StartsAt(s, x)
  }

  ghost predicate Evolves(x: World, steps: seq<Step>, y: World)
    decreases |steps|
  {
    if steps == [] then x == y
    else StepEnabled(x, steps[0]) && Evolves(Do(x, steps[0]), steps[1..], y)
  }

  // ---- What the list asks for ----

  predicate IsCommit(item: Item) {
    item.Good? && item.form.CommitText?
  }

  ghost predicate NoCommit(items: seq<Item>) {
    forall item | item in items :: !IsCommit(item)
  }

  /** All of these can be asked. */
  ghost predicate AllGood(items: seq<Item>) {
    forall item | item in items :: item.Good?
  }

  /** The statements of the list that are no control statements. */
  function Ordinaries(items: seq<Item>): seq<Stmt> {
    if items == [] then []
    else
      var last := items[|items| - 1];
      Ordinaries(items[..|items| - 1]) + if last.Good? && last.form.Ordinary? then [last.stmt] else []
  }

  /** Where the list commits: at its first COMMIT, else at the end. */
  ghost function CommitPoint(items: seq<Item>): (k: nat)
    ensures k <= |items| && NoCommit(items[..k]) && (k < |items| ==> IsCommit(items[k]))
  {
    if items == [] then 0
    else
      var k := CommitPoint(items[..|items| - 1]);
      assert items[..|items| - 1][..k] == items[..k];
      if k < |items| - 1 || IsCommit(items[|items| - 1]) then k
      else assert items[..|items|] == items[..k] + [items[|items| - 1]]; |items|
  }

  /** What the batch is to commit. */
  ghost function Wanted(items: seq<Item>): seq<Stmt> {
    Ordinaries(items[..CommitPoint(items)])
  }

  lemma CommitPointIs(items: seq<Item>, k: nat)
    requires k <= |items| && NoCommit(items[..k]) && (k < |items| ==> IsCommit(items[k]))
    ensures CommitPoint(items) == k
  {
    var j := CommitPoint(items);
    assert forall i :: 0 <= i < k ==> !IsCommit(items[..k][i]);
    assert forall i :: 0 <= i < j ==> !IsCommit(items[..j][i]);
  }

  lemma OneMore(items: seq<Item>, k: nat)
    requires k < |items|
    ensures Ordinaries(items[..k + 1]) ==
              Ordinaries(items[..k]) + if items[k].Good? && items[k].form.Ordinary? then [items[k].stmt] else []
    ensures NoCommit(items[..k + 1]) <==> NoCommit(items[..k]) && !IsCommit(items[k])
    ensures AllGood(items[..k + 1]) <==> AllGood(items[..k]) && items[k].Good?
  {
    assert items[..k + 1][..k] == items[..k];
    assert items[..k + 1] == items[..k] + [items[k]];
  }

  // ---- The invariant ----

  ghost predicate NamedOk(s: State) {
    forall i :: 0 <= i < |s.procs| && s.procs[i].kind.Client? ==> s.procs[i].q.txID in s.sh.log.named
  }

  /** The BEGIN of the batch. */
  ghost predicate BeginOk(me: Local, job: Job) {
    && me.kind.Client? && me.q == BeginCall(job) && !me.held
    && (match me.pc
        case AtCall(c) => c.Entry? || c.Fail? || c.Done?
        case AtBegin(_) => true
        case AtRw(op, _) => op.OpBegin?
        case _ => false)
    && (me.newID != NONE <==>
        match me.pc
        case AtBegin(b) => b.PubOwner? || b.PubTime? || b.PubCount? || (b.BeginLeave? && b.ok)
        case AtCall(c) => c.Done? && c.ok
        case _ => false)
  }

  /** Nobody else works under the ID. */
  ghost predicate Private(x: World) {
    forall i :: 0 <= i < |x.s.procs| && !IsOwn(x.d.stage, i) && x.s.procs[i].kind.Client? ==>
      x.s.procs[i].q.txID != Secret(x) || Finished(x.s.procs[i].pc)
  }

  predicate Answers(results: seq<bool>, k: nat) {
    |results| == k && forall i :: 0 <= i < k ==> results[i]
  }

  /** k answers, then an error. */
  predicate Breaks(results: seq<bool>, k: nat) {
    |results| == k + 1 && !results[k] && forall i :: 0 <= i < k ==> results[i]
  }

  ghost predicate Live(t: Trace, job: Job, id: Name, k: nat)
    requires k <= |job.items|
  {
    PhaseOf(t, id).Active? ==> StatementsOf(t, id) == Ordinaries(job.items[..k]) && NoCommit(job.items[..k])
  }

  ghost predicate StageOk(x: World) {
    var t, d := x.s.sh.log.trace, x.d;
    var n := |d.job.items|;
    match d.stage
    case Beginning(pid) =>
      && pid < |x.s.procs| && BeginOk(x.s.procs[pid], d.job) && d.results == [] && d.id == NONE
      && (Secret(x) != NONE ==> !CommittedIn(t, Secret(x)) && StatementsOf(t, Secret(x)) == [])
    case Ready(k) =>
      && k <= n && Answers(d.results, k) && Live(t, d.job, d.id, k) && AllGood(d.job.items[..k])
      && (NoCommit(d.job.items[..k]) ==> !CommittedIn(t, d.id))
    case Awaiting(k, pid) =>
      && k <= n && pid < |x.s.procs| && Answers(d.results, k) && AllGood(d.job.items[..k])
      && (k < n ==> d.job.items[k].Good?) && x.s.procs[pid].q == CallFor(d.job, d.id, k)
      && FormOk(x.s.procs[pid]) && CallView(t, x.s.procs[pid], Ordinaries(d.job.items[..k]))
      && (PhaseOf(t, d.id).Active? ==> NoCommit(d.job.items[..k]))
      && (NoCommit(d.job.items[..k]) && CommittedIn(t, d.id) ==>
            x.s.procs[pid].q.form.CommitText? && Executed(x.s.procs[pid].pc))
    case Abort(k) =>
      && k < n && Breaks(d.results, k) && Live(t, d.job, d.id, k)
      && (NoCommit(d.job.items) ==> !CommittedIn(t, d.id))
    case Undoing(k, pid) =>
      && k < n && pid < |x.s.procs| && Breaks(d.results, k) && x.s.procs[pid].q == RollbackCall(d.job, d.id)
      && FormOk(x.s.procs[pid]) && CallView(t, x.s.procs[pid], Ordinaries(d.job.items[..k]))
      && (NoCommit(d.job.items) ==> !CommittedIn(t, d.id))
    case Over =>
      if d.id == NONE then d.results == [false]
      else
        && (Answers(d.results, n) || (exists k :: 0 <= k <= n && Breaks(d.results, k)))
        && (Answers(d.results, n) ==> CommittedIn(t, d.id))
        && (NoCommit(d.job.items) && CommittedIn(t, d.id) ==> Answers(d.results, n))
  }

  /** The transaction of the batch, once it commits, consists of what the list asks for, and all of that
      could be asked. */
  ghost predicate Faithful(x: World) {
    CommittedIn(x.s.sh.log.trace, Secret(x)) ==>
      && StatementsOf(x.s.sh.log.trace, Secret(x)) == Wanted(x.d.job.items)
      && AllGood(x.d.job.items[..CommitPoint(x.d.job.items)])
  }

  ghost predicate BatchInv(x: World) {
    && Inv(x.s) && LifeInv(x.s) && NamedOk(x.s) && StageOk(x)
    && (!x.d.stage.Beginning? && !x.d.stage.Over? ==> x.d.id != NONE)
    && (Secret(x) != NONE ==> Secret(x) in x.s.sh.log.issued && Private(x) && Faithful(x))
  }

  // ---- Steps of everybody else ----

  lemma NamedNext(s: State, l: Label)
    requires Inv(s) && NamedOk(s) && Enabled(s, l)
    ensures NamedOk(Next(s, l))
  {
    if l.Run? {
      FactsHold(s, l.pid);
      StepLocalOk(s.sh, s.procs[l.pid], l.c);
      StepFramed(s.sh, s.procs[l.pid], l.c);
    }
  }

  /** The invariant reads of the trace only what concerns the transaction. */
  lemma StageFrame(x: World, y: World)
    requires BatchInv(x) && y.d == x.d && Secret(y) == Secret(x) && |y.s.procs| >= |x.s.procs|
    requires forall i :: 0 <= i < |x.s.procs| && IsOwn(x.d.stage, i) ==> y.s.procs[i] == x.s.procs[i]
    requires Secret(x) != NONE ==> Untouched(x.s.sh.log.trace, y.s.sh.log.trace, Secret(x))
    ensures StageOk(y) && (Secret(x) != NONE ==> Faithful(y))
  {
    hide StatementsOf, CommittedIn, PhaseOf, Ordinaries, Wanted;
    match x.d.stage
    case Beginning(_) =>
    case Ready(_) =>
    case Awaiting(_, _) =>
    case Abort(_) =>
    case Undoing(_, _) =>
    case Over =>
  }

  lemma OtherRun(x: World, pid: nat, c: Choice)
    requires BatchInv(x) && Enabled(x.s, Run(pid, c)) && !IsOwn(x.d.stage, pid)
    ensures BatchInv(x.(s := Next(x.s, Run(pid, c))))
  {
    var s, l := x.s, Run(pid, c);
    var me := s.procs[pid];
    var y := x.(s := Next(s, l));
    InvNext(s, l);
    LifeNext(s, l);
    NamedNext(s, l);
    FactsHold(s, pid);
    StepLocalOk(s.sh, me, c);
    StepFramed(s.sh, me, c);
    StepGrows(s.sh, me, c);
    if Secret(x) != NONE {
      OtherStep(s.sh, me, c, Secret(x));
      IssuedGrows(s.sh, me, c);
    }
    StageFrame(x, y);
    hide StageOk, Faithful, Inv, LifeInv;
  }

  lemma IssuedGrows(sh: Shared, me: Local, c: Choice)
    requires Can(sh, me, c)
    ensures sh.log.issued <= Act(sh, me, c).sh.log.issued
  {
    StepFramed(sh, me, c);
  }

  lemma OtherArrives(x: World, l: Label)
    requires BatchInv(x) && StepEnabled(x, Other(l)) && !l.Run?
    ensures BatchInv(x.(s := Next(x.s, l)))
  {
    var y := x.(s := Next(x.s, l));
    InvNext(x.s, l);
    LifeNext(x.s, l);
    NamedNext(x.s, l);
    assert Secret(x) != NONE ==> Untouched(x.s.sh.log.trace, y.s.sh.log.trace, Secret(x));
    StageFrame(x, y);
    hide StageOk, Faithful, Inv, LifeInv;
  }

  // ---- Steps of the batch's own call ----

  /** The BEGIN stays on its way, and makes its ID in one step. */
  lemma BeginStep(sh: Shared, me: Local, c: Choice, job: Job)
    requires Can(sh, me, c) && Facts(sh, me) && BeginOk(me, job)
    ensures var t := Act(sh, me, c);
            && BeginOk(t.me, job)
            && (t.me.newID == me.newID || (me.pc == AtBegin(PubId) && t.me.newID == c.uuid))
  {
    match me.pc
    case AtCall(_) =>
    case AtBegin(_) => BeginStepBegin(sh, me, c, job);
    case AtRw(_, _) =>
  }

  lemma BeginStepBegin(sh: Shared, me: Local, c: Choice, job: Job)
    requires Can(sh, me, c) && Facts(sh, me) && BeginOk(me, job) && me.pc.AtBegin?
    ensures var t := ActBegin(sh, me, c);
            && BeginOk(t.me, job)
            && (t.me.newID == me.newID || (me.pc == AtBegin(PubId) && t.me.newID == c.uuid))
  {
  }

  /** The three things that hold of the state alone. */
  ghost predicate Sound(s: State) {
    Inv(s) && LifeInv(s) && NamedOk(s)
  }

  lemma SoundNext(s: State, l: Label)
    requires Sound(s) && Enabled(s, l)
    ensures Sound(Next(s, l))
  {
    InvNext(s, l);
    LifeNext(s, l);
    NamedNext(s, l);
  }

  lemma BeginsOwnID(x: World, pid: nat, c: Choice)
    requires BatchInv(x) && Enabled(x.s, Run(pid, c)) && x.d.stage == Beginning(pid)
    requires x.s.procs[pid].pc == AtBegin(PubId)
    ensures BatchInv(x.(s := Next(x.s, Run(pid, c))))
  {
    var s, l := x.s, Run(pid, c);
    var me := s.procs[pid];
    var y := x.(s := Next(s, l));
    SoundNext(s, l);
    FactsHold(s, pid);
    BeginStep(s.sh, me, c, x.d.job);
    assert PhaseOf(s.sh.log.trace, c.uuid).Fresh?;
    FreshIsEmpty(s.sh.log.trace, c.uuid);
    assert Secret(y) == c.uuid;
    assert y.s.sh.log.trace == Then(s.sh.log.trace, Began(c.uuid, CredOf(me), s.sh.now));
    hide Inv, LifeInv, Act;
    forall i | 0 <= i < |y.s.procs| && i != pid && y.s.procs[i].kind.Client?
      ensures y.s.procs[i].q.txID != Secret(y)
    {
      assert y.s.procs[i] == s.procs[i];
    }
  }

  lemma BeginsOn(x: World, pid: nat, c: Choice)
    requires BatchInv(x) && Enabled(x.s, Run(pid, c)) && x.d.stage == Beginning(pid)
    requires x.s.procs[pid].pc != AtBegin(PubId)
    ensures BatchInv(x.(s := Next(x.s, Run(pid, c))))
  {
    hide Inv, LifeInv, NamedOk, Facts, Act, StatementsOf, CommittedIn, PhaseOf, Ordinaries, Wanted;
    var s, l := x.s, Run(pid, c);
    var me := s.procs[pid];
    var y := x.(s := Next(s, l));
    SoundNext(s, l);
    FactsHold(s, pid);
    BeginStep(s.sh, me, c, x.d.job);
    IssuedGrows(s.sh, me, c);
    if Secret(x) != NONE {
      OtherStep(s.sh, me, c, Secret(x));
    }
  }

  /** A COMMIT of the batch commits what the list asks for. */
  lemma CommitIsFaithful(x: World, y: World, pid: nat, k: nat)
    requires x.d.stage == Awaiting(k, pid) && StageOk(x) && y.d == x.d && Faithful(x) && pid < |y.s.procs|
    requires CommitsBy(x.s.sh.log.trace, y.s.sh.log.trace, x.s.procs[pid], y.s.procs[pid],
                     Ordinaries(x.d.job.items[..k]))
    ensures Faithful(y)
  {
    var t, t' := x.s.sh.log.trace, y.s.sh.log.trace;
    if CommittedIn(t', x.d.id) && !CommittedIn(t, x.d.id) {
      CommitPointIs(x.d.job.items, k);
    }
  }

  /** Another step of the call of statement k, or of the ROLLBACK after it. */
  lemma OwnRun(x: World, pid: nat, c: Choice)
    requires BatchInv(x) && Enabled(x.s, Run(pid, c)) && IsOwn(x.d.stage, pid) && !x.d.stage.Beginning?
    ensures BatchInv(x.(s := Next(x.s, Run(pid, c))))
  {
    var s, l := x.s, Run(pid, c);
    var me := s.procs[pid];
    var y := x.(s := Next(s, l));
    var before := Ordinaries(x.d.job.items[..x.d.stage.k]);
    SoundNext(s, l);
    FactsHold(s, pid);
    LiveFactsHold(s, pid);
    OwnStep(s.sh, me, c, before);
    IssuedGrows(s.sh, me, c);
    if x.d.stage.Awaiting? {
      CommitIsFaithful(x, y, pid, x.d.stage.k);
    }
    hide Inv, LifeInv, Act, StatementsOf, CommittedIn, PhaseOf, Ordinaries, Wanted;
  }

  // ---- Steps of the batch itself ----

  lemma SendKeeps(x: World)
    requires BatchInv(x) && StepEnabled(x, Send)
    ensures BatchInv(SendStep(x))
  {
    var job := x.d.job;
    if x.d.stage.Ready? && x.d.stage.k < |job.items| && job.items[x.d.stage.k].Bad? {
      hide Inv, LifeInv, StatementsOf, CommittedIn, PhaseOf;
      assert NoCommit(job.items) ==> NoCommit(job.items[..x.d.stage.k]);
    } else {
      var q := if x.d.stage.Ready? then CallFor(job, x.d.id, x.d.stage.k) else RollbackCall(job, x.d.id);
      SoundNext(x.s, Arrive(q));
      hide Inv, LifeInv, NamedOk, StatementsOf, CommittedIn, PhaseOf;
    }
  }

  lemma ReceiveBegin(x: World)
    requires BatchInv(x) && StepEnabled(x, Receive) && x.d.stage.Beginning?
    ensures BatchInv(ReceiveStep(x))
  {
    assert x.d.job.items[..0] == [] && Ordinaries([]) == [];
    hide Inv, LifeInv, NamedOk, StatementsOf, CommittedIn, PhaseOf, Ordinaries;
  }

  lemma ReceiveAnswer(x: World)
    requires BatchInv(x) && StepEnabled(x, Receive) && x.d.stage.Awaiting?
    ensures BatchInv(ReceiveStep(x))
  {
    var items := x.d.job.items;
    assert items[..|items|] == items;
    if x.d.stage.k < |items| {
      OneMore(items, x.d.stage.k);
      assert NoCommit(items) ==> NoCommit(items[..x.d.stage.k + 1]);
    }
    hide Inv, LifeInv, NamedOk, StatementsOf, CommittedIn, PhaseOf, Ordinaries, NoCommit;
    var y := ReceiveStep(x);
    var ok := x.s.procs[x.d.stage.pid].pc.call.ok;
    if x.d.stage.k == |items| {
      assert ok ==> Answers(y.d.results, |items|);
      assert !ok ==> Breaks(y.d.results, |items|);
    } else {
      assert ok ==> Live(x.s.sh.log.trace, y.d.job, y.d.id, x.d.stage.k + 1);
      assert !ok ==> Live(x.s.sh.log.trace, y.d.job, y.d.id, x.d.stage.k);
    }
    assert StageOk(y);
    assert Private(y);
  }

  lemma ReceiveUndone(x: World)
    requires BatchInv(x) && StepEnabled(x, Receive) && x.d.stage.Undoing?
    ensures BatchInv(ReceiveStep(x))
  {
    hide Inv, LifeInv, NamedOk, StatementsOf, CommittedIn, PhaseOf, Ordinaries, NoCommit;
    assert Breaks(x.d.results, x.d.stage.k);
  }

  lemma ReceiveKeeps(x: World)
    requires BatchInv(x) && StepEnabled(x, Receive)
    ensures BatchInv(ReceiveStep(x))
  {
    match x.d.stage
    case Beginning(_) => ReceiveBegin(x);
    case Awaiting(_, _) => ReceiveAnswer(x);
    case Undoing(_, _) => ReceiveUndone(x);
  }

  lemma BatchNext(x: World, a: Step)
    requires BatchInv(x) && StepEnabled(x, a)
    ensures BatchInv(Do(x, a))
  {
    match a
    case Send => SendKeeps(x);
    case Receive => ReceiveKeeps(x);
    case Other(l) =>
      if !l.Run? {
        OtherArrives(x, l);
      } else if !IsOwn(x.d.stage, l.pid) {
        OtherRun(x, l.pid, l.c);
      } else if !x.d.stage.Beginning? {
        OwnRun(x, l.pid, l.c);
      } else if x.s.procs[l.pid].pc == AtBegin(PubId) {
        BeginsOwnID(x, l.pid, l.c);
      } else {
        BeginsOn(x, l.pid, l.c);
      }
  }

  lemma {:induction false} NamedAlways(s: State, ls: seq<Label>, t: State)
    requires Inv(s) && NamedOk(s) && Leads(s, ls, t)
    ensures NamedOk(t)
    decreases |ls|
  {
    if ls != [] {
      InvNext(s, ls[0]);
      NamedNext(s, ls[0]);
      NamedAlways(Next(s, ls[0]), ls[1..], t);
    }
  }

  lemma StartsOk(x: World)
    requires Starts(x)
    ensures BatchInv(x)
  {
    var q := BeginCall(x.d.job);
    var s :| Reachable(s) && !s.sh.stopped && x.s == Next(s, Arrive(q)) && x.d.stage == Beginning(|s.procs|);
    var s0, ls :| Initial(s0) && Leads(s0, ls, s);
    WholeInitial(s0);
    WholeAlways(s0.sh.conn.committed, s0, ls, s);
    NamedAlways(s0, ls, s);
    SoundNext(s, Arrive(q));
  }

  lemma {:induction false} BatchAlways(x: World, steps: seq<Step>, y: World)
    requires BatchInv(x) && Evolves(x, steps, y)
    ensures BatchInv(y) && y.d.job == x.d.job
    decreases |steps|
  {
    if steps != [] {
      BatchNext(x, steps[0]);
      BatchAlways(Do(x, steps[0]), steps[1..], y);
    }
  }

  // ---- The theorems ----

  /** At every moment of every run, during the batch and after it, the schedule has from the batch either
      nothing, or one block.  Then every statement the list asks for has been executed, once, in order and
      successfully, and the block is exactly those of the executions that were writes. */
  lemma AtomicBatch(x: World, steps: seq<Step>, y: World)
    requires Starts(x) && Evolves(x, steps, y) && Secret(y) != NONE
    ensures var t, id, wanted := y.s.sh.log.trace, Secret(y), Wanted(x.d.job.items);
            var es := ExecutionsOf(t, id);
            if CommittedIn(t, id) then
              && RecordsOf(es, id, wanted) && |Units(t)| == |Serial(t)|
              && exists k :: 0 <= k < |Units(t)| && Units(t)[k] == OfTx(id) && Serial(t)[k] == WritesIn(es)
            else OfTx(id) !in Units(t)
  {
    StartsOk(x);
    BatchAlways(x, steps, y);
    var t, id := y.s.sh.log.trace, Secret(y);
    WritesAmong(t, id);
    BlocksAreWhole(t);
    UnitsAreCommitted(t, id);
    if CommittedIn(t, id) {
      var k :| 0 <= k < |Units(t)| && Units(t)[k] == OfTx(id);
      assert BlockOk(t, k);
    }
  }

  /** A batch with a query that cannot be asked, and no COMMIT in the list before it, never has a block. */
  lemma BadItemNeverCommits(x: World, steps: seq<Step>, y: World, k: nat)
    requires Starts(x) && Evolves(x, steps, y) && Secret(y) != NONE
    requires k < |x.d.job.items| && x.d.job.items[k].Bad? && NoCommit(x.d.job.items[..k])
    ensures !CommittedIn(y.s.sh.log.trace, Secret(y)) && OfTx(Secret(y)) !in Units(y.s.sh.log.trace)
  {
    StartsOk(x);
    BatchAlways(x, steps, y);
    UnitsAreCommitted(y.s.sh.log.trace, Secret(y));
    BadBefore(x.d.job.items, k);
    hide CommitPoint, AllGood, NoCommit;
  }

  lemma BadBefore(items: seq<Item>, k: nat)
    requires k < |items| && items[k].Bad? && NoCommit(items[..k])
    ensures !AllGood(items[..CommitPoint(items)])
  {
    var c := CommitPoint(items);
    assert c >= k by {
      assert forall i :: 0 <= i < k ==> items[..k][i] == items[i];
    }
    assert items[..c][k] == items[k] && items[k] in items[..c];
  }

  /** What the batch does, and what everybody else does meanwhile, is a run of the step system. */
  lemma {:induction false} EvolvesLeads(x: World, steps: seq<Step>, y: World) returns (ls: seq<Label>)
    requires Evolves(x, steps, y)
    ensures Leads(x.s, ls, y.s)
    decreases |steps|
  {
    if steps == [] {
      ls := [];
    } else {
      var n := Do(x, steps[0]);
      ls := EvolvesLeads(n, steps[1..], y);
      if steps[0].Other? {
        ls := [steps[0].l] + ls;
      } else if n.s != x.s {
        ls := [Arrive(n.s.procs[|x.s.procs|].q)] + ls;
      }
    }
  }

  /** The committed contents are the initial ones, then what others committed, then every write of the
      batch in the order of its list, then what others committed; or they are what others committed.
      Standalone writes and transactions of others come as whole blocks too. */
  ghost predicate Atomic(db: Db, x: World, y: World) {
    var t, id := y.s.sh.log.trace, Secret(y);
    var units, blocks, es := Units(t), Serial(t), ExecutionsOf(t, id);
    && |units| == |blocks| && y.s.sh.conn.committed == ReplayBlocks(db, blocks)
    && if id != NONE && CommittedIn(t, id) then
         && RecordsOf(es, id, Wanted(x.d.job.items))
         && exists k :: 0 <= k < |units| && units[k] == OfTx(id)
              && OfTx(id) !in units[..k] && OfTx(id) !in units[k + 1..]
              && y.s.sh.conn.committed ==
                   ReplayBlocks(Replay(ReplayBlocks(db, blocks[..k]), WritesIn(es)), blocks[k + 1..])
       else OfTx(id) !in units
  }

  /** All or nothing, on the database: at every moment of every routed run from a database opened with any
      contents, during the batch and after it. */
  lemma BatchTheorem(s0: State, ls: seq<Label>, s: State, x: World, steps: seq<Step>, y: World)
    requires Initial(s0) && Leads(s0, ls, s) && StartsAt(s, x) && Evolves(x, steps, y) && Routed(y.s)
    ensures Atomic(s0.sh.conn.committed, x, y)
  {
    var db, t, id := s0.sh.conn.committed, y.s.sh.log.trace, Secret(y);
    var ms := EvolvesLeads(x, steps, y);
    WholeInitial(s0);
    WholeAlways(db, s0, ls, s);
    WholeNext(db, s, Arrive(BeginCall(x.d.job)));
    WholeAlways(db, x.s, ms, y.s);
    assert Starts(x);
    BlocksAreWhole(t);
    hide Evolves, Leads, Inv, StartsAt, Starts, Routed, Orderly, Units, Serial, WritesIn, ExecutionsOf, RecordsOf,
         Secret, CommittedIn, ReplayBlocks, Replay;
    if id == NONE {
      NoneHasNoBlock(t);
    } else {
      AtomicBatch(x, steps, y);
      if CommittedIn(t, id) {
        var k :| 0 <= k < |Units(t)| && Units(t)[k] == OfTx(id) && Serial(t)[k] == WritesIn(ExecutionsOf(t, id));
        ReplaySplit(db, Serial(t), k);
        OneBlock(t, id, k);
      }
    }
  }

  lemma NoneHasNoBlock(t: Trace)
    requires Orderly(t)
    ensures OfTx(NONE) !in Units(t)
  {
    BlocksAreWhole(t);
    assert forall k :: 0 <= k < |Units(t)| ==> BlockOk(t, k);
  }

  lemma OneBlock(t: Trace, id: Name, k: nat)
    requires Orderly(t) && k < |Units(t)| && Units(t)[k] == OfTx(id)
    ensures OfTx(id) !in Units(t)[..k] && OfTx(id) !in Units(t)[k + 1..]
  {
    forall j | 0 <= j < |Units(t)| && j != k ensures Units(t)[j] != OfTx(id) {
      if Units(t)[j] == OfTx(id) {
        BlocksAreDistinct(t, if j < k then j else k, if j < k then k else j);
      }
    }
  }

  /** If all executions were writes, the block is the wanted list itself. */
  lemma {:induction false} AllWrites(es: seq<Event>, id: Name, wanted: seq<Stmt>)
    requires RecordsOf(es, id, wanted) && forall k :: 0 <= k < |es| ==> es[k].Wrote?
    ensures WritesIn(es) == wanted
  {
    if es != [] {
      AllWrites(es[..|es| - 1], id, wanted[..|es| - 1]);
    }
  }

  /** For a list without COMMIT, everything is wanted. */
  lemma WholeListWanted(items: seq<Item>)
    requires NoCommit(items)
    ensures Wanted(items) == Ordinaries(items)
  {
    assert items[..|items|] == items;
    CommitPointIs(items, |items|);
  }

  /** The response: only its last result can be an error, and without one there are as many results as
      statements.  A list without COMMIT is committed exactly when the response shows no error. */
  lemma BatchResults(x: World, steps: seq<Step>, y: World)
    requires Starts(x) && Evolves(x, steps, y) && y.d.stage.Over?
    ensures forall i :: 0 <= i < |y.d.results| - 1 ==> y.d.results[i]
    ensures 0 < |y.d.results| <= |x.d.job.items| + 1
    ensures (forall i :: 0 <= i < |y.d.results| ==> y.d.results[i]) ==>
              |y.d.results| == |x.d.job.items| && CommittedIn(y.s.sh.log.trace, y.d.id)
    ensures NoCommit(x.d.job.items) && y.d.id != NONE && CommittedIn(y.s.sh.log.trace, y.d.id) ==>
              |y.d.results| == |x.d.job.items| && forall i :: 0 <= i < |y.d.results| ==> y.d.results[i]
  {
    StartsOk(x);
    BatchAlways(x, steps, y);
    if y.d.id != NONE && !Answers(y.d.results, |x.d.job.items|) {
      var k :| 0 <= k <= |x.d.job.items| && Breaks(y.d.results, k);
      assert !y.d.results[k];
    } else if y.d.id == NONE {
      assert !y.d.results[0];
    }
  }
}
