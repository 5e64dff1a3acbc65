/**
 executeRQLiteQueries and executeQueries (internal/server/rqlite.go, internal/server/query.go) in the
 source's own form: loops that run one query after the other and append to the results.

 Both are here on a database where no other goroutine is at work, though calls may wait for an open
 transaction, and proved to be runs: the batch of the driver of Batch, the plain list of the step
 system.
 */
module RqliteServer {
  import opened Atomicity
  import opened Batch
  import opened Coordinator
  import opened Draining
  import opened Gauges
  import opened History
  import opened Locks
  import opened Protocol
  import opened QueryText
  import opened Solo
  import opened Sqlite
  import opened Wrappers
  import Binding
  import C = Calls
  import CallFrames
  import Operations
  import Scenarios
  import Values

  /** A vdl.Query: its text, its parameters, and what both mean to SQLite. */
  datatype VdlQuery = VdlQuery(text: string, params: seq<Binding.VdlParam>, stmt: Stmt)

  datatype Props = Props(owner: Name, role: Role)

  /** How executeRequestQuery comes out: an error without a call, or what DB.Query says. */
  datatype Reply = EmptyQuery | BadParameter(error: Values.ValueError) | FromDb(out: Outcome) {
    predicate Waits() { FromDb? && out.Waits? }
    predicate Answers() { FromDb? && out.Answer? }
  }

  predicate Convertible(params: seq<Binding.VdlParam>) {
    forall i :: 0 <= i < |params| ==> Values.Converted(params[i].value).Ok?
  }

  function ItemOf(v: VdlQuery): Item {
    if v.text != "" && Convertible(v.params) then Good(TextKindOf(v.text), v.stmt) else Bad
  }

  function JobOf(props: Props, queries: seq<VdlQuery>): (job: Job)
    ensures |job.items| == |queries| && forall k :: 0 <= k < |queries| ==> job.items[k] == ItemOf(queries[k])
  {
    Job(seq(|queries|, k requires 0 <= k < |queries| => ItemOf(queries[k])), props.owner, props.role)
  }

  // ---- Between two calls ----

  lemma WaitingIsFree(s: State)
    requires Inv(s) && OnlyWaiting(s)
    ensures !s.sh.txOpMu && !s.sh.writeMu && !s.sh.fault && (s.sh.txMu <==> s.sh.txID != NONE)
    ensures forall k :: 0 <= k < |s.sh.ro| ==> !s.sh.ro[k].busy
  {
    forall i | 0 <= i < |s.procs|
      ensures Weigh(Op, s.procs[i]) == Weigh(Rw, s.procs[i]) == Weigh(Token, s.procs[i]) == 0
      ensures forall k :: Weigh(Ro(k), s.procs[i]) == 0
    {
      assert LocalOk(s.procs[i]);
    }
    TotalZero(Op, s.procs);
    TotalZero(Rw, s.procs);
    TotalZero(Token, s.procs);
    assert Applies(Op, s) && Applies(Rw, s) && Applies(Token, s);
    forall k | 0 <= k < |s.sh.ro| ensures !s.sh.ro[k].busy {
      TotalZero(Ro(k), s.procs);
      assert Applies(Ro(k), s);
    }
  }

  /** The database as the coordinator's class shows it, at rest in a state of the step system. */
  ghost predicate At(db: Database, s: State)
    reads db
  {
    db.Abs() == s.sh && Inv(s) && OnlyWaiting(s) && !s.sh.stopped
  }

  ghost predicate Readers(sh: Shared, w: C.Responses) {
    w.first.reader < |sh.ro| && w.retry.reader < |sh.ro| && w.exec.reader < |sh.ro|
  }

  /** The first parameter that cannot be converted. */
  ghost predicate FirstBad(params: seq<Binding.VdlParam>, i: nat, e: Values.ValueError) {
    && i < |params| && Values.Converted(params[i].value) == Err(e)
    && forall j :: 0 <= j < i ==> Values.Converted(params[j].value).Ok?
  }

  /** What executeRequestQuery finds before it asks the database; None if nothing is wrong. */
  method Check(v: VdlQuery) returns (wrong: Option<Reply>)
    ensures wrong == Some(EmptyQuery) <==> v.text == ""
    ensures wrong.None? <==> v.text != "" && forall i :: 0 <= i < |v.params| ==> Values.Converted(v.params[i].value).Ok?
    ensures wrong.Some? ==> wrong.value == EmptyQuery || wrong.value.BadParameter?
    ensures wrong.Some? && wrong.value.BadParameter? ==> exists i: nat :: FirstBad(v.params, i, wrong.value.error)
  {
    if v.text == "" {
      return Some(EmptyQuery);
    }
    var params := Binding.ParamsFromVDL(v.params);
    if params.Err? {
      var i :| 0 <= i < |v.params| && Values.Converted(v.params[i].value) == Err(params.error) &&
        forall j :: 0 <= j < i ==> Values.Converted(v.params[j].value).Ok?;
      assert FirstBad(v.params, i, params.error);
      return Some(BadParameter(params.error));
    }
    return None;
  }

  /** executeRequestQuery.  me is where the goroutine of the call ends; without one there was no call. */
  method ExecuteRequestQuery(db: Database, txID: Name, props: Props, v: VdlQuery, w: C.Responses, ghost s: State)
    returns (reply: Reply, ghost me: Local)
    requires At(db, s) && Readers(s.sh, w)
    requires txID == NONE && TextKindOf(v.text).BeginText? ==> C.NewID(s.sh.log, w.exec)
    modifies db
    ensures v.text == "" || !(forall i :: 0 <= i < |v.params| ==> Values.Converted(v.params[i].value).Ok?) ==>
      !reply.FromDb? && db.Abs() == old(db.Abs())
    ensures reply == EmptyQuery <==> v.text == ""
    ensures reply.BadParameter? ==> exists i: nat :: FirstBad(v.params, i, reply.error)
    ensures v.text != "" && (forall i :: 0 <= i < |v.params| ==> Values.Converted(v.params[i].value).Ok?) ==>
      var q := Query(txID, props.owner, TextKindOf(v.text), v.stmt, props.role);
      && reply.FromDb?
      && Alone(Arrived(s.sh, q), Caller(q), Turn(db.Abs(), me))
      && CallFrames.Tidy(Arrived(s.sh, q), db.Abs(), w.exec.uuid)
      && if reply.Waits() then WaitsForTx(me.pc) else me.pc == AtCall(Done(reply.Answers()))
    ensures reply.FromDb? ==> forall e ::
      reply.out == Error(e) <==> Fails(e, Request(txID, props.owner, v.text, v.stmt, props.role), s.sh, w)
    ensures reply.Waits() ==> txID == NONE && s.sh.txMu
    ensures txID == NONE && TextKindOf(v.text).BeginText? && reply.Answers() ==>
      reply.out.newID == me.newID == w.exec.uuid
  {
    me := Caller(Query(txID, props.owner, TextKindOf(v.text), v.stmt, props.role));
    var wrong := Check(v);
    if wrong.Some? {
      return wrong.value, me;
    }
    WaitingIsFree(s);
    hide TextKindOf, C.QueryDone, Inv, Fails;
    var r := Request(txID, props.owner, v.text, v.stmt, props.role);
    var out := db.Query(r, w);
    reply := FromDb(out);
    me := C.QueryDone(Arrived(s.sh, Parsed(r)), Caller(Parsed(r)), w).me;
    CallFrames.QueryTidy(Arrived(s.sh, Parsed(r)), Caller(Parsed(r)), w);
  }

  // ---- executeQueries ----

  /** A call that arrives in s and ends at me. */
  lemma CallLeadsOn(s: State, q: Query, t: Turn) returns (ls: seq<Label>)
    requires Inv(s) && OnlyWaiting(s) && !s.sh.stopped
    requires Alone(Arrived(s.sh, q), Caller(q), t) && t.sh.stopped == s.sh.stopped
    requires Finished(t.me.pc) || WaitsForTx(t.me.pc)
    ensures Leads(s, ls, State(t.sh, s.procs + [t.me]))
    ensures Inv(State(t.sh, s.procs + [t.me])) && OnlyWaiting(State(t.sh, s.procs + [t.me]))
  {
    ls := Scenarios.CallLeads(s, q, t);
    InvAlways(s, ls, State(t.sh, s.procs + [t.me]));
  }

  /** The UUIDs drawn for the calls are new: to the database, to each other, to the requests so far. */
  ghost predicate Draws(log: Log, ids: seq<Name>, ws: seq<C.Responses>)
    requires |ids| == |ws|
  {
    forall k :: 0 <= k < |ws| ==>
      && C.NewID(log, ws[k].exec)
      && (forall j :: 0 <= j < k ==> ws[j].exec.uuid != ws[k].exec.uuid && ids[j] != ws[k].exec.uuid)
  }

  /** After k calls the rest of the UUIDs are still new. */
  ghost predicate Remaining(log: Log, ids: seq<Name>, ws: seq<C.Responses>, k: nat)
    requires |ids| == |ws|
  {
    forall m :: k <= m < |ws| ==> C.NewID(log, ws[m].exec)
  }

  lemma RemainingOn(log: Log, log0: Log, log': Log, ids: seq<Name>, ws: seq<C.Responses>, k: nat)
    requires |ids| == |ws| && k < |ws| && Remaining(log, ids, ws, k) && Draws(log0, ids, ws)
    requires log'.issued <= log.issued + {ws[k].exec.uuid} && log'.named <= log.named + {ids[k]}
    ensures Remaining(log', ids, ws, k + 1)
  {
  }

  /** A goroutine running alone stays the call it is. */
  lemma {:induction false} PathSameCall(sh: Shared, me: Local, cs: seq<Choice>, t: Turn)
    requires Path(sh, me, cs, t) && LocalOk(me)
    ensures SameCall(me, t.me)
    decreases |cs|
  {
    if cs != [] {
      StepLocalOk(sh, me, cs[0]);
      var a := Act(sh, me, cs[0]);
      hide Act, LocalOk;
      PathSameCall(a.sh, a.me, cs[1..], t);
    }
  }

  lemma CallStaysCall(sh: Shared, q: Query, t: Turn)
    requires Alone(sh, Caller(q), t)
    ensures t.me.q == q
  {
    var cs :| Path(sh, Caller(q), cs, t);
    PathSameCall(sh, Caller(q), cs, t);
  }

  function QueryOf(props: Props, id: Name, v: VdlQuery): Query {
    Query(id, props.owner, TextKindOf(v.text), v.stmt, props.role)
  }

  /** The call of a query is the newest goroutine of t, and stands where its outcome says. */
  ghost predicate Called(s: State, t: State, q: Query, out: Outcome) {
    && |t.procs| == |s.procs| + 1 && s.procs <= t.procs && t.procs[|s.procs|].q == q
    && if out.Waits? then WaitsForTx(t.procs[|s.procs|].pc)
       else t.procs[|s.procs|].pc == AtCall(Done(out.Answer?))
  }

  lemma ItemIs(v: VdlQuery)
    ensures ItemOf(v).Good? <==>
      v.text != "" && forall i :: 0 <= i < |v.params| ==> Values.Converted(v.params[i].value).Ok?
  {
  }

  /** One query of the list, as a run that ends where the database is. */
  method ExecuteNext(db: Database, txID: Name, props: Props, v: VdlQuery, w: C.Responses, ghost s: State)
    returns (reply: Reply, ghost ls: seq<Label>, ghost t: State)
    requires At(db, s) && Readers(s.sh, w)
    requires txID == NONE && TextKindOf(v.text).BeginText? ==> C.NewID(s.sh.log, w.exec)
    modifies db
    ensures At(db, t) && Leads(s, ls, t) && |t.sh.ro| == |s.sh.ro|
    ensures t.sh.log.issued <= s.sh.log.issued + {w.exec.uuid} && t.sh.log.named <= s.sh.log.named + {txID}
    ensures if ItemOf(v).Bad? then !reply.FromDb? && t == s
            else reply.FromDb? && Called(s, t, QueryOf(props, txID, v), reply.out)
  {
    assert Leads(s, [], s);
    hide TextKindOf, Inv, Leads, Alone, Fails, C.NewID, FirstBad, ItemOf;
    ItemIs(v);
    ghost var me: Local;
    reply, me := ExecuteRequestQuery(db, txID, props, v, w, s);
    ls, t := [], s;
    if ItemOf(v).Good? {
      ghost var q := QueryOf(props, txID, v);
      ls := CallLeadsOn(s, q, Turn(db.Abs(), me));
      CallStaysCall(Arrived(s.sh, q), q, Turn(db.Abs(), me));
      t := State(db.Abs(), s.procs + [me]);
    }
  }

  /** The first k queries that are asked of the database, by their places in the list. */
  ghost function Asked(queries: seq<VdlQuery>, k: nat): seq<nat>
    requires k <= |queries|
  {
    if k == 0 then []
    else Asked(queries, k - 1) + if ItemOf(queries[k - 1]).Good? then [k - 1] else []
  }

  /** The goroutines that t has and s has not are the calls of the first k queries that can be asked, in
      order, each finished with the result that is listed for it; the others are listed as errors. */
  ghost predicate Accounted(s: State, t: State, props: Props, ids: seq<Name>, queries: seq<VdlQuery>,
      results: seq<bool>)
    requires |ids| == |queries| >= |results|
  {
    var asked := Asked(queries, |results|);
    && (forall k :: 0 <= k < |results| && results[k] ==> ItemOf(queries[k]).Good?)
    && |t.procs| == |s.procs| + |asked| && s.procs <= t.procs
    && forall i :: 0 <= i < |asked| ==> CallOf(t.procs[|s.procs| + i], props, ids, queries, results, asked[i])
  }

  ghost predicate CallOf(me: Local, props: Props, ids: seq<Name>, queries: seq<VdlQuery>, results: seq<bool>, k: nat)
    requires |ids| == |queries|
  {
    k < |results| && k < |queries| && me.q == QueryOf(props, ids[k], queries[k]) && me.pc == AtCall(Done(results[k]))
  }

  lemma CallOfMore(me: Local, props: Props, ids: seq<Name>, queries: seq<VdlQuery>, results: seq<bool>, r: bool, k: nat)
    requires |ids| == |queries| && CallOf(me, props, ids, queries, results, k)
    ensures CallOf(me, props, ids, queries, results + [r], k)
  {
    hide TextKindOf, QueryOf;
  }

  lemma AskedOneMore(queries: seq<VdlQuery>, k: nat)
    requires k < |queries|
    ensures Asked(queries, k + 1) == if ItemOf(queries[k]).Good? then Asked(queries, k) + [k] else Asked(queries, k)
  {
    hide ItemOf;
  }

  lemma AccountedOn(s: State, t: State, u: State, props: Props, ids: seq<Name>, queries: seq<VdlQuery>,
                    results: seq<bool>, reply: Reply)
    requires |ids| == |queries| > |results| && Accounted(s, t, props, ids, queries, results) && !reply.Waits()
    requires var k := |results|;
             if ItemOf(queries[k]).Bad? then !reply.FromDb? && u == t
             else reply.FromDb? && Called(t, u, QueryOf(props, ids[k], queries[k]), reply.out)
    ensures Accounted(s, u, props, ids, queries, results + [reply.Answers()])
  {
    hide TextKindOf, QueryOf, Asked, ItemOf;
    var k := |results|;
    var more := results + [reply.Answers()];
    var asked := Asked(queries, k);
    AskedOneMore(queries, k);
    assert forall j :: 0 <= j < |more| && more[j] ==> ItemOf(queries[j]).Good? by {
      assert forall j :: 0 <= j < k ==> more[j] == results[j];
      hide CallOf;
    }
    assert s.procs <= t.procs <= u.procs;
    forall i | 0 <= i < |asked| ensures CallOf(u.procs[|s.procs| + i], props, ids, queries, more, asked[i]) {
      assert u.procs[|s.procs| + i] == t.procs[|s.procs| + i];
      CallOfMore(t.procs[|s.procs| + i], props, ids, queries, results, reply.Answers(), asked[i]);
    }
    if ItemOf(queries[k]).Good? {
      assert CallOf(u.procs[|t.procs|], props, ids, queries, more, k);
    }
    hide CallOf;
  }

  /** One result for each query, in order, unless a query has to wait for txMu: the list is a run of the
      step system in which the queries are asked one after the other and end with these results. */
  method ExecuteQueries(db: Database, props: Props, ids: seq<Name>, queries: seq<VdlQuery>, ws: seq<C.Responses>,
                        ghost s: State)
    returns (results: seq<bool>, waits: bool, ghost ls: seq<Label>, ghost t: State, ghost last: State)
    requires At(db, s) && |ws| == |queries| == |ids| && forall k :: 0 <= k < |ws| ==> Readers(s.sh, ws[k])
    requires Draws(s.sh.log, ids, ws)
    modifies db
    ensures |results| <= |queries|
    ensures At(db, last) && Leads(s, ls, last) && Accounted(s, t, props, ids, queries, results)
    ensures if waits then |results| < |queries|
        && Called(t, last, QueryOf(props, ids[|results|], queries[|results|]), Waits)
            else |results| == |queries| && last == t
  {
    results, ls, t := [], [], s;
    assert Leads(s, ls, t) && Remaining(s.sh.log, ids, ws, 0) && Accounted(s, t, props, ids, queries, results);
    hide TextKindOf, Inv, Leads, OnlyWaiting, Accounted, Called, QueryOf, ItemOf;
    for k := 0 to |queries|
      invariant At(db, t) && Leads(s, ls, t) && |results| == k && |t.sh.ro| == |s.sh.ro|
      invariant Remaining(t.sh.log, ids, ws, k) && Accounted(s, t, props, ids, queries, results)
    {
      var reply: Reply;
      ghost var more, u;
      reply, more, u := ExecuteNext(db, ids[k], props, queries[k], ws[k], t);
      RemainingOn(t.sh.log, s.sh.log, u.sh.log, ids, ws, k);
      LeadsCompose(s, ls, t, more, u);
      ls := ls + more;
      if reply.Waits() {
        return results, true, ls, t, u;
      }
      AccountedOn(s, t, u, props, ids, queries, results, reply);
      t := u;
      results := results + [reply.Answers()];
    }
    waits, last := false, t;
  }

  // ---- executeRQLiteQueries ----

  lemma {:induction false} EvolvesCompose(x: World, a: seq<Step>, y: World, b: seq<Step>, z: World)
    requires Evolves(x, a, y) && Evolves(y, b, z)
    ensures Evolves(x, a + b, z)
    decreases |a|
  {
    if a == [] {
      assert a + b == b;
    } else {
      EvolvesCompose(Do(x, a[0]), a[1..], y, b, z);
      assert (a + b)[1..] == a[1..] + b;
    }
  }

  lemma EvolvesOne(x: World, a: Step)
    requires StepEnabled(x, a)
    ensures Evolves(x, [a], Do(x, a))
  {
    assert [a][1..] == [];
    assert Evolves(Do(x, a), [], Do(x, a));
  }

  /** A goroutine running alone is a run of the batch's world. */
  lemma {:induction false} PathEvolves(x: World, pid: nat, cs: seq<Choice>, t: Turn) returns (steps: seq<Step>)
    requires pid < |x.s.procs| && Path(x.s.sh, x.s.procs[pid], cs, t)
    ensures Evolves(x, steps, x.(s := State(t.sh, x.s.procs[pid := t.me])))
    decreases |cs|
  {
    if cs == [] {
      steps := [];
      assert x.s.procs[pid := t.me] == x.s.procs;
    } else {
      var a := Other(Run(pid, cs[0]));
      var y := Do(x, a);
      steps := PathEvolves(y, pid, cs[1..], t);
      assert y.s.procs[pid := t.me] == x.s.procs[pid := t.me];
      EvolvesOne(x, a);
      EvolvesCompose(x, [a], y, steps, x.(s := State(t.sh, x.s.procs[pid := t.me])));
      steps := [a] + steps;
    }
  }

  /** The batch has come from x to y, which is where the database is. */
  ghost predicate Batching(db: Database, x: World, steps: seq<Step>, y: World)
    reads db
  {
    Evolves(x, steps, y) && BatchInv(y) && At(db, y.s)
  }

  ghost function Arriving(x: World, q: Query, me: Local, sh: Shared, st: Stage): World {
    World(State(sh, x.s.procs + [me]), x.d.(stage := st))
  }

  /** The batch sends a call, the call runs alone to its end, the batch receives the result. */
  lemma CallEvolves(x: World, before: seq<Step>, y: World, q: Query, st: Stage, t: Turn) returns (steps: seq<Step>)
    requires Evolves(x, before, y) && BatchInv(y) && OnlyWaiting(y.s) && StepEnabled(y, Send)
    requires SendStep(y) == Sent(y, q, st) && IsOwn(st, |y.s.procs|)
    requires Alone(Arrived(y.s.sh, q), Caller(q), t) && Finished(t.me.pc)
    ensures var z := Arriving(y, q, t.me, t.sh, st);
            && StepEnabled(z, Receive) && Evolves(x, steps, ReceiveStep(z)) && BatchInv(ReceiveStep(z))
            && OnlyWaiting(z.s)
  {
    hide Inv, NamedOk, StageOk, Private, Faithful, CallFor;
    var n := SendStep(y);
    EvolvesOne(y, Send);
    BatchNext(y, Send);
    EvolvesCompose(x, before, y, [Send], n);
    var cs :| Path(Arrived(y.s.sh, q), Caller(q), cs, t);
    var more := PathEvolves(n, |y.s.procs|, cs, t);
    var z := Arriving(y, q, t.me, t.sh, st);
    assert n.s.procs[|y.s.procs| := t.me] == z.s.procs;
    BatchAlways(n, more, z);
    EvolvesCompose(x, before + [Send], n, more, z);
    assert IsOwn(z.d.stage, |y.s.procs|) && Finished(z.s.procs[|y.s.procs|].pc);
    EvolvesOne(z, Receive);
    BatchNext(z, Receive);
    steps := before + [Send] + more + [Receive];
    EvolvesCompose(x, before + [Send] + more, z, [Receive], ReceiveStep(z));
  }

  /** The world in which the batch has just sent its BEGIN. */
  ghost function Opening(s: State, job: Job): World
    requires !s.sh.stopped
  {
    World(Next(s, Arrive(Batch.BeginCall(job))), Driver(job, Beginning(|s.procs|), NONE, []))
  }

  lemma OpeningStarts(s: State, job: Job)
    requires Reachable(s) && !s.sh.stopped && |job.items| > 0
    ensures Starts(Opening(s, job)) && BatchInv(Opening(s, job))
  {
    assert Starts(Opening(s, job));
    StartsOk(Opening(s, job));
  }

  /** The goroutine of the BEGIN runs alone for a while. */
  lemma BeginEvolves(x: World, before: seq<Step>, y: World, pid: nat, t: Turn) returns (steps: seq<Step>)
    requires Evolves(x, before, y) && BatchInv(y) && y.d.stage == Beginning(pid) && pid < |y.s.procs|
    requires Alone(y.s.sh, y.s.procs[pid], t)
    ensures var z := y.(s := State(t.sh, y.s.procs[pid := t.me])); Evolves(x, steps, z) && BatchInv(z)
  {
    hide Inv, NamedOk, StageOk, Private, Faithful;
    var cs :| Path(y.s.sh, y.s.procs[pid], cs, t);
    var more := PathEvolves(y, pid, cs, t);
    var z := y.(s := State(t.sh, y.s.procs[pid := t.me]));
    BatchAlways(y, more, z);
    EvolvesCompose(x, before, y, more, z);
    steps := before + more;
  }

  /** The batch receives the result of the BEGIN. */
  lemma BeginReceived(x: World, before: seq<Step>, y: World, pid: nat) returns (steps: seq<Step>)
    requires Evolves(x, before, y) && BatchInv(y) && y.d.stage == Beginning(pid) && pid < |y.s.procs|
    requires Finished(y.s.procs[pid].pc)
    ensures StepEnabled(y, Receive) && Evolves(x, steps, ReceiveStep(y)) && BatchInv(ReceiveStep(y))
  {
    assert IsOwn(y.d.stage, pid);
    hide BatchInv;
    EvolvesOne(y, Receive);
    BatchNext(y, Receive);
    EvolvesCompose(x, before, y, [Receive], ReceiveStep(y));
    steps := before + [Receive];
  }

  /** Where the batch stands after its BEGIN, answered, refused or waiting. */
  ghost predicate Begun(y: World, job: Job, out: Outcome) {
    && y.d.job == job
    && match out
       case Answer(newID) => y.d.stage == Ready(0) && y.d.id == newID && y.d.results == []
       case Error(_) => y.d.stage.Over? && y.d.results == [false]
       case Waits => y.d.stage.Beginning? && y.d.stage.pid < |y.s.procs| &&
                     y.s.procs[y.d.stage.pid].pc == AtBegin(BeginLock) && y.d.results == []
  }

  /** From the end of the BEGIN's stretch to what the batch makes of it. */
  lemma BeginSettles(x: World, before: seq<Step>, y: World, pid: nat, job: Job, out: Outcome)
    returns (steps: seq<Step>, z: World)
    requires Evolves(x, before, y) && BatchInv(y) && y.d.stage == Beginning(pid) && y.d.job == job && pid < |y.s.procs|
    requires if out.Waits? then WaitsForTx(y.s.procs[pid].pc)
             else y.s.procs[pid].pc == AtCall(Done(out.Answer?)) && (out.Answer? ==> out.newID == y.s.procs[pid].newID)
    ensures Evolves(x, steps, z) && BatchInv(z) && Begun(z, job, out) && z.s == y.s
  {
    if out.Waits? {
      steps, z := before, y;
    } else {
      steps := BeginReceived(x, before, y, pid);
      z := ReceiveStep(y);
    }
    hide Inv, NamedOk, Private, Faithful;
  }

  /** A goroutine that is added and ends or waits leaves the others where they are. */
  lemma StillWaiting(s: State, t: State)
    requires OnlyWaiting(s) && |t.procs| == |s.procs| + 1 && s.procs <= t.procs
    requires Finished(t.procs[|s.procs|].pc) || WaitsForTx(t.procs[|s.procs|].pc)
    ensures OnlyWaiting(t)
  {
    assert forall i :: 0 <= i < |s.procs| ==> t.procs[i] == s.procs[i];
  }

  /** What the BEGIN of a batch, run alone to its end or to its wait, leads to. */
  lemma BatchBegins(s: State, job: Job, t: Turn, out: Outcome) returns (steps: seq<Step>, y: World)
    requires Reachable(s) && OnlyWaiting(s) && !s.sh.stopped && |job.items| > 0
    requires Alone(Arrived(s.sh, Batch.BeginCall(job)), Caller(Batch.BeginCall(job)), t)
    requires if out.Waits? then WaitsForTx(t.me.pc)
             else t.me.pc == AtCall(Done(out.Answer?)) && (out.Answer? ==> out.newID == t.me.newID)
    ensures Starts(Opening(s, job)) && Evolves(Opening(s, job), steps, y) && BatchInv(y)
    ensures y.s == State(t.sh, s.procs + [t.me]) && OnlyWaiting(y.s) && Inv(y.s) && Begun(y, job, out)
  {
    OpeningStarts(s, job);
    hide Inv, Alone, Reachable, NamedOk, StageOk, Private, Faithful, Starts, Begun;
    var x, pid := Opening(s, job), |s.procs|;
    assert Evolves(x, [], x);
    steps := BeginEvolves(x, [], x, pid, t);
    var z := x.(s := State(t.sh, x.s.procs[pid := t.me]));
    steps, y := BeginSettles(x, steps, z, pid, job, out);
    assert z.s.procs == s.procs + [t.me];
    StillWaiting(s, z.s);
  }

  /** BEGIN, as the first request of the batch. */
  method BeginBatch(db: Database, props: Props, w: C.Responses, ghost s: State, ghost job: Job)
    returns (out: Outcome, ghost steps: seq<Step>, ghost y: World)
    requires At(db, s) && Reachable(s) && Readers(s.sh, w) && C.NewID(s.sh.log, w.exec)
    requires |job.items| > 0 && job.owner == props.owner && job.role == props.role
    modifies db
    ensures Starts(Opening(s, job)) && Batching(db, Opening(s, job), steps, y) && |db.ro| == |s.sh.ro|
    ensures Begun(y, job, out) && (out.Waits? ==> s.sh.txMu)
  {
    ControlTexts();
    hide TextKindOf, Inv, Alone, Reachable, Starts, Begun, Evolves, OnlyWaiting, BatchInv, Opening, C.NewID;
    ghost var me: Local;
    var reply: Reply;
    reply, me := ExecuteRequestQuery(db, NONE, props, VdlQuery("BEGIN", [], NoStmt()), w, s);
    out := reply.out;
    steps, y := BatchBegins(s, job, Turn(db.Abs(), me), out);
  }

  /** A BEGIN of a batch that had to wait tries again. */
  method ResumeBatch(db: Database, props: Props, env: Operations.Env,
                     ghost x: World, ghost before: seq<Step>, ghost y: World)
    returns (out: Outcome, ghost steps: seq<Step>, ghost z: World)
    requires Batching(db, x, before, y) && Begun(y, y.d.job, Waits) && C.NewID(y.s.sh.log, env)
    requires y.d.job.owner == props.owner && y.d.job.role == props.role
    modifies db
    ensures Batching(db, x, steps, z) && |db.ro| == |y.s.sh.ro|
    ensures Begun(z, y.d.job, out) && (out.Waits? <==> y.s.sh.txMu)
  {
    WaitingIsFree(y.s);
    ghost var pid := y.d.stage.pid;
    ghost var me := y.s.procs[pid];
    ghost var t := C.BeginLocked(y.s.sh, me, env);
    CallFrames.BeginLockedTidy(y.s.sh, me, env);
    hide C.BeginLocked, Alone, Inv, NamedOk, Private, Faithful, Begun;
    out := db.ResumeBegin(props.role, props.owner, env, me);
    steps := BeginEvolves(x, before, y, pid, t);
    ghost var u := y.(s := State(t.sh, y.s.procs[pid := t.me]));
    steps, z := BeginSettles(x, steps, u, pid, y.d.job, out);
    assert forall i :: 0 <= i < |y.s.procs| && i != pid ==> u.s.procs[i] == y.s.procs[i];
    assert OnlyWaiting(z.s);
  }

  /** What the batch knows after a call of this stage. */
  ghost function Received(d: Driver, st: Stage, ok: bool): Driver
    requires st.Awaiting? || st.Undoing?
  {
    match st
    case Awaiting(k, _) =>
      if k == |d.job.items| then d.(stage := Over, results := if ok then d.results else d.results + [false])
      else if ok then d.(stage := Ready(k + 1), results := d.results + [true])
      else d.(stage := Abort(k), results := d.results + [false])
    case Undoing(_, _) => d.(stage := Over)
  }

  /** A request of the batch that names its transaction: a statement of the list, COMMIT or ROLLBACK. */
  method AskInBatch(db: Database, props: Props, txID: Name, v: VdlQuery, w: C.Responses,
                    ghost x: World, ghost before: seq<Step>, ghost y: World, ghost st: Stage)
    returns (ok: bool, ghost steps: seq<Step>, ghost z: World)
    requires Batching(db, x, before, y) && Readers(y.s.sh, w)
    requires y.d.job.owner == props.owner && y.d.job.role == props.role && txID == y.d.id != NONE
    requires ItemOf(v).Good? && StepEnabled(y, Send) && (st.Awaiting? || st.Undoing?) && IsOwn(st, |y.s.procs|)
    requires SendStep(y) == Sent(y, Query(txID, props.owner, TextKindOf(v.text), v.stmt, props.role), st)
    modifies db
    ensures Batching(db, x, steps, z) && |db.ro| == |y.s.sh.ro|
    ensures z.d == Received(y.d, st, ok)
    ensures Called(y.s, z.s, Query(txID, props.owner, TextKindOf(v.text), v.stmt, props.role),
                   if ok then Answer(NONE) else Error(Refused))
  {
    hide TextKindOf, Inv, Alone, NamedOk, StageOk, Private, Faithful, SendStep;
    ghost var q := Query(txID, props.owner, TextKindOf(v.text), v.stmt, props.role);
    ghost var me: Local;
    var reply: Reply;
    reply, me := ExecuteRequestQuery(db, txID, props, v, w, y.s);
    ok := reply.Answers();
    CallStaysCall(Arrived(y.s.sh, q), q, Turn(db.Abs(), me));
    steps := CallEvolves(x, before, y, q, st, Turn(db.Abs(), me));
    ghost var arrived := Arriving(y, q, me, db.Abs(), st);
    z := ReceiveStep(arrived);
    assert arrived.s.procs[|y.s.procs|] == me;
  }

  /** Statement k of the list. */
  method TryStatement(db: Database, props: Props, txID: Name, v: VdlQuery, w: C.Responses, ghost k: nat,
                      ghost x: World, ghost before: seq<Step>, ghost y: World)
    returns (ok: bool, ghost steps: seq<Step>, ghost z: World)
    requires Batching(db, x, before, y) && Readers(y.s.sh, w)
    requires y.d.job.owner == props.owner && y.d.job.role == props.role && txID == y.d.id
    requires y.d.stage == Ready(k) && k < |y.d.job.items| && ItemOf(v) == y.d.job.items[k]
    modifies db
    ensures Batching(db, x, steps, z) && |db.ro| == |y.s.sh.ro|
    ensures z.d == Received(y.d, Awaiting(k, 0), ok)
    ensures v.text == "" || !(forall i :: 0 <= i < |v.params| ==> Values.Converted(v.params[i].value).Ok?) ==>
      !ok && z.s == y.s && z.d.stage == Abort(k) && z.d.results == y.d.results + [false]
    ensures v.text != "" && (forall i :: 0 <= i < |v.params| ==> Values.Converted(v.params[i].value).Ok?) ==>
      Called(y.s, z.s, Query(txID, props.owner, TextKindOf(v.text), v.stmt, props.role),
             if ok then Answer(NONE) else Error(Refused))
  {
    hide TextKindOf, Inv, Alone, NamedOk, StageOk, Private, Faithful, Evolves, OnlyWaiting;
    var wrong := Check(v);
    if wrong.Some? {
      EvolvesOne(y, Send);
      BatchNext(y, Send);
      EvolvesCompose(x, before, y, [Send], SendStep(y));
      return false, before + [Send], SendStep(y);
    }
    ok, steps, z := AskInBatch(db, props, txID, v, w, x, before, y, Awaiting(k, |y.s.procs|));
  }

  /** The COMMIT or the ROLLBACK at the end of the batch. */
  method EndBatch(db: Database, props: Props, txID: Name, commit: bool, w: C.Responses, ghost k: nat,
                  ghost x: World, ghost before: seq<Step>, ghost y: World)
    returns (ok: bool, ghost steps: seq<Step>, ghost z: World)
    requires Batching(db, x, before, y) && Readers(y.s.sh, w)
    requires y.d.job.owner == props.owner && y.d.job.role == props.role && txID == y.d.id
    requires y.d.stage == if commit then Ready(k) else Abort(k)
    requires commit ==> k == |y.d.job.items|
    modifies db
    ensures Batching(db, x, steps, z)
    ensures z.d == Received(y.d, if commit then Awaiting(k, 0) else Undoing(k, 0), ok)
  {
    ControlTexts();
    hide TextKindOf, Inv, Alone, NamedOk, StageOk, Private, Faithful, Evolves, OnlyWaiting;
    if commit {
      ok, steps, z := AskInBatch(db, props, txID, VdlQuery("COMMIT", [], NoStmt()), w, x, before, y,
                                 Awaiting(k, |y.s.procs|));
    } else {
      ok, steps, z := AskInBatch(db, props, txID, VdlQuery("ROLLBACK", [], NoStmt()), w, x, before, y,
                                 Undoing(k, |y.s.procs|));
    }
  }

  /** The statements of the list, up to the first error. */
  method RunStatements(db: Database, props: Props, txID: Name, queries: seq<VdlQuery>, ws: seq<C.Responses>,
                       ghost x: World, ghost before: seq<Step>, ghost y: World)
    returns (results: seq<bool>, ok: bool, ghost steps: seq<Step>, ghost z: World)
    requires Batching(db, x, before, y) && |ws| == |queries| && AllReaders(y.s.sh, ws)
    requires y.d.job == JobOf(props, queries) && y.d.stage == Ready(0) && y.d.id == txID && y.d.results == []
    modifies db
    ensures Batching(db, x, steps, z) && |db.ro| == |y.s.sh.ro|
    ensures z.d.job == y.d.job && z.d.id == txID && z.d.results == results
    ensures if ok then z.d.stage == Ready(|queries|) else results != [] && z.d.stage == Abort(|results| - 1)
  {
    hide Inv, BatchInv, Evolves, OnlyWaiting, Readers, AllReaders;
    results, steps, z := [], before, y;
    for k := 0 to |queries|
      invariant Batching(db, x, steps, z) && |db.ro| == |y.s.sh.ro|
      invariant z.d.job == y.d.job && z.d.stage == Ready(k) && z.d.id == txID && z.d.results == results
      invariant |results| == k
    {
      ReadersStay(y.s.sh, z.s.sh, ws, k);
      ok, steps, z := TryStatement(db, props, txID, queries[k], ws[k], k, x, steps, z);
      results := results + [ok];
      if !ok {
        return;
      }
    }
    ok := true;
  }

  /** The batch once its BEGIN has come to something. */
  method FinishBatch(db: Database, props: Props, begin: Outcome, queries: seq<VdlQuery>, ws: seq<C.Responses>,
                     last: C.Responses, ghost x: World, ghost before: seq<Step>, ghost y: World)
    returns (results: seq<bool>, ghost steps: seq<Step>, ghost z: World)
    requires Batching(db, x, before, y) && Begun(y, JobOf(props, queries), begin)
    requires |ws| == |queries| && AllReaders(y.s.sh, ws) && Readers(y.s.sh, last)
    modifies db
    ensures Batching(db, x, steps, z)
    ensures if begin.Waits? then results == [] && z == y else z.d.stage.Over? && z.d.results == results
  {
    hide Inv, BatchInv, Evolves, OnlyWaiting;
    if begin.Waits? {
      return [], before, y;
    }
    if begin.Error? {
      return [false], before, y;
    }
    var txID := begin.newID;
    var ok: bool;
    results, ok, steps, z := RunStatements(db, props, txID, queries, ws, x, before, y);
    if !ok {
      ok, steps, z := EndBatch(db, props, txID, false, last, |results| - 1, x, steps, z);
      return;
    }
    ok, steps, z := EndBatch(db, props, txID, true, last, |queries|, x, steps, z);
    if !ok {
      results := results + [false];
    }
  }

  /** The list as one transaction: the results, and the run of the batch that gives them; or a wait for
      txMu.  The responses are those to BEGIN, to the statements, and to the COMMIT or ROLLBACK. */
  method ExecuteRQLiteQueries(db: Database, props: Props, queries: seq<VdlQuery>, first: C.Responses,
                              ws: seq<C.Responses>, last: C.Responses, ghost s: State)
    returns (results: seq<bool>, waits: bool, ghost steps: seq<Step>, ghost y: World)
    requires At(db, s) && Reachable(s) && |queries| > 0
    requires Readers(s.sh, first) && |ws| == |queries| && AllReaders(s.sh, ws) && Readers(s.sh, last)
    requires C.NewID(s.sh.log, first.exec)
    modifies db
    ensures Starts(Opening(s, JobOf(props, queries))) && Batching(db, Opening(s, JobOf(props, queries)), steps, y)
    ensures waits ==> s.sh.txMu
    ensures if waits then results == [] && Begun(y, JobOf(props, queries), Waits)
            else y.d.stage.Over? && y.d.results == results
  {
    hide Inv, Reachable, BatchInv, Evolves, Starts, OnlyWaiting, Opening, C.NewID, Begun;
    var begin: Outcome;
    begin, steps, y := BeginBatch(db, props, first, s, JobOf(props, queries));
    waits := begin.Waits?;
    results, steps, y := FinishBatch(db, props, begin, queries, ws, last, Opening(s, JobOf(props, queries)), steps, y);
  }

  /** The same from a wait on. */
  method ContinueRQLiteQueries(db: Database, props: Props, queries: seq<VdlQuery>, env: Operations.Env,
                               ws: seq<C.Responses>, last: C.Responses,
                               ghost x: World, ghost before: seq<Step>, ghost y: World)
    returns (results: seq<bool>, waits: bool, ghost steps: seq<Step>, ghost z: World)
    requires Batching(db, x, before, y) && Begun(y, JobOf(props, queries), Waits)
    requires |ws| == |queries| && AllReaders(y.s.sh, ws) && Readers(y.s.sh, last) && C.NewID(y.s.sh.log, env)
    modifies db
    ensures Batching(db, x, steps, z)
    ensures waits <==> y.s.sh.txMu
    ensures if waits then results == [] && Begun(z, JobOf(props, queries), Waits)
            else z.d.stage.Over? && z.d.results == results
  {
    assert y.d.job == JobOf(props, queries);
    hide Inv, BatchInv, Evolves, OnlyWaiting, C.NewID, Begun;
    var begin: Outcome;
    begin, steps, z := ResumeBatch(db, props, env, x, before, y);
    waits := begin.Waits?;
    results, steps, z := FinishBatch(db, props, begin, queries, ws, last, x, steps, z);
  }

  ghost predicate AllReaders(sh: Shared, ws: seq<C.Responses>) {
    forall k :: 0 <= k < |ws| ==> Readers(sh, ws[k])
  }

  lemma ReadersStay(sh: Shared, sh': Shared, ws: seq<C.Responses>, k: nat)
    requires |sh'.ro| == |sh.ro| && AllReaders(sh, ws) && k < |ws|
    ensures Readers(sh', ws[k])
  {
  }

  /** All or nothing for the list as it was sent: if one of its queries is empty or has a parameter that cannot
      be converted, and none before it starts with COMMIT, nothing of the list is ever committed as a block. */
  lemma BadQueryNeverCommits(s: State, props: Props, queries: seq<VdlQuery>, k: nat, steps: seq<Step>, y: World)
    requires Reachable(s) && !s.sh.stopped && k < |queries|
    requires queries[k].text == "" || exists p :: p in queries[k].params && Values.Converted(p.value).Err?
    requires forall j :: 0 <= j < k ==> !StartsWith(queries[j].text, "commit")
    requires Evolves(Opening(s, JobOf(props, queries)), steps, y) && Secret(y) != NONE
    ensures !CommittedIn(y.s.sh.log.trace, Secret(y)) && OfTx(Secret(y)) !in Units(y.s.sh.log.trace)
  {
    var x := Opening(s, JobOf(props, queries));
    OpeningStarts(s, JobOf(props, queries));
    forall item | item in x.d.job.items[..k] ensures !IsCommit(item) {
      var j :| 0 <= j < k && item == x.d.job.items[..k][j];
      Recognised(queries[j].text);
      assert item == ItemOf(queries[j]);
    }
    if queries[k].text != "" {
      var p :| p in queries[k].params && Values.Converted(p.value).Err?;
      var i :| 0 <= i < |queries[k].params| && queries[k].params[i] == p;
      assert !Convertible(queries[k].params);
    }
    assert x.d.job.items[k] == ItemOf(queries[k]);
    hide Starts, Evolves, Reachable, ItemOf, TextKindOf, StartsWith;
    BadItemNeverCommits(x, steps, y, k);
  }
}
