/**
 Closed forms: what the stretches of code of internal/db/db.go amount to when their goroutine runs
 alone.  Each function gives the shared state afterwards; the lemma beside it shows that the step
 system gets there.
 */
module Operations {
  import opened History
  import opened Protocol
  import opened Solo
  import opened Sqlite

  /** What the rest of the world answers during one use of a connection: whether the pool hands it
      out, whether SQLite finds nothing wrong with the statement, what a classification finds,
      which read-only connection it is, which UUID is drawn. */
  datatype Env = Env(pool: bool, healthy: bool, verdict: Verdict, reader: nat, uuid: Name) {
    function Take(): Choice { Choice(pool, verdict, reader, uuid) }
    function Exec(): Choice { Choice(healthy, verdict, reader, uuid) }
  }

  /** Query counts an error. */
  ghost function Failing(sh: Shared): Shared {
    sh.(stats := sh.stats.(errorCount := sh.stats.errorCount + 1))
  }

  // ---- withReadWriteConn and classification on the read-write connection ----

  predicate RwOk(conn: Conn, role: Role, stmt: Stmt, env: Env) {
    env.pool && conn.(role := role).Succeeds(stmt, env.healthy)
  }

  function RwConnAfter(conn: Conn, role: Role, stmt: Stmt, writes: bool, env: Env): Conn {
    if !env.pool then conn
    else if RwOk(conn, role, stmt, env) then conn.(role := role).After(stmt, writes)
    else conn.(role := role)
  }

  ghost function RwAfter(sh: Shared, me: Local, op: RwOp, env: Env): Shared
    requires !op.OpClassify?
  {
    var role := RwRole(me, op);
    var after := sh.(conn := RwConnAfter(sh.conn, role, StmtFor(me, op), op.OpWrite?, env));
    if RwOk(sh.conn, role, StmtFor(me, op), env) && !op.OpBegin? then
      Record(after, EventFor(sh.(conn := sh.conn.(role := role)), me, op))
    else after
  }

  lemma RwNoPool(sh: Shared, me: Local, op: RwOp, env: Env)
    requires me.pc == AtRw(op, RwLock) && !sh.writeMu && !env.pool
    ensures Alone(sh, me, Turn(sh, AfterRw(me, op, Failed)))
  {
    AloneStep(sh, me, env.Take());
    var t := Act(sh, me, env.Take());
    AloneOn(sh, me, t, env.Take());
    t := Act(t.sh, t.me, env.Take());
    AloneOn(sh, me, t, env.Take());
    t := Act(t.sh, t.me, env.Take());
    assert t.sh == sh;
  }

  lemma RwSucceeds(sh: Shared, me: Local, op: RwOp, env: Env)
    requires me.pc == AtRw(op, RwExec) && !op.OpClassify? && sh.writeMu && sh.conn.role == RwRole(me, op)
    requires RwOk(sh.conn, RwRole(me, op), StmtFor(me, op), env)
    ensures Alone(sh, me, Turn(RwAfter(sh, me, op, env).(writeMu := false), AfterRw(me, op, Fine)))
  {
    assert sh.conn.(role := RwRole(me, op)) == sh.conn;
    AloneStep(sh, me, env.Exec());
    AloneOn(sh, me, Act(sh, me, env.Exec()), env.Take());
  }

  lemma RwFails(sh: Shared, me: Local, op: RwOp, env: Env)
    requires me.pc == AtRw(op, RwExec) && !op.OpClassify? && sh.writeMu && sh.conn.role == RwRole(me, op)
    requires env.pool && !RwOk(sh.conn, RwRole(me, op), StmtFor(me, op), env)
    ensures Alone(sh, me, Turn(RwAfter(sh, me, op, env).(writeMu := false), AfterRw(me, op, Failed)))
  {
    assert sh.conn.(role := RwRole(me, op)) == sh.conn;
    AloneStep(sh, me, env.Exec());
    AloneOn(sh, me, Act(sh, me, env.Exec()), env.Take());
  }

  lemma RwSection(sh: Shared, me: Local, op: RwOp, env: Env)
    requires me.pc == AtRw(op, RwLock) && !op.OpClassify? && !sh.writeMu
    ensures Alone(sh, me, Turn(RwAfter(sh, me, op, env),
                               AfterRw(me, op, if RwOk(sh.conn, RwRole(me, op), StmtFor(me, op), env) then Fine
                                               else Failed)))
  {
    if !env.pool {
      RwNoPool(sh, me, op, env);
    } else {
      AloneStep(sh, me, env.Take());
      var t := Act(sh, me, env.Take());
      AloneOn(sh, me, t, env.Take());
      t := Act(t.sh, t.me, env.Take());
      assert t == Turn(sh.(writeMu := true, conn := sh.conn.(role := RwRole(me, op))), me.(pc := AtRw(op, RwExec)));
      if RwOk(t.sh.conn, RwRole(t.me, op), StmtFor(t.me, op), env) {
        RwSucceeds(t.sh, t.me, op, env);
      } else {
        RwFails(t.sh, t.me, op, env);
      }
      RwSame(sh, me, t.sh, t.me, op, env);
      RwGoesOn(me, t.me.pc, op, Fine);
      RwGoesOn(me, t.me.pc, op, Failed);
      hide RwAfter, AfterRw;
      AloneThen(sh, me, t, Turn(RwAfter(sh, me, op, env), AfterRw(me, op,
        if RwOk(sh.conn, RwRole(me, op), StmtFor(me, op), env) then Fine else Failed)));
    }
  }

  /** The lock and the role that RwAfter sets anyway make no difference to it. */
  lemma RwSame(sh: Shared, me: Local, sh': Shared, me': Local, op: RwOp, env: Env)
    requires !op.OpClassify? && env.pool && !sh.writeMu
    requires sh' == sh.(writeMu := true, conn := sh.conn.(role := RwRole(me, op)))
    requires me' == me.(pc := me'.pc)
    ensures RwAfter(sh', me', op, env).(writeMu := false) == RwAfter(sh, me, op, env)
    ensures RwOk(sh'.conn, RwRole(me', op), StmtFor(me', op), env) ==
        RwOk(sh.conn, RwRole(me, op), StmtFor(me, op), env)
  {
    ConnSame(sh.conn, RwRole(me, op), StmtFor(me, op), op.OpWrite?, env);
    assert RwRole(me', op) == RwRole(me, op) && StmtFor(me', op) == StmtFor(me, op);
    var role := RwRole(me, op);
    assert sh.conn.(role := role).(role := role) == sh.conn.(role := role);
    assert !op.OpBegin? ==>
      EventFor(sh'.(conn := sh'.conn.(role := role)), me', op) == EventFor(sh.(conn := sh.conn.(role := role)), me, op);
    hide RwConnAfter, RwOk, EventFor, RwRole, StmtFor;
  }

  lemma ConnSame(conn: Conn, role: Role, stmt: Stmt, writes: bool, env: Env)
    requires env.pool
    ensures RwOk(conn.(role := role), role, stmt, env) == RwOk(conn, role, stmt, env)
    ensures RwConnAfter(conn.(role := role), role, stmt, writes, env) == RwConnAfter(conn, role, stmt, writes, env)
  {
    assert conn.(role := role).(role := role) == conn.(role := role);
  }

  lemma RwGoesOn(me: Local, pc: PC, op: RwOp, v: Verdict)
    ensures AfterRw(me.(pc := pc), op, v) == AfterRw(me, op, v)
  {
  }

  lemma ClassifySection(sh: Shared, me: Local, env: Env)
    requires me.pc == AtRw(OpClassify, RwLock) && !sh.writeMu
    ensures Alone(sh, me, Turn(if env.pool then sh.(conn := sh.conn.(role := Admin)) else sh,
                               AfterRw(me, OpClassify, if env.pool then env.verdict else Failed)))
  {
    if !env.pool {
      RwNoPool(sh, me, OpClassify, env);
    } else {
      AloneStep(sh, me, env.Take());
      var t := Act(sh, me, env.Take());
      AloneOn(sh, me, t, env.Take());
      t := Act(t.sh, t.me, env.Take());
      AloneOn(sh, me, t, env.Take());
      t := Act(t.sh, t.me, env.Take());
      AloneOn(sh, me, t, env.Take());
      t := Act(t.sh, t.me, env.Take());
      assert t.sh == sh.(conn := sh.conn.(role := Admin));
    }
  }

  // ---- BEGIN ----

  lemma BeginWaits(sh: Shared, me: Local, c: Choice)
    requires me.pc == AtBegin(BeginEnter)
    ensures Alone(sh, me, Turn(sh.(stats := sh.stats.(queuedBegins := sh.stats.queuedBegins + 1)),
                               me.(pc := AtBegin(BeginLock))))
  {
    AloneStep(sh, me, c);
  }

  ghost function BeginStored(sh: Shared, me: Local, id: Name): Shared {
    sh.(txID := id, txOwner := me.q.owner, txLastUsed := sh.now,
        stats := sh.stats.(beginCount := sh.stats.beginCount + 1, queuedBegins := sh.stats.queuedBegins - 1),
        log := sh.log.(trace := Then(sh.log.trace, Began(id, CredOf(me), sh.now)),
                       issued := sh.log.issued + {id}, known := sh.log.known + {id}))
  }

  ghost function BeginNamed(sh: Shared, me: Local, id: Name): Shared {
    sh.(txID := id, txOwner := me.q.owner, txLastUsed := sh.now,
        log := sh.log.(trace := Then(sh.log.trace, Began(id, CredOf(me), sh.now)),
                       issued := sh.log.issued + {id}))
  }

  lemma BeginNames(sh: Shared, me: Local, c: Choice)
    requires me.pc == AtBegin(PubId) && Can(sh, me, c)
    ensures Alone(sh, me, Turn(BeginNamed(sh, me, c.uuid), me.(pc := AtBegin(PubCount), newID := c.uuid)))
  {
    AloneStep(sh, me, c);
    var t := Act(sh, me, c);
    AloneOn(sh, me, t, c);
    t := Act(t.sh, t.me, c);
    AloneOn(sh, me, t, c);
    t := Act(t.sh, t.me, c);
    assert t.sh == BeginNamed(sh, me, c.uuid);
  }

  lemma BeginCounts(sh: Shared, me: Local, c: Choice)
    requires me.pc == AtBegin(PubCount)
    ensures var counted := sh.(
              stats := sh.stats.(beginCount := sh.stats.beginCount + 1, queuedBegins := sh.stats.queuedBegins - 1),
              log := sh.log.(known := sh.log.known + {me.newID}));
            Alone(sh, me, Turn(counted, me.(pc := AtCall(Done(true)))))
  {
    AloneStep(sh, me, c);
    AloneOn(sh, me, Act(sh, me, c), c);
  }

  lemma BeginStores(sh: Shared, me: Local, c: Choice)
    requires me.pc == AtBegin(PubId) && Can(sh, me, c)
    ensures Alone(sh, me, Turn(BeginStored(sh, me, c.uuid), me.(pc := AtCall(Done(true)), newID := c.uuid)))
  {
    BeginNames(sh, me, c);
    var t := Turn(BeginNamed(sh, me, c.uuid), me.(pc := AtBegin(PubCount), newID := c.uuid));
    BeginCounts(t.sh, t.me, c);
    AloneThen(sh, me, t, Turn(BeginStored(sh, me, c.uuid), me.(pc := AtCall(Done(true)), newID := c.uuid)));
  }

  ghost function BeginGivenUp(sh: Shared): Shared {
    UnlockTx(sh).(stats := sh.stats.(queuedBegins := sh.stats.queuedBegins - 1))
  }

  lemma BeginGivesUp(sh: Shared, me: Local, c: Choice)
    requires me.pc == AtBegin(BeginAbort)
    ensures Alone(sh, me, Turn(Failing(BeginGivenUp(sh)), me.(pc := AtCall(Done(false)))))
  {
    AloneStep(sh, me, c);
    var t := Act(sh, me, c);
    AloneOn(sh, me, t, c);
    t := Act(t.sh, t.me, c);
    AloneOn(sh, me, t, c);
    assert Act(t.sh, t.me, c).sh == Failing(BeginGivenUp(sh));
  }

  // ---- After COMMIT and ROLLBACK ----

  ghost function EndStored(sh: Shared, me: Local, commit: bool): Shared {
    UnlockTx(sh).(txID := NONE, txOwner := NONE, txLastUsed := sh.now,
      stats := if commit then sh.stats.(commitCount := sh.stats.commitCount + 1)
               else sh.stats.(rollbackCount := sh.stats.rollbackCount + 1),
      log := sh.log.(unattended := sh.log.unattended + if me.kind.Client? then 0 else 1))
  }

  lemma EndClears(sh: Shared, me: Local, commit: bool, c: Choice)
    requires me.pc == AtEnd(commit, ClearId)
    ensures Alone(sh, me, Turn(sh.(txID := NONE, txOwner := NONE, txLastUsed := sh.now),
                               me.(pc := AtEnd(commit, EndCount))))
  {
    AloneStep(sh, me, c);
    var t := Act(sh, me, c);
    AloneOn(sh, me, t, c);
    t := Act(t.sh, t.me, c);
    AloneOn(sh, me, t, c);
  }

  lemma EndCounts(sh: Shared, me: Local, commit: bool, c: Choice)
    requires me.pc == AtEnd(commit, EndCount)
    ensures var counted := UnlockTx(sh).(
              stats := if commit then sh.stats.(commitCount := sh.stats.commitCount + 1)
                       else sh.stats.(rollbackCount := sh.stats.rollbackCount + 1),
              log := sh.log.(unattended := sh.log.unattended + if me.kind.Client? then 0 else 1));
            Alone(sh, me, Turn(counted, me.(pc := if me.kind.Client? then AtTx(TouchOut(true)) else AtMon(MonUnlock))))
  {
    AloneStep(sh, me, c);
    AloneOn(sh, me, Act(sh, me, c), c);
  }

  lemma EndStores(sh: Shared, me: Local, commit: bool, c: Choice)
    requires me.pc == AtEnd(commit, ClearId)
    ensures Alone(sh, me, Turn(EndStored(sh, me, commit),
                               me.(pc := if me.kind.Client? then AtTx(TouchOut(true)) else AtMon(MonUnlock))))
  {
    EndClears(sh, me, commit, c);
    var t := Turn(sh.(txID := NONE, txOwner := NONE, txLastUsed := sh.now), me.(pc := AtEnd(commit, EndCount)));
    EndCounts(t.sh, t.me, commit, c);
    AloneThen(sh, me, t, Turn(EndStored(sh, me, commit),
                              me.(pc := if me.kind.Client? then AtTx(TouchOut(true)) else AtMon(MonUnlock))));
  }

  // ---- A request that names a transaction: entry, refusal, exit ----

  ghost function TxEntered(sh: Shared, me: Local): Shared {
    Record(sh.(txOpMu := true, txLastUsed := sh.now), Used(me.q.txID, sh.now))
  }

  predicate Accepts(sh: Shared, q: Query) {
    sh.txID != NONE && q.txID == sh.txID && (q.owner == NONE || q.owner == sh.txOwner)
  }

  lemma TxEnters(sh: Shared, me: Local, c: Choice)
    requires me.pc == AtCall(Entry) && me.q.txID != NONE && !sh.txOpMu && Accepts(sh, me.q)
    ensures Alone(sh, me, Turn(TxEntered(sh, me), Dispatch(me)))
  {
    AloneStep(sh, me, c);
    var t := Act(sh, me, c);
    AloneOn(sh, me, t, c);
    t := Act(t.sh, t.me, c);
    AloneOn(sh, me, t, c);
    t := Act(t.sh, t.me, c);
    AloneOn(sh, me, t, c);
    t := Act(t.sh, t.me, c);
    AloneOn(sh, me, t, c);
    t := Act(t.sh, t.me, c);
    assert t.sh == TxEntered(sh, me);
  }

  lemma TxRefuses(sh: Shared, me: Local, c: Choice)
    requires me.pc == AtCall(Entry) && me.q.txID != NONE && !sh.txOpMu && !Accepts(sh, me.q)
    ensures Alone(sh, me, Turn(Failing(sh), me.(pc := AtCall(Done(false)))))
  {
    AloneStep(sh, me, c);
    var t := Act(sh, me, c);
    AloneOn(sh, me, t, c);
    t := Act(t.sh, t.me, c);
    AloneOn(sh, me, t, c);
    t := Act(t.sh, t.me, c);
    if t.me.pc == AtTx(CheckOwner) {
      AloneOn(sh, me, t, c);
      t := Act(t.sh, t.me, c);
    }
    assert t == Turn(sh.(txOpMu := true), me.(pc := AtTx(OpUnlock(false))));
    LeavesFailing(t.sh, t.me, c);
    AloneThen(sh, me, t, Turn(Failing(sh), me.(pc := AtCall(Done(false)))));
  }

  lemma LeavesFailing(sh: Shared, me: Local, c: Choice)
    requires me.pc == AtTx(OpUnlock(false)) && sh.txOpMu
    ensures Alone(sh, me, Turn(Failing(sh.(txOpMu := false)), me.(pc := AtCall(Done(false)))))
  {
    AloneStep(sh, me, c);
    var t := Act(sh, me, c);
    AloneOn(sh, me, t, c);
  }

  /** The second store of txLastUsed. */
  ghost function Touched(sh: Shared, me: Local): Shared {
    var touched := sh.(txLastUsed := sh.now);
    if sh.txID == me.q.txID then Record(touched, Used(me.q.txID, sh.now)) else touched
  }

  ghost function TxLeft(sh: Shared, me: Local, ok: bool): Shared {
    var left := Touched(sh, me).(txOpMu := false);
    if ok then left else Failing(left)
  }

  lemma TxLeaves(sh: Shared, me: Local, ok: bool, c: Choice)
    requires me.pc == AtTx(TouchOut(ok)) && sh.txOpMu
    ensures Alone(sh, me, Turn(TxLeft(sh, me, ok), me.(pc := AtCall(Done(ok)))))
  {
    AloneStep(sh, me, c);
    var t := Act(sh, me, c);
    if ok {
      AloneOn(sh, me, t, c);
    } else {
      LeavesFailing(t.sh, t.me, c);
      AloneThen(sh, me, t, Turn(TxLeft(sh, me, ok), me.(pc := AtCall(Done(ok)))));
    }
  }

  // ---- A write ----

  ghost function WriteCounted(sh: Shared, ok: bool): Shared {
    sh.(stats := sh.stats.(queuedWrites := sh.stats.queuedWrites - 1,
                           writeCount := sh.stats.writeCount + if ok then 1 else 0))
  }

  lemma WriteCounts(sh: Shared, me: Local, ok: bool, c: Choice)
    requires me.pc == AtWork(if ok then WriteCount else WriteLeave(false))
    ensures Alone(sh, me, Turn(WriteCounted(sh, ok),
                               me.(pc := if me.q.txID != NONE then AtTx(TouchOut(ok)) else AtCall(TokenUnlock(ok)))))
  {
    AloneStep(sh, me, c);
    if ok {
      AloneOn(sh, me, Act(sh, me, c), c);
    }
  }

  // ---- The read-only pool ----

  /** What a read on connection k records. */
  ghost function Fetched(sh: Shared, me: Local): Shared {
    Record(sh, Saw(NONE, me.q.stmt, sh.conn.committed, CredOf(me), me.q.role))
      .(stats := sh.stats.(readCount := sh.stats.readCount + 1))
  }

  predicate FetchOk(me: Local, env: Env) {
    env.healthy && me.q.role in me.q.stmt.roles
  }

  ghost function Returned(sh: Shared, me: Local, ro: RoOp, k: nat): Shared
    requires k < |sh.ro|
  {
    WithRo(sh, k, RoConn(false, RoRole(me, ro)))
  }

  lemma RoTakes(sh: Shared, me: Local, ro: RoOp, env: Env)
    requires me.pc == AtRo(ro, RoAcquire) && env.pool && env.reader < |sh.ro| && !sh.ro[env.reader].busy
    ensures Alone(sh, me, Turn(WithRo(sh, env.reader, RoConn(true, RoRole(me, ro))),
                               me.(pc := AtRo(ro, RoExec(env.reader)))))
  {
    AloneStep(sh, me, env.Take());
    var t := Act(sh, me, env.Take());
    AloneOn(sh, me, t, env.Take());
    t := Act(t.sh, t.me, env.Take());
    assert t.sh.ro == sh.ro[env.reader := RoConn(true, RoRole(me, ro))];
  }

  lemma RoClassifies(sh: Shared, me: Local, ro: RoOp, env: Env)
    requires me.pc == AtRo(ro, RoAcquire) && !ro.Fetch? && env.pool
    requires env.reader < |sh.ro| && !sh.ro[env.reader].busy
    ensures Alone(sh, me,
                  Turn(Returned(sh, me, ro, env.reader),
                       AfterRo(me.(seen := if ro.Retry? && env.verdict != Failed then Wrappers.Some(sh.conn.committed)
                                           else me.seen), ro, env.verdict)))
  {
    RoTakes(sh, me, ro, env);
    var t := Turn(WithRo(sh, env.reader, RoConn(true, RoRole(me, ro))), me.(pc := AtRo(ro, RoExec(env.reader))));
    AloneOn(sh, me, t, env.Take());
    t := Act(t.sh, t.me, env.Take());
    AloneOn(sh, me, t, env.Take());
    t := Act(t.sh, t.me, env.Take());
    assert t.sh.ro == Returned(sh, me, ro, env.reader).ro;
  }

  lemma RoReads(sh: Shared, me: Local, k: nat, env: Env)
    requires me.pc == AtRo(Fetch, RoExec(k)) && k < |sh.ro| && sh.ro[k].role == me.q.role && FetchOk(me, env)
    ensures Alone(sh, me, Turn(Fetched(sh, me), me.(pc := AtRo(Fetch, RoReturn(k, Fine)))))
  {
    AloneStep(sh, me, env.Exec());
    AloneOn(sh, me, Act(sh, me, env.Exec()), env.Take());
  }

  lemma RoReturns(sh: Shared, me: Local, k: nat, v: Verdict, env: Env)
    requires me.pc == AtRo(Fetch, RoReturn(k, v)) && k < |sh.ro| && sh.ro[k].role == me.q.role
    ensures Alone(sh, me, Turn(Returned(sh, me, Fetch, k), AfterRo(me, Fetch, v)))
  {
    AloneStep(sh, me, env.Take());
  }

  lemma RoFetchWorks(sh: Shared, me: Local, env: Env)
    requires me.pc == AtRo(Fetch, RoAcquire) && env.pool && env.reader < |sh.ro| && !sh.ro[env.reader].busy
    requires FetchOk(me, env)
    ensures Alone(sh, me, Turn(Returned(Fetched(sh, me), me, Fetch, env.reader), AfterRo(me, Fetch, Fine)))
  {
    var k := env.reader;
    RoTakes(sh, me, Fetch, env);
    var t := Turn(WithRo(sh, k, RoConn(true, me.q.role)), me.(pc := AtRo(Fetch, RoExec(k))));
    RoReads(t.sh, t.me, k, env);
    var u := Turn(Fetched(t.sh, t.me), me.(pc := AtRo(Fetch, RoReturn(k, Fine))));
    AloneThen(sh, me, t, u);
    RoReturns(u.sh, u.me, k, Fine, env);
    assert u.sh.ro[k := RoConn(false, me.q.role)] == sh.ro[k := RoConn(false, me.q.role)];
    AloneThen(sh, me, u, Turn(Returned(Fetched(sh, me), me, Fetch, k), AfterRo(me, Fetch, Fine)));
  }

  lemma RoFetchFails(sh: Shared, me: Local, env: Env)
    requires me.pc == AtRo(Fetch, RoAcquire) && env.pool && env.reader < |sh.ro| && !sh.ro[env.reader].busy
    requires !FetchOk(me, env)
    ensures Alone(sh, me, Turn(Returned(sh, me, Fetch, env.reader), AfterRo(me, Fetch, Failed)))
  {
    var k := env.reader;
    RoTakes(sh, me, Fetch, env);
    var t := Turn(WithRo(sh, k, RoConn(true, me.q.role)), me.(pc := AtRo(Fetch, RoExec(k))));
    AloneOn(sh, me, t, env.Exec());
    var u := Turn(t.sh, me.(pc := AtRo(Fetch, RoReturn(k, Failed))));
    RoReturns(u.sh, u.me, k, Failed, env);
    assert u.sh.ro[k := RoConn(false, me.q.role)] == sh.ro[k := RoConn(false, me.q.role)];
    AloneThen(sh, me, u, Turn(Returned(sh, me, Fetch, k), AfterRo(me, Fetch, Failed)));
  }

  lemma RoNoPool(sh: Shared, me: Local, ro: RoOp, env: Env)
    requires me.pc == AtRo(ro, RoAcquire) && !env.pool
    ensures Alone(sh, me, Turn(sh, AfterRo(me, ro, Failed)))
  {
    AloneStep(sh, me, env.Take());
  }

  // ---- txMu for a statement of its own ----

  lemma TokenTakes(sh: Shared, me: Local, retry: bool, c: Choice)
    requires me.pc == AtCall(TokenLock(retry)) && !sh.txMu
    ensures Alone(sh, me, Turn(sh.(txMu := true),
                               me.(pc := if retry then AtRo(Retry, RoAcquire) else AtWork(WriteEnter), held := true)))
  {
    AloneStep(sh, me, c);
  }

  lemma TokenGives(sh: Shared, me: Local, ok: bool, c: Choice)
    requires me.pc == AtCall(TokenUnlock(ok)) && sh.txMu
    ensures Alone(sh, me, Turn(if ok then sh.(txMu := false) else Failing(sh.(txMu := false)),
                               me.(pc := AtCall(Done(ok)), held := false)))
  {
    AloneStep(sh, me, c);
    if !ok {
      AloneOn(sh, me, Act(sh, me, c), c);
    }
  }
}
