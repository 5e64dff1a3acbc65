/**
 The methods of DB in internal/db/db.go, in the source's own form: fields updated in place, mutexes
 locked and unlocked, counters incremented.

 Each method leaves the fields, and its goroutine, exactly where the closed form of Calls puts them;
 Calls proves that to be where the step system takes that goroutine when it runs alone.  What is
 proved of every run of the step system therefore holds of every use of this class.  A goroutine
 that finds txMu locked is left waiting for it; the methods named OnceFree go on from there.
 */
module Coordinator {
  import opened Calls
  import opened History
  import opened Operations
  import opened Protocol
  import opened QueryText
  import opened Scenarios
  import opened Solo
  import opened Sqlite
  import opened Wrappers

  /** A db.Query, with what its text means to SQLite. */
  datatype Request = Request(txID: Name, owner: Name, text: string, stmt: Stmt, role: Role)

  function Parsed(r: Request): Query {
    Query(r.txID, r.owner, TextKindOf(r.text), r.stmt, r.role)
  }

  datatype DbError = TxNotFound | TxNotMatch | TxWithinTx | TxIdRequired | Unclassified | Refused

  /** How a call comes out: an answer, with the new transaction ID of a BEGIN; an error; or a wait
      for txMu. */
  datatype Outcome = Answer(newID: Name) | Error(error: DbError) | Waits

  // ---- Which error a request gets ----

  /** The ID is the open transaction's, and the owner is its owner or nobody. */
  predicate Holds(r: Request, sh: Shared) {
    r.txID == sh.txID && (r.owner == NONE || r.owner == sh.txOwner)
  }

  /** Executed on a read-only connection. */
  predicate ReadFails(r: Request, env: Env) {
    !env.pool || !env.healthy || r.role !in r.stmt.roles
  }

  /** With the ID of the open transaction. */
  predicate FailsInTx(e: DbError, r: Request, conn: Conn, w: Responses) {
    match e
    case TxWithinTx => TextKindOf(r.text).BeginText?
    case Unclassified => TextKindOf(r.text).Ordinary? && Found(w.first) == Failed
    case Refused =>
      (match TextKindOf(r.text)
       case BeginText => false
       case CommitText => !RwOk(conn, r.role, CommitStmt(), w.exec)
       case RollbackText => !RwOk(conn, r.role, RollbackStmt(), w.exec)
       case Ordinary => Found(w.first) != Failed && !RwOk(conn, r.role, r.stmt, w.exec))
    case _ => false
  }

  /** An ordinary statement, executed under txMu after its classification has been repeated. */
  predicate FailsRetried(e: DbError, r: Request, conn: Conn, w: Responses) {
    match e
    case Unclassified => Found(w.retry) == Failed
    case Refused =>
      if Found(w.retry) == AsWrite then !RwOk(conn, r.role, r.stmt, w.exec)
      else Found(w.retry) != Failed && ReadFails(r, w.exec)
    case _ => false
  }

  /** Without an ID. */
  predicate FailsAlone(e: DbError, r: Request, sh: Shared, w: Responses) {
    match TextKindOf(r.text)
    case BeginText => e == Refused && !sh.txMu && !RwOk(sh.conn, r.role, BeginStmt(), w.exec)
    case CommitText | RollbackText => e == TxIdRequired
    case Ordinary =>
      if Found(w.first) == Failed then
        if sh.txID == NONE then e == Unclassified else !sh.txMu && FailsRetried(e, r, sh.conn, w)
      else if Found(w.first) == AsWrite then e == Refused && !sh.txMu && !RwOk(sh.conn, r.role, r.stmt, w.exec)
      else e == Refused && ReadFails(r, w.exec)
  }

  predicate Fails(e: DbError, r: Request, sh: Shared, w: Responses) {
    if r.txID == NONE then FailsAlone(e, r, sh, w)
    else if sh.txID == NONE then e == TxNotFound
    else if !Holds(r, sh) then e == TxNotMatch
    else FailsInTx(e, r, sh.conn, w)
  }

  /** The same in the order of the code: the classification, then the execution. */
  lemma FailsInTxIs(sh: Shared, me: Local, r: Request, w: Responses)
    requires r.txID != NONE && me.q == Parsed(r)
    ensures var kind := KindOf(TextKindOf(r.text), Found(w.first));
            var sorted := if TextKindOf(r.text).Ordinary? then Classified(sh, w.first) else sh;
            forall e :: FailsInTx(e, r, sh.conn, w) <==>
              if kind.None? then e == Unclassified
              else
                && !Answered(sorted, me, kind.value, w.exec)
                && e == if kind.value.BeginQuery? then TxWithinTx else Refused
  {
    hide TextKindOf;
  }

  lemma FailsRetriedIs(sh: Shared, me: Local, r: Request, w: Responses)
    requires r.txID == NONE && me.q == Parsed(r) && TextKindOf(r.text).Ordinary? && w.retry.reader < |sh.ro|
    ensures var kind := KindOf(TextKindOf(r.text), Found(w.retry));
            var probed, saw := Probed(sh, me, Retry, w.retry), me.(seen := Some(sh.conn.committed));
            forall e :: FailsRetried(e, r, sh.conn, w) <==>
              if kind.None? then e == Unclassified
              else e == Refused && !Answered(probed, saw, kind.value, w.exec)
  {
    hide TextKindOf;
  }

  lemma WriteFailsIs(sh: Shared, me: Local, r: Request, env: Env)
    requires me.q == Parsed(r)
    ensures Answered(sh, me, WriteQuery, env) <==> RwOk(sh.conn, r.role, r.stmt, env)
  {
  }

  lemma FailsAloneIs(sh: Shared, me: Local, r: Request, w: Responses)
    requires r.txID == NONE && me.q == Parsed(r) && w.first.reader < |sh.ro|
    ensures var kind := KindOf(TextKindOf(r.text), Found(w.first));
            var probed := if TextKindOf(r.text).Ordinary? then Probed(sh, me, First, w.first) else sh;
            forall e :: FailsAlone(e, r, sh, w) <==>
              if kind.None? then
                if sh.txID == NONE then e == Unclassified else !sh.txMu && FailsRetried(e, r, sh.conn, w)
              else if kind.value.WriteQuery? then e == Refused && !sh.txMu && !RwOk(sh.conn, r.role, r.stmt, w.exec)
              else
                && !Answered(probed, me, kind.value, w.exec)
                && e == if kind.value.CommitQuery? || kind.value.RollbackQuery? then TxIdRequired else Refused
  {
    hide TextKindOf, FailsRetried;
  }

  /** The errors of a request that comes while no statement is under way, by its text. */
  lemma FailsAtRest(r: Request, sh: Shared, w: Responses)
    requires sh.txMu <==> sh.txID != NONE
    ensures Fails(TxNotFound, r, sh, w) <==> r.txID != NONE && sh.txID == NONE
    ensures Fails(TxNotMatch, r, sh, w) <==>
      r.txID != NONE && sh.txID != NONE && (r.txID != sh.txID || (r.owner != NONE && r.owner != sh.txOwner))
    ensures Fails(TxWithinTx, r, sh, w) <==>
      r.txID == sh.txID != NONE && (r.owner == NONE || r.owner == sh.txOwner) && StartsWith(r.text, "begin")
    ensures Fails(TxIdRequired, r, sh, w) <==>
      && r.txID == NONE
      && (StartsWith(r.text, "commit") || StartsWith(r.text, "rollback") || StartsWith(r.text, "end transaction"))
    ensures Fails(Unclassified, r, sh, w) <==>
      && !StartsWith(r.text, "begin") && !StartsWith(r.text, "commit")
      && !StartsWith(r.text, "rollback") && !StartsWith(r.text, "end transaction")
      && (!w.first.pool || w.first.verdict == Failed)
      && r.txID == sh.txID && (r.txID != NONE ==> r.owner == NONE || r.owner == sh.txOwner)
  {
    Recognised(r.text);
    hide TextKindOf, StartsWith, FailsRetried, RwOk, ReadFails;
  }

  /** The history plays no part. */
  lemma FailsSame(r: Request, sh: Shared, sh': Shared, w: Responses)
    requires sh' == sh.(log := sh'.log)
    ensures forall e :: Fails(e, r, sh, w) <==> Fails(e, r, sh', w)
  {
  }

  /** Query counts an error. */
  ghost function Settled(sh: Shared, out: Outcome): Shared {
    if out.Error? then Failing(sh) else sh
  }

  /** The history knows which ID a request carries. */
  ghost function Arrived(sh: Shared, q: Query): Shared {
    sh.(log := Named(sh.log, q.txID))
  }

  class Database {
    var txMu: bool
    var txOpMu: bool
    var writeMu: bool
    var fault: bool
    var txID: Name
    var txOwner: Name
    var txLastUsed: int
    var conn: Conn
    var ro: seq<RoConn>
    var stats: Stats
    var now: int
    const timeout: int
    var stopped: bool
    ghost var log: Log

    ghost function Abs(): Shared
      reads this
    {
      Shared(txMu, txOpMu, writeMu, fault, txID, txOwner, txLastUsed, conn, ro, stats,
             now, timeout, stopped, log)
    }

    /** No statement is under way; a transaction may be open. */
    ghost predicate AtRest()
      reads this
    {
      !txOpMu && !writeMu && !fault && !stopped && (txMu <==> txID != NONE)
    }

    constructor (db: Db, readers: nat, timeout: int, now: int)
      requires readers > 0 && timeout > 0
      ensures Initial(State(Abs(), [IdleMonitor()])) && conn.committed == db && AtRest()
      ensures |ro| == readers && this.timeout == timeout && this.now == txLastUsed == now
    {
      txMu, txOpMu, writeMu, fault, stopped := false, false, false, false, false;
      txID, txOwner, txLastUsed := NONE, NONE, now;
      conn := Conn(db, db, false, Admin);
      ro := seq(readers, _ => RoConn(false, Admin));
      stats := Stats(0, 0, 0, 0, 0, 0, 0, 0);
      this.now, this.timeout := now, timeout;
      log := Log(History.Start, {}, {}, {}, false, 0);
    }

    function ValidateTxID(id: Name, owner: Name): (r: Option<DbError>)
      reads this
      ensures r.None? <==> id == NONE || (id == txID && (owner == NONE || owner == txOwner))
      ensures r == Some(TxNotFound) <==> id != NONE && txID == NONE
      ensures r == Some(TxNotMatch) <==>
        id != NONE && txID != NONE && !(id == txID && (owner == NONE || owner == txOwner))
    {
      if id == NONE then None
      else if txID == NONE then Some(TxNotFound)
      else if id != txID then Some(TxNotMatch)
      else if owner != NONE && owner != txOwner then Some(TxNotMatch)
      else None
    }

    method UnlockTxMu()
      modifies `txMu, `fault
      ensures Abs() == UnlockTx(old(Abs()))
    {
      fault, txMu := fault || !txMu, false;
    }

    /** Runs stmt on the read-write connection under the given role. */
    method WithReadWriteConn(role: Role, stmt: Stmt, writes: bool, env: Env, ghost me: Local, ghost op: RwOp)
      returns (ok: bool)
      requires !writeMu && !op.OpClassify?
      requires role == me.q.role && stmt == StmtFor(me, op) && (writes <==> op.OpWrite?)
      modifies `writeMu, `fault, `conn, `log
      ensures ok <==> RwOk(old(conn), role, stmt, env)
      ensures Abs() == RwAfter(old(Abs()), me, op, env)
    {
      ghost var done := RwAfter(Abs(), me, op, env);
      writeMu := true;
      ok := false;
      if env.pool {
        conn := conn.(role := role);
        ok := conn.Succeeds(stmt, env.healthy);
        if ok {
          conn := conn.After(stmt, writes);
        }
      }
      fault, writeMu := fault || !writeMu, false;
      log := done.log;
    }

    /** classifyQueryOnReadWriteConn. */
    method ClassifyOnReadWriteConn(env: Env) returns (v: Verdict)
      requires !writeMu
      modifies `writeMu, `fault, `conn
      ensures v == Found(env) && Abs() == Classified(old(Abs()), env)
    {
      writeMu := true;
      v := Failed;
      if env.pool {
        conn := conn.(role := Admin);
        v := env.verdict;
      }
      fault, writeMu := fault || !writeMu, false;
    }

    /** classifyQueryOnReadOnlyConn. */
    method ClassifyOnReadOnlyConn(env: Env, ghost me: Local, ghost op: RoOp) returns (v: Verdict)
      requires env.reader < |ro| && !ro[env.reader].busy && !op.Fetch?
      modifies `ro
      ensures v == Found(env) && Abs() == Probed(old(Abs()), me, op, env)
    {
      if !env.pool {
        return Failed;
      }
      ro := ro[env.reader := RoConn(true, Admin)];
      v := env.verdict;
      ro := ro[env.reader := ro[env.reader].(busy := false)];
      assert ro == old(ro)[env.reader := RoConn(false, Admin)];
    }

    // ---- BEGIN ----

    /** The three stores and the counters of a BEGIN that succeeded. */
    method StoreTransaction(id: Name, owner: Name, ghost me: Local)
      requires owner == me.q.owner
      modifies `txID, `txOwner, `txLastUsed, `stats, `log
      ensures Abs() == BeginStored(old(Abs()), me, id)
    {
      ghost var done := BeginStored(Abs(), me, id);
      txID := id;
      txOwner := owner;
      txLastUsed := now;
      stats := stats.(beginCount := stats.beginCount + 1);
      stats := stats.(queuedBegins := stats.queuedBegins - 1);
      log := done.log;
    }

    /** The lock of txMu and what follows it. */
    method BeginOnceFree(role: Role, owner: Name, env: Env, ghost me: Local) returns (out: Outcome)
      requires me.q.role == role && me.q.owner == owner && !writeMu
      modifies this
      ensures Abs() == BeginRan(old(Abs()), me, env)
      ensures out == if old(txMu) then Waits
                     else if BeginOk(old(Abs()), me, env) then Answer(env.uuid)
                     else Error(Refused)
    {
      if txMu {
        return Waits;
      }
      txMu := true;
      var ok := WithReadWriteConn(role, BeginStmt(), false, env, me, OpBegin);
      if !ok {
        UnlockTxMu();
        stats := stats.(queuedBegins := stats.queuedBegins - 1);
        return Error(Refused);
      }
      StoreTransaction(env.uuid, owner, me);
      return Answer(env.uuid);
    }

    method ExecuteBeginQuery(txID: Name, role: Role, owner: Name, env: Env, ghost me: Local) returns (out: Outcome)
      requires !writeMu && me.q.role == role && me.q.owner == owner
      modifies this
      ensures txID != NONE ==> out == Error(TxWithinTx) && Abs() == old(Abs())
      ensures txID == NONE ==>
        Abs() == BeginRan(old(Abs()).(stats := old(stats).(queuedBegins := old(stats).queuedBegins + 1)), me, env)
      ensures txID == NONE ==> out == if old(txMu) then Waits
                                      else if BeginOk(old(Abs()), me, env) then Answer(env.uuid)
                                      else Error(Refused)
    {
      if txID != NONE {
        return Error(TxWithinTx);
      }
      stats := stats.(queuedBegins := stats.queuedBegins + 1);
      out := BeginOnceFree(role, owner, env, me);
    }

    // ---- COMMIT and ROLLBACK ----

    /** The stores, the count and the unlock after a successful COMMIT or ROLLBACK. */
    method ClearTransaction(commit: bool, ghost me: Local)
      modifies `txMu, `fault, `txID, `txOwner, `txLastUsed, `stats, `log
      ensures Abs() == EndStored(old(Abs()), me, commit)
    {
      ghost var done := EndStored(Abs(), me, commit);
      txID := NONE;
      txOwner := NONE;
      txLastUsed := now;
      if commit {
        stats := stats.(commitCount := stats.commitCount + 1);
      } else {
        stats := stats.(rollbackCount := stats.rollbackCount + 1);
      }
      log := done.log;
      UnlockTxMu();
    }

    method ExecuteCommitQuery(txID: Name, role: Role, env: Env, ghost me: Local) returns (out: Outcome)
      requires !writeMu && me.q.role == role
      modifies this
      ensures txID == NONE ==> out == Error(TxIdRequired) && Abs() == old(Abs())
      ensures txID != NONE ==> Abs() == EndDone(old(Abs()), me, true, env).sh
      ensures txID != NONE ==> out == if EndOk(old(Abs()), me, true, env) then Answer(NONE) else Error(Refused)
    {
      if txID == NONE {
        return Error(TxIdRequired);
      }
      var ok := WithReadWriteConn(role, CommitStmt(), false, env, me, OpCommit);
      if !ok {
        return Error(Refused);
      }
      ClearTransaction(true, me);
      return Answer(NONE);
    }

    method ExecuteRollbackQuery(txID: Name, role: Role, env: Env, ghost me: Local) returns (out: Outcome)
      requires !writeMu && me.q.role == role
      modifies this
      ensures txID == NONE ==> out == Error(TxIdRequired) && Abs() == old(Abs())
      ensures txID != NONE ==> Abs() == EndDone(old(Abs()), me, false, env).sh
      ensures txID != NONE ==> out == if EndOk(old(Abs()), me, false, env) then Answer(NONE) else Error(Refused)
    {
      if txID == NONE {
        return Error(TxIdRequired);
      }
      var ok := WithReadWriteConn(role, RollbackStmt(), false, env, me, OpRollback);
      if !ok {
        return Error(Refused);
      }
      ClearTransaction(false, me);
      return Answer(NONE);
    }

    // ---- Reads and writes ----

    method ExecuteWriteQuery(r: Request, env: Env, ghost me: Local) returns (out: Outcome)
      requires !writeMu && me.q == Parsed(r)
      modifies this
      ensures Abs() == WriteDone(old(Abs()), me, env).sh
      ensures out == if WorkOk(old(Abs()), me, env) then Answer(NONE) else Error(Refused)
    {
      stats := stats.(queuedWrites := stats.queuedWrites + 1);
      var ok := WithReadWriteConn(r.role, r.stmt, true, env, me, OpWrite);
      if ok {
        stats := stats.(writeCount := stats.writeCount + 1);
      }
      stats := stats.(queuedWrites := stats.queuedWrites - 1);
      out := if ok then Answer(NONE) else Error(Refused);
    }

    /** On a read-only connection without a transaction ID, on the read-write connection with one. */
    method ExecuteReadQuery(r: Request, env: Env, ghost me: Local) returns (out: Outcome)
      requires !writeMu && me.q == Parsed(r)
      requires r.txID == NONE ==> env.reader < |ro| && !ro[env.reader].busy
      modifies this
      ensures r.txID == NONE ==> Abs() == FetchDone(old(Abs()), me, env).sh
      ensures r.txID != NONE ==> Abs() == ReadDone(old(Abs()), me, env).sh
      ensures out == if (if r.txID == NONE then env.pool && FetchOk(me, env) else WorkOk(old(Abs()), me, env))
                     then Answer(NONE) else Error(Refused)
    {
      var ok := false;
      if r.txID == NONE {
        ok := Fetch(r, env, me);
      } else {
        ok := WithReadWriteConn(r.role, r.stmt, false, env, me, OpRead);
      }
      if ok {
        stats := stats.(readCount := stats.readCount + 1);
      }
      out := if ok then Answer(NONE) else Error(Refused);
    }

    /** The use of a read-only connection. */
    method Fetch(r: Request, env: Env, ghost me: Local) returns (ok: bool)
      requires me.q == Parsed(r) && env.reader < |ro| && !ro[env.reader].busy
      modifies `ro, `log
      ensures ok <==> env.pool && FetchOk(me, env)
      ensures var after := FetchDone(old(Abs()), me, env).sh;
              Abs() == after.(stats := old(stats))
    {
      if !env.pool {
        return false;
      }
      ghost var done := FetchDone(Abs(), me, env).sh;
      ro := ro[env.reader := RoConn(true, r.role)];
      ok := env.healthy && ro[env.reader].role in r.stmt.roles;
      log := done.log;
      ro := ro[env.reader := ro[env.reader].(busy := false)];
      assert ro == old(ro)[env.reader := RoConn(false, r.role)];
    }

    // ---- Query ----

    method ClassifyQuery(r: Request, env: Env, ghost me: Local, ghost op: RoOp) returns (kind: Option<QueryKind>)
      requires !writeMu && env.reader < |ro| && !ro[env.reader].busy && !op.Fetch?
      modifies `writeMu, `fault, `conn, `ro
      ensures kind == KindOf(TextKindOf(r.text), Found(env))
      ensures kind == Some(BeginQuery) <==> StartsWith(r.text, "begin")
      ensures kind == Some(CommitQuery) <==> StartsWith(r.text, "commit")
      ensures kind == Some(RollbackQuery) <==> StartsWith(r.text, "rollback") || StartsWith(r.text, "end transaction")
      ensures Abs() == if !TextKindOf(r.text).Ordinary? then old(Abs())
                       else if r.txID != NONE then Classified(old(Abs()), env)
                       else Probed(old(Abs()), me, op, env)
    {
      Recognised(r.text);
      hide TextKindOf, StartsWith;
      var form := TextKindOf(r.text);
      var v := Failed;
      if form == Ordinary {
        if r.txID != NONE {
          v := ClassifyOnReadWriteConn(env);
        } else {
          v := ClassifyOnReadOnlyConn(env, me, op);
        }
      }
      kind := KindOf(form, v);
    }

    method ExecuteClassifiedQuery(r: Request, kind: QueryKind, env: Env, ghost me: Local) returns (out: Outcome)
      requires !writeMu && me.q == Parsed(r) && env.reader < |ro| && !ro[env.reader].busy
      modifies this
      ensures Abs() == RunsAs(old(Abs()), me, kind, env)
      ensures !out.Error? <==> Answered(old(Abs()), me, kind, env)
      ensures out.Waits? <==> kind.BeginQuery? && r.txID == NONE && old(txMu)
      ensures out.Answer? ==> out.newID == if kind.BeginQuery? then env.uuid else NONE
      ensures out.Error? ==>
        out.error == if kind.BeginQuery? && r.txID != NONE then TxWithinTx
                     else if (kind.CommitQuery? || kind.RollbackQuery?) && r.txID == NONE then TxIdRequired
                     else Refused
    {
      match kind {
        case BeginQuery => out := ExecuteBeginQuery(r.txID, r.role, r.owner, env, me);
        case CommitQuery => out := ExecuteCommitQuery(r.txID, r.role, env, me);
        case RollbackQuery => out := ExecuteRollbackQuery(r.txID, r.role, env, me);
        case ReadQuery => out := ExecuteReadQuery(r, env, me);
        case WriteQuery => out := ExecuteWriteQuery(r, env, me);
      }
    }

    /** The deferred second store of txLastUsed. */
    method TouchAgain(ghost me: Local)
      modifies `txLastUsed, `log
      ensures Abs() == Touched(old(Abs()), me)
    {
      log := Touched(Abs(), me).log;
      txLastUsed := now;
    }

    /** queryWithType between the two stores of txLastUsed. */
    method ClassifyAndExecute(r: Request, w: Responses, ghost me: Local) returns (out: Outcome)
      requires r.txID != NONE && !writeMu && me.q == Parsed(r) && me.kind.Client?
      requires w.first.reader < |ro| && !ro[w.first.reader].busy && w.exec.reader < |ro| && !ro[w.exec.reader].busy
      modifies this
      ensures Abs() == TypedDone(old(Abs()), me, w).sh
      ensures out.Answer? <==> TypedOk(TypedDone(old(Abs()), me, w))
      ensures !out.Waits?
      ensures forall e :: out == Error(e) <==> FailsInTx(e, r, old(conn), w)
      ensures out.Answer? ==> out.newID == NONE
    {
      TypedRuns(Abs(), me, w);
      FailsInTxIs(Abs(), me, r, w);
      hide FailsInTx, TypedDone, TextKindOf, KindOf, Answered, RunsAs, Classified, Found;
      var kind := ClassifyQuery(r, w.first, me, First);
      if kind.None? {
        return Error(Unclassified);
      }
      out := ExecuteClassifiedQuery(r, kind.value, w.exec, me);
    }

    method QueryWithType(r: Request, w: Responses, ghost me: Local) returns (out: Outcome)
      requires r.txID != NONE && txOpMu && !writeMu && me.q == Parsed(r) && me.kind.Client?
      requires w.first.reader < |ro| && !ro[w.first.reader].busy && w.exec.reader < |ro| && !ro[w.exec.reader].busy
      modifies this
      ensures !Accepts(old(Abs()), Parsed(r)) ==> out.Error? && Abs() == old(Abs())
      ensures Accepts(old(Abs()), Parsed(r)) ==>
        var d := TypedDone(TxEntered(old(Abs()), me), Dispatch(me), w);
        Abs() == Touched(d.sh, me) && (out.Answer? <==> TypedOk(d)) && !out.Waits?
      ensures out.Answer? ==> out.newID == NONE
      ensures forall e :: out == Error(e) <==> Fails(e, r, old(Abs()), w)
    {
      hide TypedDone, TextKindOf, Dispatch, FailsInTx;
      assert Dispatch(me).q == me.q && Dispatch(me).kind == me.kind by {
        DispatchSame(me);
      }
      var invalid := ValidateTxID(r.txID, r.owner);
      if invalid.Some? {
        return Error(invalid.value);
      }
      log := TxEntered(Abs(), me).log;
      txLastUsed := now;
      out := ClassifyAndExecute(r, w, Dispatch(me));
      TouchAgain(me);
    }

    /** The branch of query for a request that names a transaction. */
    method QueryInTx(r: Request, w: Responses, ghost me: Local) returns (out: Outcome)
      requires r.txID != NONE && !txOpMu && !writeMu && me.q == Parsed(r) && me.kind.Client?
      requires w.first.reader < |ro| && !ro[w.first.reader].busy && w.exec.reader < |ro| && !ro[w.exec.reader].busy
      modifies this
      ensures Settled(Abs(), out) == NamedDone(old(Abs()), me, w).sh && !out.Waits?
      ensures NamedDone(old(Abs()), me, w).me.pc == AtCall(Done(out.Answer?))
      ensures out.Answer? ==> out.newID == NONE
      ensures forall e :: out == Error(e) <==> Fails(e, r, old(Abs()), w)
    {
      hide TypedDone, NamedDone, TxEntered, Dispatch, Touched, TextKindOf, FailsInTx;
      NamedRuns(Abs(), me, w);
      txOpMu := true;
      out := QueryWithType(r, w, me);
      fault, txOpMu := fault || !txOpMu, false;
    }

    // ---- A statement without a transaction ID ----

    /** Under txMu: the classification once more, and the statement. */
    method Reclassify(r: Request, w: Responses, ghost me: Local) returns (out: Outcome)
      requires !writeMu && me.q == Parsed(r) && r.txID == NONE && TextKindOf(r.text).Ordinary?
      requires w.retry.reader < |ro| && !ro[w.retry.reader].busy && w.exec.reader < |ro| && !ro[w.exec.reader].busy
      modifies this
      ensures UnderLock(Abs(), out.Answer?) == RetriedDone(old(Abs()), me, w).sh
      ensures RetriedDone(old(Abs()), me, w).me.pc == AtCall(Done(out.Answer?))
      ensures !out.Waits? && txMu == old(txMu)
      ensures forall e :: out == Error(e) <==> FailsRetried(e, r, old(conn), w)
      ensures out.Answer? ==> out.newID == NONE
    {
      hide RetriedDone, RunsAs, Answered, UnderLock, Probed, KindOf, TextKindOf, Found, FailsRetried;
      RetriedRuns(Abs(), me, w);
      RetryKeeps(Abs(), me, w);
      FailsRetriedIs(Abs(), me, r, w);
      ghost var saw := me.(seen := Some(conn.committed));
      var kind := ClassifyQuery(r, w.retry, me, Retry);
      if kind.None? {
        return Error(Unclassified);
      }
      WorkKeepsTx(Abs(), saw, kind.value, w.exec);
      out := ExecuteClassifiedQuery(r, kind.value, w.exec, saw);
    }

    /** The lock of txMu and what follows it. */
    method ExecuteOnceFree(r: Request, retry: bool, w: Responses, ghost me: Local) returns (out: Outcome)
      requires !writeMu && me.q == Parsed(r) && r.txID == NONE && TextKindOf(r.text).Ordinary?
      requires w.retry.reader < |ro| && !ro[w.retry.reader].busy && w.exec.reader < |ro| && !ro[w.exec.reader].busy
      modifies this
      ensures Settled(Abs(), out) == HeldDone(old(Abs()), me, retry, w).sh
      ensures HeldDone(old(Abs()), me, retry, w).me.pc == if out.Waits? then me.pc else AtCall(Done(out.Answer?))
      ensures out.Waits? <==> old(txMu)
      ensures forall e :: out == Error(e) <==>
        !old(txMu) && if retry then FailsRetried(e, r, old(conn), w)
                      else e == Refused && !RwOk(old(conn), r.role, r.stmt, w.exec)
      ensures out.Answer? ==> out.newID == NONE
    {
      hide RunsAs, Answered, RetriedDone, HeldDone, TextKindOf, FailsRetried, RwOk;
      HeldRuns(Abs(), me, w);
      WriteFailsIs(Abs().(txMu := true), me.(held := true), r, w.exec);
      if txMu {
        return Waits;
      }
      txMu := true;
      WorkKeepsTx(Abs(), me.(held := true), WriteQuery, w.exec);
      if retry {
        out := Reclassify(r, w, me.(held := true));
      } else {
        out := ExecuteClassifiedQuery(r, WriteQuery, w.exec, me.(held := true));
      }
      UnlockTxMu();
    }

    /** The branch of query for a request that names no transaction. */
    method QueryStandalone(r: Request, w: Responses, ghost me: Local) returns (out: Outcome)
      requires !writeMu && r.txID == NONE && me.q == Parsed(r) && ReadersFree(Abs(), w)
      modifies this
      ensures Settled(Abs(), out) == QueryDone(old(Abs()), me, w).sh
      ensures var pc := QueryDone(old(Abs()), me, w).me.pc;
              if out.Waits? then WaitsForTx(pc) else pc == AtCall(Done(out.Answer?))
      ensures r.txID == NONE && TextKindOf(r.text).BeginText? && out.Answer? ==>
        out.newID == QueryDone(old(Abs()), me, w).me.newID == w.exec.uuid
      ensures !(r.txID == NONE && TextKindOf(r.text).BeginText?) && out.Answer? ==> out.newID == NONE
      ensures out.Waits? ==> r.txID == NONE && old(txMu)
      ensures forall e :: out == Error(e) <==> Fails(e, r, old(Abs()), w)
    {
      hide QueryDone, RunsAs, Answered, HeldDone, TextKindOf, Probed, FailsAlone, FailsRetried, RwOk, Found;
      ProbedFree(Abs(), me, w);
      FailsAloneIs(Abs(), me, r, w);
      if TextKindOf(r.text).Ordinary? {
        PlainRuns(Abs(), me, w);
      } else {
        ControlRuns(Abs(), me, w);
      }
      var kind := ClassifyQuery(r, w.first, me, First);
      if kind.None? {
        if txID == NONE {
          return Error(Unclassified);
        }
        out := ExecuteOnceFree(r, true, w, me.(pc := AtCall(TokenLock(true))));
      } else if kind.value.WriteQuery? {
        out := ExecuteOnceFree(r, false, w, me.(pc := AtCall(TokenLock(false))));
      } else {
        out := ExecuteClassifiedQuery(r, kind.value, w.exec, me);
      }
    }

    /** query: everything but the count of an error. */
    method QueryUncounted(r: Request, w: Responses, ghost me: Local) returns (out: Outcome)
      requires !txOpMu && !writeMu && ReadersFree(Abs(), w) && me == Caller(Parsed(r))
      modifies this
      ensures Settled(Abs(), out) == QueryDone(old(Abs()), me, w).sh
      ensures var pc := QueryDone(old(Abs()), me, w).me.pc;
              if out.Waits? then WaitsForTx(pc) else pc == AtCall(Done(out.Answer?))
      ensures r.txID == NONE && TextKindOf(r.text).BeginText? && out.Answer? ==>
        out.newID == QueryDone(old(Abs()), me, w).me.newID == w.exec.uuid
      ensures !(r.txID == NONE && TextKindOf(r.text).BeginText?) && out.Answer? ==> out.newID == NONE
      ensures out.Waits? ==> r.txID == NONE && old(txMu)
      ensures forall e :: out == Error(e) <==> Fails(e, r, old(Abs()), w)
    {
      hide NamedDone, PlainDone, BeginDone, Fails;
      if r.txID != NONE {
        out := QueryInTx(r, w, me);
      } else {
        out := QueryStandalone(r, w, me);
      }
    }

    /** A call that begins while no other statement is under way: it ends where the step system takes
        it, with an answer, an error, or a wait for txMu. */
    method Query(r: Request, w: Responses) returns (out: Outcome)
      requires AtRest() && ReadersFree(Abs(), w)
      requires r.txID == NONE && TextKindOf(r.text).BeginText? ==> NewID(Named(log, r.txID), w.exec)
      modifies this
      ensures var sh, me := Arrived(old(Abs()), Parsed(r)), Caller(Parsed(r));
              && Abs() == QueryDone(sh, me, w).sh
              && Alone(sh, me, QueryDone(sh, me, w))
              && if out.Waits? then WaitsForTx(QueryDone(sh, me, w).me.pc)
                 else QueryDone(sh, me, w).me.pc == AtCall(Done(out.Answer?))
      ensures r.txID == NONE && TextKindOf(r.text).BeginText? && out.Answer? ==>
        out.newID == QueryDone(Arrived(old(Abs()), Parsed(r)), Caller(Parsed(r)), w).me.newID == w.exec.uuid
      ensures out.Answer? ==> out.newID == if r.txID == NONE && StartsWith(r.text, "begin") then w.exec.uuid else NONE
      ensures out.Waits? ==> r.txID == NONE && old(txMu)
      ensures forall e :: out == Error(e) <==> Fails(e, r, old(Abs()), w)
      ensures out == Error(TxNotFound) <==> r.txID != NONE && old(txID) == NONE
      ensures out == Error(TxNotMatch) <==>
        r.txID != NONE && old(txID) != NONE && (r.txID != old(txID) || (r.owner != NONE && r.owner != old(txOwner)))
      ensures out == Error(TxWithinTx) <==>
        && r.txID == old(txID) != NONE && (r.owner == NONE || r.owner == old(txOwner)) && StartsWith(r.text, "begin")
      ensures out == Error(TxIdRequired) <==>
        && r.txID == NONE
        && (StartsWith(r.text, "commit") || StartsWith(r.text, "rollback") || StartsWith(r.text, "end transaction"))
      ensures out == Error(Unclassified) <==>
        && !StartsWith(r.text, "begin") && !StartsWith(r.text, "commit")
        && !StartsWith(r.text, "rollback") && !StartsWith(r.text, "end transaction")
        && (!w.first.pool || w.first.verdict == Failed)
        && r.txID == old(txID) && (r.txID != NONE ==> r.owner == NONE || r.owner == old(txOwner))
    {
      hide QueryDone, Fails, Alone, TextKindOf, StartsWith;
      Recognised(r.text);
      FailsAtRest(r, Abs(), w);
      FailsSame(r, Abs(), Arrived(Abs(), Parsed(r)), w);
      log := Named(log, r.txID);
      QueryAlone(Abs(), Parsed(r), w);
      out := QueryUncounted(r, w, Caller(Parsed(r)));
      if out.Error? {
        stats := stats.(errorCount := stats.errorCount + 1);
      }
    }

    /** A BEGIN that had to wait tries again. */
    method ResumeBegin(role: Role, owner: Name, env: Env, ghost me: Local) returns (out: Outcome)
      requires !writeMu && me.pc == AtBegin(BeginLock) && me.q.role == role && me.q.owner == owner && NewID(log, env)
      modifies this
      ensures Abs() == BeginLocked(old(Abs()), me, env).sh
      ensures Alone(old(Abs()), me, BeginLocked(old(Abs()), me, env))
      ensures out.Waits? <==> old(txMu)
      ensures forall e :: out == Error(e) <==> e == Refused && !old(txMu) && !RwOk(old(conn), role, BeginStmt(), env)
      ensures var t := BeginLocked(old(Abs()), me, env).me;
              if out.Waits? then t == me
              else t.pc == AtCall(Done(out.Answer?)) && (out.Answer? ==> out.newID == t.newID == env.uuid)
    {
      BeginLockedAlone(Abs(), me, env);
      out := BeginOnceFree(role, owner, env, me);
      if out.Error? {
        stats := stats.(errorCount := stats.errorCount + 1);
      }
    }

    // ---- The idle monitor and Close ----

    /** The part that a tick and Close share, under txOpMu. */
    method RollBackUnderLock(id: Name, ends: bool, env: Env, ghost me: Local)
      requires id == txID && !txOpMu && !writeMu && me.q.role == Admin && (ends ==> id != NONE)
      modifies this
      ensures Abs() == ServerDone(old(Abs()), me, ends, env)
    {
      log := Loaded(Abs()).log;
      txOpMu := true;
      ghost var held := Holding(me, id, AtRw(OpRollback, RwLock));
      EndKeepsOp(Abs(), held, false, env);
      hide EndDone, EndOk;
      if ends {
        var _ := ExecuteRollbackQuery(id, Admin, env, held);
      }
      fault, txOpMu := fault || !txOpMu, false;
    }

    /** What txIdleMonitor does at a tick. */
    method Tick(env: Env, ghost me: Local)
      requires !txOpMu && !writeMu && !stopped && me.pc == AtMon(MonIdle) && me.kind.Monitor? && me.q.role == Admin
      modifies this
      ensures Abs() == TickDone(old(Abs()), me, env).sh
      ensures Alone(old(Abs()), me, TickDone(old(Abs()), me, env))
    {
      TickAlone(Abs(), me, env);
      hide ServerDone;
      var id := txID;
      RollBackUnderLock(id, id != NONE && now - txLastUsed > timeout, env, me);
    }

    predicate Expires(tick: int, env: Env, lastUsed: int) {
      tick - lastUsed > timeout && env.pool && env.healthy
    }

    /** The monitor left to itself: it takes a tick at each of these times, with these answers of pool and
        SQLite.  Whatever was open is rolled back by the first tick that comes more than the timeout
        after its last use and finds pool and SQLite cooperating, and by no other. */
    method TxIdleMonitor(ticks: seq<int>, envs: seq<Env>, ghost me: Local)
      requires AtRest() && (conn.inTx <==> txID != NONE) && |envs| == |ticks|
      requires me.pc == AtMon(MonIdle) && me.kind.Monitor? && me.q.role == Admin
      modifies this
      ensures AtRest() && (conn.inTx <==> txID != NONE) && conn.committed == old(conn.committed)
      ensures txID == NONE || txID == old(txID)
      ensures txID == NONE <==>
        old(txID) == NONE || exists k :: 0 <= k < |ticks| && Expires(ticks[k], envs[k], old(txLastUsed))
    {
      ghost var m := me;
      for i := 0 to |ticks|
        invariant AtRest() && (conn.inTx <==> txID != NONE) && conn.committed == old(conn.committed)
        invariant txID == NONE || (txID == old(txID) && txLastUsed == old(txLastUsed))
        invariant txID == NONE <==>
          old(txID) == NONE || exists k :: 0 <= k < i && Expires(ticks[k], envs[k], old(txLastUsed))
        invariant m.pc == AtMon(MonIdle) && m.kind.Monitor? && m.q.role == Admin
      {
        now := ticks[i];
        ghost var s := Abs();
        if txID != NONE {
          ServerOutcome(s, m, Overdue(s), envs[i]);
        }
        Tick(envs[i], m);
        m := TickDone(s, m, envs[i]).me;
      }
    }

    /** Close, once the monitor has stopped: nothing of an open transaction survives. */
    method Close(env: Env)
      requires AtRest() && (conn.inTx <==> txID != NONE)
      modifies this
      ensures var sh := old(Abs()).(stopped := true);
              Abs() == CloseDone(sh, CloseCall(), env).sh && Alone(sh, CloseCall(), CloseDone(sh, CloseCall(), env))
      ensures conn.committed == old(conn.committed)
      ensures env.pool && env.healthy ==> !conn.inTx && txID == NONE && !txMu
    {
      stopped := true;
      var id := txID;
      CloseAlone(Abs(), CloseCall(), env);
      if id != NONE {
        ServerOutcome(Abs(), CloseCall(), true, env);
      }
      RollBackUnderLock(id, id != NONE, env, CloseCall());
    }
  }

  /** A call of Query is a run of the step system: the request arrives, and its goroutine steps. */
  lemma QueryIsRun(s: State, q: Query, w: Responses) returns (ls: seq<Label>)
    requires Enabled(s, Arrive(q)) && !s.sh.writeMu && !s.sh.txOpMu
    requires ReadersFree(s.sh, w)
    requires q.txID == NONE && q.form.BeginText? ==> NewID(Named(s.sh.log, q.txID), w.exec)
    ensures var d := QueryDone(Arrived(s.sh, q), Caller(q), w);
            Leads(s, ls, State(d.sh, s.procs + [d.me]))
  {
    QueryAlone(Arrived(s.sh, q), q, w);
    ls := CallLeads(s, q, QueryDone(Arrived(s.sh, q), Caller(q), w));
  }
}
