/**
 The transaction coordinator of internal/db/db.go as a step system.

 Each goroutine (a Query call, the idle monitor, Close) has a program counter; a step is one access
 to something shared: locking or unlocking a mutex, loading or storing an atomic, one call into
 SQLite, one statistics counter.  Steps of different goroutines interleave freely.
 */
module Protocol {
  import opened History
  import opened QueryText
  import opened Sqlite
  import opened Wrappers

  /** stmt is what the text means to SQLite; it is executed only if the text is an ordinary one. */
  datatype Query = Query(txID: Name, owner: Name, form: TextKind, stmt: Stmt, role: Role)

  // ---- Shared state ----

  datatype Stats = Stats(
    readCount: int, writeCount: int, beginCount: int, commitCount: int, rollbackCount: int,
    errorCount: int, queuedBegins: int, queuedWrites: int)

  /** A connection of the read-only pool: checked out or not, and its authorizer role. */
  datatype RoConn = RoConn(busy: bool, role: Role)

  /** History kept for the statements about runs; no step's choice depends on it, except that a
      new transaction ID is one nobody has used.
      - issued, known: IDs stored by some BEGIN, and IDs some BEGIN has returned to its client
      - named: IDs that requests have carried
      - leaked: some request carried an ID before the BEGIN that made it had returned
      - unattended: rollbacks counted on behalf of the monitor or of Close */
  datatype Log = Log(
    trace: Trace, issued: set<Name>, known: set<Name>, named: set<Name>,
    leaked: bool, unattended: int)

  /** fault records the unlocking of a mutex that is not locked, which stops a Go program. */
  datatype Shared = Shared(
    txMu: bool, txOpMu: bool, writeMu: bool, fault: bool,
    txID: Name, txOwner: Name, txLastUsed: int,
    conn: Conn, ro: seq<RoConn>, stats: Stats,
    now: int, timeout: int, stopped: bool, log: Log)

  function UnlockTx(sh: Shared): Shared {
    sh.(txMu := false, fault := sh.fault || !sh.txMu)
  }

  function UnlockOp(sh: Shared): Shared {
    sh.(txOpMu := false, fault := sh.fault || !sh.txOpMu)
  }

  function UnlockWrite(sh: Shared): Shared {
    sh.(writeMu := false, fault := sh.fault || !sh.writeMu)
  }

  ghost function Record(sh: Shared, e: Event): Shared {
    sh.(log := sh.log.(trace := Then(sh.log.trace, e)))
  }

  // ---- Goroutines ----

  /** What is done on the read-write connection between locking and unlocking writeMu. */
  datatype RwOp = OpBegin | OpCommit | OpRollback | OpClassify | OpRead | OpWrite

  /** What is done on a read-only connection: classification, classification under txMu, a read. */
  datatype RoOp = First | Retry | Fetch

  /** How work on a connection came out; a classification that works says which kind it found. */
  datatype Verdict = Failed | Fine | AsRead | AsWrite

  /** On a read-only connection c. */
  datatype RoAt =
    | RoAcquire | RoSetRole(c: nat) | RoExec(c: nat) | RoCount(c: nat) | RoReturn(c: nat, v: Verdict)

  /** Between locking and unlocking writeMu. */
  datatype RwAt = RwLock | RwSetRole | RwExec | RwUnlock(v: Verdict)

  /** executeBeginQuery around its use of the read-write connection. */
  datatype BeginAt =
    | BeginEnter | BeginLock | PubId | PubOwner | PubTime | PubCount | BeginAbort
    | BeginLeave(ok: bool)

  /** After a successful COMMIT or ROLLBACK. */
  datatype EndAt = ClearId | ClearOwner | ClearTime | EndCount | EndUnlock

  /** A request that names a transaction. */
  datatype TxAt = OpLock | CheckId | CheckOwner | TouchIn | TouchOut(ok: bool) | OpUnlock(ok: bool)

  /** A tick of the idle monitor, or Close. */
  datatype MonAt = MonIdle | MonLock | MonLoad | MonCheck | MonUnlock

  /** Around executeWriteQuery, and the count of a read on the read-write connection. */
  datatype WorkAt = WriteEnter | WriteCount | WriteLeave(ok: bool) | ReadCount

  /** Entry and exit of Query, and txMu around a statement without a transaction ID. */
  datatype CallAt =
    | Entry | Fail | Done(ok: bool) | CheckOpen | TokenLock(retry: bool) | TokenUnlock(ok: bool)

  datatype PC =
    | AtRo(ro: RoOp, roAt: RoAt)
    | AtRw(op: RwOp, rwAt: RwAt)
    | AtBegin(begin: BeginAt)
    | AtEnd(commit: bool, end: EndAt)
    | AtTx(tx: TxAt)
    | AtMon(mon: MonAt)
    | AtWork(work: WorkAt)
    | AtCall(call: CallAt)

  /** A goroutine.  held: it locked txMu for a statement without a transaction ID and has deferred
      the unlock.  newID: the ID a BEGIN made.  seen: history, the committed database at the
      moment a re-classification succeeded. */
  datatype Local = Local(
    kind: Kind, q: Query, pc: PC, held: bool, newID: Name, seen: Option<Db>)

  /** Everything a step leaves open: whether SQLite and the pool cooperate, what a classification
      finds, which free read-only connection the pool hands out, which UUID is drawn. */
  datatype Choice = Choice(ok: bool, verdict: Verdict, conn: nat, uuid: Name)

  function CredOf(me: Local): Cred {
    Cred(me.kind, me.q.role, me.q.owner)
  }

  /** Finishing a Query call. */
  function Finish(me: Local, ok: bool): Local {
    me.(pc := AtCall(if ok then Done(true) else Fail))
  }

  /** Where a statement goes once it knows what it is (executeClassifiedQuery).  A BEGIN with a
      transaction ID, and a COMMIT or ROLLBACK without one, is refused. */
  function Dispatch(me: Local): Local {
    if me.q.txID != NONE then
      me.(pc := match me.q.form
                case BeginText => AtTx(TouchOut(false))
                case CommitText => AtRw(OpCommit, RwLock)
                case RollbackText => AtRw(OpRollback, RwLock)
                case Ordinary => AtRw(OpClassify, RwLock))
    else
      me.(pc := match me.q.form
                case BeginText => AtBegin(BeginEnter)
                case CommitText | RollbackText => AtCall(Fail)
                case Ordinary => AtRo(First, RoAcquire))
  }

  /** Where a goroutine goes from the read-only connection. */
  function AfterRo(me: Local, ro: RoOp, v: Verdict): Local {
    match ro
    case First =>
      me.(pc := if v == Failed then AtCall(CheckOpen)
                else if v == AsWrite then AtCall(TokenLock(false))
                else AtRo(Fetch, RoAcquire))
    case Retry =>
      me.(pc := if v == Failed then AtCall(TokenUnlock(false))
                else if v == AsWrite then AtWork(WriteEnter)
                else AtRo(Fetch, RoAcquire))
    case Fetch =>
      if me.held then me.(pc := AtCall(TokenUnlock(v != Failed))) else Finish(me, v != Failed)
  }

  /** Where a goroutine goes from the read-write connection. */
  function AfterRw(me: Local, op: RwOp, v: Verdict): Local {
    me.(pc :=
      match op
      case OpBegin => AtBegin(if v == Failed then BeginAbort else PubId)
      case OpCommit => if v == Failed then AtTx(TouchOut(false)) else AtEnd(true, ClearId)
      case OpRollback =>
        if v != Failed then AtEnd(false, ClearId)
        else if me.kind.Client? then AtTx(TouchOut(false))
        else AtMon(MonUnlock)
      case OpClassify =>
        if v == Failed then AtTx(TouchOut(false))
        else if v == AsWrite then AtWork(WriteEnter)
        else AtRw(OpRead, RwLock)
      case OpRead => if v == Failed then AtTx(TouchOut(false)) else AtWork(ReadCount)
      case OpWrite => AtWork(if v == Failed then WriteLeave(false) else WriteCount))
  }

  function StmtFor(me: Local, op: RwOp): Stmt {
    match op
    case OpBegin => BeginStmt()
    case OpCommit => CommitStmt()
    case OpRollback => RollbackStmt()
    case _ => me.q.stmt
  }

  /** The role withReadWriteConn or a classification puts on the connection. */
  function RwRole(me: Local, op: RwOp): Role {
    if op.OpClassify? then Admin else me.q.role
  }

  function RoRole(me: Local, ro: RoOp): Role {
    if ro.Fetch? then me.q.role else Admin
  }

  ghost function EventFor(sh: Shared, me: Local, op: RwOp): Event
    requires !op.OpBegin? && !op.OpClassify?
  {
    match op
    case OpCommit => Committed(me.q.txID, CredOf(me), sh.conn.role)
    case OpRollback => RolledBack(me.q.txID, CredOf(me), sh.conn.role, sh.now)
    case OpRead => Saw(me.q.txID, me.q.stmt, sh.conn.View(), CredOf(me), sh.conn.role)
    case OpWrite => Wrote(me.q.txID, me.q.stmt, CredOf(me), sh.conn.role)
  }

  // ---- One step of one goroutine ----

  /** Whether the step is not blocked: a mutex to lock is free, a pooled connection is there,
      a UUID is new. */
  ghost predicate Can(sh: Shared, me: Local, c: Choice) {
    match me.pc
    case AtRo(_, RoAcquire) => c.ok ==> c.conn < |sh.ro| && !sh.ro[c.conn].busy
    case AtRo(_, at) => at.c < |sh.ro|
    case AtRw(_, RwLock) => !sh.writeMu
    case AtBegin(BeginLock) => !sh.txMu
    case AtBegin(PubId) => c.uuid != NONE && c.uuid !in sh.log.issued && c.uuid !in sh.log.named
    case AtTx(OpLock) => !sh.txOpMu
    case AtMon(MonLock) => !sh.txOpMu
    case AtMon(MonIdle) => !sh.stopped
    case AtCall(TokenLock(_)) => !sh.txMu
    case AtCall(Done(_)) => false
    case _ => true
  }

  /** What one step makes of the shared state and of the goroutine that takes it. */
  datatype Turn = Turn(sh: Shared, me: Local)

  function WithRo(sh: Shared, k: nat, conn: RoConn): Shared
    requires k < |sh.ro|
  {
    sh.(ro := sh.ro[k := conn])
  }

  /** classifyQueryOnReadOnlyConn and the transaction-less half of executeReadQuery. */
  ghost function ActRo(sh: Shared, me: Local, c: Choice): Turn
    requires me.pc.AtRo? && Can(sh, me, c)
  {
    var ro := me.pc.ro;
    match me.pc.roAt
    case RoAcquire =>
      if !c.ok then Turn(sh, AfterRo(me, ro, Failed))
      else Turn(WithRo(sh, c.conn, sh.ro[c.conn].(busy := true)), me.(pc := AtRo(ro, RoSetRole(c.conn))))
    case RoSetRole(k) =>
      Turn(WithRo(sh, k, sh.ro[k].(role := RoRole(me, ro))), me.(pc := AtRo(ro, RoExec(k))))
    case RoExec(k) =>
      if ro.Fetch? then
        if c.ok && sh.ro[k].role in me.q.stmt.roles then
          Turn(Record(sh, Saw(NONE, me.q.stmt, sh.conn.committed, CredOf(me), sh.ro[k].role)),
               me.(pc := AtRo(ro, RoCount(k))))
        else Turn(sh, me.(pc := AtRo(ro, RoReturn(k, Failed))))
      else
        Turn(sh, me.(pc := AtRo(ro, RoReturn(k, c.verdict)),
                     seen := if ro.Retry? && c.verdict != Failed then Some(sh.conn.committed) else me.seen))
    case RoCount(k) =>
      Turn(sh.(stats := sh.stats.(readCount := sh.stats.readCount + 1)), me.(pc := AtRo(ro, RoReturn(k, Fine))))
    case RoReturn(k, v) => Turn(WithRo(sh, k, sh.ro[k].(busy := false)), AfterRo(me, ro, v))
  }

  /** withReadWriteConn and classifyQueryOnReadWriteConn. */
  ghost function ActRw(sh: Shared, me: Local, c: Choice): Turn
    requires me.pc.AtRw?
  {
    var op := me.pc.op;
    match me.pc.rwAt
    case RwLock => Turn(sh.(writeMu := true), me.(pc := AtRw(op, RwSetRole)))
    case RwSetRole =>
      if !c.ok then Turn(sh, me.(pc := AtRw(op, RwUnlock(Failed))))
      else Turn(sh.(conn := sh.conn.(role := RwRole(me, op))), me.(pc := AtRw(op, RwExec)))
    case RwExec =>
      if op.OpClassify? then Turn(sh, me.(pc := AtRw(op, RwUnlock(c.verdict))))
      else if sh.conn.Succeeds(StmtFor(me, op), c.ok) then
        var after := sh.(conn := sh.conn.After(StmtFor(me, op), op.OpWrite?));
        Turn(if op.OpBegin? then after else Record(after, EventFor(sh, me, op)),
             me.(pc := AtRw(op, RwUnlock(Fine))))
      else Turn(sh, me.(pc := AtRw(op, RwUnlock(Failed))))
    case RwUnlock(v) => Turn(UnlockWrite(sh), AfterRw(me, op, v))
  }

  ghost function ActBegin(sh: Shared, me: Local, c: Choice): Turn
    requires me.pc.AtBegin?
  {
    match me.pc.begin
    case BeginEnter =>
      Turn(sh.(stats := sh.stats.(queuedBegins := sh.stats.queuedBegins + 1)), me.(pc := AtBegin(BeginLock)))
    case BeginLock => Turn(sh.(txMu := true), me.(pc := AtRw(OpBegin, RwLock)))
    case PubId =>
      var log := sh.log.(trace := Then(sh.log.trace, Began(c.uuid, CredOf(me), sh.now)),
                         issued := sh.log.issued + {c.uuid});
      Turn(sh.(txID := c.uuid, log := log), me.(pc := AtBegin(PubOwner), newID := c.uuid))
    case PubOwner => Turn(sh.(txOwner := me.q.owner), me.(pc := AtBegin(PubTime)))
    case PubTime =>
      Turn(sh.(txLastUsed := sh.now), me.(pc := AtBegin(PubCount)))
    case PubCount =>
      Turn(sh.(stats := sh.stats.(beginCount := sh.stats.beginCount + 1)), me.(pc := AtBegin(BeginLeave(true))))
    case BeginAbort => Turn(UnlockTx(sh), me.(pc := AtBegin(BeginLeave(false))))
    case BeginLeave(ok) =>
      Turn(sh.(stats := sh.stats.(queuedBegins := sh.stats.queuedBegins - 1),
               log := if ok then sh.log.(known := sh.log.known + {me.newID}) else sh.log),
           Finish(me, ok))
  }

  /** The stores, the count and the unlock that follow a successful COMMIT or ROLLBACK. */
  ghost function ActEnd(sh: Shared, me: Local): Turn
    requires me.pc.AtEnd?
  {
    var k := me.pc.commit;
    match me.pc.end
    case ClearId => Turn(sh.(txID := NONE), me.(pc := AtEnd(k, ClearOwner)))
    case ClearOwner => Turn(sh.(txOwner := NONE), me.(pc := AtEnd(k, ClearTime)))
    case ClearTime => Turn(sh.(txLastUsed := sh.now), me.(pc := AtEnd(k, EndCount)))
    case EndCount =>
      Turn(sh.(stats := if k then sh.stats.(commitCount := sh.stats.commitCount + 1)
                        else sh.stats.(rollbackCount := sh.stats.rollbackCount + 1),
               log := sh.log.(unattended := sh.log.unattended + if me.kind.Client? then 0 else 1)),
           me.(pc := AtEnd(k, EndUnlock)))
    case EndUnlock =>
      Turn(UnlockTx(sh), me.(pc := if me.kind.Client? then AtTx(TouchOut(true)) else AtMon(MonUnlock)))
  }

  /** query, queryWithType and validateTxID for a request that names a transaction. */
  ghost function ActTx(sh: Shared, me: Local): Turn
    requires me.pc.AtTx?
  {
    match me.pc.tx
    case OpLock => Turn(sh.(txOpMu := true), me.(pc := AtTx(CheckId)))
    case CheckId =>
      Turn(sh, me.(pc := AtTx(if sh.txID == NONE || me.q.txID != sh.txID then OpUnlock(false) else CheckOwner)))
    case CheckOwner =>
      Turn(sh, me.(pc := AtTx(if me.q.owner != NONE && me.q.owner != sh.txOwner then OpUnlock(false)
                              else TouchIn)))
    case TouchIn => Turn(Record(sh.(txLastUsed := sh.now), Used(me.q.txID, sh.now)), Dispatch(me))
    case TouchOut(ok) =>
      var touched := sh.(txLastUsed := sh.now);
      Turn(if sh.txID == me.q.txID then Record(touched, Used(me.q.txID, sh.now)) else touched,
           me.(pc := AtTx(OpUnlock(ok))))
    case OpUnlock(ok) => Turn(UnlockOp(sh), Finish(me, ok))
  }

  /** One tick of txIdleMonitor, and Close. */
  ghost function ActMon(sh: Shared, me: Local): Turn
    requires me.pc.AtMon?
  {
    match me.pc.mon
    case MonIdle => Turn(sh, me.(pc := AtMon(MonLock)))
    case MonLock => Turn(sh.(txOpMu := true), me.(pc := AtMon(MonLoad)))
    case MonLoad =>
      Turn(sh, me.(q := me.q.(txID := sh.txID),
               pc := if sh.txID == NONE then AtMon(MonUnlock)
                     else if me.kind.Closer? then AtRw(OpRollback, RwLock)
                     else AtMon(MonCheck)))
    case MonCheck =>
      Turn(sh, me.(pc := if sh.now - sh.txLastUsed > sh.timeout then AtRw(OpRollback, RwLock)
                         else AtMon(MonUnlock)))
    case MonUnlock =>
      Turn(UnlockOp(sh), me.(pc := if me.kind.Closer? then AtCall(Done(true)) else AtMon(MonIdle)))
  }

  ghost function ActWork(sh: Shared, me: Local): Turn
    requires me.pc.AtWork?
  {
    match me.pc.work
    case WriteEnter =>
      Turn(sh.(stats := sh.stats.(queuedWrites := sh.stats.queuedWrites + 1)), me.(pc := AtRw(OpWrite, RwLock)))
    case WriteCount =>
      Turn(sh.(stats := sh.stats.(writeCount := sh.stats.writeCount + 1)), me.(pc := AtWork(WriteLeave(true))))
    case WriteLeave(ok) =>
      Turn(sh.(stats := sh.stats.(queuedWrites := sh.stats.queuedWrites - 1)),
           me.(pc := if me.q.txID != NONE then AtTx(TouchOut(ok)) else AtCall(TokenUnlock(ok))))
    case ReadCount =>
      Turn(sh.(stats := sh.stats.(readCount := sh.stats.readCount + 1)), me.(pc := AtTx(TouchOut(true))))
  }

  /** Query's entry and error count, and the standalone path through query. */
  ghost function ActCall(sh: Shared, me: Local): Turn
    requires me.pc.AtCall? && !me.pc.call.Done?
  {
    match me.pc.call
    case Entry => Turn(sh, if me.q.txID != NONE then me.(pc := AtTx(OpLock)) else Dispatch(me))
    case Fail => Turn(sh.(stats := sh.stats.(errorCount := sh.stats.errorCount + 1)), me.(pc := AtCall(Done(false))))
    case CheckOpen => Turn(sh, me.(pc := AtCall(if sh.txID == NONE then Fail else TokenLock(true))))
    case TokenLock(retry) =>
      Turn(sh.(txMu := true), me.(pc := if retry then AtRo(Retry, RoAcquire) else AtWork(WriteEnter), held := true))
    case TokenUnlock(ok) => Turn(UnlockTx(sh), Finish(me.(held := false), ok))
  }

  ghost function Act(sh: Shared, me: Local, c: Choice): Turn
    requires Can(sh, me, c)
  {
    match me.pc
    case AtRo(_, _) => ActRo(sh, me, c)
    case AtRw(_, _) => ActRw(sh, me, c)
    case AtBegin(_) => ActBegin(sh, me, c)
    case AtEnd(_, _) => ActEnd(sh, me)
    case AtTx(_) => ActTx(sh, me)
    case AtMon(_) => ActMon(sh, me)
    case AtWork(_) => ActWork(sh, me)
    case AtCall(_) => ActCall(sh, me)
  }

  // ---- The whole system ----

  /** procs[0] is the idle monitor; every Query call and Close is appended when it starts. */
  datatype State = State(sh: Shared, procs: seq<Local>)

  datatype Label =
    | Run(pid: nat, c: Choice)
    | Arrive(q: Query)
    | Advance(d: nat)
    | Shutdown

  function Caller(q: Query): Local {
    Local(Client, q, AtCall(Entry), false, NONE, None)
  }

  /** A rollback on behalf of the server itself runs as administrator; the statement is unused. */
  function ServerQuery(): Query {
    Query(NONE, NONE, RollbackText, Stmt(db => db, Plain, {Admin}, false), Admin)
  }

  function IdleMonitor(): Local {
    Local(Monitor, ServerQuery(), AtMon(MonIdle), false, NONE, None)
  }

  function CloseCall(): Local {
    Local(Closer, ServerQuery(), AtMon(MonLock), false, NONE, None)
  }

  predicate Finished(pc: PC) {
    pc.AtCall? && pc.call.Done?
  }

  /** Waiting for txMu: a BEGIN, a standalone write, or a statement to be re-classified. */
  predicate WaitsForTx(pc: PC) {
    pc == AtBegin(BeginLock) || (pc.AtCall? && pc.call.TokenLock?)
  }

  /** Every Query call and Close has finished and the monitor is between ticks. */
  ghost predicate Quiescent(s: State) {
    forall i :: 0 <= i < |s.procs| ==> Finished(s.procs[i].pc) || s.procs[i].pc == AtMon(MonIdle)
  }

  /** Close runs after the server has stopped taking requests, and waits for the monitor first. */
  ghost predicate Enabled(s: State, l: Label) {
    match l
    case Run(pid, c) => pid < |s.procs| && Can(s.sh, s.procs[pid], c)
    case Arrive(_) => !s.sh.stopped
    case Advance(_) => true
    case Shutdown => !s.sh.stopped && Quiescent(s)
  }

  ghost function Named(log: Log, id: Name): Log {
    log.(named := log.named + {id}, leaked := log.leaked || (id in log.issued && id !in log.known))
  }

  ghost function Next(s: State, l: Label): State
    requires Enabled(s, l)
  {
    match l
    case Run(pid, c) =>
      var r := Act(s.sh, s.procs[pid], c);
      State(r.sh, s.procs[pid := r.me])
    case Arrive(q) => State(s.sh.(log := Named(s.sh.log, q.txID)), s.procs + [Caller(q)])
    case Advance(d) => s.(sh := s.sh.(now := s.sh.now + d))
    case Shutdown => State(s.sh.(stopped := true), s.procs + [CloseCall()])
  }

  /** The database just opened: no transaction, every mutex free, n read-only connections. */
  ghost predicate Initial(s: State) {
    && s.procs == [IdleMonitor()]
    && !s.sh.txMu && !s.sh.txOpMu && !s.sh.writeMu && !s.sh.fault && !s.sh.stopped
    && s.sh.txID == NONE && s.sh.txOwner == NONE && !s.sh.conn.inTx
    && |s.sh.ro| > 0 && (forall k :: 0 <= k < |s.sh.ro| ==> !s.sh.ro[k].busy)
    && s.sh.stats == Stats(0, 0, 0, 0, 0, 0, 0, 0)
    && s.sh.timeout > 0 && s.sh.txLastUsed <= s.sh.now
    && s.sh.log == Log(History.Start, {}, {}, {}, false, 0)
  }

  /** s leads to t by the steps in ls. */
  ghost predicate Leads(s: State, ls: seq<Label>, t: State)
    decreases |ls|
  {
    if ls == [] then s == t
    else Enabled(s, ls[0]) && Leads(Next(s, ls[0]), ls[1..], t)
  }

  ghost predicate Reachable(t: State) {
    exists s, ls :: Initial(s) && Leads(s, ls, t)
  }
}
