/**
 Closed forms of whole operations, put together from those of Operations: what each method of DB in
 internal/db/db.go makes of the shared state when its goroutine runs alone, and where it stops.
 */
module Calls {
  import opened History
  import opened Operations
  import opened Protocol
  import opened QueryText
  import opened Solo
  import opened Sqlite
  import opened Wrappers

  /** The world's answers during one call: to the first classification, to the classification under
      txMu, to the execution. */
  datatype Responses = Responses(first: Env, retry: Env, exec: Env)

  function Found(env: Env): Verdict {
    if env.pool then env.verdict else Failed
  }

  // ---- executeBeginQuery ----

  predicate BeginOk(sh: Shared, me: Local, env: Env) {
    RwOk(sh.conn, me.q.role, BeginStmt(), env)
  }

  /** From the lock of txMu on, without the count of an error. */
  ghost function BeginRan(sh: Shared, me: Local, env: Env): Shared {
    var after := RwAfter(sh.(txMu := true), me, OpBegin, env);
    if sh.txMu then sh
    else if BeginOk(sh, me, env) then BeginStored(after, me, env.uuid)
    else BeginGivenUp(after)
  }

  ghost function BeginLocked(sh: Shared, me: Local, env: Env): Turn {
    if sh.txMu then Turn(sh, me)
    else if BeginOk(sh, me, env) then
      Turn(BeginRan(sh, me, env), me.(pc := AtCall(Done(true)), newID := env.uuid))
    else
      Turn(Failing(BeginRan(sh, me, env)), me.(pc := AtCall(Done(false))))
  }

  ghost function BeginDone(sh: Shared, me: Local, env: Env): Turn {
    BeginLocked(sh.(stats := sh.stats.(queuedBegins := sh.stats.queuedBegins + 1)),
                me.(pc := AtBegin(BeginLock)), env)
  }

  predicate NewID(log: Log, env: Env) {
    env.uuid != NONE && env.uuid !in log.issued && env.uuid !in log.named
  }

  lemma BeginTail(sh: Shared, me: Local, env: Env, v: Verdict)
    requires NewID(sh.log, env) && me.pc == AtBegin(if v == Failed then BeginAbort else PubId)
    ensures Alone(sh, me, if v == Failed then Turn(Failing(BeginGivenUp(sh)), me.(pc := AtCall(Done(false))))
                          else Turn(BeginStored(sh, me, env.uuid), me.(pc := AtCall(Done(true)), newID := env.uuid)))
  {
    if v == Failed {
      BeginGivesUp(sh, me, env.Take());
    } else {
      BeginStores(sh, me, env.Take());
    }
  }

  lemma BeginLockedAlone(sh: Shared, me: Local, env: Env)
    requires me.pc == AtBegin(BeginLock) && !sh.writeMu && NewID(sh.log, env)
    ensures Alone(sh, me, BeginLocked(sh, me, env))
  {
    if sh.txMu {
      AloneStart(sh, me);
    } else {
      AloneStep(sh, me, env.Take());
      var a := Turn(sh.(txMu := true), me.(pc := AtRw(OpBegin, RwLock)));
      RwSection(a.sh, a.me, OpBegin, env);
      var v := if BeginOk(sh, me, env) then Fine else Failed;
      var b := Turn(RwAfter(a.sh, a.me, OpBegin, env), AfterRw(a.me, OpBegin, v));
      AloneThen(sh, me, a, b);
      BeginTail(b.sh, b.me, env, v);
      AloneThen(sh, me, b, BeginLocked(sh, me, env));
    }
  }

  lemma BeginAlone(sh: Shared, me: Local, env: Env)
    requires me.pc == AtBegin(BeginEnter) && !sh.writeMu && NewID(sh.log, env)
    ensures Alone(sh, me, BeginDone(sh, me, env))
  {
    BeginWaits(sh, me, env.Take());
    var a := Turn(sh.(stats := sh.stats.(queuedBegins := sh.stats.queuedBegins + 1)), me.(pc := AtBegin(BeginLock)));
    BeginLockedAlone(a.sh, a.me, env);
    AloneThen(sh, me, a, BeginDone(sh, me, env));
  }

  // ---- executeCommitQuery and executeRollbackQuery ----

  function EndOp(commit: bool): RwOp {
    if commit then OpCommit else OpRollback
  }

  function EndStmt(commit: bool): Stmt {
    if commit then CommitStmt() else RollbackStmt()
  }

  predicate EndOk(sh: Shared, me: Local, commit: bool, env: Env) {
    RwOk(sh.conn, me.q.role, EndStmt(commit), env)
  }

  function EndPlace(me: Local, ok: bool): PC {
    if me.kind.Client? then AtTx(TouchOut(ok)) else AtMon(MonUnlock)
  }

  ghost function EndDone(sh: Shared, me: Local, commit: bool, env: Env): Turn {
    var after := RwAfter(sh, me, EndOp(commit), env);
    var ok := EndOk(sh, me, commit, env);
    Turn(if ok then EndStored(after, me, commit) else after, me.(pc := EndPlace(me, ok)))
  }

  lemma EndAlone(sh: Shared, me: Local, commit: bool, env: Env)
    requires me.pc == AtRw(EndOp(commit), RwLock) && !sh.writeMu && (commit ==> me.kind.Client?)
    ensures Alone(sh, me, EndDone(sh, me, commit, env))
  {
    RwSection(sh, me, EndOp(commit), env);
    assert StmtFor(me, EndOp(commit)) == EndStmt(commit);
    if EndOk(sh, me, commit, env) {
      var a := Turn(RwAfter(sh, me, EndOp(commit), env), me.(pc := AtEnd(commit, ClearId)));
      EndStores(a.sh, a.me, commit, env.Take());
      AloneThen(sh, me, a, EndDone(sh, me, commit, env));
    }
  }

  // ---- executeWriteQuery, and executeReadQuery in a transaction ----

  predicate WorkOk(sh: Shared, me: Local, env: Env) {
    RwOk(sh.conn, me.q.role, me.q.stmt, env)
  }

  ghost function WriteDone(sh: Shared, me: Local, env: Env): Turn {
    var queued := sh.(stats := sh.stats.(queuedWrites := sh.stats.queuedWrites + 1));
    var ok := WorkOk(sh, me, env);
    Turn(WriteCounted(RwAfter(queued, me, OpWrite, env), ok),
         me.(pc := if me.q.txID != NONE then AtTx(TouchOut(ok)) else AtCall(TokenUnlock(ok))))
  }

  lemma WriteAlone(sh: Shared, me: Local, env: Env)
    requires me.pc == AtWork(WriteEnter) && !sh.writeMu
    ensures Alone(sh, me, WriteDone(sh, me, env))
  {
    AloneStep(sh, me, env.Take());
    var a := Turn(sh.(stats := sh.stats.(queuedWrites := sh.stats.queuedWrites + 1)), me.(pc := AtRw(OpWrite, RwLock)));
    RwSection(a.sh, a.me, OpWrite, env);
    var ok := WorkOk(sh, me, env);
    var b := Turn(RwAfter(a.sh, a.me, OpWrite, env), AfterRw(a.me, OpWrite, if ok then Fine else Failed));
    AloneThen(sh, me, a, b);
    WriteCounts(b.sh, b.me, ok, env.Take());
    AloneThen(sh, me, b, WriteDone(sh, me, env));
  }

  ghost function ReadDone(sh: Shared, me: Local, env: Env): Turn {
    var after := RwAfter(sh, me, OpRead, env);
    var ok := WorkOk(sh, me, env);
    Turn(if ok then after.(stats := after.stats.(readCount := after.stats.readCount + 1)) else after,
         me.(pc := AtTx(TouchOut(ok))))
  }

  lemma ReadAlone(sh: Shared, me: Local, env: Env)
    requires me.pc == AtRw(OpRead, RwLock) && !sh.writeMu
    ensures Alone(sh, me, ReadDone(sh, me, env))
  {
    RwSection(sh, me, OpRead, env);
    if WorkOk(sh, me, env) {
      var a := Turn(RwAfter(sh, me, OpRead, env), me.(pc := AtWork(ReadCount)));
      AloneOn(sh, me, a, env.Take());
      assert Act(a.sh, a.me, env.Take()) == ReadDone(sh, me, env);
    }
  }

  // ---- executeReadQuery on a read-only connection ----

  ghost function Probed(sh: Shared, me: Local, ro: RoOp, env: Env): Shared
    requires env.reader < |sh.ro|
  {
    if env.pool then Returned(sh, me, ro, env.reader) else sh
  }

  ghost function FetchDone(sh: Shared, me: Local, env: Env): Turn
    requires env.reader < |sh.ro|
  {
    if env.pool && FetchOk(me, env) then
      Turn(Returned(Fetched(sh, me), me, Fetch, env.reader), AfterRo(me, Fetch, Fine))
    else Turn(Probed(sh, me, Fetch, env), AfterRo(me, Fetch, Failed))
  }

  // ---- executeClassifiedQuery ----

  datatype QueryKind = BeginQuery | CommitQuery | RollbackQuery | ReadQuery | WriteQuery

  /** What executing a statement as one of this kind makes of the shared state, apart from the count
      of an error. */
  ghost function RunsAs(sh: Shared, me: Local, kind: QueryKind, env: Env): Shared
    requires env.reader < |sh.ro|
  {
    match kind
    case BeginQuery =>
      if me.q.txID != NONE then sh
      else BeginRan(sh.(stats := sh.stats.(queuedBegins := sh.stats.queuedBegins + 1)), me, env)
    case CommitQuery => if me.q.txID == NONE then sh else EndDone(sh, me, true, env).sh
    case RollbackQuery => if me.q.txID == NONE then sh else EndDone(sh, me, false, env).sh
    case ReadQuery => if me.q.txID == NONE then FetchDone(sh, me, env).sh else ReadDone(sh, me, env).sh
    case WriteQuery => WriteDone(sh, me, env).sh
  }

  /** Whether it is answered, or at least not refused. */
  predicate Answered(sh: Shared, me: Local, kind: QueryKind, env: Env) {
    match kind
    case BeginQuery => me.q.txID == NONE && (sh.txMu || BeginOk(sh, me, env))
    case CommitQuery => me.q.txID != NONE && EndOk(sh, me, true, env)
    case RollbackQuery => me.q.txID != NONE && EndOk(sh, me, false, env)
    case ReadQuery => if me.q.txID == NONE then env.pool && FetchOk(me, env) else WorkOk(sh, me, env)
    case WriteQuery => WorkOk(sh, me, env)
  }

  /** What a text is classified as; None is an error. */
  function KindOf(form: TextKind, v: Verdict): Option<QueryKind> {
    match form
    case BeginText => Some(BeginQuery)
    case CommitText => Some(CommitQuery)
    case RollbackText => Some(RollbackQuery)
    case Ordinary => if v == Failed then None else if v == AsWrite then Some(WriteQuery) else Some(ReadQuery)
  }

  // ---- queryWithType: a request that names the open transaction ----

  ghost function Classified(sh: Shared, env: Env): Shared {
    if env.pool then sh.(conn := sh.conn.(role := Admin)) else sh
  }

  /** From the dispatch on the text to the second store of txLastUsed. */
  ghost function TypedDone(sh: Shared, me: Local, w: Responses): Turn {
    match me.q.form
    case BeginText => Turn(sh, me.(pc := AtTx(TouchOut(false))))
    case CommitText => EndDone(sh, me, true, w.exec)
    case RollbackText => EndDone(sh, me, false, w.exec)
    case Ordinary =>
      if Found(w.first) == Failed then Turn(Classified(sh, w.first), me.(pc := AtTx(TouchOut(false))))
      else if Found(w.first) == AsWrite then WriteDone(Classified(sh, w.first), me, w.exec)
      else ReadDone(Classified(sh, w.first), me, w.exec)
  }

  /** Where a goroutine stands does not matter to what its write or read does. */
  lemma WorkAnywhere(sh: Shared, me: Local, pc: PC, env: Env)
    ensures WriteDone(sh, me.(pc := pc), env) == WriteDone(sh, me, env)
    ensures ReadDone(sh, me.(pc := pc), env) == ReadDone(sh, me, env)
  {
  }

  lemma SortedAlone(sh: Shared, me: Local, v: Verdict, env: Env)
    requires me.q.txID != NONE && !sh.writeMu && me.pc == AfterRw(me, OpClassify, v).pc && v != Failed
    ensures Alone(sh, me, if v == AsWrite then WriteDone(sh, me, env) else ReadDone(sh, me, env))
  {
    if v == AsWrite {
      WriteAlone(sh, me, env);
    } else {
      ReadAlone(sh, me, env);
    }
  }

  lemma OrdinaryAlone(sh: Shared, me: Local, w: Responses)
    requires me.q.form.Ordinary? && me.q.txID != NONE && !sh.writeMu && me.pc == AtRw(OpClassify, RwLock)
    ensures Alone(sh, me, TypedDone(sh, me, w))
  {
    ClassifySection(sh, me, w.first);
    var v := Found(w.first);
    var a := Turn(Classified(sh, w.first), AfterRw(me, OpClassify, v));
    if v != Failed {
      SortedAlone(a.sh, a.me, v, w.exec);
      WorkAnywhere(a.sh, me, a.me.pc, w.exec);
      AloneThen(sh, me, a, TypedDone(sh, me, w));
    }
  }

  lemma TypedAlone(sh: Shared, me: Local, w: Responses)
    requires me.kind.Client? && me.q.txID != NONE && !sh.writeMu && me == Dispatch(me)
    ensures Alone(sh, me, TypedDone(sh, me, w))
    ensures TypedDone(sh, me, w).me.pc.AtTx? && TypedDone(sh, me, w).me.pc.tx.TouchOut?
  {
    match me.q.form
    case BeginText => AloneStart(sh, me);
    case CommitText => EndAlone(sh, me, true, w.exec);
    case RollbackText => EndAlone(sh, me, false, w.exec);
    case Ordinary => OrdinaryAlone(sh, me, w);
  }

  function TypedOk(t: Turn): bool {
    t.me.pc == AtTx(TouchOut(true))
  }

  /** TypedDone as a classification followed by executeClassifiedQuery. */
  lemma TypedRuns(sh: Shared, me: Local, w: Responses)
    requires me.kind.Client? && me.q.txID != NONE
    ensures w.exec.reader < |sh.ro| ==>
            var kind := KindOf(me.q.form, Found(w.first));
            var sorted := if me.q.form.Ordinary? then Classified(sh, w.first) else sh;
            var t := TypedDone(sh, me, w);
            && t.sh == (if kind.None? then sorted else RunsAs(sorted, me, kind.value, w.exec))
            && (TypedOk(t) <==> kind.Some? && Answered(sorted, me, kind.value, w.exec))
  {
    hide RwAfter, WorkOk, EndOk;
  }

  /** The whole call. */
  ghost function NamedDone(sh: Shared, me: Local, w: Responses): Turn {
    if !Accepts(sh, me.q) then Turn(Failing(sh), me.(pc := AtCall(Done(false))))
    else
      var t := TypedDone(TxEntered(sh, me), Dispatch(me), w);
      Turn(TxLeft(t.sh, t.me, TypedOk(t)), t.me.(pc := AtCall(Done(TypedOk(t)))))
  }

  lemma NamedAlone(sh: Shared, me: Local, w: Responses)
    requires me.kind.Client? && me.q.txID != NONE && me.pc == AtCall(Entry) && !sh.writeMu && !sh.txOpMu
    ensures Alone(sh, me, NamedDone(sh, me, w))
  {
    if !Accepts(sh, me.q) {
      TxRefuses(sh, me, GOOD);
    } else {
      TxEnters(sh, me, GOOD);
      var a := Turn(TxEntered(sh, me), Dispatch(me));
      TypedAlone(a.sh, a.me, w);
      var b := TypedDone(a.sh, a.me, w);
      AloneThen(sh, me, a, b);
      TypedKeepsOp(a.sh, a.me, w);
      TxLeaves(b.sh, b.me, TypedOk(b), GOOD);
      AloneThen(sh, me, b, NamedDone(sh, me, w));
    }
  }

  lemma EndKeepsOp(sh: Shared, me: Local, commit: bool, env: Env)
    ensures EndDone(sh, me, commit, env).sh.txOpMu == sh.txOpMu
  {
  }

  lemma WorkKeepsOp(sh: Shared, me: Local, env: Env)
    ensures WriteDone(sh, me, env).sh.txOpMu == sh.txOpMu
    ensures ReadDone(sh, me, env).sh.txOpMu == sh.txOpMu
  {
    RwKeepsTx(sh, me, OpRead, env);
    RwKeepsTx(sh.(stats := sh.stats.(queuedWrites := sh.stats.queuedWrites + 1)), me, OpWrite, env);
    hide RwAfter;
  }

  lemma TypedKeepsOp(sh: Shared, me: Local, w: Responses)
    ensures TypedDone(sh, me, w).sh.txOpMu == sh.txOpMu
  {
    match me.q.form
    case BeginText =>
    case CommitText => EndKeepsOp(sh, me, true, w.exec);
    case RollbackText => EndKeepsOp(sh, me, false, w.exec);
    case Ordinary => WorkKeepsOp(Classified(sh, w.first), me, w.exec);
  }

  lemma TypedSame(sh: Shared, me: Local, w: Responses)
    ensures TypedDone(sh, me, w).me.q == me.q
  {
  }

  /** NamedDone as the lock of txOpMu, queryWithType, and the unlock. */
  lemma NamedRuns(sh: Shared, me: Local, w: Responses)
    requires me.kind.Client? && me.q.txID != NONE
    ensures !Accepts(sh, me.q) ==>
              NamedDone(sh, me, w).sh == Failing(sh) && NamedDone(sh, me, w).me.pc == AtCall(Done(false))
    ensures Accepts(sh, me.q) ==>
            var d := TypedDone(TxEntered(sh.(txOpMu := true), me), Dispatch(me), w);
            var left := Touched(d.sh, me).(txOpMu := false);
            && Touched(d.sh, me).txOpMu
            && NamedDone(sh, me, w).sh == (if TypedOk(d) then left else Failing(left))
            && NamedDone(sh, me, w).me.pc == AtCall(Done(TypedOk(d)))
  {
    var entered := TxEntered(sh, me);
    assert TxEntered(sh.(txOpMu := true), me) == entered && entered.txOpMu;
    hide TypedDone, Dispatch, Touched, TxEntered, Failing;
    TypedSame(entered, Dispatch(me), w);
    TypedKeepsOp(entered, Dispatch(me), w);
    DispatchSame(me);
    var d := TypedDone(entered, Dispatch(me), w);
    LeftIsTouched(d.sh, d.me, me, TypedOk(d));
  }

  lemma DispatchSame(me: Local)
    ensures Dispatch(me).q == me.q && Dispatch(me).kind == me.kind
  {
  }

  lemma LeftIsTouched(sh: Shared, me: Local, me': Local, ok: bool)
    requires me.q == me'.q
    ensures TxLeft(sh, me, ok) == TxLeft(sh, me', ok)
    ensures Touched(sh, me').txOpMu == sh.txOpMu
  {
  }

  // ---- A statement without a transaction ID ----

  lemma FetchAlone(sh: Shared, me: Local, env: Env)
    requires me.pc == AtRo(Fetch, RoAcquire) && env.reader < |sh.ro| && !sh.ro[env.reader].busy
    ensures Alone(sh, me, FetchDone(sh, me, env))
  {
    if !env.pool {
      RoNoPool(sh, me, Fetch, env);
    } else if FetchOk(me, env) {
      RoFetchWorks(sh, me, env);
    } else {
      RoFetchFails(sh, me, env);
    }
  }

  predicate ReadersFree(sh: Shared, w: Responses) {
    && w.first.reader < |sh.ro| && w.retry.reader < |sh.ro| && w.exec.reader < |sh.ro|
    && forall k :: 0 <= k < |sh.ro| ==> !sh.ro[k].busy
  }

  lemma ProbeAlone(sh: Shared, me: Local, ro: RoOp, env: Env)
    requires me.pc == AtRo(ro, RoAcquire) && !ro.Fetch? && env.reader < |sh.ro| && !sh.ro[env.reader].busy
    ensures var saw := me.(seen := if ro.Retry? && Found(env) != Failed then Some(sh.conn.committed) else me.seen);
            Alone(sh, me, Turn(Probed(sh, me, ro, env), AfterRo(saw, ro, Found(env))))
  {
    if env.pool {
      RoClassifies(sh, me, ro, env);
    } else {
      RoNoPool(sh, me, ro, env);
    }
  }

  /** The deferred unlock of txMu, and the error count. */
  ghost function GivenBack(t: Turn, ok: bool): Turn {
    Turn(if ok then t.sh.(txMu := false) else Failing(t.sh.(txMu := false)),
         t.me.(pc := AtCall(Done(ok)), held := false))
  }

  /** Under txMu, after the classification has been repeated. */
  ghost function RetriedDone(sh: Shared, me: Local, w: Responses): Turn
    requires w.retry.reader < |sh.ro| && w.exec.reader < |sh.ro|
  {
    var probed := Probed(sh, me, Retry, w.retry);
    if Found(w.retry) == Failed then GivenBack(Turn(probed, me), false)
    else
      var saw := me.(seen := Some(sh.conn.committed));
      if Found(w.retry) == AsWrite then GivenBack(WriteDone(probed, saw, w.exec), WorkOk(sh, me, w.exec))
      else GivenBack(FetchDone(probed, saw, w.exec), w.exec.pool && FetchOk(me, w.exec))
  }

  /** From the lock of txMu on. */
  ghost function HeldDone(sh: Shared, me: Local, retry: bool, w: Responses): Turn
    requires w.retry.reader < |sh.ro| && w.exec.reader < |sh.ro|
  {
    var mine := sh.(txMu := true);
    if sh.txMu then Turn(sh, me)
    else if retry then RetriedDone(mine, me.(held := true), w)
    else GivenBack(WriteDone(mine, me.(held := true), w.exec), WorkOk(sh, me, w.exec))
  }

  /** What a call under txMu comes to when it leaves u behind. */
  ghost function UnderLock(u: Shared, ok: bool): Shared {
    if ok then u.(txMu := false) else Failing(u.(txMu := false))
  }

  /** The second classification leaves the locks and the readers free. */
  lemma RetryKeeps(sh: Shared, me: Local, w: Responses)
    requires w.retry.reader < |sh.ro| && !sh.ro[w.retry.reader].busy
    requires w.exec.reader < |sh.ro| && !sh.ro[w.exec.reader].busy
    ensures var probed := Probed(sh, me, Retry, w.retry);
            && probed.txMu == sh.txMu && probed.writeMu == sh.writeMu
            && |probed.ro| == |sh.ro| && !probed.ro[w.exec.reader].busy
  {
  }

  /** RetriedDone as a classification followed by executeClassifiedQuery. */
  lemma RetriedRuns(sh: Shared, me: Local, w: Responses)
    requires w.retry.reader < |sh.ro| && w.exec.reader < |sh.ro| && me.q.txID == NONE
    ensures var kind := KindOf(Ordinary, Found(w.retry));
            var probed := Probed(sh, me, Retry, w.retry);
            var saw := me.(seen := Some(sh.conn.committed));
            var ok := kind.Some? && Answered(probed, saw, kind.value, w.exec);
            && RetriedDone(sh, me, w).sh ==
                 UnderLock(if kind.None? then probed else RunsAs(probed, saw, kind.value, w.exec), ok)
            && RetriedDone(sh, me, w).me.pc == AtCall(Done(ok))
            && (kind.Some? ==> kind.value.ReadQuery? || kind.value.WriteQuery?)
  {
    hide RwAfter;
  }

  lemma WriteGivesBack(sh: Shared, me: Local, env: Env)
    requires me.pc == AtWork(WriteEnter) && !sh.writeMu && sh.txMu && me.q.txID == NONE
    ensures Alone(sh, me, GivenBack(WriteDone(sh, me, env), WorkOk(sh, me, env)))
  {
    WriteAlone(sh, me, env);
    var a := WriteDone(sh, me, env);
    TokenGives(a.sh, a.me, WorkOk(sh, me, env), GOOD);
    AloneThen(sh, me, a, GivenBack(a, WorkOk(sh, me, env)));
  }

  lemma FetchGivesBack(sh: Shared, me: Local, env: Env)
    requires me.pc == AtRo(Fetch, RoAcquire) && me.held && sh.txMu
    requires env.reader < |sh.ro| && !sh.ro[env.reader].busy
    ensures Alone(sh, me, GivenBack(FetchDone(sh, me, env), env.pool && FetchOk(me, env)))
  {
    FetchAlone(sh, me, env);
    var a := FetchDone(sh, me, env);
    var ok := env.pool && FetchOk(me, env);
    TokenGives(a.sh, a.me, ok, GOOD);
    AloneThen(sh, me, a, GivenBack(a, ok));
  }

  lemma RetriedAlone(sh: Shared, me: Local, w: Responses)
    requires me.pc == AtRo(Retry, RoAcquire) && me.held && me.q.txID == NONE
    requires !sh.writeMu && sh.txMu && ReadersFree(sh, w)
    ensures Alone(sh, me, RetriedDone(sh, me, w))
  {
    ProbeAlone(sh, me, Retry, w.retry);
    var saw := me.(seen := if Found(w.retry) != Failed then Some(sh.conn.committed) else me.seen);
    var a := Turn(Probed(sh, me, Retry, w.retry), AfterRo(saw, Retry, Found(w.retry)));
    if Found(w.retry) == Failed {
      TokenGives(a.sh, a.me, false, GOOD);
    } else if Found(w.retry) == AsWrite {
      WorkAnywhere(a.sh, saw, a.me.pc, w.exec);
      assert WorkOk(a.sh, a.me, w.exec) == WorkOk(sh, me, w.exec);
      WriteGivesBack(a.sh, a.me, w.exec);
    } else {
      FetchAnywhere(a.sh, saw, a.me.pc, w.exec);
      FetchGivesBack(a.sh, a.me, w.exec);
    }
    AloneThen(sh, me, a, RetriedDone(sh, me, w));
  }

  /** Executing a read or a write leaves txMu alone. */
  lemma WorkKeepsTx(sh: Shared, me: Local, kind: QueryKind, env: Env)
    requires env.reader < |sh.ro| && (kind.ReadQuery? || kind.WriteQuery?)
    ensures RunsAs(sh, me, kind, env).txMu == sh.txMu
  {
    hide RwAfter;
    if kind.WriteQuery? {
      RwKeepsTx(sh.(stats := sh.stats.(queuedWrites := sh.stats.queuedWrites + 1)), me, OpWrite, env);
    } else if me.q.txID == NONE {
      assert FetchDone(sh, me, env).sh.txMu == sh.txMu;
    } else {
      RwKeepsTx(sh, me, OpRead, env);
    }
  }

  lemma RwKeepsTx(sh: Shared, me: Local, op: RwOp, env: Env)
    requires !op.OpClassify?
    ensures RwAfter(sh, me, op, env).txMu == sh.txMu
    ensures RwAfter(sh, me, op, env).txOpMu == sh.txOpMu
  {
  }

  lemma HeldRuns(sh: Shared, me: Local, w: Responses)
    requires w.retry.reader < |sh.ro| && w.exec.reader < |sh.ro|
    ensures sh.txMu ==> HeldDone(sh, me, true, w) == HeldDone(sh, me, false, w) == Turn(sh, me)
    ensures !sh.txMu ==>
            var mine := sh.(txMu := true);
            var held := me.(held := true);
            && HeldDone(sh, me, true, w) == RetriedDone(mine, held, w)
            && HeldDone(sh, me, false, w).sh ==
                 UnderLock(RunsAs(mine, held, WriteQuery, w.exec), Answered(mine, held, WriteQuery, w.exec))
            && HeldDone(sh, me, false, w).me.pc == AtCall(Done(Answered(mine, held, WriteQuery, w.exec)))
  {
    hide RetriedDone, RwAfter;
  }

  lemma HeldAlone(sh: Shared, me: Local, retry: bool, w: Responses)
    requires me.pc == AtCall(TokenLock(retry)) && me.q.txID == NONE && !sh.writeMu && ReadersFree(sh, w)
    ensures Alone(sh, me, HeldDone(sh, me, retry, w))
  {
    if sh.txMu {
      AloneStart(sh, me);
    } else {
      TokenTakes(sh, me, retry, GOOD);
      var pc := if retry then AtRo(Retry, RoAcquire) else AtWork(WriteEnter);
      var a := Turn(sh.(txMu := true), me.(pc := pc, held := true));
      HeldAnywhere(a.sh, me.(held := true), pc, w);
      if retry {
        RetriedAlone(a.sh, a.me, w);
      } else {
        WriteGivesBack(a.sh, a.me, w.exec);
      }
      AloneThen(sh, me, a, HeldDone(sh, me, retry, w));
    }
  }

  lemma HeldAnywhere(sh: Shared, me: Local, pc: PC, w: Responses)
    requires ReadersFree(sh, w)
    ensures RetriedDone(sh, me.(pc := pc), w) == RetriedDone(sh, me, w)
    ensures WriteDone(sh, me.(pc := pc), w.exec) == WriteDone(sh, me, w.exec)
  {
    WorkAnywhere(sh, me, pc, w.exec);
    var probed := Probed(sh, me, Retry, w.retry);
    assert Probed(sh, me.(pc := pc), Retry, w.retry) == probed;
    if Found(w.retry) == AsWrite {
      WorkAnywhere(probed, me.(seen := Some(sh.conn.committed)), pc, w.exec);
    } else if Found(w.retry) != Failed {
      FetchAnywhere(probed, me.(seen := Some(sh.conn.committed)), pc, w.exec);
    }
  }

  lemma FetchAnywhere(sh: Shared, me: Local, pc: PC, env: Env)
    requires env.reader < |sh.ro|
    ensures GivenBack(FetchDone(sh, me.(pc := pc), env), FetchOk(me, env)) ==
        GivenBack(FetchDone(sh, me, env), FetchOk(me, env))
    ensures GivenBack(FetchDone(sh, me.(pc := pc), env), false) == GivenBack(FetchDone(sh, me, env), false)
  {
  }

  /** A failed call. */
  ghost function FailedCall(sh: Shared, me: Local): Turn {
    Turn(Failing(sh), me.(pc := AtCall(Done(false))))
  }

  /** A read that needs no mutex. */
  ghost function LooseDone(sh: Shared, me: Local, env: Env): Turn
    requires env.reader < |sh.ro|
  {
    var ok := env.pool && FetchOk(me, env);
    var t := FetchDone(sh, me, env);
    Turn(if ok then t.sh else Failing(t.sh), me.(pc := AtCall(Done(ok))))
  }

  lemma LooseAlone(sh: Shared, me: Local, env: Env)
    requires me.pc == AtRo(Fetch, RoAcquire) && !me.held && env.reader < |sh.ro| && !sh.ro[env.reader].busy
    ensures Alone(sh, me, LooseDone(sh, me, env))
  {
    FetchAlone(sh, me, env);
    if !(env.pool && FetchOk(me, env)) {
      AloneOn(sh, me, FetchDone(sh, me, env), GOOD);
    }
  }

  /** A statement whose text is no control statement. */
  ghost function PlainDone(sh: Shared, me: Local, w: Responses): Turn
    requires ReadersFree(sh, w)
  {
    var probed := Probed(sh, me, First, w.first);
    if Found(w.first) == AsWrite then HeldDone(probed, me.(pc := AtCall(TokenLock(false))), false, w)
    else if Found(w.first) != Failed then LooseDone(probed, me, w.exec)
    else if sh.txID != NONE then HeldDone(probed, me.(pc := AtCall(TokenLock(true))), true, w)
    else FailedCall(probed, me)
  }

  lemma PlainAlone(sh: Shared, me: Local, w: Responses)
    requires me.pc == AtRo(First, RoAcquire) && !me.held && me.q.txID == NONE && !sh.writeMu && ReadersFree(sh, w)
    ensures Alone(sh, me, PlainDone(sh, me, w))
  {
    ProbeAlone(sh, me, First, w.first);
    var a := Turn(Probed(sh, me, First, w.first), AfterRo(me, First, Found(w.first)));
    assert a.me.seen == me.seen;
    if Found(w.first) == AsWrite {
      HeldAlone(a.sh, a.me, false, w);
      AloneThen(sh, me, a, PlainDone(sh, me, w));
    } else if Found(w.first) != Failed {
      LooseAlone(a.sh, a.me, w.exec);
      AloneThen(sh, me, a, PlainDone(sh, me, w));
    } else {
      AloneOn(sh, me, a, GOOD);
      var b := Turn(a.sh, me.(pc := AtCall(if sh.txID == NONE then Fail else TokenLock(true))));
      if sh.txID == NONE {
        AloneStep(b.sh, b.me, GOOD);
      } else {
        HeldAlone(b.sh, b.me, true, w);
      }
      AloneThen(sh, me, b, PlainDone(sh, me, w));
    }
  }

  // ---- Query ----

  ghost function QueryDone(sh: Shared, me: Local, w: Responses): Turn
    requires ReadersFree(sh, w)
  {
    if me.q.txID != NONE then NamedDone(sh, me, w)
    else match me.q.form
         case BeginText => BeginDone(sh, me, w.exec)
         case CommitText | RollbackText => FailedCall(sh, me)
         case Ordinary => PlainDone(sh, me, w)
  }

  /** The step system takes a call that runs alone exactly there. */
  lemma QueryAlone(sh: Shared, q: Query, w: Responses)
    requires !sh.writeMu && !sh.txOpMu && ReadersFree(sh, w)
    requires q.txID == NONE && q.form.BeginText? ==> NewID(sh.log, w.exec)
    ensures Alone(sh, Caller(q), QueryDone(sh, Caller(q), w))
  {
    var me := Caller(q);
    if q.txID != NONE {
      NamedAlone(sh, me, w);
    } else {
      AloneStep(sh, me, GOOD);
      var a := Turn(sh, Dispatch(me));
      match q.form {
        case BeginText => BeginAlone(sh, a.me, w.exec);
        case CommitText | RollbackText => AloneStep(sh, a.me, GOOD);
        case Ordinary => PlainAlone(sh, a.me, w);
      }
      AloneThen(sh, me, a, QueryDone(sh, me, w));
    }
  }

  // ---- QueryDone step by step ----

  /** A standalone statement as a classification followed by what it leads to. */
  lemma PlainRuns(sh: Shared, me: Local, w: Responses)
    requires ReadersFree(sh, w) && me.q.txID == NONE && me.q.form.Ordinary?
    ensures var kind := KindOf(Ordinary, Found(w.first));
            var probed := Probed(sh, me, First, w.first);
            var ran := RunsAs(probed, me, ReadQuery, w.exec);
            var ok := Answered(probed, me, ReadQuery, w.exec);
            var d := QueryDone(sh, me, w);
            match kind
            case None =>
              d == if sh.txID == NONE then FailedCall(probed, me)
                   else HeldDone(probed, me.(pc := AtCall(TokenLock(true))), true, w)
            case Some(k) =>
              if k.WriteQuery? then d == HeldDone(probed, me.(pc := AtCall(TokenLock(false))), false, w)
              else d.sh == (if ok then ran else Failing(ran)) && d.me.pc == AtCall(Done(ok))
  {
    hide HeldDone, RwAfter;
  }

  lemma ProbedFree(sh: Shared, me: Local, w: Responses)
    requires ReadersFree(sh, w)
    ensures ReadersFree(Probed(sh, me, First, w.first), w)
    ensures Probed(sh, me, First, w.first).txID == sh.txID && Probed(sh, me, First, w.first).txMu == sh.txMu
    ensures Probed(sh, me, First, w.first).writeMu == sh.writeMu && Probed(sh, me, First, w.first).conn == sh.conn
  {
  }

  lemma ControlRuns(sh: Shared, me: Local, w: Responses)
    requires ReadersFree(sh, w) && me.q.txID == NONE && !me.q.form.Ordinary?
    ensures var kind := KindOf(me.q.form, Failed).value;
            var ran := RunsAs(sh, me, kind, w.exec);
            var ok := Answered(sh, me, kind, w.exec);
            && QueryDone(sh, me, w).sh == (if ok then ran else Failing(ran))
            && QueryDone(sh, me, w).me.pc == (if kind.BeginQuery? && sh.txMu then AtBegin(BeginLock)
                                              else AtCall(Done(ok)))
            && (kind.BeginQuery? && !sh.txMu && ok ==> QueryDone(sh, me, w).me.newID == w.exec.uuid)
  {
    hide NamedDone, PlainDone, EndDone, EndOk, WriteDone, ReadDone, FetchDone, WorkOk, FetchOk;
    if me.q.form.BeginText? {
      BeginAnywhere(sh.(stats := sh.stats.(queuedBegins := sh.stats.queuedBegins + 1)), me, w.exec);
      hide BeginRan, BeginOk;
    }
  }

  lemma BeginAnywhere(sh: Shared, me: Local, env: Env)
    ensures BeginRan(sh, me.(pc := AtBegin(BeginLock)), env) == BeginRan(sh, me, env)
  {
  }

  // ---- The idle monitor and Close ----

  predicate Overdue(sh: Shared) {
    sh.txID != NONE && sh.now - sh.txLastUsed > sh.timeout
  }

  /** A rollback by the server itself under txOpMu, if there is to be one. */
  ghost function ServerDone(sh: Shared, me: Local, ends: bool, env: Env): Shared {
    var held := Holding(me, sh.txID, AtRw(OpRollback, RwLock));
    if ends then EndDone(Loaded(sh), held, false, env).sh.(txOpMu := false)
    else Loaded(sh).(txOpMu := false)
  }

  /** One tick of the monitor. */
  ghost function TickDone(sh: Shared, me: Local, env: Env): Turn {
    Turn(ServerDone(sh, me, Overdue(sh), env), Holding(me, sh.txID, AtMon(MonIdle)))
  }

  ghost function CloseDone(sh: Shared, me: Local, env: Env): Turn {
    Turn(ServerDone(sh, me, sh.txID != NONE, env), Holding(me, sh.txID, AtCall(Done(true))))
  }

  /** From the check or the load on to the unlock of txOpMu. */
  lemma ServerEnds(sh: Shared, me: Local, ends: bool, env: Env)
    requires me.pc == (if ends then AtRw(OpRollback, RwLock) else AtMon(MonUnlock))
    requires !me.kind.Client? && sh.txOpMu && !sh.writeMu
    ensures var ended := if ends then EndDone(sh, me, false, env).sh else sh;
            Alone(sh, me, Turn(ended.(txOpMu := false),
                               me.(pc := if me.kind.Closer? then AtCall(Done(true)) else AtMon(MonIdle))))
  {
    if ends {
      EndAlone(sh, me, false, env);
      EndKeepsOp(sh, me, false, env);
      var d := EndDone(sh, me, false, env);
      hide RwAfter;
      AloneOn(sh, me, d, GOOD);
    } else {
      AloneStep(sh, me, GOOD);
    }
  }

  lemma TickAlone(sh: Shared, me: Local, env: Env)
    requires me.pc == AtMon(MonIdle) && me.kind.Monitor? && !sh.stopped && !sh.txOpMu && !sh.writeMu
    ensures Alone(sh, me, TickDone(sh, me, env))
  {
    AloneStep(sh, me, GOOD);
    var t := Act(sh, me, GOOD);
    AloneOn(sh, me, t, GOOD);
    t := Act(t.sh, t.me, GOOD);
    AloneOn(sh, me, t, GOOD);
    t := Act(t.sh, t.me, GOOD);
    if sh.txID != NONE {
      AloneOn(sh, me, t, GOOD);
      t := Act(t.sh, t.me, GOOD);
    }
    var ends := Overdue(sh);
    var me' := Holding(me, sh.txID, if ends then AtRw(OpRollback, RwLock) else AtMon(MonUnlock));
    assert t == Turn(Loaded(sh), me');
    ServerEnds(t.sh, t.me, ends, env);
    hide EndDone;
    AloneThen(sh, me, t, TickDone(sh, me, env));
  }

  lemma CloseAlone(sh: Shared, me: Local, env: Env)
    requires me.pc == AtMon(MonLock) && me.kind.Closer? && !sh.txOpMu && !sh.writeMu
    ensures Alone(sh, me, CloseDone(sh, me, env))
  {
    AloneStep(sh, me, GOOD);
    var t := Act(sh, me, GOOD);
    AloneOn(sh, me, t, GOOD);
    t := Act(t.sh, t.me, GOOD);
    var ends := sh.txID != NONE;
    var me' := Holding(me, sh.txID, if ends then AtRw(OpRollback, RwLock) else AtMon(MonUnlock));
    assert t == Turn(Loaded(sh), me');
    ServerEnds(t.sh, t.me, ends, env);
    hide EndDone;
    AloneThen(sh, me, t, CloseDone(sh, me, env));
  }

  /** A tick or Close rolls back all of a transaction that is to end and frees txMu if pool and SQLite
      cooperate; if they do not, the transaction stays as it is. */
  lemma ServerOutcome(sh: Shared, me: Local, ends: bool, env: Env)
    requires !me.kind.Client? && me.q.role == Admin && !sh.txOpMu && !sh.writeMu && sh.txMu && sh.conn.inTx
    ensures var t := ServerDone(sh, me, ends, env);
            && t.conn.committed == sh.conn.committed && !t.txOpMu && !t.writeMu && t.fault == sh.fault
            && t.stopped == sh.stopped
            && (if ends && env.pool && env.healthy then t.txID == NONE && !t.txMu && !t.conn.inTx
                else t == sh.(conn := sh.conn.(role := t.conn.role)))
  {
  }
}
