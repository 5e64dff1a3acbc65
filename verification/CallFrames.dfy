/**
 What a whole call leaves alone, besides what its closed form says.
 */
module CallFrames {
  import opened Calls
  import opened History
  import opened Operations
  import opened Protocol

  /** No ID is new but the one drawn, no request is added, and the pool and the server go on. */
  ghost predicate Tidy(sh: Shared, sh': Shared, uuid: Name) {
    && sh'.log.issued <= sh.log.issued + {uuid} && sh'.log.named == sh.log.named
    && sh'.stopped == sh.stopped && |sh'.ro| == |sh.ro|
  }

  lemma RwTidy(sh: Shared, me: Local, op: RwOp, env: Env, uuid: Name)
    requires !op.OpClassify?
    ensures Tidy(sh, RwAfter(sh, me, op, env), uuid)
  {
  }

  lemma BeginTidy(sh: Shared, me: Local, env: Env)
    ensures Tidy(sh, BeginDone(sh, me, env).sh, env.uuid)
  {
    var queued := sh.(stats := sh.stats.(queuedBegins := sh.stats.queuedBegins + 1));
    RwTidy(queued.(txMu := true), me.(pc := AtBegin(BeginLock)), OpBegin, env, env.uuid);
    hide RwAfter, BeginOk;
  }

  lemma BeginLockedTidy(sh: Shared, me: Local, env: Env)
    ensures Tidy(sh, BeginLocked(sh, me, env).sh, env.uuid)
  {
    RwTidy(sh.(txMu := true), me, OpBegin, env, env.uuid);
    hide RwAfter, BeginOk;
  }

  lemma EndTidy(sh: Shared, me: Local, commit: bool, env: Env, uuid: Name)
    ensures Tidy(sh, EndDone(sh, me, commit, env).sh, uuid)
  {
    RwTidy(sh, me, EndOp(commit), env, uuid);
    hide RwAfter, EndOk;
  }

  lemma WorkTidy(sh: Shared, me: Local, env: Env, uuid: Name)
    ensures Tidy(sh, WriteDone(sh, me, env).sh, uuid)
    ensures Tidy(sh, ReadDone(sh, me, env).sh, uuid)
  {
    RwTidy(sh.(stats := sh.stats.(queuedWrites := sh.stats.queuedWrites + 1)), me, OpWrite, env, uuid);
    RwTidy(sh, me, OpRead, env, uuid);
    hide RwAfter, WorkOk;
  }

  lemma FetchTidy(sh: Shared, me: Local, env: Env, uuid: Name)
    requires env.reader < |sh.ro|
    ensures Tidy(sh, FetchDone(sh, me, env).sh, uuid)
  {
  }

  lemma TypedTidy(sh: Shared, me: Local, w: Responses)
    ensures Tidy(sh, TypedDone(sh, me, w).sh, w.exec.uuid)
  {
    EndTidy(sh, me, true, w.exec, w.exec.uuid);
    EndTidy(sh, me, false, w.exec, w.exec.uuid);
    WorkTidy(Classified(sh, w.first), me, w.exec, w.exec.uuid);
    hide EndDone, WriteDone, ReadDone;
  }

  lemma NamedTidy(sh: Shared, me: Local, w: Responses)
    ensures Tidy(sh, NamedDone(sh, me, w).sh, w.exec.uuid)
  {
    var t := TypedDone(TxEntered(sh, me), Dispatch(me), w);
    TypedTidy(TxEntered(sh, me), Dispatch(me), w);
    EnterTidy(sh, me, w.exec.uuid);
    LeaveTidy(t.sh, t.me, TypedOk(t), w.exec.uuid);
    hide TypedDone, Dispatch, TxEntered, TxLeft, Accepts, TypedOk;
  }

  lemma EnterTidy(sh: Shared, me: Local, uuid: Name)
    ensures Tidy(sh, TxEntered(sh, me), uuid)
  {
  }

  lemma LeaveTidy(sh: Shared, me: Local, ok: bool, uuid: Name)
    ensures Tidy(sh, TxLeft(sh, me, ok), uuid)
  {
  }

  lemma ProbedTidy(sh: Shared, me: Local, ro: RoOp, env: Env, uuid: Name)
    requires env.reader < |sh.ro|
    ensures Tidy(sh, Probed(sh, me, ro, env), uuid)
  {
  }

  lemma GivenBackTidy(sh: Shared, t: Turn, ok: bool, uuid: Name)
    requires Tidy(sh, t.sh, uuid)
    ensures Tidy(sh, GivenBack(t, ok).sh, uuid)
  {
  }

  lemma RetriedTidy(sh: Shared, me: Local, w: Responses)
    requires w.retry.reader < |sh.ro| && w.exec.reader < |sh.ro|
    ensures Tidy(sh, RetriedDone(sh, me, w).sh, w.exec.uuid)
  {
    var id, saw := w.exec.uuid, me.(seen := Wrappers.Some(sh.conn.committed));
    var probed := Probed(sh, me, Retry, w.retry);
    ProbedTidy(sh, me, Retry, w.retry, id);
    hide Probed, WriteDone, FetchDone, GivenBack;
    if Found(w.retry) == Failed {
      GivenBackTidy(sh, Turn(probed, me), false, id);
    } else if Found(w.retry) == AsWrite {
      WorkTidy(probed, saw, w.exec, id);
      GivenBackTidy(sh, WriteDone(probed, saw, w.exec), WorkOk(sh, me, w.exec), id);
    } else {
      FetchTidy(probed, saw, w.exec, id);
      GivenBackTidy(sh, FetchDone(probed, saw, w.exec), w.exec.pool && FetchOk(me, w.exec), id);
    }
  }

  lemma HeldTidy(sh: Shared, me: Local, retry: bool, w: Responses)
    requires w.retry.reader < |sh.ro| && w.exec.reader < |sh.ro|
    ensures Tidy(sh, HeldDone(sh, me, retry, w).sh, w.exec.uuid)
  {
    var mine, held, id := sh.(txMu := true), me.(held := true), w.exec.uuid;
    hide RetriedDone, WriteDone, GivenBack, WorkOk;
    RetriedTidy(mine, held, w);
    WorkTidy(mine, held, w.exec, id);
    GivenBackTidy(sh, WriteDone(mine, held, w.exec), WorkOk(sh, me, w.exec), id);
  }

  lemma LooseTidy(sh: Shared, me: Local, env: Env, uuid: Name)
    requires env.reader < |sh.ro|
    ensures Tidy(sh, LooseDone(sh, me, env).sh, uuid)
  {
    FetchTidy(sh, me, env, uuid);
    hide FetchDone, FetchOk;
  }

  lemma PlainTidy(sh: Shared, me: Local, w: Responses)
    requires ReadersFree(sh, w)
    ensures Tidy(sh, PlainDone(sh, me, w).sh, w.exec.uuid)
  {
    var probed := Probed(sh, me, First, w.first);
    ProbedTidy(sh, me, First, w.first, w.exec.uuid);
    hide Probed, HeldDone, LooseDone;
    if Found(w.first) == AsWrite {
      HeldTidy(probed, me.(pc := AtCall(TokenLock(false))), false, w);
    } else if Found(w.first) != Failed {
      LooseTidy(probed, me, w.exec, w.exec.uuid);
    } else if sh.txID != NONE {
      HeldTidy(probed, me.(pc := AtCall(TokenLock(true))), true, w);
    }
  }

  lemma QueryTidy(sh: Shared, me: Local, w: Responses)
    requires ReadersFree(sh, w)
    ensures Tidy(sh, QueryDone(sh, me, w).sh, w.exec.uuid)
  {
    NamedTidy(sh, me, w);
    BeginTidy(sh, me, w.exec);
    PlainTidy(sh, me, w);
    hide NamedDone, BeginDone, PlainDone;
  }
}
