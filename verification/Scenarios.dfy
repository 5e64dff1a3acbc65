/**
 Particular runs: a punctual monitor, and what goes wrong without the routing assumption or when the
 monitor looks between the three stores of a BEGIN.
 */
module Scenarios {
  import opened Agreement
  import opened Draining
  import opened History
  import opened Locks
  import opened Protocol
  import opened QueryText
  import opened Solo
  import opened Sqlite
  import opened Timeouts

  // ---- A punctual monitor ----

  /** The monitor at rest with a transaction that has not been idle too long. */
  ghost predicate Unexpired(sh: Shared, me: Local) {
    && me.pc == AtMon(MonIdle) && me.kind.Monitor? && !sh.stopped
    && !sh.txOpMu && !sh.fault && sh.txID != NONE && sh.now - sh.txLastUsed <= sh.timeout
  }

  lemma UnexpiredTick(sh: Shared, me: Local)
    requires Unexpired(sh, me)
    ensures Alone(sh, me, Turn(Loaded(sh).(txOpMu := false), Holding(me, sh.txID, AtMon(MonIdle))))
  {
    AloneStep(sh, me, GOOD);
    var t := Act(sh, me, GOOD);
    AloneOn(sh, me, t, GOOD);
    t := Act(t.sh, t.me, GOOD);
    AloneOn(sh, me, t, GOOD);
    t := Act(t.sh, t.me, GOOD);
    AloneOn(sh, me, t, GOOD);
    t := Act(t.sh, t.me, GOOD);
    AloneOn(sh, me, t, GOOD);
  }

  /** Time passes, then the monitor handles a tick alone. */
  ghost predicate OnTime(s: State, d: nat, t: State) {
    |s.procs| > 0 && |t.procs| > 0 &&
    Alone(Next(s, Advance(d)).sh, s.procs[0], Turn(t.sh, t.procs[0])) && t.procs == s.procs[0 := t.procs[0]]
  }

  /** A transaction last used now, nobody at work, and ticks every T of which the next comes d from
      now: the next tick leaves it alone, and the one after it, which comes later than T and no
      later than 2T from now, rolls it back. */
  lemma PunctualRun(s: State, d: nat, id: Name) returns (mid: State, t: State)
    requires Inv(s) && Attended(s) && Routed(s) && OnlyWaiting(s)
    requires s.sh.txID == id != NONE && s.sh.txLastUsed == s.sh.now && 0 < d <= s.sh.timeout
    ensures OnTime(s, d, mid) && mid.sh.txID == id
    ensures OnTime(mid, s.sh.timeout, t) && t.sh.txID == NONE && !t.sh.conn.inTx
    ensures s.sh.now + s.sh.timeout < t.sh.now <= s.sh.now + 2 * s.sh.timeout
    ensures t.sh.log.trace.Then? && t.sh.log.trace.last.RolledBack?
    ensures t.sh.log.trace.last.id == id && t.sh.log.trace.last.at == t.sh.now
  {
    WaitingState(s);
    var n := Next(s, Advance(d));
    UnexpiredTick(n.sh, n.procs[0]);
    var me := Holding(n.procs[0], id, AtMon(MonIdle));
    mid := State(Loaded(n.sh).(txOpMu := false), s.procs[0 := me]);
    assert mid.procs[0] == me;
    var m := Next(mid, Advance(s.sh.timeout));
    ExpiredTick(m.sh, me);
    t := State(Ticked(m.sh, me), mid.procs[0 := Holding(me, id, AtMon(MonIdle))]);
    assert s.procs[0 := mid.procs[0]] == mid.procs;
  }

  // ---- BEGIN running alone ----

  const UUID: Name := 1

  const BEGIN: Choice := Choice(true, Fine, 0, UUID)

  const OWNER: Name := 1

  function BeginCall(): Query {
    Query(NONE, OWNER, BeginText, Stmt(db => db, Plain, {Admin}, false), Admin)
  }

  /** The database just opened, or long idle. */
  ghost predicate Idle(sh: Shared) {
    && !sh.txMu && !sh.writeMu && !sh.txOpMu && !sh.fault && !sh.conn.inTx && !sh.stopped
    && UUID !in sh.log.issued && UUID !in sh.log.named
  }

  ghost function Opened(sh: Shared): Shared {
    sh.(txMu := true, conn := sh.conn.(role := Admin, inTx := true, working := sh.conn.committed),
        stats := sh.stats.(queuedBegins := sh.stats.queuedBegins + 1))
  }

  /** As far as the first of the three stores. */
  lemma BeginOpens(sh: Shared)
    requires Idle(sh)
    ensures Alone(sh, Caller(BeginCall()), Turn(Opened(sh), Caller(BeginCall()).(pc := AtBegin(PubId))))
  {
    var me := Caller(BeginCall());
    AloneStep(sh, me, BEGIN);
    var t := Act(sh, me, BEGIN);
    AloneOn(sh, me, t, BEGIN);
    t := Act(t.sh, t.me, BEGIN);
    AloneOn(sh, me, t, BEGIN);
    t := Act(t.sh, t.me, BEGIN);
    var u := Turn(t.sh, t.me);
    AloneStep(u.sh, u.me, BEGIN);
    t := Act(u.sh, u.me, BEGIN);
    AloneOn(u.sh, u.me, t, BEGIN);
    t := Act(t.sh, t.me, BEGIN);
    AloneOn(u.sh, u.me, t, BEGIN);
    t := Act(t.sh, t.me, BEGIN);
    AloneOn(u.sh, u.me, t, BEGIN);
    t := Act(t.sh, t.me, BEGIN);
    AloneThen(sh, me, u, t);
    assert t.sh == Opened(sh);
  }

  ghost function Published(sh: Shared): Shared {
    var log := sh.log.(trace := Then(sh.log.trace, Began(UUID, CredOf(Caller(BeginCall())), sh.now)),
                       issued := sh.log.issued + {UUID});
    sh.(txID := UUID, log := log)
  }

  /** As far as between the first and the second store. */
  lemma BeginPublishes(sh: Shared)
    requires Idle(sh)
    ensures Alone(sh, Caller(BeginCall()),
                  Turn(Published(Opened(sh)), Caller(BeginCall()).(pc := AtBegin(PubOwner), newID := UUID)))
  {
    BeginOpens(sh);
    AloneOn(sh, Caller(BeginCall()), Turn(Opened(sh), Caller(BeginCall()).(pc := AtBegin(PubId))), BEGIN);
  }

  /** The transaction is over, and its BEGIN is still between its first and its second store. */
  ghost predicate Overtaken(t: State) {
    && |t.procs| == 2 && t.procs[0].pc == AtMon(MonIdle) && t.procs[0].q.stmt.control.Plain?
    && t.procs[1] == Caller(BeginCall()).(pc := AtBegin(PubOwner), newID := UUID)
    && t.sh.txID == NONE && !t.sh.txMu && !t.sh.txOpMu && !t.sh.writeMu && !t.sh.conn.inTx && !t.sh.stopped
    && t.sh.log.issued == {UUID} && t.sh.log.named <= {NONE} && t.sh.log.known == {} && !t.sh.log.leaked
    && |t.sh.ro| > 0 && forall k :: 0 <= k < |t.sh.ro| ==> !t.sh.ro[k].busy
  }

  /** A monitor that loads txID between the first and the last store of a BEGIN compares against the
      use of an earlier time: on a database that has been idle longer than the timeout, it rolls
      the new transaction back at the very moment it began. */
  lemma PrematureRollback(s: State) returns (ls: seq<Label>, t: State)
    requires Initial(s)
    ensures Leads(s, ls, t) && Routed(t) && !t.sh.log.leaked && Overtaken(t)
    ensures !TimesProper(t.sh.log.trace, t.sh.timeout)
  {
    var d: nat := s.sh.timeout + 1 + s.sh.now - s.sh.txLastUsed;
    var a := Next(s, Advance(d));
    LeadsOne(s, Advance(d));
    var b := Next(a, Arrive(BeginCall()));
    LeadsOne(a, Arrive(BeginCall()));
    LeadsCompose(s, [Advance(d)], a, [Arrive(BeginCall())], b);
    ls := [Advance(d)] + [Arrive(BeginCall())];
    assert b.procs == [IdleMonitor(), Caller(BeginCall())];
    BeginPublishes(b.sh);
    var begun := Turn(Published(Opened(b.sh)), Caller(BeginCall()).(pc := AtBegin(PubOwner), newID := UUID));
    var ms := AloneLeads(b, 1, begun);
    var c := State(begun.sh, b.procs[1 := begun.me]);
    LeadsCompose(s, ls, b, ms, c);
    ls := ls + ms;
    ExpiredTick(c.sh, c.procs[0]);
    var ended := Turn(Ticked(c.sh, c.procs[0]), Holding(c.procs[0], UUID, AtMon(MonIdle)));
    ms := AloneLeads(c, 0, ended);
    t := State(ended.sh, c.procs[0 := ended.me]);
    hide Leads, Alone;
    LeadsCompose(s, ls, c, ms, t);
    ls := ls + ms;
  }

  // ---- A bare END ----

  ghost function Begun(sh: Shared): Shared {
    sh.(txOwner := OWNER, txLastUsed := sh.now,
        stats := sh.stats.(beginCount := sh.stats.beginCount + 1, queuedBegins := sh.stats.queuedBegins - 1),
        log := sh.log.(known := sh.log.known + {UUID}))
  }

  lemma BeginReturns(sh: Shared, me: Local)
    requires me == Caller(BeginCall()).(pc := AtBegin(PubOwner), newID := UUID)
    ensures Alone(sh, me, Turn(Begun(sh), me.(pc := AtCall(Done(true)))))
  {
    AloneStep(sh, me, BEGIN);
    var t := Act(sh, me, BEGIN);
    AloneOn(sh, me, t, BEGIN);
    t := Act(t.sh, t.me, BEGIN);
    AloneOn(sh, me, t, BEGIN);
    t := Act(t.sh, t.me, BEGIN);
    AloneOn(sh, me, t, BEGIN);
    t := Act(t.sh, t.me, BEGIN);
    assert t.sh == Begun(sh);
  }

  const READ: Choice := Choice(true, AsRead, 0, NONE)

  /** A bare END commits, but it is not one of the recognised prefixes (UnrecognisedControl), so it
      goes down the path of an ordinary statement, where SQLite calls it read-only. */
  function EndCall(): Query {
    Query(UUID, NONE, Ordinary, CommitStmt(), Admin)
  }

  ghost function Entered(sh: Shared): Shared {
    Record(sh.(txOpMu := true, txLastUsed := sh.now), Used(UUID, sh.now))
  }

  lemma EndEnters(sh: Shared)
    requires sh.txID == UUID && !sh.txOpMu
    ensures Alone(sh, Caller(EndCall()), Turn(Entered(sh), Caller(EndCall()).(pc := AtRw(OpClassify, RwLock))))
  {
    var me := Caller(EndCall());
    AloneStep(sh, me, READ);
    var t := Act(sh, me, READ);
    AloneOn(sh, me, t, READ);
    t := Act(t.sh, t.me, READ);
    AloneOn(sh, me, t, READ);
    t := Act(t.sh, t.me, READ);
    AloneOn(sh, me, t, READ);
    t := Act(t.sh, t.me, READ);
    AloneOn(sh, me, t, READ);
    assert Act(t.sh, t.me, READ).sh == Entered(sh);
  }

  lemma EndIsClassified(sh: Shared, me: Local)
    requires me == Caller(EndCall()).(pc := AtRw(OpClassify, RwLock)) && !sh.writeMu && !sh.fault
    ensures Alone(sh, me, Turn(sh.(conn := sh.conn.(role := Admin)), me.(pc := AtRw(OpRead, RwLock))))
  {
    AloneStep(sh, me, READ);
    var t := Act(sh, me, READ);
    AloneOn(sh, me, t, READ);
    t := Act(t.sh, t.me, READ);
    AloneOn(sh, me, t, READ);
    t := Act(t.sh, t.me, READ);
    AloneOn(sh, me, t, READ);
    assert Act(t.sh, t.me, READ).sh == sh.(conn := sh.conn.(role := Admin));
  }

  ghost function Stripped(sh: Shared): Shared {
    Record(sh.(conn := sh.conn.(committed := sh.conn.working, inTx := false)),
           Saw(UUID, CommitStmt(), sh.conn.working, CredOf(Caller(EndCall())), Admin))
  }

  lemma EndExecutes(sh: Shared, me: Local)
    requires me == Caller(EndCall()).(pc := AtRw(OpRead, RwLock)) && !sh.writeMu && !sh.fault
    requires sh.conn.inTx && sh.conn.role == Admin
    ensures Alone(sh, me, Turn(Stripped(sh), me.(pc := AtWork(ReadCount))))
  {
    AloneStep(sh, me, READ);
    var t := Act(sh, me, READ);
    AloneOn(sh, me, t, READ);
    t := Act(t.sh, t.me, READ);
    AloneOn(sh, me, t, READ);
    t := Act(t.sh, t.me, READ);
    AloneOn(sh, me, t, READ);
    assert Act(t.sh, t.me, READ).sh == Stripped(sh);
  }

  ghost function Exited(sh: Shared): Shared {
    Record(sh.(txOpMu := false, stats := sh.stats.(readCount := sh.stats.readCount + 1), txLastUsed := sh.now),
           Used(UUID, sh.now))
  }

  lemma EndReturns(sh: Shared, me: Local)
    requires me == Caller(EndCall()).(pc := AtWork(ReadCount)) && sh.txOpMu && !sh.fault && sh.txID == UUID
    ensures Alone(sh, me, Turn(Exited(sh), me.(pc := AtCall(Done(true)))))
  {
    AloneStep(sh, me, READ);
    var t := Act(sh, me, READ);
    AloneOn(sh, me, t, READ);
    t := Act(t.sh, t.me, READ);
    AloneOn(sh, me, t, READ);
    assert Act(t.sh, t.me, READ).sh == Exited(sh);
  }

  lemma EndRuns(sh: Shared)
    requires sh.txID == UUID && !sh.txOpMu && !sh.writeMu && !sh.fault && sh.conn.inTx && sh.conn.role == Admin
    ensures Alone(sh, Caller(EndCall()),
                  Turn(Exited(Stripped(Entered(sh))), Caller(EndCall()).(pc := AtCall(Done(true)))))
  {
    var me := Caller(EndCall());
    var a := Turn(Entered(sh), me.(pc := AtRw(OpClassify, RwLock)));
    EndEnters(sh);
    EndIsClassified(a.sh, a.me);
    var b := Turn(a.sh.(conn := a.sh.conn.(role := Admin)), me.(pc := AtRw(OpRead, RwLock)));
    AloneThen(sh, me, a, b);
    assert b.sh == Entered(sh);
    EndExecutes(b.sh, b.me);
    var c := Turn(Stripped(b.sh), me.(pc := AtWork(ReadCount)));
    AloneThen(sh, me, b, c);
    EndReturns(c.sh, c.me);
    AloneThen(sh, me, c, Turn(Exited(c.sh), me.(pc := AtCall(Done(true)))));
  }

  /** A call that arrives and runs alone to the end. */
  lemma CallLeads(s: State, q: Query, t: Turn) returns (ls: seq<Label>)
    requires Enabled(s, Arrive(q)) && Alone(Next(s, Arrive(q)).sh, Caller(q), t)
    ensures Leads(s, ls, State(t.sh, s.procs + [t.me]))
  {
    var n := Next(s, Arrive(q));
    LeadsOne(s, Arrive(q));
    var ms := AloneLeads(n, |s.procs|, t);
    assert n.procs[|s.procs| := t.me] == s.procs + [t.me];
    LeadsCompose(s, [Arrive(q)], n, ms, State(t.sh, s.procs + [t.me]));
    ls := [Arrive(q)] + ms;
  }

  /** Without the routing assumption the agreement fails: a BEGIN followed by a bare END leaves txID
      set over a connection in autocommit, and by WedgedForever it stays that way. */
  lemma BareEndWedges(s: State) returns (ls: seq<Label>, t: State)
    requires Initial(s)
    ensures Leads(s, ls, t) && Inv(t) && Wedged(t, UUID) && Tame(t)
  {
    var b := Next(s, Arrive(BeginCall()));
    BeginPublishes(b.sh);
    var mid := Turn(Published(Opened(b.sh)), Caller(BeginCall()).(pc := AtBegin(PubOwner), newID := UUID));
    BeginReturns(mid.sh, mid.me);
    var begun := Turn(Begun(mid.sh), mid.me.(pc := AtCall(Done(true))));
    AloneThen(b.sh, Caller(BeginCall()), mid, begun);
    ls := CallLeads(s, BeginCall(), begun);
    var c := State(begun.sh, s.procs + [begun.me]);
    EndRuns(Next(c, Arrive(EndCall())).sh);
    var ended := Turn(Exited(Stripped(Entered(Next(c, Arrive(EndCall())).sh))),
                      Caller(EndCall()).(pc := AtCall(Done(true))));
    var ms := CallLeads(c, EndCall(), ended);
    t := State(ended.sh, c.procs + [ended.me]);
    LeadsCompose(s, ls, c, ms, t);
    ls := ls + ms;
    InitialInv(s);
    InvAlways(s, ls, t);
  }
}
