/**
 Nobody waits for ever: no deadlock, and if clients stop sending, everything drains.
 */
module Progress {
  import opened Gauges
  import opened History
  import opened Locks
  import opened Protocol

  // ---- A measure that every step but the start of a tick decreases ----

  /** What opening a transaction is worth. */
  const OPEN: nat := 17

  function RankRo(ro: RoOp, at: RoAt): nat {
    (match ro case Fetch => 3 case Retry => 11 case First => 18) +
    (match at case RoReturn(_, _) => 0 case RoCount(_) => 1 case RoExec(_) => 2
              case RoSetRole(_) => 3 case RoAcquire => 4)
  }

  function RankRw(op: RwOp, at: RwAt): nat {
    (match op case OpRead => 5 case OpWrite => 6 case OpCommit | OpRollback => 9
              case OpClassify => 11 case OpBegin => 7 + OPEN) +
    (match at case RwUnlock(_) => 0 case RwExec => 1 case RwSetRole => 2 case RwLock => 3)
  }

  function RankBegin(at: BeginAt): nat {
    match at
    case BeginLeave(_) => 2
    case PubCount | BeginAbort => 3
    case PubTime => 4
    case PubOwner => 5
    case PubId => 6 + OPEN
    case BeginLock => 11 + OPEN
    case BeginEnter => 12 + OPEN
  }

  function RankEnd(at: EndAt): nat {
    match at case EndUnlock => 4 case EndCount => 5 case ClearTime => 6 case ClearOwner => 7 case ClearId => 8
  }

  function RankTx(at: TxAt): nat {
    match at
    case OpUnlock(_) => 2 case TouchOut(_) => 3 case TouchIn => 15
    case CheckOwner => 16 case CheckId => 17 case OpLock => 18
  }

  function RankMon(at: MonAt): nat {
    match at case MonIdle => 0 case MonUnlock => 1 case MonCheck => 13 case MonLoad => 14 case MonLock => 15
  }

  function RankWork(at: WorkAt): nat {
    match at case WriteLeave(_) => 4 case ReadCount => 4 case WriteCount => 5 case WriteEnter => 10
  }

  function RankCall(at: CallAt): nat {
    match at
    case Done(_) => 0 case Fail => 1 case TokenUnlock(_) => 2
    case TokenLock(_) => 16 case CheckOpen => 17 case Entry => 23 + OPEN
  }

  function Rank(pc: PC): nat {
    match pc
    case AtRo(ro, at) => RankRo(ro, at)
    case AtRw(op, at) => RankRw(op, at)
    case AtBegin(at) => RankBegin(at)
    case AtEnd(_, at) => RankEnd(at)
    case AtTx(at) => RankTx(at)
    case AtMon(at) => RankMon(at)
    case AtWork(at) => RankWork(at)
    case AtCall(at) => RankCall(at)
  }

  ghost function Worth(sh: Shared, me: Local): int {
    Rank(me.pc) + (if sh.txID != NONE then OPEN else 0)
  }

  lemma DecreaseRo(sh: Shared, me: Local, c: Choice)
    requires Can(sh, me, c) && Facts(sh, me) && me.pc.AtRo?
    ensures var t := ActRo(sh, me, c); Worth(t.sh, t.me) < Worth(sh, me)
  {
  }

  lemma DecreaseRw(sh: Shared, me: Local, c: Choice)
    requires Can(sh, me, c) && Facts(sh, me) && me.pc.AtRw? && !me.pc.rwAt.RwUnlock?
    ensures var t := ActRw(sh, me, c); Worth(t.sh, t.me) < Worth(sh, me)
  {
  }

  lemma DecreaseRwUnlock(sh: Shared, me: Local, c: Choice)
    requires Can(sh, me, c) && Facts(sh, me) && me.pc.AtRw? && me.pc.rwAt.RwUnlock?
    ensures var t := ActRw(sh, me, c); Worth(t.sh, t.me) < Worth(sh, me)
  {
  }

  lemma DecreaseBegin(sh: Shared, me: Local, c: Choice)
    requires Can(sh, me, c) && Facts(sh, me) && me.pc.AtBegin?
    ensures var t := ActBegin(sh, me, c); Worth(t.sh, t.me) < Worth(sh, me)
  {
  }

  lemma DecreaseTx(sh: Shared, me: Local, c: Choice)
    requires Can(sh, me, c) && Facts(sh, me) && me.pc.AtTx?
    ensures var t := ActTx(sh, me); Worth(t.sh, t.me) < Worth(sh, me)
  {
  }

  lemma DecreaseEnd(sh: Shared, me: Local, c: Choice)
    requires Can(sh, me, c) && Facts(sh, me) && (me.pc.AtEnd? || me.pc.AtMon?) && me.pc != AtMon(MonIdle)
    ensures var t := Act(sh, me, c); Worth(t.sh, t.me) < Worth(sh, me)
  {
  }

  lemma DecreaseCall(sh: Shared, me: Local, c: Choice)
    requires Can(sh, me, c) && Facts(sh, me) && (me.pc.AtWork? || me.pc.AtCall?)
    ensures var t := Act(sh, me, c); Worth(t.sh, t.me) < Worth(sh, me)
  {
  }

  lemma StepDecreases(sh: Shared, me: Local, c: Choice)
    requires Can(sh, me, c) && Facts(sh, me) && me.pc != AtMon(MonIdle)
    ensures var t := Act(sh, me, c); Worth(t.sh, t.me) < Worth(sh, me)
  {
    match me.pc
    case AtRo(_, _) => DecreaseRo(sh, me, c);
    case AtRw(_, at) => if at.RwUnlock? { DecreaseRwUnlock(sh, me, c); } else { DecreaseRw(sh, me, c); }
    case AtBegin(_) => DecreaseBegin(sh, me, c);
    case AtTx(_) => DecreaseTx(sh, me, c);
    case AtEnd(_, _) | AtMon(_) => DecreaseEnd(sh, me, c);
    case AtWork(_) | AtCall(_) => DecreaseCall(sh, me, c);
  }

  ghost function TotalRank(procs: seq<Local>): nat {
    if procs == [] then 0 else TotalRank(procs[..|procs| - 1]) + Rank(procs[|procs| - 1].pc)
  }

  lemma {:induction false} TotalRankUpdate(procs: seq<Local>, i: nat, me: Local)
    requires i < |procs|
    ensures TotalRank(procs[i := me]) == TotalRank(procs) - Rank(procs[i].pc) + Rank(me.pc)
  {
    var n := |procs| - 1;
    if i == n {
      assert procs[i := me][..n] == procs[..n];
    } else {
      TotalRankUpdate(procs[..n], i, me);
      assert procs[i := me][..n] == procs[..n][i := me];
    }
  }

  ghost function Measure(s: State): nat {
    TotalRank(s.procs) + (if s.sh.txID != NONE then OPEN else 0)
  }

  /** The monitor starting on a tick is the only step of a goroutine that does not count down. */
  predicate StartsTick(s: State, l: Label) {
    l.Run? && l.pid < |s.procs| && s.procs[l.pid].pc == AtMon(MonIdle)
  }

  lemma RunDecreases(s: State, pid: nat, c: Choice)
    requires Inv(s) && Enabled(s, Run(pid, c)) && !StartsTick(s, Run(pid, c))
    ensures Measure(Next(s, Run(pid, c))) < Measure(s)
  {
    FactsHold(s, pid);
    StepDecreases(s.sh, s.procs[pid], c);
    TotalRankUpdate(s.procs, pid, Act(s.sh, s.procs[pid], c).me);
  }

  ghost predicate NoNewWork(s: State, ls: seq<Label>)
    decreases |ls|
  {
    ls == [] ||
    (&& Enabled(s, ls[0]) && ls[0].Run? && !StartsTick(s, ls[0])
     && NoNewWork(Next(s, ls[0]), ls[1..]))
  }

  /** Without new requests and new ticks, no run is longer than the measure, whatever SQLite and
      the scheduler choose. */
  lemma {:induction false} RunsAreBounded(s: State, ls: seq<Label>, t: State)
    requires Inv(s) && Leads(s, ls, t) && NoNewWork(s, ls)
    ensures |ls| + Measure(t) <= Measure(s)
    decreases |ls|
  {
    if ls != [] {
      RunDecreases(s, ls[0].pid, ls[0].c);
      InvNext(s, ls[0]);
      RunsAreBounded(Next(s, ls[0]), ls[1..], t);
    }
  }

  // ---- Who can step ----

  predicate Unfinished(me: Local) {
    !Finished(me.pc) && me.pc != AtMon(MonIdle)
  }

  predicate WaitsForOp(pc: PC) {
    pc == AtTx(OpLock) || pc == AtMon(MonLock)
  }

  predicate WaitsForRo(pc: PC) {
    pc.AtRo? && pc.roAt.RoAcquire?
  }

  lemma {:induction false} NewNameExists(names: set<Name>) returns (n: Name)
    ensures n != NONE && forall m | m in names :: m < n
    decreases names
  {
    if names == {} {
      n := 1;
    } else {
      var m :| m in names;
      n := NewNameExists(names - {m});
      n := if m < n then n else m + 1;
      assert forall k | k in names :: k in names - {m} || k == m;
    }
  }

  /** A goroutine that waits for nothing can step. */
  lemma CanStep(s: State, i: nat) returns (c: Choice)
    requires Inv(s) && i < |s.procs| && Unfinished(s.procs[i])
    requires !WaitsForTx(s.procs[i].pc) && !WaitsForOp(s.procs[i].pc) && !WaitsForRo(s.procs[i].pc)
    ensures Enabled(s, Run(i, c)) && c.ok
  {
    var me := s.procs[i];
    FactsHold(s, i);
    var n := NewNameExists(s.sh.log.issued + s.sh.log.named);
    c := Choice(true, AsWrite, 0, n);
    if me.pc.AtRw? && s.sh.writeMu {
      assert Applies(Rw, s);
      if !exists k :: 0 <= k < |s.procs| && InRw(s.procs[k].pc) {
        TotalZero(Rw, s.procs);
      }
      var k :| 0 <= k < |s.procs| && InRw(s.procs[k].pc);
      if k != i {
        AlmostAlone(s, i, k);
      }
    }
  }

  /** Among a goroutine that waits for a read-only connection and the one that has it, one can step. */
  lemma RoStep(s: State, i: nat) returns (pid: nat, c: Choice)
    requires Inv(s) && |s.sh.ro| > 0 && i < |s.procs| && WaitsForRo(s.procs[i].pc)
    ensures Enabled(s, Run(pid, c)) && c.ok && Unfinished(s.procs[pid])
  {
    if s.sh.ro[0].busy {
      assert Applies(Ro(0), s);
      if !exists k :: 0 <= k < |s.procs| && HasRo(s.procs[k].pc, 0) {
        TotalZero(Ro(0), s.procs);
      }
      pid :| 0 <= pid < |s.procs| && HasRo(s.procs[pid].pc, 0);
      c := CanStep(s, pid);
    } else {
      pid, c := i, Choice(true, AsWrite, 0, 1);
    }
  }

  lemma StepOrRo(s: State, i: nat) returns (pid: nat, c: Choice)
    requires Inv(s) && |s.sh.ro| > 0 && i < |s.procs| && Unfinished(s.procs[i])
    requires !WaitsForTx(s.procs[i].pc) && !WaitsForOp(s.procs[i].pc)
    ensures Enabled(s, Run(pid, c)) && c.ok && Unfinished(s.procs[pid])
  {
    if WaitsForRo(s.procs[i].pc) {
      pid, c := RoStep(s, i);
    } else {
      c := CanStep(s, i);
      pid := i;
    }
  }

  /** No deadlock: if some call is unfinished, a call or a tick under way can step, and not only by being
      refused, unless a transaction is open and that call waits for it to end. */
  lemma NoDeadlock(s: State, i: nat) returns (pid: nat, c: Choice)
    requires Inv(s) && |s.sh.ro| > 0 && i < |s.procs| && Unfinished(s.procs[i])
    requires s.sh.txID == NONE || !WaitsForTx(s.procs[i].pc)
    ensures Enabled(s, Run(pid, c)) && c.ok && Unfinished(s.procs[pid])
  {
    FactsHold(s, i);
    if WaitsForTx(s.procs[i].pc) && s.sh.txMu {
      assert Applies(Token, s);
      if !exists k :: 0 <= k < |s.procs| && HasToken(s.procs[k]) {
        TotalZero(Token, s.procs);
      }
      var k :| 0 <= k < |s.procs| && HasToken(s.procs[k]);
      FactsHold(s, k);
      pid, c := StepOrRo(s, k);
    } else if WaitsForOp(s.procs[i].pc) && s.sh.txOpMu {
      assert Applies(Op, s);
      if !exists k :: 0 <= k < |s.procs| && HasOp(s.procs[k]) {
        TotalZero(Op, s.procs);
      }
      var k :| 0 <= k < |s.procs| && HasOp(s.procs[k]);
      pid, c := StepOrRo(s, k);
    } else if WaitsForTx(s.procs[i].pc) || WaitsForOp(s.procs[i].pc) {
      pid, c := i, Choice(true, AsWrite, 0, 1);
    } else {
      pid, c := StepOrRo(s, i);
    }
  }
}
