/**
 What the serial schedule says about one transaction: it is there at most once, and then whole.
 */
module Atomicity {
  import opened History
  import opened Protocol
  import opened Runs
  import opened Sqlite

  ghost predicate CommittedIn(t: Trace, id: Name) {
    t.Then? && ((t.last.Committed? && t.last.id == id) || CommittedIn(t.before, id))
  }

  ghost predicate RolledBackIn(t: Trace, id: Name) {
    t.Then? && ((t.last.RolledBack? && t.last.id == id) || RolledBackIn(t.before, id))
  }

  /** What a block of the serial schedule stands for. */
  datatype Unit = OfTx(id: Name) | OfStmt(stmt: Stmt)

  ghost function Units(t: Trace): seq<Unit> {
    match t
    case Start => []
    case Then(p, Committed(id, _, _)) => Units(p) + [OfTx(id)]
    case Then(p, Wrote(id, s, _, _)) => if id == NONE then Units(p) + [OfStmt(s)] else Units(p)
    case Then(p, _) => Units(p)
  }

  /** A transaction ends once, in one of the two ways. */
  lemma {:induction false} EndsOnce(t: Trace, id: Name)
    requires Orderly(t) && id != NONE
    ensures CommittedIn(t, id) || RolledBackIn(t, id) <==> PhaseOf(t, id).Ended?
    ensures !(CommittedIn(t, id) && RolledBackIn(t, id))
  {
    if t.Then? {
      EndsOnce(t.before, id);
    }
  }

  lemma {:induction false} UnitsAreCommitted(t: Trace, id: Name)
    requires Orderly(t) && id != NONE
    ensures CommittedIn(t, id) <==> OfTx(id) in Units(t)
  {
    if t.Then? {
      UnitsAreCommitted(t.before, id);
    }
  }

  ghost predicate BlockOk(t: Trace, k: nat)
    requires k < |Units(t)| == |Serial(t)|
  {
    match Units(t)[k]
    case OfTx(id) => id != NONE && Serial(t)[k] == WritesOf(t, id)
    case OfStmt(s) => Serial(t)[k] == [s]
  }

  /** Each block of the schedule is one standalone write, or all writes a transaction ever made. */
  lemma {:induction false} BlocksAreWhole(t: Trace)
    requires Orderly(t)
    ensures |Units(t)| == |Serial(t)|
    ensures forall k :: 0 <= k < |Units(t)| ==> BlockOk(t, k)
  {
    if t.Then? {
      BlocksAreWhole(t.before);
      forall k | 0 <= k < |Units(t)| ensures BlockOk(t, k) {
        if k < |Units(t.before)| {
          assert BlockOk(t.before, k);
          assert Units(t)[k] == Units(t.before)[k] && Serial(t)[k] == Serial(t.before)[k];
          if Units(t)[k].OfTx? {
            var id := Units(t)[k].id;
            assert OfTx(id) in Units(t.before);
            UnitsAreCommitted(t.before, id);
            EndsOnce(t.before, id);
          }
        }
      }
    }
  }

  /** No transaction has two blocks. */
  lemma {:induction false} BlocksAreDistinct(t: Trace, j: nat, k: nat)
    requires Orderly(t) && j < k < |Units(t)| && Units(t)[j].OfTx? && Units(t)[k].OfTx?
    ensures Units(t)[j].id != Units(t)[k].id
  {
    if k < |Units(t.before)| {
      BlocksAreDistinct(t.before, j, k);
    } else {
      BlocksAreWhole(t.before);
      assert BlockOk(t.before, j);
      assert Units(t.before)[j] in Units(t.before);
      UnitsAreCommitted(t.before, Units(t)[j].id);
      EndsOnce(t.before, Units(t)[j].id);
    }
  }

  /** The schedule from a block on starts from what the earlier blocks and that block make. */
  lemma {:induction false} ReplaySplit(db: Db, blocks: seq<seq<Stmt>>, k: nat)
    requires k < |blocks|
    ensures ReplayBlocks(db, blocks) ==
              ReplayBlocks(Replay(ReplayBlocks(db, blocks[..k]), blocks[k]), blocks[k + 1..])
  {
    var n := |blocks| - 1;
    if k == n {
      assert blocks[n + 1..] == [];
    } else {
      ReplaySplit(db, blocks[..n], k);
      assert blocks[..n][..k] == blocks[..k];
      assert blocks[k + 1..][..n - k - 1] == blocks[..n][k + 1..];
    }
  }

  /** After any run: a transaction that committed has exactly one block, with every write it made; one
      that was rolled back, by a client, by the idle monitor or by Close, has none. */
  lemma AtomicityTheorem(s: State, id: Name) returns (k: nat)
    requires Reachable(s) && id != NONE
    ensures |Units(s.sh.log.trace)| == |Serial(s.sh.log.trace)|
    ensures CommittedIn(s.sh.log.trace, id) ==>
              && k < |Units(s.sh.log.trace)| && Units(s.sh.log.trace)[k] == OfTx(id)
              && Serial(s.sh.log.trace)[k] == WritesOf(s.sh.log.trace, id)
              && forall j :: 0 <= j < |Units(s.sh.log.trace)| && j != k ==> Units(s.sh.log.trace)[j] != OfTx(id)
    ensures RolledBackIn(s.sh.log.trace, id) ==>
              forall j :: 0 <= j < |Units(s.sh.log.trace)| ==> Units(s.sh.log.trace)[j] != OfTx(id)
  {
    var s0, ls :| Initial(s0) && Leads(s0, ls, s);
    WholeInitial(s0);
    WholeAlways(s0.sh.conn.committed, s0, ls, s);
    var t := s.sh.log.trace;
    BlocksAreWhole(t);
    EndsOnce(t, id);
    UnitsAreCommitted(t, id);
    k := 0;
    if CommittedIn(t, id) {
      k :| 0 <= k < |Units(t)| && Units(t)[k] == OfTx(id);
      assert BlockOk(t, k);
      forall j | 0 <= j < |Units(t)| && j != k ensures Units(t)[j] != OfTx(id) {
        if Units(t)[j] == OfTx(id) {
          BlocksAreDistinct(t, if j < k then j else k, if j < k then k else j);
        }
      }
    }
  }
}
