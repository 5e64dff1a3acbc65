/**
 What an observer of the database writes down, one event for every operation that took effect,
 and what those records mean.
 */
module History {
  import opened Sqlite

  /** Transaction IDs and principals are only ever compared, so numbers stand for the strings;
      NONE stands for the empty string. */
  type Name = nat

  const NONE: Name := 0

  datatype Kind = Client | Monitor | Closer

  /** On whose behalf an operation ran. */
  datatype Cred = Cred(kind: Kind, role: Role, owner: Name)

  /** The role named runAs is the one the connection had when SQLite executed the statement. */
  datatype Event =
    | Began(id: Name, cred: Cred, at: int)
    | Used(id: Name, at: int)
    | Wrote(id: Name, stmt: Stmt, cred: Cred, runAs: Role)
    | Saw(id: Name, stmt: Stmt, db: Db, cred: Cred, runAs: Role)
    | Committed(id: Name, cred: Cred, runAs: Role)
    | RolledBack(id: Name, cred: Cred, runAs: Role, at: int)

  /** Events in order, the latest last. */
  datatype Trace = Start | Then(before: Trace, last: Event)

  // ---- Serial meaning ----

  ghost function Replay(db: Db, stmts: seq<Stmt>): Db {
    if stmts == [] then db
    else Effect(stmts[|stmts| - 1], Replay(db, stmts[..|stmts| - 1]))
  }

  lemma {:induction false} ReplayAppend(db: Db, a: seq<Stmt>, b: seq<Stmt>)
    ensures Replay(db, a + b) == Replay(Replay(db, a), b)
  {
    if b == [] {
      assert a + b == a;
    } else {
      var c := b[..|b| - 1];
      ReplayAppend(db, a, c);
      assert (a + b)[..|a + b| - 1] == a + c;
    }
  }

  /** The successful writes tagged with a transaction ID, in order. */
  ghost function WritesOf(t: Trace, id: Name): seq<Stmt> {
    match t
    case Start => []
    case Then(p, Wrote(i, s, _, _)) => if i == id then WritesOf(p, id) + [s] else WritesOf(p, id)
    case Then(p, _) => WritesOf(p, id)
  }

  /** The serial schedule: each committed transaction's writes as one block where it commits, each
      write without a transaction on its own, nothing else. */
  ghost function Serial(t: Trace): seq<seq<Stmt>> {
    match t
    case Start => []
    case Then(p, Committed(id, _, _)) => Serial(p) + [WritesOf(p, id)]
    case Then(p, Wrote(id, s, _, _)) => if id == NONE then Serial(p) + [[s]] else Serial(p)
    case Then(p, _) => Serial(p)
  }

  ghost function ReplayBlocks(db: Db, blocks: seq<seq<Stmt>>): Db {
    if blocks == [] then db
    else Replay(ReplayBlocks(db, blocks[..|blocks| - 1]), blocks[|blocks| - 1])
  }

  lemma ReplayOneMore(db: Db, blocks: seq<seq<Stmt>>, b: seq<Stmt>)
    ensures ReplayBlocks(db, blocks + [b]) == Replay(ReplayBlocks(db, blocks), b)
  {
    assert (blocks + [b])[..|blocks|] == blocks;
  }

  lemma ReplaySingle(db: Db, s: Stmt)
    ensures Replay(db, [s]) == Effect(s, db)
  {
    assert [s][..0] == [];
  }

  // ---- Life of a transaction ID ----

  datatype Phase = Fresh | Active | Ended

  ghost function PhaseOf(t: Trace, id: Name): Phase {
    match t
    case Start => Fresh
    case Then(p, Began(i, _, _)) => if i == id then Active else PhaseOf(p, id)
    case Then(p, Committed(i, _, _)) => if i == id then Ended else PhaseOf(p, id)
    case Then(p, RolledBack(i, _, _, _)) => if i == id then Ended else PhaseOf(p, id)
    case Then(p, _) => PhaseOf(p, id)
  }

  /** Every event of a transaction lies between its beginning and its end, and an ID begins once. */
  ghost predicate Orderly(t: Trace) {
    match t
    case Start => true
    case Then(p, e) =>
      && Orderly(p)
      && (if e.Began? then e.id != NONE && PhaseOf(p, e.id) == Fresh
          else (e.id == NONE && (e.Wrote? || e.Saw?)) || (e.id != NONE && PhaseOf(p, e.id) == Active))
  }

  ghost predicate Prefix(p: Trace, t: Trace) {
    p == t || (t.Then? && Prefix(p, t.before))
  }

  lemma {:induction false} PrefixStep(p: Trace, t: Trace)
    requires p.Then? && Prefix(p, t)
    ensures Prefix(p.before, t)
  {
    if p != t {
      PrefixStep(p, t.before);
    } else {
      assert Prefix(t.before, t.before);
    }
  }

  function PhaseRank(p: Phase): nat {
    match p case Fresh => 0 case Active => 1 case Ended => 2
  }

  /** A phase never goes back. */
  lemma {:induction false} PhaseOnlyAdvances(p: Trace, t: Trace, id: Name)
    requires Prefix(p, t) && Orderly(t) && id != NONE
    ensures Orderly(p)
    ensures PhaseRank(PhaseOf(p, id)) <= PhaseRank(PhaseOf(t, id))
  {
    if p != t {
      PhaseOnlyAdvances(p, t.before, id);
    }
  }

  lemma {:induction false} FreshWroteNothing(t: Trace, id: Name)
    requires Orderly(t) && id != NONE && PhaseOf(t, id) == Fresh
    ensures WritesOf(t, id) == []
  {
    if t.Then? {
      FreshWroteNothing(t.before, id);
    }
  }

  // ---- Who, when and how many ----

  /** The principal that began a transaction. */
  ghost function OwnerOf(t: Trace, id: Name): Name {
    match t
    case Start => NONE
    case Then(p, Began(i, cred, _)) => if i == id then cred.owner else OwnerOf(p, id)
    case Then(p, _) => OwnerOf(p, id)
  }

  /** The last moment at which a transaction was begun, or a statement of it started or ended. */
  ghost function LastUse(t: Trace, id: Name): int {
    match t
    case Start => 0
    case Then(p, Began(i, _, at)) => if i == id then at else LastUse(p, id)
    case Then(p, Used(i, at)) => if i == id then at else LastUse(p, id)
    case Then(p, _) => LastUse(p, id)
  }

  /** When it was begun. */
  ghost function BeganAt(t: Trace, id: Name): int {
    match t
    case Start => 0
    case Then(p, Began(i, _, at)) => if i == id then at else BeganAt(p, id)
    case Then(p, _) => BeganAt(p, id)
  }

  datatype Tally = Begins | Commits | Rollbacks | Writes | Reads

  predicate Tallied(k: Tally, e: Event) {
    match k
    case Begins => e.Began?
    case Commits => e.Committed?
    case Rollbacks => e.RolledBack?
    case Writes => e.Wrote?
    case Reads => e.Saw?
  }

  ghost function Count(t: Trace, k: Tally): nat {
    match t
    case Start => 0
    case Then(p, e) => Count(p, k) + (if Tallied(k, e) then 1 else 0)
  }
}
