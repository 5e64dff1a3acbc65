/**
 An abstract SQLite connection: a committed database, the working copy of an open transaction,
 and the role the authorizer applies.  Prepare has no effect, and a statement that fails
 changes nothing.
 */
module Sqlite {
  /** The contents of the database file; nothing below looks inside. */
  type Db(!new)

  /** What a statement does to the transaction state of the connection that executes it. */
  datatype Control = Plain | Opens | Commits | RollsBack

  datatype Role = Admin | ReadWrite | ReadOnly

  /** A statement with its parameters bound: its effect on the contents, what it does to the
      transaction, the roles whose authorizer accepts it, and whether it reports any change to
      the authorizer (see Authorizer.Compiled). */
  datatype Stmt = Stmt(effect: Db -> Db, control: Control, roles: set<Role>, changes: bool)

  function BeginStmt(): Stmt {
    Stmt(db => db, Opens, {Admin, ReadWrite}, true)
  }

  function CommitStmt(): Stmt {
    Stmt(db => db, Commits, {Admin, ReadWrite}, true)
  }

  function RollbackStmt(): Stmt {
    Stmt(db => db, RollsBack, {Admin, ReadWrite}, true)
  }

  /** What executing the statement makes of the contents: SQLite reports every change to the
      authorizer, so a statement that reports none makes none. */
  function Effect(stmt: Stmt, db: Db): Db {
    if stmt.changes then stmt.effect(db) else db
  }

  /** What the authorizer makes true of every statement: see Authorizer.CompiledIsLawful. */
  predicate Lawful(stmt: Stmt) {
    ReadOnly in stmt.roles ==> !stmt.changes && stmt.control.Plain?
  }

  datatype Conn = Conn(committed: Db, working: Db, inTx: bool, role: Role) {
    /** What a statement on this connection reads. */
    function View(): Db {
      if inTx then working else committed
    }

    /** Whether executing stmt succeeds, given that nothing else (constraints, a busy file, I/O)
        makes it fail. */
    predicate Succeeds(stmt: Stmt, healthy: bool) {
      && healthy
      && role in stmt.roles
      && (stmt.control.Opens? ==> !inTx)
      && (stmt.control.Commits? || stmt.control.RollsBack? ==> inTx)
    }

    /** The connection after a successful execution; writes is false for a statement that
        sqlite3_stmt_readonly reports as read-only. */
    function After(stmt: Stmt, writes: bool): Conn {
      match stmt.control
      case Opens => this.(inTx := true, working := committed)
      case Commits => this.(inTx := false, committed := working)
      case RollsBack => this.(inTx := false)
      case Plain =>
        if !writes then this
        else if inTx then this.(working := Effect(stmt, working))
        else this.(committed := Effect(stmt, committed))
    }
  }
}
