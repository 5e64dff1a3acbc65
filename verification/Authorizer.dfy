/**
 The SQLite authorizer callback of internal/sqlite/sqlite.c: which actions a statement may take
 under each role.  A NULL C string is None.
 */
module Authorizer {
  import opened Sqlite
  import opened Wrappers

  /** The action codes the callback tells apart; every other code is Other. */
  datatype Code =
    | Select | Read | Recursive | Function | Pragma | Transaction | Savepoint
    | Insert | Update | Delete | Other(code: int)

  datatype Action = Action(code: Code, arg3: Option<string>, arg4: Option<string>)

  const ALLOWED_FUNCTIONS: seq<string> := [
    "abs", "avg", "changes", "char", "coalesce", "concat", "concat_ws", "count", "date", "datetime",
    "format", "glob", "group_concat", "hex", "if", "ifnull", "iif", "instr", "json", "json_array",
    "json_array_insert", "json_array_length", "json_each", "json_error_position", "json_extract",
    "json_group_array", "json_group_object", "json_insert", "json_object", "json_patch", "json_pretty",
    "json_quote", "json_remove", "json_replace", "json_set", "json_tree", "json_type", "json_valid",
    "jsonb", "jsonb_array", "jsonb_array_insert", "jsonb_each", "jsonb_extract", "jsonb_group_array",
    "jsonb_group_object", "jsonb_insert", "jsonb_object", "jsonb_patch", "jsonb_remove", "jsonb_replace",
    "jsonb_set", "jsonb_tree", "julianday", "last_insert_rowid", "length", "like", "likelihood", "likely",
    "lower", "ltrim", "max", "min", "nullif", "octet_length", "printf", "quote", "random", "randomblob",
    "replace", "round", "rtrim", "sign", "sqlite_compileoption_get", "sqlite_compileoption_used",
    "sqlite_source_id", "sqlite_version", "strftime", "substr", "substring", "sum", "time", "timediff",
    "total", "total_changes", "trim", "typeof", "unhex", "unicode", "unistr", "unistr_quote", "unixepoch",
    "unlikely", "upper", "zeroblob"
  ]

  const INTROSPECTION_PRAGMAS: seq<string> := [
    "table_info", "table_xinfo", "index_info", "index_xinfo", "index_list", "foreign_key_list"
  ]

  const STATELESS_PRAGMAS: seq<string> := [
    "collation_list", "compile_options", "data_version", "database_list", "defer_foreign_keys",
    "freelist_count", "function_list", "module_list", "page_count", "page_size", "pragma_list",
    "schema_version", "user_version"
  ]

  predicate IsInternalTable(name: Option<string>) {
    name.Some? && "sqlite_" <= name.value
  }

  /** The scan over the allow-list. */
  method IsAllowedFunction(name: Option<string>) returns (allowed: bool)
    ensures allowed <==> name.Some? && name.value in ALLOWED_FUNCTIONS
  {
    if name.None? {
      return false;
    }
    var i := 0;
    while i < |ALLOWED_FUNCTIONS|
      invariant 0 <= i <= |ALLOWED_FUNCTIONS|
      invariant name.value !in ALLOWED_FUNCTIONS[..i]
    {
      if name.value == ALLOWED_FUNCTIONS[i] {
        return true;
      }
      i := i + 1;
    }
    assert ALLOWED_FUNCTIONS[..i] == ALLOWED_FUNCTIONS;
    return false;
  }

  predicate IsReadOnlyPragma(name: Option<string>, arg: Option<string>) {
    && name.Some?
    && (name.value in INTROSPECTION_PRAGMAS || (name.value in STATELESS_PRAGMAS && arg.None?))
  }

  /** The role decision: true is SQLITE_OK, false is SQLITE_DENY. */
  predicate Authorize(role: Role, a: Action) {
    match role
    case Admin => true
    case ReadWrite =>
      (match a.code
       case Select | Read | Recursive => true
       case Function => a.arg4.Some? && a.arg4.value in ALLOWED_FUNCTIONS
       case Pragma => IsReadOnlyPragma(a.arg3, a.arg4)
       case Transaction | Savepoint => true
       case Insert | Update | Delete => !IsInternalTable(a.arg3)
       case Other(_) => false)
    case ReadOnly =>
      (match a.code
       case Select | Read | Recursive => true
       case Function => a.arg4.Some? && a.arg4.value in ALLOWED_FUNCTIONS
       case Pragma => IsReadOnlyPragma(a.arg3, a.arg4)
       case _ => false)
  }

  /** SQLite prepares a statement only if the callback accepts every action it reports. */
  predicate Permits(role: Role, actions: seq<Action>) {
    forall a | a in actions :: Authorize(role, a)
  }

  /** The actions that change rows, the schema or the transaction state. */
  predicate Changes(a: Action) {
    a.code.Insert? || a.code.Update? || a.code.Delete? || a.code.Other? ||
    a.code.Transaction? || a.code.Savepoint?
  }

  /** The read-only role is exactly the read-write role without the changing actions, and the
      read-write role lies strictly below the administrator's. */
  lemma RoleLadder(a: Action)
    ensures Authorize(ReadOnly, a) <==> Authorize(ReadWrite, a) && !Changes(a)
    ensures Authorize(ReadWrite, a) ==> Authorize(Admin, a)
    ensures a.code.Other? || (Changes(a) && IsInternalTable(a.arg3) && !a.code.Transaction? && !a.code.Savepoint?)
            ==> !Authorize(ReadWrite, a)
  {
  }

  // ---- What each role may do, list by list ----

  /** A call of one of the functions on the list. */
  predicate CallsAllowed(a: Action) {
    a.code.Function? && a.arg4.Some? && a.arg4.value in ALLOWED_FUNCTIONS
  }

  /** One of six pragmas that inspect a table, or one of thirteen others without an argument. */
  predicate Inspects(a: Action) {
    a.code.Pragma? && a.arg3.Some? &&
    (|| a.arg3.value in {"table_info", "table_xinfo", "index_info", "index_xinfo", "index_list", "foreign_key_list"}
     || (a.arg4.None? &&
         a.arg3.value in {"collation_list", "compile_options", "data_version", "database_list", "defer_foreign_keys",
           "freelist_count", "function_list", "module_list", "page_count", "page_size", "pragma_list",
           "schema_version", "user_version"}))
  }

  predicate ReadsOnly(a: Action) {
    a.code.Select? || a.code.Read? || a.code.Recursive? || CallsAllowed(a) || Inspects(a)
  }

  /** A change of rows, of a table whose name does not start with sqlite_. */
  predicate ChangesRows(a: Action) {
    && (a.code.Insert? || a.code.Update? || a.code.Delete?)
    && (a.arg3.Some? ==> |a.arg3.value| < 7 || a.arg3.value[..7] != "sqlite_")
  }

  lemma PragmaNames(a: Action)
    requires a.code.Pragma?
    ensures IsReadOnlyPragma(a.arg3, a.arg4) <==> Inspects(a)
  {
  }

  lemma InternalName(name: Option<string>)
    ensures IsInternalTable(name) <==> name.Some? && |name.value| >= 7 && name.value[..7] == "sqlite_"
  {
  }

  lemma OneAction(a: Action)
    ensures Authorize(ReadOnly, a) <==> ReadsOnly(a)
    ensures Authorize(ReadWrite, a) <==> ReadsOnly(a) || a.code.Transaction? || a.code.Savepoint? || ChangesRows(a)
  {
    if a.code.Pragma? {
      PragmaNames(a);
    }
    InternalName(a.arg3);
    hide IsReadOnlyPragma, Inspects, IsInternalTable;
  }

  /** The administrator may do anything.  A reader's statement is accepted if and only if all it does is
      select, read columns, recurse, call functions on the list and inspect; a writer's if and only if,
      besides that, it begins and ends transactions and changes rows of tables that are not internal. */
  lemma Permitted(actions: seq<Action>)
    ensures Permits(Admin, actions)
    ensures Permits(ReadOnly, actions) <==> forall a | a in actions :: ReadsOnly(a)
    ensures Permits(ReadWrite, actions) <==>
      forall a | a in actions :: ReadsOnly(a) || a.code.Transaction? || a.code.Savepoint? || ChangesRows(a)
  {
    forall a | a in actions
      ensures Authorize(ReadOnly, a) <==> ReadsOnly(a)
      ensures Authorize(ReadWrite, a) <==> ReadsOnly(a) || a.code.Transaction? || a.code.Savepoint? || ChangesRows(a)
    {
      OneAction(a);
    }
    hide Authorize, ReadsOnly, ChangesRows;
    assert forall a | a in actions :: Authorize(Admin, a) by {
      AdminMay(actions);
    }
  }

  lemma AdminMay(actions: seq<Action>)
    ensures forall a | a in actions :: Authorize(Admin, a)
  {
  }

  /** A query that only selects and reads is open to every role. */
  lemma SelectsAreOpen(role: Role, actions: seq<Action>)
    requires forall a | a in actions :: a.code.Select? || a.code.Read? || a.code.Recursive?
    ensures Permits(role, actions)
  {
    Permitted(actions);
    assert forall a | a in actions :: ReadsOnly(a);
    hide ReadsOnly, Authorize;
  }

  /** stmt is what SQLite makes of a statement that reports these actions; one that touches the
      transaction reports that as well. */
  ghost predicate Compiled(stmt: Stmt, actions: seq<Action>) {
    && (forall r: Role :: r in stmt.roles <==> Permits(r, actions))
    && (stmt.changes <==> exists a :: a in actions && Changes(a))
    && (!stmt.control.Plain? ==> stmt.changes)
  }

  /** Nothing a read-only connection executes changes the contents or the transaction. */
  lemma CompiledIsLawful(stmt: Stmt, actions: seq<Action>)
    requires Compiled(stmt, actions)
    ensures Lawful(stmt)
  {
    if stmt.changes {
      var a :| a in actions && Changes(a);
      assert !Authorize(ReadOnly, a);
    }
  }

  /** The three statements the coordinator issues itself, as the authorizer sees them. */
  lemma ControlStatements(stmt: Stmt, verb: string)
    requires stmt in {BeginStmt(), CommitStmt(), RollbackStmt()}
    ensures Compiled(stmt, [Action(Transaction, Some(verb), None)])
  {
    var act := Action(Transaction, Some(verb), None);
    assert act in [act] && Changes(act);
    assert forall r: Role :: Permits(r, [act]) <==> Authorize(r, act);
  }
}
