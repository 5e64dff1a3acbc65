/**
 Conn.Query of internal/sqlite/sqlite.go: finding the parameters, binding the values, stepping
 through the rows.
 */
module Binding {
  import opened Values
  import opened Wrappers

  datatype Param = Param(name: string, value: Native)

  /** A prepared statement as the loops see it: the names of its parameters with their prefixes, ""
      for a nameless one; the declared types of its columns; the rows it yields for given
      bindings, None if a step fails. */
  datatype Prepared = Prepared(
    names: seq<string>, declTypes: seq<string>, rows: seq<Native> -> Option<seq<seq<Native>>>)
  {
    /** Rows have as many values as there are columns. */
    ghost predicate Valid() {
      forall b :: rows(b).Some? ==> forall k :: 0 <= k < |rows(b).value| ==> |rows(b).value[k]| == |declTypes|
    }
  }

  // ---- The parameters of a request ----

  /** vdl.QueryParam; no name is the empty name. */
  datatype VdlParam = VdlParam(name: Option<string>, value: VdlValue)

  function NameOf(p: VdlParam): string {
    if p.name.Some? then p.name.value else ""
  }

  /** sqliteParamsFromVDL: the error of the first parameter that cannot be converted; else all of them in
      order, each with its name and its value. */
  method ParamsFromVDL(params: seq<VdlParam>) returns (r: Result<seq<Param>, ValueError>)
    ensures r.Ok? <==> forall i :: 0 <= i < |params| ==> Converted(params[i].value).Ok?
    ensures r.Ok? ==> |r.value| == |params| && forall i :: 0 <= i < |params| ==>
      && r.value[i].name == (if params[i].name.Some? then params[i].name.value else "")
      && Converted(params[i].value) == Ok(r.value[i].value)
    ensures r.Err? ==>
      exists i :: 0 <= i < |params| && Converted(params[i].value) == Err(r.error) &&
        forall j :: 0 <= j < i ==> Converted(params[j].value).Ok?
  {
    var converted: seq<Param> := [];
    for k := 0 to |params|
      invariant |converted| == k
      invariant forall i :: 0 <= i < k ==>
        converted[i].name == NameOf(params[i]) && Converted(params[i].value) == Ok(converted[i].value)
    {
      var value := FromVDL(params[k].value);
      if value.Err? {
        return Err(value.error);
      }
      converted := converted + [Param(NameOf(params[k]), value.value)];
    }
    return Ok(converted);
  }

  // ---- Finding a parameter ----

  /** sqlite3_bind_parameter_index: the first parameter of this name, counted from 1, or 0. */
  function IndexOf(names: seq<string>, name: string): (k: nat)
    ensures k <= |names| && (k != 0 ==> names[k - 1] == name) && (k == 0 <==> name !in names)
    ensures forall i :: 0 <= i < k - 1 ==> names[i] != name
  {
    if names == [] then 0
    else if names[0] == name then 1
    else
      var k := IndexOf(names[1..], name);
      assert names == [names[0]] + names[1..];
      if k == 0 then 0 else k + 1
  }

  const PREFIXES: seq<string> := [":", "@", "$", "?"]

  predicate HasPrefix(name: string) {
    name != "" && name[0] in {':', '@', '$', '?'}
  }

  lemma PrefixMatches(name: string)
    ensures HasPrefix(name) <==> exists j :: 0 <= j < |PREFIXES| && PREFIXES[j] <= name
  {
    assert PREFIXES[0] == ":" && PREFIXES[1] == "@" && PREFIXES[2] == "$" && PREFIXES[3] == "?";
    assert forall c :: [c] <= name <==> name != "" && name[0] == c;
  }

  /** BindParameterIndexSafe: a name with a prefix is looked up as it is, a name without one under the
      four prefixes in turn. */
  method BindParameterIndexSafe(names: seq<string>, name: string) returns (k: nat)
    ensures k == SafeIndex(names, name)
  {
    if name == "" {
      return 0;
    }
    for i := 0 to |PREFIXES|
      invariant forall j :: 0 <= j < i ==> !(PREFIXES[j] <= name)
    {
      if PREFIXES[i] <= name {
        PrefixMatches(name);
        return IndexOf(names, name);
      }
    }
    PrefixMatches(name);
    assert PREFIXES[0] == ":" && PREFIXES[1] == "@" && PREFIXES[2] == "$" && PREFIXES[3] == "?";
    for i := 0 to |PREFIXES|
      invariant forall j :: 0 <= j < i ==> IndexOf(names, PREFIXES[j] + name) == 0
    {
      k := IndexOf(names, PREFIXES[i] + name);
      if k != 0 {
        return;
      }
    }
    k := 0;
  }

  function SafeIndex(names: seq<string>, name: string): nat {
    if name == "" then 0
    else if HasPrefix(name) then IndexOf(names, name)
    else if IndexOf(names, ":" + name) != 0 then IndexOf(names, ":" + name)
    else if IndexOf(names, "@" + name) != 0 then IndexOf(names, "@" + name)
    else if IndexOf(names, "$" + name) != 0 then IndexOf(names, "$" + name)
    else IndexOf(names, "?" + name)
  }

  /** The first parameter of this name, if there is any; k counts from 1. */
  predicate IsFirst(names: seq<string>, name: string, k: nat) {
    if k == 0 then name !in names else k <= |names| && names[k - 1] == name && name !in names[..k - 1]
  }

  lemma IndexIsFirst(names: seq<string>, name: string)
    ensures IsFirst(names, name, IndexOf(names, name))
  {
  }

  /** Which parameter a name is for, whatever the names of the statement are: the empty name is for none; one
      that has a prefix for the first parameter called so; any other for the first called so after the
      first of the prefixes : @ $ ? with which there is one. */
  lemma SafeIndexIs(names: seq<string>, name: string)
    ensures var k := SafeIndex(names, name);
            if name == "" then k == 0
            else if name[0] in {':', '@', '$', '?'} then IsFirst(names, name, k)
            else if k == 0 then forall j :: 0 <= j < 4 ==> [":@$?"[j]] + name !in names
            else exists j :: 0 <= j < 4 && IsFirst(names, [":@$?"[j]] + name, k) &&
                   forall i :: 0 <= i < j ==> [":@$?"[i]] + name !in names
  {
    var k := SafeIndex(names, name);
    var p := ":@$?";
    assert p[0] == ':' && p[1] == '@' && p[2] == '$' && p[3] == '?';
    IndexIsFirst(names, name);
    IndexIsFirst(names, [p[0]] + name);
    IndexIsFirst(names, [p[1]] + name);
    IndexIsFirst(names, [p[2]] + name);
    IndexIsFirst(names, [p[3]] + name);
  }

  // ---- The bind loop ----

  /** Which parameter of the statement the i-th value is for; 0 if none. */
  function Target(names: seq<string>, params: seq<Param>, i: nat): nat
    requires i < |params|
  {
    if params[i].name == "" then i + 1 else SafeIndex(names, params[i].name)
  }

  predicate Binds(names: seq<string>, params: seq<Param>) {
    forall i :: 0 <= i < |params| ==> 1 <= Target(names, params, i) <= |names|
  }

  /** v is the last of the first n values that is for parameter k, or NULL if there is none. */
  ghost predicate Holds(names: seq<string>, params: seq<Param>, n: nat, k: nat, v: Native)
    requires n <= |params|
  {
    || (v == Null && forall i :: 0 <= i < n ==> Target(names, params, i) != k + 1)
    || exists i :: 0 <= i < n && IsLast(names, params, n, i, k) && v == Bound(params[i].value)
  }

  /** b holds, for every parameter, the last value that is for it, and NULL if there is none. */
  ghost predicate BoundTo(names: seq<string>, params: seq<Param>, n: nat, b: seq<Native>)
    requires n <= |params|
  {
    |b| == |names| && forall k :: 0 <= k < |b| ==> Holds(names, params, n, k, b[k])
  }

  ghost predicate IsLast(names: seq<string>, params: seq<Param>, n: nat, i: nat, k: nat)
    requires i < n <= |params|
  {
    Target(names, params, i) == k + 1 && forall j :: i < j < n ==> Target(names, params, j) != k + 1
  }

  lemma HoldsStill(names: seq<string>, params: seq<Param>, n: nat, k: nat, v: Native)
    requires n < |params| && Holds(names, params, n, k, v) && Target(names, params, n) != k + 1
    ensures Holds(names, params, n + 1, k, v)
  {
    hide Target;
    if i :| 0 <= i < n && IsLast(names, params, n, i, k) && v == Bound(params[i].value) {
      assert IsLast(names, params, n + 1, i, k);
    }
  }

  lemma BindOne(names: seq<string>, params: seq<Param>, n: nat, b: seq<Native>)
    requires n < |params| && BoundTo(names, params, n, b) && 1 <= Target(names, params, n) <= |names|
    ensures BoundTo(names, params, n + 1, b[Target(names, params, n) - 1 := Bound(params[n].value)])
  {
    hide Target;
    var t := Target(names, params, n) - 1;
    assert IsLast(names, params, n + 1, n, t);
    assert Holds(names, params, n + 1, t, Bound(params[n].value));
    forall k | 0 <= k < |b| && k != t ensures Holds(names, params, n + 1, k, b[k]) {
      HoldsStill(names, params, n, k, b[k]);
    }
    hide Holds;
  }

  /** The loop over the parameters. */
  method BindAll(names: seq<string>, params: seq<Param>) returns (bound: Option<seq<Native>>)
    ensures bound.Some? <==> Binds(names, params)
    ensures bound.Some? ==> BoundTo(names, params, |params|, bound.value)
  {
    hide SafeIndex, IsLast, Bound;
    var b := seq(|names|, _ => Null);
    assert BoundTo(names, params, 0, b);
    hide Holds;
    for i := 0 to |params|
      invariant BoundTo(names, params, i, b)
      invariant forall j :: 0 <= j < i ==> 1 <= Target(names, params, j) <= |names|
    {
      var index := i + 1;
      if params[i].name != "" {
        index := BindParameterIndexSafe(names, params[i].name);
      }
      assert index == Target(names, params, i);
      if index == 0 || index > |names| {
        return None;
      }
      BindOne(names, params, i, b);
      b := b[index - 1 := Bound(params[i].value)];
    }
    return Some(b);
  }

  /** Bindings are determined: the predicate above is a function of the parameters. */
  lemma BoundIsUnique(names: seq<string>, params: seq<Param>, b: seq<Native>, c: seq<Native>)
    requires BoundTo(names, params, |params|, b) && BoundTo(names, params, |params|, c)
    ensures b == c
  {
    var n := |params|;
    hide Target, Bound;
    forall k | 0 <= k < |b| ensures b[k] == c[k] {
      assert Holds(names, params, n, k, b[k]) && Holds(names, params, n, k, c[k]);
      if i :| 0 <= i < n && IsLast(names, params, n, i, k) && b[k] == Bound(params[i].value) {
        var j :| 0 <= j < n && IsLast(names, params, n, j, k) && c[k] == Bound(params[j].value);
        assert i == j;
      }
    }
  }

  /** A named value reaches the parameter of that name, whether or not the prefix is given. */
  lemma NamesReach(names: seq<string>, name: string, k: nat, prefix: char)
    requires prefix in {':', '@', '$', '?'} && k < |names| && names[k] == [prefix] + name
    requires forall i, c :: 0 <= i < |names| && c in {':', '@', '$', '?'} && names[i] == [c] + name ==> i == k
    requires name != "" && !HasPrefix(name)
    ensures SafeIndex(names, name) == SafeIndex(names, [prefix] + name) == k + 1
  {
    assert ([prefix] + name)[0] == prefix;
    assert [prefix] + name in names;
    forall c | c in {':', '@', '$', '?'} ensures IndexOf(names, [c] + name) == if c == prefix then k + 1 else 0 {
      var i := IndexOf(names, [c] + name);
      if i != 0 {
        assert names[i - 1] == [c] + name;
        assert i - 1 == k;
        assert ([c] + name)[0] == c;
      } else {
        assert c != prefix;
      }
    }
  }

  // ---- The step loop ----

  datatype QueryError = PrepareError | BindError | StepError

  datatype QueryResult = QueryResult(types: seq<string>, rows: seq<seq<Native>>)

  /** ColumnValueType. */
  function ValueType(n: Native): string {
    match n
    case Null => "NULL"
    case Integer(_) => "INTEGER"
    case Real(_) => "REAL"
    case Text(_) => "TEXT"
    case Blob(_) => "BLOB"
  }

  /** The names of the storage classes: each value gets the one of its own. */
  lemma StorageClasses(n: Native)
    ensures ValueType(n) == "NULL" <==> n == Null
    ensures ValueType(n) == "INTEGER" <==> n.Integer?
    ensures ValueType(n) == "REAL" <==> n.Real?
    ensures ValueType(n) == "TEXT" <==> n.Text?
    ensures ValueType(n) == "BLOB" <==> n.Blob?
  {
    assert "NULL"[0] == 'N' && "INTEGER"[0] == 'I' && "REAL"[0] == 'R' && "TEXT"[0] == 'T' && "BLOB"[0] == 'B';
  }

  function ReadRow(row: seq<Native>): (r: seq<Native>)
    ensures |r| == |row| && forall i :: 0 <= i < |row| ==> r[i] == ColumnDynamic(row[i])
  {
    seq(|row|, i requires 0 <= i < |row| => ColumnDynamic(row[i]))
  }

  /** Column i's type: as declared, else the storage class of its first value, else nothing. */
  function TypeOf(p: Prepared, rows: seq<seq<Native>>, i: nat): string
    requires i < |p.declTypes| && forall k :: 0 <= k < |rows| ==> |rows[k]| == |p.declTypes|
  {
    if p.declTypes[i] != "" || rows == [] then p.declTypes[i] else ValueType(ColumnDynamic(rows[0][i]))
  }

  /** One row: its values, and the types it fixes if it is the first. */
  method Step(p: Prepared, row: seq<Native>, first: bool, types: seq<string>)
    returns (r: seq<Native>, types': seq<string>)
    requires |row| == |types|
    ensures r == ReadRow(row) && |types'| == |types|
    ensures forall i :: 0 <= i < |types| ==>
      types'[i] == if first && types[i] == "" then ValueType(ColumnDynamic(row[i])) else types[i]
  {
    r, types' := [], types;
    for i := 0 to |row|
      invariant r == ReadRow(row)[..i] && |types'| == |types|
      invariant forall j :: 0 <= j < |types| ==>
        types'[j] == if j < i && first && types[j] == "" then ValueType(ColumnDynamic(row[j])) else types[j]
    {
      var col := ColumnDynamic(row[i]);
      r := r + [col];
      if first && types'[i] == "" {
        types' := types'[i := ValueType(col)];
      }
    }
  }

  /** Conn.Query: an error if the text does not compile, a parameter is not there or a step fails; else
      every row as SQLite yields it for the bindings, read column by column, and the types.  compiled
      is what Prepare makes of the text, None if it fails or the authorizer refuses it. */
  method Query(compiled: Option<Prepared>, params: seq<Param>, ghost b: seq<Native>)
    returns (r: Result<QueryResult, QueryError>)
    requires compiled.Some? ==> compiled.value.Valid()
    requires compiled.Some? && Binds(compiled.value.names, params) ==>
      BoundTo(compiled.value.names, params, |params|, b)
    ensures r == Err(PrepareError) <==> compiled.None?
    ensures r == Err(BindError) <==> compiled.Some? && !Binds(compiled.value.names, params)
    ensures r == Err(StepError) <==>
      compiled.Some? && Binds(compiled.value.names, params) && compiled.value.rows(b).None?
    ensures r.Ok? <==> compiled.Some? && Binds(compiled.value.names, params) && compiled.value.rows(b).Some?
    ensures r.Ok? ==>
      var p := compiled.value;
      var rows := p.rows(b).value;
      if p.declTypes == [] then r.value == QueryResult([], [])
      else
        && |r.value.rows| == |rows| && (forall k :: 0 <= k < |rows| ==> r.value.rows[k] == ReadRow(rows[k]))
        && |r.value.types| == |p.declTypes|
        && forall i :: 0 <= i < |p.declTypes| ==> r.value.types[i] == TypeOf(p, rows, i)
  {
    if compiled.None? {
      return Err(PrepareError);
    }
    var p := compiled.value;
    var bound := BindAll(p.names, params);
    if bound.None? {
      return Err(BindError);
    }
    BoundIsUnique(p.names, params, b, bound.value);
    var steps := p.rows(bound.value);
    if steps.None? {
      return Err(StepError);
    }
    if p.declTypes == [] {
      return Ok(QueryResult([], []));
    }
    var types, rows := p.declTypes, [];
    for k := 0 to |steps.value|
      invariant |rows| == k && forall j :: 0 <= j < k ==> rows[j] == ReadRow(steps.value[j])
      invariant |types| == |p.declTypes|
      invariant forall i :: 0 <= i < |types| ==> types[i] == TypeOf(p, steps.value[..k], i)
    {
      var row;
      row, types := Step(p, steps.value[k], k == 0, types);
      rows := rows + [row];
    }
    assert steps.value[..|steps.value|] == steps.value;
    return Ok(QueryResult(types, rows));
  }

  // ---- The whole path ----

  /** SELECT of its own parameters, all nameless. */
  function EchoStatement(n: nat): Prepared {
    Prepared(seq(n, _ => ""), seq(n, _ => ""), b => if |b| == n then Some([b]) else None)
  }

  function Nameless(values: seq<Native>): (params: seq<Param>)
    ensures |params| == |values| && forall i :: 0 <= i < |values| ==> params[i] == Param("", values[i])
  {
    seq(|values|, i requires 0 <= i < |values| => Param("", values[i]))
  }

  lemma EchoBinds(values: seq<Native>)
    ensures var p, b := EchoStatement(|values|), seq(|values|, i requires 0 <= i < |values| => Bound(values[i]));
            p.Valid() && Binds(p.names, Nameless(values)) && BoundTo(p.names, Nameless(values), |values|, b)
  {
    var p, params := EchoStatement(|values|), Nameless(values);
    forall k | 0 <= k < |values| ensures Holds(p.names, params, |values|, k, Bound(values[k])) {
      assert IsLast(p.names, params, |values|, k, k);
    }
  }

  /** A list of values sent as nameless parameters and selected back unchanged: one row, in which
      each value is what Values.ValueEcho says. */
  method EchoAll(values: seq<Native>) returns (row: seq<VdlValue>)
    ensures |row| == |values| && forall i :: 0 <= i < |values| ==> row[i] == Echo(values[i])
  {
    EchoBinds(values);
    ghost var b := seq(|values|, i requires 0 <= i < |values| => Bound(values[i]));
    if values == [] {
      return [];
    }
    assert EchoStatement(|values|).rows(b) == Some([b]);
    var r := Query(Some(EchoStatement(|values|)), Nameless(values), b);
    row := [];
    for i := 0 to |values|
      invariant |row| == i && forall j :: 0 <= j < i ==> row[j] == Echo(values[j])
    {
      row := row + [ToVDL(r.value.rows[0][i])];
    }
  }
}
