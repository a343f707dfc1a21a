/**
 Per-user tool permissions: the in-memory store and the row-based one (stores/memory_permissions.py,
 sqlite_permissions.py).
 */
module Permissions {
  import opened Types

  type Tools = set<string>

  /** What an administrator does to the permissions. */
  datatype Op =
    | Grant(userId: string, tools: Tools)
    | Revoke(userId: string, tools: Tools)
    | Extend(names: Tools)

  // ---- The in-memory store ----

  datatype Allowlists = Allowlists(default: Tools, grants: map<string, Tools>, revokes: map<string, Tools>)

  function At(m: map<string, Tools>, userId: string): Tools {
    if userId in m then m[userId] else {}
  }

  function Allowed(a: Allowlists, userId: string): Tools {
    (a.default + At(a.grants, userId)) - At(a.revokes, userId)
  }

  /** difference_update on the set the user has, if there is one. */
  function Without(m: map<string, Tools>, userId: string, tools: Tools): map<string, Tools> {
    if userId in m then m[userId := m[userId] - tools] else m
  }

  function Do(a: Allowlists, op: Op): Allowlists {
    match op
    case Grant(userId, tools) =>
      a.(grants := a.grants[userId := At(a.grants, userId) + tools], revokes := Without(a.revokes, userId, tools))
    case Revoke(userId, tools) =>
      a.(revokes := a.revokes[userId := At(a.revokes, userId) + tools], grants := Without(a.grants, userId, tools))
    case Extend(names) => a.(default := a.default + names)
  }

  class InMemoryPermissionStore {
    var default: Tools
    var grants: map<string, Tools>
    var revokes: map<string, Tools>

    ghost function Lists(): Allowlists reads this { Allowlists(default, grants, revokes) }

    constructor (defaultAllowed: Tools)
      ensures Lists() == Allowlists(defaultAllowed, map[], map[])
    {
      default, grants, revokes := defaultAllowed, map[], map[];
    }

    method AllowedTools(userId: string) returns (allowed: Tools)
      ensures allowed == Allowed(Lists(), userId)
    {
      allowed := default + At(grants, userId);
      allowed := allowed - At(revokes, userId);
    }

    method Grant(userId: string, tools: Tools)
      modifies this
      ensures Lists() == Do(old(Lists()), Op.Grant(userId, tools))
    {
      grants := grants[userId := At(grants, userId) + tools];
      if userId in revokes {
        revokes := revokes[userId := revokes[userId] - tools];
      }
    }

    method Revoke(userId: string, tools: Tools)
      modifies this
      ensures Lists() == Do(old(Lists()), Op.Revoke(userId, tools))
    {
      revokes := revokes[userId := At(revokes, userId) + tools];
      if userId in grants {
        grants := grants[userId := grants[userId] - tools];
      }
    }

    method ExtendDefaultAllowed(names: Tools)
      modifies this
      ensures Lists() == Do(old(Lists()), Extend(names))
    {
      default := default + names;
    }
  }

  // ---- The row-based store ----

  datatype Row = Row(granted: Tools, revoked: Tools)

  const SENTINEL: string := "__default__"

  /** The table, and the default the store was constructed with. */
  datatype Database = Database(rows: map<string, Row>, configured: Tools)

  /** Schema creation seeds the default row unless an earlier process already did. */
  function Initialized(db: Database): Database {
    if SENTINEL in db.rows then db else db.(rows := db.rows[SENTINEL := Row(db.configured, {})])
  }

  function DefaultOf(db: Database): Tools {
    if SENTINEL in db.rows then db.rows[SENTINEL].granted else db.configured
  }

  function Deltas(db: Database, userId: string): Row {
    if userId in db.rows then db.rows[userId] else Row({}, {})
  }

  function RowsAllowed(db: Database, userId: string): Tools {
    (DefaultOf(db) + Deltas(db, userId).granted) - Deltas(db, userId).revoked
  }

  function DoRows(db: Database, op: Op): Database {
    var d := Initialized(db);
    match op
    case Grant(userId, tools) =>
      var row := Deltas(d, userId);
      d.(rows := d.rows[userId := Row(row.granted + tools, row.revoked - tools)])
    case Revoke(userId, tools) =>
      var row := Deltas(d, userId);
      d.(rows := d.rows[userId := Row(row.granted - tools, row.revoked + tools)])
    case Extend(names) => d.(rows := d.rows[SENTINEL := d.rows[SENTINEL].(granted := DefaultOf(d) + names)])
  }

  class SqlitePermissionStore {
    var rows: map<string, Row>
    const configured: Tools

    ghost function Table(): Database reads this { Database(rows, configured) }

    /** The table may hold the rows of earlier processes. */
    constructor (rows: map<string, Row>, defaultAllowed: Tools)
      ensures Table() == Database(rows, defaultAllowed)
    {
      this.rows, configured := rows, defaultAllowed;
    }

    method EnsureInit()
      modifies this
      ensures Table() == Initialized(old(Table()))
    {
      if SENTINEL !in rows {
        rows := rows[SENTINEL := Row(configured, {})];
      }
    }

    method GetDefault() returns (names: Tools)
      ensures names == DefaultOf(Table())
    {
      if SENTINEL !in rows {
        return configured;
      }
      names := rows[SENTINEL].granted;
    }

    method AllowedTools(userId: string) returns (allowed: Tools)
      modifies this
      ensures Table() == Initialized(old(Table())) && allowed == RowsAllowed(Table(), userId)
    {
      EnsureInit();
      allowed := GetDefault();
      if userId !in rows {
        return;
      }
      allowed := allowed + rows[userId].granted - rows[userId].revoked;
    }

    method Grant(userId: string, tools: Tools)
      modifies this
      ensures Table() == DoRows(old(Table()), Op.Grant(userId, tools))
    {
      EnsureInit();
      var row := if userId in rows then rows[userId] else Row({}, {});
      rows := rows[userId := Row(row.granted + tools, row.revoked - tools)];
    }

    method Revoke(userId: string, tools: Tools)
      modifies this
      ensures Table() == DoRows(old(Table()), Op.Revoke(userId, tools))
    {
      EnsureInit();
      var row := if userId in rows then rows[userId] else Row({}, {});
      rows := rows[userId := Row(row.granted - tools, row.revoked + tools)];
    }

    method ExtendDefaultAllowed(names: Tools)
      modifies this
      ensures Table() == DoRows(old(Table()), Extend(names))
    {
      EnsureInit();
      var current := GetDefault();
      rows := rows[SENTINEL := rows[SENTINEL].(granted := current + names)];
    }
  }

  // ---- Histories ----

  function History(initial: Tools, ops: seq<Op>): Allowlists {
    if ops == [] then Allowlists(initial, map[], map[]) else Do(History(initial, ops[..|ops| - 1]), ops[|ops| - 1])
  }

  predicate Names(op: Op, userId: string, tool: string) {
    !op.Extend? && op.userId == userId && tool in op.tools
  }

  /** What was last said about this tool for this user. */
  function LastWord(ops: seq<Op>, userId: string, tool: string): (last: Option<Op>)
    ensures last.Some? ==> last.value in ops && Names(last.value, userId, tool)
  {
    if ops == [] then None
    else if Names(ops[|ops| - 1], userId, tool) then Some(ops[|ops| - 1])
    else LastWord(ops[..|ops| - 1], userId, tool)
  }

  ghost predicate InDefault(initial: Tools, ops: seq<Op>, tool: string) {
    tool in initial || exists i :: 0 <= i < |ops| && ops[i].Extend? && tool in ops[i].names
  }

  lemma {:induction false} DefaultGrows(initial: Tools, ops: seq<Op>, tool: string)
    ensures tool in History(initial, ops).default <==> InDefault(initial, ops, tool)
  {
    if ops != [] {
      var front := ops[..|ops| - 1];
      DefaultGrows(initial, front, tool);
      assert forall i :: 0 <= i < |front| ==> front[i] == ops[i];
    }
  }

  lemma {:induction false} LastWordDecides(initial: Tools, ops: seq<Op>, userId: string, tool: string)
    ensures var a, last := History(initial, ops), LastWord(ops, userId, tool);
            && (tool in At(a.grants, userId) <==> last.Some? && last.value.Grant?)
            && (tool in At(a.revokes, userId) <==> last.Some? && last.value.Revoke?)
  {
    if ops != [] {
      LastWordDecides(initial, ops[..|ops| - 1], userId, tool);
    }
  }

  /**
   A tool is allowed iff the last word on it was a grant, or nothing was ever said and it is in the current default.
   */
  lemma AllowedIff(initial: Tools, ops: seq<Op>, userId: string, tool: string)
    ensures tool in Allowed(History(initial, ops), userId) <==>
              match LastWord(ops, userId, tool)
              case Some(op) => op.Grant?
              case None => InDefault(initial, ops, tool)
  {
    LastWordDecides(initial, ops, userId, tool);
    DefaultGrows(initial, ops, tool);
  }

  /** No tool is both granted to and revoked from a user. */
  lemma GrantsAndRevokesDisjoint(initial: Tools, ops: seq<Op>, userId: string)
    ensures At(History(initial, ops).grants, userId) !! At(History(initial, ops).revokes, userId)
  {
    forall tool | tool in At(History(initial, ops).grants, userId)
        ensures tool !in At(History(initial, ops).revokes, userId) {
      LastWordDecides(initial, ops, userId, tool);
    }
  }

  // ---- The rows refine the sets ----

  function RowHistory(initial: Tools, ops: seq<Op>): Database {
    if ops == [] then Database(map[], initial) else DoRows(RowHistory(initial, ops[..|ops| - 1]), ops[|ops| - 1])
  }

  ghost predicate SentinelUnused(ops: seq<Op>) {
    forall i :: 0 <= i < |ops| ==> ops[i].Extend? || ops[i].userId != SENTINEL
  }

  ghost predicate SameLists(a: Allowlists, db: Database) {
    && DefaultOf(db) == a.default
    && forall u :: u != SENTINEL ==> Deltas(db, u) == Row(At(a.grants, u), At(a.revokes, u))
  }

  lemma StepRefines(a: Allowlists, db: Database, op: Op)
    requires SameLists(a, db) && (op.Extend? || op.userId != SENTINEL)
    ensures SameLists(Do(a, op), DoRows(db, op))
  {
    var d := Initialized(db);
    assert SameLists(a, d);
    forall u | u != SENTINEL
      ensures Deltas(DoRows(db, op), u) == Row(At(Do(a, op).grants, u), At(Do(a, op).revokes, u))
    {
      assert Deltas(d, u) == Row(At(a.grants, u), At(a.revokes, u));
    }
  }

  lemma {:induction false} HistoriesAgree(initial: Tools, ops: seq<Op>)
    requires SentinelUnused(ops)
    ensures SameLists(History(initial, ops), RowHistory(initial, ops))
  {
    if ops != [] {
      var front := ops[..|ops| - 1];
      assert forall i :: 0 <= i < |front| ==> front[i] == ops[i];
      HistoriesAgree(initial, front);
      StepRefines(History(initial, front), RowHistory(initial, front), ops[|ops| - 1]);
    }
  }

  /**
   From the same initial default and an empty table, the row-based store allows every user but the sentinel exactly what
   the in-memory store allows, over every history that never grants to or revokes from the sentinel.
   */
  lemma RowsRefineSets(initial: Tools, ops: seq<Op>, userId: string)
    requires SentinelUnused(ops) && userId != SENTINEL
    ensures RowsAllowed(Initialized(RowHistory(initial, ops)), userId) == Allowed(History(initial, ops), userId)
  {
    HistoriesAgree(initial, ops);
  }

  /**
   One operation: the two stores still allow everyone else the same if and only if it does not change the default row.
   */
  lemma AgreementKeptIff(a: Allowlists, db: Database, op: Op)
    requires SameLists(a, db)
    ensures SameLists(Do(a, op), DoRows(db, op)) <==>
              (op.Extend? || op.userId != SENTINEL
                  || (if op.Grant? then op.tools <= a.default else op.tools !! a.default))
  {
    if op.Extend? || op.userId != SENTINEL {
      StepRefines(a, db, op);
    } else {
      SentinelStep(a, db, op);
    }
  }

  lemma SentinelStep(a: Allowlists, db: Database, op: Op)
    requires SameLists(a, db) && !op.Extend? && op.userId == SENTINEL
    ensures SameLists(Do(a, op), DoRows(db, op)) <==>
              (if op.Grant? then op.tools <= a.default else op.tools !! a.default)
  {
    var a', db' := Do(a, op), DoRows(db, op);
    assert SameLists(a, Initialized(db));
    forall u | u != SENTINEL ensures Deltas(db', u) == Row(At(a'.grants, u), At(a'.revokes, u)) {
      assert Deltas(Initialized(db), u) == Row(At(a.grants, u), At(a.revokes, u));
    }
    assert a'.default == a.default;
    if op.Grant? {
      assert DefaultOf(db') == a.default + op.tools;
    } else {
      assert DefaultOf(db') == a.default - op.tools;
    }
  }

  /** A grant to the sentinel user gives the tool to everyone in the row-based store, and to no one else in memory. */
  lemma SentinelGrantLeaks(userId: string, tool: string)
    requires userId != SENTINEL
    ensures var ops := [Grant(SENTINEL, {tool})];
            && tool in RowsAllowed(RowHistory({}, ops), userId)
            && tool !in Allowed(History({}, ops), userId)
  {
    var ops := [Grant(SENTINEL, {tool})];
    assert ops[..0] == [];
    assert History({}, ops) == Do(History({}, []), ops[0]);
    assert RowHistory({}, ops) == DoRows(RowHistory({}, []), ops[0]);
  }
}
