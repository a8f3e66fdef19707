/**
 * `DBConnector` against an abstract database: whether connecting succeeds,
 * whether a statement, `begin` or `commit` raises, a statement's row count
 * and its result table are read from the database's oracles; the database
 * keeps the statements it committed and those executed in the open
 * transaction of the current connection.
 */
module DbConnect {
  import opened Wrappers
  import opened Values
  import opened Replay
  import MqConnect
  import KafkaConnect

  datatype DbType = PostgreSql | MySql | Oracle | Sqlite | SqlServer

  /** The names in `SUPPORTED_TYPES`. */
  function TypeName(t: DbType): string {
    match t
    case PostgreSql => "postgresql"
    case MySql => "mysql"
    case Oracle => "oracle"
    case Sqlite => "sqlite"
    case SqlServer => "sqlserver"
  }

  const SupportedTypes: set<string> := {"postgresql", "mysql", "oracle", "sqlite", "sqlserver"}

  /** The supported type with this (lower-cased) name; anything unsupported falls back to PostgreSQL. */
  function TypeNamed(name: string): (t: DbType)
    ensures name in SupportedTypes ==> TypeName(t) == name
    ensures name !in SupportedTypes ==> t == PostgreSql
  {
    if name == "mysql" then MySql
    else if name == "oracle" then Oracle
    else if name == "sqlite" then Sqlite
    else if name == "sqlserver" then SqlServer
    else PostgreSql
  }

  /** `_get_default_port`: SQLite has no port. */
  function DefaultPort(t: DbType): (p: Option<int>)
    ensures p.None? <==> t == Sqlite
  {
    match t
    case PostgreSql => Some(5432)
    case MySql => Some(3306)
    case Oracle => Some(1521)
    case SqlServer => Some(1433)
    case Sqlite => None
  }

  /** A Python `Optional[int]` as a config value. */
  function PortValue(p: Option<int>): Value {
    match p
    case None => Null
    case Some(n) => Int(n)
  }

  /** The attributes `__init__` keeps. */
  datatype DbSettings = DbSettings(
    dbType: DbType,
    host: Value,
    port: Value,
    database: Value,
    username: Value,
    password: Value,
    connectionOptions: Value)

  /** The `db_type` text `__init__` lower-cases: the configured one, or `postgresql`. */
  function TypeText(fields: map<string, Value>): Value {
    Field(fields, "db_type", Str("postgresql"))
  }

  /** The default of a server setting, which SQLite does not have. */
  function ServerDefault(t: DbType, v: Value): Value {
    if t == Sqlite then Null else v
  }

  /**
   * `__init__`: `db_type` is lower-cased and checked against the supported
   * types; host, user name and password default to `localhost`, `''` and
   * `''` except for SQLite, where they default to `None`; the port defaults
   * by type; a config that is not a dict, or a `db_type` that is not a
   * string, raises.
   */
  function SettingsOf(config: Value): (r: Result<DbSettings>)
    ensures r.Success? <==> config.Object? && TypeText(config.fields).Str?
    ensures r.Success? ==>
      var name := Lower(TypeText(config.fields).s);
      && (name in SupportedTypes ==> TypeName(r.value.dbType) == name)
      && (name !in SupportedTypes ==> r.value.dbType == PostgreSql)
    ensures r.Success? && "port" !in config.fields ==> r.value.port == PortValue(DefaultPort(r.value.dbType))
    ensures r.Success? && "port" in config.fields ==> r.value.port == config.fields["port"]
    ensures r.Success? && "host" !in config.fields ==>
      r.value.host == (if r.value.dbType == Sqlite then Null else Str("localhost"))
  {
    if !config.Object? then Failure("AttributeError: object has no attribute 'get'")
    else
      var f := config.fields;
      var name := TypeText(f);
      if !name.Str? then Failure("AttributeError: object has no attribute 'lower'")
      else
        var t := TypeNamed(Lower(name.s));
        Success(DbSettings(
          t,
          Field(f, "host", ServerDefault(t, Str("localhost"))),
          Field(f, "port", PortValue(DefaultPort(t))),
          Field(f, "database", Str("")),
          Field(f, "username", ServerDefault(t, Str(""))),
          Field(f, "password", ServerDefault(t, Str(""))),
          Field(f, "connection_options", Object(map[]))))
  }

  /** An empty config is a PostgreSQL connector on `localhost:5432` with empty database, user and password. */
  lemma DefaultSettings()
    ensures SettingsOf(Object(map[])) ==
      Success(DbSettings(PostgreSql, Str("localhost"), Int(5432), Str(""), Str(""), Str(""), Object(map[])))
  {
    assert Lower("postgresql") == "postgresql";
  }

  /** SQLite, named in any case, has no host, port, user name or password by default. */
  lemma SqliteDefaults(s: string)
    requires Lower(s) == "sqlite"
    ensures SettingsOf(Object(map["db_type" := Str(s)])) ==
      Success(DbSettings(Sqlite, Null, Null, Str(""), Null, Null, Object(map[])))
  {
  }

  /** Each server type, named in any case, gets its own default port: 5432, 3306, 1521 and 1433. */
  lemma DefaultPortByType(t: DbType, s: string)
    requires Lower(s) == TypeName(t) && t != Sqlite
    ensures SettingsOf(Object(map["db_type" := Str(s)])).value.dbType == t
    ensures SettingsOf(Object(map["db_type" := Str(s)])).value.port ==
      Int(match t case PostgreSql => 5432 case MySql => 3306 case Oracle => 1521 case SqlServer => 1433
                  case Sqlite => 0)
  {
  }

  /** An unsupported type falls back to PostgreSQL and its port. */
  lemma UnsupportedTypeIsPostgres(s: string)
    requires Lower(s) !in SupportedTypes
    ensures SettingsOf(Object(map["db_type" := Str(s)])).value.dbType == PostgreSql
    ensures SettingsOf(Object(map["db_type" := Str(s)])).value.port == Int(5432)
  {
  }

  /** The type is read case-insensitively. */
  lemma TypeCaseInsensitive(fields: map<string, Value>, s: string)
    ensures SettingsOf(Object(fields["db_type" := Str(s)])) == SettingsOf(Object(fields["db_type" := Str(Lower(s))]))
  {
    LowerIdempotent(s);
  }

  /** A statement as the cursor is given it: the SQL text and the parameters, when any are passed. */
  datatype Stmt = Stmt(text: string, params: Option<Value>)

  /** `if params: execute(query, params) else: execute(query)`: falsy parameters are not passed. */
  function StmtOf(query: string, params: Value): (s: Stmt)
    ensures s.text == query && (s.params.Some? <==> Truthy(params))
  {
    Stmt(query, if Truthy(params) then Some(params) else None)
  }

  /** What a query returns: the column names of `cursor.description` and the value rows. */
  datatype Table = Table(columns: seq<string>, rows: seq<seq<Value>>)

  /** The abstract database a connector talks to. */
  class Database {
    /** Whether connecting succeeds. */
    const reachable: bool
    /** Whether executing this statement raises. */
    const fails: Stmt -> bool
    /** `cursor.rowcount` after this statement. */
    const rowCount: Stmt -> int
    /** The rows this statement yields. */
    const result: Stmt -> Table
    /** Whether `connection.begin()` raises, on a driver whose connection has that method. */
    const beginFails: bool
    /** Whether `connection.commit()` raises. */
    const commitFails: bool
    /** The statements made durable, in order. */
    var committed: seq<Stmt>
    /** The statements of the open transaction of the current connection. */
    var pending: seq<Stmt>

    constructor (reachable: bool, fails: Stmt -> bool, rowCount: Stmt -> int, result: Stmt -> Table,
                 beginFails: bool, commitFails: bool)
      ensures this.reachable == reachable && this.fails == fails && this.rowCount == rowCount
      ensures this.result == result && this.beginFails == beginFails && this.commitFails == commitFails
      ensures committed == [] && pending == []
    {
      this.reachable := reachable;
      this.fails := fails;
      this.rowCount := rowCount;
      this.result := result;
      this.beginFails := beginFails;
      this.commitFails := commitFails;
      committed := [];
      pending := [];
    }
  }

  /**
   * The dict a row becomes when `columns[i]` is set to `row[i]` for the first
   * `n` indices in turn: a later column of the same name overrides an
   * earlier one.
   */
  function Zip(columns: seq<string>, row: seq<Value>, n: nat): map<string, Value>
    requires n <= |columns| && n <= |row|
    decreases n
  {
    if n == 0 then map[] else Zip(columns, row, n - 1)[columns[n - 1] := row[n - 1]]
  }

  /** The keys of a zipped row are exactly the column names used. */
  lemma {:induction false} ZipKeys(columns: seq<string>, row: seq<Value>, n: nat, k: string)
    requires n <= |columns| && n <= |row|
    ensures k in Zip(columns, row, n) <==> exists i :: 0 <= i < n && columns[i] == k
    decreases n
  {
    if n > 0 {
      ZipKeys(columns, row, n - 1, k);
      if k == columns[n - 1] {
        assert columns[n - 1] == k;
      }
    }
  }

  /** Each column name is paired with the value at its own index, unless a later column has the same name. */
  lemma {:induction false} ZipAt(columns: seq<string>, row: seq<Value>, n: nat, i: nat)
    requires n <= |columns| && n <= |row| && i < n
    requires forall j :: i < j < n ==> columns[j] != columns[i]
    ensures columns[i] in Zip(columns, row, n) && Zip(columns, row, n)[columns[i]] == row[i]
    decreases n
  {
    if i < n - 1 {
      ZipAt(columns, row, n - 1, i);
    }
  }

  /** The dict a dict cursor builds (PostgreSQL's `RealDictCursor`, MySQL's `dictionary=True`): one entry per column. */
  function DriverRow(columns: seq<string>, row: seq<Value>): map<string, Value> {
    Zip(columns, row, if |row| < |columns| then |row| else |columns|)
  }

  /** The first of the columns whose name equals that of column `i`, ignoring ASCII case, from column `m` on. */
  function FirstLikeFrom(columns: seq<string>, i: nat, m: nat): (j: nat)
    requires m <= i < |columns|
    requires forall p :: 0 <= p < m ==> Lower(columns[p]) != Lower(columns[i])
    ensures m <= j <= i && Lower(columns[j]) == Lower(columns[i])
    ensures forall p :: 0 <= p < j ==> Lower(columns[p]) != Lower(columns[i])
    decreases i - m
  {
    if Lower(columns[m]) == Lower(columns[i]) then m else FirstLikeFrom(columns, i, m + 1)
  }

  /** The column `sqlite3.Row` reads for the name of column `i`: the first whose name matches it case-insensitively. */
  function FirstLike(columns: seq<string>, i: nat): (j: nat)
    requires i < |columns|
    ensures j <= i && Lower(columns[j]) == Lower(columns[i])
    ensures forall p :: 0 <= p < j ==> Lower(columns[p]) != Lower(columns[i])
  {
    FirstLikeFrom(columns, i, 0)
  }

  /**
   * `dict(row)` of a `sqlite3.Row` over the first `n` columns: every column
   * name becomes a key, and `row[name]` looks the name up case-insensitively
   * and takes the first match.
   */
  function SqliteZip(columns: seq<string>, row: seq<Value>, n: nat): map<string, Value>
    requires n <= |columns| && n <= |row|
    decreases n
  {
    if n == 0 then map[] else SqliteZip(columns, row, n - 1)[columns[n - 1] := row[FirstLike(columns, n - 1)]]
  }

  /** The dict SQLite's `dict(row)` builds for a row. */
  function SqliteRow(columns: seq<string>, row: seq<Value>): map<string, Value> {
    SqliteZip(columns, row, if |row| < |columns| then |row| else |columns|)
  }

  /** No two of the first `n` column names are equal ignoring ASCII case. */
  predicate CaseDistinct(columns: seq<string>, n: nat)
    requires n <= |columns|
  {
    forall a, b :: 0 <= a < b < n ==> Lower(columns[a]) != Lower(columns[b])
  }

  /** A column's name is a key of SQLite's dict and holds the value of the first column that matches it. */
  lemma {:induction false} SqliteZipAt(columns: seq<string>, row: seq<Value>, n: nat, i: nat)
    requires n <= |columns| && n <= |row| && i < n
    ensures columns[i] in SqliteZip(columns, row, n)
    ensures SqliteZip(columns, row, n)[columns[i]] == row[FirstLike(columns, i)]
    decreases n
  {
    if i < n - 1 {
      SqliteZipAt(columns, row, n - 1, i);
      if columns[n - 1] == columns[i] {
        var j, k := FirstLike(columns, n - 1), FirstLike(columns, i);
        assert !(j < k) && !(k < j);
      }
    }
  }

  /** With column names distinct ignoring case, SQLite's dict is the one a dict cursor builds. */
  lemma {:induction false} SqliteZipIsZip(columns: seq<string>, row: seq<Value>, n: nat)
    requires n <= |columns| && n <= |row| && CaseDistinct(columns, n)
    ensures SqliteZip(columns, row, n) == Zip(columns, row, n)
    decreases n
  {
    if n > 0 {
      SqliteZipIsZip(columns, row, n - 1);
      assert FirstLike(columns, n - 1) == n - 1;
    }
  }

  /**
   * Two columns named `id` and `ID`: SQLite's dict gives both keys the first
   * column's value, while a dict cursor keeps each column's own.
   */
  lemma SqliteCaseCollision()
    ensures SqliteRow(["id", "ID"], [Int(1), Int(2)]) == map["id" := Int(1), "ID" := Int(1)]
    ensures DriverRow(["id", "ID"], [Int(1), Int(2)]) == map["id" := Int(1), "ID" := Int(2)]
  {
    assert Lower("ID") == "id";
    assert FirstLike(["id", "ID"], 1) == 0;
  }

  /** Every row of the table fits the manual mapping: it has no more values than there are columns. */
  predicate RowsFit(t: Table) {
    forall i :: 0 <= i < |t.rows| ==> |t.rows[i]| <= |t.columns|
  }

  /** The manual mapping of every row, for the other databases. */
  function ManualRows(t: Table): (rs: seq<map<string, Value>>)
    requires RowsFit(t)
    ensures |rs| == |t.rows|
  {
    seq(|t.rows|, i requires 0 <= i < |t.rows| && RowsFit(t) => Zip(t.columns, t.rows[i], |t.rows[i]|))
  }

  /** Whether the driver builds result dicts (PostgreSQL, MySQL, SQLite) or the connector does. */
  predicate DriverDicts(t: DbType) {
    t == PostgreSql || t == MySql || t == Sqlite
  }

  /**
   * The rows `execute_query` returns for a statement: `[]` when it raises;
   * the dict cursor's rows, or `dict(row)` of SQLite's rows; or the manual
   * mapping, where a row with more values than columns raises `IndexError`
   * and gives `[]`.
   */
  function QueryResult(db: Database, t: DbType, s: Stmt): (rs: seq<map<string, Value>>)
    ensures db.fails(s) ==> rs == []
    ensures !db.fails(s) && DriverDicts(t) ==> |rs| == |db.result(s).rows|
    ensures !db.fails(s) && !DriverDicts(t) ==> (rs == [] || |rs| == |db.result(s).rows|)
  {
    var table := db.result(s);
    if db.fails(s) then []
    else if t == PostgreSql || t == MySql then
      seq(|table.rows|, i requires 0 <= i < |table.rows| => DriverRow(table.columns, table.rows[i]))
    else if t == Sqlite then
      seq(|table.rows|, i requires 0 <= i < |table.rows| => SqliteRow(table.columns, table.rows[i]))
    else if RowsFit(table) then ManualRows(table)
    else []
  }

  /**
   * On rows with one value per column, the driver's dicts and the manual
   * mapping are the same; for SQLite this needs column names that differ
   * ignoring case (see `SqliteCaseCollision`).
   */
  lemma RowsAgree(db: Database, s: Stmt, t: DbType, u: DbType)
    requires !db.fails(s) && DriverDicts(t) && !DriverDicts(u)
    requires forall i :: 0 <= i < |db.result(s).rows| ==> |db.result(s).rows[i]| == |db.result(s).columns|
    requires t == Sqlite ==> CaseDistinct(db.result(s).columns, |db.result(s).columns|)
    ensures QueryResult(db, t, s) == QueryResult(db, u, s)
  {
    var table := db.result(s);
    if t == Sqlite {
      forall i | 0 <= i < |table.rows|
        ensures SqliteRow(table.columns, table.rows[i]) == Zip(table.columns, table.rows[i], |table.rows[i]|)
      {
        SqliteZipIsZip(table.columns, table.rows[i], |table.rows[i]|);
      }
    }
  }

  /** Every column name is a key of each of SQLite's rows, holding the value of the first column that matches it ignoring case. */
  lemma SqliteRowAt(db: Database, s: Stmt, r: nat, j: nat)
    requires !db.fails(s) && r < |db.result(s).rows|
    requires j < |db.result(s).columns| && |db.result(s).rows[r]| == |db.result(s).columns|
    ensures var table := db.result(s);
      && table.columns[j] in QueryResult(db, Sqlite, s)[r]
      && QueryResult(db, Sqlite, s)[r][table.columns[j]] == table.rows[r][FirstLike(table.columns, j)]
  {
    var table := db.result(s);
    SqliteZipAt(table.columns, table.rows[r], |table.columns|, j);
  }

  /**
   * With distinct column names, the `j`-th column of every row the manual
   * mapping returns holds the row's `j`-th value, and a row has no other key.
   */
  lemma ManualRowAt(db: Database, t: DbType, s: Stmt, r: nat, j: nat, k: string)
    requires !db.fails(s) && !DriverDicts(t) && RowsFit(db.result(s))
    requires forall a, b :: 0 <= a < b < |db.result(s).columns| ==> db.result(s).columns[a] != db.result(s).columns[b]
    requires r < |db.result(s).rows| && j < |db.result(s).rows[r]|
    ensures var table := db.result(s);
      && table.columns[j] in QueryResult(db, t, s)[r]
      && QueryResult(db, t, s)[r][table.columns[j]] == table.rows[r][j]
      && (k in QueryResult(db, t, s)[r] <==> exists i :: 0 <= i < |table.rows[r]| && table.columns[i] == k)
  {
    var table := db.result(s);
    ZipAt(table.columns, table.rows[r], |table.rows[r]|, j);
    ZipKeys(table.columns, table.rows[r], |table.rows[r]|, k);
  }

  /** A manual mapping that meets a row with more values than columns returns nothing at all. */
  lemma ManualOverflowIsEmpty(db: Database, t: DbType, s: Stmt, r: nat)
    requires !db.fails(s) && !DriverDicts(t)
    requires r < |db.result(s).rows| && |db.result(s).rows[r]| > |db.result(s).columns|
    ensures QueryResult(db, t, s) == []
  {
  }

  /**
   * Whether the connection object of the driver has a `begin` method:
   * psycopg2's, sqlite3's and pyodbc's do not, so calling it raises.
   */
  predicate HasBegin(t: DbType) {
    t == MySql || t == Oracle
  }

  /** Whether `connection.begin()` raises on a connection of type `t`. */
  predicate BeginRaises(db: Database, t: DbType) {
    !HasBegin(t) || db.beginFails
  }

  /**
   * Whether `execute_batch` commits: the begin (called only where the
   * driver has it), every statement and the commit succeed.
   */
  predicate BatchCommits(db: Database, t: DbType, ss: seq<Stmt>) {
    !(HasBegin(t) && db.beginFails) && NoneFails(db, ss) && !db.commitFails
  }

  /**
   * What `execute_batch` as written returns once connected: it calls
   * `connection.begin()` whatever the driver, so it raises, rolls back and
   * returns 0 unless the begin, every statement and the commit succeed.
   */
  function BatchTotalAsWritten(db: Database, t: DbType, ss: seq<Stmt>): (total: int)
    ensures BeginRaises(db, t) ==> total == 0
  {
    if BeginRaises(db, t) || !NoneFails(db, ss) || db.commitFails then 0 else RowCountSum(db, ss)
  }

  /**
   * As written, a PostgreSQL, SQLite or SQL Server batch never commits: one
   * statement that succeeds and counts one row returns 0, where the batch
   * with the begin left to the drivers that have one returns 1.
   */
  lemma BatchAsWrittenRollsBack(db: Database, t: DbType, s: Stmt)
    requires !HasBegin(t) && !db.fails(s) && !db.commitFails && db.rowCount(s) == 1
    ensures BatchCommits(db, t, [s]) && RowCountSum(db, [s]) == 1
    ensures BatchTotalAsWritten(db, t, [s]) == 0
  {
    assert [s][1..] == [];
  }

  /** The statements `execute_batch` runs: the query once per parameter dict, in order. */
  function BatchStmts(query: string, paramsList: seq<Value>): (ss: seq<Stmt>)
    ensures |ss| == |paramsList|
  {
    seq(|paramsList|, i requires 0 <= i < |paramsList| => Stmt(query, Some(paramsList[i])))
  }

  /** The sum of the row counts of `ss`. */
  function RowCountSum(db: Database, ss: seq<Stmt>): int
    decreases |ss|
  {
    if ss == [] then 0 else RowCountSum(db, ss[..|ss| - 1]) + db.rowCount(ss[|ss| - 1])
  }

  /** No statement of `ss` raises. */
  predicate NoneFails(db: Database, ss: seq<Stmt>) {
    forall i :: 0 <= i < |ss| ==> !db.fails(ss[i])
  }

  /** The sum over two stretches is the sum of their sums. */
  lemma {:induction false} RowCountSumAppend(db: Database, a: seq<Stmt>, b: seq<Stmt>)
    ensures RowCountSum(db, a + b) == RowCountSum(db, a) + RowCountSum(db, b)
    decreases |b|
  {
    if b == [] {
      assert a + b == a;
    } else {
      var front := b[..|b| - 1];
      assert (a + b)[..|a + b| - 1] == a + front;
      RowCountSumAppend(db, a, front);
    }
  }

  /** A batch whose statements each report no negative count reports at least the count of any one of them. */
  lemma {:induction false} RowCountSumBound(db: Database, ss: seq<Stmt>, i: nat)
    requires i < |ss| && forall j :: 0 <= j < |ss| ==> db.rowCount(ss[j]) >= 0
    ensures RowCountSum(db, ss) >= db.rowCount(ss[i])
    decreases |ss|
  {
    var n := |ss| - 1;
    if i < n {
      RowCountSumBound(db, ss[..n], i);
      assert ss[..n][i] == ss[i];
    }
    RowCountSumNonNegative(db, ss[..n]);
  }

  lemma {:induction false} RowCountSumNonNegative(db: Database, ss: seq<Stmt>)
    requires forall j :: 0 <= j < |ss| ==> db.rowCount(ss[j]) >= 0
    ensures RowCountSum(db, ss) >= 0
    decreases |ss|
  {
    if ss != [] {
      var n := |ss| - 1;
      assert forall j :: 0 <= j < n ==> ss[..n][j] == ss[j];
      RowCountSumNonNegative(db, ss[..n]);
    }
  }

  /** Python's `str.split(sep)`: the pieces between the separators, an empty piece where two meet or at either end. */
  function Split(s: string, sep: char): (ps: seq<string>)
    ensures |ps| >= 1
    decreases |s|
  {
    if s == [] then [""]
    else
      var rest := Split(s[1..], sep);
      if s[0] == sep then [""] + rest else [[s[0]] + rest[0]] + rest[1..]
  }

  /** The pieces put back together with the separator between them. */
  function Join(ps: seq<string>, sep: char): string
    requires |ps| >= 1
    decreases |ps|
  {
    if |ps| == 1 then ps[0] else ps[0] + [sep] + Join(ps[1..], sep)
  }

  /** Splitting loses nothing: joining the pieces gives the script back, and no piece holds the separator. */
  lemma {:induction false} SplitJoin(s: string, sep: char)
    ensures Join(Split(s, sep), sep) == s
    ensures forall i :: 0 <= i < |Split(s, sep)| ==> sep !in Split(s, sep)[i]
    decreases |s|
  {
    if s != [] {
      var rest := Split(s[1..], sep);
      SplitJoin(s[1..], sep);
      if s[0] == sep {
        assert ([""] + rest)[1..] == rest;
        assert s == [sep] + s[1..];
      } else {
        var ps := [[s[0]] + rest[0]] + rest[1..];
        assert ps[1..] == rest[1..];
        if |rest| == 1 {
          assert s == [s[0]] + s[1..];
        } else {
          assert Join(rest, sep) == rest[0] + [sep] + Join(rest[1..], sep);
          assert s == [s[0]] + s[1..];
        }
        forall i | 0 <= i < |ps| ensures sep !in ps[i] {
          if i > 0 {
            assert ps[i] == rest[i];
          }
        }
      }
    }
  }

  /** Pieces without the separator are exactly what splitting their join gives back. */
  lemma {:induction false} JoinSplit(ps: seq<string>, sep: char)
    requires |ps| >= 1 && forall i :: 0 <= i < |ps| ==> sep !in ps[i]
    ensures Split(Join(ps, sep), sep) == ps
    decreases |ps|
  {
    if |ps| == 1 {
      PieceSplit(ps[0], sep);
    } else {
      var tail := ps[1..];
      assert forall i :: 0 <= i < |tail| ==> tail[i] == ps[i + 1];
      JoinSplit(tail, sep);
      var rest := [sep] + Join(tail, sep);
      assert rest[1..] == Join(tail, sep);
      assert Split(rest, sep) == [""] + tail;
      assert Join(ps, sep) == ps[0] + rest;
      SplitConcat(ps[0], rest, sep);
      assert ps[0] + "" == ps[0];
      assert ps == [ps[0]] + tail;
    }
  }

  /** A piece without the separator splits into itself. */
  lemma PieceSplit(s: string, sep: char)
    requires sep !in s
    ensures Split(s, sep) == [s]
  {
    SplitConcat(s, "", sep);
    assert s + "" == s;
  }

  /** Text without the separator in front of `r` joins the first piece of `r`. */
  lemma {:induction false} SplitConcat(p: string, r: string, sep: char)
    requires sep !in p
    ensures Split(p + r, sep) == [p + Split(r, sep)[0]] + Split(r, sep)[1..]
    decreases |p|
  {
    if p == [] {
      var x := Split(r, sep);
      assert p + r == r && p + x[0] == x[0];
      assert [x[0]] + x[1..] == x;
    } else {
      assert sep != p[0] && sep !in p[1..];
      SplitConcat(p[1..], r, sep);
      assert (p + r)[0] == p[0] && (p + r)[1..] == p[1..] + r;
      assert [p[0]] + (p[1..] + Split(r, sep)[0]) == p + Split(r, sep)[0];
    }
  }

  /** The characters `str.strip()` removes, restricted to ASCII. */
  predicate IsSpace(c: char) {
    c == ' ' || c == '\t' || c == '\n' || c == '\r' || c == '\U{b}' || c == '\U{c}'
    || c == '\U{1c}' || c == '\U{1d}' || c == '\U{1e}' || c == '\U{1f}'
  }

  /** `not statement.strip()`: nothing but white space. */
  predicate Blank(s: string) {
    forall i :: 0 <= i < |s| ==> IsSpace(s[i])
  }

  /** The pieces that are not blank, unstripped, in order. */
  function NonBlank(ps: seq<string>): (r: seq<string>)
    ensures |r| <= |ps|
    ensures forall i :: 0 <= i < |r| ==> !Blank(r[i]) && r[i] in ps
    decreases |ps|
  {
    if ps == [] then []
    else
      var front := NonBlank(ps[..|ps| - 1]);
      assert forall x :: x in ps[..|ps| - 1] ==> x in ps;
      if Blank(ps[|ps| - 1]) then front else front + [ps[|ps| - 1]]
  }

  /** The statements of a split script, each executed without parameters. */
  function Unparameterized(ps: seq<string>): (ss: seq<Stmt>)
    ensures |ss| == |ps|
  {
    seq(|ps|, i requires 0 <= i < |ps| => Stmt(ps[i], None))
  }

  /**
   * The statements `execute_script` runs: PostgreSQL and SQLite run the
   * whole script at once; the others run each non-blank `;`-separated piece.
   */
  function ScriptStmts(t: DbType, script: string): seq<Stmt> {
    if t == PostgreSql || t == Sqlite then [Stmt(script, None)]
    else Unparameterized(NonBlank(Split(script, ';')))
  }

  /** The pieces a split script executes hold no `;`, are not blank, and put back together (with the blank ones) give the script. */
  lemma ScriptPieces(t: DbType, script: string, i: nat)
    requires t != PostgreSql && t != Sqlite && i < |ScriptStmts(t, script)|
    ensures var s := ScriptStmts(t, script)[i];
      ';' !in s.text && !Blank(s.text) && s.params.None? && s.text in Split(script, ';')
    ensures Join(Split(script, ';'), ';') == script
  {
    SplitJoin(script, ';');
    var ps := Split(script, ';');
    var piece := NonBlank(ps)[i];
    assert piece in ps;
    var k :| 0 <= k < |ps| && ps[k] == piece;
  }

  /** A script of blank pieces only runs nothing on a database that splits scripts. */
  lemma BlankScript(t: DbType, script: string)
    requires t != PostgreSql && t != Sqlite
    requires forall i :: 0 <= i < |Split(script, ';')| ==> Blank(Split(script, ';')[i])
    ensures ScriptStmts(t, script) == []
  {
    BlankPieces(Split(script, ';'));
  }

  lemma {:induction false} BlankPieces(ps: seq<string>)
    requires forall i :: 0 <= i < |ps| ==> Blank(ps[i])
    ensures NonBlank(ps) == []
    decreases |ps|
  {
    if ps != [] {
      var front := ps[..|ps| - 1];
      assert forall i :: 0 <= i < |front| ==> front[i] == ps[i];
      BlankPieces(front);
    }
  }

  /** Dicts as message values. */
  function Objects(rows: seq<map<string, Value>>): (vs: seq<Value>)
    ensures |vs| == |rows| && forall i :: 0 <= i < |rows| ==> vs[i] == Object(rows[i])
  {
    seq(|rows|, i requires 0 <= i < |rows| => Object(rows[i]))
  }

  /** Every message is sent: the export has no filter. */
  function All(): Value -> bool {
    (m: Value) => true
  }

  /** The queues after `items` were sent one by one to `name`: nothing changes when there is nothing to send. */
  function SentTo(queues: map<string, seq<MqConnect.Delivery>>, name: string, items: seq<MqConnect.Delivery>, create: bool)
    : map<string, seq<MqConnect.Delivery>>
  {
    if items == [] then queues else MqConnect.Enqueue(queues, name, items, create)
  }

  /** One more send appends one more delivery, whether or not the queue is created on the first. */
  lemma SentToSnoc(queues: map<string, seq<MqConnect.Delivery>>, name: string, items: seq<MqConnect.Delivery>,
                   d: MqConnect.Delivery, create: bool)
    ensures MqConnect.Enqueue(SentTo(queues, name, items, create), name, [d], create) == SentTo(queues, name, items + [d], create)
  {
    if items != [] && (name in queues || create) {
      assert MqConnect.QueueOf(queues, name) + items + [d] == MqConnect.QueueOf(queues, name) + (items + [d]);
    } else if items == [] {
      assert items + [d] == [d];
    }
  }

  /** A send that does not create the queue leaves the set of queues as it was. */
  lemma SentToKeys(queues: map<string, seq<MqConnect.Delivery>>, name: string, items: seq<MqConnect.Delivery>)
    ensures SentTo(queues, name, items, false).Keys == queues.Keys
  {
  }

  /** The index of the first row with fewer values than there are columns, or the number of rows. */
  function FirstShort(columns: seq<string>, rows: seq<seq<Value>>): (k: nat)
    ensures k <= |rows|
    ensures forall j :: 0 <= j < k ==> |rows[j]| >= |columns|
    ensures k < |rows| ==> |rows[k]| < |columns|
    decreases |rows|
  {
    if rows == [] || |rows[0]| < |columns| then 0 else 1 + FirstShort(columns, rows[1..])
  }

  /** The first row shorter than the columns is the one after a run of rows that are not. */
  lemma FirstShortAt(columns: seq<string>, rows: seq<seq<Value>>, k: nat)
    requires k <= |rows| && forall j :: 0 <= j < k ==> |rows[j]| >= |columns|
    requires k < |rows| ==> |rows[k]| < |columns|
    ensures FirstShort(columns, rows) == k
  {
  }

  /** The first `n` rows, each as the dict of all columns, transformed. */
  function ColumnDicts(columns: seq<string>, rows: seq<seq<Value>>, n: nat, transform: Option<Value -> Value>): (ms: seq<Value>)
    requires n <= |rows| && forall j :: 0 <= j < n ==> |rows[j]| >= |columns|
    ensures |ms| == n
  {
    seq(n, i requires 0 <= i < n && n <= |rows| && |rows[i]| >= |columns| =>
      Processed(transform, Object(Zip(columns, rows[i], |columns|))))
  }

  /** One more row adds its dict at the end. */
  lemma ColumnDictsSnoc(columns: seq<string>, rows: seq<seq<Value>>, n: nat, transform: Option<Value -> Value>)
    requires n < |rows| && forall j :: 0 <= j <= n ==> |rows[j]| >= |columns|
    ensures ColumnDicts(columns, rows, n + 1, transform) ==
      ColumnDicts(columns, rows, n, transform) + [Processed(transform, Object(Zip(columns, rows[n], |columns|)))]
  {
  }

  /**
   * The messages the PostgreSQL export sends: each row becomes the dict of
   * all columns, transformed; a row with fewer values than columns raises
   * `IndexError`, after the rows before it were sent. Every row is sent
   * exactly when none is shorter than the columns.
   */
  function PgMessages(t: Table, transform: Option<Value -> Value>): (ms: seq<Value>)
    ensures |ms| <= |t.rows|
    ensures |ms| == |t.rows| <==> forall i :: 0 <= i < |t.rows| ==> |t.rows[i]| >= |t.columns|
  {
    var k := FirstShort(t.columns, t.rows);
    ColumnDicts(t.columns, t.rows, k, transform)
  }

  class DbConnector {
    const settings: DbSettings
    const dbType: DbType
    /** Whether `connection` (and its cursor) is set. */
    var connected: bool

    /** `__init__`: settings from the config; no connection yet. */
    constructor (config: Value)
      requires SettingsOf(config).Success?
      ensures settings == SettingsOf(config).value && dbType == settings.dbType
      ensures !connected
    {
      settings := SettingsOf(config).value;
      dbType := SettingsOf(config).value.dbType;
      connected := false;
    }

    /** `connect`: a connection with no open transaction when the database is reachable; the type is always supported. */
    method Connect(db: Database) returns (ok: bool)
      modifies this`connected, db`pending
      ensures ok == db.reachable
      ensures ok ==> connected && db.pending == []
      ensures !ok ==> connected == old(connected) && db.pending == old(db.pending)
    {
      if !db.reachable {
        return false;
      }
      connected := true;
      db.pending := [];
      return true;
    }

    /** `disconnect`: no connection afterwards; closing discards the open transaction. */
    method Disconnect(db: Database)
      modifies this`connected, db`pending
      ensures !connected && db.pending == []
    {
      connected := false;
      db.pending := [];
    }

    /** The `if not self.connection: connect()` guard the operations start with. */
    method EnsureConnected(db: Database) returns (ok: bool)
      modifies this`connected, db`pending
      ensures ok == (old(connected) || db.reachable) && (ok ==> connected)
      ensures !ok ==> connected == old(connected) && db.pending == old(db.pending)
      ensures ok ==> db.pending == Open(old(connected), old(db.pending))
    {
      if connected {
        return true;
      }
      ok := Connect(db);
    }

    /** The open transaction once the guard passed: the current one, or an empty one on a fresh connection. */
    static function Open(wasConnected: bool, pending: seq<Stmt>): seq<Stmt> {
      if wasConnected then pending else []
    }

    /** One executed statement: it joins the open transaction unless it raises. */
    method Execute(db: Database, s: Stmt) returns (ok: bool)
      modifies db`pending
      ensures ok == !db.fails(s)
      ensures db.pending == old(db.pending) + (if ok then [s] else [])
    {
      if db.fails(s) {
        return false;
      }
      db.pending := db.pending + [s];
      return true;
    }

    /** `connection.commit()`: the open transaction becomes durable, unless the commit raises. */
    method Commit(db: Database) returns (ok: bool)
      modifies db`committed, db`pending
      ensures ok == !db.commitFails
      ensures ok ==> db.committed == old(db.committed) + old(db.pending) && db.pending == []
      ensures !ok ==> db.committed == old(db.committed) && db.pending == old(db.pending)
    {
      if db.commitFails {
        return false;
      }
      db.committed := db.committed + db.pending;
      db.pending := [];
      return true;
    }

    /** `connection.rollback()`: the open transaction is discarded. */
    method Rollback(db: Database)
      modifies db`pending
      ensures db.pending == []
    {
      db.pending := [];
    }

    /** The manual mapping of one row: `result[column_names[i]] = value` for each value, raising past the last column. */
    method RowToDict(columns: seq<string>, row: seq<Value>) returns (ok: bool, result: map<string, Value>)
      ensures ok == (|row| <= |columns|)
      ensures ok ==> result == Zip(columns, row, |row|)
    {
      result := map[];
      var i := 0;
      while i < |row|
        invariant 0 <= i <= |row| && i <= |columns|
        invariant result == Zip(columns, row, i)
      {
        if i >= |columns| {
          return false, result;
        }
        result := result[columns[i] := row[i]];
        i := i + 1;
      }
      return true, result;
    }

    /** The manual mapping of all rows, for the databases whose cursor yields tuples. */
    method MapRows(t: Table) returns (ok: bool, results: seq<map<string, Value>>)
      ensures ok == RowsFit(t)
      ensures ok ==> results == ManualRows(t)
    {
      results := [];
      var i := 0;
      while i < |t.rows|
        invariant 0 <= i <= |t.rows|
        invariant forall r :: 0 <= r < i ==> |t.rows[r]| <= |t.columns|
        invariant |results| == i && forall r :: 0 <= r < i ==> results[r] == Zip(t.columns, t.rows[r], |t.rows[r]|)
      {
        var fits, result := RowToDict(t.columns, t.rows[i]);
        if !fits {
          return false, results;
        }
        results := results + [result];
        i := i + 1;
      }
      return true, results;
    }

    /**
     * `execute_query`: connect first, returning `[]` when that fails; run the
     * statement and return its rows as dicts, or `[]` when anything raises.
     */
    method ExecuteQuery(db: Database, query: string, params: Value) returns (rows: seq<map<string, Value>>)
      modifies this`connected, db`pending
      ensures !old(connected) && !db.reachable ==>
        rows == [] && connected == old(connected) && db.pending == old(db.pending)
      ensures old(connected) || db.reachable ==>
        var s := StmtOf(query, params);
        && connected
        && rows == QueryResult(db, dbType, s)
        && db.pending == Open(old(connected), old(db.pending)) + (if db.fails(s) then [] else [s])
    {
      var ok := EnsureConnected(db);
      if !ok {
        return [];
      }
      var s := StmtOf(query, params);
      ok := Execute(db, s);
      if !ok {
        return [];
      }
      var table := db.result(s);
      if dbType == PostgreSql || dbType == MySql {
        rows := seq(|table.rows|, i requires 0 <= i < |table.rows| => DriverRow(table.columns, table.rows[i]));
      } else if dbType == Sqlite {
        rows := seq(|table.rows|, i requires 0 <= i < |table.rows| => SqliteRow(table.columns, table.rows[i]));
      } else {
        var fits;
        fits, rows := MapRows(table);
        if !fits {
          rows := [];
        }
      }
    }

    /**
     * `execute_update`: connect first, returning 0 when that fails; run the
     * statement and commit, returning the row count; when either raises,
     * roll back and return 0.
     */
    method ExecuteUpdate(db: Database, query: string, params: Value) returns (affected: int)
      modifies this`connected, db`pending, db`committed
      ensures !old(connected) && !db.reachable ==>
        affected == 0 && connected == old(connected) && db.pending == old(db.pending) && db.committed == old(db.committed)
      ensures old(connected) || db.reachable ==>
        var s := StmtOf(query, params);
        var ok := !db.fails(s) && !db.commitFails;
        && connected
        && affected == (if ok then db.rowCount(s) else 0)
        && db.committed == (if ok then old(db.committed) + Open(old(connected), old(db.pending)) + [s] else old(db.committed))
        && db.pending == []
    {
      var ok := EnsureConnected(db);
      if !ok {
        return 0;
      }
      var s := StmtOf(query, params);
      ok := Execute(db, s);
      if ok {
        ok := Commit(db);
      }
      if !ok {
        Rollback(db);
        return 0;
      }
      return db.rowCount(s);
    }

    /** The statements of `execute_batch` from the `i`-th on, each joining the transaction and adding its row count. */
    method RunBatch(db: Database, ss: seq<Stmt>) returns (ok: bool, total: int)
      modifies db`pending
      ensures ok == NoneFails(db, ss)
      ensures ok ==> total == RowCountSum(db, ss) && db.pending == old(db.pending) + ss
    {
      total := 0;
      var i := 0;
      while i < |ss|
        invariant 0 <= i <= |ss|
        invariant NoneFails(db, ss[..i])
        invariant total == RowCountSum(db, ss[..i]) && db.pending == old(db.pending) + ss[..i]
      {
        assert ss[..i + 1][..i] == ss[..i];
        ok := Execute(db, ss[i]);
        if !ok {
          return false, 0;
        }
        total := total + db.rowCount(ss[i]);
        assert ss[..i + 1] == ss[..i] + [ss[i]];
        i := i + 1;
      }
      assert ss[..i] == ss;
      return true, total;
    }

    /**
     * `execute_batch`, with `begin` called only on the drivers that have it
     * (the others open the transaction with the first statement): connect
     * first, returning 0 when that fails; begin, run the query once per
     * parameter dict summing the row counts, and commit; when anything
     * raises, roll back and return 0, so that either every statement is
     * committed or none is. `BatchTotalAsWritten` is the code as written.
     */
    method ExecuteBatch(db: Database, query: string, paramsList: seq<Value>) returns (total: int)
      modifies this`connected, db`pending, db`committed
      ensures !old(connected) && !db.reachable ==>
        total == 0 && connected == old(connected) && db.pending == old(db.pending) && db.committed == old(db.committed)
      ensures old(connected) || db.reachable ==>
        var ss := BatchStmts(query, paramsList);
        var ok := BatchCommits(db, dbType, ss);
        && connected
        && total == (if ok then RowCountSum(db, ss) else 0)
        && db.committed == (if ok then old(db.committed) + Open(old(connected), old(db.pending)) + ss else old(db.committed))
        && db.pending == []
    {
      var ok := EnsureConnected(db);
      if !ok {
        return 0;
      }
      if HasBegin(dbType) && db.beginFails {
        Rollback(db);
        return 0;
      }
      var ss := BatchStmts(query, paramsList);
      ok, total := RunBatch(db, ss);
      if ok {
        ok := Commit(db);
      }
      if !ok {
        Rollback(db);
        return 0;
      }
    }

    /**
     * `begin_transaction`: connect first, returning False when that fails;
     * the server databases call `connection.begin()`, SQLite executes
     * `BEGIN`; False when that raises, which it always does for PostgreSQL
     * and SQL Server, whose connections have no `begin`.
     */
    method BeginTransaction(db: Database) returns (ok: bool)
      modifies this`connected, db`pending
      ensures !old(connected) && !db.reachable ==> !ok && connected == old(connected) && db.pending == old(db.pending)
      ensures old(connected) || db.reachable ==>
        var begin := Stmt("BEGIN", None);
        && connected
        && ok == (if dbType == Sqlite then !db.fails(begin) else !BeginRaises(db, dbType))
        && db.pending == Open(old(connected), old(db.pending)) + (if dbType == Sqlite && ok then [begin] else [])
    {
      ok := EnsureConnected(db);
      if !ok {
        return;
      }
      if dbType == Sqlite {
        ok := Execute(db, Stmt("BEGIN", None));
      } else {
        ok := !BeginRaises(db, dbType);
      }
    }

    /** `commit_transaction`: False without a connection (no reconnect), or when the commit raises. */
    method CommitTransaction(db: Database) returns (ok: bool)
      modifies db`committed, db`pending
      ensures ok == (connected && !db.commitFails)
      ensures ok ==> db.committed == old(db.committed) + old(db.pending) && db.pending == []
      ensures !ok ==> db.committed == old(db.committed) && db.pending == old(db.pending)
    {
      if !connected {
        return false;
      }
      ok := Commit(db);
    }

    /** `rollback_transaction`: False without a connection (no reconnect); otherwise the open transaction is discarded. */
    method RollbackTransaction(db: Database) returns (ok: bool)
      modifies db`pending
      ensures ok == connected
      ensures ok ==> db.pending == []
      ensures !ok ==> db.pending == old(db.pending)
    {
      if !connected {
        return false;
      }
      Rollback(db);
      return true;
    }

    /** The statements of a split script in order, stopping at the first that raises. */
    method RunStatements(db: Database, ss: seq<Stmt>) returns (ok: bool)
      modifies db`pending
      ensures ok == NoneFails(db, ss)
      ensures ok ==> db.pending == old(db.pending) + ss
    {
      var i := 0;
      while i < |ss|
        invariant 0 <= i <= |ss|
        invariant NoneFails(db, ss[..i]) && db.pending == old(db.pending) + ss[..i]
      {
        assert ss[..i + 1][..i] == ss[..i];
        ok := Execute(db, ss[i]);
        if !ok {
          return false;
        }
        assert ss[..i + 1] == ss[..i] + [ss[i]];
        i := i + 1;
      }
      assert ss[..i] == ss;
      return true;
    }

    /**
     * `execute_script`: connect first, returning False when that fails; run
     * the script's statements and commit once at the end; when anything
     * raises, roll back and return False.
     */
    method ExecuteScript(db: Database, script: string) returns (ok: bool)
      modifies this`connected, db`pending, db`committed
      ensures !old(connected) && !db.reachable ==>
        !ok && connected == old(connected) && db.pending == old(db.pending) && db.committed == old(db.committed)
      ensures old(connected) || db.reachable ==>
        var ss := ScriptStmts(dbType, script);
        && connected
        && ok == (NoneFails(db, ss) && !db.commitFails)
        && db.committed == (if ok then old(db.committed) + Open(old(connected), old(db.pending)) + ss else old(db.committed))
        && db.pending == []
    {
      ok := EnsureConnected(db);
      if !ok {
        return;
      }
      var ss := ScriptStatements(script);
      ok := CommitAll(db, ss);
    }

    /** The statements of the script for this database. */
    method ScriptStatements(script: string) returns (ss: seq<Stmt>)
      ensures ss == ScriptStmts(dbType, script)
    {
      if dbType == PostgreSql || dbType == Sqlite {
        ss := [Stmt(script, None)];
      } else {
        var pieces := Split(script, ';');
        ss := SplitStatements(pieces);
      }
    }

    /** Run the statements and commit once; when anything raises, roll back. */
    method CommitAll(db: Database, ss: seq<Stmt>) returns (ok: bool)
      modifies db`pending, db`committed
      ensures ok == (NoneFails(db, ss) && !db.commitFails)
      ensures db.committed == (if ok then old(db.committed) + old(db.pending) + ss else old(db.committed))
      ensures db.pending == []
    {
      ok := RunStatements(db, ss);
      if ok {
        ok := Commit(db);
      }
      if !ok {
        Rollback(db);
      }
    }

    /** `for statement in statements: if statement.strip(): ...`: the non-blank pieces, in order. */
    static method SplitStatements(pieces: seq<string>) returns (ss: seq<Stmt>)
      ensures ss == Unparameterized(NonBlank(pieces))
    {
      ss := [];
      var i := 0;
      while i < |pieces|
        invariant 0 <= i <= |pieces|
        invariant ss == Unparameterized(NonBlank(pieces[..i]))
      {
        assert pieces[..i + 1][..i] == pieces[..i];
        var blank := IsBlank(pieces[i]);
        if !blank {
          ss := ss + [Stmt(pieces[i], None)];
        }
        i := i + 1;
      }
      assert pieces[..i] == pieces;
    }

    /** `not s.strip()`, by a scan over the characters. */
    static method IsBlank(s: string) returns (blank: bool)
      ensures blank == Blank(s)
    {
      var i := 0;
      while i < |s|
        invariant 0 <= i <= |s| && forall j :: 0 <= j < i ==> IsSpace(s[j])
      {
        if !IsSpace(s[i]) {
          return false;
        }
        i := i + 1;
      }
      return true;
    }

    /**
     * `export_query_to_mq`: connect to the database and then to the broker,
     * returning 0 when either fails; run the query through `execute_query`
     * and send every row, transformed, to the queue without properties. Every
     * row is counted, whether or not its send succeeded.
     */
    method ExportQueryToMq(db: Database, query: string, params: Value, mq: MqConnect.MqConnector,
                           broker: MqConnect.Broker, queue: string, transform: Option<Value -> Value>)
        returns (count: nat)
      modifies this`connected, db`pending, mq`connected, mq`channelOpen, broker`queues
      ensures !(old(connected) || db.reachable) || !(old(mq.connected) || broker.reachable) ==>
        count == 0 && broker.queues == old(broker.queues)
      ensures (old(connected) || db.reachable) && (old(mq.connected) || broker.reachable) ==>
        var rows := QueryResult(db, dbType, StmtOf(query, params));
        var acc := MqConnect.Accepting(broker, mq.mqType, queue in old(broker.queues), queue);
        && count == |rows|
        && broker.queues == SentTo(old(broker.queues), queue,
                                   MqConnect.Bodies(Forwarded(Objects(rows), All(), Apply(transform), acc)),
                                   mq.mqType == MqConnect.ActiveMq)
      ensures !(old(connected) || db.reachable) ==>
        && connected == old(connected) && db.pending == old(db.pending)
        && mq.connected == old(mq.connected) && mq.channelOpen == old(mq.channelOpen)
      ensures old(connected) || db.reachable ==> connected
      ensures (old(connected) || db.reachable) && !(old(mq.connected) || broker.reachable) ==>
        && db.pending == Open(old(connected), old(db.pending))
        && !mq.connected && mq.channelOpen == old(mq.channelOpen)
      ensures (old(connected) || db.reachable) && (old(mq.connected) || broker.reachable) ==>
        var s := StmtOf(query, params);
        && db.pending == Open(old(connected), old(db.pending)) + (if db.fails(s) then [] else [s])
        && mq.connected
        && mq.channelOpen == ((if old(mq.connected) then old(mq.channelOpen) else mq.mqType == MqConnect.RabbitMq)
                              || (mq.mqType == MqConnect.RabbitMq && count > 0))
    {
      var ok := EnsureConnected(db);
      if !ok {
        return 0;
      }
      if !mq.connected {
        ok := mq.Connect(broker);
        if !ok {
          return 0;
        }
      }
      var rows := ExecuteQuery(db, query, params);
      count := SendRows(Objects(rows), mq, broker, queue, transform);
    }

    /** The send loop of `export_query_to_mq`. */
    static method SendRows(vs: seq<Value>, mq: MqConnect.MqConnector, broker: MqConnect.Broker, queue: string,
                           transform: Option<Value -> Value>) returns (count: nat)
      requires mq.connected
      modifies mq`connected, mq`channelOpen, broker`queues
      ensures count == |vs|
      ensures mq.connected && mq.channelOpen == (old(mq.channelOpen) || (mq.mqType == MqConnect.RabbitMq && |vs| > 0))
      ensures var acc := MqConnect.Accepting(broker, mq.mqType, queue in old(broker.queues), queue);
        broker.queues == SentTo(old(broker.queues), queue, MqConnect.Bodies(Forwarded(vs, All(), Apply(transform), acc)),
                                mq.mqType == MqConnect.ActiveMq)
    {
      ghost var q0 := broker.queues;
      ghost var acc := MqConnect.Accepting(broker, mq.mqType, queue in q0, queue);
      ghost var create := mq.mqType == MqConnect.ActiveMq;
      ghost var open0 := mq.channelOpen;
      count := 0;
      assert vs[..0] == [];
      while count < |vs|
        invariant count <= |vs| && mq.connected
        invariant mq.channelOpen == (open0 || (mq.mqType == MqConnect.RabbitMq && count > 0))
        invariant broker.queues == SentTo(q0, queue, MqConnect.Bodies(Forwarded(vs[..count], All(), Apply(transform), acc)), create)
        invariant !create ==> broker.queues.Keys == q0.Keys
      {
        SendRowTo(vs, count, mq, broker, queue, transform, q0, acc, create, open0);
        count := count + 1;
      }
      assert vs[..count] == vs;
    }

    /** One row of the send loop of `export_query_to_mq`: sent without properties, and appended when the broker accepts it. */
    static method SendRowTo(vs: seq<Value>, count: nat, mq: MqConnect.MqConnector, broker: MqConnect.Broker, queue: string,
                            transform: Option<Value -> Value>, ghost q0: map<string, seq<MqConnect.Delivery>>,
                            ghost acc: Value -> bool, ghost create: bool, ghost open0: bool)
      requires count < |vs| && mq.connected
      requires acc == MqConnect.Accepting(broker, mq.mqType, queue in q0, queue) && create == (mq.mqType == MqConnect.ActiveMq)
      requires mq.channelOpen == (open0 || (mq.mqType == MqConnect.RabbitMq && count > 0))
      requires broker.queues == SentTo(q0, queue, MqConnect.Bodies(Forwarded(vs[..count], All(), Apply(transform), acc)), create)
      requires !create ==> broker.queues.Keys == q0.Keys
      modifies mq`connected, mq`channelOpen, broker`queues
      ensures mq.connected && mq.channelOpen == (open0 || mq.mqType == MqConnect.RabbitMq)
      ensures broker.queues == SentTo(q0, queue, MqConnect.Bodies(Forwarded(vs[..count + 1], All(), Apply(transform), acc)), create)
      ensures !create ==> broker.queues.Keys == q0.Keys
    {
      ghost var q1 := broker.queues;
      var row := Processed(transform, vs[count]);
      assert MqConnect.Accepts(broker, mq.mqType, queue in q1, queue, row) == acc(row);
      assert MqConnect.PropertiesSent(mq.mqType, None) == map[];
      var ok := mq.SendMessage(broker, queue, row, None);
      MqSendStep(q0, queue, vs[..count], vs[count], transform, acc, create, ok, q1, broker.queues);
      if !create {
        SentToKeys(q0, queue, MqConnect.Bodies(Forwarded(vs[..count] + [vs[count]], All(), Apply(transform), acc)));
      }
      assert vs[..count + 1] == vs[..count] + [vs[count]];
    }

    /**
     * `export_query_to_kafka`: connect to the database, then create a
     * producer when there is none, returning 0 when either fails. PostgreSQL
     * runs the statement on a server-side cursor and sends each row as the
     * dict of all columns; the others send the rows of `execute_query`. Each
     * message is sent without a key and counted whether or not it was
     * delivered; an exception returns 0, after the messages before it were
     * sent.
     */
    method ExportQueryToKafka(db: Database, query: string, params: Value, kafka: KafkaConnect.KafkaConnector,
                              cluster: KafkaConnect.Cluster, topic: string, transform: Option<Value -> Value>)
        returns (count: nat)
      modifies this`connected, db`pending, kafka, cluster`topics
      ensures !(old(connected) || db.reachable) || !(old(kafka.hasProducer) || cluster.reachable) ==>
        count == 0 && cluster.topics == old(cluster.topics)
      ensures (old(connected) || db.reachable) && (old(kafka.hasProducer) || cluster.reachable) ==>
        var s := StmtOf(query, params);
        var ms := ExportMessages(db, s, transform);
        && count == ExportCount(db, s, transform)
        && cluster.topics == KafkaSent(old(cluster.topics), topic, ms, MqConnect.Delivering(cluster, topic))
      ensures !(old(connected) || db.reachable) ==>
        connected == old(connected) && db.pending == old(db.pending) && unchanged(kafka)
      ensures old(connected) || db.reachable ==> connected
      ensures (old(connected) || db.reachable) && !(old(kafka.hasProducer) || cluster.reachable) ==>
        db.pending == Open(old(connected), old(db.pending)) && unchanged(kafka)
      ensures (old(connected) || db.reachable) && (old(kafka.hasProducer) || cluster.reachable) ==>
        var s := StmtOf(query, params);
        && db.pending == Open(old(connected), old(db.pending)) + (if db.fails(s) then [] else [s])
        && (old(kafka.hasProducer) ==> unchanged(kafka))
        && (!old(kafka.hasProducer) ==> kafka.JustConnected())
    {
      var ok := EnsureConnected(db);
      if !ok {
        return 0;
      }
      if !kafka.hasProducer {
        ok := kafka.Connect(cluster);
        if !ok {
          return 0;
        }
      }
      count := ExportStatement(db, query, params, kafka, cluster, topic, transform);
    }

    /** `export_query_to_kafka` once both connections are up. */
    method ExportStatement(db: Database, query: string, params: Value, kafka: KafkaConnect.KafkaConnector,
                           cluster: KafkaConnect.Cluster, topic: string, transform: Option<Value -> Value>)
        returns (count: nat)
      requires connected && kafka.hasProducer
      modifies this`connected, db`pending, kafka, cluster`topics
      ensures var s := StmtOf(query, params);
        && count == ExportCount(db, s, transform)
        && cluster.topics == KafkaSent(old(cluster.topics), topic, ExportMessages(db, s, transform), MqConnect.Delivering(cluster, topic))
      ensures var s := StmtOf(query, params);
        connected && db.pending == old(db.pending) + (if db.fails(s) then [] else [s])
      ensures unchanged(kafka)
    {
      var s := StmtOf(query, params);
      if dbType == PostgreSql {
        var ok := Execute(db, s);
        if !ok {
          assert Forwarded([], All(), Apply(None), MqConnect.Delivering(cluster, topic)) == [];
          return 0;
        }
        var table := db.result(s);
        var sent;
        sent, count := SendColumnRows(table, kafka, cluster, topic, transform);
        if !sent {
          count := 0;
        }
      } else {
        var rows := ExecuteQuery(db, query, params);
        var ms := seq(|rows|, i requires 0 <= i < |rows| => Processed(transform, Object(rows[i])));
        count := SendValues(ms, kafka, cluster, topic);
      }
    }

    /** The messages the export produces for a statement: none when it raises. */
    function ExportMessages(db: Database, s: Stmt, transform: Option<Value -> Value>): seq<Value> {
      if dbType == PostgreSql then
        if db.fails(s) then [] else PgMessages(db.result(s), transform)
      else
        var rows := QueryResult(db, dbType, s);
        seq(|rows|, i requires 0 <= i < |rows| => Processed(transform, Object(rows[i])))
    }

    /** The count the export returns: every row, or 0 when the PostgreSQL branch raises. */
    function ExportCount(db: Database, s: Stmt, transform: Option<Value -> Value>): nat {
      if dbType == PostgreSql then
        if db.fails(s) || |PgMessages(db.result(s), transform)| < |db.result(s).rows| then 0
        else |db.result(s).rows|
      else |QueryResult(db, dbType, s)|
    }

    /** The send loop over the rows of the server-side cursor, stopping at the first row shorter than the columns. */
    static method SendColumnRows(t: Table, kafka: KafkaConnect.KafkaConnector, cluster: KafkaConnect.Cluster,
                                 topic: string, transform: Option<Value -> Value>)
        returns (complete: bool, count: nat)
      requires kafka.hasProducer
      modifies kafka, cluster`topics
      ensures complete == (|PgMessages(t, transform)| == |t.rows|)
      ensures complete ==> count == |t.rows|
      ensures unchanged(kafka)
      ensures cluster.topics == KafkaSent(old(cluster.topics), topic, PgMessages(t, transform), MqConnect.Delivering(cluster, topic))
    {
      ghost var t0 := cluster.topics;
      ghost var acc := MqConnect.Delivering(cluster, topic);
      count := 0;
      while count < |t.rows|
        invariant count <= |t.rows| && kafka.hasProducer && unchanged(kafka)
        invariant forall j :: 0 <= j < count ==> |t.rows[j]| >= |t.columns|
        invariant cluster.topics == KafkaSent(t0, topic, ColumnDicts(t.columns, t.rows, count, transform), acc)
      {
        if |t.rows[count]| < |t.columns| {
          FirstShortAt(t.columns, t.rows, count);
          return false, count;
        }
        SendRow(t, count, kafka, cluster, topic, transform, t0);
        count := count + 1;
      }
      FirstShortAt(t.columns, t.rows, count);
      return true, count;
    }

    /** One row of the server-side cursor as long as the columns: its dict, transformed, sent without a key. */
    static method SendRow(t: Table, i: nat, kafka: KafkaConnect.KafkaConnector, cluster: KafkaConnect.Cluster,
                          topic: string, transform: Option<Value -> Value>, ghost t0: map<string, seq<KafkaConnect.Record>>)
      requires i < |t.rows| && kafka.hasProducer && forall j :: 0 <= j <= i ==> |t.rows[j]| >= |t.columns|
      requires cluster.topics == KafkaSent(t0, topic, ColumnDicts(t.columns, t.rows, i, transform), MqConnect.Delivering(cluster, topic))
      modifies kafka, cluster`topics
      ensures unchanged(kafka)
      ensures cluster.topics == KafkaSent(t0, topic, ColumnDicts(t.columns, t.rows, i + 1, transform), MqConnect.Delivering(cluster, topic))
    {
      var message := Processed(transform, Object(Zip(t.columns, t.rows[i], |t.columns|)));
      ghost var front := ColumnDicts(t.columns, t.rows, i, transform);
      ColumnDictsSnoc(t.columns, t.rows, i, transform);
      ghost var t1 := cluster.topics;
      var ok := kafka.SendMessage(cluster, topic, message, None);
      SendStep(t0, topic, front, message, MqConnect.Delivering(cluster, topic), ok, t1, cluster.topics);
    }

    /** The send loop over the rows of `execute_query`, each counted. */
    static method SendValues(ms: seq<Value>, kafka: KafkaConnect.KafkaConnector, cluster: KafkaConnect.Cluster,
                             topic: string) returns (count: nat)
      requires kafka.hasProducer
      modifies kafka, cluster`topics
      ensures count == |ms| && unchanged(kafka)
      ensures cluster.topics == KafkaSent(old(cluster.topics), topic, ms, MqConnect.Delivering(cluster, topic))
    {
      ghost var t0 := cluster.topics;
      ghost var acc := MqConnect.Delivering(cluster, topic);
      count := 0;
      assert ms[..0] == [];
      while count < |ms|
        invariant count <= |ms| && kafka.hasProducer && unchanged(kafka)
        invariant cluster.topics == KafkaSent(t0, topic, ms[..count], acc)
      {
        assert ms[..count + 1] == ms[..count] + [ms[count]];
        ghost var t1 := cluster.topics;
        var ok := kafka.SendMessage(cluster, topic, ms[count], None);
        SendStep(t0, topic, ms[..count], ms[count], acc, ok, t1, cluster.topics);
        count := count + 1;
      }
      assert ms[..count] == ms;
    }
  }

  /** One `send_message(queue, row)` without properties: the delivery is appended exactly when the broker accepts it. */
  lemma MqSendStep(q0: map<string, seq<MqConnect.Delivery>>, queue: string, vs: seq<Value>, v: Value,
                   transform: Option<Value -> Value>, acc: Value -> bool, create: bool, ok: bool,
                   q1: map<string, seq<MqConnect.Delivery>>, q2: map<string, seq<MqConnect.Delivery>>)
    requires q1 == SentTo(q0, queue, MqConnect.Bodies(Forwarded(vs, All(), Apply(transform), acc)), create)
    requires ok == acc(Processed(transform, v))
    requires q2 == if ok then MqConnect.Enqueue(q1, queue, [MqConnect.Delivery(MqConnect.Json(Processed(transform, v)), map[])], create) else q1
    ensures q2 == SentTo(q0, queue, MqConnect.Bodies(Forwarded(vs + [v], All(), Apply(transform), acc)), create)
  {
    var sent := Forwarded(vs, All(), Apply(transform), acc);
    var row := Processed(transform, v);
    ForwardedSnoc(vs, v, All(), Apply(transform), acc);
    if ok {
      var d := MqConnect.Delivery(MqConnect.Json(row), map[]);
      assert Forwarded(vs + [v], All(), Apply(transform), acc) == sent + [row];
      MqConnect.BodiesAppend(sent, [row]);
      assert MqConnect.Bodies(sent + [row]) == MqConnect.Bodies(sent) + [d];
      SentToSnoc(q0, queue, MqConnect.Bodies(sent), d, create);
    } else {
      assert Forwarded(vs + [v], All(), Apply(transform), acc) == sent;
    }
  }

  /** One `send_message(topic, m)` without a key: the record is appended exactly when delivered. */
  lemma SendStep(t0: map<string, seq<KafkaConnect.Record>>, topic: string, front: seq<Value>, m: Value,
                 acc: Value -> bool, ok: bool, t1: map<string, seq<KafkaConnect.Record>>,
                 t2: map<string, seq<KafkaConnect.Record>>)
    requires t1 == KafkaSent(t0, topic, front, acc)
    requires ok == acc(m)
    requires t2 == if ok then KafkaConnect.Published(t1, topic, [KafkaConnect.Record(None, m)]) else t1
    ensures t2 == KafkaSent(t0, topic, front + [m], acc)
  {
    var sent := Forwarded(front, All(), Apply(None), acc);
    ForwardedSnoc(front, m, All(), Apply(None), acc);
    if ok {
      var rec := KafkaConnect.Record(None, m);
      assert Forwarded(front + [m], All(), Apply(None), acc) == sent + [m];
      MqConnect.UnkeyedAppend(sent, [m]);
      assert MqConnect.Unkeyed(sent + [m]) == MqConnect.Unkeyed(sent) + [rec];
      KafkaConnect.PublishedAppend(t0, topic, MqConnect.Unkeyed(sent), [rec]);
    } else {
      assert Forwarded(front + [m], All(), Apply(None), acc) == sent;
    }
  }

  /** The topics after the messages `ms` were sent without a key to `topic`, each delivered when `delivered` holds of it. */
  function KafkaSent(t0: map<string, seq<KafkaConnect.Record>>, topic: string, ms: seq<Value>, delivered: Value -> bool)
    : map<string, seq<KafkaConnect.Record>>
  {
    KafkaConnect.Published(t0, topic, MqConnect.Unkeyed(Forwarded(ms, All(), Apply(None), delivered)))
  }
}
