/** The abstract store the query layer talks to: values, model classes,
    filters, joins and statements as plain data, mapped instances as objects,
    and the session as an object that records, in order, every call made on it. */
module Store {
  import opened Results
  import SearchPatterns

  /** A Python value held in a record field; `Null` is Python's `None`. */
  datatype Value = Null | Bool(b: bool) | Int(i: int) | Str(s: string) | Timestamp(t: int)

  /** A value as Python compares it: `bool` is a subclass of `int`, so
      `True` and `False` stand for 1 and 0. */
  function Normal(v: Value): Value
  {
    if v.Bool? then Int(if v.b then 1 else 0) else v
  }

  /** Python's `==` on field values. */
  predicate PyEq(a: Value, b: Value)
  {
    Normal(a) == Normal(b)
  }

  /** Values of the same kind are equal exactly when they are the same value;
      across kinds, only a `bool` and the integer it stands for are equal. */
  lemma PyEqMeaning(a: Value, b: Value)
    ensures PyEq(a, b) <==>
      a == b
      || (a.Bool? && b.Int? && b.i == (if a.b then 1 else 0))
      || (a.Int? && b.Bool? && a.i == (if b.b then 1 else 0))
    ensures PyEq(Bool(true), Int(1)) && PyEq(Bool(false), Int(0)) && !PyEq(Bool(true), Int(2))
    ensures !PyEq(Null, Int(0)) && !PyEq(Null, Bool(false)) && !PyEq(Str(""), Null)
  {
  }

  /** A mapped model class: its name, the names of its table's columns, the
      names of its other class attributes (relationships, properties, methods,
      class settings), and which of those are properties without a setter. */
  datatype ModelClass = ModelClass(name: string, columns: set<string>, attributes: set<string>, readOnly: set<string>)

  /** The target of a search: a column named by a string, or an already-built
      expression (a column attribute or an SQL function), kept opaque. */
  datatype SearchTarget = ColumnName(name: string) | Expression(tag: nat)

  /** A boolean filter clause. Filters built by callers and providers are opaque
      tokens; the ones the query layer builds itself are spelled out. */
  datatype Clause =
    | Opaque(tag: nat)
    | ColumnEquals(column: string, identity: Value)
    | ColumnIn(column: string, ids: set<Value>)
    | ColumnIsFalse(column: string)
    | ColumnIsNone(column: string)
    | ILike(target: SearchTarget, pattern: string)
    | AnyOf(clauses: seq<Clause>)

  /** A join as callers pass it: a bare model, a model with an on-clause, or a
      model with an on-clause and keyword arguments for the join. */
  datatype Join =
    | JoinModel(target: ModelClass)
    | JoinOn(target: ModelClass, onClause: Clause)
    | JoinWith(target: ModelClass, onClause: Clause, kwargs: map<string, Value>)

  /** A join as applied to a statement (`stmt.join(right, clause, **kwargs)`). */
  datatype AppliedJoin = AppliedJoin(target: ModelClass, onClause: Option<Clause>, kwargs: map<string, Value>)

  /** A loader option (subquery, joined, lazy ...), kept opaque. */
  datatype LoadOption = LoadOption(tag: nat)

  /** An `ORDER BY` key: a column name or an expression. */
  datatype OrderKey = OrderColumn(name: string) | OrderExpression(tag: nat)

  /** The statements the query layer executes. `counting` tells
      `select(func.count()).select_from(model)` from `select(model)`. */
  datatype Statement =
    | Select(counting: bool, model: ModelClass, joins: seq<AppliedJoin>, options: seq<LoadOption>,
             where: seq<Clause>, orderBy: Option<seq<OrderKey>>, limit: Option<int>, offset: Option<int>)
    | Update(table: ModelClass, conditions: seq<Clause>, column: string, value: Value)

  /** A mapped instance: its attributes by name. An attribute it does not hold reads as `None`. */
  class Item {
    var attrs: map<string, Value>

    constructor (attrs: map<string, Value>)
      ensures this.attrs == attrs
    {
      this.attrs := attrs;
    }
  }

  /** `getattr(item, field, None)` on an attribute map. */
  function Get(attrs: map<string, Value>, field: string): Value
  {
    if field in attrs then attrs[field] else Null
  }

  /** What the store makes of the clauses it did not get spelled out: the
      truth of each caller-built clause and the value of each expression, on a row. */
  datatype Evaluator = Evaluator(truth: nat -> map<string, Value> -> bool, expr: nat -> map<string, Value> -> Value)

  /** The value a search target takes on a row. */
  function TargetValue(t: SearchTarget, row: map<string, Value>, env: Evaluator): Value
  {
    match t
    case ColumnName(n) => Get(row, n)
    case Expression(tag) => env.expr(tag)(row)
  }

  /** Whether the store selects a row under a clause. A comparison with SQL
      `NULL` is not true, so `=` and `IN` never select a row whose column is `None`. */
  predicate Holds(c: Clause, row: map<string, Value>, env: Evaluator)
  {
    match c
    case Opaque(tag) => env.truth(tag)(row)
    case ColumnEquals(col, identity) => identity != Null && Get(row, col) == identity
    case ColumnIn(col, ids) => Get(row, col) != Null && Get(row, col) in ids
    case ColumnIsFalse(col) => Get(row, col) == Bool(false)
    case ColumnIsNone(col) => Get(row, col) == Null
    case ILike(t, pattern) =>
      var v := TargetValue(t, row, env);
      v.Str? && SearchPatterns.ILike(pattern, v.s)
    case AnyOf(cs) => exists i :: 0 <= i < |cs| && Holds(cs[i], row, env)
  }

  /** A `where` with several clauses selects the rows every clause selects. */
  predicate AllHold(cs: seq<Clause>, row: map<string, Value>, env: Evaluator)
  {
    forall i :: 0 <= i < |cs| ==> Holds(cs[i], row, env)
  }

  /** One call made on a session. */
  datatype SessionCall =
    | Add(item: Item)
    | Delete(item: Item)
    | Execute(stmt: Statement)
    | Commit
    | Flush
    | Rollback
    | Close

  /** `flush()` when `useFlush`, otherwise `commit()`: how every write is finished. */
  function Finish(useFlush: bool): SessionCall
  {
    if useFlush then Flush else Commit
  }

  /** An asynchronous store session, seen through the calls made on it. */
  class Session {
    var calls: seq<SessionCall>

    constructor ()
      ensures calls == []
    {
      calls := [];
    }

    method Record(call: SessionCall)
      modifies this
      ensures calls == old(calls) + [call]
    {
      calls := calls + [call];
    }
  }
}
