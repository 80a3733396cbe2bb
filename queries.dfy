/** The query layer (`BaseQuery`): it builds statements from a model, joins,
    options and filters, runs them on its session, and reads, creates,
    changes, deletes and disables records. What the store answers to an
    executed statement (the rows, the count scalar, the rowcount) and whether
    a store call fails are parameters of the methods. */
module Queries {
  import opened Results
  import opened Exceptions
  import opened Store
  import SearchPatterns
  import Text

  /** The `field_type` argument of the disable operations. Python cannot
      subclass `bool`, so the kinds are `bool`, `datetime` itself, a proper
      subclass of `datetime`, and any other class. */
  datatype FieldType = BoolType | DateTimeType | DateTimeSubclass | OtherType

  /** The `allowed_none_fields` argument: `'*'`, a sequence of field names,
      or a string, which allows every field when it is `'*'` and otherwise
      is searched for substrings by `in`. */
  datatype NoneFields = AnyField | Fields(names: seq<string>) | FieldsText(text: string) {
    predicate Permits(field: string)
    {
      match this
      case AnyField => true
      case Fields(names) => field in names
      case FieldsText(text) => text == "*" || Text.Occurs(field, text)
    }
  }

  /** A plain string other than `'*'` allows every field whose name occurs in
      it, where a list of the same names would allow only those names. */
  lemma TextAllowsSubstrings()
    ensures FieldsText("ab").Permits("b") && !Fields(["ab"]).Permits("b")
    ensures FieldsText("ab").Permits("")
    ensures forall field :: FieldsText("*").Permits(field)
  {
    assert Text.Occurs("b", "ab") by {
      assert "ab"[1..] == "b" && "b"[..1] == "b";
    }
  }

  /** The `data` argument of `create_item`: absent, a dict, or a schema (read through `model_dump()`). */
  datatype CreateData = NoData | DictData(fields: map<string, Value>) | SchemaData(dump: map<string, Value>)

  /** The keyword arguments `create_item` passes to the model's constructor. */
  function Kwargs(data: CreateData): map<string, Value>
  {
    match data
    case NoData => map[]
    case DictData(fields) => fields
    case SchemaData(dump) => dump
  }

  /** What the declarative constructor does with one keyword: `TypeError` when
      the class has no attribute of that name, `AttributeError` when the
      attribute is a property without a setter, and a plain assignment otherwise. */
  function KeywordRefusal(model: ModelClass, key: string): (r: Option<Exception>)
    ensures r == Some(TypeError) <==> key !in model.columns + model.attributes
    ensures r.None? <==> key in model.columns + (model.attributes - model.readOnly)
    ensures r.Some? ==> r.value == TypeError || r.value == AttributeError
  {
    if key !in model.columns && key !in model.attributes then Some(TypeError)
    else if key !in model.columns && key in model.readOnly then Some(AttributeError)
    else None
  }

  /** The constructor assigns every keyword. */
  predicate ConstructorAccepts(model: ModelClass, kwargs: map<string, Value>)
  {
    forall k :: k in kwargs ==> KeywordRefusal(model, k).None?
  }

  /** The constructor accepts exactly the keywords naming a column or a class
      attribute it can assign; an empty set of keywords is always accepted. */
  lemma ConstructorAcceptsSettable(model: ModelClass, kwargs: map<string, Value>)
    ensures ConstructorAccepts(model, kwargs) <==> kwargs.Keys <= model.columns + (model.attributes - model.readOnly)
    ensures ConstructorAccepts(model, map[])
  {
    if !ConstructorAccepts(model, kwargs) {
      var k :| k in kwargs && KeywordRefusal(model, k).Some?;
      assert k !in model.columns + (model.attributes - model.readOnly);
    }
  }

  /** Which store call raises a store error during a delete, if any. */
  datatype DeleteFailure = NoFailure | FailsOnDelete | FailsOnFinish

  // ---------------------------------------------------------------------
  // Statement building

  /** How one caller join is applied: a bare model joins without an
      on-clause, a pair adds its on-clause, a triple also its keyword arguments. */
  function AppliedOf(j: Join): (a: AppliedJoin)
    ensures a.target == j.target
    ensures j.JoinModel? <==> a.onClause.None?
    ensures !j.JoinModel? ==> a.onClause == Some(j.onClause)
    ensures a.kwargs == (if j.JoinWith? then j.kwargs else map[])
  {
    match j
    case JoinModel(t) => AppliedJoin(t, None, map[])
    case JoinOn(t, c) => AppliedJoin(t, Some(c), map[])
    case JoinWith(t, c, kw) => AppliedJoin(t, Some(c), kw)
  }

  /** The joins a statement gains from a join sequence, in order. */
  function JoinAll(joins: seq<Join>): (r: seq<AppliedJoin>)
    ensures |r| == |joins|
    ensures forall i :: 0 <= i < |joins| ==> r[i] == AppliedOf(joins[i])
  {
    if joins == [] then [] else [AppliedOf(joins[0])] + JoinAll(joins[1..])
  }

  /** `_make_disable_filters`: id membership, then the "not yet disabled"
      test when filtering by value is allowed and the type is exactly `bool`
      or exactly `datetime`, then the extra filters. */
  function DisableFilters(idField: string, ids: set<Value>, disableField: string, fieldType: FieldType,
                          allow: bool, extras: seq<Clause>): (r: seq<Clause>)
    ensures |r| >= 1 + |extras| && r[0] == ColumnIn(idField, ids)
    ensures r[|r| - |extras|..] == extras
    ensures |r| == 2 + |extras| <==> allow && fieldType in {BoolType, DateTimeType}
    ensures |r| == 2 + |extras| ==>
      r[1] == if fieldType == BoolType then ColumnIsFalse(disableField) else ColumnIsNone(disableField)
  {
    [ColumnIn(idField, ids)]
    + (if allow && fieldType == BoolType then [ColumnIsFalse(disableField)]
       else if allow && fieldType == DateTimeType then [ColumnIsNone(disableField)]
       else [])
    + extras
  }

  /** `_get_item_identity_filter`: `column == identity`, or `ValueError` when
      the field is not a column of the model. */
  function IdentityFilter(model: ModelClass, identity: Value, field: string): (r: Outcome<Clause, Exception>)
    ensures r.Raised? <==> field !in model.columns
    ensures r.Raised? ==> r.exc == ValueError
    ensures r.Returned? ==> r.value.ColumnEquals? && r.value.column == field && r.value.identity == identity
  {
    if field !in model.columns then Raised(ValueError) else Returned(ColumnEquals(field, identity))
  }

  /** Whether a search target is a string that does not name a column. */
  predicate BadTarget(model: ModelClass, t: SearchTarget)
  {
    t.ColumnName? && t.name !in model.columns
  }

  /** `_make_search_filter`: `ValueError` if a string target is not a column;
      otherwise the disjunction of one `ilike '%search%'` per target. The
      `use_and_clause` flag does not enter: its conjunction is built and dropped. */
  function SearchFilter(search: string, model: ModelClass, targets: seq<SearchTarget>): (r: Outcome<Clause, Exception>)
    ensures r.Raised? <==> exists i :: 0 <= i < |targets| && BadTarget(model, targets[i])
    ensures r.Raised? ==> r.exc == ValueError
    ensures r.Returned? ==> r.value.AnyOf? && |r.value.clauses| == |targets|
    ensures r.Returned? ==> forall i :: 0 <= i < |targets| ==>
      r.value.clauses[i] == ILike(targets[i], SearchPatterns.SearchPattern(search))
  {
    if exists i :: 0 <= i < |targets| && BadTarget(model, targets[i]) then Raised(ValueError)
    else Returned(AnyOf(seq(|targets|, i requires 0 <= i < |targets| =>
                                ILike(targets[i], SearchPatterns.SearchPattern(search)))))
  }

  /** `get_db_item`'s statement: the caller's filters, then the identity clause. */
  function ItemStatement(model: ModelClass, identity: Value, field: string, filters: seq<Clause>,
                         joins: seq<Join>, options: seq<LoadOption>): (r: Outcome<Statement, Exception>)
    ensures r.Raised? <==> IdentityFilter(model, identity, field).Raised?
    ensures r.Returned? ==>
      r.value == Select(false, model, JoinAll(joins), options,
                        filters + [IdentityFilter(model, identity, field).value], None, None, None)
  {
    match IdentityFilter(model, identity, field)
    case Raised(e) => Raised(e)
    case Returned(c) => Returned(Select(false, model, JoinAll(joins), options, filters + [c], None, None, None))
  }

  /** `get_db_items_count`'s statement: `count()` over the model, joined and filtered. */
  function CountStatement(model: ModelClass, joins: seq<Join>, filters: seq<Clause>): (r: Statement)
    ensures r.Select? && r.counting && r.model == model && r.joins == JoinAll(joins) && r.where == filters
    ensures r.options == [] && r.orderBy.None? && r.limit.None? && r.offset.None?
  {
    Select(true, model, JoinAll(joins), [], filters, None, None, None)
  }

  /** Whether `get_db_item_list` adds a search clause: `search and search_by`. */
  predicate Searching(search: Option<string>, searchBy: seq<SearchTarget>)
  {
    search.Some? && search.value != [] && searchBy != []
  }

  /** `get_db_item_list`'s statement: the search clause (built from the
      escaped search text) first, then the caller's filters. */
  function ListStatement(model: ModelClass, joins: seq<Join>, options: seq<LoadOption>, filters: seq<Clause>,
                         search: Option<string>, searchBy: seq<SearchTarget>, orderBy: Option<seq<OrderKey>>,
                         limit: Option<int>, offset: Option<int>): (r: Outcome<Statement, Exception>)
    ensures !Searching(search, searchBy) ==>
      r == Returned(Select(false, model, JoinAll(joins), options, filters, orderBy, limit, offset))
    ensures Searching(search, searchBy) ==>
      var f := SearchFilter(SearchPatterns.EscapeSearch(search.value), model, searchBy);
      (r.Raised? <==> f.Raised?)
      && (r.Returned? ==> r.value == Select(false, model, JoinAll(joins), options, [f.value] + filters, orderBy, limit, offset))
  {
    if Searching(search, searchBy) then
      match SearchFilter(SearchPatterns.EscapeSearch(search.value), model, searchBy)
      case Raised(e) => Raised(e)
      case Returned(c) => Returned(Select(false, model, JoinAll(joins), options, [c] + filters, orderBy, limit, offset))
    else Returned(Select(false, model, JoinAll(joins), options, filters, orderBy, limit, offset))
  }

  /** The value `disable_db_items` writes: `True` for `bool`, the current time
      for `datetime` and its subclasses; any other type is refused. */
  function DisableValue(fieldType: FieldType, now: int): (r: Outcome<Value, Exception>)
    ensures fieldType == OtherType <==> r == Raised(TypeError)
    ensures fieldType == BoolType ==> r == Returned(Bool(true))
    ensures fieldType in {DateTimeType, DateTimeSubclass} ==> r == Returned(Timestamp(now))
  {
    match fieldType
    case BoolType => Returned(Bool(true))
    case DateTimeType => Returned(Timestamp(now))
    case DateTimeSubclass => Returned(Timestamp(now))
    case OtherType => Raised(TypeError)
  }

  // ---------------------------------------------------------------------
  // What the built filters select

  /** A row passes the disable filters iff its id is one of the ids, it is
      not already disabled (when filtering by value applies), and it passes
      the extra filters. */
  lemma DisableFiltersSelect(idField: string, ids: set<Value>, disableField: string, fieldType: FieldType,
                             allow: bool, extras: seq<Clause>, row: map<string, Value>, env: Evaluator)
    ensures AllHold(DisableFilters(idField, ids, disableField, fieldType, allow, extras), row, env) <==>
      Get(row, idField) != Null && Get(row, idField) in ids
      && (allow && fieldType == BoolType ==> Get(row, disableField) == Bool(false))
      && (allow && fieldType == DateTimeType ==> Get(row, disableField) == Null)
      && AllHold(extras, row, env)
  {
    var r := DisableFilters(idField, ids, disableField, fieldType, allow, extras);
    var k := |r| - |extras|;
    if AllHold(r, row, env) {
      assert Holds(r[0], row, env);
      if k == 2 {
        assert Holds(r[1], row, env);
      }
      forall i | 0 <= i < |extras| ensures Holds(extras[i], row, env) {
        assert r[k + i] == extras[i];
      }
    }
  }

  /** A row the disable statement has written is not selected again by the
      same filters when the value filter applies: disabling twice writes nothing more. */
  lemma DisabledRowsNotReselected(idField: string, ids: set<Value>, disableField: string, fieldType: FieldType,
                                  extras: seq<Clause>, row: map<string, Value>, env: Evaluator, now: int)
    requires fieldType in {BoolType, DateTimeType}
    requires disableField in row && DisableValue(fieldType, now) == Returned(row[disableField])
    ensures !AllHold(DisableFilters(idField, ids, disableField, fieldType, true, extras), row, env)
  {
    DisableFiltersSelect(idField, ids, disableField, fieldType, true, extras, row, env);
  }

  /** A proper subclass of `datetime` passes the type check but not the
      equality test that adds the value filter, so rows already disabled are
      selected (and rewritten) again. */
  lemma DateTimeSubclassReselects(idField: string, ids: set<Value>, disableField: string,
                                  row: map<string, Value>, env: Evaluator, now: int)
    requires idField != disableField
    requires Get(row, idField) != Null && Get(row, idField) in ids
    requires disableField in row && row[disableField] == Timestamp(now)
    ensures DisableValue(DateTimeSubclass, now).Returned?
    ensures AllHold(DisableFilters(idField, ids, disableField, DateTimeSubclass, true, []), row, env)
  {
    DisableFiltersSelect(idField, ids, disableField, DateTimeSubclass, true, [], row, env);
  }

  /** The identity clause selects exactly the rows whose identity column holds the identity. */
  lemma IdentityFilterSelects(model: ModelClass, identity: Value, field: string, row: map<string, Value>, env: Evaluator)
    requires field in model.columns && identity != Null
    ensures IdentityFilter(model, identity, field).Returned?
    ensures Holds(IdentityFilter(model, identity, field).value, row, env) <==> Get(row, field) == identity
  {
  }

  /** The search clause of the list query selects a row iff the search text
      occurs, ignoring ASCII case, in the text value of some target. */
  lemma SearchFilterSelects(model: ModelClass, search: string, targets: seq<SearchTarget>,
                            row: map<string, Value>, env: Evaluator)
    requires forall i :: 0 <= i < |targets| ==> !BadTarget(model, targets[i])
    ensures SearchFilter(SearchPatterns.EscapeSearch(search), model, targets).Returned?
    ensures Holds(SearchFilter(SearchPatterns.EscapeSearch(search), model, targets).value, row, env) <==>
      exists i :: 0 <= i < |targets| && Mentions(TargetValue(targets[i], row, env), search)
  {
    var c := SearchFilter(SearchPatterns.EscapeSearch(search), model, targets).value;
    forall i | 0 <= i < |targets|
      ensures Holds(c.clauses[i], row, env) <==> Mentions(TargetValue(targets[i], row, env), search)
    {
      var v := TargetValue(targets[i], row, env);
      if v.Str? {
        SearchPatterns.SearchFindsOccurrences(search, v.s);
      }
    }
    if Holds(c, row, env) {
      var i :| 0 <= i < |c.clauses| && Holds(c.clauses[i], row, env);
      assert Mentions(TargetValue(targets[i], row, env), search);
    }
  }

  /** A text value containing the search text, ignoring ASCII case. */
  predicate Mentions(v: Value, search: string)
  {
    v.Str? && Text.Occurs(Text.AsciiLower(search), Text.AsciiLower(v.s))
  }

  // ---------------------------------------------------------------------
  // Record changes

  /** Whether `change_db_item` writes `field`: it is in the data and its value
      is not `None`, or it is `None` and `set_none` is on and the field is allowed to be `None`. */
  predicate Assigned(data: map<string, Value>, setNone: bool, allowed: NoneFields, field: string)
  {
    field in data && (data[field] != Null || (setNone && allowed.Permits(field)))
  }

  /** The attributes after writing the assigned fields among `keys`. */
  function ApplyOn(attrs: map<string, Value>, data: map<string, Value>, setNone: bool, allowed: NoneFields,
                   keys: set<string>): map<string, Value>
  {
    map k | k in attrs.Keys + (set j | j in keys && Assigned(data, setNone, allowed, j)) ::
      if k in keys && Assigned(data, setNone, allowed, k) then data[k] else attrs[k]
  }

  /** Whether writing the assigned fields among `keys` meets a field whose
      prior value (`None` when absent) is not `==` to the new one. */
  predicate UpdatedOn(attrs: map<string, Value>, data: map<string, Value>, setNone: bool, allowed: NoneFields,
                      keys: set<string>)
  {
    exists k :: k in keys && Assigned(data, setNone, allowed, k) && !PyEq(Get(attrs, k), data[k])
  }

  /** Whether `setattr` refuses the write of `field`: it is assigned and names a
      property of the class without a setter. */
  predicate Refused(model: ModelClass, data: map<string, Value>, setNone: bool, allowed: NoneFields, field: string)
  {
    Assigned(data, setNone, allowed, field) && field in model.readOnly && field !in model.columns
  }

  /** Whether some write of the change is refused. */
  predicate ChangeRefused(model: ModelClass, data: map<string, Value>, setNone: bool, allowed: NoneFields)
  {
    exists k :: k in data && Refused(model, data, setNone, allowed, k)
  }

  /** The attributes after `change_db_item`. */
  function Changed(attrs: map<string, Value>, data: map<string, Value>, setNone: bool, allowed: NoneFields)
    : map<string, Value>
  {
    ApplyOn(attrs, data, setNone, allowed, data.Keys)
  }

  /** The flag `change_db_item` returns. */
  predicate IsUpdated(attrs: map<string, Value>, data: map<string, Value>, setNone: bool, allowed: NoneFields)
  {
    UpdatedOn(attrs, data, setNone, allowed, data.Keys)
  }

  /** Fields that the change does not assign keep their presence and value;
      assigned fields take the new value. */
  lemma ChangeWritesOnlyAssigned(attrs: map<string, Value>, data: map<string, Value>, setNone: bool,
                                 allowed: NoneFields, field: string)
    ensures Assigned(data, setNone, allowed, field) ==>
      field in Changed(attrs, data, setNone, allowed) && Changed(attrs, data, setNone, allowed)[field] == data[field]
    ensures !Assigned(data, setNone, allowed, field) ==>
      (field in Changed(attrs, data, setNone, allowed) <==> field in attrs)
      && (field in attrs ==> Changed(attrs, data, setNone, allowed)[field] == attrs[field])
  {
  }

  /** How a `None` in the data is treated: written only with `set_none` and
      only to a field `allowed_none_fields` admits; every other value is written. */
  lemma NoneHandling(data: map<string, Value>, setNone: bool, allowed: NoneFields, field: string)
    requires field in data
    ensures data[field] == Null ==> (Assigned(data, setNone, allowed, field) <==> setNone && allowed.Permits(field))
    ensures data[field] != Null ==> Assigned(data, setNone, allowed, field)
  {
  }

  /** The flag is true exactly when the record, read field by field with
      `None` for an absent field, holds some value after the change that is
      not `==` to the one before. */
  lemma UpdatedIffRecordChanged(attrs: map<string, Value>, data: map<string, Value>, setNone: bool,
                                allowed: NoneFields)
    ensures IsUpdated(attrs, data, setNone, allowed) <==>
      exists k :: !PyEq(Get(Changed(attrs, data, setNone, allowed), k), Get(attrs, k))
  {
    var after := Changed(attrs, data, setNone, allowed);
    if IsUpdated(attrs, data, setNone, allowed) {
      var k :| k in data.Keys && Assigned(data, setNone, allowed, k) && !PyEq(Get(attrs, k), data[k]);
      assert Get(after, k) == data[k];
    }
    if exists k :: !PyEq(Get(after, k), Get(attrs, k)) {
      var k :| !PyEq(Get(after, k), Get(attrs, k));
      ChangeWritesOnlyAssigned(attrs, data, setNone, allowed, k);
      assert Assigned(data, setNone, allowed, k);
      assert k in data.Keys && !PyEq(Get(attrs, k), data[k]);
    }
  }

  /** Writing `1` over `True` (or `0` over `False`) changes the stored value
      but not the flag, since Python finds the two equal. */
  lemma BoolIntWriteNotUpdated(field: string)
    ensures var attrs := map[field := Bool(true)];
      var data := map[field := Int(1)];
      Changed(attrs, data, false, AnyField) == data && !IsUpdated(attrs, data, false, AnyField)
  {
    var attrs := map[field := Bool(true)];
    var data := map[field := Int(1)];
    assert Assigned(data, false, AnyField, field);
    assert Changed(attrs, data, false, AnyField).Keys == data.Keys;
  }

  /** Applying the same change twice gives the same record, and the second
      application reports no update. */
  lemma ChangeIdempotent(attrs: map<string, Value>, data: map<string, Value>, setNone: bool, allowed: NoneFields)
    ensures Changed(Changed(attrs, data, setNone, allowed), data, setNone, allowed) == Changed(attrs, data, setNone, allowed)
    ensures !IsUpdated(Changed(attrs, data, setNone, allowed), data, setNone, allowed)
  {
    var once := Changed(attrs, data, setNone, allowed);
    var twice := Changed(once, data, setNone, allowed);
    forall k | k in twice.Keys ensures k in once && twice[k] == once[k] {
      ChangeWritesOnlyAssigned(once, data, setNone, allowed, k);
      ChangeWritesOnlyAssigned(attrs, data, setNone, allowed, k);
    }
    forall k | k in once.Keys ensures k in twice {
      ChangeWritesOnlyAssigned(once, data, setNone, allowed, k);
    }
    if IsUpdated(once, data, setNone, allowed) {
      var k :| k in data.Keys && Assigned(data, setNone, allowed, k) && !PyEq(Get(once, k), data[k]);
      ChangeWritesOnlyAssigned(attrs, data, setNone, allowed, k);
    }
  }

  /** The parameters `change_db_item` walks: the data, less its `None`
      entries unless `set_none` is on. */
  function Params(data: map<string, Value>, setNone: bool): (params: map<string, Value>)
    ensures params.Keys <= data.Keys
    ensures forall k :: k in params ==> params[k] == data[k] && (setNone || data[k] != Null)
    ensures forall k :: k in data && k !in params ==> !setNone && data[k] == Null
  {
    if setNone then data else map k | k in data && data[k] != Null :: data[k]
  }

  /** Keys the parameter filtering drops are never assigned, so working on the
      filtered parameters gives the same record and the same flag. */
  lemma FilteredParamsAgree(attrs: map<string, Value>, data: map<string, Value>, setNone: bool,
                            allowed: NoneFields, params: map<string, Value>)
    requires params.Keys <= data.Keys && forall k :: k in params ==> params[k] == data[k]
    requires forall k :: k in data && k !in params ==> !Assigned(data, setNone, allowed, k)
    ensures ApplyOn(attrs, data, setNone, allowed, params.Keys) == Changed(attrs, data, setNone, allowed)
    ensures UpdatedOn(attrs, data, setNone, allowed, params.Keys) == IsUpdated(attrs, data, setNone, allowed)
  {
    assert forall k :: k in params.Keys && Assigned(data, setNone, allowed, k) <==>
                       k in data.Keys && Assigned(data, setNone, allowed, k);
    ApplySameAssigned(attrs, data, setNone, allowed, params.Keys, data.Keys);
    UpdatedSameAssigned(attrs, data, setNone, allowed, params.Keys, data.Keys);
  }

  /** Only the assigned keys matter to the written attributes. */
  lemma ApplySameAssigned(attrs: map<string, Value>, data: map<string, Value>, setNone: bool, allowed: NoneFields,
                          keys1: set<string>, keys2: set<string>)
    requires forall k :: k in keys1 && Assigned(data, setNone, allowed, k) <==>
                         k in keys2 && Assigned(data, setNone, allowed, k)
    ensures ApplyOn(attrs, data, setNone, allowed, keys1) == ApplyOn(attrs, data, setNone, allowed, keys2)
  {
  }

  /** Only the assigned keys matter to the updated flag. */
  lemma UpdatedSameAssigned(attrs: map<string, Value>, data: map<string, Value>, setNone: bool, allowed: NoneFields,
                            keys1: set<string>, keys2: set<string>)
    requires forall k :: k in keys1 && Assigned(data, setNone, allowed, k) <==>
                         k in keys2 && Assigned(data, setNone, allowed, k)
    ensures UpdatedOn(attrs, data, setNone, allowed, keys1) == UpdatedOn(attrs, data, setNone, allowed, keys2)
  {
  }

  lemma JoinAllSnoc(joins: seq<Join>, i: nat)
    requires i < |joins|
    ensures JoinAll(joins[..i + 1]) == JoinAll(joins[..i]) + [AppliedOf(joins[i])]
  {
    var a := JoinAll(joins[..i + 1]);
    var b := JoinAll(joins[..i]) + [AppliedOf(joins[i])];
    assert |a| == |b|;
    forall k | 0 <= k < |a| ensures a[k] == b[k] {
      assert joins[..i + 1][k] == joins[k];
      if k < i {
        assert joins[..i][k] == joins[k];
      }
    }
  }

  lemma ApplyNothing(attrs: map<string, Value>, data: map<string, Value>, setNone: bool, allowed: NoneFields)
    ensures ApplyOn(attrs, data, setNone, allowed, {}) == attrs
    ensures !UpdatedOn(attrs, data, setNone, allowed, {})
  {
    var r := ApplyOn(attrs, data, setNone, allowed, {});
    assert (set j | j in {} && Assigned(data, setNone, allowed, j)) == {};
    assert r.Keys == attrs.Keys;
  }

  /** One field of the change at a time: its effect on the record. */
  lemma ApplyStep(attrs: map<string, Value>, data: map<string, Value>, setNone: bool, allowed: NoneFields,
                  done: set<string>, field: string)
    requires field !in done
    ensures Get(ApplyOn(attrs, data, setNone, allowed, done), field) == Get(attrs, field)
    ensures ApplyOn(attrs, data, setNone, allowed, done + {field}) ==
      if Assigned(data, setNone, allowed, field)
      then ApplyOn(attrs, data, setNone, allowed, done)[field := data[field]]
      else ApplyOn(attrs, data, setNone, allowed, done)
  {
    var before := ApplyOn(attrs, data, setNone, allowed, done);
    var after := ApplyOn(attrs, data, setNone, allowed, done + {field});
    var expected := if Assigned(data, setNone, allowed, field) then before[field := data[field]] else before;
    forall k | k in after ensures k in expected && after[k] == expected[k] {
      assert k == field || (k in done && Assigned(data, setNone, allowed, k)) || k in attrs;
    }
    forall k | k in expected ensures k in after {
      assert k == field || k in before;
    }
  }

  /** One pass of the `change_db_item` loop, read off the specification: the
      field is written unless it is a `None` the caller may not set. */
  lemma LoopStep(attrs: map<string, Value>, data: map<string, Value>, setNone: bool, allowed: NoneFields,
                 done: set<string>, field: string, value: Value)
    requires field in data && value == data[field] && field !in done
    requires setNone || value != Null
    ensures var write := !(setNone && value == Null && !allowed.Permits(field));
      var before := ApplyOn(attrs, data, setNone, allowed, done);
      (ApplyOn(attrs, data, setNone, allowed, done + {field}) == if write then before[field := value] else before)
      && (UpdatedOn(attrs, data, setNone, allowed, done + {field}) <==>
            UpdatedOn(attrs, data, setNone, allowed, done) || (write && !PyEq(Get(before, field), value)))
  {
    ApplyStep(attrs, data, setNone, allowed, done, field);
    UpdatedStep(attrs, data, setNone, allowed, done, field);
  }

  /** In the loop, the write of `field` is refused exactly when it is made
      and names a property without a setter. */
  lemma RefusedStep(model: ModelClass, data: map<string, Value>, setNone: bool, allowed: NoneFields,
                    field: string, value: Value)
    requires field in data && value == data[field]
    requires setNone || value != Null
    ensures Refused(model, data, setNone, allowed, field) <==>
      !(setNone && value == Null && !allowed.Permits(field)) && field in model.readOnly && field !in model.columns
  {
  }

  /** One field of the change at a time: its effect on the flag. */
  lemma UpdatedStep(attrs: map<string, Value>, data: map<string, Value>, setNone: bool, allowed: NoneFields,
                    done: set<string>, field: string)
    ensures UpdatedOn(attrs, data, setNone, allowed, done + {field}) <==>
      UpdatedOn(attrs, data, setNone, allowed, done)
      || (Assigned(data, setNone, allowed, field) && !PyEq(Get(attrs, field), data[field]))
  {
    if UpdatedOn(attrs, data, setNone, allowed, done + {field}) {
      var k :| k in done + {field} && Assigned(data, setNone, allowed, k) && !PyEq(Get(attrs, k), data[k]);
      if k != field {
        assert k in done;
      }
    }
  }

  /** The source's database-access object over one session. */
  class BaseQuery {
    const session: Session

    constructor (session: Session)
      ensures this.session == session
    {
      this.session := session;
    }

    /** `_resolve_joins`: each join applied to the statement in turn. */
    method ResolveJoins(stmt: Statement, joins: seq<Join>) returns (r: Statement)
      requires stmt.Select?
      ensures r == stmt.(joins := stmt.joins + JoinAll(joins))
    {
      var applied: seq<AppliedJoin> := stmt.joins;
      var i := 0;
      while i < |joins|
        invariant 0 <= i <= |joins|
        invariant applied == stmt.joins + JoinAll(joins[..i])
      {
        var a := match joins[i]
          case JoinModel(t) => AppliedJoin(t, None, map[])
          case JoinOn(t, c) => AppliedJoin(t, Some(c), map[])
          case JoinWith(t, c, kw) => AppliedJoin(t, Some(c), kw);
        JoinAllSnoc(joins, i);
        applied := applied + [a];
        i := i + 1;
      }
      assert joins[..i] == joins;
      r := stmt.(joins := applied);
    }

    /** `stmt.options(option)` for each option in turn. */
    method AddOptions(stmt: Statement, options: seq<LoadOption>) returns (r: Statement)
      requires stmt.Select?
      ensures r == stmt.(options := stmt.options + options)
    {
      r := stmt;
      var i := 0;
      while i < |options|
        invariant 0 <= i <= |options|
        invariant r == stmt.(options := stmt.options + options[..i])
      {
        assert options[..i + 1] == options[..i] + [options[i]];
        r := r.(options := r.options + [options[i]]);
        i := i + 1;
      }
      assert options[..i] == options;
    }

    /** `_make_disable_filters`. */
    method MakeDisableFilters(idField: string, ids: set<Value>, disableField: string, fieldType: FieldType,
                              allow: bool, extras: seq<Clause>) returns (filters: seq<Clause>)
      ensures filters == DisableFilters(idField, ids, disableField, fieldType, allow, extras)
    {
      filters := [];
      filters := filters + [ColumnIn(idField, ids)];
      if allow && fieldType == BoolType {
        filters := filters + [ColumnIsFalse(disableField)];
      } else if allow && fieldType == DateTimeType {
        filters := filters + [ColumnIsNone(disableField)];
      }
      filters := filters + extras;
    }

    /** `_make_search_filter`: one `ilike` per target, stopping with
      `ValueError` at a string that is not a column. */
    method MakeSearchFilter(search: string, model: ModelClass, targets: seq<SearchTarget>, useAnd: bool)
      returns (r: Outcome<Clause, Exception>)
      ensures r == SearchFilter(search, model, targets)
    {
      var filters: seq<Clause> := [];
      var i := 0;
      while i < |targets|
        invariant 0 <= i <= |targets|
        invariant forall j :: 0 <= j < i ==> !BadTarget(model, targets[j])
        invariant |filters| == i
        invariant forall j :: 0 <= j < i ==> filters[j] == ILike(targets[j], SearchPatterns.SearchPattern(search))
      {
        if targets[i].ColumnName? && targets[i].name !in model.columns {
          assert BadTarget(model, targets[i]);
          return Raised(ValueError);
        }
        filters := filters + [ILike(targets[i], SearchPatterns.SearchPattern(search))];
        i := i + 1;
      }
      if useAnd {
        var discarded := AnyOf(filters);
      }
      assert filters == seq(|targets|, j requires 0 <= j < |targets| =>
                              ILike(targets[j], SearchPatterns.SearchPattern(search)));
      r := Returned(AnyOf(filters));
    }

    /** `get_db_item`: the first row the store returns for the item statement,
      or `None`; `ValueError` before anything is executed when the identity
      field is not a column. `rows` is the store's answer. */
    method GetDbItem(model: ModelClass, identity: Value, field: string, filters: seq<Clause>,
                     joins: seq<Join>, options: seq<LoadOption>, rows: seq<Item>)
      returns (r: Outcome<Option<Item>, Exception>)
      modifies session
      ensures ItemStatement(model, identity, field, filters, joins, options).Raised? ==>
        r == Raised(ValueError) && session.calls == old(session.calls)
      ensures ItemStatement(model, identity, field, filters, joins, options).Returned? ==>
        session.calls == old(session.calls) + [Execute(ItemStatement(model, identity, field, filters, joins, options).value)]
        && r == Returned(if rows == [] then None else Some(rows[0]))
    {
      var stmt := Select(false, model, [], [], [], None, None, None);
      if joins != [] {
        stmt := ResolveJoins(stmt, joins);
      }
      stmt := AddOptions(stmt, options);
      var identityFilter := IdentityFilter(model, identity, field);
      if identityFilter.Raised? {
        return Raised(identityFilter.exc);
      }
      stmt := stmt.(where := stmt.where + filters);
      stmt := stmt.(where := stmt.where + [identityFilter.value]);
      assert [] + filters + [identityFilter.value] == filters + [identityFilter.value];
      assert joins == [] ==> JoinAll(joins) == [];
      assert stmt == ItemStatement(model, identity, field, filters, joins, options).value;
      session.Record(Execute(stmt));
      r := Returned(if rows == [] then None else Some(rows[0]));
    }

    /** `get_db_items_count`: the count the store returns, with `None` read as 0. */
    method GetDbItemsCount(model: ModelClass, joins: seq<Join>, filters: seq<Clause>, scalar: Option<int>)
      returns (count: int)
      modifies session
      ensures session.calls == old(session.calls) + [Execute(CountStatement(model, joins, filters))]
      ensures scalar.Some? ==> count == scalar.value
      ensures scalar.None? ==> count == 0
    {
      var stmt := Select(true, model, [], [], [], None, None, None);
      if joins != [] {
        stmt := ResolveJoins(stmt, joins);
      }
      if filters != [] {
        stmt := stmt.(where := stmt.where + filters);
      }
      assert joins == [] ==> JoinAll(joins) == [];
      assert [] + filters == filters;
      assert stmt == CountStatement(model, joins, filters);
      session.Record(Execute(stmt));
      count := if scalar.None? then 0 else scalar.value;
    }

    /** `get_db_item_list`: the rows the store returns for the list statement;
      `ValueError` before anything is executed when a string search target is
      not a column. */
    method GetDbItemList(model: ModelClass, joins: seq<Join>, options: seq<LoadOption>, filters: seq<Clause>,
                         search: Option<string>, searchBy: seq<SearchTarget>, orderBy: Option<seq<OrderKey>>,
                         limit: Option<int>, offset: Option<int>, rows: seq<Item>)
      returns (r: Outcome<seq<Item>, Exception>)
      modifies session
      ensures var s := ListStatement(model, joins, options, filters, search, searchBy, orderBy, limit, offset);
        (s.Raised? ==> r == Raised(ValueError) && session.calls == old(session.calls))
        && (s.Returned? ==> r == Returned(rows) && session.calls == old(session.calls) + [Execute(s.value)])
    {
      var where: seq<Clause> := [];
      if search.Some? && search.value != [] && searchBy != [] {
        var escaped := SearchPatterns.EscapeSearch(search.value);
        var clause := MakeSearchFilter(escaped, model, searchBy, false);
        if clause.Raised? {
          return Raised(clause.exc);
        }
        where := [clause.value];
      }
      var stmt := ShapeList(model, where, joins, options, filters, orderBy, limit, offset);
      assert !Searching(search, searchBy) ==> where + filters == filters;
      session.Record(Execute(stmt));
      r := Returned(rows);
    }

    /** The rest of `get_db_item_list`'s statement after the search clause:
      joins, options, filters, ordering, limit and offset, each when given. */
    method ShapeList(model: ModelClass, where: seq<Clause>, joins: seq<Join>, options: seq<LoadOption>,
                     filters: seq<Clause>, orderBy: Option<seq<OrderKey>>, limit: Option<int>, offset: Option<int>)
      returns (stmt: Statement)
      ensures stmt == Select(false, model, JoinAll(joins), options, where + filters, orderBy, limit, offset)
    {
      stmt := Select(false, model, [], [], where, None, None, None);
      if joins != [] {
        stmt := ResolveJoins(stmt, joins);
      }
      stmt := AddOptions(stmt, options);
      if filters != [] {
        stmt := stmt.(where := where + filters);
      }
      if orderBy.Some? {
        stmt := stmt.(orderBy := orderBy);
      }
      if limit.Some? {
        stmt := stmt.(limit := limit);
      }
      if offset.Some? {
        stmt := stmt.(offset := offset);
      }
      assert joins == [] ==> JoinAll(joins) == [];
      assert filters == [] ==> where + filters == where;
    }

    /** `create_item`: a new instance from the data, added to the session and
      flushed or committed. The model's constructor assigns each keyword in
      turn and raises at the first one it refuses; the session is then untouched. */
    method CreateItem(model: ModelClass, data: CreateData, useFlush: bool) returns (r: Outcome<Item, Exception>)
      modifies session
      ensures ConstructorAccepts(model, Kwargs(data)) ==>
        r.Returned? && fresh(r.value) && r.value.attrs == Kwargs(data)
        && session.calls == old(session.calls) + [Add(r.value), Finish(useFlush)]
      ensures !ConstructorAccepts(model, Kwargs(data)) ==>
        r.Raised? && (exists k :: k in Kwargs(data) && KeywordRefusal(model, k) == Some(r.exc))
        && session.calls == old(session.calls)
    {
      var attrs := Kwargs(data);
      if !ConstructorAccepts(model, attrs) {
        var k :| k in attrs && KeywordRefusal(model, k).Some?;
        return Raised(KeywordRefusal(model, k).value);
      }
      var item := new Item(attrs);
      session.Record(Add(item));
      session.Record(Finish(useFlush));
      r := Returned(item);
    }

    /** `change_db_item`: writes every assigned field of the data onto the
      instance, then flushes or commits; returns whether some written field
      changed, and the same instance. A write to a property without a setter
      raises `AttributeError` part way through: the fields written before it
      keep their new values and nothing is flushed or committed. */
    method ChangeDbItem(model: ModelClass, data: map<string, Value>, item: Item, setNone: bool, allowed: NoneFields,
                        useFlush: bool)
      returns (r: Outcome<(bool, Item), Exception>)
      modifies item, session
      ensures !ChangeRefused(model, data, setNone, allowed) ==>
        r == Returned((IsUpdated(old(item.attrs), data, setNone, allowed), item))
        && item.attrs == Changed(old(item.attrs), data, setNone, allowed)
        && session.calls == old(session.calls) + [Finish(useFlush)]
      ensures ChangeRefused(model, data, setNone, allowed) ==>
        r == Raised(AttributeError) && session.calls == old(session.calls)
        && exists written :: written <= data.Keys
             && (forall k :: k in written ==> !Refused(model, data, setNone, allowed, k))
             && item.attrs == ApplyOn(old(item.attrs), data, setNone, allowed, written)
    {
      var params := Params(data, setNone);
      FilteredParamsAgree(item.attrs, data, setNone, allowed, params);
      var outcome := AssignFields(model, data, params, item, setNone, allowed);
      if outcome.Raised? {
        return Raised(outcome.exc);
      }
      session.Record(Finish(useFlush));
      r := Returned((outcome.value, item));
    }

    /** The `setattr` loop of `change_db_item` over the filtered parameters. */
    method AssignFields(model: ModelClass, data: map<string, Value>, params: map<string, Value>, item: Item,
                        setNone: bool, allowed: NoneFields)
      returns (r: Outcome<bool, Exception>)
      requires params.Keys <= data.Keys
      requires forall k :: k in params ==> params[k] == data[k] && (setNone || data[k] != Null)
      modifies item
      ensures r.Returned? <==> !exists k :: k in params && Refused(model, data, setNone, allowed, k)
      ensures r.Returned? ==>
        item.attrs == ApplyOn(old(item.attrs), data, setNone, allowed, params.Keys)
        && r.value == UpdatedOn(old(item.attrs), data, setNone, allowed, params.Keys)
      ensures r.Raised? ==>
        r.exc == AttributeError
        && exists written :: written <= params.Keys
             && (forall k :: k in written ==> !Refused(model, data, setNone, allowed, k))
             && item.attrs == ApplyOn(old(item.attrs), data, setNone, allowed, written)
    {
      ghost var before := item.attrs;
      var updated := false;
      var todo := params.Keys;
      ghost var done: set<string> := {};
      ApplyNothing(before, data, setNone, allowed);
      while todo != {}
        invariant todo <= params.Keys && done == params.Keys - todo
        invariant forall k :: k in done ==> !Refused(model, data, setNone, allowed, k)
        invariant item.attrs == ApplyOn(before, data, setNone, allowed, done)
        invariant updated == UpdatedOn(before, data, setNone, allowed, done)
        decreases todo
      {
        var field :| field in todo;
        var value := params[field];
        LoopStep(before, data, setNone, allowed, done, field, value);
        RefusedStep(model, data, setNone, allowed, field, value);
        if !(setNone && value == Null && !allowed.Permits(field)) {
          if !updated && !PyEq(Get(item.attrs, field), value) {
            updated := true;
          }
          if field in model.readOnly && field !in model.columns {
            return Raised(AttributeError);
          }
          item.attrs := item.attrs[field := value];
        }
        todo := todo - {field};
        done := done + {field};
      }
      assert todo == {};
      assert done == params.Keys;
      r := Returned(updated);
    }

    /** `delete_db_item`: delete and flush or commit; a store error on either
      call is answered with one rollback and `False`. */
    method DeleteDbItem(item: Item, useFlush: bool, failure: DeleteFailure) returns (deleted: bool)
      modifies session
      ensures deleted <==> failure == NoFailure
      ensures failure == NoFailure ==> session.calls == old(session.calls) + [Delete(item), Finish(useFlush)]
      ensures failure == FailsOnDelete ==> session.calls == old(session.calls) + [Delete(item), Rollback]
      ensures failure == FailsOnFinish ==> session.calls == old(session.calls) + [Delete(item), Finish(useFlush), Rollback]
    {
      session.Record(Delete(item));
      if failure == FailsOnDelete {
        session.Record(Rollback);
        return false;
      }
      session.Record(Finish(useFlush));
      if failure == FailsOnFinish {
        session.Record(Rollback);
        return false;
      }
      deleted := true;
    }

    /** `disable_db_items`: the type check first (even for no ids), then 0 for
      no ids, then one update statement writing the disable value to the rows
      the disable filters select. The result is the statement's rowcount, or 0
      when the store does not report one. */
    method DisableDbItems(model: ModelClass, ids: set<Value>, idField: string, disableField: string,
                          fieldType: FieldType, allow: bool, extras: seq<Clause>, useFlush: bool,
                          now: int, rowcount: Option<int>)
      returns (r: Outcome<int, Exception>)
      modifies session
      ensures fieldType == OtherType ==> r == Raised(TypeError) && session.calls == old(session.calls)
      ensures fieldType != OtherType && ids == {} ==> r == Returned(0) && session.calls == old(session.calls)
      ensures fieldType != OtherType && ids != {} ==>
        session.calls == old(session.calls)
          + [Execute(Update(model, DisableFilters(idField, ids, disableField, fieldType, allow, extras),
                            disableField, DisableValue(fieldType, now).value)),
             Finish(useFlush)]
        && r == Returned(if rowcount.Some? then rowcount.value else 0)
    {
      var value: Value;
      if fieldType == BoolType {
        value := Bool(true);
      } else if fieldType == DateTimeType || fieldType == DateTimeSubclass {
        value := Timestamp(now);
      } else {
        return Raised(TypeError);
      }
      if ids == {} {
        return Returned(0);
      }
      var filters := MakeDisableFilters(idField, ids, disableField, fieldType, allow, extras);
      session.Record(Execute(Update(model, filters, disableField, value)));
      session.Record(Finish(useFlush));
      r := Returned(if rowcount.Some? then rowcount.value else 0);
    }
  }
}
