/** The declarative table base class: attribute lookup along dotted paths,
    the `as_dict` projection with includes and aliases, and the checks of
    whether a record differs from a dictionary, a schema or another record. */
module Tables {
  import opened Results
  import opened Exceptions
  import Store
  import Text

  /** What an attribute lookup can find: a plain value (`None` included), an
      object with attributes of its own, or a callable with the value it returns. */
  datatype Attr = Plain(v: Store.Value) | Obj(fields: map<string, Attr>) | Call(result: Attr)

  const None: Attr := Plain(Store.Null)

  /** A table class: its name, the names of its base classes, and the class
      attributes `default_include_fields` and `default_replace_fields`. */
  datatype Table = Table(name: string, bases: set<string>, defaultInclude: Option<seq<string>>,
                         defaultReplace: Option<map<string, string>>)

  /** A record of a table class, with every attribute `getattr` finds on it:
      its columns and instance attributes and those of its class. */
  datatype Row = Row(table: Table, attrs: map<string, Attr>)
  {
    function AsAttr(): Attr
    {
      Obj(attrs)
    }
  }

  /** One step of the lookup: `getattr(value, name, None)`, then called if callable. */
  function Step(value: Attr, name: string): (r: Attr)
    ensures !(value.Obj? && name in value.fields) ==> r == None
  {
    var got := if value.Obj? && name in value.fields then value.fields[name] else None;
    if got.Call? then got.result else got
  }

  /** The lookup along a path of attribute names. */
  function Walk(value: Attr, path: seq<string>): Attr
    decreases |path|
  {
    if path == [] then value else Walk(Step(value, path[0]), path[1..])
  }

  /** The value `_get_model_attr(field)` finds for a dotted name. */
  function Lookup(self: Attr, field: string): Attr
  {
    Walk(self, Text.Split(field, "."))
  }

  /** Walking a path in two parts is walking the whole path. */
  lemma {:induction false} WalkAppend(value: Attr, p: seq<string>, q: seq<string>)
    ensures Walk(value, p + q) == Walk(Walk(value, p), q)
    decreases |p|
  {
    if p != [] {
      assert (p + q)[0] == p[0];
      assert (p + q)[1..] == p[1..] + q;
      WalkAppend(Step(value, p[0]), p[1..], q);
    } else {
      assert p + q == q;
    }
  }

  /** Once the lookup has found `None` it stays `None`. */
  lemma {:induction false} WalkFromNone(path: seq<string>)
    ensures Walk(None, path) == None
    decreases |path|
  {
    if path != [] {
      WalkFromNone(path[1..]);
    }
  }

  /** A segment the value reached so far does not have makes the whole lookup
      `None`, never an error. */
  lemma MissingSegmentYieldsNone(value: Attr, path: seq<string>, i: int)
    requires 0 <= i < |path|
    requires var at := Walk(value, path[..i]); !(at.Obj? && path[i] in at.fields)
    ensures Walk(value, path) == None
  {
    assert path == path[..i] + ([path[i]] + path[i + 1..]);
    WalkAppend(value, path[..i], [path[i]] + path[i + 1..]);
    var at := Walk(value, path[..i]);
    assert Walk(at, [path[i]] + path[i + 1..]) == Walk(Step(at, path[i]), path[i + 1..]) by {
      assert ([path[i]] + path[i + 1..])[1..] == path[i + 1..];
    }
    WalkFromNone(path[i + 1..]);
  }

  /** A single present attribute holding a callable yields what the callable returns. */
  lemma CallableIsInvoked(self: Attr, name: string)
    requires self.Obj? && name in self.fields && self.fields[name].Call?
    ensures Walk(self, [name]) == self.fields[name].result
  {
  }

  /** `_get_model_attr`: follows the dot-separated path one attribute at a time. */
  method GetModelAttr(self: Attr, field: string) returns (value: Attr)
    ensures value == Lookup(self, field)
  {
    var parts := Text.Split(field, ".");
    value := self;
    var i := 0;
    while i < |parts|
      invariant 0 <= i <= |parts|
      invariant Walk(value, parts[i..]) == Walk(self, parts)
    {
      assert parts[i..][1..] == parts[i + 1..];
      var got := if value.Obj? && parts[i] in value.fields then value.fields[parts[i]] else None;
      if got.Call? {
        got := got.result;
      }
      value := got;
      i := i + 1;
    }
  }

  /** Each include name mapped to its own value. */
  function IncludeMap(self: Attr, includes: seq<string>): map<string, Attr>
  {
    map k | k in includes :: Lookup(self, k)
  }

  /** Each alias among `keys` mapped to the value of its target. */
  function ReplaceOn(self: Attr, replace: map<string, string>, keys: set<string>): map<string, Attr>
  {
    map k | k in keys && k in replace :: Lookup(self, replace[k])
  }

  /** Writing one more key over a merge is writing it over the right-hand map. */
  lemma MergeUpdate(a: map<string, Attr>, b: map<string, Attr>, k: string, v: Attr)
    ensures (a + b)[k := v] == a + b[k := v]
  {
  }

  /** One more include name adds its own value. */
  lemma IncludeSnoc(self: Attr, includes: seq<string>, k: string)
    ensures IncludeMap(self, includes + [k]) == IncludeMap(self, includes)[k := Lookup(self, k)]
  {
    var l := IncludeMap(self, includes + [k]);
    var r := IncludeMap(self, includes)[k := Lookup(self, k)];
    assert l.Keys == r.Keys by {
      forall x ensures x in l <==> x in r {
        assert x in includes + [k] <==> x in includes || x == k;
      }
    }
  }

  /** One more alias adds its target's value. */
  lemma ReplaceAdd(self: Attr, replace: map<string, string>, done: set<string>, k: string)
    requires k in replace
    ensures ReplaceOn(self, replace, done + {k}) == ReplaceOn(self, replace, done)[k := Lookup(self, replace[k])]
  {
  }

  /** `_add_by_includes`: writes every include name into the dictionary. */
  method AddByIncludes(self: Attr, item: map<string, Attr>, includes: seq<string>) returns (r: map<string, Attr>)
    ensures r == item + IncludeMap(self, includes)
  {
    r := item;
    var i := 0;
    while i < |includes|
      invariant 0 <= i <= |includes|
      invariant r == item + IncludeMap(self, includes[..i])
    {
      var value := GetModelAttr(self, includes[i]);
      assert includes[..i + 1] == includes[..i] + [includes[i]];
      IncludeSnoc(self, includes[..i], includes[i]);
      MergeUpdate(item, IncludeMap(self, includes[..i]), includes[i], value);
      r := r[includes[i] := value];
      i := i + 1;
    }
    assert includes[..i] == includes;
  }

  /** `_replace`: writes every alias into the dictionary with its target's value. */
  method Replace(self: Attr, item: map<string, Attr>, replace: map<string, string>) returns (r: map<string, Attr>)
    ensures r == item + ReplaceOn(self, replace, replace.Keys)
  {
    r := item;
    var todo := replace.Keys;
    ghost var done: set<string> := {};
    while todo != {}
      invariant todo + done == replace.Keys && todo !! done
      invariant r == item + ReplaceOn(self, replace, done)
      decreases todo
    {
      var original :| original in todo;
      var value := GetModelAttr(self, replace[original]);
      ReplaceAdd(self, replace, done, original);
      MergeUpdate(item, ReplaceOn(self, replace, done), original, value);
      r := r[original := value];
      todo := todo - {original};
      done := done + {original};
    }
    assert todo == {};
    assert done == replace.Keys;
  }

  /** The includes `as_dict` uses: the arguments, or the class default when there are none. */
  function EffectiveInclude(table: Table, includes: seq<string>): seq<string>
  {
    if includes == [] && table.defaultInclude.Some? then table.defaultInclude.value else includes
  }

  /** The aliases `as_dict` uses: the arguments, or the class default when there are none. */
  function EffectiveReplace(table: Table, replace: map<string, string>): map<string, string>
  {
    if replace == map[] && table.defaultReplace.Some? then table.defaultReplace.value else replace
  }

  /** The dictionary `as_dict` returns: includes first, aliases written over them. */
  function Projection(row: Row, includes: seq<string>, replace: map<string, string>): map<string, Attr>
  {
    var inc := EffectiveInclude(row.table, includes);
    var rep := EffectiveReplace(row.table, replace);
    IncludeMap(row.AsAttr(), inc) + ReplaceOn(row.AsAttr(), rep, rep.Keys)
  }

  /** `as_dict`. */
  method AsDict(row: Row, includes: seq<string>, replace: map<string, string>) returns (item: map<string, Attr>)
    ensures item == Projection(row, includes, replace)
  {
    item := map[];
    var inc := includes;
    if includes == [] && row.table.defaultInclude.Some? {
      inc := row.table.defaultInclude.value;
    }
    item := AddByIncludes(row.AsAttr(), item, inc);
    var rep := replace;
    if replace == map[] && row.table.defaultReplace.Some? {
      rep := row.table.defaultReplace.value;
    }
    item := Replace(row.AsAttr(), item, rep);
    assert map[] + IncludeMap(row.AsAttr(), inc) == IncludeMap(row.AsAttr(), inc);
  }

  /** The keys of the projection are the includes names and the aliases; an
      alias holds its target's value even when it is also an includes name,
      and an includes name that is not an alias holds its own value. */
  lemma ProjectionContents(row: Row, includes: seq<string>, replace: map<string, string>, k: string)
    ensures var p := Projection(row, includes, replace);
      var inc := EffectiveInclude(row.table, includes);
      var rep := EffectiveReplace(row.table, replace);
      (k in p <==> k in inc || k in rep)
      && (k in rep ==> p[k] == Lookup(row.AsAttr(), rep[k]))
      && (k !in rep && k in inc ==> p[k] == Lookup(row.AsAttr(), k))
  {
  }

  /** Without arguments and without class defaults the projection is empty. */
  lemma ProjectionWithoutFields(row: Row)
    requires row.table.defaultInclude.None? && row.table.defaultReplace.None?
    ensures Projection(row, [], map[]) == map[]
  {
  }

  /** The projection's keys depend only on the table class and the arguments. */
  lemma ProjectionKeysIgnoreValues(a: Row, b: Row, includes: seq<string>, replace: map<string, string>)
    requires a.table == b.table
    ensures Projection(a, includes, replace).Keys == Projection(b, includes, replace).Keys
  {
  }

  /** An attribute as Python's `==` sees it: a plain value as `Store.Normal`
      gives it; objects and callables as they are. */
  function NormalAttr(a: Attr): Attr
  {
    if a.Plain? then Plain(Store.Normal(a.v)) else a
  }

  /** Python's `==` on attributes. */
  predicate AttrEq(a: Attr, b: Attr)
  {
    NormalAttr(a) == NormalAttr(b)
  }

  /** A dictionary with every value as Python's `==` sees it. */
  function Normalized(m: map<string, Attr>): (r: map<string, Attr>)
    ensures r.Keys == m.Keys
  {
    map f | f in m :: NormalAttr(m[f])
  }

  /** Whether some entry of `item` is missing on the record or holds a value
      that is not `==` to the record's. */
  predicate DictDiffers(attrs: map<string, Attr>, item: map<string, Attr>)
  {
    exists f :: f in item && (f !in attrs || !AttrEq(attrs[f], item[f]))
  }

  /** The dictionary rule is "the dictionary, values read as Python compares
      them, is not contained in the record". */
  lemma DictDiffersIffNotContained(attrs: map<string, Attr>, item: map<string, Attr>)
    ensures DictDiffers(attrs, item) <==> !(Normalized(item).Items <= Normalized(attrs).Items)
  {
    var ni, na := Normalized(item), Normalized(attrs);
    if DictDiffers(attrs, item) {
      var f :| f in item && (f !in attrs || !AttrEq(attrs[f], item[f]));
      assert (f, ni[f]) in ni.Items;
      assert (f, ni[f]) !in na.Items;
    } else {
      forall p | p in ni.Items ensures p in na.Items {
        assert p.0 in ni && ni[p.0] == p.1;
        assert p.0 in na && na[p.0] == p.1;
      }
    }
  }

  /** A record holding `True` is not different from a dictionary asking for `1`. */
  lemma BoolMatchesInt(field: string)
    ensures !DictDiffers(map[field := Plain(Store.Bool(true))], map[field := Plain(Store.Int(1))])
    ensures DictDiffers(map[field := Plain(Store.Bool(true))], map[field := Plain(Store.Int(2))])
  {
    assert field in map[field := Plain(Store.Int(2))];
  }

  /** `_is_dict_different_from`: an early-return search over the dictionary. */
  method IsDictDifferentFrom(row: Row, item: map<string, Attr>) returns (r: bool)
    ensures r <==> DictDiffers(row.attrs, item)
    ensures item == map[] ==> !r
  {
    var todo := item.Keys;
    while todo != {}
      invariant todo <= item.Keys
      invariant forall f :: f in item && f !in todo ==> f in row.attrs && AttrEq(row.attrs[f], item[f])
      decreases todo
    {
      var field :| field in todo;
      if field !in row.attrs {
        return true;
      }
      if !AttrEq(row.attrs[field], item[field]) {
        return true;
      }
      todo := todo - {field};
    }
    r := false;
  }

  /** A validated schema, seen through its `dict()` dump. */
  datatype Schema = Schema(dump: map<string, Attr>)

  /** `_is_pydantic_different_from`: the dictionary rule on the schema's dump. */
  method IsSchemaDifferentFrom(row: Row, item: Schema) returns (r: bool)
    ensures r <==> DictDiffers(row.attrs, item.dump)
  {
    r := IsDictDifferentFrom(row, item.dump);
  }

  /** Two dictionaries with the same keys differ, as Python compares their
      values, exactly when they differ at some key. */
  lemma SameKeysDiffer(a: map<string, Attr>, b: map<string, Attr>)
    requires a.Keys == b.Keys
    ensures Normalized(a) != Normalized(b) <==> exists f :: f in b && !AttrEq(a[f], b[f])
  {
    if forall f :: f in b ==> AttrEq(a[f], b[f]) {
      assert Normalized(a) == Normalized(b);
    } else {
      var f :| f in b && !AttrEq(a[f], b[f]);
      assert Normalized(a)[f] != Normalized(b)[f];
    }
  }

  /** `_is_model_different_from`: `False` for another exact class, otherwise
      whether the two projections under the same arguments differ. */
  method IsModelDifferentFrom(row: Row, other: Row, includes: seq<string>, replace: map<string, string>)
    returns (r: bool)
    ensures r <==> other.table == row.table
                   && Normalized(Projection(row, includes, replace)) != Normalized(Projection(other, includes, replace))
  {
    if other.table != row.table {
      return false;
    }
    var itemDict := AsDict(other, includes, replace);
    var selfDict := AsDict(row, includes, replace);
    ProjectionKeysIgnoreValues(row, other, includes, replace);
    SameKeysDiffer(selfDict, itemDict);
    var todo := itemDict.Keys;
    while todo != {}
      invariant todo <= itemDict.Keys
      invariant forall f :: f in itemDict && f !in todo ==> AttrEq(selfDict[f], itemDict[f])
      decreases todo
    {
      var field :| field in todo;
      if !AttrEq(selfDict[field], itemDict[field]) {
        return true;
      }
      todo := todo - {field};
    }
    r := false;
  }

  /** What `is_different_from` can be given. */
  datatype Other = SchemaArg(schema: Schema) | RowArg(row: Row) | DictArg(item: map<string, Attr>) | OtherArg

  /** `isinstance(other, type(row))`: the same class or a subclass of it. */
  predicate InstanceOf(other: Row, table: Table)
  {
    other.table == table || table.name in other.table.bases
  }

  /** `is_different_from`: schema first, then an instance of the record's
      class, then a dictionary; anything else raises TypeError. */
  method IsDifferentFrom(row: Row, item: Other, includes: seq<string>, replace: map<string, string>)
    returns (r: Outcome<bool, Exception>)
    ensures item.SchemaArg? ==> r == Returned(DictDiffers(row.attrs, item.schema.dump))
    ensures item.RowArg? && InstanceOf(item.row, row.table) ==>
      r == Returned(item.row.table == row.table
                    && Normalized(Projection(row, includes, replace)) != Normalized(Projection(item.row, includes, replace)))
    ensures item.DictArg? ==> r == Returned(DictDiffers(row.attrs, item.item))
    ensures item.OtherArg? || (item.RowArg? && !InstanceOf(item.row, row.table)) ==> r == Raised(TypeError)
  {
    if item.SchemaArg? {
      var d := IsSchemaDifferentFrom(row, item.schema);
      return Returned(d);
    }
    if item.RowArg? && InstanceOf(item.row, row.table) {
      var d := IsModelDifferentFrom(row, item.row, includes, replace);
      return Returned(d);
    }
    if item.DictArg? {
      var d := IsDictDifferentFrom(row, item.item);
      return Returned(d);
    }
    r := Raised(TypeError);
  }

  /** A record of a subclass is never reported as different, whatever it holds. */
  lemma SubclassRecordNeverDiffers(row: Row, other: Row, includes: seq<string>, replace: map<string, string>)
    requires other.table != row.table && row.table.name in other.table.bases
    ensures InstanceOf(other, row.table)
    ensures !(other.table == row.table
              && Normalized(Projection(row, includes, replace)) != Normalized(Projection(other, includes, replace)))
  {
  }
}
