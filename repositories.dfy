/** The base repository: each operation checks the caller's permission for
    its own method name, merges the visibility filters of the caller's mode
    with the caller's filters, strips joins and options in BRIEF mode, and
    hands the result to the query layer. */
module Repositories {
  import opened Results
  import opened Exceptions
  import opened Store
  import opened Permissions
  import Queries

  /** Whether related entities are joined and loaded (`VERBOSE`) or not (`BRIEF`). */
  datatype SelectMode = Brief | Verbose

  /** One generic argument of a repository subclass: an unfilled type
      variable, or a class together with whether it derives from the table
      base class and from the query base class. */
  datatype GenericArg = TypeVarArg | ClassArg(isTable: bool, isQuery: bool)

  /** What `__init_subclass__` sees of a new repository class: whether it
      sets `model_class` itself, and the generic arguments of its first base
      (`None` when it has no `__orig_bases__`). */
  datatype SubclassDecl = SubclassDecl(hasModelClass: bool, genericArgs: Option<seq<GenericArg>>)

  /** Whether the generic arguments name a table class and a query class, in that order. */
  predicate WellFormedArgs(args: seq<GenericArg>)
  {
    |args| == 2 && args[0].ClassArg? && args[0].isTable && args[1].ClassArg? && args[1].isQuery
  }

  /** `__init_subclass__`: with `model_class` already set nothing is checked;
      otherwise the model and query classes are taken from the generic
      arguments, and any failure on the way (a missing base, a wrong number of
      arguments, an unfilled type variable, a class of the wrong kind) is
      raised again as `RepositorySubclassNotSetAttributeError`. The result is
      the `(model_class, query_class)` pair set on the class, if any. */
  function InitSubclass(decl: SubclassDecl): (r: Outcome<Option<(GenericArg, GenericArg)>, Exception>)
    ensures decl.hasModelClass ==> r == Returned(None)
    ensures !decl.hasModelClass ==>
      (r.Returned? <==> decl.genericArgs.Some? && WellFormedArgs(decl.genericArgs.value))
    ensures !decl.hasModelClass && r.Returned? ==>
      r.value == Some((decl.genericArgs.value[0], decl.genericArgs.value[1]))
    ensures r.Raised? ==> r.exc.RepositorySubclassNotSetAttributeError?
  {
    if decl.hasModelClass then Returned(None)
    else
      match DeriveClasses(decl.genericArgs)
      case Raised(e) => Raised(RepositorySubclassNotSetAttributeError(e))
      case Returned(pair) => Returned(Some(pair))
  }

  /** The body of the `try` in `__init_subclass__`, checks in source order. */
  function DeriveClasses(genericArgs: Option<seq<GenericArg>>): (r: Outcome<(GenericArg, GenericArg), Exception>)
    ensures r.Returned? <==> genericArgs.Some? && WellFormedArgs(genericArgs.value)
    ensures r.Returned? ==> r.value == (genericArgs.value[0], genericArgs.value[1])
  {
    match genericArgs
    case None => Raised(AttributeError)
    case Some(args) =>
      if |args| != 2 then Raised(ValueError)
      else if args[0].TypeVarArg? then Raised(TypeError)
      else if args[1].TypeVarArg? then Raised(TypeError)
      else if !args[0].isTable then Raised(TypeError)
      else if !args[1].isQuery then Raised(TypeError)
      else Returned((args[0], args[1]))
  }

  /** The class attributes a concrete repository works with. */
  datatype RepoConfig = RepoConfig(model: ModelClass, rules: Rules, providers: Providers)

  /** The arguments `get` hands to `get_db_item`. */
  datatype ItemCall = ItemCall(identity: Value, field: string, filters: seq<Clause>, joins: seq<Join>,
                               options: seq<LoadOption>)

  /** The arguments `count` hands to `get_db_items_count`. */
  datatype CountCall = CountCall(joins: seq<Join>, filters: seq<Clause>)

  /** The arguments `list` hands to `get_db_item_list`. */
  datatype ListCall = ListCall(joins: seq<Join>, options: seq<LoadOption>, filters: seq<Clause>,
                               search: Option<string>, searchBy: seq<SearchTarget>,
                               orderBy: Option<seq<OrderKey>>, limit: Option<int>, offset: Option<int>)

  /** `get`: the `read_detail` check, then the visibility filters (emptied in
      BRIEF mode when they need a join) followed by the extra filters; BRIEF
      also drops joins and options. */
  function GetPlan(cfg: RepoConfig, identity: Value, field: string, extraFilters: seq<Clause>, joins: seq<Join>,
                   options: seq<LoadOption>, selectMode: SelectMode, mode: PermissionMode, ignore: bool)
    : (r: Outcome<ItemCall, Exception>)
    ensures var v := VisibilityFilterFromPermission(cfg.rules, cfg.providers, ReadDetail, mode, ignore);
      (v.Raised? ==> r == Raised(v.exc))
      && (v.Returned? ==>
            r.Returned?
            && r.value.identity == identity && r.value.field == field
            && r.value.filters == (if selectMode == Brief && v.value.joinRequired then [] else v.value.filters) + extraFilters
            && r.value.joins == (if selectMode == Brief then [] else joins)
            && r.value.options == (if selectMode == Brief then [] else options))
  {
    match VisibilityFilterFromPermission(cfg.rules, cfg.providers, ReadDetail, mode, ignore)
    case Raised(e) => Raised(e)
    case Returned(vis) =>
      var visible := if selectMode == Brief && vis.joinRequired then [] else vis.filters;
      var j := if selectMode == Brief then [] else joins;
      var o := if selectMode == Brief then [] else options;
      Returned(ItemCall(identity, field, visible + extraFilters, j, o))
  }

  /** The visibility filters `count` and `list` keep: none when they need a
      join and the caller gave no joins. */
  function KeptVisibility(vis: Visibility, joins: seq<Join>): (r: seq<Clause>)
    ensures r == [] || r == vis.filters
    ensures vis.filters != [] ==> (r == [] <==> vis.joinRequired && joins == [])
  {
    if vis.joinRequired && joins == [] then [] else vis.filters
  }

  /** `count`: the `read_count` check, then the caller's filters followed by
      the kept visibility filters. */
  function CountPlan(cfg: RepoConfig, joins: seq<Join>, filters: seq<Clause>, mode: PermissionMode, ignore: bool)
    : (r: Outcome<CountCall, Exception>)
    ensures var v := VisibilityFilterFromPermission(cfg.rules, cfg.providers, ReadCount, mode, ignore);
      (v.Raised? ==> r == Raised(v.exc))
      && (v.Returned? ==> r == Returned(CountCall(joins, filters + KeptVisibility(v.value, joins))))
  {
    match VisibilityFilterFromPermission(cfg.rules, cfg.providers, ReadCount, mode, ignore)
    case Raised(e) => Raised(e)
    case Returned(vis) => Returned(CountCall(joins, filters + KeptVisibility(vis, joins)))
  }

  /** `list`: the `read_list` check, then the caller's filters followed by the
      kept visibility filters, the drop decided on the caller's joins before
      BRIEF mode discards joins and options. */
  function ListPlan(cfg: RepoConfig, joins: seq<Join>, options: seq<LoadOption>, filters: seq<Clause>,
                    search: Option<string>, searchBy: seq<SearchTarget>, orderBy: Option<seq<OrderKey>>,
                    limit: Option<int>, offset: Option<int>, selectMode: SelectMode, mode: PermissionMode,
                    ignore: bool)
    : (r: Outcome<ListCall, Exception>)
    ensures var v := VisibilityFilterFromPermission(cfg.rules, cfg.providers, ReadList, mode, ignore);
      (v.Raised? ==> r == Raised(v.exc))
      && (v.Returned? ==>
            r.Returned?
            && r.value.filters == filters + KeptVisibility(v.value, joins)
            && r.value.joins == (if selectMode == Brief then [] else joins)
            && r.value.options == (if selectMode == Brief then [] else options)
            && r.value.search == search && r.value.searchBy == searchBy && r.value.orderBy == orderBy
            && r.value.limit == limit && r.value.offset == offset)
  {
    match VisibilityFilterFromPermission(cfg.rules, cfg.providers, ReadList, mode, ignore)
    case Raised(e) => Raised(e)
    case Returned(vis) =>
      var f := filters + KeptVisibility(vis, joins);
      var j := if selectMode == Brief then [] else joins;
      var o := if selectMode == Brief then [] else options;
      Returned(ListCall(j, o, f, search, searchBy, orderBy, limit, offset))
  }

  /** In BRIEF mode `get` uses the visibility filters exactly when they need no join. */
  lemma BriefGetDropsJoinedVisibility(cfg: RepoConfig, identity: Value, field: string, extraFilters: seq<Clause>,
                                      joins: seq<Join>, options: seq<LoadOption>, mode: PermissionMode, ignore: bool,
                                      vis: Visibility)
    requires VisibilityFilterFromPermission(cfg.rules, cfg.providers, ReadDetail, mode, ignore) == Returned(vis)
    ensures var r := GetPlan(cfg, identity, field, extraFilters, joins, options, Brief, mode, ignore);
      r.Returned? && r.value.joins == [] && r.value.options == []
      && r.value.filters == (if vis.joinRequired then extraFilters else vis.filters + extraFilters)
  {
    assert [] + extraFilters == extraFilters;
  }

  /** In VERBOSE mode `get` keeps the visibility filters even when they need a
      join and the caller gave none, unlike `count` and `list`. */
  lemma VerboseGetKeepsVisibility(cfg: RepoConfig, identity: Value, field: string, extraFilters: seq<Clause>,
                                  options: seq<LoadOption>, mode: PermissionMode, ignore: bool, vis: Visibility)
    requires VisibilityFilterFromPermission(cfg.rules, cfg.providers, ReadDetail, mode, ignore) == Returned(vis)
    requires vis.joinRequired
    ensures GetPlan(cfg, identity, field, extraFilters, [], options, Verbose, mode, ignore).value.filters
         == vis.filters + extraFilters
    ensures CountPlan(cfg, [], extraFilters, mode, ignore).Returned? ==>
      CountPlan(cfg, [], extraFilters, mode, ignore).value.filters == extraFilters
  {
    assert extraFilters + [] == extraFilters;
  }

  /** In BRIEF mode `list` keeps visibility filters that need a join when the
      caller gave joins, although those joins are then discarded. */
  lemma BriefListKeepsVisibilityButDropsJoins(cfg: RepoConfig, joins: seq<Join>, options: seq<LoadOption>,
                                              filters: seq<Clause>, mode: PermissionMode, ignore: bool,
                                              vis: Visibility)
    requires VisibilityFilterFromPermission(cfg.rules, cfg.providers, ReadList, mode, ignore) == Returned(vis)
    requires joins != []
    ensures var r := ListPlan(cfg, joins, options, filters, None, [], None, None, None, Brief, mode, ignore);
      r.Returned? && r.value.filters == filters + vis.filters && r.value.joins == [] && r.value.options == []
  {
  }

  /** A denied `read_list` check stops `list` before any filter is merged,
      whatever the other arguments are. */
  lemma ListDenialIgnoresArguments(cfg: RepoConfig, joins1: seq<Join>, joins2: seq<Join>, filters1: seq<Clause>,
                                   filters2: seq<Clause>, selectMode: SelectMode, mode: PermissionMode, ignore: bool)
    requires CheckPermissions(cfg.rules, ReadList, mode, ignore).Raised?
    ensures ListPlan(cfg, joins1, [], filters1, None, [], None, None, None, selectMode, mode, ignore)
         == ListPlan(cfg, joins2, [], filters2, None, [], None, None, None, Brief, mode, ignore)
    ensures ListPlan(cfg, joins1, [], filters1, None, [], None, None, None, selectMode, mode, ignore)
         == Raised(CheckPermissions(cfg.rules, ReadList, mode, ignore).exc)
  {
  }

  /** A concrete repository: its configuration and the query object over its session. */
  class BaseRepository {
    const cfg: RepoConfig
    const queries: Queries.BaseQuery

    constructor (session: Session, cfg: RepoConfig)
      ensures this.cfg == cfg && queries.session == session && fresh(queries)
    {
      this.cfg := cfg;
      this.queries := new Queries.BaseQuery(session);
    }

    /** `get`: nothing reaches the session when the plan raises. */
    method Get(identity: Value, field: string, extraFilters: seq<Clause>, joins: seq<Join>, options: seq<LoadOption>,
               selectMode: SelectMode, mode: PermissionMode, ignore: bool, rows: seq<Item>)
      returns (r: Outcome<Option<Item>, Exception>)
      modifies queries.session
      ensures var p := GetPlan(cfg, identity, field, extraFilters, joins, options, selectMode, mode, ignore);
        (p.Raised? ==> r == Raised(p.exc) && queries.session.calls == old(queries.session.calls))
        && (p.Returned? ==>
              var s := Queries.ItemStatement(cfg.model, identity, field, p.value.filters, p.value.joins, p.value.options);
              (s.Raised? ==> r == Raised(ValueError) && queries.session.calls == old(queries.session.calls))
              && (s.Returned? ==> queries.session.calls == old(queries.session.calls) + [Execute(s.value)]
                                  && r == Returned(if rows == [] then None else Some(rows[0]))))
    {
      var p := GetPlan(cfg, identity, field, extraFilters, joins, options, selectMode, mode, ignore);
      if p.Raised? {
        return Raised(p.exc);
      }
      r := queries.GetDbItem(cfg.model, identity, field, p.value.filters, p.value.joins, p.value.options, rows);
    }

    /** `count`: nothing reaches the session when the plan raises. */
    method Count(joins: seq<Join>, filters: seq<Clause>, mode: PermissionMode, ignore: bool, scalar: Option<int>)
      returns (r: Outcome<int, Exception>)
      modifies queries.session
      ensures var p := CountPlan(cfg, joins, filters, mode, ignore);
        (p.Raised? ==> r == Raised(p.exc) && queries.session.calls == old(queries.session.calls))
        && (p.Returned? ==>
              queries.session.calls == old(queries.session.calls)
                + [Execute(Queries.CountStatement(cfg.model, p.value.joins, p.value.filters))]
              && r == Returned(if scalar.None? then 0 else scalar.value))
    {
      var p := CountPlan(cfg, joins, filters, mode, ignore);
      if p.Raised? {
        return Raised(p.exc);
      }
      var count := queries.GetDbItemsCount(cfg.model, p.value.joins, p.value.filters, scalar);
      r := Returned(count);
    }

    /** `list`: nothing reaches the session when the plan raises. */
    method List(joins: seq<Join>, options: seq<LoadOption>, filters: seq<Clause>, search: Option<string>,
                searchBy: seq<SearchTarget>, orderBy: Option<seq<OrderKey>>, limit: Option<int>, offset: Option<int>,
                selectMode: SelectMode, mode: PermissionMode, ignore: bool, rows: seq<Item>)
      returns (r: Outcome<seq<Item>, Exception>)
      modifies queries.session
      ensures var p := ListPlan(cfg, joins, options, filters, search, searchBy, orderBy, limit, offset,
                                selectMode, mode, ignore);
        (p.Raised? ==> r == Raised(p.exc) && queries.session.calls == old(queries.session.calls))
        && (p.Returned? ==>
              var s := Queries.ListStatement(cfg.model, p.value.joins, p.value.options, p.value.filters, search,
                                             searchBy, orderBy, limit, offset);
              (s.Raised? ==> r == Raised(ValueError) && queries.session.calls == old(queries.session.calls))
              && (s.Returned? ==> r == Returned(rows)
                                  && queries.session.calls == old(queries.session.calls) + [Execute(s.value)]))
    {
      var p := ListPlan(cfg, joins, options, filters, search, searchBy, orderBy, limit, offset, selectMode, mode, ignore);
      if p.Raised? {
        return Raised(p.exc);
      }
      r := queries.GetDbItemList(cfg.model, p.value.joins, p.value.options, p.value.filters, search, searchBy,
                                 orderBy, limit, offset, rows);
    }

    /** `create`: the `create` check, then `create_item` with the arguments unchanged. */
    method Create(data: Queries.CreateData, useFlush: bool, mode: PermissionMode, ignore: bool)
      returns (r: Outcome<Item, Exception>)
      modifies queries.session
      ensures var c := CheckPermissions(cfg.rules, MethodName.Create, mode, ignore);
        (c.Raised? ==> r == Raised(c.exc) && queries.session.calls == old(queries.session.calls))
        && (c.Returned? && Queries.ConstructorAccepts(cfg.model, Queries.Kwargs(data)) ==>
              r.Returned? && fresh(r.value) && r.value.attrs == Queries.Kwargs(data)
              && queries.session.calls == old(queries.session.calls) + [Add(r.value), Finish(useFlush)])
        && (c.Returned? && !Queries.ConstructorAccepts(cfg.model, Queries.Kwargs(data)) ==>
              r.Raised? && (exists k :: k in Queries.Kwargs(data) && Queries.KeywordRefusal(cfg.model, k) == Some(r.exc))
              && queries.session.calls == old(queries.session.calls))
    {
      var c := CheckPermissions(cfg.rules, MethodName.Create, mode, ignore);
      if c.Raised? {
        return Raised(c.exc);
      }
      r := queries.CreateItem(cfg.model, data, useFlush);
    }

    /** `update`: the `update` check, then `change_db_item` with the arguments
      unchanged, its outcome returned as it is. */
    method Update(data: map<string, Value>, item: Item, setNone: bool, allowed: Queries.NoneFields, useFlush: bool,
                  mode: PermissionMode, ignore: bool)
      returns (r: Outcome<(bool, Item), Exception>)
      modifies item, queries.session
      ensures var c := CheckPermissions(cfg.rules, MethodName.Update, mode, ignore);
        (c.Raised? ==> r == Raised(c.exc) && queries.session.calls == old(queries.session.calls)
                       && item.attrs == old(item.attrs))
        && (c.Returned? && !Queries.ChangeRefused(cfg.model, data, setNone, allowed) ==>
              item.attrs == Queries.Changed(old(item.attrs), data, setNone, allowed)
              && r == Returned((Queries.IsUpdated(old(item.attrs), data, setNone, allowed), item))
              && queries.session.calls == old(queries.session.calls) + [Finish(useFlush)])
        && (c.Returned? && Queries.ChangeRefused(cfg.model, data, setNone, allowed) ==>
              r == Raised(AttributeError) && queries.session.calls == old(queries.session.calls)
              && exists written :: written <= data.Keys
                   && (forall k :: k in written ==> !Queries.Refused(cfg.model, data, setNone, allowed, k))
                   && item.attrs == Queries.ApplyOn(old(item.attrs), data, setNone, allowed, written))
    {
      var c := CheckPermissions(cfg.rules, MethodName.Update, mode, ignore);
      if c.Raised? {
        return Raised(c.exc);
      }
      r := queries.ChangeDbItem(cfg.model, data, item, setNone, allowed, useFlush);
    }

    /** `disable`: the `disable` check, then `disable_db_items` with the arguments unchanged. */
    method Disable(ids: set<Value>, idField: string, disableField: string, fieldType: Queries.FieldType,
                   allow: bool, extras: seq<Clause>, useFlush: bool, mode: PermissionMode, ignore: bool,
                   now: int, rowcount: Option<int>)
      returns (r: Outcome<int, Exception>)
      modifies queries.session
      ensures var c := CheckPermissions(cfg.rules, MethodName.Disable, mode, ignore);
        (c.Raised? ==> r == Raised(c.exc) && queries.session.calls == old(queries.session.calls))
        && (c.Returned? && fieldType == Queries.OtherType ==> r == Raised(TypeError) && queries.session.calls == old(queries.session.calls))
        && (c.Returned? && fieldType != Queries.OtherType && ids != {} ==>
              queries.session.calls == old(queries.session.calls)
                + [Execute(Store.Update(cfg.model, Queries.DisableFilters(idField, ids, disableField, fieldType, allow, extras),
                                        disableField, Queries.DisableValue(fieldType, now).value)),
                   Finish(useFlush)]
              && r == Returned(if rowcount.Some? then rowcount.value else 0))
        && (c.Returned? && fieldType != Queries.OtherType && ids == {} ==>
              r == Returned(0) && queries.session.calls == old(queries.session.calls))
    {
      var c := CheckPermissions(cfg.rules, MethodName.Disable, mode, ignore);
      if c.Raised? {
        return Raised(c.exc);
      }
      r := queries.DisableDbItems(cfg.model, ids, idField, disableField, fieldType, allow, extras, useFlush,
                                  now, rowcount);
    }
  }
}
