# my-site-backend: data-access core in Dafny

This project models the data-access layer of the my-site backend, together with the small utilities it depends on, and proves properties about them. It covers:

- the permission mixin, which decides allow or deny per method and caller mode and selects the visibility filter;
- the base repository, which shapes its arguments and delegates to the query layer;
- the base query layer: item lookup, count, list with search, create, change, delete and disable;
- the `Ok`/`Err` result type;
- record projection (`as_dict`) and difference checks on table rows;
- the verbose HTTP error builder;
- the unit of work;
- filter-field validation and the filter operator table;
- `between`/`contains`, `has_format_brackets`, `getenv_list`/`getenv_bool`, the migration option parser and its table filter, and the watch-list score validator.

How the model is set up:

- **Statements and calls.** SQL statements are values. Every call the query layer makes on the database session (execute, add, delete, commit or flush, rollback) is appended to `Store.Session.calls`. What the database answers is passed in as a parameter: the selected rows, the count scalar, the update row count, a failure on delete or commit, and the current time.
- **Return or raise.** A Python function that either returns or raises is modelled as `Results.Outcome` (`Returned(value)` or `Raised(exc)`).
- **Equality.** Field values compare as Python's `==` does (`Store.PyEq`). Because `bool` is a subclass of `int`, `True == 1` and `False == 0`.
- **Methods versus functions.** Code that updates state in place or loops is written as methods:
  - `Queries.BaseQuery`, `Repositories.BaseRepository`, `UnitOfWork.BaseUnitOfWork` and `HttpErrors.VerboseHttpException` are classes;
  - the dictionary-filling loops of `Tables` are methods over `map`;
  - `has_format_brackets` is a method with an explicit stack.

  Each loop is proved equal to a specification function. Every other method's ensures gives its result and the new state outright. Pure code is written as functions and lemmas.
- **Permission order.** The permission modes are ordered as the code orders them: ANYONE=1, ANON=2, USER=3, ADMIN=4, NO_ONE=5. A call is allowed when `mode.value >= rule.value`. Some documentation of the project describes this order the other way round; the model follows the code.

## Model

| member | source | states |
|---|---|---|
| Results.Result.Unwrap | src/app/core/exceptions/results.py:30-32 | `Ok(v).unwrap()` returns `v`. |
| Results.Result.ErrorOf | src/app/core/exceptions/results.py:26-28 | `err()` is None exactly for `Ok`. |
| Results.Equals | src/app/core/exceptions/results.py:21-24 | Equality holds iff both have the same variant and equal payloads. |
| Results.OkNeverEqualsErr | src/app/core/exceptions/results.py:48-51 | An `Ok` never equals an `Err`, in either direction. |
| Results.UnwrapErrAgree | src/app/core/exceptions/results.py:53-59 | `Err(e).unwrap()` always raises `e`. `Err(e).err()` returns `e` without raising. `unwrap` returns exactly when `err()` is None. |
| Permissions.PermissionMode.Value | src/app/db/mixins/permissions.py:26-36 | Mode values lie between 1 and 5. |
| Permissions.CheckPermissions | src/app/db/mixins/permissions.py:73-113 | `ignore` always allows. A missing rule raises the base permission error. Otherwise the call is allowed iff the mode is ANYONE or its value is at least the rule's. A denial carries the error keyed by the caller's mode. |
| Permissions.IgnoreAlwaysAllows | src/app/db/mixins/permissions.py:83-86 | With `ignore_permissions`, the check passes for any rule map, mode and method. |
| Permissions.MissingRuleDenies | src/app/db/mixins/permissions.py:87-93 | A method without a rule is always denied with the base error. |
| Permissions.AnyoneNeverDenied | src/app/db/mixins/permissions.py:97-107 | An ANYONE caller passes every present rule. |
| Permissions.NoOnePassesEveryRule | src/app/db/mixins/permissions.py:94-96 | A NO_ONE caller passes every present rule, because its value is maximal. |
| Permissions.NoOneErrorUnreachable | src/app/db/mixins/permissions.py:103-105 | The NO_ONE denial error is never raised. |
| Permissions.AllowedIsUpwardClosed | src/app/db/mixins/permissions.py:94-96 | If a mode is allowed, every mode with a higher value is allowed too. |
| Permissions.AnyoneOutranksAnonInEffect | src/app/db/mixins/permissions.py:94-107 | Under a USER rule, ANYONE passes while ANON gets the anon error, even though ANYONE has the lower value. |
| Permissions.DefaultRulesAllowEverything | src/app/db/mixins/permissions.py:42-50 | The default rule map allows every mode for every method. |
| Permissions.VisibilityFilterFromPermission | src/app/db/mixins/permissions.py:115-138 | A denial propagates. After a pass, ANON, USER and ADMIN get their own provider's result, and every other mode gets `(False, ())`. |
| Permissions.DenialIgnoresProviders | src/app/db/mixins/permissions.py:124-129 | On denial, the result raises and does not depend on the providers. |
| Permissions.BaseProvidersOutcome | src/app/db/mixins/permissions.py:52-71 | The base providers raise NotImplementedError for ANON, USER and ADMIN. ANYONE and NO_ONE get `(False, ())`. |
| Queries.BaseQuery.constructor | src/app/db/queries/base.py:47-48 | The query object keeps the session it is given. |
| Queries.BaseQuery.ResolveJoins | src/app/db/queries/base.py:50-66 | Each join is appended to the statement in order, as a model join, an on-clause join, or an on-clause join with keyword arguments. |
| Queries.JoinAll | src/app/db/queries/base.py:55-65 | Joins are applied one to one and in order. |
| Queries.BaseQuery.AddOptions | src/app/db/queries/base.py:206-209 | Loader options are appended to the statement. |
| Queries.BaseQuery.MakeDisableFilters | src/app/db/queries/base.py:68-108 | Agrees with `DisableFilters`. |
| Queries.DisableFilters | src/app/db/queries/base.py:101-108 | The filters come in this order: id membership first; then `is_(False)` for bool or `is_(None)` for datetime, only when allowed; then the extra filters. |
| Queries.DisableFiltersSelect | src/app/db/queries/base.py:101-108 | A row passes the disable filters iff its id is a non-null member of the id set, its disable field is still false or null (when allowed), and every extra filter holds. |
| Queries.DisabledRowsNotReselected | src/app/db/queries/base.py:495-506 | A row that already holds the written disable value is not selected again when value filtering is on. |
| Queries.DateTimeSubclassReselects | src/app/db/queries/base.py:100-108 | For a subclass of `datetime`, no value filter is added, so an already-disabled row is selected again. |
| Queries.IdentityFilter | src/app/db/queries/base.py:133-165 | A field that is not a column raises ValueError. Otherwise the filter is equality on that field. |
| Queries.IdentityFilterSelects | src/app/db/queries/base.py:161-165 | The identity filter selects exactly the rows whose field equals the identity. |
| Queries.BaseQuery.MakeSearchFilter | src/app/db/queries/base.py:110-131 | Agrees with `SearchFilter`, whatever `use_and_clause` is. |
| Queries.SearchFilter | src/app/db/queries/base.py:120-131 | A string target that is not a column raises ValueError. Otherwise the filter is an OR of one `ilike` per target, in order. |
| Queries.SearchFilterSelects | src/app/db/queries/base.py:125-131 | A row passes the escaped search filter iff some target's value contains the search text, case-insensitively. |
| SearchPatterns.ReEscape | src/app/db/queries/base.py:298 | Characters that are not special are kept unchanged. |
| SearchPatterns.SearchPattern | src/app/db/queries/base.py:125 | The pattern is the escaped text wrapped in `%...%`. |
| SearchPatterns.EscapedIsLiteral | src/app/db/queries/base.py:297-299 | After both escaping steps, the search text matches only itself, character for character, in LIKE. |
| SearchPatterns.SearchPatternMatchesOccurrence | src/app/db/queries/base.py:297-300 | The wrapped, escaped pattern LIKE-matches a value iff the search text occurs in it. |
| SearchPatterns.SearchFindsOccurrences | src/app/db/queries/base.py:297-300 | The ILIKE search matches iff the lower-cased text occurs in the lower-cased value. |
| Queries.ItemStatement | src/app/db/queries/base.py:205-217 | The identity filter's error propagates. Otherwise the select carries the joins, the options, and the filters followed by the identity filter. |
| Queries.BaseQuery.GetDbItem | src/app/db/queries/base.py:167-219 | A ValueError occurs before anything is executed. Otherwise exactly one execute is logged, and the result is the first row or None. |
| Queries.CountStatement | src/app/db/queries/base.py:244-249 | A counting select over the joins and filters, with no options, order or paging. |
| Queries.BaseQuery.GetDbItemsCount | src/app/db/queries/base.py:221-253 | One execute is logged. The count is the scalar, and 0 when the scalar is None. |
| Queries.ListStatement | src/app/db/queries/base.py:296-314 | Search applies only when both the search text and the targets are given. The escaped search filter then comes before the caller filters. |
| Queries.BaseQuery.GetDbItemList | src/app/db/queries/base.py:255-314 | A search ValueError occurs before anything is executed. Otherwise one execute is logged and the rows are returned. |
| Queries.BaseQuery.ShapeList | src/app/db/queries/base.py:301-313 | The list statement holds the joins, the options, the where clauses followed by the filters, the order and the paging. |
| Queries.KeywordRefusal | src/app/db/queries/base.py:340-344 | The model's constructor raises TypeError exactly for a keyword naming no attribute of the class. It assigns exactly the columns and the attributes that are not read-only properties. It raises AttributeError for a read-only property. |
| Queries.ConstructorAcceptsSettable | src/app/db/queries/base.py:340-344 | The constructor accepts a set of keywords iff every one names a column or a settable class attribute. No keywords are always accepted. |
| Queries.BaseQuery.CreateItem | src/app/db/queries/base.py:316-356 | If the constructor accepts every keyword, a fresh item holding exactly the data is added, then committed or flushed. Otherwise the call raises the error the constructor gives for one of the refused keywords and logs nothing. |
| Queries.BaseQuery.AssignFields | src/app/db/queries/base.py:392-401 | With no refused write among the filtered params, the record is the old one with every assigned field written, and the flag is true iff one of those fields held a value not `==` to the new one. A write to a property without a setter raises AttributeError. The fields written before it keep their new values, and none of them is refused. |
| Queries.BaseQuery.ChangeDbItem | src/app/db/queries/base.py:358-413 | Without a refused write, the record becomes `Changed(old record)`, one commit or flush is logged, and the result is the flag `IsUpdated(old record)` with the same item. With a write to a property without a setter, AttributeError is raised and nothing is flushed or committed. Some of the other assigned fields may already be written. |
| Queries.ChangeWritesOnlyAssigned | src/app/db/queries/base.py:389-401 | Assigned fields take the data's value. Every other field, including fields not in `data`, keeps its old value or stays absent. |
| Queries.NoneHandling | src/app/db/queries/base.py:389-398 | A non-None value is always assigned. A None value is assigned iff `set_none` holds and the field is allowed (`'*'`, listed, or a substring of a plain string). |
| Queries.UpdatedIffRecordChanged | src/app/db/queries/base.py:399-400 | The updated flag is true iff some field's value after the change is not `==` to its value before, counting an absent field as None. |
| Queries.BoolIntWriteNotUpdated | src/app/db/queries/base.py:399-401 | Writing `1` over `True` stores the new value but reports no update, because Python finds `True == 1`. |
| Store.PyEqMeaning | src/app/db/queries/base.py:399 | Field values compare as in Python: same-kind values are equal iff identical, and across kinds only a bool and the integer it stands for are equal. `None` equals no number and no string. |
| Queries.ChangeIdempotent | src/app/db/queries/base.py:388-413 | A second change with the same data leaves the record as it is and reports no update. |
| Queries.TextAllowsSubstrings | src/app/db/queries/base.py:393-398 | A plain string as `allowed_none_fields` allows every field name that occurs in it, where a list of the same names allows only those names. The string `'*'` allows every field. |
| Queries.Params | src/app/db/queries/base.py:389-392 | Without `set_none`, the None entries are dropped and the other entries are kept unchanged. |
| Queries.FilteredParamsAgree | src/app/db/queries/base.py:389-401 | Looping over the filtered parameters gives the same record and the same flag as the specification over all of `data`. |
| Queries.BaseQuery.DeleteDbItem | src/app/db/queries/base.py:415-447 | Returns True iff nothing fails. A failure on delete or on commit logs exactly one rollback. |
| Queries.DisableValue | src/app/db/queries/base.py:495-504 | A field type that is neither bool nor datetime raises TypeError. Bool writes True, and datetime (or a subclass) writes the current time. |
| Queries.BaseQuery.DisableDbItems | src/app/db/queries/base.py:449-540 | The steps run in this order: a TypeError for a bad field type (even with no ids); 0 with nothing logged for an empty id set; otherwise one update statement and a commit or flush. The result is the row count, or 0 when there is none. |
| Repositories.InitSubclass | src/app/db/repositories/base.py:81-111 | With `model_class` set, nothing is checked. Otherwise the call succeeds iff the two generic arguments are a table class and a query class, and any failure becomes `RepositorySubclassNotSetAttributeError`. |
| Repositories.DeriveClasses | src/app/db/repositories/base.py:91-107 | The classes are derived exactly when there are two concrete generic arguments of the right kinds. |
| Repositories.BaseRepository.constructor | src/app/db/repositories/base.py:67-79 | The repository keeps its configuration and builds its query object on the given session. |
| Repositories.GetPlan | src/app/db/repositories/base.py:151-171 | The read_detail check and visibility come first. BRIEF empties the visibility filters iff a join is required, and drops joins and options. The filters are the visibility filters followed by the extra filters. |
| Repositories.BriefGetDropsJoinedVisibility | src/app/db/repositories/base.py:157-161 | In BRIEF mode, `get` passes no joins or options, and keeps the visibility filters only when no join is required. |
| Repositories.VerboseGetKeepsVisibility | src/app/db/repositories/base.py:157-161 | With VERBOSE and no joins, `get` keeps join-requiring visibility filters that `count` would drop. |
| Repositories.KeptVisibility | src/app/db/repositories/base.py:206-209 | The visibility filters are dropped iff a join is required and the caller gave no joins. |
| Repositories.CountPlan | src/app/db/repositories/base.py:200-214 | The read_count check comes first. Then come the caller filters followed by the kept visibility filters, with the joins unchanged. |
| Repositories.ListPlan | src/app/db/repositories/base.py:270-293 | The read_list check comes first. The filters are the caller filters followed by the kept visibility filters. BRIEF clears joins and options, and every other argument is forwarded unchanged. |
| Repositories.BriefListKeepsVisibilityButDropsJoins | src/app/db/repositories/base.py:276-282 | In BRIEF mode with caller joins, `list` keeps the visibility filters but discards the joins and options. |
| Repositories.ListDenialIgnoresArguments | src/app/db/repositories/base.py:270-275 | A denied `list` raises the check's error, whatever the other arguments are. |
| Repositories.BaseRepository.Get | src/app/db/repositories/base.py:113-172 | On denial, the error is returned and no query runs. Otherwise the query layer's `get_db_item` runs on the planned arguments. |
| Repositories.BaseRepository.Count | src/app/db/repositories/base.py:174-215 | On denial, the error is returned and no query runs. Otherwise one count executes on the planned arguments, and None becomes 0. |
| Repositories.BaseRepository.List | src/app/db/repositories/base.py:217-294 | On denial, the error is returned and no query runs. Otherwise `get_db_item_list` runs on the planned arguments. |
| Repositories.BaseRepository.Create | src/app/db/repositories/base.py:296-335 | The create check comes first, and a denial logs nothing. Then `create_item` runs with the model class and the unchanged arguments: a fresh item with exactly the data when the constructor accepts every keyword, otherwise one of the constructor's refusals. |
| Repositories.BaseRepository.Update | src/app/db/repositories/base.py:337-386 | The update check comes first, and a denial leaves the record and the session untouched. Otherwise the outcome of `change_db_item` is returned as it is: the flag and the item after a commit or flush, or AttributeError with nothing committed for a write to a property without a setter. |
| Repositories.BaseRepository.Disable | src/app/db/repositories/base.py:388-446 | The disable check comes first, then `disable_db_items` with its whole effect. |
| Tables.Step | src/app/core/models/tables/base.py:36-40 | A missing attribute yields None. |
| Tables.WalkAppend | src/app/core/models/tables/base.py:36-41 | Walking a dotted path is walking its parts one after the other. |
| Tables.WalkFromNone | src/app/core/models/tables/base.py:36-41 | Once a segment is missing, the rest of the path stays None. |
| Tables.MissingSegmentYieldsNone | src/app/core/models/tables/base.py:36-41 | A missing segment anywhere in the path gives None, never an error. |
| Tables.CallableIsInvoked | src/app/core/models/tables/base.py:39-40 | A callable attribute is replaced by its call's result. |
| Tables.GetModelAttr | src/app/core/models/tables/base.py:27-41 | The loop computes `Lookup` on the dot-split path. |
| Tables.IncludeSnoc | src/app/core/models/tables/base.py:58-67 | Including one more name adds that name mapped to its own attribute. |
| Tables.ReplaceAdd | src/app/core/models/tables/base.py:84-93 | Adding one more alias maps it to the target attribute's value. |
| Tables.AddByIncludes | src/app/core/models/tables/base.py:43-67 | The dict becomes the old dict overwritten by every included name's attribute. |
| Tables.Replace | src/app/core/models/tables/base.py:69-93 | The dict becomes the old dict overwritten by every alias mapped to its target's attribute. |
| Tables.AsDict | src/app/core/models/tables/base.py:95-116 | Computes `Projection`: the includes (or their defaults) and then the aliases (or their defaults). |
| Tables.ProjectionContents | src/app/core/models/tables/base.py:109-116 | The keys are exactly the effective includes and aliases. An alias maps to its target's value and wins over an include of the same name; an include maps to its own value. |
| Tables.ProjectionWithoutFields | src/app/core/models/tables/base.py:109-116 | With no arguments and no defaults, the projection is `{}`. |
| Tables.ProjectionKeysIgnoreValues | src/app/core/models/tables/base.py:109-116 | Two rows of the same table project onto the same keys. |
| Tables.DictDiffersIffNotContained | src/app/core/models/tables/base.py:130-136 | A record differs from a dict iff the dict is not contained in the record's attributes, with both sides' values read as Python compares them. |
| Tables.BoolMatchesInt | src/app/core/models/tables/base.py:130-136 | A record holding `True` does not differ from `{field: 1}` but does differ from `{field: 2}`. |
| Tables.IsDictDifferentFrom | src/app/core/models/tables/base.py:118-136 | True iff some key is missing from what `getattr` finds on the record, or holds a value not `==` to the record's. An empty dict gives False. |
| Tables.IsSchemaDifferentFrom | src/app/core/models/tables/base.py:138-151 | A schema is compared through its dumped dict. |
| Tables.SameKeysDiffer | src/app/core/models/tables/base.py:172-181 | Two projections with the same keys differ, as Python compares their values, iff they differ on one of the other projection's keys. |
| Tables.IsModelDifferentFrom | src/app/core/models/tables/base.py:153-181 | False when the exact tables differ. Otherwise true iff the two projections under the same arguments differ, with values compared as in Python. |
| Tables.IsDifferentFrom | src/app/core/models/tables/base.py:183-212 | Dispatch runs schema, then an instance of the class, then a dict. Anything else raises TypeError. |
| Tables.SubclassRecordNeverDiffers | src/app/core/models/tables/base.py:172-174 | A record of a subclass passes the instance check but is never reported as different. |
| HttpErrors.Rendered | src/app/core/exceptions/http/base.py:111-115 | A `$` template uses `safe_substitute`, a str template uses `format`, and with no template the message is kept. |
| HttpErrors.RenderedForgetsMessage | src/app/core/exceptions/http/base.py:111-114 | With a template, the old message has no influence on the result. |
| HttpErrors.RenderedIdempotent | src/app/core/exceptions/http/base.py:111-115 | Rendering twice with the same mapping is rendering once. |
| HttpErrors.VerboseHttpException.constructor | src/app/core/exceptions/http/base.py:42-64 | A truthy `attr_name` is stored in `attr_name`, not `attr`. Given values override the class loc and template. A `message` kwarg replaces the class message, and a non-empty mapping then renders the template over it. |
| HttpErrors.VerboseHttpException.Str | src/app/core/exceptions/http/base.py:82-86 | `str()` is the current message. |
| HttpErrors.VerboseHttpException.FromTemplate | src/app/core/exceptions/http/base.py:88-115 | Only the message changes, to the rendered template, and the same object is returned. |
| HttpErrors.VerboseHttpException.WithAttr | src/app/core/exceptions/http/base.py:117-135 | Only `attr` changes, to the name, and the same object is returned. |
| HttpErrors.VerboseHttpException.WithLoc | src/app/core/exceptions/http/base.py:137-155 | Only `loc` changes, and the same object is returned. |
| HttpErrors.VerboseHttpException.AsDict | src/app/core/exceptions/http/base.py:157-192 | The template is applied for a non-empty mapping, then a truthy attr name and a truthy loc. The dict holds exactly code, type, message, loc and attr. |
| HttpErrors.ConstructorAttrNameNotReported | src/app/core/exceptions/http/base.py:52-53 | An `attr_name` given to the constructor does not reach `as_dict()['attr']`. |
| HttpErrors.ChainedBuilder | src/app/core/exceptions/http/base.py:111-135 | `from_template` and then `with_attr` produce the rendered message and the name as `attr`. |
| UnitOfWork.BaseUnitOfWork.constructor | src/app/db/unit_of_works/base.py:21-25 | After construction there is no session. |
| UnitOfWork.BaseUnitOfWork.Enter | src/app/db/unit_of_works/base.py:27-32 | Enter stores a fresh session, hands the same session to the repositories, and returns itself. |
| UnitOfWork.BaseUnitOfWork.Commit | src/app/db/unit_of_works/base.py:51-56 | With a session, exactly one commit is forwarded. Without one, nothing changes. |
| UnitOfWork.BaseUnitOfWork.Rollback | src/app/db/unit_of_works/base.py:58-63 | With a session, exactly one rollback is forwarded. Without one, nothing changes. |
| UnitOfWork.BaseUnitOfWork.Close | src/app/db/unit_of_works/base.py:65-70 | With a session, exactly one close is forwarded. Without one, nothing changes. |
| UnitOfWork.BaseUnitOfWork.Exit | src/app/db/unit_of_works/base.py:34-44 | Exit runs rollback and then close, whether or not an exception occurred, and never suppresses it. |
| UnitOfWork.WithBlock | src/app/db/unit_of_works/base.py:27-44 | An `async with` block logs the body's calls followed by rollback and close. |
| UnitOfWork.UnitOfWorkAsWritten.Commit | src/app/db/unit_of_works/base.py:19-25 | As written, committing with no session bound raises AttributeError. |
| UnitOfWork.CommitWithoutEnterAsWritten | src/app/db/unit_of_works/base.py:51-56 | `commit` before `__aenter__` raises AttributeError as written. |
| UnitOfWork.CommitWithoutEnter | src/app/db/unit_of_works/base.py:51-70 | Corrected version: commit, rollback and close before entering are no-ops. |
| AdvancedFilters.InvalidFieldReason | src/app/db/extras/filters.py:54-59 | The reason names the offending field. |
| AdvancedFilters.AvailableFields | src/app/db/extras/filters.py:50-51 | The available fields are the columns plus the extra mapping's keys, with None counting as empty. |
| AdvancedFilters.FirstInvalid | src/app/db/extras/filters.py:52-60 | Finds the first filter, in list order, whose field is not available. |
| AdvancedFilters.ValidateFilterFields | src/app/db/extras/filters.py:28-60 | None iff every field is available. Otherwise `Err(InvalidFilterFieldError)` for the first bad filter. |
| AdvancedFilters.NoFiltersValid | src/app/db/extras/filters.py:52-60 | An empty filter list is valid. |
| AdvancedFilters.FirstErrorWins | src/app/db/extras/filters.py:52-60 | Filters after the first bad one do not change the error. |
| AdvancedFilters.FirstInvalidPrefix | src/app/db/extras/filters.py:52-60 | The first bad position is stable under appending. |
| AdvancedFilters.ExtraFieldsOnlyWiden | src/app/db/extras/filters.py:50-51 | An extra field mapping never makes a valid list invalid. |
| FilterSchemas.FromValue | src/app/core/schemas/classes/filters.py:32-40 | Looking up a value gives the operator whose title it is, or none. |
| FilterSchemas.FromValueRoundTrip | src/app/core/schemas/classes/filters.py:37-38 | Every operator's value is its title, and lookup by title gives that operator back. |
| FilterSchemas.OperatorTable | src/app/core/schemas/classes/filters.py:24-30 | There are exactly seven operators, with pairwise distinct titles and functions. |
| Operators.DoNothing | src/app/utils/operators.py:14-16 | Returns None for any arguments. |
| Operators.ReturnValue | src/app/utils/operators.py:19-21 | Returns its argument. |
| Operators.Between | src/app/utils/operators.py:44-61 | False unless there are exactly two bounds. Then it is the inclusive test `b[0] <= a <= b[1]`. |
| Operators.Contains | src/app/utils/operators.py:84-93 | Sequence membership. |
| Operators.BetweenIsInclusive | src/app/utils/operators.py:50-61 | Both bounds are inside the range, and the neighbours just outside are not. |
| Operators.BetweenEmptyRange | src/app/utils/operators.py:61 | Reversed bounds accept nothing. |
| Operators.BetweenIsContainsOnRange | src/app/utils/operators.py:44-93 | For all bounds, `between` with `[lo, hi]` agrees with `contains` over every integer from `lo` to `hi`. The range is empty when `lo > hi`. |
| Strings.NestIffClosesInOrder | src/app/utils/strings.py:28-41 | The stack reading of balance equals the counting one: no prefix closes more than it opened, and the totals agree. |
| Strings.NoBracesNoFields | src/app/utils/strings.py:42-50 | A string without `{` returns False. |
| Strings.HasFormatBrackets | src/app/utils/strings.py:28-50 | The stack loop decides `FormatBrackets`: balanced, not all braces doubled (counted without overlap), and equal counts. A True result implies balanced and equal counts. |
| Strings.FieldWithoutBraces | src/app/utils/strings.py:28-50 | Any `'{name}'` whose name holds no braces returns True: it is balanced, has one undoubled `{` and `}`, and its counts agree. |
| Strings.EmptyFieldExample | src/tests/test_utils/test_strings_utils.py:9 | `'{}'` is True. |
| Strings.NamedFieldExample | src/app/utils/strings.py:21-22 | `'{some_var}'` is True. |
| Strings.NoFieldExamples | src/tests/test_utils/test_strings_utils.py:11-16 | `'{}}'`, `'{{}}'`, `'}{'` and `'}}{{'` are False. |
| Strings.UnclosedExample | src/tests/test_utils/test_strings_utils.py:13 | `'{{{{{{}}}{{}{}}'` is False. |
| Text.StrippedNonEmptyTokens | src/app/utils/env.py:30-31 | Every piece kept after stripping is non-empty and starts and ends with a non-space character. |
| Text.StrippedNonEmptyAppend | src/app/utils/env.py:30-31 | Order is kept: stripping a concatenation is the concatenation of the stripped parts. |
| Env.EnvValue | src/app/utils/env.py:27 | The default is used when the key is unset. |
| Env.GetenvList | src/app/utils/env.py:10-31 | A value with no separator that is not alphanumeric gives `[]`. An empty separator raises ValueError. Otherwise the result is the stripped, non-empty pieces of the stripped value, in order. |
| Env.ListElementsStripped | src/app/utils/env.py:30-31 | Every element is non-empty and has no whitespace at either end. |
| Env.EmptyValueEmptyList | src/app/utils/env.py:28-29 | An unset or empty variable reads as `[]`. |
| Env.AlnumValueSingleton | src/app/utils/env.py:28-31 | An alphanumeric value without the separator reads as a one-element list. |
| Env.GetenvBool | src/app/utils/env.py:34-49 | True iff the lower-cased value, or the default, is `1`, `true` or `yes`. |
| Env.BoolSpellings | src/app/utils/env.py:49 | Case does not matter. `0`, `on` and an unset key with an empty default read as false. |
| Migrations.ConfigVariableAsList | src/migrations/env.py:38-56 | None for an absent option. Otherwise the tokens from splitting on newlines and then commas. |
| Migrations.LineTokens | src/migrations/env.py:56 | Every token is non-empty and stripped. |
| Migrations.LineTokensAppend | src/migrations/env.py:56 | Tokens keep the order of the lines. |
| Migrations.TokensHaveNoComma | src/migrations/env.py:56 | No token contains a comma. |
| Migrations.IsObjectIncluded | src/migrations/env.py:62-80 | Everything is included without an exclude list, and every non-table object is included. A table is included iff it is not listed. |
| Migrations.ExcludedTablesFromOptions | src/migrations/env.py:59-80 | A table is left out of migrations iff it is one of the `exclude_tables` tokens. |
| Validators.ValidateScore | src_backend/app/core/models/validators/watch_list.py:5-18 | Accepts iff 0 <= value <= 10. Otherwise it raises ValidationError carrying the value. |
| Validators.AcceptedScores | src_backend/app/core/models/validators/watch_list.py:17-18 | Exactly the scores 0 to 10 are accepted; -1 and 11 are rejected. |

## Left out

- **SQL semantics and I/O.** SQL generation, async session I/O and ORM loading are not modelled. Statements are values and session calls are a log. The database's answers (rows, scalar, rowcount, failures) are parameters.
- **Row counts.** The `rowcount` / `CursorResult` check in `disable_db_items` is a parameter (`Option<int>`, with None read as 0).
- **`disable_db_items` attribute errors.** The AttributeError branch for missing id or disable fields (src/app/db/queries/base.py:507-529) is not modelled. Fields are plain names and their absence is not checked.
- **Library functions.**
  - The current UTC time is a parameter.
  - `Template.safe_substitute` and `str.format` are parameters (`HttpErrors.Renderers`). The KeyError that `format` can raise is not modelled.
  - `re.escape` is written out for the ASCII special set.
  - SQLAlchemy's default declarative constructor is written out as `Queries.KeywordRefusal`. Each model class lists its columns, its other class attributes and its read-only properties, such as `created_at_date` of the time mixin (src/app/core/models/mixins/time.py:54-55).
  - Lower-casing and `isalnum` are ASCII-only: `Text.AsciiLower`, `Text.IsAlnum`.
- **LIKE patterns.** The LIKE matcher (`SearchPatterns.Like`) treats `\` as escaping the next character, `%` as any run and `_` as any one character. A lone backslash at the end of a pattern is matched literally.
- **Relationships and expressions.** Relationship attributes and column expressions are tokens whose truth and values come from an evaluator parameter.
- Queries.BaseQuery.ChangeDbItem: the old value behind the updated flag is read from the record's own fields. `getattr` would also find a class attribute or method of that name, so `Queries.BaseQuery.AssignFields` can report no update where the source reports one. Which fields are already written when a write is refused depends on dict order; the contract says only that they are some of the non-refused assigned fields.
- Tables.IsDictDifferentFrom: objects and callables found on a record compare structurally, where Python compares most objects by identity. `Tables.IsModelDifferentFrom` compares them the same way.
- Queries.BaseQuery.CreateItem: when keywords are refused for different reasons, the contract promises the error of one of them, not the one dict order would reach first, because data maps are unordered here.
- Repositories.BaseRepository.Create: inherits that looser promise from `create_item`.
- **Join tuples of other lengths.** `Store.Join` has only three shapes: a bare target, a pair, and a triple with keyword arguments. A one-element tuple, which makes unpacking raise ValueError, is not modelled. Nor is a tuple of four or more, whose extra items make `_resolve_joins` drop the keyword arguments (src/app/db/queries/base.py:58-63).
- **`Repositories.DeriveClasses`.** The TypeErrors for generic arguments that are not classes are merged into one well-formedness predicate over the argument kinds.
- **`Tables.Step`.** Attribute lookup on a built-in scalar (for example `.real` on an int) yields None in the model. Callables that raise are not modelled.
- **`HttpErrors.VerboseHttpException`.** The abstract-property fallback of `_get_attribute` and `__repr__` is not modelled; class defaults are given as a value.
- **`UnitOfWork.BaseUnitOfWork.Exit`.** The exception is only observed (it is not suppressed); logging it is not modelled.
- **`Operators.Between`, `Operators.Contains`.** Only the Python mode is modelled; the SQLAlchemy mode returns expressions.
- **`getenv_int`.** Not modelled, because it parses floating-point numbers.
- **Logging.** Not modelled anywhere; it has no bearing on results.
- **Filter schemas.** Values are `Store.Value`. Pydantic validation of the schema is not modelled.

## Findings

| source | as written | input that shows it | evidently intended | confidence | as-written member | corrected member |
|---|---|---|---|---|---|---|
| src/app/db/unit_of_works/base.py:19-70 | `session` is only annotated and never assigned in `__init__`, so `if self.session` in `commit`/`rollback`/`close` raises AttributeError before `__aenter__` | a fresh unit of work, then `commit()` without entering | the falsy-session branch returns without doing anything, as the method comments say | not executed | UnitOfWork.CommitWithoutEnterAsWritten | UnitOfWork.CommitWithoutEnter |
