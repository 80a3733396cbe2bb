/** Validation of client-supplied filters against the fields a model offers:
    its columns plus any extra field mapping. */
module AdvancedFilters {
  import opened Results
  import opened FilterSchemas

  /** The invalid-filter-field error, filled from its template with the reason. */
  datatype FilterError = InvalidFilterFieldError(reason: string)

  /** The reason naming the offending field and the table. */
  function InvalidFieldReason(field: string, tableName: string): (r: string)
    ensures |r| > 6 + |field| && r[..6] == "поле \"" && r[6..6 + |field|] == field
  {
    "поле \"" + field + "\" не присутствует в таблице " + tableName
      + " или нет правила для наложения строки на поле связанной сущности."
  }

  /** The fields a filter may name: the columns, then the extra mapping's keys
      (`None` counting as an empty mapping). */
  function AvailableFields(columns: seq<string>, extraKeys: Option<seq<string>>): (r: seq<string>)
    ensures forall f :: f in r <==> f in columns || (extraKeys.Some? && f in extraKeys.value)
  {
    columns + (if extraKeys.Some? then extraKeys.value else [])
  }

  /** The position of the first filter whose field is not available, if any. */
  function FirstInvalid(filters: seq<FilterSchema>, available: seq<string>): (r: Option<nat>)
    ensures r.None? <==> forall i :: 0 <= i < |filters| ==> filters[i].field in available
    ensures r.Some? ==>
              r.value < |filters| && filters[r.value].field !in available
              && forall j :: 0 <= j < r.value ==> filters[j].field in available
  {
    if |filters| == 0 then None
    else if filters[0].field !in available then Some(0)
    else
      match FirstInvalid(filters[1..], available)
      case None => None
      case Some(k) => Some(k + 1)
  }

  /** Whether filter `i` names an unavailable field and every filter before it is fine. */
  predicate FirstBad(filters: seq<FilterSchema>, available: seq<string>, i: int)
  {
    0 <= i < |filters| && filters[i].field !in available
    && forall j :: 0 <= j < i ==> filters[j].field in available
  }

  /** `validate_filter_fields`: `None` when every filter names an available
      field, otherwise `Err` for the first filter, in list order, that does not. */
  function ValidateFilterFields(columns: seq<string>, tableName: string, filters: seq<FilterSchema>,
                                extraKeys: Option<seq<string>>): (r: Option<Result<(), FilterError>>)
    ensures var available := AvailableFields(columns, extraKeys);
      (r.None? <==> forall i :: 0 <= i < |filters| ==> filters[i].field in available)
      && (r.Some? ==>
            r.value.Err?
            && exists i :: FirstBad(filters, available, i)
                           && r.value.error == InvalidFilterFieldError(InvalidFieldReason(filters[i].field, tableName)))
  {
    match FirstInvalid(filters, AvailableFields(columns, extraKeys))
    case None => None
    case Some(i) => Some(Err(InvalidFilterFieldError(InvalidFieldReason(filters[i].field, tableName))))
  }

  /** An empty filter list is always valid. */
  lemma NoFiltersValid(columns: seq<string>, tableName: string, extraKeys: Option<seq<string>>)
    ensures ValidateFilterFields(columns, tableName, [], extraKeys).None?
  {
  }

  /** Adding filters after an invalid one does not change the error reported. */
  lemma FirstErrorWins(columns: seq<string>, tableName: string, filters: seq<FilterSchema>,
                       more: seq<FilterSchema>, extraKeys: Option<seq<string>>)
    requires ValidateFilterFields(columns, tableName, filters, extraKeys).Some?
    ensures ValidateFilterFields(columns, tableName, filters + more, extraKeys)
         == ValidateFilterFields(columns, tableName, filters, extraKeys)
  {
    var available := AvailableFields(columns, extraKeys);
    FirstInvalidPrefix(filters, more, available);
  }

  /** The first invalid filter of a list is still the first after appending more. */
  lemma {:induction false} FirstInvalidPrefix(filters: seq<FilterSchema>, more: seq<FilterSchema>, available: seq<string>)
    requires FirstInvalid(filters, available).Some?
    ensures FirstInvalid(filters + more, available) == FirstInvalid(filters, available)
  {
    if filters[0].field !in available {
      assert (filters + more)[0] == filters[0];
    } else {
      assert (filters + more)[1..] == filters[1..] + more;
      FirstInvalidPrefix(filters[1..], more, available);
    }
  }

  /** An extra field mapping can only turn errors into successes. */
  lemma ExtraFieldsOnlyWiden(columns: seq<string>, tableName: string, filters: seq<FilterSchema>,
                             extraKeys: seq<string>)
    requires ValidateFilterFields(columns, tableName, filters, None).None?
    ensures ValidateFilterFields(columns, tableName, filters, Some(extraKeys)).None?
  {
  }
}
