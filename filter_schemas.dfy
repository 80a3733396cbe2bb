/** The filter operators offered to API clients: a fixed table from title to
    comparison function, and the shape of one filter. */
module FilterSchemas {
  import opened Results
  import Store

  /** The functions the operators carry: the built-in comparisons and the
      two custom operators. */
  datatype OperatorFunction = Eq | Gt | Lt | Ge | Le | CustomBetween | CustomContains

  /** `FilterOperatorEnum`. */
  datatype FilterOperator = Equals | GreaterThan | LessThan | GreaterThanOrEqual | LessThanOrEqual | Between | Contains
  {
    /** The title, which is also the enum value. */
    function Title(): string
    {
      match this
      case Equals => "="
      case GreaterThan => ">"
      case LessThan => "<"
      case GreaterThanOrEqual => ">="
      case LessThanOrEqual => "<="
      case Between => "between"
      case Contains => "contains"
    }

    /** The `func` attribute. */
    function Func(): OperatorFunction
    {
      match this
      case Equals => Eq
      case GreaterThan => Gt
      case LessThan => Lt
      case GreaterThanOrEqual => Ge
      case LessThanOrEqual => Le
      case Between => CustomBetween
      case Contains => CustomContains
    }
  }

  const AllOperators: seq<FilterOperator> :=
    [Equals, GreaterThan, LessThan, GreaterThanOrEqual, LessThanOrEqual, Between, Contains]

  /** `FilterOperatorEnum(value)`: the operator whose value is `value`, if any. */
  function FromValue(value: string): (r: Option<FilterOperator>)
    ensures r.Some? ==> r.value.Title() == value
    ensures r.None? ==> forall op: FilterOperator :: op.Title() != value
  {
    if value == "=" then Some(Equals)
    else if value == ">" then Some(GreaterThan)
    else if value == "<" then Some(LessThan)
    else if value == ">=" then Some(GreaterThanOrEqual)
    else if value == "<=" then Some(LessThanOrEqual)
    else if value == "between" then Some(Between)
    else if value == "contains" then Some(Contains)
    else None
  }

  /** Looking an operator up by its value finds that operator: the values
      are the titles and no two titles coincide. */
  lemma FromValueRoundTrip(op: FilterOperator)
    ensures FromValue(op.Title()) == Some(op)
  {
  }

  /** The table has exactly seven operators, with pairwise distinct titles
      and pairwise distinct functions. */
  lemma OperatorTable()
    ensures forall op: FilterOperator :: op in AllOperators
    ensures |AllOperators| == 7
    ensures forall i, j :: 0 <= i < j < |AllOperators| ==> AllOperators[i].Title() != AllOperators[j].Title()
    ensures forall i, j :: 0 <= i < j < |AllOperators| ==> AllOperators[i].Func() != AllOperators[j].Func()
  {
    forall op: FilterOperator ensures op in AllOperators {
      match op
      case Equals => assert AllOperators[0] == op;
      case GreaterThan => assert AllOperators[1] == op;
      case LessThan => assert AllOperators[2] == op;
      case GreaterThanOrEqual => assert AllOperators[3] == op;
      case LessThanOrEqual => assert AllOperators[4] == op;
      case Between => assert AllOperators[5] == op;
      case Contains => assert AllOperators[6] == op;
    }
  }

  /** `FilterSchema`: a field name, a value and an operator. */
  datatype FilterSchema = FilterSchema(field: string, value: Store.Value, operator: FilterOperator)
}
