/** The permission mixin of the repositories: a rule map from method name to
    the least permission mode allowed to call it, the allow/deny decision, and
    the choice of visibility filters by caller mode. */
module Permissions {
  import opened Results
  import opened Exceptions
  import Store

  /** The permission modes, with the integer values of the source's enum. */
  datatype PermissionMode = Anyone | Anon | User | Admin | NoOne {
    function Value(): (v: int)
      ensures 1 <= v <= 5
    {
      match this
      case Anyone => 1
      case Anon => 2
      case User => 3
      case Admin => 4
      case NoOne => 5
    }
  }

  /** The method names the rule map is keyed by. */
  datatype MethodName = Create | ReadList | ReadCount | ReadDetail | Update | Delete | Disable

  type Rules = map<MethodName, PermissionMode>

  /** The rule map of the mixin itself: every method open to `Anyone`. */
  const DefaultRules: Rules := map[
    Create := Anyone, ReadList := Anyone, ReadCount := Anyone, ReadDetail := Anyone,
    Update := Anyone, Delete := Anyone, Disable := Anyone]

  /** The error a denied caller gets, keyed by the caller's mode. */
  function DenialFor(mode: PermissionMode): Option<PermissionError>
  {
    match mode
    case Anon => Some(AnonNotAllowedError)
    case User => Some(UserNotAllowedError)
    case Admin => Some(AdminNotAllowedError)
    case NoOne => Some(NoOneAllowedError)
    case Anyone => None
  }

  /** `check_permissions`: returns, or raises a permission error. */
  function CheckPermissions(rules: Rules, name: MethodName, mode: PermissionMode, ignore: bool)
    : (r: Outcome<(), Exception>)
    ensures ignore ==> r == Returned(())
    ensures !ignore && name !in rules ==> r == Raised(PermissionDenied(BasePermissionError))
    ensures !ignore && name in rules ==>
      (r.Returned? <==> mode == Anyone || mode.Value() >= rules[name].Value())
    ensures r.Raised? && name in rules ==> r.exc.PermissionDenied? && Some(r.exc.error) == DenialFor(mode)
  {
    if ignore then Returned(())
    else if name !in rules then Err(PermissionDenied(BasePermissionError)).Unwrap()
    else if mode.Value() >= rules[name].Value() then Returned(())
    else
      match DenialFor(mode)
      case Some(e) => Err(PermissionDenied(e)).Unwrap()
      case None => Returned(())
  }

  /** Whether applying a visibility filter needs a join, and the filter itself. */
  datatype Visibility = Visibility(joinRequired: bool, filters: seq<Store.Clause>)

  /** What each of the three visibility-filter properties of a repository yields. */
  datatype Providers = Providers(
    anon: Outcome<Visibility, Exception>,
    user: Outcome<Visibility, Exception>,
    admin: Outcome<Visibility, Exception>)

  /** The mixin's own properties: each raises `NotImplementedError`. */
  const BaseProviders: Providers :=
    Providers(Raised(NotImplementedError), Raised(NotImplementedError), Raised(NotImplementedError))

  /** `get_visibility_filter_from_permission`: the permission check first, then
      the provider chosen by the caller's mode. */
  function VisibilityFilterFromPermission(rules: Rules, providers: Providers, name: MethodName,
                                          mode: PermissionMode, ignore: bool)
    : (r: Outcome<Visibility, Exception>)
    ensures CheckPermissions(rules, name, mode, ignore).Raised? ==>
      r == Raised(CheckPermissions(rules, name, mode, ignore).exc)
    ensures CheckPermissions(rules, name, mode, ignore).Returned? ==>
      r == match mode
           case Anon => providers.anon
           case User => providers.user
           case Admin => providers.admin
           case _ => Returned(Visibility(false, []))
  {
    match CheckPermissions(rules, name, mode, ignore)
    case Raised(e) => Raised(e)
    case Returned(_) =>
      match mode
      case Anon => providers.anon
      case User => providers.user
      case Admin => providers.admin
      case _ => Returned(Visibility(false, []))
  }

  /** With `ignore_permissions`, nothing is ever denied, whatever the rule map holds. */
  lemma IgnoreAlwaysAllows(rules: Rules, name: MethodName, mode: PermissionMode)
    ensures CheckPermissions(rules, name, mode, true) == Returned(())
  {
  }

  /** A missing rule denies every caller with the base permission error. */
  lemma MissingRuleDenies(rules: Rules, name: MethodName, mode: PermissionMode)
    requires name !in rules
    ensures CheckPermissions(rules, name, mode, false) == Raised(PermissionDenied(BasePermissionError))
  {
  }

  /** An `Anyone` caller is never denied by a present rule: the decision falls
      through to the default case of the match. */
  lemma AnyoneNeverDenied(rules: Rules, name: MethodName)
    requires name in rules
    ensures CheckPermissions(rules, name, Anyone, false) == Returned(())
  {
  }

  /** A `NoOne` caller passes every present rule, because its value is the largest. */
  lemma NoOnePassesEveryRule(rules: Rules, name: MethodName)
    requires name in rules
    ensures CheckPermissions(rules, name, NoOne, false) == Returned(())
  {
  }

  /** The `NoOneAllowedError` branch is dead: no caller is ever denied with it. */
  lemma NoOneErrorUnreachable(rules: Rules, name: MethodName, mode: PermissionMode, ignore: bool)
    ensures CheckPermissions(rules, name, mode, ignore) != Raised(PermissionDenied(NoOneAllowedError))
  {
  }

  /** Among the modes other than `Anyone`, permission is upward closed: a caller
      with a larger value is allowed wherever a smaller one is. */
  lemma AllowedIsUpwardClosed(rules: Rules, name: MethodName, m1: PermissionMode, m2: PermissionMode)
    requires m1 != Anyone && m1.Value() <= m2.Value()
    requires CheckPermissions(rules, name, m1, false).Returned?
    ensures CheckPermissions(rules, name, m2, false).Returned?
  {
  }

  /** Upward closure fails through `Anyone`: under a rule of `User`, the
      `Anyone` caller (value 1) is allowed while the `Anon` caller (value 2) is denied. */
  lemma AnyoneOutranksAnonInEffect(rules: Rules)
    requires ReadDetail in rules && rules[ReadDetail] == User
    ensures CheckPermissions(rules, ReadDetail, Anyone, false).Returned?
    ensures CheckPermissions(rules, ReadDetail, Anon, false) == Raised(PermissionDenied(AnonNotAllowedError))
  {
  }

  /** Under the default rule map, every mode may call every method. */
  lemma DefaultRulesAllowEverything(name: MethodName, mode: PermissionMode)
    ensures CheckPermissions(DefaultRules, name, mode, false) == Returned(())
  {
  }

  /** A denial propagates before any provider is consulted: the result is the
      same whatever the providers are. */
  lemma DenialIgnoresProviders(rules: Rules, p1: Providers, p2: Providers, name: MethodName,
                               mode: PermissionMode, ignore: bool)
    requires CheckPermissions(rules, name, mode, ignore).Raised?
    ensures VisibilityFilterFromPermission(rules, p1, name, mode, ignore)
         == VisibilityFilterFromPermission(rules, p2, name, mode, ignore)
    ensures VisibilityFilterFromPermission(rules, p1, name, mode, ignore).Raised?
  {
  }

  /** On the mixin's own providers, an allowed `Anon`, `User` or `Admin` caller
      reaches `NotImplementedError`; `Anyone` and `NoOne` get no filter. */
  lemma BaseProvidersOutcome(rules: Rules, name: MethodName, mode: PermissionMode, ignore: bool)
    requires CheckPermissions(rules, name, mode, ignore).Returned?
    ensures mode in {Anon, User, Admin} ==>
      VisibilityFilterFromPermission(rules, BaseProviders, name, mode, ignore) == Raised(NotImplementedError)
    ensures mode in {Anyone, NoOne} ==>
      VisibilityFilterFromPermission(rules, BaseProviders, name, mode, ignore) == Returned(Visibility(false, []))
  {
  }
}
