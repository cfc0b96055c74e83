/** The interceptor registry: a map from processing category to the ordered list
    of interceptors registered under it. */
module Registry {
  import opened Common

  /** How `SingleOrDefault` ends on the known categories a type implements:
      one match, none (a null category), or several (an exception). */
  datatype Resolution<C> = Unique(category: C) | NoMatch | Ambiguous

  /** The known categories, in list order, that a type implementing the
      categories `implemented` is assignable to. */
  function Matches<C(==,!new)>(known: seq<C>, implemented: set<C>): (m: seq<C>)
    ensures |m| <= |known|
    ensures forall c :: c in m <==> c in known && c in implemented
  {
    if known == [] then []
    else (if known[0] in implemented then [known[0]] else []) + Matches(known[1..], implemented)
  }

  /** Category resolution of a type, as `GetInterceptorType` does it. */
  function Resolve<C(==,!new)>(known: seq<C>, implemented: set<C>): (r: Resolution<C>)
    ensures r.Unique? <==> |Matches(known, implemented)| == 1
    ensures r.NoMatch? <==> forall c :: c in known ==> c !in implemented
    ensures r.Unique? ==> r.category in known && r.category in implemented
  {
    var m := Matches(known, implemented);
    assert |m| > 0 ==> m[0] in m;
    if |m| == 0 then NoMatch else if |m| == 1 then Unique(m[0]) else Ambiguous
  }

  predicate Distinct<C(==,!new)>(s: seq<C>) {
    forall i, j :: 0 <= i < j < |s| ==> s[i] != s[j]
  }

  /** When the known list has no repetitions, a type implementing exactly one
      known category resolves to that category. */
  lemma {:induction false} MatchesSingle<C(!new)>(known: seq<C>, implemented: set<C>, c: C)
    requires Distinct(known) && c in known && c in implemented
    requires forall d :: d in known && d in implemented ==> d == c
    ensures Matches(known, implemented) == [c]
  {
    if known[0] == c {
      assert forall d :: d in known[1..] ==> d != c;
      NoMatches(known[1..], implemented);
    } else {
      MatchesSingle(known[1..], implemented, c);
    }
  }

  lemma {:induction false} NoMatches<C(!new)>(known: seq<C>, implemented: set<C>)
    requires forall d :: d in known ==> d !in implemented
    ensures Matches(known, implemented) == []
  {
    if known != [] {
      NoMatches(known[1..], implemented);
    }
  }

  lemma ResolveUnique<C(!new)>(known: seq<C>, implemented: set<C>, c: C)
    requires Distinct(known) && c in known && c in implemented
    requires forall d :: d in known && d in implemented ==> d == c
    ensures Resolve(known, implemented) == Unique(c)
  {
    MatchesSingle(known, implemented, c);
  }

  /** A type implementing two different known categories cannot be filed. */
  lemma ResolveAmbiguous<C(!new)>(known: seq<C>, implemented: set<C>, c: C, d: C)
    requires c != d && c in known && d in known && c in implemented && d in implemented
    ensures Resolve(known, implemented) == Ambiguous
  {
    var m := Matches(known, implemented);
    assert c in m && d in m;
  }

  /** The list registered under category `c`; an absent category has an empty list. */
  function Lookup<C(==,!new), I>(m: map<C, seq<I>>, c: C): seq<I> {
    if c in m then m[c] else []
  }

  /** `RegisterInterceptor` on the dictionary's value: resolve, then append to
      the category's list, creating it when absent. */
  function Register<C(==,!new), I>(known: seq<C>, m: map<C, seq<I>>, x: I, implemented: set<C>)
    : (r: Result<map<C, seq<I>>>)
    ensures r.Ok? <==> Resolve(known, implemented).Unique?
    ensures r.Ok? ==> var c := Resolve(known, implemented).category;
      r.value.Keys == m.Keys + {c}
      && Lookup(r.value, c) == Lookup(m, c) + [x]
      && forall d :: d != c ==> Lookup(r.value, d) == Lookup(m, d)
  {
    match Resolve(known, implemented)
    case Unique(c) => Ok(m[c := Lookup(m, c) + [x]])
    case NoMatch => Err(ArgumentNull)
    case Ambiguous => Err(InvalidOperation("Sequence contains more than one matching element"))
  }

  /** `GetInterceptors<T>` on the dictionary's value: the list of T's category,
      or an empty sequence when nothing was registered under it. */
  function Query<C(==,!new), I>(known: seq<C>, m: map<C, seq<I>>, implemented: set<C>): (r: Result<seq<I>>)
    ensures r.Ok? <==> Resolve(known, implemented).Unique?
    ensures r.Ok? && Resolve(known, implemented).category !in m ==> r.value == []
  {
    match Resolve(known, implemented)
    case Unique(c) => Ok(Lookup(m, c))
    case NoMatch => Err(ArgumentNull)
    case Ambiguous => Err(InvalidOperation("Sequence contains more than one matching element"))
  }

  /** A query right after a registration sees the new interceptor last in its
      own category and every other category as before. */
  lemma QueryAfterRegister<C(!new), I>(known: seq<C>, m: map<C, seq<I>>, x: I, implemented: set<C>, q: set<C>)
    requires Register(known, m, x, implemented).Ok?
    requires Resolve(known, q).Unique?
    ensures var c := Resolve(known, implemented).category;
      var before := Query(known, m, q).value;
      Query(known, Register(known, m, x, implemented).value, q)
        == Ok(if Resolve(known, q).category == c then before + [x] else before)
  {
  }

  /** A registry of interceptors of type `I` under the categories `C`. */
  class InterceptorRegistry<C(==,!new), I> {
    /** The category interfaces found once at start-up, in discovery order. */
    const known: seq<C>
    var interceptors: map<C, seq<I>>

    constructor (known: seq<C>)
      ensures this.known == known && interceptors == map[]
    {
      this.known := known;
      interceptors := map[];
    }

    /** Files `interceptor`, whose type implements `implemented`, at the end of
        its category's list; a failed resolution throws before any change. */
    method RegisterInterceptor(interceptor: I, implemented: set<C>) returns (r: Outcome)
      modifies this
      ensures match Register(known, old(interceptors), interceptor, implemented)
        case Ok(m) => r == Pass && interceptors == m
        case Err(f) => r == Fail(f) && interceptors == old(interceptors)
    {
      var resolution := Resolve(known, implemented);
      match resolution {
        case NoMatch =>
          return Fail(ArgumentNull);
        case Ambiguous =>
          return Fail(InvalidOperation("Sequence contains more than one matching element"));
        case Unique(interceptorType) =>
          var list := if interceptorType in interceptors then interceptors[interceptorType] else [];
          interceptors := interceptors[interceptorType := list + [interceptor]];
          return Pass;
      }
    }

    /** The interceptors of the category of a type implementing `implemented`,
        in registration order; the registry is not changed. */
    function GetInterceptors(implemented: set<C>): (r: Result<seq<I>>)
      reads this
      ensures r.Ok? <==> Resolve(known, implemented).Unique?
      ensures r.Ok? ==> r.value == Lookup(interceptors, Resolve(known, implemented).category)
    {
      Query(known, interceptors, implemented)
    }
  }
}
