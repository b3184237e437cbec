/**
 * Parameter naming for mapper methods: which parameters get a name, what the name is, and
 * how an invocation's arguments are handed to the SQL layer (nothing, one raw argument, or a
 * map from names and generic `paramN` aliases to arguments).
 *
 * A parameter is described by its kind (row bounds, result handler, or anything else), its
 * `@Param` value if annotated, and the name the compiler recorded for it if any.
 */
module ParamNameResolvers {
  import opened Wrappers
  import opened JavaInts

  const GENERIC_NAME_PREFIX: string := "param"

  /** What `isAssignableFrom` tells about a parameter's class. */
  datatype ParamKind = RowBoundsLike | ResultHandlerLike | Ordinary

  datatype ParamDesc = ParamDesc(kind: ParamKind, paramAnnotation: Option<string>, actualName: Option<string>)

  /** `isSpecialParameter`: row bounds and result handlers are never named. */
  predicate IsSpecialParameter(kind: ParamKind): (r: bool)
    ensures r <==> kind != Ordinary
  {
    kind == RowBoundsLike || kind == ResultHandlerLike
  }

  /**
   * The name of the `m`-th named parameter: its `@Param` value, else (when the configuration
   * says so) its actual name, else the count of parameters named before it.
   */
  function ChosenName(p: ParamDesc, useActualParamName: bool, m: nat): string {
    if p.paramAnnotation.Some? then p.paramAnnotation.value
    else if useActualParamName && p.actualName.Some? then p.actualName.value
    else NatToString(m)
  }

  /** The generic alias of the `m`-th named parameter (0-based), i.e. `param(m+1)`. */
  function GenericName(m: nat): string {
    GENERIC_NAME_PREFIX + NatToString(m + 1)
  }

  lemma GenericNameInjective(m: nat, n: nat)
    requires GenericName(m) == GenericName(n)
    ensures m == n
  {
    assert NatToString(m + 1) == GenericName(m)[|GENERIC_NAME_PREFIX|..];
    assert NatToString(n + 1) == GenericName(n)[|GENERIC_NAME_PREFIX|..];
    NatToStringInjective(m + 1, n + 1);
  }

  /** The indices of the parameters that get a name among the first `k`: the non-special ones, in order. */
  function NamedIndices(params: seq<ParamDesc>, k: nat): seq<nat>
    requires k <= |params|
  {
    if k == 0 then []
    else NamedIndices(params, k - 1) + (if IsSpecialParameter(params[k - 1].kind) then [] else [k - 1])
  }

  /** Whether one of the first `k` parameters is named by `@Param`. */
  predicate AnyAnnotated(params: seq<ParamDesc>, k: nat)
    requires k <= |params|
  {
    k > 0 && (AnyAnnotated(params, k - 1) || (!IsSpecialParameter(params[k - 1].kind) && params[k - 1].paramAnnotation.Some?))
  }

  /** Special parameters never get a name; every other one does, and in ascending index order. */
  lemma {:induction false} NamedIndicesExact(params: seq<ParamDesc>, k: nat)
    requires k <= |params|
    ensures forall j: nat :: j in NamedIndices(params, k) <==> (j < k && !IsSpecialParameter(params[j].kind))
    ensures forall m, n :: 0 <= m < n < |NamedIndices(params, k)| ==> NamedIndices(params, k)[m] < NamedIndices(params, k)[n]
  {
    if k > 0 {
      NamedIndicesExact(params, k - 1);
      var prev := NamedIndices(params, k - 1);
      var cur := NamedIndices(params, k);
      if !IsSpecialParameter(params[k - 1].kind) {
        assert cur == prev + [k - 1];
        forall m | 0 <= m < |prev|
          ensures prev[m] < k - 1
        {
          assert prev[m] in prev;
        }
        forall j: nat
          ensures j in cur <==> (j < k && !IsSpecialParameter(params[j].kind))
        {
          assert j in cur <==> j in prev || j == k - 1;
        }
        forall m, n | 0 <= m < n < |cur|
          ensures cur[m] < cur[n]
        {
          if n == |prev| {
            assert cur[m] == prev[m];
          } else {
            assert cur[m] == prev[m] && cur[n] == prev[n];
          }
        }
      } else {
        assert cur == prev;
      }
    }
  }

  /** `@Param` sets the flag: it is set iff some non-special parameter carries one. */
  lemma {:induction false} AnyAnnotatedExact(params: seq<ParamDesc>, k: nat)
    requires k <= |params|
    ensures AnyAnnotated(params, k) <==>
      exists j :: 0 <= j < k && !IsSpecialParameter(params[j].kind) && params[j].paramAnnotation.Some?
  {
    if k > 0 {
      AnyAnnotatedExact(params, k - 1);
      if !IsSpecialParameter(params[k - 1].kind) && params[k - 1].paramAnnotation.Some? {
        assert exists j :: 0 <= j < k && !IsSpecialParameter(params[j].kind) && params[j].paramAnnotation.Some?;
      }
    }
  }

  function IndicesOf(names: seq<(nat, string)>): seq<nat> {
    seq(|names|, m requires 0 <= m < |names| => names[m].0)
  }

  lemma IndicesOfSnoc(names: seq<(nat, string)>, entry: (nat, string))
    ensures IndicesOf(names + [entry]) == IndicesOf(names) + [entry.0]
  {
    assert forall m :: 0 <= m < |names| ==> (names + [entry])[m] == names[m];
  }

  /** What `getNamedParams` hands on. */
  datatype NamedParams<A> = NullParams | Single(value: A) | ParamMap(entries: map<string, A>)

  /**
   * The name of one non-special parameter when `m` parameters are named before it: its
   * `@Param` value (and then `annotated` is set), else its actual name if so configured,
   * else the decimal `m`.
   */
  method NameParameter(p: ParamDesc, useActualParamName: bool, m: nat) returns (name: string, annotated: bool)
    ensures name == ChosenName(p, useActualParamName, m)
    ensures annotated <==> p.paramAnnotation.Some?
  {
    var found: Option<string> := None;
    annotated := false;
    if p.paramAnnotation.Some? {
      annotated := true;
      found := p.paramAnnotation;
    }
    if found.None? {
      if useActualParamName {
        found := p.actualName;
      }
      if found.None? {
        found := Some(NatToString(m));
      }
    }
    name := found.value;
  }

  /**
   * What the naming loop knows after the first `k` parameters: the named indices and their
   * names so far, in order, and whether an `@Param` was seen.
   */
  ghost predicate NamingInv(params: seq<ParamDesc>, useActualParamName: bool, k: nat,
                            names: seq<(nat, string)>, annotated: bool)
  {
    && k <= |params|
    && (forall m :: 0 <= m < |names| ==> names[m].0 < k)
    && IndicesOf(names) == NamedIndices(params, k)
    && (forall m :: 0 <= m < |names| ==> names[m].1 == ChosenName(params[names[m].0], useActualParamName, m))
    && annotated == AnyAnnotated(params, k)
  }

  /** One pass of the naming loop: a special parameter is skipped, any other is named. */
  method NameStep(params: seq<ParamDesc>, useActualParamName: bool, paramIndex: nat,
                  names: seq<(nat, string)>, annotated: bool)
    returns (names': seq<(nat, string)>, annotated': bool)
    requires paramIndex < |params|
    requires NamingInv(params, useActualParamName, paramIndex, names, annotated)
    ensures NamingInv(params, useActualParamName, paramIndex + 1, names', annotated')
  {
    names', annotated' := names, annotated;
    if IsSpecialParameter(params[paramIndex].kind) {
      return;
    }
    var name, fromAnnotation := NameParameter(params[paramIndex], useActualParamName, |names|);
    if fromAnnotation {
      annotated' := true;
    }
    names' := names + [(paramIndex, name)];
    IndicesOfSnoc(names, (paramIndex, name));
    forall m | 0 <= m < |names'|
      ensures names'[m].1 == ChosenName(params[names'[m].0], useActualParamName, m)
    {
      if m < |names| {
        assert names'[m] == names[m];
      }
    }
  }

  class ParamNameResolver {
    const paramCount: nat
    /** (parameter index, name), in ascending index order, as the sorted map iterates. */
    var names: seq<(nat, string)>
    var hasParamAnnotation: bool

    /** Every named index is a parameter of the method. */
    ghost predicate Valid()
      reads this
    {
      forall m :: 0 <= m < |names| ==> names[m].0 < paramCount
    }

    /** The naming loop of the constructor. */
    constructor (params: seq<ParamDesc>, useActualParamName: bool)
      ensures Valid()
      ensures paramCount == |params|
      ensures IndicesOf(names) == NamedIndices(params, |params|)
      ensures forall m :: 0 <= m < |names| ==> names[m].1 == ChosenName(params[names[m].0], useActualParamName, m)
      ensures hasParamAnnotation == AnyAnnotated(params, |params|)
    {
      paramCount := |params|;
      names := [];
      hasParamAnnotation := false;
      new;
      var indexNames: seq<(nat, string)> := [];
      for paramIndex := 0 to |params|
        invariant NamingInv(params, useActualParamName, paramIndex, indexNames, hasParamAnnotation)
        invariant paramCount == |params|
      {
        indexNames, hasParamAnnotation := NameStep(params, useActualParamName, paramIndex, indexNames, hasParamAnnotation);
      }
      names := indexNames;
    }

    /** `getNames`: the names in ascending parameter-index order. */
    function GetNames(): (r: seq<string>)
      reads this
      ensures |r| == |names| && forall m :: 0 <= m < |names| ==> r[m] == names[m].1
    {
      seq(|names|, m requires 0 <= m < |names| reads this => names[m].1)
    }

    /**
     * `getNamedParams`: nothing for no arguments or no named parameter; the one argument
     * itself when exactly one parameter is named and none is annotated; otherwise every name
     * mapped to its argument (a repeated name keeps the last), plus the generic alias of each
     * named parameter unless that alias is itself an explicit name.
     */
    method GetNamedParams<A>(args: Option<seq<A>>) returns (r: NamedParams<A>)
      requires Valid()
      requires args.Some? ==> |args.value| == paramCount
      ensures r == NullParams <==> args.None? || names == []
      ensures args.Some? && names != [] && !hasParamAnnotation && |names| == 1 ==>
        r == Single(args.value[names[0].0])
      ensures r.ParamMap? <==> args.Some? && names != [] && (hasParamAnnotation || |names| != 1)
      ensures r.ParamMap? ==> r.entries.Keys == Explicit(names) + GenericAliases(names, |names|)
      ensures r.ParamMap? ==> forall m :: 0 <= m < |names| && LastWithName(names, m, |names|) ==>
        names[m].1 in r.entries && r.entries[names[m].1] == args.value[names[m].0]
      ensures r.ParamMap? ==> forall m :: 0 <= m < |names| && GenericName(m) !in Explicit(names) ==>
        GenericName(m) in r.entries && r.entries[GenericName(m)] == args.value[names[m].0]
    {
      if args.None? || |names| == 0 {
        return NullParams;
      } else if !hasParamAnnotation && |names| == 1 {
        return Single(args.value[names[0].0]);
      }
      var entries := BuildParamMap(names, args.value);
      r := ParamMap(entries);
    }
  }

  /** The loop of `getNamedParams` that fills the parameter map, with its counter `i`. */
  method BuildParamMap<A>(names: seq<(nat, string)>, a: seq<A>) returns (param: map<string, A>)
    requires forall m :: 0 <= m < |names| ==> names[m].0 < |a|
    ensures param.Keys == Explicit(names) + GenericAliases(names, |names|)
    ensures forall m :: 0 <= m < |names| && LastWithName(names, m, |names|) ==>
      names[m].1 in param && param[names[m].1] == a[names[m].0]
    ensures forall m :: 0 <= m < |names| && GenericName(m) !in Explicit(names) ==>
      GenericName(m) in param && param[GenericName(m)] == a[names[m].0]
  {
    param := map[];
    var i := 0;
    while i < |names|
      invariant 0 <= i <= |names|
      invariant param.Keys == Explicit(names[..i]) + GenericAliases(names, i)
      invariant forall m :: 0 <= m < i && LastWithName(names, m, i) ==>
        names[m].1 in param && param[names[m].1] == a[names[m].0]
      invariant forall m :: 0 <= m < i && GenericName(m) !in Explicit(names) ==>
        GenericName(m) in param && param[GenericName(m)] == a[names[m].0]
    {
      var entry := names[i];
      ghost var before := param;
      var genericParamName := GenericName(i);
      var shadowed := genericParamName in Explicit(names);
      param := param[entry.1 := a[entry.0]];
      if !shadowed {
        param := param[genericParamName := a[entry.0]];
      }
      KeysMapStep(names, a, i, before, param, shadowed);
      NamesStep(names, a, i, before, param, shadowed);
      GenericStep(names, a, i, before, param, shadowed);
      i := i + 1;
    }
    assert names[..|names|] == names;
  }

  lemma KeysMapStep<A>(names: seq<(nat, string)>, a: seq<A>, i: nat, before: map<string, A>, after: map<string, A>, shadowed: bool)
    requires i < |names| && forall m :: 0 <= m < |names| ==> names[m].0 < |a|
    requires shadowed <==> GenericName(i) in Explicit(names)
    requires after == if shadowed then before[names[i].1 := a[names[i].0]]
                      else before[names[i].1 := a[names[i].0]][GenericName(i) := a[names[i].0]]
    requires before.Keys == Explicit(names[..i]) + GenericAliases(names, i)
    ensures after.Keys == Explicit(names[..i + 1]) + GenericAliases(names, i + 1)
  {
    KeysStep(names, i);
  }

  lemma NamesStep<A>(names: seq<(nat, string)>, a: seq<A>, i: nat, before: map<string, A>, after: map<string, A>, shadowed: bool)
    requires i < |names| && forall m :: 0 <= m < |names| ==> names[m].0 < |a|
    requires shadowed <==> GenericName(i) in Explicit(names)
    requires after == if shadowed then before[names[i].1 := a[names[i].0]]
                      else before[names[i].1 := a[names[i].0]][GenericName(i) := a[names[i].0]]
    requires forall m :: 0 <= m < i && LastWithName(names, m, i) ==>
      names[m].1 in before && before[names[m].1] == a[names[m].0]
    ensures forall m :: 0 <= m < i + 1 && LastWithName(names, m, i + 1) ==>
      names[m].1 in after && after[names[m].1] == a[names[m].0]
  {
    ExplicitHas(names, i);
    forall m | 0 <= m < i + 1 && LastWithName(names, m, i + 1)
      ensures names[m].1 in after && after[names[m].1] == a[names[m].0]
    {
      ExplicitHas(names, m);
      if m < i {
        assert LastWithName(names, m, i);
        assert names[m].1 != names[i].1;
      }
    }
  }

  lemma GenericStep<A>(names: seq<(nat, string)>, a: seq<A>, i: nat, before: map<string, A>, after: map<string, A>, shadowed: bool)
    requires i < |names| && forall m :: 0 <= m < |names| ==> names[m].0 < |a|
    requires shadowed <==> GenericName(i) in Explicit(names)
    requires after == if shadowed then before[names[i].1 := a[names[i].0]]
                      else before[names[i].1 := a[names[i].0]][GenericName(i) := a[names[i].0]]
    requires forall m :: 0 <= m < i && GenericName(m) !in Explicit(names) ==>
      GenericName(m) in before && before[GenericName(m)] == a[names[m].0]
    ensures forall m :: 0 <= m < i + 1 && GenericName(m) !in Explicit(names) ==>
      GenericName(m) in after && after[GenericName(m)] == a[names[m].0]
  {
    ExplicitHas(names, i);
    forall m | 0 <= m < i + 1 && GenericName(m) !in Explicit(names)
      ensures GenericName(m) in after && after[GenericName(m)] == a[names[m].0]
    {
      assert GenericName(m) != names[i].1;
      if m < i && GenericName(m) == GenericName(i) {
        GenericNameInjective(m, i);
      }
    }
  }

  /** The explicit names (those in `names`), including default and actual names. */
  function Explicit(names: seq<(nat, string)>): set<string> {
    set m | 0 <= m < |names| :: names[m].1
  }

  lemma ExplicitHas(names: seq<(nat, string)>, m: nat)
    requires m < |names|
    ensures names[m].1 in Explicit(names)
  {
  }

  /** The generic aliases of the first `i` named parameters that no explicit name shadows. */
  function GenericAliases(names: seq<(nat, string)>, i: nat): set<string> {
    set m | 0 <= m < i && GenericName(m) !in Explicit(names) :: GenericName(m)
  }

  /** Entry `m` is the last of the first `i` with its name, so its argument is the one kept. */
  predicate LastWithName(names: seq<(nat, string)>, m: nat, i: nat)
    requires m < i <= |names|
  {
    forall n :: m < n < i ==> names[n].1 != names[m].1
  }

  lemma KeysStep(names: seq<(nat, string)>, i: nat)
    requires i < |names|
    ensures Explicit(names[..i + 1]) == Explicit(names[..i]) + {names[i].1}
    ensures GenericAliases(names, i + 1) ==
      GenericAliases(names, i) + (if GenericName(i) !in Explicit(names) then {GenericName(i)} else {})
  {
    var p, q := names[..i], names[..i + 1];
    assert forall m :: 0 <= m < i ==> q[m] == p[m];
    assert q[i] == names[i];
    forall x | x in Explicit(q)
      ensures x in Explicit(p) + {names[i].1}
    {
      var m :| 0 <= m < |q| && q[m].1 == x;
      if m < i {
        assert p[m].1 == x;
      }
    }
    forall x | x in Explicit(p)
      ensures x in Explicit(q)
    {
      var m :| 0 <= m < |p| && p[m].1 == x;
      assert q[m].1 == x;
    }
    assert names[i].1 == q[i].1;
  }

  /** `(int, RowBounds, int)` without annotations names index 0 "0" and index 2 "1". */
  method DefaultNamesCountNamedOnly()
  {
    var p := [ParamDesc(Ordinary, None, None), ParamDesc(RowBoundsLike, None, None), ParamDesc(Ordinary, None, None)];
    var resolver := new ParamNameResolver(p, false);
    assert NamedIndices(p, 3) == [0, 2];
    assert IndicesOf(resolver.names) == [0, 2];
    assert |resolver.names| == 2;
    assert resolver.names[0].0 == IndicesOf(resolver.names)[0] == 0;
    assert resolver.names[1].0 == IndicesOf(resolver.names)[1] == 2;
    assert resolver.names[0].1 == NatToString(0) == "0";
    assert resolver.names[1].1 == NatToString(1) == "1";
    assert resolver.names == [(0, "0"), (2, "1")];
  }
}
