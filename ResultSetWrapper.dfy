/**
 * The result-set wrapper: per-column metadata (name, JDBC type, Java class name) captured once,
 * a case-insensitive JDBC-type lookup, a memoised type-handler resolution with its fallback
 * chain, and the memoised split of the columns into those a result map maps and the rest.
 *
 * The type-handler registry, the JDBC type table and class loading are abstract: they are
 * functions handed to the wrapper.
 */
module ResultSetWrappers {
  import opened Wrappers

  /** Character case in the `Locale.ENGLISH` sense, for ASCII letters. */
  function ToUpperChar(c: char): char {
    if 'a' <= c <= 'z' then (c as int - 32) as char else c
  }

  function ToLowerChar(c: char): char {
    if 'A' <= c <= 'Z' then (c as int + 32) as char else c
  }

  function ToUpper(s: string): (r: string)
    ensures |r| == |s| && forall i :: 0 <= i < |s| ==> r[i] == ToUpperChar(s[i])
  {
    seq(|s|, i requires 0 <= i < |s| => ToUpperChar(s[i]))
  }

  /** `String.equalsIgnoreCase`: same length, and each pair of characters equal up to case. */
  predicate EqualsIgnoreCase(a: string, b: string) {
    |a| == |b| &&
    forall i :: 0 <= i < |a| ==>
      a[i] == b[i] || ToUpperChar(a[i]) == ToUpperChar(b[i]) || ToLowerChar(a[i]) == ToLowerChar(b[i])
  }

  datatype JdbcType = JdbcType(code: int)

  datatype JavaType = JavaType(name: string)

  datatype TypeHandler = Registered(name: string) | UnknownTypeHandler | ObjectTypeHandler

  /** The three lookups of the type-handler registry that the wrapper uses; `None` is null. */
  datatype TypeHandlerRegistry = TypeHandlerRegistry(
    byJavaAndJdbc: (JavaType, Option<JdbcType>) -> Option<TypeHandler>,
    byJava: JavaType -> Option<TypeHandler>,
    byJdbc: JdbcType -> Option<TypeHandler>)

  /** What `ResultSetMetaData` reports for one column. */
  datatype ColumnMetaData = ColumnMetaData(columnLabel: string, columnName: string, columnType: int, className: Option<string>)

  datatype ResultSetError = IndexOutOfBounds

  datatype ResultMap = ResultMap(id: string, mappedColumns: set<string>)

  /**
   * The type of the first column whose name equals `columnName` ignoring case (itself `None`
   * when the JDBC type code was unknown), or `None` when no column matches.
   */
  function JdbcTypeOf(columnNames: seq<string>, jdbcTypes: seq<Option<JdbcType>>, columnName: string): (r: Option<JdbcType>)
    requires |columnNames| == |jdbcTypes|
    ensures (forall i :: 0 <= i < |columnNames| ==> !EqualsIgnoreCase(columnNames[i], columnName)) ==> r == None
    ensures forall i :: (0 <= i < |columnNames| && EqualsIgnoreCase(columnNames[i], columnName) &&
      (forall j :: 0 <= j < i ==> !EqualsIgnoreCase(columnNames[j], columnName))) ==> r == jdbcTypes[i]
    decreases |columnNames|
  {
    if columnNames == [] then None
    else if EqualsIgnoreCase(columnNames[0], columnName) then jdbcTypes[0]
    else
      var r := JdbcTypeOf(columnNames[1..], jdbcTypes[1..], columnName);
      assert forall i :: 1 <= i < |columnNames| ==> columnNames[i] == columnNames[1..][i - 1];
      r
  }

  /** The two clauses of `JdbcTypeOf`'s contract determine its value. */
  lemma JdbcTypeOfUnique(columnNames: seq<string>, jdbcTypes: seq<Option<JdbcType>>, columnName: string, r: Option<JdbcType>)
    requires |columnNames| == |jdbcTypes|
    requires (forall i :: 0 <= i < |columnNames| ==> !EqualsIgnoreCase(columnNames[i], columnName)) ==> r == None
    requires forall i :: (0 <= i < |columnNames| && EqualsIgnoreCase(columnNames[i], columnName) &&
      (forall j :: 0 <= j < i ==> !EqualsIgnoreCase(columnNames[j], columnName))) ==> r == jdbcTypes[i]
    ensures r == JdbcTypeOf(columnNames, jdbcTypes, columnName)
  {
    if exists i :: 0 <= i < |columnNames| && EqualsIgnoreCase(columnNames[i], columnName) {
      var k := FirstMatch(columnNames, columnName);
    }
  }

  /** The index of the first case-insensitive match, when there is one. */
  function FirstMatch(columnNames: seq<string>, columnName: string): (k: nat)
    requires exists i :: 0 <= i < |columnNames| && EqualsIgnoreCase(columnNames[i], columnName)
    ensures k < |columnNames| && EqualsIgnoreCase(columnNames[k], columnName)
    ensures forall j :: 0 <= j < k ==> !EqualsIgnoreCase(columnNames[j], columnName)
    decreases |columnNames|
  {
    if EqualsIgnoreCase(columnNames[0], columnName) then 0
    else
      assert forall i :: 1 <= i < |columnNames| ==> columnNames[i] == columnNames[1..][i - 1];
      var i :| 0 <= i < |columnNames| && EqualsIgnoreCase(columnNames[i], columnName);
      assert EqualsIgnoreCase(columnNames[1..][i - 1], columnName);
      1 + FirstMatch(columnNames[1..], columnName)
  }

  /** `List.indexOf`: the first exact occurrence, or -1. */
  function IndexOf(xs: seq<string>, x: string): (r: int)
    ensures -1 <= r < |xs|
    ensures r == -1 <==> x !in xs
    ensures r >= 0 ==> xs[r] == x && forall j :: 0 <= j < r ==> xs[j] != x
    decreases |xs|
  {
    if xs == [] then -1
    else if xs[0] == x then 0
    else
      var r := IndexOf(xs[1..], x);
      if r == -1 then -1 else r + 1
  }

  /** `resolveClass`: a null class name, or one that does not load, gives null. */
  function ResolveClass(classForName: string -> Option<JavaType>, className: Option<string>): Option<JavaType> {
    if className.None? then None else classForName(className.value)
  }

  predicate Usable(h: Option<TypeHandler>) {
    h.Some? && h.value != UnknownTypeHandler
  }

  /**
   * The fallback chain of `getTypeHandler` for a (property type, column) not yet memoised:
   * the registry for the property type and the column's JDBC type; then for the column's
   * Java class with its JDBC type, the class alone, or the JDBC type alone; then the object
   * handler. When the first lookup fails and the column name is not present exactly (the
   * JDBC-type lookup ignores case, `indexOf` does not), the class-name lookup at index -1 fails.
   */
  function ResolveTypeHandler(
    registry: TypeHandlerRegistry, classForName: string -> Option<JavaType>,
    columnNames: seq<string>, classNames: seq<Option<string>>, jdbcTypes: seq<Option<JdbcType>>,
    propertyType: JavaType, columnName: string): (r: Result<TypeHandler, ResultSetError>)
    requires |columnNames| == |classNames| == |jdbcTypes|
    ensures r.Success? ==> r.value != UnknownTypeHandler
    ensures r.Failure? <==>
      (!Usable(registry.byJavaAndJdbc(propertyType, JdbcTypeOf(columnNames, jdbcTypes, columnName))) && columnName !in columnNames)
    ensures Usable(registry.byJavaAndJdbc(propertyType, JdbcTypeOf(columnNames, jdbcTypes, columnName))) ==>
      r == Success(registry.byJavaAndJdbc(propertyType, JdbcTypeOf(columnNames, jdbcTypes, columnName)).value)
  {
    var jdbcType := JdbcTypeOf(columnNames, jdbcTypes, columnName);
    var handler := registry.byJavaAndJdbc(propertyType, jdbcType);
    if Usable(handler) then Success(handler.value)
    else
      var index := IndexOf(columnNames, columnName);
      if index < 0 then Failure(IndexOutOfBounds)
      else
        var javaType := ResolveClass(classForName, classNames[index]);
        var fallback :=
          if javaType.Some? && jdbcType.Some? then registry.byJavaAndJdbc(javaType.value, jdbcType)
          else if javaType.Some? then registry.byJava(javaType.value)
          else if jdbcType.Some? then registry.byJdbc(jdbcType.value)
          else handler;
        if Usable(fallback) then Success(fallback.value) else Success(ObjectTypeHandler)
  }

  /** The column names a result map maps: upper-cased, in column order. */
  function MappedOf(columnNames: seq<string>, mappedColumns: set<string>): seq<string>
    decreases |columnNames|
  {
    if columnNames == [] then []
    else
      var rest := MappedOf(columnNames[1..], mappedColumns);
      if ToUpper(columnNames[0]) in mappedColumns then [ToUpper(columnNames[0])] + rest else rest
  }

  /** The column names it does not map: as the driver spelt them, in column order. */
  function UnmappedOf(columnNames: seq<string>, mappedColumns: set<string>): seq<string>
    decreases |columnNames|
  {
    if columnNames == [] then []
    else
      var rest := UnmappedOf(columnNames[1..], mappedColumns);
      if ToUpper(columnNames[0]) in mappedColumns then rest else [columnNames[0]] + rest
  }

  /**
   * Every column lands in exactly one of the two lists: the lists together are as long as the
   * columns, every mapped name is in the mapped set, every unmapped one is not, and each column
   * appears (upper-cased if mapped) in the list it belongs to.
   */
  lemma {:induction false} PartitionIsExact(columnNames: seq<string>, mappedColumns: set<string>)
    ensures |MappedOf(columnNames, mappedColumns)| + |UnmappedOf(columnNames, mappedColumns)| == |columnNames|
    ensures forall x :: x in MappedOf(columnNames, mappedColumns) ==> x in mappedColumns
    ensures forall x :: x in UnmappedOf(columnNames, mappedColumns) ==> ToUpper(x) !in mappedColumns
    ensures forall i :: 0 <= i < |columnNames| && ToUpper(columnNames[i]) in mappedColumns ==>
      ToUpper(columnNames[i]) in MappedOf(columnNames, mappedColumns)
    ensures forall i :: 0 <= i < |columnNames| && ToUpper(columnNames[i]) !in mappedColumns ==>
      columnNames[i] in UnmappedOf(columnNames, mappedColumns)
    decreases |columnNames|
  {
    if columnNames != [] {
      PartitionIsExact(columnNames[1..], mappedColumns);
      assert forall i :: 1 <= i < |columnNames| ==> columnNames[i] == columnNames[1..][i - 1];
    }
  }

  /** Whether `prependPrefixes` leaves its input alone. */
  predicate KeepsColumns(columnNames: Option<set<string>>, prefix: Option<string>) {
    columnNames.None? || columnNames.value == {} || prefix.None? || prefix.value == ""
  }

  /**
   * `prependPrefixes`: the input itself for a null or empty set or prefix, otherwise a fresh
   * set of exactly the prefixed names.
   */
  method PrependPrefixes(columnNames: Option<set<string>>, prefix: Option<string>) returns (r: Option<set<string>>)
    ensures KeepsColumns(columnNames, prefix) ==> r == columnNames
    ensures !KeepsColumns(columnNames, prefix) ==>
      r.Some? && forall x :: x in r.value <==> exists c :: c in columnNames.value && x == prefix.value + c
  {
    if KeepsColumns(columnNames, prefix) {
      return columnNames;
    }
    var prefixed: set<string> := {};
    var remaining := columnNames.value;
    while remaining != {}
      invariant remaining <= columnNames.value
      invariant forall x :: x in prefixed <==> exists c :: c in columnNames.value - remaining && x == prefix.value + c
      decreases remaining
    {
      var columnName :| columnName in remaining;
      prefixed := prefixed + {prefix.value + columnName};
      remaining := remaining - {columnName};
    }
    r := Some(prefixed);
  }

  /** `getMapKey`: the result map's id, a colon, and the prefix. */
  function MapKey(resultMapId: string, columnPrefix: Option<string>): (k: string)
    ensures |k| > |resultMapId| && k[..|resultMapId|] == resultMapId && k[|resultMapId|] == ':'
    ensures k[|resultMapId| + 1..] == Render(columnPrefix)
  {
    resultMapId + (":" + Render(columnPrefix))
  }

  /** The number of characters before the first colon (all of them if there is none). */
  function ColonFreeRun(s: string): nat
    decreases |s|
  {
    if s == [] || s[0] == ':' then 0 else 1 + ColonFreeRun(s[1..])
  }

  lemma {:induction false} ColonFreeRunBeforeColon(a: string, rest: string)
    requires ':' !in a
    ensures ColonFreeRun(a + (":" + rest)) == |a|
    decreases |a|
  {
    if a != [] {
      assert a[0] in a;
      assert (a + (":" + rest))[1..] == a[1..] + (":" + rest);
      ColonFreeRunBeforeColon(a[1..], rest);
    }
  }

  lemma NoColonPrefixSplit(a: string, b: string, ra: string, rb: string)
    requires ':' !in a && ':' !in b
    requires a + (":" + ra) == b + (":" + rb)
    ensures a == b && ra == rb
  {
    var s := a + (":" + ra);
    ColonFreeRunBeforeColon(a, ra);
    ColonFreeRunBeforeColon(b, rb);
    assert a == s[..|a|] == b;
    assert ra == s[|a| + 1..] == rb;
  }

  /**
   * Memo keys tell result maps apart when ids contain no colon, and tell prefixes apart up to
   * rendering; a null prefix and the prefix "null" share a key.
   */
  lemma MapKeyDistinguishes(id1: string, p1: Option<string>, id2: string, p2: Option<string>)
    requires ':' !in id1 && ':' !in id2
    requires MapKey(id1, p1) == MapKey(id2, p2)
    ensures id1 == id2 && Render(p1) == Render(p2)
  {
    NoColonPrefixSplit(id1, id2, Render(p1), Render(p2));
  }

  lemma NullPrefixSharesKey(id: string)
    ensures MapKey(id, None) == MapKey(id, Some("null"))
  {
  }

  class ResultSetWrapper {
    const registry: TypeHandlerRegistry
    const classForName: string -> Option<JavaType>
    var columnNames: seq<string>
    var classNames: seq<Option<string>>
    var jdbcTypes: seq<Option<JdbcType>>
    /** Resolved handlers per column name and property type. */
    var typeHandlerMap: map<string, map<JavaType, TypeHandler>>
    var mappedColumnNamesMap: map<string, seq<string>>
    var unMappedColumnNamesMap: map<string, seq<string>>

    /** The three column lists run in parallel, and every memoised handler is the one the chain resolves. */
    ghost predicate Valid()
      reads this
    {
      && |columnNames| == |classNames| == |jdbcTypes|
      && forall col, t :: col in typeHandlerMap && t in typeHandlerMap[col] ==>
           ResolveTypeHandler(registry, classForName, columnNames, classNames, jdbcTypes, t, col)
             == Success(typeHandlerMap[col][t])
    }

    /** One name (label or name), one JDBC type and one class name per column, in column order. */
    constructor (metaData: seq<ColumnMetaData>, useColumnLabel: bool, forCode: int -> Option<JdbcType>,
                 registry: TypeHandlerRegistry, classForName: string -> Option<JavaType>)
      ensures Valid()
      ensures |columnNames| == |metaData|
      ensures forall i :: 0 <= i < |metaData| ==>
        && columnNames[i] == (if useColumnLabel then metaData[i].columnLabel else metaData[i].columnName)
        && jdbcTypes[i] == forCode(metaData[i].columnType)
        && classNames[i] == metaData[i].className
      ensures this.registry == registry && this.classForName == classForName
      ensures typeHandlerMap == map[] && mappedColumnNamesMap == map[] && unMappedColumnNamesMap == map[]
    {
      this.registry := registry;
      this.classForName := classForName;
      typeHandlerMap := map[];
      mappedColumnNamesMap := map[];
      unMappedColumnNamesMap := map[];
      columnNames := [];
      classNames := [];
      jdbcTypes := [];
      new;
      for i := 0 to |metaData|
        invariant |columnNames| == |classNames| == |jdbcTypes| == i
        invariant forall j :: 0 <= j < i ==>
          && columnNames[j] == (if useColumnLabel then metaData[j].columnLabel else metaData[j].columnName)
          && jdbcTypes[j] == forCode(metaData[j].columnType)
          && classNames[j] == metaData[j].className
        invariant typeHandlerMap == map[] && mappedColumnNamesMap == map[] && unMappedColumnNamesMap == map[]
      {
        columnNames := columnNames + [if useColumnLabel then metaData[i].columnLabel else metaData[i].columnName];
        jdbcTypes := jdbcTypes + [forCode(metaData[i].columnType)];
        classNames := classNames + [metaData[i].className];
      }
    }

    /** `getJdbcType`: the first case-insensitive match decides; no match gives null. */
    method GetJdbcType(columnName: string) returns (r: Option<JdbcType>)
      requires |columnNames| == |jdbcTypes|
      ensures (forall i :: 0 <= i < |columnNames| ==> !EqualsIgnoreCase(columnNames[i], columnName)) ==> r == None
      ensures forall i :: (0 <= i < |columnNames| && EqualsIgnoreCase(columnNames[i], columnName) &&
        (forall j :: 0 <= j < i ==> !EqualsIgnoreCase(columnNames[j], columnName))) ==> r == jdbcTypes[i]
    {
      for i := 0 to |columnNames|
        invariant forall j :: 0 <= j < i ==> !EqualsIgnoreCase(columnNames[j], columnName)
      {
        if EqualsIgnoreCase(columnNames[i], columnName) {
          return jdbcTypes[i];
        }
      }
      return None;
    }

    /**
     * `getTypeHandler`: a memoised handler is returned without consulting the registry;
     * otherwise the fallback chain runs and its answer is memoised. Memoisation is transparent:
     * the answer is always the chain's, and never the unknown handler.
     */
    method GetTypeHandler(propertyType: JavaType, columnName: string) returns (r: Result<TypeHandler, ResultSetError>)
      requires Valid()
      modifies this
      ensures Valid()
      ensures r == ResolveTypeHandler(registry, classForName, columnNames, classNames, jdbcTypes, propertyType, columnName)
      ensures r.Success? ==> r.value != UnknownTypeHandler
      ensures columnName in old(typeHandlerMap) && propertyType in old(typeHandlerMap)[columnName] ==>
        r == Success(old(typeHandlerMap)[columnName][propertyType]) && typeHandlerMap == old(typeHandlerMap)
      ensures columnName in typeHandlerMap
      ensures r.Success? ==> propertyType in typeHandlerMap[columnName] && typeHandlerMap[columnName][propertyType] == r.value
      ensures forall col :: col != columnName && col in old(typeHandlerMap) ==>
        col in typeHandlerMap && typeHandlerMap[col] == old(typeHandlerMap)[col]
      ensures columnNames == old(columnNames) && classNames == old(classNames) && jdbcTypes == old(jdbcTypes)
      ensures mappedColumnNamesMap == old(mappedColumnNamesMap) && unMappedColumnNamesMap == old(unMappedColumnNamesMap)
    {
      if columnName !in typeHandlerMap {
        AddColumnEntry(columnName);
      } else if propertyType in typeHandlerMap[columnName] {
        return Success(typeHandlerMap[columnName][propertyType]);
      }
      r := ResolveUnmemoised(propertyType, columnName);
      if r.Success? {
        Memoise(columnName, propertyType, r.value);
      }
    }

    /** A column seen for the first time gets an empty handler map. */
    method AddColumnEntry(columnName: string)
      requires Valid() && columnName !in typeHandlerMap
      modifies this
      ensures Valid()
      ensures typeHandlerMap == old(typeHandlerMap)[columnName := map[]]
      ensures columnNames == old(columnNames) && classNames == old(classNames) && jdbcTypes == old(jdbcTypes)
      ensures mappedColumnNamesMap == old(mappedColumnNamesMap) && unMappedColumnNamesMap == old(unMappedColumnNamesMap)
    {
      typeHandlerMap := typeHandlerMap[columnName := map[]];
    }

    /** `columnHandlers.put(propertyType, handler)` for the handler the chain resolved. */
    method Memoise(columnName: string, propertyType: JavaType, handler: TypeHandler)
      requires Valid() && columnName in typeHandlerMap
      requires ResolveTypeHandler(registry, classForName, columnNames, classNames, jdbcTypes, propertyType, columnName) == Success(handler)
      modifies this
      ensures Valid()
      ensures typeHandlerMap == old(typeHandlerMap)[columnName := old(typeHandlerMap)[columnName][propertyType := handler]]
      ensures columnNames == old(columnNames) && classNames == old(classNames) && jdbcTypes == old(jdbcTypes)
      ensures mappedColumnNamesMap == old(mappedColumnNamesMap) && unMappedColumnNamesMap == old(unMappedColumnNamesMap)
    {
      ghost var before := typeHandlerMap;
      typeHandlerMap := typeHandlerMap[columnName := typeHandlerMap[columnName][propertyType := handler]];
      forall col, t | col in typeHandlerMap && t in typeHandlerMap[col]
        ensures ResolveTypeHandler(registry, classForName, columnNames, classNames, jdbcTypes, t, col)
             == Success(typeHandlerMap[col][t])
      {
        if col != columnName || t != propertyType {
          assert typeHandlerMap[col][t] == before[col][t];
        }
      }
    }

    /** The fallback chain as `getTypeHandler` runs it when nothing is memoised. */
    method ResolveUnmemoised(propertyType: JavaType, columnName: string) returns (r: Result<TypeHandler, ResultSetError>)
      requires |columnNames| == |classNames| == |jdbcTypes|
      ensures r == ResolveTypeHandler(registry, classForName, columnNames, classNames, jdbcTypes, propertyType, columnName)
    {
      var jdbcType := GetJdbcType(columnName);
      JdbcTypeOfUnique(columnNames, jdbcTypes, columnName, jdbcType);
      var handler := registry.byJavaAndJdbc(propertyType, jdbcType);
      if !Usable(handler) {
        var index := IndexOf(columnNames, columnName);
        if index < 0 {
          return Failure(IndexOutOfBounds);
        }
        var javaType := ResolveClass(classForName, classNames[index]);
        if javaType.Some? && jdbcType.Some? {
          handler := registry.byJavaAndJdbc(javaType.value, jdbcType);
        } else if javaType.Some? {
          handler := registry.byJava(javaType.value);
        } else if jdbcType.Some? {
          handler := registry.byJdbc(jdbcType.value);
        }
      }
      if !Usable(handler) {
        handler := Some(ObjectTypeHandler);
      }
      r := Success(handler.value);
    }

    /** The mapped set a result map gives under a column prefix (upper-cased first). */
    method MappedColumnsUnder(resultMap: ResultMap, columnPrefix: Option<string>) returns (s: set<string>)
      ensures s == PrefixedColumns(resultMap, columnPrefix)
    {
      var upperColumnPrefix := if columnPrefix.None? then None else Some(ToUpper(columnPrefix.value));
      var prefixed := PrependPrefixes(Some(resultMap.mappedColumns), upperColumnPrefix);
      s := prefixed.value;
      PrefixedColumnsMeaning(resultMap, columnPrefix);
      assert forall x :: x in s <==> x in PrefixedColumns(resultMap, columnPrefix);
    }

    /** `loadMappedAndUnmappedColumnNames`: split the columns and store both lists under the map key. */
    method LoadMappedAndUnmappedColumnNames(resultMap: ResultMap, columnPrefix: Option<string>)
      modifies this
      ensures var key := MapKey(resultMap.id, columnPrefix);
        var mapped := PrefixedColumns(resultMap, columnPrefix);
        && mappedColumnNamesMap == old(mappedColumnNamesMap)[key := MappedOf(columnNames, mapped)]
        && unMappedColumnNamesMap == old(unMappedColumnNamesMap)[key := UnmappedOf(columnNames, mapped)]
      ensures columnNames == old(columnNames) && classNames == old(classNames) && jdbcTypes == old(jdbcTypes)
      ensures typeHandlerMap == old(typeHandlerMap)
    {
      var mappedColumns := MappedColumnsUnder(resultMap, columnPrefix);
      var mappedColumnNames: seq<string> := [];
      var unmappedColumnNames: seq<string> := [];
      var i := |columnNames|;
      // built back to front so that each step prepends, as the reference functions do
      while i > 0
        invariant 0 <= i <= |columnNames|
        invariant mappedColumnNames == MappedOf(columnNames[i..], mappedColumns)
        invariant unmappedColumnNames == UnmappedOf(columnNames[i..], mappedColumns)
      {
        i := i - 1;
        assert columnNames[i..][1..] == columnNames[i + 1..];
        var upperColumnName := ToUpper(columnNames[i]);
        if upperColumnName in mappedColumns {
          mappedColumnNames := [upperColumnName] + mappedColumnNames;
        } else {
          unmappedColumnNames := [columnNames[i]] + unmappedColumnNames;
        }
      }
      assert columnNames[0..] == columnNames;
      var key := MapKey(resultMap.id, columnPrefix);
      mappedColumnNamesMap := mappedColumnNamesMap[key := mappedColumnNames];
      unMappedColumnNamesMap := unMappedColumnNamesMap[key := unmappedColumnNames];
    }

    /** `getMappedColumnNames`: the stored list when the key is memoised, otherwise load and store it. */
    method GetMappedColumnNames(resultMap: ResultMap, columnPrefix: Option<string>) returns (r: seq<string>)
      modifies this
      ensures var key := MapKey(resultMap.id, columnPrefix);
        if key in old(mappedColumnNamesMap) then
          r == old(mappedColumnNamesMap)[key]
          && mappedColumnNamesMap == old(mappedColumnNamesMap) && unMappedColumnNamesMap == old(unMappedColumnNamesMap)
        else
          var mapped := PrefixedColumns(resultMap, columnPrefix);
          && r == MappedOf(columnNames, mapped)
          && mappedColumnNamesMap == old(mappedColumnNamesMap)[key := r]
          && unMappedColumnNamesMap == old(unMappedColumnNamesMap)[key := UnmappedOf(columnNames, mapped)]
      ensures columnNames == old(columnNames) && classNames == old(classNames) && jdbcTypes == old(jdbcTypes)
      ensures typeHandlerMap == old(typeHandlerMap)
    {
      var key := MapKey(resultMap.id, columnPrefix);
      if key in mappedColumnNamesMap {
        return mappedColumnNamesMap[key];
      }
      LoadMappedAndUnmappedColumnNames(resultMap, columnPrefix);
      r := mappedColumnNamesMap[key];
    }

    /** `getUnmappedColumnNames`: as `getMappedColumnNames`, for the other list. */
    method GetUnmappedColumnNames(resultMap: ResultMap, columnPrefix: Option<string>) returns (r: seq<string>)
      modifies this
      ensures var key := MapKey(resultMap.id, columnPrefix);
        if key in old(unMappedColumnNamesMap) then
          r == old(unMappedColumnNamesMap)[key]
          && mappedColumnNamesMap == old(mappedColumnNamesMap) && unMappedColumnNamesMap == old(unMappedColumnNamesMap)
        else
          var mapped := PrefixedColumns(resultMap, columnPrefix);
          && r == UnmappedOf(columnNames, mapped)
          && unMappedColumnNamesMap == old(unMappedColumnNamesMap)[key := r]
          && mappedColumnNamesMap == old(mappedColumnNamesMap)[key := MappedOf(columnNames, mapped)]
      ensures columnNames == old(columnNames) && classNames == old(classNames) && jdbcTypes == old(jdbcTypes)
      ensures typeHandlerMap == old(typeHandlerMap)
    {
      var key := MapKey(resultMap.id, columnPrefix);
      if key in unMappedColumnNamesMap {
        return unMappedColumnNamesMap[key];
      }
      LoadMappedAndUnmappedColumnNames(resultMap, columnPrefix);
      r := unMappedColumnNamesMap[key];
    }
  }

  /** The mapped set under a prefix: the result map's columns, each behind the upper-cased prefix. */
  function PrefixedColumns(resultMap: ResultMap, columnPrefix: Option<string>): set<string> {
    if resultMap.mappedColumns == {} || columnPrefix.None? || columnPrefix.value == "" then resultMap.mappedColumns
    else set c | c in resultMap.mappedColumns :: ToUpper(columnPrefix.value) + c
  }

  lemma PrefixedColumnsMeaning(resultMap: ResultMap, columnPrefix: Option<string>)
    ensures columnPrefix.Some? && columnPrefix.value != "" && resultMap.mappedColumns != {} ==>
      forall x :: x in PrefixedColumns(resultMap, columnPrefix) <==>
        exists c :: c in resultMap.mappedColumns && x == ToUpper(columnPrefix.value) + c
  {
  }
}
