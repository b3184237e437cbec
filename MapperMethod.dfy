/**
 * The binding of a mapper-interface method to a mapped statement and the rules by which its
 * invocation is carried out: which SQL command it runs, how a row count becomes the declared
 * return value, which select variant is used, when a result is wrapped in an Optional, when a
 * null result is an error, and how the special RowBounds/ResultHandler parameters are found.
 *
 * Java classes are an enumeration; what the SQL session answers is given as oracle values.
 */
module MapperMethods {
  import opened Wrappers
  import opened JavaInts

  /** The Java classes the rules below tell apart. */
  datatype JavaClass =
    | VoidPrim | IntPrim | LongPrim | BooleanPrim | OtherPrim(name: string)
    | VoidClass | IntegerClass | LongClass | BooleanClass
    | OptionalClass | CursorClass | ArrayClass(component: JavaClass) | OtherClass(name: string)

  predicate IsPrimitive(c: JavaClass) {
    c.VoidPrim? || c.IntPrim? || c.LongPrim? || c.BooleanPrim? || c.OtherPrim?
  }

  /** A runtime result object and its class. */
  datatype Obj =
    | IntegerObj(i: Int32)
    | LongObj(l: Int64)
    | BooleanObj(b: bool)
    | OptionalObj(content: Option<Obj>)
    | Other(cls: JavaClass, id: nat)

  function ClassOf(o: Obj): JavaClass {
    match o
    case IntegerObj(_) => IntegerClass
    case LongObj(_) => LongClass
    case BooleanObj(_) => BooleanClass
    case OptionalObj(_) => OptionalClass
    case Other(c, _) => c
  }

  /**
   * A binding exception. A missing parameter's exception is kept apart, naming the key and the
   * names available, because its message lists a hash set whose order Java leaves open.
   */
  datatype BindingError =
    | BindingException(message: string)
    | ParameterNotFound(key: string, available: set<string>)

  datatype SqlCommandType = UNKNOWN | INSERT | UPDATE | DELETE | SELECT | FLUSH

  /** A mapped statement as the binding sees it. */
  datatype MappedStatement = MappedStatement(id: string, sqlCommandType: SqlCommandType)

  /** The statement's id and command type; the id is null only for a `@Flush` method. */
  datatype SqlCommand = SqlCommand(name: Option<string>, commandType: SqlCommandType)

  datatype MethodSignature = MethodSignature(
    returnType: JavaClass,
    returnsMany: bool,
    returnsMap: bool,
    returnsVoid: bool,
    returnsCursor: bool,
    returnsOptional: bool,
    mapKey: Option<string>,
    resultHandlerIndex: Option<nat>,
    rowBoundsIndex: Option<nat>)
  {
    predicate HasResultHandler() { resultHandlerIndex.Some? }
    predicate HasRowBounds() { rowBoundsIndex.Some? }
  }

  // ---------------------------------------------------------------- rowCountResult

  /** Whether `rowCountResult` accepts a return type. */
  predicate SupportsRowCount(c: JavaClass) {
    c.VoidPrim? || c.IntPrim? || c.IntegerClass? || c.LongPrim? || c.LongClass? || c.BooleanPrim? || c.BooleanClass?
  }

  /**
   * `rowCountResult`: the affected-row count as the declared return type: nothing for `void`,
   * the count for int, the widened count for long, whether any row was affected for boolean;
   * any other type (the boxed `Void` included) is an error.
   */
  function RowCountResult(sig: MethodSignature, name: Option<string>, rowCount: Int32): (r: Result<Option<Obj>, BindingError>)
    requires sig.returnsVoid <==> sig.returnType == VoidPrim
    ensures r.Success? <==> SupportsRowCount(sig.returnType)
    ensures r.Success? && r.value.None? <==> sig.returnType == VoidPrim
    ensures r.Success? && r.value.Some? ==> ClassOf(r.value.value) == Boxed(sig.returnType)
    ensures r.Success? && r.value.Some? ==> CountOf(r.value.value) == Some(if rowCount > 0 then 1 else 0)
                                            || CountOf(r.value.value) == Some(rowCount)
  {
    if sig.returnsVoid then Success(None)
    else if sig.returnType == IntegerClass || sig.returnType == IntPrim then Success(Some(IntegerObj(rowCount)))
    else if sig.returnType == LongClass || sig.returnType == LongPrim then Success(Some(LongObj(rowCount)))
    else if sig.returnType == BooleanClass || sig.returnType == BooleanPrim then Success(Some(BooleanObj(rowCount > 0)))
    else Failure(UnsupportedReturnType(name, sig.returnType))
  }

  /** The class a primitive is boxed into (others stand for themselves). */
  function Boxed(c: JavaClass): JavaClass {
    match c
    case IntPrim => IntegerClass
    case LongPrim => LongClass
    case BooleanPrim => BooleanClass
    case VoidPrim => VoidClass
    case _ => c
  }

  /** The number a row-count result stands for; a boolean stands for 1 or 0. */
  function CountOf(o: Obj): Option<int> {
    match o
    case IntegerObj(i) => Some(i)
    case LongObj(l) => Some(l)
    case BooleanObj(b) => Some(if b then 1 else 0)
    case _ => None
  }

  /** Integer results carry the count exactly; a long one carries it widened without change. */
  lemma RowCountPreservesCount(sig: MethodSignature, name: Option<string>, rowCount: Int32)
    requires sig.returnsVoid <==> sig.returnType == VoidPrim
    requires sig.returnType in {IntPrim, IntegerClass, LongPrim, LongClass}
    ensures RowCountResult(sig, name, rowCount).Success?
    ensures CountOf(RowCountResult(sig, name, rowCount).value.value) == Some(rowCount)
  {
  }

  // The fixed text of the longer error messages.
  const NEEDS_RESULT_TYPE: string := " needs either a @ResultMap annotation, a @ResultType annotation,"
    + " or a resultType attribute in XML so a ResultHandler can be used as a parameter."
  const RETURNED_NULL: string := " attempted to return null from a method with a primitive return type ("

  function UnsupportedReturnType(name: Option<string>, c: JavaClass): (e: BindingError)
    ensures e.BindingException? && |e.message| > 0 && e.message[0] == 'M'
  {
    BindingException("Mapper method '" + (Render(name) + ("' has an unsupported return type: " + ClassName(c))))
  }

  function NullForPrimitive(name: Option<string>, c: JavaClass): (e: BindingError)
    ensures e.BindingException? && |e.message| > 0 && e.message[0] == 'M'
  {
    BindingException("Mapper method '" + (Render(name)
      + (RETURNED_NULL + (ClassName(c) + ")."))))
  }

  function NoResultTypeForHandler(name: Option<string>): (e: BindingError)
    ensures e.BindingException? && |e.message| > 0 && e.message[0] == 'm'
  {
    BindingException("method " + (Render(name) + NEEDS_RESULT_TYPE))
  }

  function UnknownMethod(name: Option<string>): (e: BindingError)
    ensures e.BindingException? && |e.message| > 0 && e.message[0] == 'U'
  {
    BindingException("Unknown execution method for: " + Render(name))
  }

  function ClassName(c: JavaClass): string {
    match c
    case VoidPrim => "void"
    case IntPrim => "int"
    case LongPrim => "long"
    case BooleanPrim => "boolean"
    case OtherPrim(n) => n
    case VoidClass => "class java.lang.Void"
    case IntegerClass => "class java.lang.Integer"
    case LongClass => "class java.lang.Long"
    case BooleanClass => "class java.lang.Boolean"
    case OptionalClass => "class java.util.Optional"
    case CursorClass => "interface org.apache.ibatis.cursor.Cursor"
    case ArrayClass(_) => "array"
    case OtherClass(n) => n
  }

  // ---------------------------------------------------------------- execute

  /** The select variant `execute` uses. */
  datatype SelectRoute = WithResultHandler | ForMany | ForMap | ForCursor | SelectOne

  /**
   * The select dispatch: a void method with a result handler first, then a collection or
   * array return, then a `@MapKey` map, then a cursor, and a single object otherwise.
   */
  function Route(sig: MethodSignature): (r: SelectRoute)
    ensures r == WithResultHandler <==> sig.returnsVoid && sig.HasResultHandler()
    ensures r == ForMany ==> sig.returnsMany
    ensures r == ForMap ==> sig.returnsMap && !sig.returnsMany
    ensures r == ForCursor ==> sig.returnsCursor && !sig.returnsMap && !sig.returnsMany
    ensures r == SelectOne <==>
      (!(sig.returnsVoid && sig.HasResultHandler()) && !sig.returnsMany && !sig.returnsMap && !sig.returnsCursor)
  {
    if sig.returnsVoid && sig.HasResultHandler() then WithResultHandler
    else if sig.returnsMany then ForMany
    else if sig.returnsMap then ForMap
    else if sig.returnsCursor then ForCursor
    else SelectOne
  }

  /**
   * The Optional wrapping of a single result: a method returning Optional gets a null or a
   * non-Optional result wrapped; an Optional result is passed on as it is.
   */
  function WrapOptional(sig: MethodSignature, result: Option<Obj>): (r: Option<Obj>)
    ensures !sig.returnsOptional ==> r == result
    ensures sig.returnsOptional && sig.returnType == OptionalClass ==>
      r.Some? && ClassOf(r.value) == OptionalClass
    ensures sig.returnsOptional && result.Some? && ClassOf(result.value) == sig.returnType ==> r == result
    ensures sig.returnsOptional && (result.None? || ClassOf(result.value) != sig.returnType) ==>
      r == Some(OptionalObj(result))
  {
    if sig.returnsOptional && (result.None? || ClassOf(result.value) != sig.returnType) then Some(OptionalObj(result))
    else result
  }

  /** What the SQL session answers to each kind of call `execute` may make. */
  datatype SessionAnswers = SessionAnswers(
    rowCount: Int32,
    /** whether `executeWithResultHandler` finds a usable result type (callable, or a non-void result map) */
    resultHandlerUsable: bool,
    many: Obj,
    selectedMap: Obj,
    cursor: Obj,
    selectOne: Option<Obj>,
    flushed: Obj)

  /** The `null` check at the end of `execute`: a primitive non-void method may not return null. */
  function NullCheck(command: SqlCommand, sig: MethodSignature, result: Option<Obj>): (r: Result<Option<Obj>, BindingError>)
    ensures r.Success? ==> r.value == result
    ensures r.Failure? <==> result.None? && IsPrimitive(sig.returnType) && !sig.returnsVoid
  {
    if result.None? && IsPrimitive(sig.returnType) && !sig.returnsVoid then
      Failure(NullForPrimitive(command.name, sig.returnType))
    else Success(result)
  }

  function SelectResult(command: SqlCommand, sig: MethodSignature, answers: SessionAnswers): (r: Result<Option<Obj>, BindingError>)
    ensures Route(sig) == SelectOne ==> r == Success(WrapOptional(sig, answers.selectOne))
    ensures r.Failure? ==> r.error == NoResultTypeForHandler(command.name)
  {
    match Route(sig)
    case WithResultHandler =>
      if answers.resultHandlerUsable then Success(None)
      else Failure(NoResultTypeForHandler(command.name))
    case ForMany => Success(Some(answers.many))
    case ForMap => Success(Some(answers.selectedMap))
    case ForCursor => Success(Some(answers.cursor))
    case SelectOne => Success(WrapOptional(sig, answers.selectOne))
  }

  /** The `switch` of `execute` on the command type. */
  function Dispatch(command: SqlCommand, sig: MethodSignature, answers: SessionAnswers): (r: Result<Option<Obj>, BindingError>)
    requires sig.returnsVoid <==> sig.returnType == VoidPrim
    ensures command.commandType.INSERT? || command.commandType.UPDATE? || command.commandType.DELETE? ==>
      r == RowCountResult(sig, command.name, answers.rowCount)
    ensures command.commandType.SELECT? ==> r == SelectResult(command, sig, answers)
    ensures command.commandType.FLUSH? ==> r == Success(Some(answers.flushed))
    ensures command.commandType.UNKNOWN? ==> r == Failure(UnknownMethod(command.name))
    ensures r.Failure? && !command.commandType.UNKNOWN? ==>
      r.error.BindingException? && |r.error.message| > 0 && r.error.message[0] in "Mm"
  {
    match command.commandType
    case INSERT => RowCountResult(sig, command.name, answers.rowCount)
    case UPDATE => RowCountResult(sig, command.name, answers.rowCount)
    case DELETE => RowCountResult(sig, command.name, answers.rowCount)
    case SELECT => SelectResult(command, sig, answers)
    case FLUSH => Success(Some(answers.flushed))
    case UNKNOWN => Failure(UnknownMethod(command.name))
  }

  /** `execute`: run the command, then reject a null result for a primitive return type. */
  function Execute(command: SqlCommand, sig: MethodSignature, answers: SessionAnswers): (r: Result<Option<Obj>, BindingError>)
    requires sig.returnsVoid <==> sig.returnType == VoidPrim
    ensures r.Success? && r.value.None? ==> !IsPrimitive(sig.returnType) || sig.returnsVoid
    ensures command.commandType.INSERT? || command.commandType.UPDATE? || command.commandType.DELETE? ==>
      r == RowCountResult(sig, command.name, answers.rowCount)
    ensures command.commandType.SELECT? && Route(sig) == SelectOne && sig.returnsOptional && sig.returnType == OptionalClass ==>
      r.Success? && r.value.Some? && ClassOf(r.value.value) == OptionalClass
    ensures command.commandType.UNKNOWN? ==>
      r == Failure(UnknownMethod(command.name))
  {
    var result := Dispatch(command, sig, answers);
    if result.Failure? then result else NullCheck(command, sig, result.value)
  }

  /**
   * Every error of a known command is a binding exception about the mapper method: its message
   * starts "Mapper method" or "method", never "Unknown execution method".
   */
  lemma ExecuteErrorsNameMethod(command: SqlCommand, sig: MethodSignature, answers: SessionAnswers)
    requires sig.returnsVoid <==> sig.returnType == VoidPrim
    ensures var r := Execute(command, sig, answers);
      r.Failure? && !command.commandType.UNKNOWN? ==>
        r.error.BindingException? && |r.error.message| > 0 && r.error.message[0] in "Mm"
  {
    var result := Dispatch(command, sig, answers);
    if result.Success? && result.value.None? && IsPrimitive(sig.returnType) && !sig.returnsVoid {
      assert Execute(command, sig, answers) == Failure(NullForPrimitive(command.name, sig.returnType));
    }
  }

  // ---------------------------------------------------------------- SqlCommand

  /** A mapper interface and the interfaces it extends. */
  datatype Interface = Interface(name: string, superInterfaces: seq<Interface>)

  /** `declaringClass.isAssignableFrom(i)`: `i` is the declaring interface or extends it. */
  predicate Extends(i: Interface, declaring: Interface)
    decreases i
  {
    i == declaring || exists k :: 0 <= k < |i.superInterfaces| && Extends(i.superInterfaces[k], declaring)
  }

  /**
   * Whether a statement can be found for the method from interface `i`: one is registered under
   * `i`'s name, or `i` does not declare the method and one of its super-interfaces that extends
   * the declaring interface leads to one.
   */
  predicate Resolvable(i: Interface, methodName: string, declaring: Interface,
                       statements: map<string, MappedStatement>)
    decreases i, 0
  {
    || (i.name + "." + methodName) in statements
    || (i != declaring &&
        exists k :: 0 <= k < |i.superInterfaces| && SearchedSuper(i.superInterfaces[k], methodName, declaring, statements))
  }

  /** A super-interface the search enters and that leads to a statement. */
  predicate SearchedSuper(s: Interface, methodName: string, declaring: Interface,
                          statements: map<string, MappedStatement>)
    decreases s, 1
  {
    Extends(s, declaring) && Resolvable(s, methodName, declaring, statements)
  }

  /**
   * `resolveMappedStatement`: the statement named after this interface and the method; else,
   * unless this interface declares the method, the first one found through the super-interfaces
   * that extend the declaring interface, in declaration order, depth first. A statement is found
   * exactly when one is reachable.
   */
  function ResolveMappedStatement(i: Interface, methodName: string, declaring: Interface,
                                  statements: map<string, MappedStatement>): (r: Option<MappedStatement>)
    ensures r.Some? ==> r.value in statements.Values
    ensures r.Some? <==> Resolvable(i, methodName, declaring, statements)
    ensures (i.name + "." + methodName) in statements ==> r == Some(statements[i.name + "." + methodName])
    ensures (i.name + "." + methodName) !in statements && i == declaring ==> r == None
    decreases i, 2, |i.superInterfaces| + 1
  {
    var statementId := i.name + "." + methodName;
    if statementId in statements then Some(statements[statementId])
    else if i == declaring then None
    else ResolveAmongSupers(i, 0, methodName, declaring, statements)
  }

  /**
   * The `for` loop over `getInterfaces()` from position `k` on: the answer of the first
   * super-interface that is searched and leads to a statement; none if there is no such one.
   */
  function ResolveAmongSupers(i: Interface, k: nat, methodName: string, declaring: Interface,
                              statements: map<string, MappedStatement>): (r: Option<MappedStatement>)
    requires k <= |i.superInterfaces|
    ensures r.Some? ==> r.value in statements.Values
    ensures r.Some? <==>
      exists j :: k <= j < |i.superInterfaces| && SearchedSuper(i.superInterfaces[j], methodName, declaring, statements)
    ensures r.Some? ==>
      exists j :: && k <= j < |i.superInterfaces|
                  && SearchedSuper(i.superInterfaces[j], methodName, declaring, statements)
                  && (forall j' :: k <= j' < j ==> !SearchedSuper(i.superInterfaces[j'], methodName, declaring, statements))
                  && r == ResolveMappedStatement(i.superInterfaces[j], methodName, declaring, statements)
    decreases i, 2, |i.superInterfaces| - k
  {
    if k == |i.superInterfaces| then None
    else
      var s := i.superInterfaces[k];
      var found := if Extends(s, declaring) then ResolveMappedStatement(s, methodName, declaring, statements) else None;
      if found.Some? then found else ResolveAmongSupers(i, k + 1, methodName, declaring, statements)
  }

  /** The `SqlCommand` constructor's decision on the resolved statement. */
  function MakeSqlCommand(resolved: Option<MappedStatement>, hasFlushAnnotation: bool,
                          mapperInterfaceName: string, methodName: string): (r: Result<SqlCommand, BindingError>)
    ensures r.Success? ==> r.value.commandType != UNKNOWN
    ensures r.Success? && r.value.name.None? <==> resolved.None? && hasFlushAnnotation
    ensures r.Success? && r.value.name.None? ==> r.value.commandType == FLUSH
    ensures resolved.Some? && r.Success? ==>
      r.value == SqlCommand(Some(resolved.value.id), resolved.value.sqlCommandType)
    ensures r.Failure? <==> (resolved.None? && !hasFlushAnnotation) || (resolved.Some? && resolved.value.sqlCommandType == UNKNOWN)
  {
    if resolved.None? then
      if hasFlushAnnotation then Success(SqlCommand(None, FLUSH))
      else Failure(BindingException("Invalid bound statement (not found): " + mapperInterfaceName + "." + methodName))
    else
      var ms := resolved.value;
      if ms.sqlCommandType == UNKNOWN then Failure(UnknownMethod(Some(ms.id)))
      else Success(SqlCommand(Some(ms.id), ms.sqlCommandType))
  }

  /** A constructed command never reaches `execute`'s unknown-command error. */
  lemma ConstructedCommandsAreKnown(resolved: Option<MappedStatement>, hasFlushAnnotation: bool,
                                    mapperInterfaceName: string, methodName: string,
                                    sig: MethodSignature, answers: SessionAnswers)
    requires sig.returnsVoid <==> sig.returnType == VoidPrim
    requires MakeSqlCommand(resolved, hasFlushAnnotation, mapperInterfaceName, methodName).Success?
    ensures var c := MakeSqlCommand(resolved, hasFlushAnnotation, mapperInterfaceName, methodName).value;
      Execute(c, sig, answers) != Failure(UnknownMethod(c.name))
  {
    var c := MakeSqlCommand(resolved, hasFlushAnnotation, mapperInterfaceName, methodName).value;
    ExecuteErrorsNameMethod(c, sig, answers);
    assert UnknownMethod(c.name).message[0] == 'U';
  }

  // ---------------------------------------------------------------- MethodSignature

  function CountTrue(matching: seq<bool>): nat {
    if matching == [] then 0 else (if matching[0] then 1 else 0) + CountTrue(matching[1..])
  }

  lemma CountTrueSnoc(matching: seq<bool>, i: nat)
    requires i < |matching|
    ensures CountTrue(matching[..i + 1]) == CountTrue(matching[..i]) + (if matching[i] then 1 else 0)
  {
    CountTrueAppend(matching[..i], [matching[i]]);
    assert matching[..i + 1] == matching[..i] + [matching[i]];
  }

  lemma {:induction false} CountTrueAppend(a: seq<bool>, b: seq<bool>)
    ensures CountTrue(a + b) == CountTrue(a) + CountTrue(b)
    decreases |a|
  {
    if a == [] {
      assert a + b == b;
    } else {
      assert (a + b)[0] == a[0];
      assert (a + b)[1..] == a[1..] + b;
      CountTrueAppend(a[1..], b);
    }
  }

  /** The error for a method with two parameters of a type that may occur once. */
  function MultipleParams(methodName: string, simpleName: string): BindingError {
    BindingException(methodName + " cannot have multiple " + simpleName + " parameters")
  }

  /**
   * `getUniqueParamIndex`: `matching[i]` says whether parameter `i` is of the wanted type.
   * No match gives null, a single match its index, a second match an error.
   */
  method GetUniqueParamIndex(matching: seq<bool>, methodName: string, simpleName: string)
    returns (r: Result<Option<nat>, BindingError>)
    ensures r == Success(None) <==> CountTrue(matching) == 0
    ensures r.Success? && r.value.Some? ==> r.value.value < |matching| && matching[r.value.value] && CountTrue(matching) == 1
    ensures r.Failure? <==> CountTrue(matching) >= 2
    ensures r.Failure? ==> r.error == MultipleParams(methodName, simpleName)
  {
    var index: Option<nat> := None;
    for i := 0 to |matching|
      invariant index.None? <==> CountTrue(matching[..i]) == 0
      invariant index.Some? ==> index.value < i && matching[index.value] && CountTrue(matching[..i]) == 1
    {
      CountTrueSnoc(matching, i);
      if matching[i] {
        if index.None? {
          index := Some(i);
        } else {
          CountTrueAppend(matching[..i + 1], matching[i + 1..]);
          assert matching[..i + 1] + matching[i + 1..] == matching;
          return Failure(MultipleParams(methodName, simpleName));
        }
      }
    }
    assert matching[..|matching|] == matching;
    return Success(index);
  }

  /** `getMapKey`: the `@MapKey` value, looked at only when the method returns a map. */
  function MapKeyOf(returnsMapType: bool, mapKeyAnnotation: Option<string>): (r: Option<string>)
    ensures r.Some? <==> returnsMapType && mapKeyAnnotation.Some?
    ensures r.Some? ==> r == mapKeyAnnotation
  {
    if returnsMapType then mapKeyAnnotation else None
  }

  /**
   * The `MethodSignature` constructor. `isCollection` is the object factory's verdict on the
   * return type and `isMapType` whether it is a `Map`; `isRowBounds[i]`/`isResultHandler[i]` say
   * whether parameter `i` is of that type.
   */
  method NewMethodSignature(methodName: string, returnType: JavaClass, isCollection: bool, isMapType: bool,
                            mapKeyAnnotation: Option<string>, isRowBounds: seq<bool>, isResultHandler: seq<bool>)
    returns (r: Result<MethodSignature, BindingError>)
    ensures r.Success? ==>
      && (r.value.returnsVoid <==> returnType == VoidPrim)
      && (r.value.returnsMany <==> isCollection || returnType.ArrayClass?)
      && (r.value.returnsCursor <==> returnType == CursorClass)
      && (r.value.returnsOptional <==> returnType == OptionalClass)
      && (r.value.returnsMap <==> isMapType && mapKeyAnnotation.Some?)
      && r.value.returnType == returnType
      && r.value.mapKey == MapKeyOf(isMapType, mapKeyAnnotation)
    ensures r.Success? <==> CountTrue(isRowBounds) <= 1 && CountTrue(isResultHandler) <= 1
    ensures CountTrue(isRowBounds) >= 2 ==>
      r == Failure(MultipleParams(methodName, "RowBounds"))
    ensures CountTrue(isRowBounds) <= 1 && CountTrue(isResultHandler) >= 2 ==>
      r == Failure(MultipleParams(methodName, "ResultHandler"))
    ensures r.Success? ==>
      && (r.value.rowBoundsIndex.Some? <==> CountTrue(isRowBounds) == 1)
      && (r.value.rowBoundsIndex.Some? ==> r.value.rowBoundsIndex.value < |isRowBounds| && isRowBounds[r.value.rowBoundsIndex.value])
      && (r.value.resultHandlerIndex.Some? <==> CountTrue(isResultHandler) == 1)
      && (r.value.resultHandlerIndex.Some? ==> r.value.resultHandlerIndex.value < |isResultHandler| && isResultHandler[r.value.resultHandlerIndex.value])
  {
    var mapKey := MapKeyOf(isMapType, mapKeyAnnotation);
    var rowBoundsIndex := GetUniqueParamIndex(isRowBounds, methodName, "RowBounds");
    if rowBoundsIndex.Failure? {
      return Failure(rowBoundsIndex.error);
    }
    var resultHandlerIndex := GetUniqueParamIndex(isResultHandler, methodName, "ResultHandler");
    if resultHandlerIndex.Failure? {
      return Failure(resultHandlerIndex.error);
    }
    r := Success(MethodSignature(
      returnType,
      isCollection || returnType.ArrayClass?,
      mapKey.Some?,
      returnType == VoidPrim,
      returnType == CursorClass,
      returnType == OptionalClass,
      mapKey,
      resultHandlerIndex.value,
      rowBoundsIndex.value));
  }

  // ---------------------------------------------------------------- convertToArray and ParamMap

  /**
   * What `Array.set` throws when asked to store null into an array of a primitive type; the
   * position of the offending element is recorded for the model's own statements only.
   */
  datatype ArraySetError = IllegalArgumentException(index: nat)

  /**
   * `convertToArray`: a new array as long as the list. For a primitive component type the
   * elements are stored one by one and the first null element throws; otherwise `toArray`
   * copies every element, null included. On success the array holds the list's elements in order.
   */
  method ConvertToArray<T>(list: seq<Option<T>>, primitiveComponent: bool)
    returns (r: Result<array<Option<T>>, ArraySetError>)
    ensures r.Failure? <==> primitiveComponent && None in list
    ensures r.Failure? ==> var i := r.error.index;
      i < |list| && list[i] == None && None !in list[..i]
    ensures r.Success? ==> fresh(r.value) && r.value.Length == |list| && r.value[..] == list
  {
    var a := new Option<T>[|list|];
    for i := 0 to |list|
      invariant a[..i] == list[..i]
      invariant primitiveComponent ==> None !in list[..i]
    {
      if primitiveComponent && list[i].None? {
        return Failure(IllegalArgumentException(i));
      }
      a[i] := list[i];
      assert list[..i + 1] == list[..i] + [list[i]];
    }
    assert list[..|list|] == list;
    return Success(a);
  }

  /** A parameter map that refuses to answer for a missing name instead of returning null. */
  class ParamMap<V> {
    var entries: map<string, V>

    constructor ()
      ensures entries == map[]
    {
      entries := map[];
    }

    method Put(key: string, value: V)
      modifies this
      ensures entries == old(entries)[key := value]
    {
      entries := entries[key := value];
    }

    /** `get`: the stored value, or an error naming the key and the available names. */
    function Get(key: string): (r: Result<V, BindingError>)
      reads this
      ensures r.Success? <==> key in entries
      ensures r.Success? ==> r.value == entries[key]
      ensures r.Failure? ==> r.error == ParameterNotFound(key, entries.Keys)
    {
      if key !in entries then Failure(ParameterNotFound(key, entries.Keys)) else Success(entries[key])
    }
  }

  /** After `put(k, v)`, `get(k)` answers `v` and every other name keeps its answer. */
  method PutThenGet<V>(m: ParamMap<V>, key: string, value: V, other: string)
    requires other != key
    modifies m
  {
    ghost var before := m.Get(other);
    m.Put(key, value);
    assert m.Get(key) == Success(value);
    assert m.Get(other).Success? == before.Success?;
  }
}
