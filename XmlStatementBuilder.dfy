/**
 * The decision rules of the XML statement builder: whether a `<select|insert|update|delete>`
 * element is taken for the current database, the defaults of its attributes, which key
 * generator it gets, and how its `<selectKey>` children are registered first, in two passes.
 *
 * Element attributes arrive already parsed (`None` = attribute absent); statement ids are
 * taken as already qualified by the mapper namespace.
 */
module XmlStatementBuilders {
  import opened Wrappers
  import MapperMethods

  type SqlCommandType = MapperMethods.SqlCommandType

  datatype StatementType = STATEMENT | PREPARED | CALLABLE

  datatype ResultSetType = DEFAULT | FORWARD_ONLY | SCROLL_INSENSITIVE | SCROLL_SENSITIVE

  /** The suffix of the id under which a statement's `<selectKey>` is registered. */
  const SELECT_KEY_SUFFIX: string := "!selectKey"

  /** The registered form of a statement (only the attributes these rules decide). */
  datatype MappedStatement = MappedStatement(
    id: string,
    sqlCommandType: SqlCommandType,
    statementType: StatementType,
    resultSetType: Option<ResultSetType>,
    flushCache: bool,
    useCache: bool,
    resultOrdered: bool,
    keyGenerator: KeyGenerator,
    databaseId: Option<string>)

  datatype KeyGenerator =
    | NoKeyGenerator
    | Jdbc3KeyGenerator
    | SelectKeyGenerator(keyStatementId: string, executeBefore: bool)

  /** A `<selectKey>` element. */
  datatype SelectKeyNode = SelectKeyNode(databaseId: Option<string>, statementType: Option<StatementType>, order: Option<string>)

  /** A statement element. */
  datatype StatementNode = StatementNode(
    id: string,
    sqlCommandType: SqlCommandType,
    databaseId: Option<string>,
    flushCache: Option<bool>,
    useCache: Option<bool>,
    resultOrdered: Option<bool>,
    useGeneratedKeys: Option<bool>,
    statementType: Option<StatementType>,
    resultSetType: Option<ResultSetType>,
    selectKeys: seq<SelectKeyNode>)

  /** The configuration's registries of statements and key generators. */
  datatype Registry = Registry(statements: map<string, MappedStatement>, keyGenerators: map<string, KeyGenerator>)

  // ---------------------------------------------------------------- databaseIdMatchesCurrent

  /**
   * `databaseIdMatchesCurrent`: with a required database id, exactly the elements declaring
   * it; without one, elements declaring none, unless a statement of that id is already
   * registered for a specific database.
   */
  function DatabaseIdMatchesCurrent(statements: map<string, MappedStatement>, id: string,
                                    databaseId: Option<string>, requiredDatabaseId: Option<string>): (r: bool)
    ensures requiredDatabaseId.Some? ==> (r <==> databaseId == requiredDatabaseId)
    ensures requiredDatabaseId.None? && databaseId.Some? ==> !r
    ensures requiredDatabaseId.None? && databaseId.None? ==>
      (r <==> id !in statements || statements[id].databaseId.None?)
  {
    if requiredDatabaseId.Some? then requiredDatabaseId == databaseId
    else if databaseId.Some? then false
    else if id !in statements then true
    else statements[id].databaseId.None?
  }

  // ---------------------------------------------------------------- parseStatementNode decisions

  /**
   * The key generator: a registered `<selectKey>` generator first; otherwise Jdbc3 exactly when
   * `useGeneratedKeys` says so, the attribute defaulting to the global flag for inserts only.
   */
  function KeyGeneratorFor(keyGenerators: map<string, KeyGenerator>, keyStatementId: string,
                           useGeneratedKeys: Option<bool>, globalUseGeneratedKeys: bool,
                           sqlCommandType: SqlCommandType): (r: KeyGenerator)
    ensures keyStatementId in keyGenerators ==> r == keyGenerators[keyStatementId]
    ensures keyStatementId !in keyGenerators ==> (r.Jdbc3KeyGenerator? || r.NoKeyGenerator?)
    ensures keyStatementId !in keyGenerators ==>
      (r.Jdbc3KeyGenerator? <==> useGeneratedKeys.GetOr(globalUseGeneratedKeys && sqlCommandType == MapperMethods.INSERT))
  {
    if keyStatementId in keyGenerators then keyGenerators[keyStatementId]
    else if useGeneratedKeys.GetOr(globalUseGeneratedKeys && sqlCommandType == MapperMethods.INSERT) then Jdbc3KeyGenerator
    else NoKeyGenerator
  }

  /** Without the attribute and without a `<selectKey>`, only an insert can get generated keys. */
  lemma OnlyInsertsDefaultToGeneratedKeys(keyGenerators: map<string, KeyGenerator>, keyStatementId: string,
                                          globalUseGeneratedKeys: bool, sqlCommandType: SqlCommandType)
    requires keyStatementId !in keyGenerators
    ensures KeyGeneratorFor(keyGenerators, keyStatementId, None, globalUseGeneratedKeys, sqlCommandType).Jdbc3KeyGenerator?
        <==> globalUseGeneratedKeys && sqlCommandType == MapperMethods.INSERT
  {
  }

  /**
   * The statement `parseStatementNode` registers: a select does not flush and uses the cache,
   * any other command flushes and does not; results are unordered, the statement is prepared
   * and the result-set type is the configuration's, unless the element says otherwise.
   */
  function StatementOf(node: StatementNode, keyGenerator: KeyGenerator, defaultResultSetType: Option<ResultSetType>): (ms: MappedStatement)
    ensures ms.id == node.id && ms.sqlCommandType == node.sqlCommandType && ms.databaseId == node.databaseId
    ensures ms.keyGenerator == keyGenerator
    ensures node.flushCache.None? ==> (ms.flushCache <==> node.sqlCommandType != MapperMethods.SELECT)
    ensures node.useCache.None? ==> (ms.useCache <==> node.sqlCommandType == MapperMethods.SELECT)
    ensures node.resultOrdered.None? ==> !ms.resultOrdered
    ensures node.statementType.None? ==> ms.statementType == PREPARED
    ensures node.resultSetType.None? ==> ms.resultSetType == defaultResultSetType
    ensures node.flushCache.Some? ==> ms.flushCache == node.flushCache.value
    ensures node.useCache.Some? ==> ms.useCache == node.useCache.value
    ensures node.resultOrdered.Some? ==> ms.resultOrdered == node.resultOrdered.value
    ensures node.statementType.Some? ==> ms.statementType == node.statementType.value
    ensures node.resultSetType.Some? ==> ms.resultSetType == node.resultSetType
  {
    var isSelect := node.sqlCommandType == MapperMethods.SELECT;
    MappedStatement(
      node.id,
      node.sqlCommandType,
      node.statementType.GetOr(PREPARED),
      if node.resultSetType.Some? then node.resultSetType else defaultResultSetType,
      node.flushCache.GetOr(!isSelect),
      node.useCache.GetOr(isSelect),
      node.resultOrdered.GetOr(false),
      keyGenerator,
      node.databaseId)
  }

  /** With no cache attributes, a statement either reads through the cache or flushes it, never both. */
  lemma DefaultsCacheOrFlush(node: StatementNode, keyGenerator: KeyGenerator, defaultResultSetType: Option<ResultSetType>)
    requires node.flushCache.None? && node.useCache.None?
    ensures StatementOf(node, keyGenerator, defaultResultSetType).useCache
        != StatementOf(node, keyGenerator, defaultResultSetType).flushCache
  {
  }

  // ---------------------------------------------------------------- parseSelectKeyNode decisions

  /** `executeBefore`: the `order` attribute, defaulting to `AFTER`, is exactly `BEFORE`. */
  function ExecuteBefore(order: Option<string>): (r: bool)
    ensures r <==> order == Some("BEFORE")
  {
    "BEFORE" == order.GetOr("AFTER")
  }

  /** The statement a `<selectKey>` registers: an uncached, non-flushing select without a key generator of its own. */
  function SelectKeyStatementOf(id: string, node: SelectKeyNode): (ms: MappedStatement)
    ensures ms.id == id && ms.databaseId == node.databaseId
    ensures ms.sqlCommandType == MapperMethods.SELECT
    ensures !ms.useCache && !ms.flushCache && !ms.resultOrdered
    ensures ms.keyGenerator == NoKeyGenerator && ms.resultSetType == None
    ensures ms.statementType == node.statementType.GetOr(PREPARED)
  {
    MappedStatement(id, MapperMethods.SELECT, node.statementType.GetOr(PREPARED), None, false, false, false,
      NoKeyGenerator, node.databaseId)
  }

  /** One `<selectKey>` element of a pass: registered with its generator when its database id matches. */
  function SelectKeyStep(reg: Registry, parentId: string, node: SelectKeyNode, requiredDatabaseId: Option<string>): Registry {
    var id := parentId + SELECT_KEY_SUFFIX;
    if DatabaseIdMatchesCurrent(reg.statements, id, node.databaseId, requiredDatabaseId) then
      Registry(reg.statements[id := SelectKeyStatementOf(id, node)],
               reg.keyGenerators[id := SelectKeyGenerator(id, ExecuteBefore(node.order))])
    else reg
  }

  /** `parseSelectKeyNodes`: the elements in document order. */
  function SelectKeyPass(reg: Registry, parentId: string, nodes: seq<SelectKeyNode>, requiredDatabaseId: Option<string>): Registry
    decreases |nodes|
  {
    if nodes == [] then reg
    else SelectKeyStep(SelectKeyPass(reg, parentId, nodes[..|nodes| - 1], requiredDatabaseId), parentId, nodes[|nodes| - 1], requiredDatabaseId)
  }

  /** `processSelectKeyNodes`: a pass for the configured database id, if any, then one for none. */
  function SelectKeyPasses(reg: Registry, parentId: string, nodes: seq<SelectKeyNode>, databaseId: Option<string>): Registry {
    var first := if databaseId.Some? then SelectKeyPass(reg, parentId, nodes, databaseId) else reg;
    SelectKeyPass(first, parentId, nodes, None)
  }

  /** The last element declaring the given database id. */
  function LastFor(nodes: seq<SelectKeyNode>, databaseId: Option<string>): Option<SelectKeyNode>
    decreases |nodes|
  {
    if nodes == [] then None
    else if nodes[|nodes| - 1].databaseId == databaseId then Some(nodes[|nodes| - 1])
    else LastFor(nodes[..|nodes| - 1], databaseId)
  }

  /** Only the selectKey id is touched by a pass, and whatever it registers is consistent. */
  lemma {:induction false} PassTouchesOnlyItsId(reg: Registry, parentId: string, nodes: seq<SelectKeyNode>, required: Option<string>)
    ensures var r := SelectKeyPass(reg, parentId, nodes, required);
      && (forall id :: id != parentId + SELECT_KEY_SUFFIX ==>
            (id in r.statements <==> id in reg.statements) && (id in r.keyGenerators <==> id in reg.keyGenerators))
      && (forall id :: id != parentId + SELECT_KEY_SUFFIX && id in reg.statements ==> r.statements[id] == reg.statements[id])
      && (forall id :: id != parentId + SELECT_KEY_SUFFIX && id in reg.keyGenerators ==> r.keyGenerators[id] == reg.keyGenerators[id])
    decreases |nodes|
  {
    if nodes != [] {
      PassTouchesOnlyItsId(reg, parentId, nodes[..|nodes| - 1], required);
    }
  }

  /** A pass for a required database id registers the last element declaring it. */
  lemma {:induction false} SpecificPassRegistersLast(reg: Registry, parentId: string, nodes: seq<SelectKeyNode>, d: string)
    requires LastFor(nodes, Some(d)).Some?
    ensures var id := parentId + SELECT_KEY_SUFFIX;
      var r := SelectKeyPass(reg, parentId, nodes, Some(d));
      var n := LastFor(nodes, Some(d)).value;
      && id in r.statements && r.statements[id] == SelectKeyStatementOf(id, n)
      && id in r.keyGenerators && r.keyGenerators[id] == SelectKeyGenerator(id, ExecuteBefore(n.order))
    decreases |nodes|
  {
    if nodes[|nodes| - 1].databaseId != Some(d) {
      SpecificPassRegistersLast(reg, parentId, nodes[..|nodes| - 1], d);
    }
  }

  /** Once a database-specific statement holds the id, a pass for no database id changes nothing. */
  lemma {:induction false} GenericPassSkipsWhenSpecificPresent(reg: Registry, parentId: string, nodes: seq<SelectKeyNode>)
    requires parentId + SELECT_KEY_SUFFIX in reg.statements
    requires reg.statements[parentId + SELECT_KEY_SUFFIX].databaseId.Some?
    ensures SelectKeyPass(reg, parentId, nodes, None) == reg
    decreases |nodes|
  {
    if nodes != [] {
      GenericPassSkipsWhenSpecificPresent(reg, parentId, nodes[..|nodes| - 1]);
    }
  }

  /**
   * With a configured database id, a `<selectKey>` declaring it beats any generic one: after
   * both passes the id holds the last specific element's statement and generator.
   */
  lemma SpecificSelectKeyWins(reg: Registry, parentId: string, nodes: seq<SelectKeyNode>, d: string)
    requires LastFor(nodes, Some(d)).Some?
    ensures var id := parentId + SELECT_KEY_SUFFIX;
      var r := SelectKeyPasses(reg, parentId, nodes, Some(d));
      var n := LastFor(nodes, Some(d)).value;
      && id in r.statements && r.statements[id] == SelectKeyStatementOf(id, n)
      && r.statements[id].databaseId == Some(d)
      && id in r.keyGenerators && r.keyGenerators[id] == SelectKeyGenerator(id, ExecuteBefore(n.order))
  {
    var first := SelectKeyPass(reg, parentId, nodes, Some(d));
    SpecificPassRegistersLast(reg, parentId, nodes, d);
    LastForDeclares(nodes, Some(d));
    GenericPassSkipsWhenSpecificPresent(first, parentId, nodes);
  }

  lemma {:induction false} LastForDeclares(nodes: seq<SelectKeyNode>, databaseId: Option<string>)
    requires LastFor(nodes, databaseId).Some?
    ensures LastFor(nodes, databaseId).value.databaseId == databaseId
    decreases |nodes|
  {
    if nodes[|nodes| - 1].databaseId != databaseId {
      LastForDeclares(nodes[..|nodes| - 1], databaseId);
    }
  }

  // ---------------------------------------------------------------- the registries and the builder

  /** The part of the configuration the builder reads and registers into. */
  class Configuration {
    var mappedStatements: map<string, MappedStatement>
    var keyGenerators: map<string, KeyGenerator>
    const databaseId: Option<string>
    const useGeneratedKeys: bool
    const defaultResultSetType: Option<ResultSetType>

    constructor (databaseId: Option<string>, useGeneratedKeys: bool, defaultResultSetType: Option<ResultSetType>)
      ensures mappedStatements == map[] && keyGenerators == map[]
      ensures this.databaseId == databaseId && this.useGeneratedKeys == useGeneratedKeys
      ensures this.defaultResultSetType == defaultResultSetType
    {
      mappedStatements := map[];
      keyGenerators := map[];
      this.databaseId := databaseId;
      this.useGeneratedKeys := useGeneratedKeys;
      this.defaultResultSetType := defaultResultSetType;
    }

    function RegistryOf(): Registry
      reads this
    {
      Registry(mappedStatements, keyGenerators)
    }

    method AddMappedStatement(ms: MappedStatement)
      modifies this
      ensures mappedStatements == old(mappedStatements)[ms.id := ms]
      ensures keyGenerators == old(keyGenerators)
    {
      mappedStatements := mappedStatements[ms.id := ms];
    }

    method AddKeyGenerator(id: string, keyGenerator: KeyGenerator)
      modifies this
      ensures keyGenerators == old(keyGenerators)[id := keyGenerator]
      ensures mappedStatements == old(mappedStatements)
    {
      keyGenerators := keyGenerators[id := keyGenerator];
    }
  }

  /** A builder for one statement element. */
  class XmlStatementBuilder {
    const configuration: Configuration
    const context: StatementNode
    const requiredDatabaseId: Option<string>

    constructor (configuration: Configuration, context: StatementNode, databaseId: Option<string>)
      ensures this.configuration == configuration && this.context == context && this.requiredDatabaseId == databaseId
    {
      this.configuration := configuration;
      this.context := context;
      this.requiredDatabaseId := databaseId;
    }

    /** `parseSelectKeyNode`: register the key statement, then its generator under the same id. */
    method ParseSelectKeyNode(id: string, node: SelectKeyNode)
      modifies configuration
      ensures configuration.mappedStatements == old(configuration.mappedStatements)[id := SelectKeyStatementOf(id, node)]
      ensures configuration.keyGenerators == old(configuration.keyGenerators)[id := SelectKeyGenerator(id, ExecuteBefore(node.order))]
    {
      var executeBefore := ExecuteBefore(node.order);
      var keyStatement := SelectKeyStatementOf(id, node);
      configuration.AddMappedStatement(keyStatement);
      configuration.AddKeyGenerator(id, SelectKeyGenerator(keyStatement.id, executeBefore));
    }

    /** `parseSelectKeyNodes`: each element in order, when its database id matches. */
    method ParseSelectKeyNodes(parentId: string, nodes: seq<SelectKeyNode>, skRequiredDatabaseId: Option<string>)
      modifies configuration
      ensures configuration.RegistryOf() == SelectKeyPass(old(configuration.RegistryOf()), parentId, nodes, skRequiredDatabaseId)
    {
      ghost var start := configuration.RegistryOf();
      for i := 0 to |nodes|
        invariant configuration.RegistryOf() == SelectKeyPass(start, parentId, nodes[..i], skRequiredDatabaseId)
      {
        assert nodes[..i + 1][..i] == nodes[..i];
        var id := parentId + SELECT_KEY_SUFFIX;
        if DatabaseIdMatchesCurrent(configuration.mappedStatements, id, nodes[i].databaseId, skRequiredDatabaseId) {
          ParseSelectKeyNode(id, nodes[i]);
        }
      }
      assert nodes[..|nodes|] == nodes;
    }

    /** `processSelectKeyNodes`: the configured database id's pass first, then the generic one. */
    method ProcessSelectKeyNodes(id: string)
      modifies configuration
      ensures configuration.RegistryOf() == SelectKeyPasses(old(configuration.RegistryOf()), id, context.selectKeys, configuration.databaseId)
    {
      if configuration.databaseId.Some? {
        ParseSelectKeyNodes(id, context.selectKeys, configuration.databaseId);
      }
      ParseSelectKeyNodes(id, context.selectKeys, None);
    }

    /**
     * `parseStatementNode`: an element for another database changes nothing; otherwise its
     * `<selectKey>` children are registered and then the statement itself, with the key
     * generator chosen against the registry as the children left it.
     */
    method ParseStatementNode()
      modifies configuration
      ensures !DatabaseIdMatchesCurrent(old(configuration.mappedStatements), context.id, context.databaseId, requiredDatabaseId) ==>
        configuration.RegistryOf() == old(configuration.RegistryOf())
      ensures DatabaseIdMatchesCurrent(old(configuration.mappedStatements), context.id, context.databaseId, requiredDatabaseId) ==>
        var keys := SelectKeyPasses(old(configuration.RegistryOf()), context.id, context.selectKeys, configuration.databaseId);
        var kg := KeyGeneratorFor(keys.keyGenerators, context.id + SELECT_KEY_SUFFIX, context.useGeneratedKeys,
                                  configuration.useGeneratedKeys, context.sqlCommandType);
        && configuration.keyGenerators == keys.keyGenerators
        && configuration.mappedStatements == keys.statements[context.id := StatementOf(context, kg, configuration.defaultResultSetType)]
    {
      if !DatabaseIdMatchesCurrent(configuration.mappedStatements, context.id, context.databaseId, requiredDatabaseId) {
        return;
      }
      ProcessSelectKeyNodes(context.id);
      var keyStatementId := context.id + SELECT_KEY_SUFFIX;
      var keyGenerator := KeyGeneratorFor(configuration.keyGenerators, keyStatementId, context.useGeneratedKeys,
                                          configuration.useGeneratedKeys, context.sqlCommandType);
      configuration.AddMappedStatement(StatementOf(context, keyGenerator, configuration.defaultResultSetType));
    }
  }

  /**
   * A statement whose `<selectKey>` child is taken gets that child's generator, whatever its
   * `useGeneratedKeys` attribute says.
   */
  lemma SelectKeyChildDecidesKeyGenerator(reg: Registry, node: StatementNode, d: string, globalUseGeneratedKeys: bool)
    requires LastFor(node.selectKeys, Some(d)).Some?
    ensures var keys := SelectKeyPasses(reg, node.id, node.selectKeys, Some(d));
      KeyGeneratorFor(keys.keyGenerators, node.id + SELECT_KEY_SUFFIX, node.useGeneratedKeys, globalUseGeneratedKeys, node.sqlCommandType)
        == SelectKeyGenerator(node.id + SELECT_KEY_SUFFIX, ExecuteBefore(LastFor(node.selectKeys, Some(d)).value.order))
  {
    SpecificSelectKeyWins(reg, node.id, node.selectKeys, d);
  }
}
