/** The remote engine's model registry: per-model configurations loaded from
    YAML documents (`LoadModelConfig`), their removal and lookup, and the
    process-wide authorization header (`api_key_template_`). */
module Registry {
  import opened Wrappers
  import opened JsonValue
  import opened ApiKey

  /** A yaml-cpp node. A null node is folded into `Scalar`: converting it to
      a string succeeds like a scalar's does. */
  datatype Yaml =
    | Scalar(text: string)
    | Sequence(items: seq<Yaml>)
    | Mapping(entries: map<string, Yaml>)

  /** `node[key]` followed by the definedness test `!node[key]`: only a
      mapping has members; subscripting anything else either throws a
      yaml-cpp exception or yields an undefined node, and every caller
      treats both as "absent". */
  function Child(n: Yaml, key: string): (r: Option<Yaml>)
    ensures r.Some? <==> n.Mapping? && key in n.entries
    ensures r.Some? ==> r.value == n.entries[key]
  {
    if n.Mapping? && key in n.entries then Some(n.entries[key]) else None
  }

  /** `node.as<std::string>()`: only scalars convert; other kinds throw
      `YAML::BadConversion`. */
  function AsText(n: Yaml): (r: Option<string>)
    ensures r.Some? <==> n.Scalar?
    ensures r.Some? ==> r.value == n.text
  {
    if n.Scalar? then Some(n.text) else None
  }

  /** The configuration of one loaded model. `transformReq` and
      `transformResp` are the optional `TransformReq` / `TransformResp`
      sections of its document, None when the document has none. */
  datatype ModelConfig = ModelConfig(
    model: string,
    apiKey: string,
    transformReq: Option<Yaml>,
    transformResp: Option<Yaml>,
    isLoaded: bool)

  /** The engine's mutable state: the registry `models_`, the rendered
      authorization header `api_key_template_` and the `metadata_` of the last
      successful load that carried one. */
  datatype Engine = Engine(models: map<string, ModelConfig>, authHeader: string, metadata: Json)

  /** A freshly constructed engine. */
  const Initial: Engine := Engine(map[], "", JNull)

  /** Every registered configuration is filed under its own name and marked
      loaded. */
  ghost predicate Valid(e: Engine) {
    forall name :: name in e.models ==> e.models[name].model == name && e.models[name].isLoaded
  }

  lemma InitialIsValid()
    ensures Valid(Initial)
  {
  }

  function GetModelConfig(e: Engine, model: string): (r: Option<ModelConfig>)
    ensures r.Some? <==> model in e.models
    ensures r.Some? ==> r.value == e.models[model]
  {
    if model in e.models then Some(e.models[model]) else None
  }

  /** The `api_key_template` field of a configuration document, if it is
      present and converts to a string. */
  function AuthTemplate(doc: Yaml): (r: Option<string>)
    ensures r.Some? <==> doc.Mapping? && "api_key_template" in doc.entries
                         && doc.entries["api_key_template"].Scalar?
    ensures r.Some? ==> r.value == doc.entries["api_key_template"].text
  {
    match Child(doc, "api_key_template")
    case Some(node) => AsText(node)
    case None => None
  }

  datatype Loaded = Loaded(ok: bool, engine: Engine)

  /** Installs the configuration document `doc` (None when `YAML::LoadFile`
      threw) under `model`. Fails, changing nothing, when the document could
      not be read or its `api_key_template` is missing or not a string. */
  function LoadModelConfig(e: Engine, model: string, doc: Option<Yaml>, apiKey: string): (r: Loaded)
    ensures r.ok <==> doc.Some? && AuthTemplate(doc.value).Some?
    ensures !r.ok ==> r.engine == e
    ensures r.ok ==> r.engine.models.Keys == e.models.Keys + {model}
    ensures r.ok ==> (&& r.engine.models[model].model == model
                      && r.engine.models[model].apiKey == apiKey
                      && r.engine.models[model].isLoaded
                      && r.engine.models[model].transformReq == Child(doc.value, "TransformReq")
                      && r.engine.models[model].transformResp == Child(doc.value, "TransformResp"))
    ensures r.ok ==> forall other :: other != model ==>
                       GetModelConfig(r.engine, other) == GetModelConfig(e, other)
    ensures r.ok ==> r.engine.authHeader == ReplaceApiKeyPlaceholder(AuthTemplate(doc.value).value, apiKey)
    ensures r.engine.metadata == e.metadata
    ensures Valid(e) ==> Valid(r.engine)
  {
    match doc
    case None => Loaded(false, e)
    case Some(root) =>
      match AuthTemplate(root)
      case None => Loaded(false, e)
      case Some(template) =>
        var config := ModelConfig(model, apiKey, Child(root, "TransformReq"), Child(root, "TransformResp"), true);
        Loaded(true, e.(models := e.models[model := config],
                        authHeader := ReplaceApiKeyPlaceholder(template, apiKey)))
  }

  /** `models_.erase(model)`: removes the entry if there is one. */
  function EraseModel(e: Engine, model: string): (r: Engine)
    ensures r.models.Keys == e.models.Keys - {model}
    ensures forall other :: other != model ==> GetModelConfig(r, other) == GetModelConfig(e, other)
    ensures r.authHeader == e.authHeader && r.metadata == e.metadata
    ensures Valid(e) ==> Valid(r)
  {
    e.(models := e.models - {model})
  }

  /** A successful load is immediately visible as a loaded configuration. */
  lemma GetAfterLoad(e: Engine, model: string, doc: Yaml, apiKey: string)
    requires AuthTemplate(doc).Some?
    ensures var c := GetModelConfig(LoadModelConfig(e, model, Some(doc), apiKey).engine, model);
            c.Some? && c.value.isLoaded && c.value.apiKey == apiKey
  {
  }

  /** After an erase the name is absent. */
  lemma GetAfterErase(e: Engine, model: string)
    ensures GetModelConfig(EraseModel(e, model), model).None?
  {
  }

  /** Loading the same name twice keeps one entry, the second one, and the
      authorization header of the second load. */
  lemma LoadTwiceLastWins(e: Engine, model: string, doc1: Yaml, doc2: Yaml, key1: string, key2: string)
    requires AuthTemplate(doc1).Some? && AuthTemplate(doc2).Some?
    ensures var e1 := LoadModelConfig(e, model, Some(doc1), key1).engine;
            var e2 := LoadModelConfig(e1, model, Some(doc2), key2).engine;
            e2 == LoadModelConfig(e, model, Some(doc2), key2).engine
  {
    var e1 := LoadModelConfig(e, model, Some(doc1), key1).engine;
    assert e1.models[model := ModelConfig(model, key2, Child(doc2, "TransformReq"), Child(doc2, "TransformResp"), true)]
        == e.models[model := ModelConfig(model, key2, Child(doc2, "TransformReq"), Child(doc2, "TransformResp"), true)];
  }
}
