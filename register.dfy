/** The displayables register: a dict-backed database of displayable schemas looked up by node
    key, a template factory that shares a database's dict, the adapters and visitor of the
    pipeline, a builder that chains them, and a mediator that feeds the builder a memento. */
module Register {
  import opened Wrappers

  /** The Python exceptions the register raises. */
  datatype PyError = KeyError | TypeError | AttributeError | NotImplementedError

  /** `dict.get(key, None)`: the stored value, which may itself be `None`, or `None` for a
      missing key. */
  function Get<K, V>(items: map<K, Option<V>>, key: K): (r: Option<V>)
    ensures r.Some? <==> key in items && items[key].Some?
  {
    if key in items then items[key] else None
  }

  /** `lookup_node` as written: when the lookup gives `None`, building the error message formats
      two values into a single `%s`, which raises TypeError before the intended KeyError. */
  function LookupAsWritten<K, V>(items: map<K, Option<V>>, key: K): (r: Result<V, PyError>)
    ensures r.Ok? <==> Get(items, key).Some?
    ensures r.Ok? ==> r.value == Get(items, key).value
  {
    var lookup := Get(items, key);
    if lookup.None? then Err(TypeError) else Ok(lookup.value)
  }

  /** `lookup_node` as documented: the stored value, or KeyError when the key is missing or maps
      to `None`. */
  function Lookup<K, V>(items: map<K, Option<V>>, key: K): (r: Result<V, PyError>)
    ensures r.Ok? <==> key in items && items[key].Some?
    ensures r.Ok? ==> r.value == items[key].value
    ensures r.Err? ==> r.error == KeyError
  {
    var lookup := Get(items, key);
    if lookup.None? then Err(KeyError) else Ok(lookup.value)
  }

  /** The two agree on every success, and every failure of the code as written is a TypeError,
      never the documented KeyError. */
  lemma LookupAsWrittenRaisesTypeError<K, V>(items: map<K, Option<V>>, key: K)
    ensures LookupAsWritten(items, key).Ok? <==> Lookup(items, key).Ok?
    ensures LookupAsWritten(items, key).Ok? ==> LookupAsWritten(items, key) == Lookup(items, key)
    ensures LookupAsWritten(items, key).Err? ==> LookupAsWritten(items, key).error == TypeError != Lookup(items, key).error
  {
  }

  /** The smallest input that shows it: an empty database looked up under any key. */
  lemma LookupEmptyScenario()
    ensures LookupAsWritten<string, string>(map[], "node_key") == Err(TypeError)
    ensures Lookup<string, string>(map[], "node_key") == Err(KeyError)
  {
  }

  /** A key updated to a stored value is found with that value; every other key is looked up as
      before. */
  lemma LookupAfterUpdate<K, V>(items: map<K, Option<V>>, key: K, value: V, other: K)
    ensures Lookup(items + map[key := Some(value)], key) == Ok(value)
    ensures other != key ==> Lookup(items + map[key := Some(value)], other) == Lookup(items, other)
  {
  }

  /** The `data` dict of a `UserDict`, an object of its own that several holders can share. */
  class Dict<K(==), V> {
    var items: map<K, Option<V>>

    constructor ()
      ensures items == map[]
    {
      items := map[];
    }

    /** `update(m)`. */
    method Update(m: map<K, Option<V>>)
      modifies this
      ensures items == old(items) + m
    {
      items := items + m;
    }
  }

  /** `SimpleDisplayablesDatabase`: a `UserDict` of node keys to displayable schemas. */
  class DisplayablesDatabase<K(==), V> {
    var data: Dict<K, V>

    constructor ()
      ensures fresh(data) && data.items == map[]
    {
      data := new Dict();
    }

    method Update(m: map<K, Option<V>>)
      modifies data
      ensures data.items == old(data.items) + m
    {
      data.Update(m);
    }

    /** `lookup_node(key)`, as documented: KeyError where the code as written raises TypeError,
        the same value everywhere else. */
    function LookupNode(key: K): (r: Result<V, PyError>)
      reads this, data
      ensures r.Ok? <==> key in data.items && data.items[key].Some?
      ensures r.Ok? ==> r.value == data.items[key].value
      ensures r.Err? ==> r.error == KeyError
      ensures r.Ok? ==> r == LookupAsWritten(data.items, key)
      ensures r.Err? ==> LookupAsWritten(data.items, key) == Err(TypeError)
    {
      Lookup(data.items, key)
    }
  }

  /** `SimpleDisplayableTemplateFactory`: a database whose templates are its looked-up schemas. */
  class TemplateFactory<K(==), V> {
    var data: Dict<K, V>

    constructor ()
      ensures fresh(data) && data.items == map[]
    {
      data := new Dict();
    }

    /** `make_template(key)` is `lookup_node(key)`, as documented; where it fails, the code as
        written raises TypeError. */
    function MakeTemplate(key: K): (r: Result<V, PyError>)
      reads this, data
      ensures r == Lookup(data.items, key)
      ensures r.Ok? <==> key in data.items && data.items[key].Some?
      ensures r.Err? ==> LookupAsWritten(data.items, key) == Err(TypeError)
    {
      Lookup(data.items, key)
    }

    /** `from_database(db)`: keeps a reference to the database's dict rather than a copy. */
    method FromDatabase(database: DisplayablesDatabase<K, V>)
      modifies this
      ensures data == database.data
    {
      data := database.data;
    }
  }

  /** The test: a database updated with one key finds that key's schema. */
  method UserDictScenario() returns (r: Result<string, PyError>)
    ensures r == Ok("displayable_schema")
  {
    var db := new DisplayablesDatabase<string, string>();
    db.Update(map["node_key" := Some("displayable_schema")]);
    r := db.LookupNode("node_key");
  }

  /** A factory built from a database sees updates made to the database afterwards, because the
      two share one dict. The first lookup fails: KeyError as documented, TypeError as written. */
  method SharedDataScenario() returns (before: Result<string, PyError>, beforeAsWritten: Result<string, PyError>,
                                       after: Result<string, PyError>)
    ensures before == Err(KeyError) && beforeAsWritten == Err(TypeError) && after == Ok("late")
  {
    var db := new DisplayablesDatabase<string, string>();
    var factory := new TemplateFactory<string, string>();
    factory.FromDatabase(db);
    before := factory.MakeTemplate("key");
    beforeAsWritten := LookupAsWritten(factory.data.items, "key");
    db.Update(map["key" := Some("late")]);
    after := factory.MakeTemplate("key");
  }

  /** `SimpleNodeDetailsAdapter`: `adapt_memento` is not implemented. Node details are an alias
      of the memento type. */
  datatype NodeDetailsAdapter = NodeDetailsAdapter {
    function AdaptMemento<M>(memento: M): (r: Result<M, PyError>)
      ensures r == Err(NotImplementedError)
    {
      Err(NotImplementedError)
    }
  }

  /** `SimpleDisplayableTemplateVisitor`: `visit_displayable_template` is not implemented. */
  datatype TemplateVisitor = TemplateVisitor {
    function VisitDisplayableTemplate<T, N>(template: T, details: N): (r: Result<T, PyError>)
      ensures r == Err(NotImplementedError)
    {
      Err(NotImplementedError)
    }
  }

  /** `SimpleDisplayableAdapter`: a template already is a displayable. */
  datatype DisplayableAdapter = DisplayableAdapter {
    function AdaptTemplate<T>(template: T): (r: T)
      ensures r == template
    {
      template
    }
  }

  /** `SimpleDisplayableBuilder`: four parts attached through properties; each getter raises
      AttributeError until its setter has run. */
  class DisplayableBuilder<K(==), V> {
    var templateFactory: Option<TemplateFactory<K, V>>
    var nodeDetailsAdapter: Option<NodeDetailsAdapter>
    var templateVisitor: Option<TemplateVisitor>
    var displayableAdapter: Option<DisplayableAdapter>

    constructor ()
      ensures templateFactory == None && nodeDetailsAdapter == None
      ensures templateVisitor == None && displayableAdapter == None
    {
      templateFactory, nodeDetailsAdapter := None, None;
      templateVisitor, displayableAdapter := None, None;
    }

    function GetTemplateFactory(): (r: Result<TemplateFactory<K, V>, PyError>)
      reads this
      ensures r.Ok? <==> templateFactory.Some?
      ensures r.Ok? ==> r.value == templateFactory.value
      ensures r.Err? ==> r.error == AttributeError
    {
      if templateFactory.None? then Err(AttributeError) else Ok(templateFactory.value)
    }

    function GetNodeDetailsAdapter(): (r: Result<NodeDetailsAdapter, PyError>)
      reads this
      ensures r.Ok? <==> nodeDetailsAdapter.Some?
      ensures r.Err? ==> r.error == AttributeError
    {
      if nodeDetailsAdapter.None? then Err(AttributeError) else Ok(nodeDetailsAdapter.value)
    }

    function GetTemplateVisitor(): (r: Result<TemplateVisitor, PyError>)
      reads this
      ensures r.Ok? <==> templateVisitor.Some?
      ensures r.Err? ==> r.error == AttributeError
    {
      if templateVisitor.None? then Err(AttributeError) else Ok(templateVisitor.value)
    }

    function GetDisplayableAdapter(): (r: Result<DisplayableAdapter, PyError>)
      reads this
      ensures r.Ok? <==> displayableAdapter.Some?
      ensures r.Err? ==> r.error == AttributeError
    {
      if displayableAdapter.None? then Err(AttributeError) else Ok(displayableAdapter.value)
    }

    method SetTemplateFactory(value: TemplateFactory<K, V>)
      modifies this
      ensures templateFactory == Some(value) && nodeDetailsAdapter == old(nodeDetailsAdapter)
      ensures templateVisitor == old(templateVisitor) && displayableAdapter == old(displayableAdapter)
    {
      templateFactory := Some(value);
    }

    method SetNodeDetailsAdapter(value: NodeDetailsAdapter)
      modifies this
      ensures nodeDetailsAdapter == Some(value) && templateFactory == old(templateFactory)
      ensures templateVisitor == old(templateVisitor) && displayableAdapter == old(displayableAdapter)
    {
      nodeDetailsAdapter := Some(value);
    }

    method SetTemplateVisitor(value: TemplateVisitor)
      modifies this
      ensures templateVisitor == Some(value) && templateFactory == old(templateFactory)
      ensures nodeDetailsAdapter == old(nodeDetailsAdapter) && displayableAdapter == old(displayableAdapter)
    {
      templateVisitor := Some(value);
    }

    method SetDisplayableAdapter(value: DisplayableAdapter)
      modifies this
      ensures displayableAdapter == Some(value) && templateFactory == old(templateFactory)
      ensures nodeDetailsAdapter == old(nodeDetailsAdapter) && templateVisitor == old(templateVisitor)
    {
      displayableAdapter := Some(value);
    }

    /** `build_displayable(key, memento)`: the factory's template, the memento's details, the
        visited template and the adapted displayable, each step raising before the next. Since
        `adapt_memento` always raises, no input builds a displayable; which error comes out
        depends on how far the chain gets. */
    method BuildDisplayable<M>(key: K, memento: M) returns (r: Result<V, PyError>)
      ensures r.Err?
      ensures templateFactory.None? ==> r.error == AttributeError
      ensures templateFactory.Some? && Lookup(templateFactory.value.data.items, key).Err? ==> r.error == KeyError
      ensures templateFactory.Some? && Lookup(templateFactory.value.data.items, key).Ok? ==>
                r.error == (if nodeDetailsAdapter.None? then AttributeError else NotImplementedError)
    {
      var factory := GetTemplateFactory();
      if factory.Err? {
        return Err(factory.error);
      }
      var template := factory.value.MakeTemplate(key);
      if template.Err? {
        return Err(template.error);
      }
      var adapter := GetNodeDetailsAdapter();
      if adapter.Err? {
        return Err(adapter.error);
      }
      // `adapt_memento` always raises, so the visitor and the displayable adapter are never
      // reached.
      var details := adapter.value.AdaptMemento(memento);
      r := Err(details.error);
    }
  }

  /** `SimpleRegisterMediator`: a source of mementos by node key and a builder, attached through
      properties. */
  class RegisterMediator<K(==), V, M> {
    var mementos: Option<K -> Result<M, PyError>>
    var builder: Option<DisplayableBuilder<K, V>>

    constructor ()
      ensures mementos == None && builder == None
    {
      mementos, builder := None, None;
    }

    function GetMementos(): (r: Result<K -> Result<M, PyError>, PyError>)
      reads this
      ensures r.Ok? <==> mementos.Some?
      ensures r.Ok? ==> r.value == mementos.value
      ensures r.Err? ==> r.error == AttributeError
    {
      if mementos.None? then Err(AttributeError) else Ok(mementos.value)
    }

    function GetDisplayableBuilder(): (r: Result<DisplayableBuilder<K, V>, PyError>)
      reads this
      ensures r.Ok? <==> builder.Some?
      ensures r.Ok? ==> r.value == builder.value
      ensures r.Err? ==> r.error == AttributeError
    {
      if builder.None? then Err(AttributeError) else Ok(builder.value)
    }

    method SetMementos(value: K -> Result<M, PyError>)
      modifies this
      ensures mementos == Some(value) && builder == old(builder)
    {
      mementos := Some(value);
    }

    method SetDisplayableBuilder(value: DisplayableBuilder<K, V>)
      modifies this
      ensures builder == Some(value) && mementos == old(mementos)
    {
      builder := Some(value);
    }

    /** `get_displayable(key)`: the memento for the key, then the builder's displayable; each
        missing part or failing step raises, and the builder never succeeds. */
    method GetDisplayable(key: K) returns (r: Result<V, PyError>)
      ensures r.Err?
      ensures mementos.None? ==> r.error == AttributeError
      ensures mementos.Some? && mementos.value(key).Err? ==> r.error == mementos.value(key).error
      ensures mementos.Some? && mementos.value(key).Ok? && builder.None? ==> r.error == AttributeError
    {
      var source := GetMementos();
      if source.Err? {
        return Err(source.error);
      }
      var memento := source.value(key);
      if memento.Err? {
        return Err(memento.error);
      }
      var b := GetDisplayableBuilder();
      if b.Err? {
        return Err(b.error);
      }
      r := b.value.BuildDisplayable(key, memento.value);
    }
  }

  /** The property test: a getter fails before its setter runs and returns the value after. */
  method BuilderPropertyScenario() returns (before: Result<DisplayableAdapter, PyError>, after: Result<DisplayableAdapter, PyError>, built: Result<string, PyError>)
    ensures before == Err(AttributeError) && after == Ok(DisplayableAdapter)
    ensures built == Err(NotImplementedError)
  {
    var builder := new DisplayableBuilder<string, string>();
    before := builder.GetDisplayableAdapter();
    builder.SetDisplayableAdapter(DisplayableAdapter);
    after := builder.GetDisplayableAdapter();
    var db := new DisplayablesDatabase<string, string>();
    db.Update(map["node_key" := Some("schema")]);
    var factory := new TemplateFactory<string, string>();
    factory.FromDatabase(db);
    builder.SetTemplateFactory(factory);
    builder.SetNodeDetailsAdapter(NodeDetailsAdapter);
    built := builder.BuildDisplayable("node_key", "memento");
  }
}
