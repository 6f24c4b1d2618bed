/** The configuration document codec: a molecule descriptor that is passed
    through unchanged, and the run configuration (MongoDB connection strings,
    step count, time step, molecules) that converts to and from a nested
    document with the sections `mongodb`, `simulation` and `molecules`. */
module Configurations {
  import opened Wrappers
  import opened Documents

  /** One molecule definition. Python copies whatever the document holds
      into the three fields without checking it, so each is a JSON value. */
  datatype MoleculeConfig = MoleculeConfig(name: Value, atomConfigs: Value, electronConfigs: Value)
  {
    /** `to_dict`: exactly the keys `name`, `atoms` and `electrons`, each
        holding the field as it is. */
    function ToDict(): (d: Value)
      ensures d.Obj? && d.fields.Keys == {"name", "atoms", "electrons"}
      ensures d.fields["name"] == name
      ensures d.fields["atoms"] == atomConfigs
      ensures d.fields["electrons"] == electronConfigs
    {
      Obj(map["name" := name, "atoms" := atomConfigs, "electrons" := electronConfigs])
    }

    /** `from_dict`: strict. Each of `name`, `atoms`, `electrons` is looked
        up with `d[key]`, in that order; the first missing one raises
        `KeyError`, and nothing is ever defaulted. Other keys are ignored. */
    static function FromDict(molData: Value): (r: Result<MoleculeConfig, PyError>)
      ensures r.Ok? <==> molData.Obj? && {"name", "atoms", "electrons"} <= molData.fields.Keys
      ensures r.Ok? ==> r.value == MoleculeConfig(molData.fields["name"], molData.fields["atoms"], molData.fields["electrons"])
      ensures !molData.Obj? ==> r == Err(TypeError)
      ensures molData.Obj? && "name" !in molData.fields ==> r == Err(KeyError("name"))
      ensures molData.Obj? && "name" in molData.fields && "atoms" !in molData.fields ==> r == Err(KeyError("atoms"))
      ensures molData.Obj? && "name" in molData.fields && "atoms" in molData.fields && "electrons" !in molData.fields
              ==> r == Err(KeyError("electrons"))
    {
      match Subscript(molData, "name")
      case Err(e) => Err(e)
      case Ok(name) =>
        match Subscript(molData, "atoms")
        case Err(e) => Err(e)
        case Ok(atoms) =>
          match Subscript(molData, "electrons")
          case Err(e) => Err(e)
          case Ok(electrons) => Ok(MoleculeConfig(name, atoms, electrons))
    }
  }

  /** `[MoleculeConfig.from_dict(x) for x in items]`: the first item that
      fails decides the error; otherwise one descriptor per item, in order. */
  function FromDictAll(items: seq<Value>): (r: Result<seq<MoleculeConfig>, PyError>)
    ensures r.Ok? <==> forall i :: 0 <= i < |items| ==> MoleculeConfig.FromDict(items[i]).Ok?
    ensures r.Ok? ==> |r.value| == |items|
    ensures r.Ok? ==> forall i :: 0 <= i < |items| ==> MoleculeConfig.FromDict(items[i]) == Ok(r.value[i])
    ensures r.Err? ==> exists i :: 0 <= i < |items| && MoleculeConfig.FromDict(items[i]) == Err(r.error)
                                   && forall j :: 0 <= j < i ==> MoleculeConfig.FromDict(items[j]).Ok?
  {
    if items == [] then Ok([])
    else
      match MoleculeConfig.FromDict(items[0])
      case Err(e) => Err(e)
      case Ok(m) =>
        var rest := FromDictAll(items[1..]);
        assert forall i :: 1 <= i < |items| ==> items[i] == items[1..][i - 1];
        match rest
        case Err(e) =>
          var k :| 0 <= k < |items| - 1 && MoleculeConfig.FromDict(items[1..][k]) == Err(e)
                   && forall j :: 0 <= j < k ==> MoleculeConfig.FromDict(items[1..][j]).Ok?;
          assert MoleculeConfig.FromDict(items[k + 1]) == Err(e);
          Err(e)
        case Ok(ms) => Ok([m] + ms)
  }

  /** The list comprehension over `molecules` as Python runs it on any value:
      a list is decoded item by item; iterating a non-empty string or dict
      yields strings, and `'...'['name']` raises `TypeError`; anything else
      is not iterable. */
  function MoleculesFromDict(v: Value): (r: Result<seq<MoleculeConfig>, PyError>)
    ensures v.Arr? ==> r == FromDictAll(v.items)
    ensures !v.Arr? && r.Ok? ==> r.value == []
    ensures r.Err? && !v.Arr? ==> r.error == TypeError
    ensures !v.Arr? ==> (r.Ok? <==> v == Str([]) || v == Obj(map[]))
  {
    match Iterate(v)
    case Items(items) => FromDictAll(items)
    case StrItems => Err(TypeError)
    case NotIterable => Err(TypeError)
  }

  /** The six fields of a `Configuration`, as one value. */
  datatype Settings = Settings(
    mongodbUri: Value,
    databaseName: Value,
    collectionName: Value,
    numSteps: Value,
    dt: Value,
    moleculeConfigs: seq<MoleculeConfig>)

  function DefaultUri(): Value { Str("mongodb://localhost:27017/") }
  function DefaultDatabase(): Value { Str("qed_adamant") }
  function DefaultCollection(): Value { Str("simulation_results") }
  function DefaultNumSteps(): Value { Int(1000) }
  function DefaultDt(): Value { Num(Decimal(1, -2)) }

  /** The hard-coded defaults of the constructor and of `from_dict`. */
  function Defaults(): Settings {
    Settings(DefaultUri(), DefaultDatabase(), DefaultCollection(), DefaultNumSteps(), DefaultDt(), [])
  }

  /** `[mol.to_dict() for mol in molecule_configs]`. */
  function MoleculeDicts(ms: seq<MoleculeConfig>): (ds: seq<Value>)
    ensures |ds| == |ms|
    ensures forall i :: 0 <= i < |ms| ==> ds[i] == ms[i].ToDict()
  {
    seq(|ms|, i requires 0 <= i < |ms| => ms[i].ToDict())
  }

  /** `Configuration.to_dict`: exactly three sections; `mongodb` holds the
      connection strings, `simulation` the step count and time step, and
      `molecules` one document per molecule in the same order. */
  function Encode(s: Settings): (d: Value)
    ensures d.Obj? && d.fields.Keys == {"mongodb", "simulation", "molecules"}
    ensures var mongodb := d.fields["mongodb"];
            && mongodb.Obj? && mongodb.fields.Keys == {"uri", "database", "collection"}
            && mongodb.fields["uri"] == s.mongodbUri
            && mongodb.fields["database"] == s.databaseName
            && mongodb.fields["collection"] == s.collectionName
    ensures var simulation := d.fields["simulation"];
            && simulation.Obj? && simulation.fields.Keys == {"num_steps", "dt"}
            && simulation.fields["num_steps"] == s.numSteps
            && simulation.fields["dt"] == s.dt
    ensures var molecules := d.fields["molecules"];
            && molecules.Arr? && |molecules.items| == |s.moleculeConfigs|
            && forall i :: 0 <= i < |s.moleculeConfigs| ==> molecules.items[i] == s.moleculeConfigs[i].ToDict()
  {
    Obj(map[
      "mongodb" := Obj(map["uri" := s.mongodbUri, "database" := s.databaseName, "collection" := s.collectionName]),
      "simulation" := Obj(map["num_steps" := s.numSteps, "dt" := s.dt]),
      "molecules" := Arr(MoleculeDicts(s.moleculeConfigs))])
  }

  /** The outcome of `Configuration.from_dict`: the fields afterwards, and
      the exception it raised, if any. */
  datatype Loaded = Loaded(state: Settings, raised: Option<PyError>)

  /** `Configuration.from_dict` on an object whose fields were `prior`. The
      three sections are fetched with `.get` (an absent one is `{}` or `[]`);
      then the fields are overwritten in source order, each with its
      `.get` default. An exception stops the assignments where it happens,
      so the fields assigned before it keep their new values and the rest
      keep `prior`'s. */
  function Load(prior: Settings, configDict: Value): (r: Loaded)
    ensures !configDict.Obj? ==> r == Loaded(prior, Some(AttributeError))
    ensures r.raised.Some? ==> r.state.moleculeConfigs == prior.moleculeConfigs
    ensures r.raised.Some? ==>
              r.raised.value in {AttributeError, TypeError, KeyError("name"), KeyError("atoms"), KeyError("electrons")}
  {
    var mongodb := Get(configDict, "mongodb", EmptyObject());
    var simulation := Get(configDict, "simulation", EmptyObject());
    var molecules := Get(configDict, "molecules", Arr([]));
    if mongodb.Err? then Loaded(prior, Some(mongodb.error))
    else
      var uri := Get(mongodb.value, "uri", DefaultUri());
      var database := Get(mongodb.value, "database", DefaultDatabase());
      var collection := Get(mongodb.value, "collection", DefaultCollection());
      if uri.Err? then Loaded(prior, Some(uri.error))
      else
        var connected := prior.(mongodbUri := uri.value, databaseName := database.value,
                                collectionName := collection.value);
        var numSteps := Get(simulation.value, "num_steps", DefaultNumSteps());
        var dt := Get(simulation.value, "dt", DefaultDt());
        if numSteps.Err? then Loaded(connected, Some(numSteps.error))
        else
          var simulated := connected.(numSteps := numSteps.value, dt := dt.value);
          match MoleculesFromDict(molecules.value)
          case Err(e) => Loaded(simulated, Some(e))
          case Ok(ms) => Loaded(simulated.(moleculeConfigs := ms), None)
  }

  /** The run configuration the GUI edits. */
  class Configuration {
    var mongodbUri: Value
    var databaseName: Value
    var collectionName: Value
    var numSteps: Value
    var dt: Value
    var moleculeConfigs: seq<MoleculeConfig>

    /** The six fields as one value. */
    function State(): Settings
      reads this
    {
      Settings(mongodbUri, databaseName, collectionName, numSteps, dt, moleculeConfigs)
    }

    /** `__init__`: every argument is optional and defaults as in the
        source; `molecule_configs=None` becomes the empty list. */
    constructor (mongodbUri: Value := DefaultUri(),
                 databaseName: Value := DefaultDatabase(),
                 collectionName: Value := DefaultCollection(),
                 numSteps: Value := DefaultNumSteps(),
                 dt: Value := DefaultDt(),
                 moleculeConfigs: Option<seq<MoleculeConfig>> := None)
      ensures State() == Settings(mongodbUri, databaseName, collectionName, numSteps, dt, moleculeConfigs.GetOr([]))
    {
      this.mongodbUri := mongodbUri;
      this.databaseName := databaseName;
      this.collectionName := collectionName;
      this.numSteps := numSteps;
      this.dt := dt;
      this.moleculeConfigs := if moleculeConfigs.Some? then moleculeConfigs.value else [];
    }

    /** `to_dict`: the document of the current fields, which `from_dict`
        turns back into exactly these fields whatever object it runs on. */
    function ToDict(): (d: Value)
      reads this
      ensures d == Encode(State())
      ensures forall prior :: Load(prior, d) == Loaded(State(), None)
    {
      LoadRoundTripAll(State());
      Encode(State())
    }

    /** `from_dict`: overwrites the six fields in source order and reports
        the exception that stopped it, if any. */
    method FromDict(configDict: Value) returns (raised: Option<PyError>)
      modifies this
      ensures Loaded(State(), raised) == Load(old(State()), configDict)
    {
      var mongodbConfig := Get(configDict, "mongodb", EmptyObject());
      var simulationConfig := Get(configDict, "simulation", EmptyObject());
      var moleculesConfig := Get(configDict, "molecules", Arr([]));
      if mongodbConfig.Err? {
        return Some(mongodbConfig.error);
      }

      var uri := Get(mongodbConfig.value, "uri", DefaultUri());
      if uri.Err? {
        return Some(uri.error);
      }
      mongodbUri := uri.value;
      databaseName := Get(mongodbConfig.value, "database", DefaultDatabase()).value;
      collectionName := Get(mongodbConfig.value, "collection", DefaultCollection()).value;

      var steps := Get(simulationConfig.value, "num_steps", DefaultNumSteps());
      if steps.Err? {
        return Some(steps.error);
      }
      numSteps := steps.value;
      dt := Get(simulationConfig.value, "dt", DefaultDt()).value;

      var molecules := MoleculesFromDict(moleculesConfig.value);
      if molecules.Err? {
        return Some(molecules.error);
      }
      moleculeConfigs := molecules.value;
      return None;
    }
  }

  // ---------------------------------------------------------------------
  // Properties of the codec

  /** A molecule descriptor survives `from_dict(to_dict())` field for field. */
  lemma MoleculeRoundTrip(m: MoleculeConfig)
    ensures MoleculeConfig.FromDict(m.ToDict()) == Ok(m)
  {
  }

  /** Decoding the documents of a list of molecules gives back the same
      molecules, in the same order. */
  lemma {:induction false} MoleculesRoundTrip(ms: seq<MoleculeConfig>)
    ensures MoleculesFromDict(Arr(MoleculeDicts(ms))) == Ok(ms)
  {
    var r := FromDictAll(MoleculeDicts(ms));
    forall i | 0 <= i < |ms|
      ensures MoleculeConfig.FromDict(MoleculeDicts(ms)[i]) == Ok(ms[i])
    {
      MoleculeRoundTrip(ms[i]);
    }
    assert r.value == ms;
  }

  /** The round-trip law: `from_dict(to_dict())` restores every field and
      raises nothing, whatever the object held before. */
  lemma LoadRoundTrip(prior: Settings, s: Settings)
    ensures Load(prior, Encode(s)) == Loaded(s, None)
  {
    MoleculesRoundTrip(s.moleculeConfigs);
  }

  /** `LoadRoundTrip` for every prior state at once, as `Configuration.ToDict`
      states it. */
  lemma LoadRoundTripAll(s: Settings)
    ensures forall prior :: Load(prior, Encode(s)) == Loaded(s, None)
  {
    forall prior ensures Load(prior, Encode(s)) == Loaded(s, None) {
      LoadRoundTrip(prior, s);
    }
  }

  /** `from_dict({})` resets every field to its default. */
  lemma LoadEmptyDocument(prior: Settings)
    ensures Load(prior, EmptyObject()) == Loaded(Defaults(), None)
  {
  }

  /** The value `from_dict` assigns to one scalar field: the document's own
      value if the section and the key are there, the default otherwise. */
  ghost function PresentOr(doc: map<string, Value>, section: string, key: string, default: Value): Value {
    if section in doc && doc[section].Obj? && key in doc[section].fields then doc[section].fields[key] else default
  }

  /** A section that `.get` can be called on: absent, or a dict. */
  ghost predicate SectionUsable(doc: map<string, Value>, section: string) {
    section !in doc || doc[section].Obj?
  }

  /** `from_dict` raises nothing exactly when the document is a dict, its
      `mongodb` and `simulation` sections are absent or dicts, and every
      molecule decodes; then each field is the document's value where
      present and the default where absent, and nothing of the prior state
      is left. */
  lemma LoadSubstitutesDefaults(prior: Settings, configDict: Value)
    ensures Load(prior, configDict).raised.None? <==>
              && configDict.Obj?
              && SectionUsable(configDict.fields, "mongodb")
              && SectionUsable(configDict.fields, "simulation")
              && MoleculesFromDict(Get(configDict, "molecules", Arr([])).value).Ok?
    ensures Load(prior, configDict).raised.None? ==>
              var s := Load(prior, configDict).state;
              var doc := configDict.fields;
              && s.mongodbUri == PresentOr(doc, "mongodb", "uri", DefaultUri())
              && s.databaseName == PresentOr(doc, "mongodb", "database", DefaultDatabase())
              && s.collectionName == PresentOr(doc, "mongodb", "collection", DefaultCollection())
              && s.numSteps == PresentOr(doc, "simulation", "num_steps", DefaultNumSteps())
              && s.dt == PresentOr(doc, "simulation", "dt", DefaultDt())
              && s.moleculeConfigs == MoleculesFromDict(Get(configDict, "molecules", Arr([])).value).value
  {
  }

  /** Whether or not it raises, the outcome of `from_dict` on a field that
      it reaches does not depend on the prior state; a successful call
      leaves no trace of it at all. */
  lemma LoadForgetsPriorState(p: Settings, q: Settings, configDict: Value)
    ensures Load(p, configDict).raised == Load(q, configDict).raised
    ensures Load(p, configDict).raised.None? ==> Load(p, configDict).state == Load(q, configDict).state
  {
  }

  /** When `from_dict` raises, the object is left half-updated: nothing is
      assigned if the document or its `mongodb` section is not a dict; the
      three connection fields are assigned if only `simulation` is not a
      dict; all but `molecule_configs` are assigned if a molecule fails. */
  lemma LoadOnError(prior: Settings, configDict: Value)
    requires Load(prior, configDict).raised.Some?
    ensures var r := Load(prior, configDict);
            var doc := if configDict.Obj? then configDict.fields else map[];
            if !configDict.Obj? || !SectionUsable(doc, "mongodb") then
              r == Loaded(prior, Some(AttributeError))
            else if !SectionUsable(doc, "simulation") then
              r == Loaded(prior.(mongodbUri := PresentOr(doc, "mongodb", "uri", DefaultUri()),
                                 databaseName := PresentOr(doc, "mongodb", "database", DefaultDatabase()),
                                 collectionName := PresentOr(doc, "mongodb", "collection", DefaultCollection())),
                          Some(AttributeError))
            else
              && r.state.moleculeConfigs == prior.moleculeConfigs
              && r.state.mongodbUri == PresentOr(doc, "mongodb", "uri", DefaultUri())
              && r.state.databaseName == PresentOr(doc, "mongodb", "database", DefaultDatabase())
              && r.state.collectionName == PresentOr(doc, "mongodb", "collection", DefaultCollection())
              && r.state.numSteps == PresentOr(doc, "simulation", "num_steps", DefaultNumSteps())
              && r.state.dt == PresentOr(doc, "simulation", "dt", DefaultDt())
              && r.raised == Some(MoleculesFromDict(Get(configDict, "molecules", Arr([])).value).error)
  {
  }

  /** `from_dict` keeps the molecules in document order, one per entry. */
  lemma LoadPreservesMoleculeOrder(prior: Settings, configDict: Value)
    requires configDict.Obj? && "molecules" in configDict.fields && configDict.fields["molecules"].Arr?
    requires Load(prior, configDict).raised.None?
    ensures var items := configDict.fields["molecules"].items;
            var ms := Load(prior, configDict).state.moleculeConfigs;
            && |ms| == |items|
            && forall i :: 0 <= i < |items| ==> MoleculeConfig.FromDict(items[i]) == Ok(ms[i])
  {
  }

  /** The asymmetry of the two decoders: the empty document is a complete
      configuration, but not a molecule. */
  lemma LenientConfigurationStrictMolecule(prior: Settings)
    ensures Load(prior, EmptyObject()).raised == None
    ensures MoleculeConfig.FromDict(EmptyObject()) == Err(KeyError("name"))
  {
  }

  /** `MoleculeConfig.from_dict({"name": "H2"})` raises for the missing
      `atoms` instead of defaulting it. */
  lemma MissingMoleculeKeyRaises()
    ensures MoleculeConfig.FromDict(Obj(map["name" := Str("H2")])) == Err(KeyError("atoms"))
  {
  }

  /** A partial document: only `num_steps` is given, every other field takes
      its default. */
  lemma PartialDocument(prior: Settings)
    ensures Load(prior, Obj(map["simulation" := Obj(map["num_steps" := Int(50)])]))
            == Loaded(Defaults().(numSteps := Int(50)), None)
  {
  }

  /** A complete document decodes to the configuration it describes and
      encodes back to the same document. */
  lemma EndToEnd(prior: Settings)
    ensures var atom := Obj(map["position" := Arr([Int(0), Int(0), Int(0)])]);
            var molecule := Obj(map["name" := Str("H2O"), "atoms" := Arr([atom]), "electrons" := Arr([])]);
            var doc := Obj(map[
              "mongodb" := Obj(map["uri" := Str("mongodb://x/"), "database" := Str("d"), "collection" := Str("c")]),
              "simulation" := Obj(map["num_steps" := Int(5), "dt" := Num(Decimal(5, -1))]),
              "molecules" := Arr([molecule])]);
            var r := Load(prior, doc);
            && r.raised == None
            && r.state.numSteps == Int(5) && r.state.dt == Num(Decimal(5, -1))
            && r.state.moleculeConfigs == [MoleculeConfig(Str("H2O"), Arr([atom]), Arr([]))]
            && Encode(r.state) == doc
  {
    var atom := Obj(map["position" := Arr([Int(0), Int(0), Int(0)])]);
    var m := MoleculeConfig(Str("H2O"), Arr([atom]), Arr([]));
    assert MoleculeDicts([m]) == [m.ToDict()];
  }
}
