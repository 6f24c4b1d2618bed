/** The data side of `visualize_data`: a loaded simulation-output document is
    flattened into the list of atom positions and the list of electron
    positions, which go to the 3D renderer; a missing file or malformed JSON
    makes the call return `None`, and every other exception propagates. */
module Visualization {
  import opened Wrappers
  import opened Documents

  /** The two point lists handed to the renderer. */
  datatype Positions = Positions(atoms: seq<Value>, electrons: seq<Value>)

  /** `molecule_data.get(key, [])`, as the `for` loop iterates it. Only a dict
      has `.get`; an absent key contributes no entries. Iterating a non-empty
      string or dict yields strings, whose `['position']` raises `TypeError`. */
  function Entries(molecule: Value, key: string): (r: Result<seq<Value>, PyError>)
    ensures !molecule.Obj? ==> r == Err(AttributeError)
    ensures molecule.Obj? && key !in molecule.fields ==> r == Ok([])
    ensures molecule.Obj? && key in molecule.fields && molecule.fields[key].Arr?
            ==> r == Ok(molecule.fields[key].items)
    ensures r.Err? && molecule.Obj? ==> r.error == TypeError
    ensures molecule.Obj? && key in molecule.fields && !molecule.fields[key].Arr?
            ==> r == (if molecule.fields[key] == Str([]) || molecule.fields[key] == Obj(map[])
                      then Ok([]) else Err(TypeError))
  {
    match Get(molecule, key, Arr([]))
    case Err(e) => Err(e)
    case Ok(v) =>
      match Iterate(v)
      case Items(entries) => Ok(entries)
      case StrItems => Err(TypeError)
      case NotIterable => Err(TypeError)
  }

  /** `entry['position']` of each entry, in order; the first entry that has
      no position (or is not a dict) raises. */
  function PositionsOf(entries: seq<Value>): (r: Result<seq<Value>, PyError>)
    decreases |entries|
    ensures r.Ok? <==> forall i :: 0 <= i < |entries| ==> Subscript(entries[i], "position").Ok?
    ensures r.Ok? ==> |r.value| == |entries|
    ensures r.Ok? ==> forall i :: 0 <= i < |entries| ==> Subscript(entries[i], "position") == Ok(r.value[i])
    ensures r.Err? ==> exists i :: 0 <= i < |entries| && Subscript(entries[i], "position") == Err(r.error)
                                   && forall j :: 0 <= j < i ==> Subscript(entries[j], "position").Ok?
  {
    if entries == [] then Ok([])
    else
      var last := |entries| - 1;
      var prefix := PositionsOf(entries[..last]);
      assert forall i :: 0 <= i < last ==> entries[..last][i] == entries[i];
      match prefix
      case Err(e) => Err(e)
      case Ok(ps) =>
        match Subscript(entries[last], "position")
        case Err(e) => Err(e)
        case Ok(p) => Ok(ps + [p])
  }

  /** What one molecule adds to the list for `key`. */
  function MoleculePositions(molecule: Value, key: string): (r: Result<seq<Value>, PyError>)
    ensures !molecule.Obj? ==> r == Err(AttributeError)
    ensures molecule.Obj? && key !in molecule.fields ==> r == Ok([])
    ensures molecule.Obj? && key in molecule.fields && molecule.fields[key].Arr?
            ==> r == PositionsOf(molecule.fields[key].items)
    ensures molecule.Obj? && key in molecule.fields && !molecule.fields[key].Arr?
            ==> r == (if molecule.fields[key] == Str([]) || molecule.fields[key] == Obj(map[])
                      then Ok([]) else Err(TypeError))
    ensures r.Err? ==> r.error in {AttributeError, TypeError, KeyError("position")}
  {
    match Entries(molecule, key)
    case Err(e) => Err(e)
    case Ok(entries) => PositionsOf(entries)
  }

  /** The nested loops over a list of molecules: per molecule, first its
      atoms, then its electrons; the first exception in that order wins. */
  function Extract(molecules: seq<Value>): (r: Result<Positions, PyError>)
    decreases |molecules|
    ensures r.Err? ==> r.error in {AttributeError, TypeError, KeyError("position")}
  {
    if molecules == [] then Ok(Positions([], []))
    else
      var last := |molecules| - 1;
      match Extract(molecules[..last])
      case Err(e) => Err(e)
      case Ok(acc) =>
        match MoleculePositions(molecules[last], "atoms")
        case Err(e) => Err(e)
        case Ok(atoms) =>
          match MoleculePositions(molecules[last], "electrons")
          case Err(e) => Err(e)
          case Ok(electrons) => Ok(Positions(acc.atoms + atoms, acc.electrons + electrons))
  }

  /** The whole extraction: `data['molecules']` is strict, and iterating a
      non-empty string or dict there yields strings, which have no `.get`. */
  function ExtractDocument(data: Value): (r: Result<Positions, PyError>)
    ensures !data.Obj? ==> r == Err(TypeError)
    ensures data.Obj? && "molecules" !in data.fields ==> r == Err(KeyError("molecules"))
    ensures data.Obj? && "molecules" in data.fields && data.fields["molecules"].Arr?
            ==> r == Extract(data.fields["molecules"].items)
    ensures data.Obj? && "molecules" in data.fields && !data.fields["molecules"].Arr?
            ==> var v := data.fields["molecules"];
                r == (if v == Str([]) || v == Obj(map[]) then Ok(Positions([], []))
                      else if v.Str? || v.Obj? then Err(AttributeError)
                      else Err(TypeError))
    ensures r.Err? ==> r.error in {AttributeError, TypeError, KeyError("molecules"), KeyError("position")}
  {
    match Subscript(data, "molecules")
    case Err(e) => Err(e)
    case Ok(molecules) =>
      match Iterate(molecules)
      case Items(ms) => Extract(ms)
      case StrItems => Err(AttributeError)
      case NotIterable => Err(TypeError)
  }

  /** One list on its own, `[e['position'] for m in molecules for e in
      m.get(key, [])]`: a reference for each of the two lists the loops build
      together. */
  function Gather(molecules: seq<Value>, key: string): (r: Result<seq<Value>, PyError>)
    decreases |molecules|
    ensures r.Ok? <==> forall i :: 0 <= i < |molecules| ==> MoleculePositions(molecules[i], key).Ok?
  {
    if molecules == [] then Ok([])
    else
      var last := |molecules| - 1;
      var prefix := Gather(molecules[..last], key);
      assert forall i :: 0 <= i < last ==> molecules[..last][i] == molecules[i];
      match prefix
      case Err(e) => Err(e)
      case Ok(ps) =>
        match MoleculePositions(molecules[last], key)
        case Err(e) => Err(e)
        case Ok(p) => Ok(ps + p)
  }

  /** Every `key` entry of every molecule, molecule after molecule. */
  function AllEntries(molecules: seq<Value>, key: string): (entries: seq<Value>)
    decreases |molecules|
  {
    if molecules == [] then []
    else
      var last := |molecules| - 1;
      var entries := Entries(molecules[last], key);
      AllEntries(molecules[..last], key) + (if entries.Ok? then entries.value else [])
  }

  /** The extraction of `visualize_data`: the strict `data['molecules']`
      lookup, then the loops that build the two lists. */
  method ExtractPositions(data: Value) returns (r: Result<Positions, PyError>)
    ensures r == ExtractDocument(data)
  {
    var moleculesData := Subscript(data, "molecules");
    if moleculesData.Err? {
      return Err(moleculesData.error);
    }
    var iteration := Iterate(moleculesData.value);
    if iteration.NotIterable? {
      return Err(TypeError);
    }
    if iteration.StrItems? {
      return Err(AttributeError);
    }
    r := CollectPositions(iteration.items);
  }

  /** The nested `for` loops of `visualize_data` over the molecule list. */
  method CollectPositions(molecules: seq<Value>) returns (r: Result<Positions, PyError>)
    ensures r == Extract(molecules)
  {
    var atomPositions: seq<Value> := [];
    var electronPositions: seq<Value> := [];
    var i := 0;
    while i < |molecules|
      invariant 0 <= i <= |molecules|
      invariant Extract(molecules[..i]) == Ok(Positions(atomPositions, electronPositions))
    {
      var atoms := AppendPositions(molecules[i], "atoms", atomPositions);
      if atoms.Err? {
        MoleculeFails(molecules, i);
        return Err(atoms.error);
      }
      var electrons := AppendPositions(molecules[i], "electrons", electronPositions);
      if electrons.Err? {
        MoleculeFails(molecules, i);
        return Err(electrons.error);
      }
      MoleculeStep(molecules, i);
      atomPositions, electronPositions := atoms.value, electrons.value;
      i := i + 1;
    }
    assert molecules[..i] == molecules;
    return Ok(Positions(atomPositions, electronPositions));
  }

  /** One inner loop, `for e in molecule.get(key, []): positions.append(e['position'])`:
      the result extends `positions` by what the molecule adds for `key`, or
      is the exception the loop raises. */
  method AppendPositions(molecule: Value, key: string, positions: seq<Value>) returns (r: Result<seq<Value>, PyError>)
    ensures MoleculePositions(molecule, key).Err? ==> r == Err(MoleculePositions(molecule, key).error)
    ensures MoleculePositions(molecule, key).Ok? ==> r == Ok(positions + MoleculePositions(molecule, key).value)
  {
    var entries := Entries(molecule, key);
    if entries.Err? {
      return Err(entries.error);
    }
    var appended := positions;
    var j := 0;
    while j < |entries.value|
      invariant 0 <= j <= |entries.value|
      invariant PositionsOf(entries.value[..j]).Ok?
      invariant appended == positions + PositionsOf(entries.value[..j]).value
    {
      assert entries.value[..j + 1][..j] == entries.value[..j];
      var position := Subscript(entries.value[j], "position");
      if position.Err? {
        FirstFailure(entries.value, j);
        return Err(position.error);
      }
      appended := appended + [position.value];
      j := j + 1;
    }
    assert entries.value[..j] == entries.value;
    return Ok(appended);
  }

  /** How the file was read: parsed, missing, or not valid JSON. Opening and
      parsing the file happen outside the model. */
  datatype FileRead = Parsed(document: Value) | FileNotFound | MalformedJson

  /** What `visualize_data` does: raise, return `None`, or render the two
      point lists (and return the renderer's thumbnail). */
  datatype Outcome = Raised(error: PyError) | ReturnedNone | Rendered(points: Positions)

  /** `visualize_data`: only a missing file and malformed JSON are caught
      (and give `None`); an exception of the extraction propagates. */
  method VisualizeData(file: FileRead) returns (outcome: Outcome)
    ensures !file.Parsed? ==> outcome == ReturnedNone
    ensures file.Parsed? && ExtractDocument(file.document).Err?
            ==> outcome == Raised(ExtractDocument(file.document).error)
    ensures file.Parsed? && ExtractDocument(file.document).Ok?
            ==> outcome == Rendered(ExtractDocument(file.document).value)
  {
    if !file.Parsed? {
      return ReturnedNone;
    }
    var extracted := ExtractPositions(file.document);
    if extracted.Err? {
      return Raised(extracted.error);
    }
    return Rendered(extracted.value);
  }

  // ---------------------------------------------------------------------
  // Properties of the extraction

  /** If entry `j` is the first without a position, it decides the error. */
  lemma {:induction false} FirstFailure(entries: seq<Value>, j: nat)
    requires j < |entries|
    requires PositionsOf(entries[..j]).Ok?
    requires Subscript(entries[j], "position").Err?
    ensures PositionsOf(entries) == Err(Subscript(entries[j], "position").error)
    decreases |entries|
  {
    var last := |entries| - 1;
    if j < last {
      assert entries[..last][..j] == entries[..j];
      FirstFailure(entries[..last], j);
    } else {
      assert entries[..last] == entries[..j];
    }
  }

  /** Molecule `i` raises, for its atoms or else for its electrons, after
      all earlier molecules succeeded: that exception is the outcome. */
  lemma MoleculeFails(molecules: seq<Value>, i: nat)
    requires i < |molecules| && Extract(molecules[..i]).Ok?
    requires MoleculePositions(molecules[i], "atoms").Err? || MoleculePositions(molecules[i], "electrons").Err?
    ensures Extract(molecules) == Err(if MoleculePositions(molecules[i], "atoms").Err?
                                      then MoleculePositions(molecules[i], "atoms").error
                                      else MoleculePositions(molecules[i], "electrons").error)
  {
    assert molecules[..i + 1][..i] == molecules[..i];
    ExtractExtends(molecules, i + 1);
  }

  /** Molecule `i` succeeds: it appends its atoms' and electrons' positions. */
  lemma MoleculeStep(molecules: seq<Value>, i: nat)
    requires i < |molecules| && Extract(molecules[..i]).Ok?
    requires MoleculePositions(molecules[i], "atoms").Ok? && MoleculePositions(molecules[i], "electrons").Ok?
    ensures Extract(molecules[..i + 1]) ==
              Ok(Positions(Extract(molecules[..i]).value.atoms + MoleculePositions(molecules[i], "atoms").value,
                           Extract(molecules[..i]).value.electrons + MoleculePositions(molecules[i], "electrons").value))
  {
    assert molecules[..i + 1][..i] == molecules[..i];
  }

  /** Once the loops have raised on a prefix of the molecules, the rest do
      not change the outcome. */
  lemma {:induction false} ExtractExtends(molecules: seq<Value>, k: nat)
    requires k <= |molecules|
    requires Extract(molecules[..k]).Err?
    ensures Extract(molecules) == Extract(molecules[..k])
    decreases |molecules| - k
  {
    if k < |molecules| {
      var next := molecules[..k + 1];
      assert next[..k] == molecules[..k];
      assert Extract(next) == Extract(molecules[..k]);
      ExtractExtends(molecules, k + 1);
    } else {
      assert molecules[..k] == molecules;
    }
  }

  /** The lists the loops build together are the two lists built one at a
      time: the extraction succeeds exactly when both do, and then yields
      them. */
  lemma {:induction false} ExtractAgreesWithGather(molecules: seq<Value>)
    ensures Extract(molecules).Ok? <==> Gather(molecules, "atoms").Ok? && Gather(molecules, "electrons").Ok?
    ensures Extract(molecules).Ok? ==>
              && Extract(molecules).value.atoms == Gather(molecules, "atoms").value
              && Extract(molecules).value.electrons == Gather(molecules, "electrons").value
    decreases |molecules|
  {
    if molecules != [] {
      var last := |molecules| - 1;
      ExtractAgreesWithGather(molecules[..last]);
    }
  }

  /** The loops succeed exactly when every molecule's atoms and electrons
      all have a position. */
  lemma ExtractSucceedsIff(molecules: seq<Value>)
    ensures Extract(molecules).Ok? <==>
              forall i :: 0 <= i < |molecules| ==>
                MoleculePositions(molecules[i], "atoms").Ok? && MoleculePositions(molecules[i], "electrons").Ok?
  {
    ExtractAgreesWithGather(molecules);
  }

  /** The list for `key` holds, in molecule order and then entry order, the
      position of every entry: one value per entry, so its length is the
      total number of entries. */
  lemma {:induction false} GatherFlattensEntries(molecules: seq<Value>, key: string)
    requires Gather(molecules, key).Ok?
    ensures |Gather(molecules, key).value| == |AllEntries(molecules, key)|
    ensures forall k :: 0 <= k < |AllEntries(molecules, key)| ==>
              Subscript(AllEntries(molecules, key)[k], "position") == Ok(Gather(molecules, key).value[k])
    decreases |molecules|
  {
    if molecules != [] {
      var last := |molecules| - 1;
      GatherFlattensEntries(molecules[..last], key);
      var entries := Entries(molecules[last], key).value;
      assert AllEntries(molecules, key) == AllEntries(molecules[..last], key) + entries;
      assert Gather(molecules, key).value == Gather(molecules[..last], key).value + PositionsOf(entries).value;
      PositionsAppend(AllEntries(molecules[..last], key), Gather(molecules[..last], key).value,
                      entries, PositionsOf(entries).value);
    }
  }

  /** Appending entries and their positions keeps each entry next to its own
      position. */
  lemma PositionsAppend(before: seq<Value>, ps: seq<Value>, entries: seq<Value>, p: seq<Value>)
    requires |before| == |ps| && |entries| == |p|
    requires forall k :: 0 <= k < |before| ==> Subscript(before[k], "position") == Ok(ps[k])
    requires forall k :: 0 <= k < |entries| ==> Subscript(entries[k], "position") == Ok(p[k])
    ensures forall k :: 0 <= k < |before + entries| ==>
              Subscript((before + entries)[k], "position") == Ok((ps + p)[k])
  {
    forall k | 0 <= k < |before + entries|
      ensures Subscript((before + entries)[k], "position") == Ok((ps + p)[k])
    {
      if k >= |before| {
        assert (before + entries)[k] == entries[k - |before|];
        assert (ps + p)[k] == p[k - |before|];
      }
    }
  }

  /** Both lists together: each is the flattening of its entries' positions. */
  lemma ExtractFlattensEntries(molecules: seq<Value>)
    requires Extract(molecules).Ok?
    ensures var r := Extract(molecules).value;
            && |r.atoms| == |AllEntries(molecules, "atoms")|
            && |r.electrons| == |AllEntries(molecules, "electrons")|
            && (forall k :: 0 <= k < |r.atoms| ==> Subscript(AllEntries(molecules, "atoms")[k], "position") == Ok(r.atoms[k]))
            && (forall k :: 0 <= k < |r.electrons| ==> Subscript(AllEntries(molecules, "electrons")[k], "position") == Ok(r.electrons[k]))
  {
    ExtractAgreesWithGather(molecules);
    GatherFlattensEntries(molecules, "atoms");
    GatherFlattensEntries(molecules, "electrons");
  }

  /** A molecule without the key contributes nothing to that list and raises
      nothing for it. */
  lemma MissingKeyContributesNothing(molecules: seq<Value>, molecule: Value, key: string)
    requires molecule.Obj? && key !in molecule.fields
    ensures MoleculePositions(molecule, key) == Ok([])
    ensures Gather(molecules + [molecule], key) == Gather(molecules, key)
  {
    assert (molecules + [molecule])[..|molecules|] == molecules;
    if Gather(molecules, key).Ok? {
      assert Gather(molecules, key).value + [] == Gather(molecules, key).value;
    }
  }

  /** A document without `molecules` raises `KeyError`, which the handler of
      `visualize_data` does not catch. */
  lemma MissingMoleculesRaises(data: Value)
    requires data.Obj? && "molecules" !in data.fields
    ensures ExtractDocument(data) == Err(KeyError("molecules"))
  {
  }

  /** An atom or electron entry without `position` makes the extraction
      raise. */
  lemma MissingPositionRaises(molecules: seq<Value>, i: nat, key: string, j: nat)
    requires key == "atoms" || key == "electrons"
    requires i < |molecules| && Entries(molecules[i], key).Ok?
    requires j < |Entries(molecules[i], key).value|
    requires var entry := Entries(molecules[i], key).value[j]; entry.Obj? && "position" !in entry.fields
    ensures Extract(molecules).Err?
  {
    ExtractAgreesWithGather(molecules);
    assert !Subscript(Entries(molecules[i], key).value[j], "position").Ok?;
    assert MoleculePositions(molecules[i], key).Err?;
  }

  /** The first entry without `position`, reached after everything before it
      succeeded, raises `KeyError('position')` for the whole document, and
      `visualize_data` lets it propagate. For an electron entry, the same
      molecule's atoms come first and must have succeeded. */
  lemma FirstMissingPositionRaises(data: Value, molecules: seq<Value>, i: nat, key: string, j: nat)
    requires Subscript(data, "molecules") == Ok(Arr(molecules))
    requires i < |molecules| && Extract(molecules[..i]).Ok?
    requires key == "atoms" || (key == "electrons" && MoleculePositions(molecules[i], "atoms").Ok?)
    requires Entries(molecules[i], key).Ok? && j < |Entries(molecules[i], key).value|
    requires PositionsOf(Entries(molecules[i], key).value[..j]).Ok?
    requires var entry := Entries(molecules[i], key).value[j]; entry.Obj? && "position" !in entry.fields
    ensures ExtractDocument(data) == Err(KeyError("position"))
  {
    FirstFailure(Entries(molecules[i], key).value, j);
    MoleculeFails(molecules, i);
  }

  /** A one-molecule document whose only atom lacks `position` raises exactly
      `KeyError('position')`. */
  lemma AtomWithoutPositionExample()
    ensures var molecule := Obj(map["atoms" := Arr([Obj(map["charge" := Int(1)])])]);
            ExtractDocument(Obj(map["molecules" := Arr([molecule])])) == Err(KeyError("position"))
  {
    var molecule := Obj(map["atoms" := Arr([Obj(map["charge" := Int(1)])])]);
    assert [molecule][..0] == [];
    assert PositionsOf([Obj(map["charge" := Int(1)])]) == Err(KeyError("position")) by {
      assert [Obj(map["charge" := Int(1)])][..0] == [];
    }
  }
}
