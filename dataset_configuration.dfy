/** The backend resolution and the dataset-selection scan of
    `get_default_dataset_io_configurations`, with the helpers it calls.

    The scan is specified by three functions composed in a pipeline:
    `Slots` lists every candidate field of the document in scan order,
    `Kept` drops the fields a skip rule removes, and `ConfigsOf` produces one
    item per remaining field the way the generator yields them. The method
    `GetDefaultDatasetIoConfigurations` is the step-by-step version with the
    source's nested loops, proved equal to `DefaultConfigurations`. */
module DatasetConfiguration {
  import opened Nwb

  /** The two IO modes in which an opened file is being appended to. */
  predicate IsAppendMode(mode: string) {
    mode == "r+" || mode == "a"
  }

  /** The fields inspected on a non-table object, in the order they are inspected. */
  const SeriesFieldNames: seq<string> := ["data", "timestamps"]

  // ---------------------------------------------------------------------------
  // Helpers of the scan
  // ---------------------------------------------------------------------------

  /** The mode an IO object was opened with; NWBHDF5IO and NWBZarrIO keep it in
      different attributes, and any other IO gives none. */
  function GetIoMode(io: ReadIO): (r: Option<string>)
    ensures r.Some? <==> !io.OtherIO?
    ensures r.Some? ==> r.value == io.mode
  {
    match io
    case Hdf5IO(mode, _) => Some(mode)
    case ZarrIO(mode, _) => Some(mode)
    case OtherIO(_) => None
  }

  /** Whether a mode given by `GetIoMode` is one of the append modes; a missing
      mode is not. */
  predicate IsAppendIoMode(m: Option<string>) {
    m.Some? && IsAppendMode(m.value)
  }

  /** The backend and the file or store that physically hold a value, when the
      value is stored in one. */
  function StorageOf(v: Value): Option<(Backend, FileId)> {
    match v
    case Hdf5Dataset(f) => Some((Hdf5, f))
    case ZarrArray(s) => Some((Zarr, s))
    case _ => None
  }

  /** Whether a candidate is already written to the file being appended to:
      exactly when it is stored, under the backend in use, in the existing file. */
  function IsDatasetWrittenToFile(candidate: Value, backend: Option<Backend>, existing: Option<FileId>): (r: bool)
    ensures r <==> backend.Some? && existing.Some? && StorageOf(candidate) == Some((backend.value, existing.value))
  {
    (candidate.Hdf5Dataset? && backend == Some(Hdf5) && Some(candidate.file) == existing)
    || (candidate.ZarrArray? && backend == Some(Zarr) && Some(candidate.store) == existing)
  }

  /** The item yielded for one field: the backend lookup fails when no backend
      is known, a value already wrapped in DataIO gives `None`, and anything
      else gives the configuration target of the field. */
  function GetDatasetMetadata(owner: Owner, field: string, candidate: Value, backend: Option<Backend>)
    : (r: Result<Option<ConfigTarget>, ConfigError>)
    ensures r.Err? <==> backend.None?
    ensures r.Err? ==> r.error == UnknownBackendKey
    ensures r.Ok? ==> (r.value.None? <==> candidate.DataIOWrapper?)
    ensures r.Ok? && r.value.Some? ==> r.value.value.owner == owner && r.value.value.field == field
    ensures r.Ok? && r.value.Some? ==> backend == Some(r.value.value.backend)
  {
    match backend
    case None => Err(UnknownBackendKey)
    case Some(b) =>
      if candidate.DataIOWrapper? then Ok(None)
      else Ok(Some(ConfigTarget(owner, field, b)))
  }

  /** Reference item for a field that is yielded, given the backend in use. */
  function ItemFor(s: Slot, b: Backend): Option<ConfigTarget> {
    if s.value.DataIOWrapper? then None else Some(ConfigTarget(s.owner, s.field, b))
  }

  // ---------------------------------------------------------------------------
  // Backend resolution
  // ---------------------------------------------------------------------------

  /** The effective backend and the existing file or store used by the scan. */
  datatype Resolution = Resolution(backend: Option<Backend>, existing: Option<FileId>)

  /** Backend detection from the read IO: an HDF5 or Zarr IO opened in an append
      mode gives its backend and its file or store; anything else gives neither. */
  function Detect(readIO: Option<ReadIO>): (r: Resolution)
    ensures r.backend.Some? <==> r.existing.Some?
    ensures r.backend == Some(Hdf5) <==> readIO.Some? && readIO.value.Hdf5IO? && IsAppendMode(readIO.value.mode)
    ensures r.backend == Some(Zarr) <==> readIO.Some? && readIO.value.ZarrIO? && IsAppendMode(readIO.value.mode)
    ensures r.backend == Some(Hdf5) ==> r.existing == Some(readIO.value.file)
    ensures r.backend == Some(Zarr) ==> r.existing == Some(readIO.value.store)
  {
    match readIO
    case None => Resolution(None, None)
    case Some(io) =>
      if io.Hdf5IO? && IsAppendIoMode(GetIoMode(io)) then Resolution(Some(Hdf5), Some(io.file))
      else if io.ZarrIO? && IsAppendIoMode(GetIoMode(io)) then Resolution(Some(Zarr), Some(io.store))
      else Resolution(None, None)
  }

  /** The argument checks and the backend resolution, in the order the source
      performs them. */
  function Resolve(readIO: Option<ReadIO>, backend: Option<Backend>): (r: Result<Resolution, ConfigError>)
    // no backend and no read IO
    ensures r == Err(BackendRequiredNotRead) <==> backend.None? && readIO.None?
    // no backend and a read IO that is not appending
    ensures r == Err(BackendRequiredNotAppending) <==>
              backend.None? && readIO.Some? && !IsAppendMode(readIO.value.mode)
    // an explicit backend other than the detected one
    ensures r.Err? && r.error.BackendMismatch? <==>
              backend.Some? && Detect(readIO).backend.Some? && backend != Detect(readIO).backend
    ensures r.Err? && r.error.BackendMismatch? ==>
              r.error == BackendMismatch(Detect(readIO).backend.value, backend.value)
    ensures r.Err? ==> !r.error.UnknownBackendKey?
    // on success: the detected backend wins when there is one, else the given one
    ensures r.Ok? && Detect(readIO).backend.Some? ==> r.value == Detect(readIO)
    ensures r.Ok? && Detect(readIO).backend.None? ==> r.value == Resolution(backend, None)
    // the effective backend stays unknown only for an appending IO of another kind
    ensures r.Ok? && r.value.backend.None? ==>
              backend.None? && readIO.Some? && readIO.value.OtherIO? && IsAppendMode(readIO.value.mode)
  {
    if backend.None? && readIO.None? then Err(BackendRequiredNotRead)
    else if backend.None? && readIO.Some? && !IsAppendMode(readIO.value.mode) then Err(BackendRequiredNotAppending)
    else
      var detected := Detect(readIO);
      var effective := if backend.Some? then backend else detected.backend;
      if detected.backend.Some? && detected.backend != effective then
        Err(BackendMismatch(detected.backend.value, effective.value))
      else
        Ok(Resolution(effective, detected.existing))
  }

  // ---------------------------------------------------------------------------
  // The scan
  // ---------------------------------------------------------------------------

  /** One candidate field met by the scan: where it lives, its name and its value. */
  datatype Slot = Slot(owner: Owner, field: string, value: Value)

  /** The data of every column of the table at index `obj`, in column order. */
  function ColumnSlots(obj: nat, columns: seq<Column>): (r: seq<Slot>)
    ensures |r| == |columns|
    ensures forall k :: 0 <= k < |r| ==> r[k] == Slot(ColumnOwner(obj, k), "data", columns[k].data)
  {
    if columns == [] then []
    else
      var last := |columns| - 1;
      ColumnSlots(obj, columns[..last]) + [Slot(ColumnOwner(obj, last), "data", columns[last].data)]
  }

  /** The fields among `names` that the object at index `obj` has, in the order of `names`. */
  function NamedSlots(obj: nat, fields: map<string, Value>, names: seq<string>): (r: seq<Slot>)
    ensures |r| <= |names|
  {
    if names == [] then []
    else
      var name := names[|names| - 1];
      NamedSlots(obj, fields, names[..|names| - 1])
      + (if name in fields then [Slot(SeriesOwner(obj), name, fields[name])] else [])
  }

  lemma {:induction false} NamedSlotsMember(obj: nat, fields: map<string, Value>, names: seq<string>, s: Slot)
    ensures s in NamedSlots(obj, fields, names) <==>
              s.owner == SeriesOwner(obj) && s.field in names && s.field in fields && s.value == fields[s.field]
  {
    if names != [] {
      var n := |names| - 1;
      NamedSlotsMember(obj, fields, names[..n], s);
      assert names == names[..n] + [names[n]];
    }
  }

  /** The candidate fields of the object at index `obj`: every column of a table,
      and `data` then `timestamps`, when present, of any other object. */
  function ObjectSlots(obj: nat, o: NeurodataObject): seq<Slot> {
    match o
    case DynamicTable(columns) => ColumnSlots(obj, columns)
    case Container(fields) => NamedSlots(obj, fields, SeriesFieldNames)
  }

  /** Every candidate field of the document, in scan order. */
  function Slots(objects: seq<NeurodataObject>): seq<Slot> {
    if objects == [] then []
    else Slots(objects[..|objects| - 1]) + ObjectSlots(|objects| - 1, objects[|objects| - 1])
  }

  /** The skip rules: a field already written to the existing file, and an empty
      in-memory array on a non-table object. */
  predicate Skipped(s: Slot, res: Resolution) {
    IsDatasetWrittenToFile(s.value, res.backend, res.existing)
    || (s.owner.SeriesOwner? && s.value.NdArray? && s.value.size == 0)
  }

  /** The candidate fields no skip rule removes, in their original order. */
  function Kept(slots: seq<Slot>, res: Resolution): (r: seq<Slot>)
    ensures |r| <= |slots|
  {
    if slots == [] then []
    else
      var last := slots[|slots| - 1];
      Kept(slots[..|slots| - 1], res) + (if Skipped(last, res) then [] else [last])
  }

  lemma {:induction false} KeptMember(slots: seq<Slot>, res: Resolution, s: Slot)
    ensures s in Kept(slots, res) <==> s in slots && !Skipped(s, res)
  {
    if slots != [] {
      var n := |slots| - 1;
      KeptMember(slots[..n], res, s);
      assert slots == slots[..n] + [slots[n]];
    }
  }

  /** What the generator yields for the kept fields, one item per field; the
      first failing item ends the iteration with its error. */
  function ConfigsOf(slots: seq<Slot>, backend: Option<Backend>): (r: Result<seq<Option<ConfigTarget>>, ConfigError>)
    ensures r.Err? <==> backend.None? && slots != []
    ensures r.Err? ==> r.error == UnknownBackendKey
    ensures r.Ok? ==> |r.value| == |slots|
  {
    if slots == [] then Ok([])
    else
      match ConfigsOf(slots[..|slots| - 1], backend)
      case Err(e) => Err(e)
      case Ok(out) =>
        var s := slots[|slots| - 1];
        match GetDatasetMetadata(s.owner, s.field, s.value, backend)
        case Err(e) => Err(e)
        case Ok(item) => Ok(out + [item])
  }

  /** Each yielded item is the reference item of its field, in the same position. */
  lemma {:induction false} ConfigsItems(slots: seq<Slot>, b: Backend, k: nat)
    requires k < |slots|
    ensures ConfigsOf(slots, Some(b)).Ok? && |ConfigsOf(slots, Some(b)).value| == |slots|
    ensures ConfigsOf(slots, Some(b)).value[k] == ItemFor(slots[k], b)
  {
    var n := |slots| - 1;
    if k < n {
      ConfigsItems(slots[..n], b, k);
    }
  }

  /** The fields the scan yields an item for. */
  function Yielded(file: NwbFile, res: Resolution): seq<Slot> {
    Kept(Slots(file.objects), res)
  }

  /** The whole outcome of `get_default_dataset_io_configurations`: an error, or
      the sequence of yielded items. */
  function DefaultConfigurations(file: NwbFile, backend: Option<Backend>)
    : Result<seq<Option<ConfigTarget>>, ConfigError>
  {
    match Resolve(file.readIO, backend)
    case Err(e) => Err(e)
    case Ok(res) => ConfigsOf(Yielded(file, res), res.backend)
  }

  /** A candidate field is one of `Slots(objects)` exactly when it is a column's
      data in a table, or a present `data` or `timestamps` field of another object. */
  predicate IsSlot(objects: seq<NeurodataObject>, s: Slot) {
    s.owner.obj < |objects| &&
    match objects[s.owner.obj]
    case DynamicTable(columns) =>
      s.owner.ColumnOwner? && s.owner.col < |columns| && s.field == "data" && s.value == columns[s.owner.col].data
    case Container(fields) =>
      s.owner.SeriesOwner? && s.field in SeriesFieldNames && s.field in fields && s.value == fields[s.field]
  }

  /** Membership in the candidate fields of one object. */
  lemma ObjectSlotMember(objects: seq<NeurodataObject>, n: nat, s: Slot)
    requires n < |objects|
    ensures s in ObjectSlots(n, objects[n]) <==> s.owner.obj == n && IsSlot(objects, s)
  {
    match objects[n]
    case DynamicTable(columns) =>
      if s in ColumnSlots(n, columns) {
        var k :| 0 <= k < |columns| && ColumnSlots(n, columns)[k] == s;
      }
      if s.owner.obj == n && IsSlot(objects, s) {
        assert ColumnSlots(n, columns)[s.owner.col] == s;
      }
    case Container(fields) =>
      NamedSlotsMember(n, fields, SeriesFieldNames, s);
  }

  /** A field of an object before index `n` is a candidate of the first `n` objects
      exactly when it is one of the whole document. */
  lemma IsSlotOfPrefix(objects: seq<NeurodataObject>, n: nat, s: Slot)
    requires n <= |objects| && s.owner.obj < n
    ensures IsSlot(objects[..n], s) <==> IsSlot(objects, s)
  {
    assert objects[..n][s.owner.obj] == objects[s.owner.obj];
  }

  lemma {:induction false} SlotsMember(objects: seq<NeurodataObject>, s: Slot)
    ensures s in Slots(objects) <==> IsSlot(objects, s)
  {
    if objects != [] {
      var n := |objects| - 1;
      SlotsMember(objects[..n], s);
      ObjectSlotMember(objects, n, s);
      if s.owner.obj < n {
        IsSlotOfPrefix(objects, n, s);
      }
    }
  }

  /** Appending one field to the scanned prefix extends `Kept` by that field unless it is skipped. */
  lemma KeptSnoc(slots: seq<Slot>, s: Slot, res: Resolution)
    ensures Kept(slots + [s], res) == Kept(slots, res) + (if Skipped(s, res) then [] else [s])
  {
    assert (slots + [s])[..|slots|] == slots;
  }

  /** Scanning one more column extends the scanned fields by that column's data. */
  lemma ColumnSlotsSnoc(obj: nat, columns: seq<Column>, j: nat, before: seq<Slot>)
    requires j < |columns|
    ensures before + ColumnSlots(obj, columns[..j + 1])
            == (before + ColumnSlots(obj, columns[..j])) + [Slot(ColumnOwner(obj, j), "data", columns[j].data)]
  {
    assert columns[..j + 1][..j] == columns[..j];
  }

  /** Inspecting one more field name extends the scanned fields by that field when present. */
  lemma NamedSlotsSnoc(obj: nat, fields: map<string, Value>, names: seq<string>, k: nat, before: seq<Slot>)
    requires k < |names|
    ensures before + NamedSlots(obj, fields, names[..k + 1])
            == (before + NamedSlots(obj, fields, names[..k]))
               + (if names[k] in fields then [Slot(SeriesOwner(obj), names[k], fields[names[k]])] else [])
  {
    assert names[..k + 1][..k] == names[..k];
  }

  /** Yielding one more item extends the collected items by it. */
  lemma ConfigsSnoc(slots: seq<Slot>, s: Slot, backend: Option<Backend>, out: seq<Option<ConfigTarget>>)
    requires ConfigsOf(slots, backend) == Ok(out)
    requires GetDatasetMetadata(s.owner, s.field, s.value, backend).Ok?
    ensures ConfigsOf(slots + [s], backend) == Ok(out + [GetDatasetMetadata(s.owner, s.field, s.value, backend).value])
  {
    assert (slots + [s])[..|slots|] == slots;
  }

  /** A field yielded from the first `n` objects is yielded from the whole document. */
  lemma YieldedFromPrefix(objects: seq<NeurodataObject>, n: nat, res: Resolution, s: Slot)
    requires n <= |objects|
    requires s in Kept(Slots(objects[..n]), res)
    ensures s in Kept(Slots(objects), res)
  {
    KeptMember(Slots(objects[..n]), res, s);
    SlotsMember(objects[..n], s);
    IsSlotOfPrefix(objects, n, s);
    SlotsMember(objects, s);
    KeptMember(Slots(objects), res, s);
  }

  // ---------------------------------------------------------------------------
  // The generator, step by step
  // ---------------------------------------------------------------------------

  /** `get_default_dataset_io_configurations`: the argument checks and the
      backend detection assign their locals in turn, then a loop over the
      objects scans the columns of each table or the fields of each other
      object. The yielded items are collected in order. */
  method GetDefaultDatasetIoConfigurations(file: NwbFile, backend: Option<Backend>)
    returns (r: Result<seq<Option<ConfigTarget>>, ConfigError>)
    ensures r == DefaultConfigurations(file, backend)
  {
    if backend.None? && file.readIO.None? {
      return Err(BackendRequiredNotRead);
    }
    if backend.None? && file.readIO.Some? && !IsAppendMode(file.readIO.value.mode) {
      return Err(BackendRequiredNotAppending);
    }

    var detected: Option<Backend> := None;
    var existing: Option<FileId> := None;
    if file.readIO.Some? && file.readIO.value.Hdf5IO? && IsAppendIoMode(GetIoMode(file.readIO.value)) {
      detected := Some(Hdf5);
      existing := Some(file.readIO.value.file);
    } else if file.readIO.Some? && file.readIO.value.ZarrIO? && IsAppendIoMode(GetIoMode(file.readIO.value)) {
      detected := Some(Zarr);
      existing := Some(file.readIO.value.store);
    }
    var effective := if backend.Some? then backend else detected;

    if detected.Some? && detected != effective {
      return Err(BackendMismatch(detected.value, effective.value));
    }

    var res := Resolution(effective, existing);
    assert Resolve(file.readIO, backend) == Ok(res);
    r := ScanObjects(file.objects, res);
  }

  /** The outer loop over the objects of the document, in order: the columns of a
      table or the fields of any other object are scanned in turn. */
  method ScanObjects(objects: seq<NeurodataObject>, res: Resolution)
    returns (r: Result<seq<Option<ConfigTarget>>, ConfigError>)
    ensures r == ConfigsOf(Kept(Slots(objects), res), res.backend)
  {
    var out: seq<Option<ConfigTarget>> := [];
    for i := 0 to |objects|
      invariant ConfigsOf(Kept(Slots(objects[..i]), res), res.backend) == Ok(out)
    {
      assert objects[..i + 1][..i] == objects[..i];
      ghost var scanned := Slots(objects[..i + 1]);
      assert scanned == Slots(objects[..i]) + ObjectSlots(i, objects[i]);
      var step: Result<seq<Option<ConfigTarget>>, ConfigError>;
      match objects[i] {
        case DynamicTable(columns) =>
          step := ScanColumns(i, columns, res, Slots(objects[..i]), out);
        case Container(fields) =>
          step := ScanFields(i, fields, res, Slots(objects[..i]), out);
      }
      assert step == ConfigsOf(Kept(scanned, res), res.backend);
      if step.Err? {
        var s := Kept(scanned, res)[0];
        YieldedFromPrefix(objects, i + 1, res, s);
        return step;
      }
      out := step.value;
    }
    assert objects[..|objects|] == objects;
    return Ok(out);
  }

  /** The inner loop over the columns of the table at index `obj`: a column whose
      data is written to the existing file is skipped, every other yields an item. */
  method ScanColumns(obj: nat, columns: seq<Column>, res: Resolution, ghost before: seq<Slot>,
                     out0: seq<Option<ConfigTarget>>)
    returns (r: Result<seq<Option<ConfigTarget>>, ConfigError>)
    requires ConfigsOf(Kept(before, res), res.backend) == Ok(out0)
    ensures r == ConfigsOf(Kept(before + ColumnSlots(obj, columns), res), res.backend)
  {
    var out := out0;
    assert before + ColumnSlots(obj, columns[..0]) == before;
    for j := 0 to |columns|
      invariant ConfigsOf(Kept(before + ColumnSlots(obj, columns[..j]), res), res.backend) == Ok(out)
    {
      var candidate := columns[j].data;
      ghost var s := Slot(ColumnOwner(obj, j), "data", candidate);
      ghost var scanned := before + ColumnSlots(obj, columns[..j]);
      ColumnSlotsSnoc(obj, columns, j, before);
      KeptSnoc(scanned, s, res);
      if IsDatasetWrittenToFile(candidate, res.backend, res.existing) {
        assert Kept(scanned + [s], res) == Kept(scanned, res);
        continue;
      }
      assert Kept(scanned + [s], res) == Kept(scanned, res) + [s];
      var item := GetDatasetMetadata(ColumnOwner(obj, j), "data", candidate, res.backend);
      if item.Err? {
        assert ColumnSlots(obj, columns)[j] == s;
        KeptMember(before + ColumnSlots(obj, columns), res, s);
        return Err(item.error);
      }
      ConfigsSnoc(Kept(scanned, res), s, res.backend, out);
      assert ConfigsOf(Kept(scanned + [s], res), res.backend) == Ok(out + [item.value]);
      out := out + [item.value];
    }
    assert columns[..|columns|] == columns;
    return Ok(out);
  }

  /** The inner loop over `data` and `timestamps` of a non-table object at index
      `obj`: an absent field is passed over, a field written to the existing file
      or an empty in-memory array is skipped, every other yields an item. */
  method ScanFields(obj: nat, fields: map<string, Value>, res: Resolution, ghost before: seq<Slot>,
                    out0: seq<Option<ConfigTarget>>)
    returns (r: Result<seq<Option<ConfigTarget>>, ConfigError>)
    requires ConfigsOf(Kept(before, res), res.backend) == Ok(out0)
    ensures r == ConfigsOf(Kept(before + NamedSlots(obj, fields, SeriesFieldNames), res), res.backend)
  {
    var out := out0;
    assert before + NamedSlots(obj, fields, SeriesFieldNames[..0]) == before;
    for k := 0 to |SeriesFieldNames|
      invariant ConfigsOf(Kept(before + NamedSlots(obj, fields, SeriesFieldNames[..k]), res), res.backend) == Ok(out)
    {
      var fieldName := SeriesFieldNames[k];
      NamedSlotsSnoc(obj, fields, SeriesFieldNames, k, before);
      if fieldName !in fields {
        continue;  // timestamps is optional
      }
      var candidate := fields[fieldName];
      ghost var s := Slot(SeriesOwner(obj), fieldName, candidate);
      ghost var scanned := before + NamedSlots(obj, fields, SeriesFieldNames[..k]);
      KeptSnoc(scanned, s, res);
      if IsDatasetWrittenToFile(candidate, res.backend, res.existing) {
        assert Kept(scanned + [s], res) == Kept(scanned, res);
        continue;
      }
      if candidate.NdArray? && candidate.size == 0 {
        assert Kept(scanned + [s], res) == Kept(scanned, res);
        continue;  // in-memory array of a series whose data is stored externally
      }
      assert Kept(scanned + [s], res) == Kept(scanned, res) + [s];
      var item := GetDatasetMetadata(SeriesOwner(obj), fieldName, candidate, res.backend);
      if item.Err? {
        NamedSlotsMember(obj, fields, SeriesFieldNames, s);
        KeptMember(before + NamedSlots(obj, fields, SeriesFieldNames), res, s);
        return Err(item.error);
      }
      ConfigsSnoc(Kept(scanned, res), s, res.backend, out);
      assert ConfigsOf(Kept(scanned + [s], res), res.backend) == Ok(out + [item.value]);
      out := out + [item.value];
    }
    assert SeriesFieldNames[..|SeriesFieldNames|] == SeriesFieldNames;
    return Ok(out);
  }
}
