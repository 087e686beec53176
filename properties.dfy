/** What `get_default_dataset_io_configurations` promises, proved about the
    reference definition `DefaultConfigurations` (which the step-by-step method
    is proved equal to): the argument errors, the backend resolution, and that
    the yielded items are exactly the non-skipped candidate fields, each once,
    in scan order. */
module DatasetConfigurationProperties {
  import opened Nwb
  import opened DatasetConfiguration

  // ---------------------------------------------------------------------------
  // Scan order
  // ---------------------------------------------------------------------------

  /** The rank of a field within a non-table object: `data` is inspected before `timestamps`. */
  function FieldRank(field: string): nat {
    if field == "data" then 0 else 1
  }

  /** The position of a field within its object: its column index, or its field rank. */
  function Position(s: Slot): nat {
    match s.owner
    case ColumnOwner(_, col) => col
    case SeriesOwner(_) => FieldRank(s.field)
  }

  /** `a` is met strictly before `b` by the scan: an earlier object, or the same
      object and an earlier column or field. */
  predicate Before(a: Slot, b: Slot) {
    a.owner.obj < b.owner.obj || (a.owner.obj == b.owner.obj && Position(a) < Position(b))
  }

  /** Every field comes strictly before every later one. */
  predicate InScanOrder(slots: seq<Slot>) {
    forall i, j :: 0 <= i < j < |slots| ==> Before(slots[i], slots[j])
  }

  lemma OrderedConcat(a: seq<Slot>, b: seq<Slot>)
    requires InScanOrder(a) && InScanOrder(b)
    requires forall x, y :: x in a && y in b ==> Before(x, y)
    ensures InScanOrder(a + b)
  {
    forall i, j | 0 <= i < j < |a + b|
      ensures Before((a + b)[i], (a + b)[j])
    {
      if j < |a| {
        assert (a + b)[i] == a[i] && (a + b)[j] == a[j];
      } else if i >= |a| {
        assert (a + b)[i] == b[i - |a|] && (a + b)[j] == b[j - |a|];
      } else {
        assert (a + b)[i] in a && (a + b)[j] in b;
      }
    }
  }

  /** The fields of one table, or of one other object, are in scan order. */
  lemma ObjectSlotsOrdered(obj: nat, o: NeurodataObject)
    ensures InScanOrder(ObjectSlots(obj, o))
    ensures forall s :: s in ObjectSlots(obj, o) ==> s.owner.obj == obj
  {
    match o
    case DynamicTable(columns) =>
    case Container(fields) =>
      var names := SeriesFieldNames;
      assert names[..1] == ["data"] && names[..1][..0] == [] && names[..|names| - 1] == names[..1];
      var d := if "data" in fields then [Slot(SeriesOwner(obj), "data", fields["data"])] else [];
      var t := if "timestamps" in fields then [Slot(SeriesOwner(obj), "timestamps", fields["timestamps"])] else [];
      assert NamedSlots(obj, fields, names[..1]) == d;
      assert NamedSlots(obj, fields, names) == d + t;
  }

  lemma {:induction false} SlotsOrdered(objects: seq<NeurodataObject>)
    ensures InScanOrder(Slots(objects))
  {
    if objects != [] {
      var n := |objects| - 1;
      SlotsOrdered(objects[..n]);
      ObjectSlotsOrdered(n, objects[n]);
      forall x | x in Slots(objects[..n])
        ensures x.owner.obj < n
      {
        SlotsMember(objects[..n], x);
      }
      OrderedConcat(Slots(objects[..n]), ObjectSlots(n, objects[n]));
    }
  }

  lemma {:induction false} KeptOrdered(slots: seq<Slot>, res: Resolution)
    requires InScanOrder(slots)
    ensures InScanOrder(Kept(slots, res))
  {
    if slots != [] {
      var n := |slots| - 1;
      assert InScanOrder(slots[..n]);
      KeptOrdered(slots[..n], res);
      forall x | x in Kept(slots[..n], res)
        ensures Before(x, slots[n])
      {
        KeptMember(slots[..n], res, x);
        var i :| 0 <= i < n && slots[..n][i] == x;
        assert slots[i] == x;
      }
      OrderedConcat(Kept(slots[..n], res), if Skipped(slots[n], res) then [] else [slots[n]]);
    }
  }

  // ---------------------------------------------------------------------------
  // Argument checks and backend resolution
  // ---------------------------------------------------------------------------

  /** Without a backend, a document that was not read from a file fails, and a
      document read in a mode other than "r+" or "a" fails. */
  lemma BackendRequired(file: NwbFile)
    ensures file.readIO.None? ==> DefaultConfigurations(file, None) == Err(BackendRequiredNotRead)
    ensures file.readIO.Some? && !IsAppendMode(file.readIO.value.mode) ==>
              DefaultConfigurations(file, None) == Err(BackendRequiredNotAppending)
  {
  }

  /** A document read by HDF5 or Zarr in an append mode is scanned with the
      detected backend and file, whether the backend is left out or given equal
      to it; any other given backend fails with a mismatch. */
  lemma AppendModeBackend(file: NwbFile, backend: Option<Backend>)
    requires file.readIO.Some? && !file.readIO.value.OtherIO? && IsAppendMode(file.readIO.value.mode)
    ensures var detected := if file.readIO.value.Hdf5IO? then Hdf5 else Zarr;
            var existing := if file.readIO.value.Hdf5IO? then file.readIO.value.file else file.readIO.value.store;
            (backend.None? || backend == Some(detected) ==>
               Resolve(file.readIO, backend) == Ok(Resolution(Some(detected), Some(existing))))
            && (backend.Some? && backend != Some(detected) ==>
               DefaultConfigurations(file, backend) == Err(BackendMismatch(detected, backend.value)))
  {
  }

  /** A document that is not being appended to is scanned with the given backend
      and no existing file, so nothing counts as written to file. */
  lemma NotAppendingUsesGivenBackend(file: NwbFile, b: Backend, v: Value)
    requires file.readIO.None? || !IsAppendMode(file.readIO.value.mode)
    ensures Resolve(file.readIO, Some(b)) == Ok(Resolution(Some(b), None))
    ensures !IsDatasetWrittenToFile(v, Some(b), None)
  {
  }

  /** A value counts as written to file only when the document is being appended
      to and the value lives, under the same backend, in the very file or store
      the document was read from. */
  lemma WrittenMeansInAppendedFile(file: NwbFile, backend: Option<Backend>, res: Resolution, v: Value)
    requires Resolve(file.readIO, backend) == Ok(res)
    requires IsDatasetWrittenToFile(v, res.backend, res.existing)
    ensures file.readIO.Some? && IsAppendMode(file.readIO.value.mode)
    ensures (file.readIO.value.Hdf5IO? && v == Hdf5Dataset(file.readIO.value.file))
            || (file.readIO.value.ZarrIO? && v == ZarrArray(file.readIO.value.store))
  {
  }

  // ---------------------------------------------------------------------------
  // The yielded fields
  // ---------------------------------------------------------------------------

  /** A field is yielded exactly when it is a candidate field of the document
      that no skip rule removes. */
  lemma YieldedExactly(file: NwbFile, res: Resolution, s: Slot)
    ensures s in Yielded(file, res) <==> IsSlot(file.objects, s) && !Skipped(s, res)
  {
    KeptMember(Slots(file.objects), res, s);
    SlotsMember(file.objects, s);
  }

  /** The yielded fields follow object order, then column order within a table,
      and `data` before `timestamps` within any other object. */
  lemma YieldedInScanOrder(file: NwbFile, res: Resolution)
    ensures InScanOrder(Yielded(file, res))
  {
    SlotsOrdered(file.objects);
    KeptOrdered(Slots(file.objects), res);
  }

  /** Every non-skipped candidate field is yielded exactly once. */
  lemma YieldedOnce(file: NwbFile, res: Resolution, s: Slot)
    requires IsSlot(file.objects, s) && !Skipped(s, res)
    ensures exists k :: 0 <= k < |Yielded(file, res)| && Yielded(file, res)[k] == s
    ensures forall k, l ::
              (0 <= k < |Yielded(file, res)| && 0 <= l < |Yielded(file, res)| &&
               Yielded(file, res)[k] == s && Yielded(file, res)[l] == s) ==> k == l
  {
    YieldedExactly(file, res, s);
    YieldedInScanOrder(file, res);
  }

  /** No field written to the file being appended to is yielded, from a table
      column or from any other object. */
  lemma NoWrittenFieldYielded(file: NwbFile, res: Resolution)
    ensures forall k :: 0 <= k < |Yielded(file, res)| ==>
              !IsDatasetWrittenToFile(Yielded(file, res)[k].value, res.backend, res.existing)
  {
    forall k | 0 <= k < |Yielded(file, res)|
      ensures !IsDatasetWrittenToFile(Yielded(file, res)[k].value, res.backend, res.existing)
    {
      YieldedExactly(file, res, Yielded(file, res)[k]);
    }
  }

  /** Of a non-table object only a present `data` or `timestamps` field is
      yielded, and never an empty in-memory array. */
  lemma SeriesFieldsYielded(file: NwbFile, res: Resolution)
    ensures forall k :: 0 <= k < |Yielded(file, res)| && Yielded(file, res)[k].owner.SeriesOwner? ==>
              Yielded(file, res)[k].field in SeriesFieldNames && Yielded(file, res)[k].value != NdArray(0)
  {
    forall k | 0 <= k < |Yielded(file, res)| && Yielded(file, res)[k].owner.SeriesOwner?
      ensures Yielded(file, res)[k].field in SeriesFieldNames && Yielded(file, res)[k].value != NdArray(0)
    {
      YieldedExactly(file, res, Yielded(file, res)[k]);
    }
  }

  /** The empty-array rule is not applied to table columns: an empty in-memory
      array in a column is yielded. */
  lemma EmptyColumnArrayYielded(file: NwbFile, res: Resolution, obj: nat, col: nat)
    requires obj < |file.objects| && file.objects[obj].DynamicTable?
    requires col < |file.objects[obj].columns| && file.objects[obj].columns[col].data == NdArray(0)
    ensures Slot(ColumnOwner(obj, col), "data", NdArray(0)) in Yielded(file, res)
  {
    YieldedExactly(file, res, Slot(ColumnOwner(obj, col), "data", NdArray(0)));
  }

  // ---------------------------------------------------------------------------
  // The yielded items
  // ---------------------------------------------------------------------------

  /** With a known backend, the scan yields one item per yielded field, in the
      same order: `None` for a field already wrapped in DataIO, otherwise the
      configuration target of that field with the effective backend. */
  lemma ItemsOfYieldedFields(file: NwbFile, backend: Option<Backend>, res: Resolution, b: Backend)
    requires Resolve(file.readIO, backend) == Ok(res) && res.backend == Some(b)
    ensures DefaultConfigurations(file, backend).Ok?
    ensures |DefaultConfigurations(file, backend).value| == |Yielded(file, res)|
    ensures forall k :: 0 <= k < |Yielded(file, res)| ==>
              DefaultConfigurations(file, backend).value[k] ==
                if Yielded(file, res)[k].value.DataIOWrapper? then None
                else Some(ConfigTarget(Yielded(file, res)[k].owner, Yielded(file, res)[k].field, b))
  {
    var ys := Yielded(file, res);
    forall k | 0 <= k < |ys|
      ensures DefaultConfigurations(file, backend).value[k] == ItemFor(ys[k], b)
    {
      ConfigsItems(ys, b, k);
    }
  }

  /** When no backend could be determined, the scan fails at its first yield:
      it fails exactly when some field would be yielded, and otherwise yields nothing. */
  lemma UnknownBackendFailsAtFirstYield(file: NwbFile, backend: Option<Backend>, res: Resolution)
    requires Resolve(file.readIO, backend) == Ok(res) && res.backend.None?
    ensures DefaultConfigurations(file, backend) ==
              if Yielded(file, res) == [] then Ok([]) else Err(UnknownBackendKey)
  {
  }

  /** A document whose every candidate field is skipped yields nothing, whatever the backend. */
  lemma AllSkippedYieldsNothing(file: NwbFile, backend: Option<Backend>, res: Resolution)
    requires Resolve(file.readIO, backend) == Ok(res)
    requires forall s :: IsSlot(file.objects, s) ==> Skipped(s, res)
    ensures DefaultConfigurations(file, backend) == Ok([])
  {
    if Yielded(file, res) != [] {
      YieldedExactly(file, res, Yielded(file, res)[0]);
    }
  }
}
