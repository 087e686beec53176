# Dataset I/O configuration scan of neuroconv, in Dafny

This project models how neuroconv decides which array fields of an in-memory NWB file get a dataset I/O configuration. The logic lives in `src/neuroconv/tools/nwb_helpers/_dataset_configuration.py`. Given an `NWBFile` and an optional `backend` (`"hdf5"` or `"zarr"`), the generator `get_default_dataset_io_configurations` does three things:

1. It rejects a call that leaves out the backend when the file was not read from disk. It also rejects one that leaves out the backend when the file was read in a mode other than `"r+"` or `"a"`.
2. When the file was read by `NWBHDF5IO` or `NWBZarrIO` in an append mode, it detects the backend and the open file or store. It then fails if a different backend was given explicitly.
3. It scans every object of the file in order:
   - For a `DynamicTable`, it looks at the data of each column.
   - For any other object, it looks at the `data` field and then the `timestamps` field, whichever are present.
   - It skips a value already written to the file being appended to.
   - On non-table objects only, it also skips an empty in-memory numpy array.
   - For every remaining field it yields one item. The item is `None` when the value is already wrapped in `DataIO`, and a configuration of that field otherwise.

The project has three files:

- `nwb.dfy` (module `Nwb`) replaces the h5py, zarr, pynwb and hdmf classes with datatypes:
  - a `Value` is an HDF5 dataset owned by a file id, a Zarr array owned by a store id, a `DataIO` wrapper, a numpy array with a size, or anything else;
  - a `ReadIO` is an `NWBHDF5IO`, an `NWBZarrIO` or some other IO, each with its mode;
  - an `NwbFile` is its objects in order plus an optional read IO.
- `dataset_configuration.dfy` (module `DatasetConfiguration`) holds the helpers and the resolution of the backend. It defines the reference semantics as a pipeline of three functions:
  - `Slots` lists every candidate field in scan order;
  - `Kept` drops the fields the skip rules remove;
  - `ConfigsOf` yields one item per kept field, stopping at the first error.

  It also holds the generator as imperative code. `GetDefaultDatasetIoConfigurations` assigns the detected backend, the existing file and the effective backend step by step. It then runs the nested loops (`ScanObjects`, `ScanColumns`, `ScanFields`) with the source's `continue` skips, appends each yielded item to the output, and is proved equal to `DefaultConfigurations`.
- `properties.dfy` (module `DatasetConfigurationProperties`) proves these properties of that reference semantics:
  - the argument errors;
  - the backend resolution;
  - the yielded fields are exactly the non-skipped candidate fields;
  - each of them is yielded once, in scan order;
  - each yields its `None` or target item.

A few choices follow the code rather than the prose descriptions of the subsystem:

- **The empty-array rule.** It skips every zero-size numpy array on a non-table object, not only the arrays of series whose data is stored externally.
- **The missing-backend path.** A file read in an append mode by an IO that is neither `NWBHDF5IO` nor `NWBZarrIO`, with no backend given, passes every argument check. The effective backend then stays `None`. The first field to be yielded raises `KeyError` at the `BACKEND_TO_DATASET_CONFIGURATION[backend]` lookup, before the `DataIO` test.
- **Lazy errors.** Because the generator is lazy, every error only surfaces when iteration starts. The first item is also the first point at which the `KeyError` can occur. The model therefore returns either an error or the whole sequence of items.

## Model

| member | source | states |
|---|---|---|
| `DatasetConfiguration.GetIoMode` | src/neuroconv/tools/nwb_helpers/_dataset_configuration.py:22-27 | An HDF5 or Zarr IO reports the mode it was opened with; any other IO reports no mode. |
| `DatasetConfiguration.IsDatasetWrittenToFile` | src/neuroconv/tools/nwb_helpers/_dataset_configuration.py:30-48 | A candidate is written to file exactly when a backend and an existing file are known and the candidate is stored, under that backend, in that file. An HDF5 dataset counts only under hdf5, a Zarr array only under zarr, and no other value ever counts. |
| `DatasetConfiguration.GetDatasetMetadata` | src/neuroconv/tools/nwb_helpers/_dataset_configuration.py:51-68 | The backend lookup fails with `KeyError` exactly when no backend is known. Otherwise the item is `None` exactly for a `DataIO` value, and any other item targets the given owner, field and backend. |
| `DatasetConfiguration.Detect` | src/neuroconv/tools/nwb_helpers/_dataset_configuration.py:100-107 | A backend is detected exactly when the IO is HDF5 or Zarr in mode `"r+"` or `"a"`. It is hdf5 for an HDF5 IO, whose open file becomes the existing file, and zarr for a Zarr IO, whose store becomes it. An existing file is known exactly when a backend is detected. |
| `DatasetConfiguration.Resolve` | src/neuroconv/tools/nwb_helpers/_dataset_configuration.py:90-114 | Each of the three argument errors happens exactly under its condition: no backend and no read IO; no backend and a non-append mode; a given backend that differs from the detected one. On success, the detected backend and file are used whenever a backend was detected; otherwise the given backend is used, with no existing file. The backend stays unknown only for an appending IO of another kind. |
| `DatasetConfiguration.ColumnSlots` | src/neuroconv/tools/nwb_helpers/_dataset_configuration.py:120-122 | A table contributes one candidate per column, in column order: the `data` of column k, owned by that column. |
| `DatasetConfiguration.NamedSlotsMember` | src/neuroconv/tools/nwb_helpers/_dataset_configuration.py:134-138 | A non-table object contributes a candidate exactly for each inspected name that is among its fields, carrying that field's value. |
| `DatasetConfiguration.ObjectSlotMember` | src/neuroconv/tools/nwb_helpers/_dataset_configuration.py:116-138 | One object's candidates are exactly the document's candidates that belong to that object. |
| `DatasetConfiguration.SlotsMember` | src/neuroconv/tools/nwb_helpers/_dataset_configuration.py:116-138 | The scan meets a field exactly when it is a column's data in a table, or a present `data` or `timestamps` field of another object (`IsSlot`). |
| `DatasetConfiguration.KeptMember` | src/neuroconv/tools/nwb_helpers/_dataset_configuration.py:123-146 | A field survives the skip rules exactly when it is scanned and neither rule applies: not written to file, and not an empty array on a non-table object. |
| `DatasetConfiguration.ConfigsOf` | src/neuroconv/tools/nwb_helpers/_dataset_configuration.py:128-148 | Yielding fails, with `KeyError`, exactly when no backend is known and at least one field is to be yielded. Otherwise there is one item per field. |
| `DatasetConfiguration.ConfigsItems` | src/neuroconv/tools/nwb_helpers/_dataset_configuration.py:128-148 | With a known backend, the k-th item is the reference item of the k-th field: `None` for `DataIO`, else its target. |
| `DatasetConfiguration.GetDefaultDatasetIoConfigurations` | src/neuroconv/tools/nwb_helpers/_dataset_configuration.py:71-148 | The step-by-step generator returns exactly the outcome of the reference semantics `DefaultConfigurations`, errors included. |
| `DatasetConfiguration.ScanObjects` | src/neuroconv/tools/nwb_helpers/_dataset_configuration.py:116-148 | The loop over the objects collects exactly the items of the kept candidates of all objects, or the first error. |
| `DatasetConfiguration.ScanColumns` | src/neuroconv/tools/nwb_helpers/_dataset_configuration.py:117-128 | The loop over a table's columns extends the collected items exactly as the reference semantics does for that table's candidates. |
| `DatasetConfiguration.ScanFields` | src/neuroconv/tools/nwb_helpers/_dataset_configuration.py:129-148 | The loop over `data` and `timestamps` extends the collected items exactly as the reference semantics does for that object's candidates. |
| `DatasetConfigurationProperties.ObjectSlotsOrdered` | src/neuroconv/tools/nwb_helpers/_dataset_configuration.py:120-136 | One object's candidates all belong to it and are in order: columns by index, `data` before `timestamps`. |
| `DatasetConfigurationProperties.SlotsOrdered` | src/neuroconv/tools/nwb_helpers/_dataset_configuration.py:116-136 | All candidates of the document are strictly in scan order: by object, then by column or field. |
| `DatasetConfigurationProperties.KeptOrdered` | src/neuroconv/tools/nwb_helpers/_dataset_configuration.py:123-146 | Skipping fields keeps the remaining ones in scan order. |
| `DatasetConfigurationProperties.BackendRequired` | src/neuroconv/tools/nwb_helpers/_dataset_configuration.py:90-98 | Without a backend, a file not read from disk fails with the first error. A file read in a mode other than `"r+"` or `"a"` fails with the second. |
| `DatasetConfigurationProperties.AppendModeBackend` | src/neuroconv/tools/nwb_helpers/_dataset_configuration.py:100-114 | An HDF5 or Zarr IO in append mode is scanned with the detected backend and its file or store when the backend is omitted or equal to it. Any other given backend fails with a mismatch naming both. |
| `DatasetConfigurationProperties.NotAppendingUsesGivenBackend` | src/neuroconv/tools/nwb_helpers/_dataset_configuration.py:100-108 | Without an append-mode IO, the given backend is used with no existing file, so no value counts as written to file. |
| `DatasetConfigurationProperties.WrittenMeansInAppendedFile` | src/neuroconv/tools/nwb_helpers/_dataset_configuration.py:30-48 | Under a successful resolution, a value counts as written only when the file is read in append mode and the value is an HDF5 dataset of that very HDF5 file, or a Zarr array of that very Zarr store. |
| `DatasetConfigurationProperties.YieldedExactly` | src/neuroconv/tools/nwb_helpers/_dataset_configuration.py:116-146 | A field is yielded exactly when it is a candidate of the document and no skip rule applies to it. |
| `DatasetConfigurationProperties.YieldedInScanOrder` | src/neuroconv/tools/nwb_helpers/_dataset_configuration.py:116-148 | The yielded fields are strictly ordered: by object, then by column within a table, and `data` before `timestamps` within other objects. |
| `DatasetConfigurationProperties.YieldedOnce` | src/neuroconv/tools/nwb_helpers/_dataset_configuration.py:116-148 | Every non-skipped candidate appears exactly once among the yielded fields. |
| `DatasetConfigurationProperties.NoWrittenFieldYielded` | src/neuroconv/tools/nwb_helpers/_dataset_configuration.py:123-142 | No yielded field, from a column or from another object, is written to the file being appended to. |
| `DatasetConfigurationProperties.SeriesFieldsYielded` | src/neuroconv/tools/nwb_helpers/_dataset_configuration.py:134-146 | A yielded field of a non-table object is `data` or `timestamps` and never an empty numpy array. |
| `DatasetConfigurationProperties.EmptyColumnArrayYielded` | src/neuroconv/tools/nwb_helpers/_dataset_configuration.py:120-128 | An empty numpy array in a table column is still yielded: the empty-array rule does not apply to columns. |
| `DatasetConfigurationProperties.ItemsOfYieldedFields` | src/neuroconv/tools/nwb_helpers/_dataset_configuration.py:116-148 | With a known backend, the scan succeeds with one item per yielded field, in the same order. The item is `None` for a value wrapped in `DataIO`, and otherwise the field's target with that backend. |
| `DatasetConfigurationProperties.UnknownBackendFailsAtFirstYield` | src/neuroconv/tools/nwb_helpers/_dataset_configuration.py:51-63 | With no backend determined, the scan fails with `KeyError` exactly when some field would be yielded; otherwise it yields nothing. |
| `DatasetConfigurationProperties.AllSkippedYieldsNothing` | src/neuroconv/tools/nwb_helpers/_dataset_configuration.py:116-148 | When every candidate field is skipped, the scan succeeds and yields nothing, whatever the backend. |

## Left out

- `DatasetIOConfigurationClass.from_neurodata_object` (lines 65-67): the configuration models it builds are not part of this model. Its result is the opaque target (owner, field name, backend), with the owner being the column for table data and the object itself otherwise.
- Shape, dtype, chunk, buffer and compression inference, and the `DatasetInfo` and backend-configuration models: these are not part of this model.
- `BACKEND_TO_CONFIGURATION` (line 19): the scan does not use it.
- Class checks: the `isinstance` checks against h5py, zarr, numpy, pynwb and hdmf classes are datatype constructors. Identity of HDF5 files and Zarr stores is equality of abstract ids.
- Other objects' fields: `getattr(time_series, field_name)` is read from the object's field map, assuming the attribute and the `fields` entry agree.
- IO mode: one mode per IO. The model assumes that the `mode` attribute read at line 95 agrees with the mode `_get_io_mode` reads (`_ZarrIO__mode` for Zarr). It does not model an IO whose `mode` attribute is missing.
- Backend argument: a value other than `None`, `"hdf5"` or `"zarr"` is excluded by the `Backend` datatype.
- Generator laziness: the model gives the outcome of exhausting the generator. It does not model a consumer that stops early. Every error is raised before the first item, so no items are lost on an error.
- The other repository files (the SpikeGLX NIDQ interface, the SpikeInterface chunk iterator, the Globus transfer helpers, the base data interface, and the DatasetInfo model tests): they are vendor I/O, thin adapters over external libraries, shell calls or formatting checks, and are not part of this model.
