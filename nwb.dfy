/** Data model of an in-memory NWB document as seen by the dataset-configuration scan.
    The h5py, zarr, pynwb and hdmf classes are replaced by datatype constructors, and
    the identity of an HDF5 file or a Zarr store by equality of abstract ids. */
module Nwb {

  datatype Option<+T> = None | Some(value: T)

  datatype Result<+T, +E> = Ok(value: T) | Err(error: E)

  /** The two storage backends a dataset can be configured for. */
  datatype Backend = Hdf5 | Zarr

  /** Abstract identity of an open HDF5 file or of a Zarr store. */
  type FileId = nat

  /** The value held by an array-like field of a neurodata object. */
  datatype Value =
    | Hdf5Dataset(file: FileId)     // an h5py.Dataset, owned by the file it lives in
    | ZarrArray(store: FileId)      // a zarr.Array, owned by the store it lives in
    | DataIOWrapper                 // data already wrapped in an hdmf DataIO
    | NdArray(size: nat)            // an in-memory numpy array with `size` elements
    | OtherData                     // any other value (list, iterator, ...)

  /** One column (VectorData) of a DynamicTable; the scan looks at its `data`. */
  datatype Column = Column(name: string, data: Value)

  /** An object of the document: a DynamicTable with its columns, or any other
      container (TimeSeries and its extensions) with its named fields. */
  datatype NeurodataObject =
    | DynamicTable(columns: seq<Column>)
    | Container(fields: map<string, Value>)

  /** The IO object the document was read with. `OtherIO` stands for an IO object that
      is neither an NWBHDF5IO nor an NWBZarrIO. */
  datatype ReadIO =
    | Hdf5IO(mode: string, file: FileId)      // NWBHDF5IO: mode and the open file `_file`
    | ZarrIO(mode: string, store: FileId)     // NWBZarrIO: mode and `file.store`
    | OtherIO(mode: string)

  /** An in-memory NWBFile: its objects in the order of `objects.values()`, and the
      IO it was read with, if any. */
  datatype NwbFile = NwbFile(objects: seq<NeurodataObject>, readIO: Option<ReadIO>)

  /** Where a configured field lives: the data of column `col` of the table at `obj`,
      or a field of the non-table object at `obj`. */
  datatype Owner =
    | ColumnOwner(obj: nat, col: nat)
    | SeriesOwner(obj: nat)

  /** What `DatasetIOConfigurationClass.from_neurodata_object` is built from:
      the owning object, the field name and the backend. */
  datatype ConfigTarget = ConfigTarget(owner: Owner, field: string, backend: Backend)

  /** The errors the configuration scan can raise. */
  datatype ConfigError =
    | BackendRequiredNotRead                                 // ValueError, no read IO
    | BackendRequiredNotAppending                            // ValueError, read IO not in append mode
    | BackendMismatch(detected: Backend, specified: Backend) // ValueError, detected != specified
    | UnknownBackendKey                                      // KeyError, backend lookup with None
}
