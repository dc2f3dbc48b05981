/**
 * The load dispatch of py4DSTEM's `read_data`: a file is first tried as a
 * native py4DSTEM HDF5 container and otherwise handed to hyperspy, whose
 * array rank decides how the four datacube sizes are filled in; when that
 * fails a synthetic 100x512x512 datacube is returned instead.
 *
 * The two libraries are inputs here: `H5Open` is what opening the file with
 * h5py yields and `HsLoad` is what `hs.load` yields. Array contents are not
 * modelled, only shapes.
 */
module Reader {

  import opened Wrappers
  import opened Shapes

  /** The root attributes and the top-level group that mark a native file. */
  const VersionMajorAttr: string := "version_major"
  const VersionMinorAttr: string := "version_minor"
  const DataGroupKey: string := "4D-STEM_data"
  const VersionAttrs: set<string> := {VersionMajorAttr, VersionMinorAttr}

  /** The placeholder datacube built when hyperspy gives nothing usable. */
  const FallbackDataShape: seq<nat> := [100, 512, 512]
  const FallbackDims: Dims := Dims(10, 10, 512, 512)

  /**
   * What sits at `4D-STEM_data/datacube/datacube`: nothing (a step of the
   * path is absent), an HDF5 group (which has no `shape`), or a dataset of
   * the given shape.
   */
  datatype CubeEntry = Absent | NotADataset | Stored(shape: seq<nat>)

  /**
   * An HDF5 file opened for reading: the names of its root attributes, its
   * top-level keys, and the object at the datacube path.
   */
  datatype H5File = H5File(attrs: set<string>, keys: set<string>, datacube: CubeEntry)

  /** Outcome of `h5py.File(filename, 'r')`: it raises IOError or opens the file. */
  datatype H5Open = IOError | Opened(file: H5File)

  /** A hyperspy metadata tree, passed through untouched. */
  type MetadataTree = map<string, string>

  /**
   * Outcome of the hyperspy block: `LoadFailed` stands for any exception
   * raised there; `Loaded` carries the signal's data shape, its `metadata`
   * and its `original_metadata`.
   */
  datatype HsLoad = LoadFailed | Loaded(shape: seq<nat>, metadata: MetadataTree, originalMetadata: MetadataTree)

  /** The arguments `read_data` hands to the DataCube constructor. */
  datatype Dataset = Dataset(
    dataShape: seq<nat>,
    dims: Dims,
    filename: Option<string>,
    isPy4DSTEMFile: bool,
    metadataShortlist: Option<MetadataTree>,
    metadataAll: Option<MetadataTree>)

  /**
   * Exceptions that escape `read_data`. Indexing a missing HDF5 path raises
   * KeyError; asking a group for its `shape` raises AttributeError; unpacking
   * a shape that is not of rank 4 into four names raises ValueError. None of
   * them is an IOError, so none is caught.
   */
  datatype ReadError = KeyError | AttributeError | ValueError(rank: nat)

  datatype Outcome = Raises(error: ReadError) | Returns(cube: Dataset)

  /** `is_py4DSTEMfile`: both version attributes at the root and the data group at the top level. */
  predicate IsPy4DSTEMFile(f: H5File)
    ensures IsPy4DSTEMFile(f) <==> VersionAttrs <= f.attrs && DataGroupKey in f.keys
  {
    VersionMajorAttr in f.attrs && VersionMinorAttr in f.attrs && DataGroupKey in f.keys
  }

  /** True when `read_data` goes on to hyperspy: h5py could not open the file, or it is not native. */
  predicate ReachesHyperspy(h5: H5Open)
  {
    match h5
    case IOError => true
    case Opened(f) => !IsPy4DSTEMFile(f)
  }

  /** True when the native datacube exists and unpacks into four names. */
  predicate HasRank4Datacube(f: H5File)
  {
    f.datacube.Stored? && |f.datacube.shape| == 4
  }

  /** The native branch: take the four sizes from the stored datacube's shape. */
  function ReadNative(filename: string, f: H5File): (r: Outcome)
    ensures r.Raises? <==> !HasRank4Datacube(f)
    ensures r.Raises? ==> (r.error == KeyError <==> f.datacube.Absent?)
    ensures r.Raises? ==> (r.error == AttributeError <==> f.datacube.NotADataset?)
    ensures r.Returns? ==>
      && r.cube.dataShape == f.datacube.shape
      && r.cube.dims.AsShape() == r.cube.dataShape
      && r.cube.dims.Count() == Product(r.cube.dataShape)
      && r.cube.filename == Some(filename)
      && r.cube.isPy4DSTEMFile
      && r.cube.metadataShortlist.None? && r.cube.metadataAll.None?
  {
    match f.datacube
    case Absent => Raises(KeyError)
    case NotADataset => Raises(AttributeError)
    case Stored(shape) =>
      if |shape| != 4 then Raises(ValueError(|shape|))
      else
        var d := Dims(shape[0], shape[1], shape[2], shape[3]);
        CountIsProduct(d);
        Returns(Dataset(shape, d, Some(filename), true, None, None))
  }

  /**
   * Shape inference from a hyperspy array: rank 3 `(R_N, Q_Ny, Q_Nx)` gets a
   * 1-wide second scan axis, rank 4 is taken as it is, any other rank is
   * unsupported.
   */
  function InferDims(shape: seq<nat>): (r: Option<Dims>)
    ensures r.Some? <==> |shape| == 3 || |shape| == 4
    ensures r.Some? ==> r.value.Count() == Product(shape)
    ensures |shape| == 3 ==> r.value.AsShape() == shape[..1] + [1] + shape[1..]
    ensures |shape| == 4 ==> r.value.AsShape() == shape
  {
    if |shape| == 3 then
      var d := Dims(shape[0], 1, shape[1], shape[2]);
      assert d.AsShape() == shape[..1] + [1] + shape[1..];
      CountIsProduct(d);
      ProductInsertUnitAxis(shape, 1);
      Some(d)
    else if |shape| == 4 then
      var d := Dims(shape[0], shape[1], shape[2], shape[3]);
      assert d.AsShape() == shape;
      CountIsProduct(d);
      Some(d)
    else
      None
  }

  /** The synthetic datacube: random 100x512x512 data presented as a 10x10 scan of 512x512 patterns. */
  function RandomDatacube(filename: Option<string>): (d: Dataset)
    ensures d.dims.Count() == Product(d.dataShape)
    ensures d.dataShape == FallbackDataShape && d.dims == FallbackDims
    ensures d.filename == filename && !d.isPy4DSTEMFile
    ensures d.metadataShortlist.None? && d.metadataAll.None?
  {
    FallbackCountsAgree();
    Dataset(FallbackDataShape, FallbackDims, filename, false, None, None)
  }

  /** 10 * 10 * 512 * 512 elements are exactly what a 100x512x512 array holds. */
  lemma FallbackCountsAgree()
    ensures FallbackDims.Count() == Product(FallbackDataShape)
  {
    var s := FallbackDataShape;
    assert Product(s[2..]) == 512;
    assert Product(s[1..]) == 512 * 512;
  }

  /**
   * The hyperspy branch. It never raises: a failure inside it gives the
   * synthetic datacube without a filename, an unexpected rank gives the
   * synthetic datacube with the filename kept.
   */
  function ReadWithHyperspy(filename: string, hs: HsLoad): (d: Dataset)
    ensures !d.isPy4DSTEMFile
    ensures d.dims.Count() == Product(d.dataShape)
    ensures d.filename == if hs.LoadFailed? then None else Some(filename)
    ensures hs.Loaded? && InferDims(hs.shape).Some? ==>
      d.dataShape == hs.shape && d.dims == InferDims(hs.shape).value
      && d.metadataShortlist == Some(hs.metadata) && d.metadataAll == Some(hs.originalMetadata)
    ensures !(hs.Loaded? && InferDims(hs.shape).Some?) ==>
      d.dataShape == FallbackDataShape && d.dims == FallbackDims
      && d.metadataShortlist.None? && d.metadataAll.None?
  {
    match hs
    case LoadFailed => RandomDatacube(None)
    case Loaded(shape, metadata, originalMetadata) =>
      match InferDims(shape)
      case None => RandomDatacube(Some(filename))
      case Some(dims) => Dataset(shape, dims, Some(filename), false, Some(metadata), Some(originalMetadata))
  }

  /**
   * `read_data`. It raises only for a file that passes the native check but
   * has no rank-4 datacube; every dataset it returns has sizes whose product
   * is the element count of its data, is marked native exactly when the
   * native branch built it, and lacks a filename exactly when hyperspy failed.
   */
  function ReadData(filename: string, h5: H5Open, hs: HsLoad): (r: Outcome)
    ensures r.Raises? <==> !ReachesHyperspy(h5) && !HasRank4Datacube(h5.file)
    ensures r.Returns? ==> r.cube.dims.Count() == Product(r.cube.dataShape)
    ensures r.Returns? ==> (r.cube.isPy4DSTEMFile <==> !ReachesHyperspy(h5))
    ensures r.Returns? ==> (r.cube.filename.None? <==> ReachesHyperspy(h5) && hs.LoadFailed?)
    ensures r.Returns? && r.cube.filename.Some? ==> r.cube.filename.value == filename
    ensures r.Returns? && r.cube.isPy4DSTEMFile ==>
      r.cube.dims.AsShape() == r.cube.dataShape == h5.file.datacube.shape
  {
    match h5
    case Opened(f) =>
      if IsPy4DSTEMFile(f) then ReadNative(filename, f)
      else Returns(ReadWithHyperspy(filename, hs))
    case IOError => Returns(ReadWithHyperspy(filename, hs))
  }
}
