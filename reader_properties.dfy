/**
 * What `read_data` and `is_py4DSTEMfile` do on each class of input, stated
 * as whole results of the model in `Reader`.
 */
module ReaderProperties {

  import opened Wrappers
  import opened Shapes
  import opened Reader

  /** Missing any one of the three markers makes a file foreign, whatever else it holds. */
  lemma MissingMarkerIsForeign(f: H5File, marker: string)
    requires (marker in VersionAttrs && marker !in f.attrs) || (marker == DataGroupKey && marker !in f.keys)
    ensures !IsPy4DSTEMFile(f)
  {
  }

  /** The markers alone decide: extra attributes, extra keys and the datacube do not matter. */
  lemma DetectionLooksOnlyAtMarkers(f: H5File, g: H5File)
    requires f.attrs * VersionAttrs == g.attrs * VersionAttrs
    requires (DataGroupKey in f.keys) == (DataGroupKey in g.keys)
    ensures IsPy4DSTEMFile(f) == IsPy4DSTEMFile(g)
  {
    assert VersionMajorAttr in f.attrs <==> VersionMajorAttr in f.attrs * VersionAttrs;
    assert VersionMinorAttr in f.attrs <==> VersionMinorAttr in f.attrs * VersionAttrs;
    assert VersionMajorAttr in g.attrs <==> VersionMajorAttr in g.attrs * VersionAttrs;
    assert VersionMinorAttr in g.attrs <==> VersionMinorAttr in g.attrs * VersionAttrs;
  }

  /** A native file with a rank-4 datacube is read from the container with its own sizes. */
  lemma NativeFileReadsDatacube(filename: string, f: H5File, hs: HsLoad, a: nat, b: nat, c: nat, d: nat)
    requires IsPy4DSTEMFile(f) && f.datacube == Stored([a, b, c, d])
    ensures ReadData(filename, Opened(f), hs)
      == Returns(Dataset([a, b, c, d], Dims(a, b, c, d), Some(filename), true, None, None))
  {
  }

  /** On a native file hyperspy is never consulted: its outcome cannot change the result. */
  lemma NativeFileIgnoresHyperspy(filename: string, f: H5File, hs1: HsLoad, hs2: HsLoad)
    requires IsPy4DSTEMFile(f)
    ensures ReadData(filename, Opened(f), hs1) == ReadData(filename, Opened(f), hs2)
  {
  }

  /**
   * A native file without the datacube path raises KeyError, one with a group
   * there raises AttributeError, one with a dataset of another rank raises ValueError.
   */
  lemma CorruptNativeFileRaises(filename: string, f: H5File, hs: HsLoad)
    requires IsPy4DSTEMFile(f) && !HasRank4Datacube(f)
    ensures ReadData(filename, Opened(f), hs)
      == Raises(match f.datacube
                case Absent => KeyError
                case NotADataset => AttributeError
                case Stored(shape) => ValueError(|shape|))
  {
  }

  /** Hyperspy is consulted exactly when the file is not native; otherwise the native branch decides alone. */
  lemma HyperspyReachedExactly(filename: string, h5: H5Open, hs: HsLoad)
    ensures ReachesHyperspy(h5) <==> !(h5.Opened? && IsPy4DSTEMFile(h5.file))
    ensures ReachesHyperspy(h5) ==> ReadData(filename, h5, hs) == Returns(ReadWithHyperspy(filename, hs))
    ensures !ReachesHyperspy(h5) ==> ReadData(filename, h5, hs) == ReadNative(filename, h5.file)
  {
  }

  /** A file h5py cannot open and an opened foreign file are both handed to hyperspy, without error. */
  lemma ForeignFileFallsThrough(filename: string, f: H5File, hs: HsLoad)
    requires !IsPy4DSTEMFile(f)
    ensures ReadData(filename, Opened(f), hs) == ReadData(filename, IOError, hs)
    ensures ReadData(filename, IOError, hs) == Returns(ReadWithHyperspy(filename, hs))
  {
  }

  /** A rank-3 hyperspy array `(n, h, w)` becomes an n-by-1 scan of h-by-w patterns. */
  lemma HyperspyRank3(filename: string, h5: H5Open, n: nat, h: nat, w: nat, md: MetadataTree, omd: MetadataTree)
    requires ReachesHyperspy(h5)
    ensures ReadData(filename, h5, Loaded([n, h, w], md, omd))
      == Returns(Dataset([n, h, w], Dims(n, 1, h, w), Some(filename), false, Some(md), Some(omd)))
  {
  }

  /** A rank-4 hyperspy array is taken as it is. */
  lemma HyperspyRank4(filename: string, h5: H5Open, a: nat, b: nat, c: nat, d: nat, md: MetadataTree, omd: MetadataTree)
    requires ReachesHyperspy(h5)
    ensures ReadData(filename, h5, Loaded([a, b, c, d], md, omd))
      == Returns(Dataset([a, b, c, d], Dims(a, b, c, d), Some(filename), false, Some(md), Some(omd)))
  {
  }

  /** Any other rank gives the synthetic datacube, keeping the filename. */
  lemma HyperspyUnexpectedRank(filename: string, h5: H5Open, shape: seq<nat>, md: MetadataTree, omd: MetadataTree)
    requires ReachesHyperspy(h5) && |shape| != 3 && |shape| != 4
    ensures ReadData(filename, h5, Loaded(shape, md, omd))
      == Returns(Dataset([100, 512, 512], Dims(10, 10, 512, 512), Some(filename), false, None, None))
  {
  }

  /** A hyperspy failure gives the same synthetic datacube, with no filename. */
  lemma HyperspyFailure(filename: string, h5: H5Open)
    requires ReachesHyperspy(h5)
    ensures ReadData(filename, h5, LoadFailed)
      == Returns(Dataset([100, 512, 512], Dims(10, 10, 512, 512), None, false, None, None))
  {
  }
}
