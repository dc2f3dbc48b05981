# py4DSTEM data reader — a Dafny model

py4DSTEM's `read_data` loads a 4D-STEM datacube. It first opens the file with
h5py. If the file is a native py4DSTEM container, it reads the datacube from
the container. Otherwise it hands the file to hyperspy and works out the four
datacube sizes (`R_Ny, R_Nx, Q_Ny, Q_Nx`) from the rank of the array hyperspy
returns. If that fails, it builds a synthetic random datacube. `is_py4DSTEMfile`
decides whether a file is native: it checks for the two version attributes and
the top-level `4D-STEM_data` group.

The model is made of pure functions over datatypes. Neither library is called.
Each one's outcome is an input instead:

- `Reader.H5Open`: either h5py raised `IOError`, or the file opened. An opened
  file gives its root attribute names, its top-level keys, and what sits at
  `4D-STEM_data/datacube/datacube`: nothing (a step of the path is missing), a
  group, or a dataset with its shape.
- `Reader.HsLoad`: either the hyperspy block raised, or hyperspy loaded a
  signal. A loaded signal gives its data shape and its two metadata trees.

`Reader.ReadData` is total. It returns either an escaping exception
(`KeyError`, `AttributeError` or `ValueError`) or the arguments passed to the `DataCube`
constructor: data shape, the four sizes, filename, provenance flag and
metadata trees.

Files:
- `wrappers.dfy`: `Option`.
- `shapes.dfy`: element counts of shapes, and the four-size record `Dims`.
- `reader.dfy`: the detection predicate and the reader's branches.
- `reader_properties.dfy`: the result on each class of input.

## Behaviour worth noting

- The root attributes tested are `version_major` and `version_minor`, and the
  top-level key is `4D-STEM_data`.
- A file that passes the native check but is broken raises a plain Python
  exception from inside `read_data`. Indexing a missing path raises `KeyError`.
  Asking a group for its `shape` raises `AttributeError`. Unpacking a shape
  that is not of rank 4 raises `ValueError`. None of these is caught, because
  the handler around the native branch catches only `IOError`.
- A file h5py cannot open goes on to hyperspy, exactly like an opened file that
  is not native.
- The synthetic datacube keeps the filename when hyperspy's array has an
  unexpected rank. Its filename is `None` when the hyperspy block raised.

Loading the same inputs twice gives the same result, because `ReadData` is a
function.

## Model

| member | source | states |
|---|---|---|
| Reader.IsPy4DSTEMFile | py4DSTEM/readwrite/reader.py:61-65 | a file is native exactly when both version attributes are among its root attributes and `4D-STEM_data` is among its keys |
| ReaderProperties.MissingMarkerIsForeign | py4DSTEM/readwrite/reader.py:61-65 | if any one of the three markers is missing, the file is not native; the check has no error result |
| ReaderProperties.DetectionLooksOnlyAtMarkers | py4DSTEM/readwrite/reader.py:62 | two files that agree on the three markers are classified the same way, whatever other attributes, keys or datacube they hold |
| ReaderProperties.HyperspyReachedExactly | py4DSTEM/readwrite/reader.py:20-38 | hyperspy is reached exactly when h5py could not open the file or the opened file is not native; then the result is the hyperspy branch's dataset, and otherwise it is the native branch's outcome |
| Reader.ReadNative | py4DSTEM/readwrite/reader.py:22-29 | the native branch raises exactly when there is no rank-4 datacube, with KeyError when the path is missing, AttributeError when a group sits there and ValueError for a dataset of another rank; else the sizes spell the stored shape, the element count matches, the filename is kept, the native flag is set and no metadata is attached |
| Reader.InferDims | py4DSTEM/readwrite/reader.py:39-45 | shape inference succeeds exactly for rank 3 and rank 4; rank 3 inserts a 1-wide second scan axis; rank 4 is taken as it is; the sizes' product equals the array's element count |
| Reader.RandomDatacube | py4DSTEM/readwrite/reader.py:47-49 | the synthetic datacube has data shape 100×512×512 and sizes 10,10,512,512, whose element counts agree; it is not native, has no metadata and carries the filename it is given |
| Reader.FallbackCountsAgree | py4DSTEM/readwrite/reader.py:47-48 | 10·10·512·512 is the element count of a 100×512×512 array |
| Reader.ReadWithHyperspy | py4DSTEM/readwrite/reader.py:37-58 | the hyperspy branch never raises and is never native; the filename is dropped exactly when hyperspy failed; a rank-3 or rank-4 array is attached with both metadata trees; anything else gives the synthetic datacube without metadata; the element count always matches |
| Reader.ReadData | py4DSTEM/readwrite/reader.py:10-58 | it raises only on a native file without a rank-4 datacube; every returned dataset has four sizes whose product is its data's element count; it is flagged native exactly when the native branch built it; it lacks a filename exactly when hyperspy was reached and failed; otherwise it has the given filename; a native result's sizes equal the stored shape |
| ReaderProperties.NativeFileReadsDatacube | py4DSTEM/readwrite/reader.py:22-29 | a native file with datacube shape (a,b,c,d) gives sizes a,b,c,d, the native flag, the filename and no metadata |
| ReaderProperties.NativeFileIgnoresHyperspy | py4DSTEM/readwrite/reader.py:22-29 | on a native file the hyperspy outcome cannot change the result |
| ReaderProperties.CorruptNativeFileRaises | py4DSTEM/readwrite/reader.py:22-33 | a native file without the datacube raises KeyError, one with a group at the datacube path raises AttributeError, and one with a dataset of another rank raises ValueError; none is caught |
| ReaderProperties.ForeignFileFallsThrough | py4DSTEM/readwrite/reader.py:30-38 | an opened foreign file is treated exactly like a file h5py could not open; both go to hyperspy and return a dataset |
| ReaderProperties.HyperspyRank3 | py4DSTEM/readwrite/reader.py:39-41 | hyperspy shape (n,h,w) gives sizes n,1,h,w, keeps the filename, is not native and attaches both metadata trees |
| ReaderProperties.HyperspyRank4 | py4DSTEM/readwrite/reader.py:42-43 | hyperspy shape (a,b,c,d) gives sizes a,b,c,d, keeps the filename, is not native and attaches both metadata trees |
| ReaderProperties.HyperspyUnexpectedRank | py4DSTEM/readwrite/reader.py:44-49 | any other rank gives the synthetic 10,10,512,512 datacube over 100×512×512 data and keeps the filename |
| ReaderProperties.HyperspyFailure | py4DSTEM/readwrite/reader.py:54-58 | a hyperspy failure gives the same synthetic datacube with filename `None` |
| Shapes.CountIsProduct | py4DSTEM/readwrite/reader.py:24-26 | four sizes multiply to the element count of the rank-4 shape they spell |
| Shapes.ProductInsertUnitAxis | py4DSTEM/readwrite/reader.py:40-41 | inserting a 1-wide axis anywhere in a shape leaves its element count unchanged |

## Left out

- The real `h5py.File`, `close` and `hs.load` calls are not modelled. These are foreign I/O, and their outcomes are the inputs `H5Open` and `HsLoad`.
- File-handle lifetime is not modelled. That includes the handle left open when the native branch raises.
- Array contents are not modelled, including the `np.random.rand` values. They are floating point and random, so only shapes are kept.
- The `DataCube` constructor is a record of its arguments. Its source is not part of this model, and so neither is passing the open `h5_file` into it.
- hyperspy metadata trees are opaque `map<string, string>` values that are passed through unchanged.
- `LoadFailed` stands for any exception inside the hyperspy block. An example is `hs.load` returning a list of signals, which has no `data` attribute. Which inputs make hyperspy raise is not modelled.
- An `IOError` raised by h5py after opening succeeded is not modelled. It would fall through to hyperspy, but the model's opened file only ever yields nothing, a group or a dataset at the datacube path.
- A dataset at an intermediate step of the datacube path (`4D-STEM_data` or `4D-STEM_data/datacube` being a dataset rather than a group) is not modelled. The exception h5py then raises is specific to h5py.
- The console messages are not modelled. They carry no contract.
- The file-layout comment (`dim1..dim4`, `processing`, `metadata` groups) is not modelled. No code reads those parts.
