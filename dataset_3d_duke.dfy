/** `DUKE_Dataset3D`: the data roots, the retained manifest rows, the
    `item_pointers` that order them and the sample `__getitem__` builds. */
module DukeDataset {
  import opened Common
  import opened Paths
  import opened DukeSplit
  import opened DukeTransforms

  /** `PATH_ROOT`, as `.parts`. */
  const PATH_ROOT: Path := ["/", "home", "gustav", "Documents", "datasets", "Duke-Breast-Cancer-MRI"]

  /** The manifest's location under a root: `preprocessed_crop/splits/split.csv`. */
  function ManifestPath(root: Path): (p: Path)
    ensures p == root + ["preprocessed_crop", "splits", "split.csv"]
  {
    Join(root, ["preprocessed_crop", "splits", "split.csv"])
  }

  /** The subject directory name of a uid without '/' is one component. */
  lemma SubjectDirectory(uid: string)
    requires '/' !in uid
    ensures IsComponent("Breast_MRI_" + uid)
  {
    var dir := "Breast_MRI_" + uid;
    assert '/' !in dir by {
      forall i | 0 <= i < |dir| ensures dir[i] != '/' {
        if i >= 11 { assert dir[i] == uid[i - 11]; }
      }
    }
    assert dir != "." by { assert |dir| > 1; }
  }

  /** `path_root_data / f'Breast_MRI_{uid}' / 'sub.nii.gz'`: always the file
      `sub.nii.gz`, and for a uid without '/' it sits in the subject's own
      directory right under the data root. */
  function ImagePath(dataRoot: Path, uid: string): (p: Path)
    ensures |p| > 0 && p[|p| - 1] == "sub.nii.gz"
    ensures '/' !in uid ==> p == dataRoot + ["Breast_MRI_" + uid, "sub.nii.gz"]
  {
    if '/' !in uid then
      SubjectDirectory(uid);
      ParseComponent("Breast_MRI_" + uid);
      Join(Join(dataRoot, ParsePath("Breast_MRI_" + uid)), ["sub.nii.gz"])
    else
      Join(Join(dataRoot, ParsePath("Breast_MRI_" + uid)), ["sub.nii.gz"])
  }

  /** For a uid without '/', the image is
      `<root>/preprocessed_crop/data/Breast_MRI_<uid>/sub.nii.gz`. */
  lemma ImagePathLayout(root: Path, uid: string)
    requires '/' !in uid
    ensures ImagePath(Join(root, ["preprocessed_crop", "data"]), uid)
         == root + ["preprocessed_crop", "data", "Breast_MRI_" + uid, "sub.nii.gz"]
  {
  }

  /** The loaded image of one subject after the dataset's transform. */
  datatype Source = Transformed(transform: Transform, image: Path)

  /** `{'uid': uid, 'source': img, 'target': target}`. */
  datatype Sample = Sample(uid: string, source: Source, target: int)

  /** `df.loc[key]`: the values of the row labelled `key`. */
  function Loc(df: Frame, key: int): (r: Option<Row>)
    ensures r.Some? ==> Entry(key, r.value) in df
    ensures r.None? ==> forall i :: 0 <= i < |df| ==> df[i].index != key
  {
    if df == [] then None
    else if df[0].index == key then Some(df[0].row)
    else Loc(df[1..], key)
  }

  /** With increasing labels, looking up the label of a row finds that row. */
  lemma {:induction false} LocFindsRow(df: Frame, i: nat)
    requires Increasing(df)
    requires i < |df|
    ensures Loc(df, df[i].index) == Some(df[i].row)
  {
    if i > 0 {
      assert df[0].index < df[i].index;
      assert Increasing(df[1..]) by {
        forall a, b | 0 <= a < b < |df[1..]| ensures df[1..][a].index < df[1..][b].index {
          assert df[1..][a] == df[a + 1] && df[1..][b] == df[b + 1];
        }
      }
      LocFindsRow(df[1..], i - 1);
    }
  }

  class DukeDataset3D {
    const pathRoot: Path
    const pathRootData: Path
    const transform: Transform
    const df: Frame
    const itemPointers: seq<int>
    /** `path_csv`, the file the manifest rows are read from. */
    ghost const manifestPath: Path

    /** `item_pointers` is the frame's index, whose labels increase. */
    ghost predicate Valid() {
      itemPointers == Labels(df) && Increasing(df)
    }

    /** `__init__`: `manifest` is the sequence of rows `pd.read_csv` reads
        from `manifestPath`, and `picks` the sample `df.sample`
        draws when a fraction is given. */
    constructor (pathRoot: Option<string>, fold: int, split: Option<string>, fraction: Option<real>,
                 transform: Option<Transform>, options: PipelineOptions,
                 manifest: seq<Row>, picks: seq<nat>)
      requires fraction.Some? ==> ValidSample(picks, |FoldAndSplit(ReadCsv(manifest), fold, split)|)
      ensures Valid()
      ensures this.pathRoot == if pathRoot.None? then PATH_ROOT else ParsePath(pathRoot.value)
      ensures pathRootData == this.pathRoot + ["preprocessed_crop", "data"]
      ensures manifestPath == this.pathRoot + ["preprocessed_crop", "splits", "split.csv"]
      ensures this.transform == ChooseTransform(transform, options)
      ensures df == LoadSplit(manifest, fold, split, fraction, picks)
    {
      var root := if pathRoot.None? then PATH_ROOT else ParsePath(pathRoot.value);
      this.pathRoot := root;
      pathRootData := Join(root, ["preprocessed_crop", "data"]);
      manifestPath := ManifestPath(root);
      this.transform := ChooseTransform(transform, options);
      var frame := LoadSplit(manifest, fold, split, fraction, picks);
      df := frame;
      itemPointers := Labels(frame);
    }

    /** `__len__`: the number of rows `load_split` retained. */
    function Length(): (n: nat)
      requires Valid()
      ensures n == |df|
    {
      |itemPointers|
    }

    /** `__getitem__(index)`: Python indexing of `item_pointers` (negative
        indices count from the end), then `df.loc` on the label found. */
    function GetItem(index: int): (r: Result<Sample>)
      requires Valid()
      ensures 0 <= index < |df| ==> r == Ok(SampleOf(df[index].row))
      ensures -|df| <= index < 0 ==> r == Ok(SampleOf(df[index + |df|].row))
      ensures (index < -|df| || |df| <= index) ==> r == Err(IndexError)
    {
      var n := |itemPointers|;
      var pos := if index < 0 then index + n else index;
      if pos < 0 || n <= pos then Err(IndexError)
      else
        LocFindsRow(df, pos);
        match Loc(df, itemPointers[pos])
        case None => Err(KeyError)
        case Some(item) => Ok(SampleOf(item))
    }

    /** The sample built from one manifest row. */
    function SampleOf(item: Row): (s: Sample)
      ensures s.uid == item.uid && s.target == item.malignant
      ensures s.source == Transformed(transform, ImagePath(pathRootData, item.uid))
    {
      Sample(item.uid, Transformed(transform, ImagePath(pathRootData, item.uid)), item.malignant)
    }
  }
}
