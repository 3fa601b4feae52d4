# MST bookkeeping core in Dafny

This project models the deterministic core under the MST breast-MRI
classification code: the training wrapper (`VeryBasicModel`, `BasicModel`,
`BasicClassifier` in `mst/models/base_model.py`) and the Duke dataset
(`DUKE_Dataset3D` in `mst/data/datasets/dataset_3d_duke.py`). It covers:

- the three per-split step counters and the step ids they hand to `_step`;
- the per-split accuracy and AUROC accumulators, kept abstractly as the
  (pred, target) pairs they were fed, filled by `_step` and emptied by
  `_epoch_end`;
- the `load_weights` merge of a pretrained state dict through a key filter;
- the best-checkpoint pointer `save_best_checkpoint` records and the path
  `_get_best_checkpoint_path` and `load_pretrained` resolve from it;
- the two result shapes of `configure_optimizers`;
- `load_split`'s fold and split filters and its fractional sample;
- the dataset's roots, length and `__getitem__` lookup;
- the default nine-stage preprocessing pipeline, as descriptors.

Modules: `Common` (Option, Result, the raised exceptions, tensor handles),
`Paths` (POSIX `pathlib`: a path is its `.parts`), `Checkpoints`,
`StateDicts`, `Training` (splits, counters, accumulators and whole runs of
calls as values), `BaseModel` (the class `Model` with the wrapper's fields),
`DukeSplit`, `DukeTransforms`, and `DukeDataset` (the class `DukeDataset3D`).

The three Python classes become one Dafny class, `BaseModel.Model`. Its
`level` constant records the most derived class. `_step` raises
`NotImplementedError` below `BasicClassifier`. The step counter has already
been raised by then. `_epoch_end` does nothing below `BasicClassifier`.

Inputs the code reads from outside are parameters:
- `pred`: the output of the forward pass;
- `manifest`: the rows `pd.read_csv` reads;
- `picks`: the positions `df.sample` draws;
- `PointerStore`: the JSON pointer files;
- `checkpoints`: the state dict in each checkpoint file;
- `isDir`: the answer of `is_dir()`.

Notes on the code as written:

- The default `load_weights` filter `key in pretrained_weights` admits every
  pretrained key, including keys the model does not have, so the merged key
  set is the union of both.
- The eighth default stage is `RandomNoise` alone; there is no intensity
  negation stage.
- The fixed flip `RandomFlip(1, flip_probability=1)` is always the third
  stage.

## Model

| member | source | states |
|---|---|---|
| Paths.ParsePath | mst/models/base_model.py:54-60 | `Path(s)` gives well-formed parts, and the path is absolute exactly when `s` starts with '/' |
| Paths.Join | mst/models/base_model.py:60 | `a / b` appends a relative `b` to `a`; an absolute `b` replaces `a` |
| Paths.Name | mst/models/base_model.py:54 | a non-empty `.name` is the last part; for a well-formed path the name is empty exactly when the path is empty or a bare root, and otherwise it is one component |
| Paths.ParseName | mst/models/base_model.py:54-59 | parsing a recorded name gives the one-component path of that name, or the empty path when there is no name |
| Checkpoints.PointerFile | mst/models/base_model.py:53 | the pointer file is `best_checkpoint.json` inside the directory |
| Checkpoints.SaveBestCheckpoint | mst/models/base_model.py:52-54 | only the last component of the best path is recorded, under that directory's pointer file; every other pointer file keeps its content |
| Checkpoints.GetBestCheckpointPath | mst/models/base_model.py:56-60 | a missing pointer file gives FileNotFoundError; otherwise the result is the directory joined with the parsed recorded name |
| Checkpoints.PretrainedCheckpointPath | mst/models/base_model.py:67-69 | a directory is resolved through its pointer file; any other path is used as given |
| Checkpoints.SaveThenResolve | mst/models/base_model.py:52-60 | saving `best` under `dir` and then resolving `dir` gives `dir` extended by only the last component of `best` |
| Checkpoints.SaveElsewhereKeepsResolution | mst/models/base_model.py:52-60 | saving a pointer under one path does not change how another path resolves |
| Checkpoints.DirectoryLoadMatchesDirectLoad | mst/models/base_model.py:67-73 | after a save, loading the directory opens the same file as loading the resolved path directly |
| StateDicts.Admits | mst/models/base_model.py:76 | with no filter given, a key is admitted exactly when it is a pretrained key; a given filter decides alone |
| StateDicts.Admitted | mst/models/base_model.py:76-78 | the comprehension keeps exactly the pretrained keys the filter admits, with their pretrained values |
| StateDicts.Merge | mst/models/base_model.py:76-79 | every own key stays; an admitted key takes the pretrained value; every other own key keeps its own; with the default filter the key set is the union and every pretrained value wins |
| StateDicts.Loaded | mst/models/base_model.py:80 | loading sets each of the model's own keys to its merged value and adds no key |
| StateDicts.MergeIdempotent | mst/models/base_model.py:76-79 | merging the same pretrained weights twice gives the same state dict as merging once |
| Training.KeysDistinct | mst/models/base_model.py:144-145 | the metric keys `train_`, `val_` and `test_` are pairwise distinct |
| Training.FreshWellKeyed | mst/models/base_model.py:144-145 | the looked-up key `state + "_"` of every split is one of the keys `"train_"`, `"val_"`, `"test_"` the constructor creates |
| Training.Counters.Bump | mst/models/base_model.py:29-39 | a step call raises its own split's counter by one and leaves the other two alone |
| Training.AfterCounts | mst/models/base_model.py:29-39 | after a run of step calls, each counter has grown by the number of calls of its own split |
| Training.IdsConsecutive | mst/models/base_model.py:29-39 | the ids handed to `_step` for one split are consecutive, starting one above its counter, one per call of that split |
| Training.IdsFromInitial | mst/models/base_model.py:15-39 | from the initial counters of -1, each split's ids are 0, 1, 2, ... and strictly increasing |
| Training.Record | mst/models/base_model.py:164-165 | a metric update appends one observation to its own split and changes no other split |
| Training.Reset | mst/models/base_model.py:174-178 | a metric reset empties its own split and changes no other split |
| Training.ApplyAppends | mst/models/base_model.py:148-178 | any call except the epoch end of split `s` adds to `s` only the observation it makes on `s` |
| Training.ReplayWithoutReset | mst/models/base_model.py:148-178 | with no epoch end of `s`, the accumulator of `s` grows by exactly the observations of the steps of `s`, in order |
| Training.ReplayAfterReset | mst/models/base_model.py:174-178 | after an epoch end of `s`, the accumulator of `s` holds only the observations of the steps of `s` since then |
| BaseModel.Tag | mst/models/base_model.py:176 | the logged tag is the split's name, a slash, then the metric's name |
| BaseModel.TagsDistinct | mst/models/base_model.py:175-177 | each (split, metric) pair is logged under its own tag |
| BaseModel.ResetFresh | mst/models/base_model.py:144-145 | resetting a split of freshly constructed metrics changes nothing |
| BaseModel.Model.constructor | mst/models/base_model.py:11-17 | all three counters start at -1; the metric dictionaries hold an empty accumulator for each split; no batch size is set yet |
| BaseModel.Model.Step | mst/models/base_model.py:148-172 | the base classes raise NotImplementedError and change nothing; the classifier records (pred, target) in both metrics of its split only, sets the batch size to the number of targets and returns the loss of pred against target |
| BaseModel.Model.TrainingStep | mst/models/base_model.py:29-31 | only the train counter grows, by one, and its new value is the step id handed to `_step` with the train split |
| BaseModel.Model.ValidationStep | mst/models/base_model.py:33-35 | only the val counter grows, by one, and its new value is the step id handed to `_step` with the val split |
| BaseModel.Model.TestStep | mst/models/base_model.py:37-39 | only the test counter grows, by one, and its new value is the step id handed to `_step` with the test split |
| BaseModel.Model.EpochEnd | mst/models/base_model.py:174-178 | the classifier reports ACC then AUC_ROC over what its split accumulated, then empties both for that split only; before any step it fails with AttributeError on `batch_size` and nothing changes; the base classes do nothing |
| BaseModel.Model.LoadWeights | mst/models/base_model.py:75-81 | the dict handed to `load_state_dict` is the filtered merge, and the model ends with its own keys set to the merged values |
| BaseModel.Model.LoadPretrained | mst/models/base_model.py:67-73 | the checkpoint comes from the resolved path; a missing pointer or checkpoint fails and changes nothing; otherwise its state dict is merged as by `load_weights` |
| BaseModel.ConfigureOptimizers | mst/models/base_model.py:103-110 | always exactly the one configured optimizer; with no scheduler only that optimizer, otherwise also one scheduler config over it with interval "step" and frequency 1 |
| BaseModel.DefaultsConfigureSingleOptimizer | mst/models/base_model.py:86-110 | with default arguments, `BasicModel` configures only Adam with lr 1e-3 and `BasicClassifier` only AdamW with lr 1e-4, both with weight decay 1e-2 and no scheduler |
| DukeSplit.Labels | mst/data/datasets/dataset_3d_duke.py:53 | `df.index.tolist()` lists the frame's labels in row order |
| DukeSplit.Rows | mst/data/datasets/dataset_3d_duke.py:67 | the values of the frame's rows, in order |
| DukeSplit.ReadCsv | mst/data/datasets/dataset_3d_duke.py:79 | the frame holds the manifest rows in file order under the labels 0..n-1 |
| DukeSplit.Where | mst/data/datasets/dataset_3d_duke.py:80-82 | boolean masking keeps exactly the rows that pass and no more rows than it was given |
| DukeSplit.WhereSubsequence | mst/data/datasets/dataset_3d_duke.py:80-82 | masking only deletes rows; the survivors keep their order |
| DukeSplit.WhereAll | mst/data/datasets/dataset_3d_duke.py:80-82 | a mask every row passes changes nothing |
| DukeSplit.TailIncreasing | mst/data/datasets/dataset_3d_duke.py:80-82 | dropping the first row keeps labels increasing, and the first label is below all later ones |
| DukeSplit.ConsIncreasing | mst/data/datasets/dataset_3d_duke.py:80-82 | a row whose label is below all labels of an increasing frame can be put in front of it |
| DukeSplit.WhereKeepsIncreasing | mst/data/datasets/dataset_3d_duke.py:80-82 | masking keeps increasing labels increasing |
| DukeSplit.FoldAndSplit | mst/data/datasets/dataset_3d_duke.py:80-82 | a row survives exactly when its Fold equals `fold` and, when a split is given, its Split equals it; with no split only the fold filter applies |
| DukeSplit.FoldAndSplitSubsequence | mst/data/datasets/dataset_3d_duke.py:80-82 | the fold and split filters keep the manifest order |
| DukeSplit.SubsequenceTransitive | mst/data/datasets/dataset_3d_duke.py:80-82 | a subsequence of a subsequence is a subsequence |
| DukeSplit.FoldAndSplitIdempotent | mst/data/datasets/dataset_3d_duke.py:80-82 | filtering the filtered frame again with the same fold and split changes nothing |
| DukeSplit.SampleAndReset | mst/data/datasets/dataset_3d_duke.py:84 | the sample holds the drawn rows, at most as many as the frame has, renumbered 0..n-1 |
| DukeSplit.DistinctPicksFit | mst/data/datasets/dataset_3d_duke.py:84 | sampling without replacement draws no more rows than there are |
| DukeSplit.SetOfDistinct | mst/data/datasets/dataset_3d_duke.py:84 | a sequence without repetitions has as many distinct elements as entries |
| DukeSplit.LoadSplit | mst/data/datasets/dataset_3d_duke.py:77-85 | without a fraction the result is the fold and split filter of the manifest; with one it is the drawn, renumbered sample; its labels increase either way |
| DukeSplit.LoadSplitIncreasing | mst/data/datasets/dataset_3d_duke.py:79-82 | the filtered frame's labels increase |
| DukeSplit.LoadSplitFilters | mst/data/datasets/dataset_3d_duke.py:78-82 | without a fraction, every kept row is the manifest row at its label and matches fold and split; every matching manifest row is kept; manifest order is preserved |
| DukeSplit.LoadSplitSample | mst/data/datasets/dataset_3d_duke.py:83-84 | with a fraction, the result has no more rows than the filtered frame; it is renumbered 0..n-1; its rows are rows of the filtered frame taken from distinct entries |
| DukeTransforms.DefaultPipeline | mst/data/datasets/dataset_3d_duke.py:33-44 | nine stages in the fixed order; each optional stage is the identity exactly when its option is off; the axis-1 flip and the ZNormalization are always there; tensor conversion comes last |
| DukeTransforms.DeterministicIffAugmentationsOff | mst/data/datasets/dataset_3d_duke.py:36-43 | the default pipeline has no random stage exactly when flip, rotation, noise and a random crop centre are all off |
| DukeTransforms.ChooseTransform | mst/data/datasets/dataset_3d_duke.py:32-46 | a supplied transform replaces the whole pipeline; otherwise the nine-stage default is composed |
| DukeTransforms.DefaultOptionsPipeline | mst/data/datasets/dataset_3d_duke.py:13-44 | with the constructor's defaults the pipeline has no random stage, crops or pads to (224, 224, 32) around the centre and ends with tensor conversion |
| DukeDataset.ManifestPath | mst/data/datasets/dataset_3d_duke.py:50 | the manifest is `<root>/preprocessed_crop/splits/split.csv` |
| DukeDataset.SubjectDirectory | mst/data/datasets/dataset_3d_duke.py:71 | `Breast_MRI_<uid>` is a single path component when the uid has no '/' |
| DukeDataset.ImagePath | mst/data/datasets/dataset_3d_duke.py:71 | the image file is always `sub.nii.gz`; for a uid without '/' it sits in `Breast_MRI_<uid>` right under the data root |
| DukeDataset.ImagePathLayout | mst/data/datasets/dataset_3d_duke.py:30-71 | for a uid without '/', the image is `<root>/preprocessed_crop/data/Breast_MRI_<uid>/sub.nii.gz` |
| DukeDataset.Loc | mst/data/datasets/dataset_3d_duke.py:67 | `df.loc` finds a row under the key, or reports that no row has it |
| DukeDataset.LocFindsRow | mst/data/datasets/dataset_3d_duke.py:66-67 | with increasing labels, looking up a row's label finds that row |
| DukeDataset.DukeDataset3D.constructor | mst/data/datasets/dataset_3d_duke.py:13-53 | the root defaults to PATH_ROOT; the data root is `<root>/preprocessed_crop/data`; the manifest is read from `<root>/preprocessed_crop/splits/split.csv`; the transform is the supplied one or the default pipeline; the frame is what `load_split` returns; `item_pointers` is its index |
| DukeDataset.DukeDataset3D.Length | mst/data/datasets/dataset_3d_duke.py:56-57 | the length is the number of rows `load_split` retained |
| DukeDataset.DukeDataset3D.GetItem | mst/data/datasets/dataset_3d_duke.py:65-74 | an index in range, or negative from the end, gives the UID, the Malignant value and the image of the row at that position; any other index raises IndexError |
| DukeDataset.DukeDataset3D.SampleOf | mst/data/datasets/dataset_3d_duke.py:68-74 | the sample carries the row's UID and Malignant value and the transform applied to the subject's image |

## Left out

- The forward pass, the loss value and the numeric values of Accuracy and AUROC: tensor arithmetic in torch and torchmetrics. The metrics keep only the (pred, target) pairs they were given.
- `self.log`, `sync_dist` and `save_hyperparameters`: logging and framework plumbing. `EpochEnd` returns what would be logged instead.
- `torch.load` and the JSON reads and writes: file I/O. They become the `checkpoints` and `PointerStore` parameters.
- `load_best_checkpoint`: `load_from_checkpoint` is framework code. Its path is `GetBestCheckpointPath`.
- `BaseModel.Model.LoadWeights`: leaves out `load_state_dict`'s strict-mode RuntimeError for unexpected keys and its shape checks, which belong to torch.
- `pd.read_csv`: CSV parsing. The manifest is given as a sequence of rows.
- `DukeSplit.LoadSplit`: the draw of `df.sample(frac=fraction, random_state=0)` is a parameter, so the model does not fix which rows or how many (`round(fraction * n)`) are drawn. pandas' errors for a fraction outside [0, 1] and the extra `index` column of `reset_index` are not modelled.
- Image loading (`load_img`, `load_map`) and every voxel-level effect of the transform stages: torchio floating-point code. Stages are descriptors.
- `DukeDataset.DukeDataset3D.GetItem`: takes the UID as its text form; pandas' parsing of the UID column is not modelled.
- Checkpoints.SaveElsewhereKeepsResolution: the pointer store is keyed by `.parts`, so two spellings of one directory (through `..`, symbolic links or the working directory) are different keys; in the code, saving under `a/b/..` overwrites the pointer file of `a`, which the model does not capture.
- `on_test_epoch_end(self, outputs)` declares a required `outputs` parameter; whether the framework's argument-less hook call reaches `_epoch_end("test")` or fails first depends on the framework version and is not modelled. `EpochEnd` models the call `_epoch_end("test")` itself.
- Non-POSIX (Windows) path rules in `Paths`, and `is_dir`, which queries the file system and is the `isDir` parameter.
- The `batch_idx` argument and the constructor fields `in_ch`, `out_ch`, `spatial_dims` and `loss_kwargs`: `batch_idx` and `spatial_dims` are never read, and `loss_kwargs` and `out_ch` only configure the loss and the metrics' numeric behaviour (mst/models/base_model.py:138, 141-142), which are left out.
- `configure_optimizers`' use of `self.parameters()`: the model parameters are not modelled beyond the state dict.
