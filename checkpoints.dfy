/** The best-checkpoint pointer of `VeryBasicModel`: `save_best_checkpoint`
    records only the file name of the best checkpoint in
    `<dir>/best_checkpoint.json`, and `_get_best_checkpoint_path` joins the
    recorded name back onto the directory. */
module Checkpoints {
  import opened Common
  import opened Paths

  /** The pointer files on disk: the path of each `best_checkpoint.json`
      and the string stored under its "best_model_epoch" key. */
  type PointerStore = map<Path, string>

  const POINTER_FILE: string := "best_checkpoint.json"

  function PointerFile(dir: Path): (f: Path)
    ensures f == dir + [POINTER_FILE]
  {
    Join(dir, [POINTER_FILE])
  }

  /** `save_best_checkpoint(dir, best)`: only `best`'s last component is kept.
      The pointer file of every other directory is left as it was. */
  function SaveBestCheckpoint(store: PointerStore, dir: Path, best: Path): (s: PointerStore)
    ensures s.Keys == store.Keys + {dir + [POINTER_FILE]}
    ensures s[dir + [POINTER_FILE]] == Name(best)
    ensures forall f :: f in store && f != dir + [POINTER_FILE] ==> s[f] == store[f]
  {
    store[PointerFile(dir) := Name(best)]
  }

  /** `_get_best_checkpoint_path(dir)`: reading a missing pointer file fails. */
  function GetBestCheckpointPath(store: PointerStore, dir: Path): (r: Result<Path>)
    ensures r.Err? <==> dir + [POINTER_FILE] !in store
    ensures r.Err? ==> r.error == FileNotFoundError
    ensures r.Ok? ==> r.value == Join(dir, ParsePath(store[dir + [POINTER_FILE]]))
  {
    var f := PointerFile(dir);
    if f in store then Ok(Join(dir, ParsePath(store[f]))) else Err(FileNotFoundError)
  }

  /** The checkpoint file `load_pretrained` opens: a directory is resolved
      through its pointer file, any other path is used as given. */
  function PretrainedCheckpointPath(store: PointerStore, path: Path, isDir: bool): (r: Result<Path>)
    ensures !isDir ==> r == Ok(path)
    ensures isDir ==> r == GetBestCheckpointPath(store, path)
  {
    if isDir then GetBestCheckpointPath(store, path) else Ok(path)
  }

  /** Saving and then resolving gives the directory extended by the last
      component of the saved path alone (nothing when that path has no name). */
  lemma SaveThenResolve(store: PointerStore, dir: Path, best: Path)
    requires WellFormed(best)
    ensures GetBestCheckpointPath(SaveBestCheckpoint(store, dir, best), dir)
         == Ok(dir + (if Name(best) == "" then [] else [Name(best)]))
  {
    ParseName(best);
  }

  /** Resolving a directory is unaffected by saving a pointer in another one. */
  lemma SaveElsewhereKeepsResolution(store: PointerStore, dir: Path, other: Path, best: Path)
    requires other != dir
    ensures GetBestCheckpointPath(SaveBestCheckpoint(store, other, best), dir)
         == GetBestCheckpointPath(store, dir)
  {
    if |other| == |dir| {
      var i :| 0 <= i < |other| && other[i] != dir[i];
      assert (other + [POINTER_FILE])[i] != (dir + [POINTER_FILE])[i];
    }
  }

  /** Loading a directory reads the same file as loading the path its
      pointer resolves to, so both give the same parameters. */
  lemma DirectoryLoadMatchesDirectLoad(store: PointerStore, dir: Path, best: Path)
    requires WellFormed(best)
    ensures
      var resolved := dir + (if Name(best) == "" then [] else [Name(best)]);
      PretrainedCheckpointPath(SaveBestCheckpoint(store, dir, best), dir, true)
        == PretrainedCheckpointPath(SaveBestCheckpoint(store, dir, best), resolved, false)
  {
    SaveThenResolve(store, dir, best);
  }
}
