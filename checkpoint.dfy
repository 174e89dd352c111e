/**
 * The checkpoint coordinator: a checkpoint file path names a pair of
 * directories, the raw one and the EMA one, which are saved, removed and
 * linked together.
 *
 * Storage is a map from directory paths to the parameter tree stored there.
 * A directory is present when something is stored at it or below it.
 * Writing a directory replaces it and everything below it, and a write either
 * happens completely or fails.  Removing a directory removes everything below
 * it.
 */
module Checkpoint {
  import opened Wrappers
  import Ema
  import opened Paths
  import opened Diffusion

  datatype CkptError =
    | Attribute(name: string)  // AttributeError: the module has no parameters yet
    | WriteFailed(dir: Path)   // the checkpoint backend could not write this directory
    | FileNotFound(dir: Path)  // shutil.rmtree of a directory that is not there

  type Dirs = map<Path, Ema.Tree>

  /** `q` is `d` or lies below it. */
  predicate Within(q: Path, d: Path) {
    q.anchor == d.anchor && d.parts <= q.parts
  }

  predicate Present(dirs: Dirs, d: Path) {
    exists q | q in dirs :: Within(q, d)
  }

  /** What is left of the storage after `d` and everything below it are removed. */
  function Removed(dirs: Dirs, d: Path): (r: Dirs)
    ensures forall q :: q in r <==> q in dirs && !Within(q, d)
    ensures forall q :: q in r ==> r[q] == dirs[q]
    ensures !Present(r, d)
  {
    map q | q in dirs && !Within(q, d) :: dirs[q]
  }

  /** The storage after `t` is written at `d`, replacing what was there. */
  function Written(dirs: Dirs, d: Path, t: Ema.Tree): (r: Dirs)
    ensures d in r && r[d] == t
    ensures forall q :: q != d ==> (q in r <==> q in dirs && !Within(q, d))
    ensures forall q :: q in r && q != d ==> r[q] == dirs[q]
  {
    Removed(dirs, d)[d := t]
  }

  /**
   * Writing trees to directories in order.  The first write that fails
   * stops the rest and is reported; the writes before it stay done.
   */
  function SaveAll(dirs: Dirs, faulty: set<Path>, items: seq<(Ema.Tree, Path)>): (r: (Dirs, Outcome<CkptError>))
    ensures r.1.Fail? ==> r.1.error.WriteFailed? && r.1.error.dir in faulty
    ensures r.1.Pass? <==> forall i :: 0 <= i < |items| ==> items[i].1 !in faulty
  {
    if items == [] then (dirs, Pass)
    else
      var (m, o) := SaveAll(dirs, faulty, items[..|items| - 1]);
      var (t, d) := items[|items| - 1];
      if o.Fail? then (m, o)
      else if d in faulty then (m, Fail(WriteFailed(d)))
      else (Written(m, d, t), Pass)
  }

  /** Removing directories in order.  The first one that is missing stops the rest. */
  function RemoveAll(dirs: Dirs, ds: seq<Path>): (r: (Dirs, Outcome<CkptError>))
    ensures r.1.Fail? ==> r.1.error.FileNotFound? && r.1.error.dir in ds
    ensures forall q :: q in r.0 ==> q in dirs && r.0[q] == dirs[q]
  {
    if ds == [] then (dirs, Pass)
    else
      var (m, o) := RemoveAll(dirs, ds[..|ds| - 1]);
      var d := ds[|ds| - 1];
      if o.Fail? then (m, o)
      else if !Present(m, d) then (m, Fail(FileNotFound(d)))
      else (Removed(m, d), Pass)
  }

  /** Once a write has failed, later items change nothing. */
  lemma {:induction false} SaveFailureSticks(dirs: Dirs, faulty: set<Path>, items: seq<(Ema.Tree, Path)>, k: nat)
    requires k <= |items| && SaveAll(dirs, faulty, items[..k]).1.Fail?
    ensures SaveAll(dirs, faulty, items) == SaveAll(dirs, faulty, items[..k])
  {
    if k < |items| {
      var init := items[..|items| - 1];
      assert init[..k] == items[..k];
      SaveFailureSticks(dirs, faulty, init, k);
      assert SaveAll(dirs, faulty, init).1.Fail?;
    } else {
      assert items[..k] == items;
    }
  }

  /** Once a removal has failed, later directories change nothing. */
  lemma {:induction false} RemoveFailureSticks(dirs: Dirs, ds: seq<Path>, k: nat)
    requires k <= |ds| && RemoveAll(dirs, ds[..k]).1.Fail?
    ensures RemoveAll(dirs, ds) == RemoveAll(dirs, ds[..k])
  {
    if k < |ds| {
      assert ds[..|ds| - 1][..k] == ds[..k];
      RemoveFailureSticks(dirs, ds[..|ds| - 1], k);
    } else {
      assert ds[..k] == ds;
    }
  }

  /** The writes `_save_checkpoint` makes: parameters, then their shadow copy. */
  function SaveItems(params: Ema.Tree, paramsEma: Ema.Tree, filepath: string): seq<(Ema.Tree, Path)> {
    var (raw, ema) := CheckpointDirectories(filepath);
    [(params, raw), (paramsEma, ema)]
  }

  function PairOf(filepath: string): seq<Path> {
    var (raw, ema) := CheckpointDirectories(filepath);
    [raw, ema]
  }

  /** The raw directory never lies below the EMA one: it is never longer. */
  lemma RawNotWithinEma(filepath: string)
    ensures !Within(CheckpointDirectories(filepath).0, CheckpointDirectories(filepath).1)
  {
    var p := Parse(filepath);
    var (raw, ema) := CheckpointDirectories(filepath);
    DirectoriesDistinct(filepath);
    if OrdinaryStem(filepath) {
      assert |raw.parts| == |ema.parts|;
    } else {
      assert |raw.parts| < |ema.parts|;
    }
  }

  /** Saving a pair, step by step. */
  lemma SavePairSteps(dirs: Dirs, faulty: set<Path>, t: Ema.Tree, a: Path, u: Ema.Tree, b: Path)
    ensures SaveAll(dirs, faulty, [(t, a)]) ==
      if a in faulty then (dirs, Fail(WriteFailed(a))) else (Written(dirs, a, t), Pass)
    ensures SaveAll(dirs, faulty, [(t, a), (u, b)]) ==
      var (m, o) := SaveAll(dirs, faulty, [(t, a)]);
      if o.Fail? then (m, o) else if b in faulty then (m, Fail(WriteFailed(b))) else (Written(m, b, u), Pass)
  {
    assert [(t, a)][..0] == [];
    assert [(t, a), (u, b)][..1] == [(t, a)];
  }

  /** Removing a pair, step by step. */
  lemma RemovePairSteps(dirs: Dirs, a: Path, b: Path)
    ensures RemoveAll(dirs, [a]) ==
      if !Present(dirs, a) then (dirs, Fail(FileNotFound(a))) else (Removed(dirs, a), Pass)
    ensures RemoveAll(dirs, [a, b]) ==
      var (m, o) := RemoveAll(dirs, [a]);
      if o.Fail? then (m, o) else if !Present(m, b) then (m, Fail(FileNotFound(b))) else (Removed(m, b), Pass)
  {
    assert [a][..0] == [];
    assert [a, b][..1] == [a];
  }

  lemma PresentAt(dirs: Dirs, d: Path, q: Path)
    requires q in dirs && Within(q, d)
    ensures Present(dirs, d)
  {
  }

  /**
   * Reading back a completed save: the raw directory holds the parameters
   * and the EMA directory the shadow copy, whatever the stem; every entry
   * outside the two directories is kept, and nothing else is added.
   */
  lemma SaveRoundTrip(dirs: Dirs, faulty: set<Path>, params: Ema.Tree, paramsEma: Ema.Tree, filepath: string)
    requires SaveAll(dirs, faulty, SaveItems(params, paramsEma, filepath)).1.Pass?
    ensures var (raw, ema) := CheckpointDirectories(filepath);
      var m := SaveAll(dirs, faulty, SaveItems(params, paramsEma, filepath)).0;
      && raw in m && ema in m && m[raw] == params && m[ema] == paramsEma
      && (forall q :: q in dirs && !Within(q, raw) && !Within(q, ema) ==> q in m && m[q] == dirs[q])
      && (forall q :: q in m ==> q == raw || q == ema || q in dirs)
  {
    var (raw, ema) := CheckpointDirectories(filepath);
    SavePairSteps(dirs, faulty, params, raw, paramsEma, ema);
    DirectoriesDistinct(filepath);
    RawNotWithinEma(filepath);
  }

  /**
   * A save that fails on the EMA directory leaves a torn pair: the raw
   * directory already holds the new parameters while the EMA directory keeps
   * what it held before, unless it lies below the raw one.
   */
  lemma SaveTornPair(dirs: Dirs, faulty: set<Path>, params: Ema.Tree, paramsEma: Ema.Tree, filepath: string)
    requires CheckpointDirectories(filepath).0 !in faulty
    requires CheckpointDirectories(filepath).1 in faulty
    ensures var (raw, ema) := CheckpointDirectories(filepath);
      var r := SaveAll(dirs, faulty, SaveItems(params, paramsEma, filepath));
      && r.1 == Fail(WriteFailed(ema))
      && raw in r.0 && r.0[raw] == params
      && (ema in r.0 <==> ema in dirs && !Within(ema, raw))
      && (ema in r.0 ==> r.0[ema] == dirs[ema])
  {
    var (raw, ema) := CheckpointDirectories(filepath);
    SavePairSteps(dirs, faulty, params, raw, paramsEma, ema);
    DirectoriesDistinct(filepath);
  }

  /**
   * Removing a freshly saved pair with an ordinary stem deletes both
   * directories and touches nothing outside them.
   */
  lemma RemoveAfterSave(dirs: Dirs, faulty: set<Path>, params: Ema.Tree, paramsEma: Ema.Tree, filepath: string)
    requires OrdinaryStem(filepath)
    requires SaveAll(dirs, faulty, SaveItems(params, paramsEma, filepath)).1.Pass?
    ensures var (raw, ema) := CheckpointDirectories(filepath);
      var saved := SaveAll(dirs, faulty, SaveItems(params, paramsEma, filepath)).0;
      var r := RemoveAll(saved, PairOf(filepath));
      && r.1.Pass? && !Present(r.0, raw) && !Present(r.0, ema)
      && forall q :: q in saved && !Within(q, raw) && !Within(q, ema) ==> q in r.0
  {
    var (raw, ema) := CheckpointDirectories(filepath);
    var saved := SaveAll(dirs, faulty, SaveItems(params, paramsEma, filepath)).0;
    SaveRoundTrip(dirs, faulty, params, paramsEma, filepath);
    RemovePairSteps(saved, raw, ema);
    PresentAt(saved, raw, raw);
    var m1 := Removed(saved, raw);
    assert ema in m1 by {
      DirectoriesAreSiblings(filepath);
      DirectoriesDistinct(filepath);
      assert |ema.parts| == |raw.parts|;
    }
    PresentAt(m1, ema, ema);
    var m2 := Removed(m1, ema);
    assert RemoveAll(saved, PairOf(filepath)) == (m2, Pass);
  }

  /**
   * With a stem that names no directory of its own the raw directory is the
   * parent, which contains the EMA directory: removal deletes both with the
   * first directory and then fails on the second, which is gone.
   */
  lemma RemoveCollapsedPairFails(dirs: Dirs, filepath: string)
    requires !OrdinaryStem(filepath)
    requires Present(dirs, CheckpointDirectories(filepath).0)
    ensures var (raw, ema) := CheckpointDirectories(filepath);
      var r := RemoveAll(dirs, PairOf(filepath));
      && r.1 == Fail(FileNotFound(ema)) && !Present(r.0, raw) && !Present(r.0, ema)
  {
    var (raw, ema) := CheckpointDirectories(filepath);
    RemovePairSteps(dirs, raw, ema);
    RawDirectoryCollapses(filepath);
    assert raw.parts <= ema.parts && raw.anchor == ema.anchor;
    var m1 := Removed(dirs, raw);
  }

  /** A second removal of the same pair fails at once and changes nothing. */
  lemma RemoveTwice(dirs: Dirs, filepath: string)
    requires RemoveAll(dirs, PairOf(filepath)).1.Pass?
    ensures var once := RemoveAll(dirs, PairOf(filepath)).0;
      RemoveAll(once, PairOf(filepath)) == (once, Fail(FileNotFound(CheckpointDirectories(filepath).0)))
  {
    var (raw, ema) := CheckpointDirectories(filepath);
    RemovePairSteps(dirs, raw, ema);
    var m1 := Removed(dirs, raw);
    var once := Removed(m1, ema);
    assert RemoveAll(dirs, PairOf(filepath)).0 == once;
    RemovePairSteps(once, raw, ema);
  }

  // ------------------------------------------------------------ the objects

  /** The checkpoint storage. */
  class Storage {
    var dirs: Dirs
    const faulty: set<Path>

    constructor (dirs: Dirs, faulty: set<Path>)
      ensures this.dirs == dirs && this.faulty == faulty
    {
      this.dirs := dirs;
      this.faulty := faulty;
    }

    /** The backend's forced save: replace the directory, or fail leaving it. */
    method Write(d: Path, t: Ema.Tree) returns (o: Outcome<CkptError>)
      modifies this`dirs
      ensures o == (if d in faulty then Fail(WriteFailed(d)) else Pass)
      ensures dirs == if d in faulty then old(dirs) else Written(old(dirs), d, t)
    {
      if d in faulty {
        o := Fail(WriteFailed(d));
      } else {
        dirs := Written(dirs, d, t);
        o := Pass;
      }
    }

    /** The loop of `_save_checkpoint`: write each tree to its directory, in order. */
    method WriteAll(items: seq<(Ema.Tree, Path)>) returns (o: Outcome<CkptError>)
      modifies this`dirs
      ensures (dirs, o) == SaveAll(old(dirs), faulty, items)
    {
      var i := 0;
      o := Pass;
      while i < |items| && o.Pass?
        invariant 0 <= i <= |items|
        invariant (dirs, o) == SaveAll(old(dirs), faulty, items[..i])
      {
        var (t, d) := items[i];
        assert items[..i + 1][..i] == items[..i];
        o := Write(d, t);
        i := i + 1;
      }
      if o.Fail? {
        SaveFailureSticks(old(dirs), faulty, items, i);
      } else {
        assert items[..i] == items;
      }
    }

    /** `shutil.rmtree(d)`. */
    method RemoveTree(d: Path) returns (o: Outcome<CkptError>)
      modifies this`dirs
      ensures o == (if Present(old(dirs), d) then Pass else Fail(FileNotFound(d)))
      ensures dirs == if Present(old(dirs), d) then Removed(old(dirs), d) else old(dirs)
    {
      if Present(dirs, d) {
        dirs := Removed(dirs, d);
        o := Pass;
      } else {
        o := Fail(FileNotFound(d));
      }
    }
  }

  /** A logger; it records the checkpoint handles it is notified with. */
  class Logger {
    var notified: seq<ModelCheckpoint>

    constructor ()
      ensures notified == []
    {
      notified := [];
    }
  }

  /** The trainer as the coordinator sees it. */
  class Trainer {
    const lightningModule: JaxLightning
    const isGlobalZero: bool
    const loggers: seq<Logger>

    constructor (lightningModule: JaxLightning, isGlobalZero: bool, loggers: seq<Logger>)
      ensures this.lightningModule == lightningModule && this.isGlobalZero == isGlobalZero && this.loggers == loggers
    {
      this.lightningModule := lightningModule;
      this.isGlobalZero := isGlobalZero;
      this.loggers := loggers;
    }
  }

  function Copies(c: ModelCheckpoint, n: nat): (r: seq<ModelCheckpoint>)
    ensures |r| == n && forall i :: 0 <= i < n ==> r[i] == c
  {
    seq(n, _ => c)
  }

  class ModelCheckpoint {
    var lastGlobalStepSaved: int
    var lastCheckpointSaved: string

    constructor ()
      ensures lastGlobalStepSaved == 0 && lastCheckpointSaved == ""
    {
      lastGlobalStepSaved := 0;
      lastCheckpointSaved := "";
    }

    /**
     * `_save_checkpoint(trainer, filepath)`: read both parameter sets, write
     * them to the raw and the EMA directory in that order, record the step
     * and the path, and, on the primary process only, notify every logger
     * once per time it is registered.
     */
    method Save(trainer: Trainer, storage: Storage, filepath: string) returns (o: Outcome<CkptError>)
      modifies this, storage`dirs, set l | l in trainer.loggers
      ensures var m := trainer.lightningModule;
        && (m.params.None? ==> o == Fail(Attribute("params")))
        && (m.params.Some? && m.paramsEma.None? ==> o == Fail(Attribute("params_ema")))
        && (m.params.None? || m.paramsEma.None? ==> storage.dirs == old(storage.dirs))
        && (m.params.Some? && m.paramsEma.Some? ==>
             (storage.dirs, o) == SaveAll(old(storage.dirs), storage.faulty,
                                          SaveItems(m.params.value, m.paramsEma.value, filepath)))
      ensures o.Pass? ==> lastGlobalStepSaved == trainer.lightningModule.globalStep && lastCheckpointSaved == filepath
      ensures o.Fail? ==> lastGlobalStepSaved == old(lastGlobalStepSaved) && lastCheckpointSaved == old(lastCheckpointSaved)
      ensures o.Pass? && trainer.isGlobalZero ==> forall l :: l in trainer.loggers ==>
        l.notified == old(l.notified) + Copies(this, multiset(trainer.loggers)[l])
      ensures !(o.Pass? && trainer.isGlobalZero) ==> forall l :: l in trainer.loggers ==> l.notified == old(l.notified)
    {
      var m := trainer.lightningModule;
      if m.params.None? {
        o := Fail(Attribute("params"));
        return;
      }
      if m.paramsEma.None? {
        o := Fail(Attribute("params_ema"));
        return;
      }
      var items := SaveItems(m.params.value, m.paramsEma.value, filepath);
      o := storage.WriteAll(items);
      if o.Fail? {
        return;
      }
      Commit(trainer, filepath);
    }

    /** After both writes: record the step and the path, then tell the loggers on rank zero. */
    method Commit(trainer: Trainer, filepath: string)
      modifies this, set l | l in trainer.loggers
      ensures lastGlobalStepSaved == trainer.lightningModule.globalStep && lastCheckpointSaved == filepath
      ensures trainer.isGlobalZero ==> forall l :: l in trainer.loggers ==>
        l.notified == old(l.notified) + Copies(this, multiset(trainer.loggers)[l])
      ensures !trainer.isGlobalZero ==> forall l :: l in trainer.loggers ==> l.notified == old(l.notified)
    {
      lastGlobalStepSaved := trainer.lightningModule.globalStep;
      lastCheckpointSaved := filepath;
      if trainer.isGlobalZero {
        NotifyAll(trainer.loggers);
      }
    }

    /** `logger.after_save_checkpoint(proxy(self))` for each registered logger, in order. */
    method NotifyAll(loggers: seq<Logger>)
      modifies set l | l in loggers
      ensures forall l :: l in loggers ==> l.notified == old(l.notified) + Copies(this, multiset(loggers)[l])
    {
      var i := 0;
      while i < |loggers|
        invariant 0 <= i <= |loggers|
        invariant forall l :: l in loggers ==> l.notified == old(l.notified) + Copies(this, multiset(loggers[..i])[l])
      {
        var l := loggers[i];
        assert loggers[..i + 1] == loggers[..i] + [l];
        l.notified := l.notified + [this];
        i := i + 1;
      }
      assert loggers[..i] == loggers;
    }

    /** `_remove_checkpoint(trainer, filepath)`: rmtree the raw, then the EMA directory. */
    method Remove(storage: Storage, filepath: string) returns (o: Outcome<CkptError>)
      modifies storage`dirs
      ensures (storage.dirs, o) == RemoveAll(old(storage.dirs), PairOf(filepath))
    {
      var ds := PairOf(filepath);
      var i := 0;
      o := Pass;
      while i < |ds| && o.Pass?
        invariant 0 <= i <= |ds|
        invariant (storage.dirs, o) == RemoveAll(old(storage.dirs), ds[..i])
      {
        assert ds[..i + 1][..i] == ds[..i];
        o := storage.RemoveTree(ds[i]);
        i := i + 1;
      }
      if o.Fail? {
        RemoveFailureSticks(old(storage.dirs), ds, i);
      } else {
        assert ds[..i] == ds;
      }
    }
  }

  /**
   * `_link_checkpoint(trainer, filepath, linkpath)`: the delegated link
   * requests, the raw directory to the raw alias, then the EMA directory to
   * the EMA alias, the aliases derived from the link path by the same rule.
   */
  method LinkCheckpoint(filepath: string, linkpath: string) returns (links: seq<(Path, Path)>)
    ensures links == [(CheckpointDirectories(filepath).0, CheckpointDirectories(linkpath).0),
                      (CheckpointDirectories(filepath).1, CheckpointDirectories(linkpath).1)]
  {
    var lp := Parse(linkpath);
    NoSlashInStem(lp);
    var alias := JoinName(Parent(lp), Stem(Name(lp)));
    var aliasEma := JoinName(Parent(lp), Stem(Name(lp)) + "_ema");
    var (raw, ema) := CheckpointDirectories(filepath);
    var sources, targets := [raw, ema], [alias, aliasEma];
    links := [];
    var i := 0;
    while i < 2
      invariant 0 <= i <= 2
      invariant links == seq(i, (j: int) requires 0 <= j < i => (sources[j], targets[j]))
    {
      links := links + [(sources[i], targets[i])];
      i := i + 1;
    }
  }
}
