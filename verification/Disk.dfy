/**
 * The `generations` directory and the filesystem calls made on it.  Every call, an existence test included, may
 * succeed, fail part-way, or be the last thing the process does: a disk that has halted ignores every later call,
 * so what it then holds is what a crash left.
 */
module Disk {
  import opened Wrappers
  import opened Generation

  datatype DirName = Sealed(generation: GenerationId) | Staging(generation: GenerationId, pid: nat)

  type Dirs = map<DirName, Files>

  /** How much of a call that did not complete took place. */
  datatype Extent = Extent(took: bool, kept: Option<nat>, gone: set<FileName>)

  const NOTHING := Extent(false, None, {})

  datatype Fate = Proceeds | Fails(extent: Extent) | Halts(extent: Extent)

  /** What is on disk, and what will become of the calls to come; when no fate is left, calls proceed. */
  datatype World = World(
    dirs: Dirs, temps: map<GenerationId, string>, current: Option<string>, fates: seq<Fate>, running: bool)
  {
    function Fate(): Fate {
      if !running then Fails(NOTHING) else if fates == [] then Proceeds else fates[0]
    }

    /** The same disk after one more call. */
    function Passed(): (w: World)
      ensures w.dirs == dirs && w.temps == temps && w.current == current
    {
      if !running || fates == [] then this else this.(fates := fates[1..], running := !fates[0].Halts?)
    }

    ghost predicate Quiet() {
      running && forall i :: 0 <= i < |fates| ==> fates[i] == Proceeds
    }
  }

  /** What a call leaves, and what it returns. */
  datatype Step<+T> = Step(world: World, value: T)

  /** Everything on disk is the same; only fates may have been used up. */
  ghost predicate SameDisk(v: World, w: World) {
    v.dirs == w.dirs && v.temps == w.temps && v.current == w.current
  }

  /** `Path::exists` and its kin: a test that fails answers no. */
  function Exists(w: World, there: bool): Step<bool> {
    Step(w.Passed(), there && w.Fate().Proceeds?)
  }

  /** A read, or a flush: it may fail, and it changes nothing. */
  function Touch(w: World): Step<bool> {
    Step(w.Passed(), w.Fate().Proceeds?)
  }

  predicate Took(fate: Fate) {
    fate.Proceeds? || fate.extent.took
  }

  function CreateDir(w: World, d: DirName): Step<bool> {
    var free := d !in w.dirs;
    Step(if free && Took(w.Fate()) then w.Passed().(dirs := w.dirs[d := map[]]) else w.Passed(),
         free && w.Fate().Proceeds?)
  }

  /** Removing a directory with what is in it; it may stop with some of the files gone. */
  function RemoveTree(w: World, d: DirName): Step<bool> {
    var there := d in w.dirs;
    Step(if !there then w.Passed()
         else if Took(w.Fate()) then w.Passed().(dirs := w.dirs - {d})
         else w.Passed().(dirs := w.dirs[d := w.dirs[d] - w.Fate().extent.gone]),
         there && w.Fate().Proceeds?)
  }

  /** What is in a file after writing to it, if it was opened at all. */
  function Written<T>(text: seq<T>, fate: Fate): Option<seq<T>> {
    match fate
    case Proceeds => Some(text)
    case _ => if fate.extent.kept.None? then None else Some(Beginning(text, fate.extent.kept.value))
  }

  function Beginning<T>(text: seq<T>, n: nat): seq<T> {
    if n < |text| then text[..n] else text
  }

  /** Writing a file anew; it may stop with any beginning of the bytes written. */
  function WriteFile(w: World, d: DirName, f: FileName, bytes: Bytes): Step<bool> {
    var there, written := d in w.dirs, Written(bytes, w.Fate());
    Step(if there && written.Some? then w.Passed().(dirs := w.dirs[d := w.dirs[d][f := written.value]]) else w.Passed(),
         there && w.Fate().Proceeds?)
  }

  /** Renaming a directory: as a whole or not at all, and never onto one that holds files. */
  function RenameDir(w: World, from: DirName, to: DirName): Step<bool> {
    var possible := from in w.dirs && (to !in w.dirs || w.dirs[to] == map[]);
    Step(if possible && Took(w.Fate()) then w.Passed().(dirs := (w.dirs - {from})[to := w.dirs[from]]) else w.Passed(),
         possible && w.Fate().Proceeds?)
  }

  function WriteTemp(w: World, g: GenerationId, text: string): Step<bool> {
    var written := Written(text, w.Fate());
    Step(if written.Some? then w.Passed().(temps := w.temps[g := written.value]) else w.Passed(), w.Fate().Proceeds?)
  }

  /** Renaming a temporary pointer file over `current`, which replaces it at once. */
  function RenameTemp(w: World, g: GenerationId): Step<bool> {
    var there := g in w.temps;
    Step(if there && Took(w.Fate())
         then w.Passed().(current := Some(w.temps[g]), temps := w.temps - {g}) else w.Passed(),
         there && w.Fate().Proceeds?)
  }

  /** The disk a store works on. */
  class Filesystem {
    var world: World

    constructor (world: World)
      ensures this.world == world
    {
      this.world := world;
    }
  }
}
