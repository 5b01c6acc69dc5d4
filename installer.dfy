/**
 * The orchestrator, `main` in src/installer.py: a prerequisite gate on the
 * application's base folder, then two identical archive pipelines (download,
 * validate, extract, relocate) for the modpack and for the addons, then the
 * manifest update. Any failure skips every later stage, and the temporary
 * folder is removed on every path once it has been created.
 *
 * Downloading, ZIP validation and extraction are not modelled: each archive
 * is described by what those operations yield (`Archive`).
 */
module Installer {
  import opened Wrappers
  import opened Manifest
  import opened Relocation

  datatype Pipeline = Modpack | Addons

  datatype Stage =
    | Download(p: Pipeline)
    | Validate(p: Pipeline)
    | Extract(p: Pipeline)
    | Relocate(p: Pipeline)
    | UpdateManifest

  /**
   * What the foreign operations do for one archive: whether the download
   * succeeds, whether the downloaded file opens as a ZIP archive, and the
   * names at the top of the extracted folder (`None` if extraction raises).
   */
  datatype Archive = Archive(downloads: bool, isZip: bool, extracted: Option<seq<string>>)

  /** The installer's configuration: the two archives and the manifest entry to register. */
  datatype Config = Config(modpack: Archive, addons: Archive, packKey: string, pack: PackRecord)

  /** The configuration `main` hard-codes, for given archives. */
  function Christmas2024(modpack: Archive, addons: Archive): (cfg: Config) {
    Config(modpack, addons, "christmas2024", PackRecord("Christmas 2024", "1.21.1", "fabric"))
  }

  datatype RunOutcome =
    | NotInstalled        // the base folder is absent: the run stops at the gate
    | Succeeded
    | Failed(at: Stage)   // the stage whose exception ended the run

  /** The stages of one pipeline, in order. */
  function PipelineStages(p: Pipeline): (stages: seq<Stage>) {
    [Download(p), Validate(p), Extract(p), Relocate(p)]
  }

  /** Every stage of a run that passes the gate, in order. */
  function Plan(): (stages: seq<Stage>) {
    PipelineStages(Modpack) + PipelineStages(Addons) + [UpdateManifest]
  }

  datatype PipelineRun = PipelineRun(stages: seq<Stage>, ok: bool, dest: FolderState)

  /** One pipeline: the stages it runs, whether the last one succeeded, and the destination afterwards. */
  function PipelineSpec(p: Pipeline, a: Archive, dest: FolderState): (r: PipelineRun)
    // the destination changes only once the relocation stage has run
    ensures Relocate(p) !in r.stages ==> r.dest == dest && !r.ok
    // success is the relocation returning normally
    ensures r.ok <==> a.downloads && a.isZip && a.extracted.Some?
                      && RelocationEffect(FolderState(true, a.extracted.value), dest).result.Ok?
    ensures WellFormed(dest) ==> WellFormed(r.dest)
  {
    if !a.downloads then PipelineRun([Download(p)], false, dest)
    else if !a.isZip then PipelineRun([Download(p), Validate(p)], false, dest)
    else if a.extracted.None? then PipelineRun([Download(p), Validate(p), Extract(p)], false, dest)
    else
      var r := RelocationEffect(FolderState(true, a.extracted.value), dest);
      PipelineRun(PipelineStages(p), r.result.Ok?, r.dest)
  }

  datatype RunState = RunState(
    outcome: RunOutcome,
    stagesRun: seq<Stage>,
    tempDirCreated: bool,
    mods: FolderState,
    addons: FolderState,
    manifest: FileState)

  /** A whole run of the installer, from the state of the two destination folders and the manifest file. */
  function RunSpec(baseExists: bool, cfg: Config, mods: FolderState, addons: FolderState, manifest: FileState): (r: RunState)
    // the temporary folder is created exactly when the gate is passed
    ensures r.tempDirCreated <==> baseExists
    ensures r.outcome.NotInstalled? <==> !baseExists
    ensures r.stagesRun == [] <==> !baseExists
  {
    if !baseExists then RunState(NotInstalled, [], false, mods, addons, manifest)
    else AfterGate(cfg, mods, addons, manifest)
  }

  /** A run past the gate: the modpack pipeline, and what follows if it succeeds. */
  function AfterGate(cfg: Config, mods: FolderState, addons: FolderState, manifest: FileState): (r: RunState)
    // the modpack download always runs first, and the run ends with an outcome
    ensures r.tempDirCreated && !r.outcome.NotInstalled?
    ensures r.stagesRun != [] && r.stagesRun[0] == Download(Modpack)
    // the addons folder and the manifest are touched only after the modpack pipeline succeeded
    ensures (r.addons != addons || r.manifest != manifest) ==> PipelineStages(Modpack) < r.stagesRun
  {
    var m := PipelineSpec(Modpack, cfg.modpack, mods);
    if !m.ok then RunState(Failed(m.stages[|m.stages| - 1]), m.stages, true, m.dest, addons, manifest)
    else AfterModpack(cfg, m.dest, addons, manifest)
  }

  /** A run whose modpack pipeline succeeded: the addons pipeline, and what follows if it succeeds. */
  function AfterModpack(cfg: Config, mods: FolderState, addons: FolderState, manifest: FileState): (r: RunState)
    // the addons pipeline runs after the whole modpack pipeline and leaves the mods folder alone
    ensures PipelineStages(Modpack) < r.stagesRun && r.mods == mods
    ensures r.tempDirCreated && !r.outcome.NotInstalled?
    // the manifest changes only once the addons pipeline succeeded
    ensures r.manifest != manifest ==> r.stagesRun == Plan()
  {
    var a := PipelineSpec(Addons, cfg.addons, addons);
    if !a.ok then RunState(Failed(a.stages[|a.stages| - 1]), PipelineStages(Modpack) + a.stages, true, mods, a.dest, manifest)
    else FinishRun(cfg, mods, a.dest, manifest)
  }

  /** The end of a run in which both pipelines succeeded: the manifest stage decides the outcome. */
  function FinishRun(cfg: Config, mods: FolderState, addons: FolderState, manifest: FileState): (r: RunState)
    ensures r.stagesRun == Plan() && r.mods == mods && r.addons == addons
    // a successful run leaves the pack registered; a failed update leaves the file as it was
    ensures r.outcome.Succeeded? ==> r.manifest.Parsed? && HasPack(r.manifest.doc, cfg.packKey)
    ensures !r.outcome.Succeeded? ==> r.outcome == Failed(UpdateManifest) && r.manifest == manifest
    // the update fails exactly on an unreadable file or a document without a usable `packs`
    ensures r.outcome.Succeeded? <==>
      && !manifest.Unreadable?
      && (manifest.Parsed? ==> manifest.doc.JObject? && "packs" in manifest.doc.members
                               && (manifest.doc.members["packs"].JObject? || HasPack(manifest.doc, cfg.packKey)))
  {
    UpsertFailsExactly(manifest, cfg.packKey, cfg.pack);
    var u := Upsert(manifest, cfg.packKey, cfg.pack);
    RunState(
      if u.Ok? then Succeeded else Failed(UpdateManifest),
      Plan(), true, mods, addons,
      if u.Ok? then Parsed(u.value.doc) else manifest)
  }

  /** A pipeline runs a prefix of its stages, and all of them exactly when it succeeds. */
  lemma PipelineRunsPrefix(p: Pipeline, a: Archive, dest: FolderState)
    ensures var r := PipelineSpec(p, a, dest);
      && 0 < |r.stages| <= 4 && r.stages == PipelineStages(p)[..|r.stages|]
      && (r.ok ==> r.stages == PipelineStages(p))
  {
  }

  /** Without the base folder the run stops at once: no temporary folder, no stage, nothing changed. */
  lemma GateBeforeAnything(cfg: Config, mods: FolderState, addons: FolderState, manifest: FileState)
    ensures RunSpec(false, cfg, mods, addons, manifest)
            == RunState(NotInstalled, [], false, mods, addons, manifest)
  {
  }

  /**
   * A run that passes the gate runs the stages of the plan in order, up to
   * the first failing one: it succeeds exactly when it ran every stage and the
   * manifest update did not raise, and a failed stage is the last one run.
   */
  lemma RunFollowsPlan(cfg: Config, mods: FolderState, addons: FolderState, manifest: FileState)
    ensures var r := RunSpec(true, cfg, mods, addons, manifest);
      && r.tempDirCreated
      && 0 < |r.stagesRun| <= |Plan()| && r.stagesRun == Plan()[..|r.stagesRun|]
      && (r.outcome.Succeeded? <==> r.stagesRun == Plan() && r.outcome != Failed(UpdateManifest))
      && (r.outcome.Failed? ==> r.outcome.at == r.stagesRun[|r.stagesRun| - 1])
      && !r.outcome.NotInstalled?
  {
    var m := PipelineSpec(Modpack, cfg.modpack, mods);
    var a := PipelineSpec(Addons, cfg.addons, addons);
    PipelineRunsPrefix(Modpack, cfg.modpack, mods);
    PipelineRunsPrefix(Addons, cfg.addons, addons);
    if m.ok && !a.ok {
      assert Plan()[..4 + |a.stages|] == PipelineStages(Modpack) + PipelineStages(Addons)[..|a.stages|];
    }
  }

  /**
   * The manifest changes only in a run that succeeded, and then it holds the pack key;
   * the addons folder is touched only after the whole modpack pipeline succeeded.
   */
  lemma ManifestOnlyOnSuccess(baseExists: bool, cfg: Config, mods: FolderState, addons: FolderState, manifest: FileState)
    ensures var r := RunSpec(baseExists, cfg, mods, addons, manifest);
      && (!r.outcome.Succeeded? ==> r.manifest == manifest)
      && (r.outcome.Succeeded? ==> r.manifest.Parsed? && HasPack(r.manifest.doc, cfg.packKey))
      && (r.addons != addons ==> PipelineStages(Modpack) <= r.stagesRun && Relocate(Addons) in r.stagesRun)
  {
  }

  /**
   * Running the installer again after a successful run whose modpack held a
   * jar file fails at relocating the modpack: the first jar is already at the
   * destination, so moving it raises. The manifest and the addons folder stay
   * as the first run left them.
   */
  lemma SecondRunFailsAtRelocation(cfg: Config, mods: FolderState, addons: FolderState, manifest: FileState)
    requires cfg.modpack.extracted.Some? && JarFiles(cfg.modpack.extracted.value) != []
    requires RunSpec(true, cfg, mods, addons, manifest).outcome == Succeeded
    ensures var first := RunSpec(true, cfg, mods, addons, manifest);
      var second := RunSpec(true, cfg, first.mods, first.addons, first.manifest);
      && second.outcome == Failed(Relocate(Modpack))
      && second.manifest == first.manifest
      && second.addons == first.addons
  {
    var listing := cfg.modpack.extracted.value;
    var jars := JarFiles(listing);
    var m := MoveEach(jars, listing, mods.entries);
    MoveEachDest(jars, listing, mods.entries);
    var k := MovablePrefix(jars, mods.entries);
    assert k == |jars|;
    assert jars[0] in m.dest by {
      assert m.dest == mods.entries + jars[..k];
      assert m.dest[|mods.entries|] == jars[0];
    }
  }

  /**
   * An archive whose jar files sit in a sub-folder (an entry `mods/foo.jar`
   * extracts to a top-level folder `mods`) moves nothing: selection does not
   * look below the top level, and the run still succeeds. That success rests
   * on the manifest write always succeeding in this model: nothing creates the
   * folder that holds `modpacks.json`, so if it were missing, opening the file
   * for writing (src/installer.py:104) would raise.
   */
  lemma NestedJarNotMoved(mods: FolderState, addons: FolderState, manifest: FileState)
    requires !manifest.Unreadable?
    requires manifest.Parsed? ==> manifest.doc == DefaultDocument
    ensures var cfg := Christmas2024(Archive(true, true, Some(["mods"])), Archive(true, true, Some([])));
      var r := RunSpec(true, cfg, mods, addons, manifest);
      && r.outcome == Succeeded
      && r.mods == mods
      && r.manifest == Parsed(JObject(map["packs" := JObject(map["christmas2024" := RecordJson(cfg.pack)])]))
  {
  }

  /**
   * One run of the installer. The destination folders and the manifest file
   * persist between runs; the temporary folder and the extracted folders in
   * it exist only during the run.
   */
  class Run {
    var tempDirCreated: bool
    var tempDirExists: bool
    var stagesRun: seq<Stage>
    var manifestUpdated: bool
    var outcome: RunOutcome
    const mods: Folder
    const addons: Folder
    const manifest: ManifestFile

    ghost predicate Valid()
      reads this, mods, addons
    {
      mods != addons && WellFormed(mods.State()) && WellFormed(addons.State())
    }

    constructor (mods: Folder, addons: Folder, manifest: ManifestFile)
      requires mods != addons && WellFormed(mods.State()) && WellFormed(addons.State())
      ensures Valid() && this.mods == mods && this.addons == addons && this.manifest == manifest
      ensures !tempDirCreated && !tempDirExists && stagesRun == [] && !manifestUpdated
    {
      this.mods := mods;
      this.addons := addons;
      this.manifest := manifest;
      tempDirCreated, tempDirExists := false, false;
      stagesRun, manifestUpdated := [], false;
      outcome := NotInstalled;
    }

    /** One pipeline: download, validate, extract into a fresh folder, relocate into `dest`. */
    method RunPipeline(p: Pipeline, a: Archive, dest: Folder) returns (ok: bool)
      requires WellFormed(dest.State())
      modifies this`stagesRun, dest
      ensures var spec := PipelineSpec(p, a, old(dest.State()));
        stagesRun == old(stagesRun) + spec.stages && ok == spec.ok && dest.State() == spec.dest
      ensures WellFormed(dest.State())
    {
      stagesRun := stagesRun + [Download(p)];
      if !a.downloads {
        return false;
      }
      stagesRun := stagesRun + [Validate(p)];
      if !a.isZip {
        return false;
      }
      stagesRun := stagesRun + [Extract(p)];
      if a.extracted.None? {
        return false;
      }
      var folder := new Folder(true, a.extracted.value);
      stagesRun := stagesRun + [Relocate(p)];
      var moved := MoveJarFiles(folder, dest);
      ok := moved.Ok?;
    }

    /** The last stage, `update_modpacks_json`, once both pipelines have succeeded. */
    method UpdateManifestStage(cfg: Config)
      requires stagesRun == PipelineStages(Modpack) + PipelineStages(Addons)
      modifies this`stagesRun, this`manifestUpdated, this`outcome, manifest
      ensures var spec := FinishRun(cfg, mods.State(), addons.State(), old(manifest.state));
        outcome == spec.outcome && stagesRun == spec.stagesRun && manifest.state == spec.manifest
      ensures manifestUpdated <==> outcome == Succeeded
      ensures manifest.writes == old(manifest.writes) + (if outcome == Succeeded then 1 else 0)
    {
      stagesRun := stagesRun + [UpdateManifest];
      assert cfg.pack == PackRecord(cfg.pack.name, cfg.pack.version, cfg.pack.modLoader);
      var r := manifest.Update(cfg.packKey, cfg.pack.name, cfg.pack.modLoader, cfg.pack.version);
      manifestUpdated := r.Ok?;
      outcome := if r.Ok? then Succeeded else Failed(UpdateManifest);
    }

    /** The stages after the modpack pipeline succeeded: the addons pipeline, then the manifest. */
    method RunAfterModpack(cfg: Config)
      requires Valid() && stagesRun == PipelineStages(Modpack)
      modifies this`stagesRun, this`manifestUpdated, this`outcome, addons, manifest
      ensures Valid()
      ensures var spec := AfterModpack(cfg, mods.State(), old(addons.State()), old(manifest.state));
        && outcome == spec.outcome && stagesRun == spec.stagesRun
        && addons.State() == spec.addons && manifest.state == spec.manifest
      ensures manifestUpdated <==> outcome == Succeeded
      ensures manifest.writes == old(manifest.writes) + (if outcome == Succeeded then 1 else 0)
    {
      manifestUpdated := false;
      var ok := RunPipeline(Addons, cfg.addons, addons);
      if ok {
        UpdateManifestStage(cfg);
      } else {
        outcome := Failed(stagesRun[|stagesRun| - 1]);
      }
    }

    /** The stages after the gate: the modpack pipeline, then the rest if it succeeded. */
    method RunAfterGate(cfg: Config)
      requires Valid() && stagesRun == []
      modifies this`stagesRun, this`manifestUpdated, this`outcome, mods, addons, manifest
      ensures Valid()
      ensures var spec := AfterGate(cfg, old(mods.State()), old(addons.State()), old(manifest.state));
        && outcome == spec.outcome && stagesRun == spec.stagesRun
        && mods.State() == spec.mods && addons.State() == spec.addons && manifest.state == spec.manifest
      ensures manifestUpdated <==> outcome == Succeeded
      ensures manifest.writes == old(manifest.writes) + (if outcome == Succeeded then 1 else 0)
    {
      manifestUpdated := false;
      var ok := RunPipeline(Modpack, cfg.modpack, mods);
      if ok {
        RunAfterModpack(cfg);
      } else {
        outcome := Failed(stagesRun[|stagesRun| - 1]);
      }
    }

    /** `main`: the gate, both pipelines, the manifest update, and the cleanup on every path. */
    method Execute(baseExists: bool, cfg: Config)
      requires Valid()
      modifies this, mods, addons, manifest
      ensures Valid()
      ensures var spec := RunSpec(baseExists, cfg, old(mods.State()), old(addons.State()), old(manifest.state));
        && outcome == spec.outcome && stagesRun == spec.stagesRun && tempDirCreated == spec.tempDirCreated
        && mods.State() == spec.mods && addons.State() == spec.addons && manifest.state == spec.manifest
      ensures !tempDirExists
      ensures manifestUpdated <==> outcome == Succeeded
      ensures manifest.writes == old(manifest.writes) + (if outcome == Succeeded then 1 else 0)
    {
      stagesRun, manifestUpdated := [], false;
      if !baseExists {
        tempDirCreated, tempDirExists := false, false;
        outcome := NotInstalled;
        return;
      }
      tempDirCreated, tempDirExists := true, true;
      RunAfterGate(cfg);
      // the `finally` block: the temporary folder still exists, so it is removed
      if tempDirExists {
        tempDirExists := false;
      }
    }
  }
}
