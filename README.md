# A verified model of the Christmas 2024 mod installer

The installer downloads two ZIP archives, one for the modpack and one for the addons. It validates and extracts each one into a temporary folder. It moves the `.jar` files at the top of each extracted folder into the application's mods and addons folders. Finally it registers the pack in the application's `modpacks.json` manifest. This project models the three pieces of that program that make decisions, and proves what they promise:

- **Manifest upsert** (module `Manifest`, `manifest.dfy`). Reading the manifest file gives one of four results: missing, unreadable, not valid JSON, or a parsed JSON value. `Upsert` computes the document that gets written back. A missing or invalid file starts from `{"packs": {}}`. A record `{name, version, modLoader}` is inserted under the pack key only if that key is absent, so the first write wins. The class `ManifestFile` updates the stored state that way. It counts each rewrite, and the file is rewritten even when nothing was added.
- **Jar relocation** (module `Relocation`, `relocation.dfy`). `JarFiles` keeps the names of a listing that end in `".jar"`, compared case-sensitively, in listing order. `MoveJarFiles` works on two `Folder` objects. A missing source is an error. An empty selection returns before the destination is created. Otherwise the destination is created and the selected names are moved one by one.
- **Orchestration** (module `Installer`, `installer.dfy`). The class `Run` models `main`. First comes the gate on the base folder. Then the modpack pipeline and the addons pipeline run, each as download, validate, extract and relocate. Last comes the manifest update. `RunSpec` is the same run written as a function, and the lemmas about the run are stated on it.

Downloading, ZIP validation and extraction are not modelled. Each archive is instead an `Archive` value: whether its download succeeds, whether it opens as a ZIP archive, and which names the extraction puts at the top level (`None` if extraction raises). The base folder's existence is a parameter. `Christmas2024` holds the pack key, name, loader and version that `main` hard-codes.

Two consequences of what the code does are worth stating:

- `shutil.move` with a directory as its target raises when the target already holds the name. A jar that already exists at the destination therefore stops the relocation with `DestinationTaken` at that name, and the moves made before it stay. `SecondRunFailsAtRelocation` shows what follows. Running the installer a second time, after a successful run whose modpack held a jar, fails at the modpack's relocation stage.
- `os.listdir` at line 73 lists only the top level of the extracted folder. An archive entry `mods/foo.jar` extracts into a folder `mods`, which is not a jar name, so nothing is moved (`NestedJarNotMoved`).

## Model

| member | source | states |
|---|---|---|
| Manifest.RecordJson | src/installer.py:96-100 | the `{name, version, modLoader}` object written for a record reads back as the same record |
| Manifest.RecordOf | src/installer.py:96-100 | a JSON value read back as a pack record is exactly the `{name, version, modLoader}` object written for that record |
| Manifest.Contains | src/installer.py:95 | `key in packs` follows Python: on an object it tests key membership; on an array it tests whether some element is the string `key`; on a string it tests whether `key` occurs at some position; on a number, a boolean or null it raises |
| Manifest.IsSubstringOccurs | src/installer.py:95 | the substring test used for `key in s` holds exactly when `key` occurs in `s` at some position |
| Manifest.Upsert | src/installer.py:88-103 | after success the key is present; a present key leaves the document unchanged (first write wins); a missing or invalid file gives `{"packs": {key: record}}`; an added key maps to exactly the new record, and no other key of the document or of `packs` is added, removed or changed |
| Manifest.UpsertFailsExactly | src/installer.py:89-96 | the update raises exactly when the file cannot be read, when the document is not an object, when it has no `packs`, or when `packs` is not an object and does not already contain the key |
| Manifest.UpsertIdempotent | src/installer.py:95-105 | applying the same update to the document the first one wrote reports the key as present and writes the same document |
| Manifest.UpsertFirstWriteWins | src/installer.py:95-103 | a later update under the same key, whatever record it carries, keeps the document the first update wrote |
| Manifest.ManifestFile.Update | src/installer.py:85-109 | the stored file becomes the document `Upsert` computes and is rewritten once on every success, even when nothing was added; on an error the file is left as it was |
| Relocation.HasJarSuffix | src/installer.py:73 | a name is a jar name exactly when it is some stem followed by `".jar"`, compared case-sensitively |
| Relocation.JarFiles | src/installer.py:73 | only names of the listing that end in `".jar"` are selected, and the selection is no longer than the listing |
| Relocation.OtherFiles | src/installer.py:73 | the names left behind are names of the listing that do not end in `".jar"` |
| Relocation.JarFilesComplete | src/installer.py:73 | every name of the listing that ends in `".jar"` is selected |
| Relocation.JarFilesAppend | src/installer.py:73 | selecting from a concatenation selects each part in turn, so listing order is kept |
| Relocation.JarFilesAll | src/installer.py:73 | a listing of jar names is selected whole |
| Relocation.JarFilesNone | src/installer.py:73-74 | a listing without jar names selects nothing |
| Relocation.JarFilesDistinct | src/installer.py:73 | a listing without repeated names gives a selection without repeated names |
| Relocation.WithoutJarFiles | src/installer.py:78-79 | removing the selected names from a listing leaves exactly the other names, in order |
| Relocation.MovablePrefixSpec | src/installer.py:78-79 | the number of names moved is exactly the number of leading names not yet at the destination; the next name, if any, is already there |
| Relocation.AllMovable | src/installer.py:78-79 | distinct names that the destination does not hold are all moved |
| Relocation.MoveEachDest | src/installer.py:78-79 | the moves append the first k names to the destination, in order, and stop at name k when the destination already holds it |
| Relocation.MoveEachSource | src/installer.py:78-79 | exactly the moved names leave the source |
| Relocation.RelocateSourceMissing | src/installer.py:71-72 | a missing source folder raises and changes neither folder |
| Relocation.RelocateNothingToMove | src/installer.py:73-76 | with no jar name, relocation returns normally without creating the destination or moving anything |
| Relocation.RelocateMovesExactlyJarFiles | src/installer.py:73-79 | if the destination holds none of the jar names, the destination is created and gains exactly the jar names in listing order, and the source keeps exactly the other names |
| Relocation.RelocateMovesOnlyJarFiles | src/installer.py:73-79 | whatever happens, only jar names of the source reach the destination, and the source loses no other name |
| Relocation.RelocationEffect | src/installer.py:68-83 | a missing source is the only `SourceMissing` error; the destination exists afterwards exactly when it existed before or the source held a jar name; a normal return reports the whole selection, or that there was none; well-formed folders stay well-formed |
| Relocation.MoveJarFiles | src/installer.py:68-83 | the result and both folders afterwards are those of `RelocationEffect` |
| Installer.PipelineSpec | src/installer.py:133-140 | the destination changes only once the relocation stage has run; a pipeline succeeds exactly when the download, validation and extraction succeed and the relocation returns normally; well-formed folders stay well-formed |
| Installer.RunSpec | src/installer.py:125-130 | the temporary folder is created, a stage runs, and an outcome other than "not installed" is reached exactly when the base folder exists |
| Installer.AfterGate | src/installer.py:130-151 | past the gate the modpack download runs first and the run ends in success or a failed stage; the addons folder or the manifest changes only after the whole modpack pipeline ran |
| Installer.AfterModpack | src/installer.py:142-151 | after the modpack pipeline the mods folder is left alone; the manifest changes only when every pipeline stage ran |
| Installer.FinishRun | src/installer.py:151-152 | with both pipelines done every stage of the plan has run; the run succeeds exactly when the file is readable and its document is an object with a `packs` member that is an object or already contains the key; success leaves the pack registered, and a failed update leaves the file as it was |
| Installer.PipelineRunsPrefix | src/installer.py:133-149 | a pipeline runs a prefix of download, validate, extract, relocate, and all four when it succeeds |
| Installer.GateBeforeAnything | src/installer.py:125-128 | without the base folder no temporary folder is created, no stage runs and nothing changes |
| Installer.RunFollowsPlan | src/installer.py:130-154 | a run past the gate creates the temporary folder and runs the stages of the plan in order up to the first failure; it succeeds exactly when it ran every stage and the manifest update did not raise, and a failed stage is the last one run |
| Installer.ManifestOnlyOnSuccess | src/installer.py:140-152 | the manifest changes only in a run that succeeded, and then it holds the pack key; the addons folder changes only after the whole modpack pipeline has run |
| Installer.SecondRunFailsAtRelocation | src/installer.py:134-151 | after a successful run whose modpack held a jar, a second run fails at the modpack's relocation and leaves the manifest and the addons folder as they were |
| Installer.NestedJarNotMoved | src/installer.py:137-151 | an archive whose jar sits in a sub-folder moves nothing into the mods folder, and the run still succeeds and registers the pack |
| Installer.Run.RunPipeline | src/installer.py:133-140 | the stages run and the destination afterwards are those of `PipelineSpec` |
| Installer.Run.UpdateManifestStage | src/installer.py:151 | the manifest stage runs after all eight pipeline stages; outcome and manifest are those of `FinishRun`; the run is marked updated exactly when it succeeded, and the file is then rewritten once |
| Installer.Run.RunAfterModpack | src/installer.py:142-151 | after a successful modpack pipeline, the outcome, stages run, addons folder and manifest are those of `AfterModpack` |
| Installer.Run.RunAfterGate | src/installer.py:133-151 | after the gate, the outcome, stages run, both destination folders and manifest are those of `AfterGate` |
| Installer.Run.Execute | src/installer.py:125-158 | outcome, stages run, temporary-folder creation, both destination folders and the manifest are those of `RunSpec`; the temporary folder no longer exists at the end; the manifest is marked updated and rewritten exactly when the run succeeded |

## Left out

- Downloading (src/installer.py:15-38): HTTP, streaming and the progress bar are network I/O. A download is only an `Archive` flag.
- ZIP validation and extraction (src/installer.py:40-66): these belong to a foreign library and the ZIP format. Validity is a flag, and extraction is the list of names it puts at the top level. The re-validation inside `extract_zip` (lines 54-55) uses the same flag, so it always passes after the validation stage.
- `tempfile.mkdtemp`, `os.makedirs` and `shutil.rmtree` appear only as their effect on the model's flags (`tempDirCreated`, `tempDirExists`, `present`). The model has no failure of these calls. It also leaves out `makedirs` raising when the destination path is an existing file.
- Relocation.MoveJarFiles: the collision test compares names exactly. On Windows, where the installer runs, the file system compares names case-insensitively, so `Foo.jar` at the destination would already block a move of `foo.jar`. The model does not capture that case.
- `shutil.move` fails in the model only when the destination already holds the name. Other I/O failures, and copying across devices, are not modelled. An entry named `*.jar` moves like any other name, whether it is a file or a folder.
- The manifest write (lines 104-105) always succeeds in the model. The JSON text and its 4-space indentation are not modelled. The order of the record's keys is not modelled either, because a JSON object is a map here.
- JSON numbers are integers. Floating-point values and duplicate keys in the text are not modelled.
- A manifest that cannot be opened, or whose bytes are not UTF-8, is one error, `Unreadable`. The model does not say why it failed.
- Console output through `rich`, the `input()` pause, and the hard-coded URLs and paths (lines 112-118) are left out. Whether the base folder exists is a parameter, and the pack values are `Christmas2024`.
- Exceptions other than the stage failures modelled here are not modelled.
