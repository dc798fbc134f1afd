# shot — a verified model of the screenshot helper

`shot` is a command-line helper for macOS. It copies or moves the newest
screenshots from the screenshot directory to a destination. One
invocation of the `Shot` object:

1. returns the version when asked;
2. validates its arguments, collecting every broken rule into one message;
3. finds the screenshot directory and lists it newest first;
4. takes a window of `num` files starting at the `start`-th newest;
5. checks the window (no files; fewer files than asked);
6. either returns the equivalent `cp`/`mv` shell command (dry run), or
   copies/moves each file in turn, after checking that its extension is
   kept and asking before it writes over a file it finds at
   `join(dst, basename(file))` (a check that misses an existing
   destination file when `dst` is a file path; see Findings).

Each question to the user ("Do you want to continue?") is skipped by
`yes`. A failing copy/move prints the failed command and exits with
status 1, or re-raises the error when debugging.

The model has two layers.

- **Specification functions**, one module per concern. They describe one
  call as a function of its options and of a `World`: the file system,
  the answers the user will give, and the lines printed so far.
  - `Paths`: basename, join, extension, `~` expansion.
  - `Text`: `str(int)`.
  - `Files`: the file tree, and `shutil.copy` / `shutil.move`.
  - `Terminal`: printed notices and answers.
  - `Validation`: `_validate_args`.
  - `Selection`: the window and the equivalent command.
  - `Guards`: `_valid_extension`, `_overwrite_file`, `_can_run_op`,
    `_valid_screenshots_to_copy`. `_overwrite_file` exists in two forms
    (see Findings): `AsWritten` probes `join(dst, basename(file))` as
    shot.py:98 does, `Corrected` probes the file the operation will
    write.
  - `Executor`: the copy/move loop.
  - `Behaviour`: the whole of `__call__`.

  From `Guards.CanRunOp` up to `Behaviour.Run`, these functions take the
  overwrite check (`AsWritten` or `Corrected`) as their first parameter.
  Every lemma about the whole call holds for both. Only
  `Guards.CorrectedAsksBeforeOverwrite` is about `Corrected` alone: it is
  false for `AsWritten`, as the Findings row shows.
- **The `Shot` class** (`ShotCli.Shot`). Its fields are the object's own:
  `src` and `dst`, rewritten by validation; `screenshotDir`,
  `screenshotDirParsed` and `screenshotsToCopy`, set by the call; plus the
  answers still to come and the console. Its methods update them step by
  step as the Python methods do, including the overwrite check as written
  at shot.py:98. Each method is proved to end in exactly the outcome and
  world the specification function gives with `AsWritten`. Each is also
  proved to leave the object's fields as the Python method leaves them. The copy loop
  is a `while` loop over a `FileSystem` object that `Copy` and `Move`
  update in place.

Three things the program relies on are parameters of the model:

- `location`: what `defaults read com.apple.screencapture location` prints;
- `listDir`: the directory listing sorted newest first;
- `home`: the value of `$HOME`.

## Model

| member | source | states |
|---|---|---|
| ShotCli.Shot.constructor | shot.py:36-62 | the options are stored as given; nothing has been printed |
| ShotCli.Shot.Confirm | shot.py:73-74 | true exactly when the next answer is "y"; one answer is consumed; an exhausted script answers "n" |
| ShotCli.Shot.ValidExtension | shot.py:76-92 | outcome and new state equal `Guards.ValidExtension` on the old state; the paths and selection fields are unchanged |
| ShotCli.Shot.OverwriteFile | shot.py:94-103 | outcome and new state equal `Guards.OverwriteFileAsWritten` on the old state: it probes `join(dst, basename(file))`; the paths and selection fields are unchanged |
| ShotCli.Shot.CanRunOp | shot.py:105-109 | outcome and new state equal `Guards.CanRunOp` with the check as written: the overwrite check runs only after the extension check passed; the paths and selection fields are unchanged |
| ShotCli.Shot.ValidateArgs | shot.py:111-127 | the returned message is `Validation.ErrorMessage` of the old arguments; `src` (when given) and `dst` are replaced by their `~` expansion; nothing is printed, no answer is read, and the selection fields are unchanged |
| ShotCli.Shot.ValidScreenshotsToCopy | shot.py:129-139 | outcome and new state equal `Guards.EnoughFiles` on the current selection; the paths and selection fields are unchanged |
| ShotCli.Shot.Call | shot.py:141-190 | outcome and final world (files, answers left, printed lines) equal `Behaviour.Run` with the check as written, of the options and the initial world; `src` and `dst` end expanded unless `version` was asked; with valid arguments the selection fields end as `SelectScreenshots` sets them, otherwise they are unchanged |
| ShotCli.Shot.Proceed | shot.py:145-190 | after validation, outcome and final world equal `Behaviour.Proceed` with the check as written; `src` and `dst` are unchanged and the selection fields end as `SelectScreenshots` sets them |
| ShotCli.Shot.SelectScreenshots | shot.py:151-164 | `screenshotDir` is the source if given, else the location; `screenshotDirParsed` is its expansion; `screenshotsToCopy` is the window of its listing |
| ShotCli.Shot.TryCopyAll | shot.py:172-190 | outcome and final world equal `Behaviour.Execute` with the check as written: success message unless quiet; a stop; or the failed command, then exit 1 or the error re-raised; the paths and selection fields are unchanged |
| ShotCli.Shot.RunOp | shot.py:176-179 | the file system becomes what `shutil.move` (when moving) or `shutil.copy` makes of it; a raised error leaves it unchanged |
| ShotCli.Shot.CopyAll | shot.py:173-179 | the loop ends in the status and world `Executor.ExecFrom` gives from the first file, with the check as written; the paths and selection fields are unchanged |
| Files.FileSystem.Copy | shot.py:177 | the tree becomes `Files.Copied`, or stays unchanged and the error is returned |
| Files.FileSystem.Move | shot.py:179 | the tree becomes `Files.Moved`, or stays unchanged and the error is returned |
| Files.Copied | shot.py:177 | succeeds exactly when the source is a file and the target is neither the source nor a directory; the target gets the source's bytes and every other path keeps its content; copying onto itself is the same-file error |
| Files.Moved | shot.py:179 | with parent directories not modelled, succeeds exactly when the source is a file and, for a directory destination, the name is free there; the source disappears and the target holds its bytes; an existing name in a directory destination is the destination-exists error |
| Files.Target | shot.py:177-179 | where `shutil.copy` and `shutil.move` put the file: inside `dst` under its base name when `dst` is a directory, else at `dst`; its properties are stated by `Files.TargetInDirectoryKeepsName` and `Files.TargetInOwnDirectory` |
| Files.TargetInDirectoryKeepsName | shot.py:177-179 | a file put into a directory keeps its base name |
| Files.IntoOwnDirectoryFails | tests/integration/test_shot_integation.py:100-136 | copying an entry of a directory into it is the same-file error; moving it is the destination-exists error |
| Files.TargetInOwnDirectory | tests/integration/test_shot_integation.py:100-136 | an entry of a directory, put into that directory, lands on itself |
| Paths.Basename | shot.py:98 | the result has no slash, is a suffix of the path, and is preceded by a slash when shorter |
| Paths.Join | shot.py:98 | `os.path.join` of two parts; its property is stated by `Paths.BasenameOfJoin` |
| Paths.BasenameOfJoin | shot.py:98 | the base name of `join(dir, name)` is `name` |
| Paths.Extension | shot.py:83 | the result is empty or a dot followed by no dot and no slash, and is a suffix of the path |
| Paths.ExtensionOfName | shot.py:83 | a file `stem.ext` in any directory has extension `.ext` |
| Paths.ExpandUser | shot.py:117-120 | paths not starting with `~` are unchanged; a non-empty path stays non-empty; with an absolute home, `~` and `~/...` become absolute |
| Paths.ExpandUserIdempotent | shot.py:151-158 | expanding twice is expanding once, so the second expansion of the source changes nothing |
| Text.NatToStringRoundTrip | shot.py:123-126 | the decimal digits of a number parse back to that number |
| Text.IntToStringInjective | shot.py:123-126 | different numbers are printed differently in the message |
| Terminal.AskUnlessYes | shot.py:92 | true exactly when `yes` is set or the next answer is "y"; an answer is read only without `yes`; nothing is printed |
| Validation.Line | shot.py:119-126 | every line of the message is non-empty |
| Validation.LineEndsInNewline | shot.py:119-126 | every line of the message ends in a newline |
| Validation.RenderAppend | shot.py:115-127 | the message of two lists of violations is the two messages one after the other |
| Validation.RenderEmptyIff | shot.py:147-148 | the message is empty exactly when nothing is violated |
| Validation.Violations | shot.py:116-126 | each listed error is the one its rule reports for these arguments, with the expanded path or the given number |
| Validation.ViolationsInCheckOrder | shot.py:116-126 | each rule appears at most once, in the order src, dst, start, num |
| Validation.ViolatedIffReported | shot.py:116-126 | each rule's error is listed exactly when the rule is broken (both directions) |
| Validation.ErrorMessage | shot.py:111-127 | what `_validate_args` returns: one line per violated rule; its properties are stated by `Validation.ErrorMessageEmptyIff`, `Validation.ErrorMessageInCheckOrder` and `Validation.AllErrorsReported` |
| Validation.ErrorMessageEmptyIff | shot.py:111-127 | the message is empty exactly when all four rules hold |
| Validation.ErrorMessageInCheckOrder | shot.py:115-127 | the message is the src, dst, start and num lines, each present exactly when its rule is broken, in that order |
| Validation.SingleFileAcceptsAnyDst | shot.py:121-122 | with `num` 1 the destination is never rejected, whatever it names |
| Validation.AllErrorsReported | tests/unit/test_shot.py:262-275 | src "foo" missing, dst "foo", start 0, num 0: the message has the src, start and num lines, not only the first |
| Selection.PySlice | shot.py:164 | a slice is never longer than the list |
| Selection.Window | shot.py:161-164 | for valid `start` and `num`: the length is `min(num, max(0, N - start + 1))`, and element `i` is the `(start + i)`-th newest file |
| Selection.WindowSupply | shot.py:129-139 | the window is empty exactly when the listing has fewer than `start` entries; it is short exactly when the listing ends inside it |
| Selection.JoinWordsAppend | shot.py:168 | joining two word lists is joining each with one space between |
| Selection.EquivalentCommand | shot.py:168 | the `cp`/`mv` command shown for a dry run and on failure; its properties are stated by `Selection.EquivalentCommandShape` and `Selection.EquivalentCommandNamesOperation` |
| Selection.EquivalentCommandShape | shot.py:168 | the command is name, space, the files joined by spaces, space, destination; with files it is the words name, files..., destination joined by spaces |
| Selection.EquivalentCommandNamesOperation | shot.py:168 | the command starts with "mv " when moving and with "cp " when copying |
| Guards.ValidExtension | shot.py:76-92 | true exactly when the destination is a directory, the extensions agree, `yes` is set or the user agrees; the warning is printed exactly when the extension changes; an answer is read only then and without `yes`; no file changes |
| Guards.OverwriteFileAsWritten | shot.py:94-103 | as written: true exactly when `join(dst, basename(file))` is not a file, `yes` is set, or the user agrees |
| Guards.OverwriteFile | shot.py:94-103 | corrected: true exactly when the file the operation would write is not an existing file, `yes` is set, or the user agrees; the warning names that file; no file changes |
| Guards.Overwrite | shot.py:94-103 | for either check: true exactly when the probed path is not an existing file, `yes` is set, or the user agrees; the warning, naming the probed path, is printed exactly when it is a file; an answer is read only then and without `yes`; no file changes |
| Guards.OverwriteAsWrittenSkipsQuestion | shot.py:98 | with `dst` an existing file, the check as written agrees without asking, the copy then replaces `dst`, and the corrected check asks |
| Guards.OverwriteAsWrittenExample | shot.py:98 | copying `d/a.p` onto the existing `b.p`: the check as written agrees, the copy overwrites `b.p`, the corrected check refuses with no answer |
| Guards.CanRunOp | shot.py:105-109 | for either check: no file changes, and only per-file warnings are printed |
| Guards.CanRunOpAsks | shot.py:105-109 | for either check: at most two answers are read, none with `yes`; a passing check read only "y" answers; it read one whenever a warning needed consent |
| Guards.CorrectedAsksBeforeOverwrite | shot.py:94-109 | with the corrected check and no `yes`, a file whose target already exists passes only after the user answered "y", and the last line printed warns about that target |
| Guards.EnoughFiles | shot.py:129-139 | true exactly when the selection is non-empty and, if short, `yes` is set or the user agrees; an empty selection prints "no files found" for the directory, a short one the "not enough files" warning, a full one nothing; an answer is read only for a short selection without `yes`; no file changes |
| Executor.Operate | shot.py:176-179 | `shutil.move` when moving, else `shutil.copy`; what each does is stated by the contracts of `Files.Moved` and `Files.Copied` |
| Executor.ExecFrom | shot.py:173-179 | the loop stops or fails only at a file of the selection, and prints only per-file warnings |
| Executor.NoRollback | shot.py:173-179 | the final file system is the operation applied, in order, to exactly the files before the one the loop stopped or failed at (all when it finished); a failure is that operation's error |
| Executor.StopsOnlyOnRefusal | shot.py:174-175 | the loop stops at a file only because `_can_run_op` on that file, in a world with the files the loop had reached, refused it; the run ends in the world that refusal left |
| Behaviour.Validated | shot.py:117-120 | validation changes only `src` and `dst`, and a source is given before exactly when it is given after |
| Behaviour.Run | shot.py:147-149 | an invalid-arguments outcome always carries a non-empty message |
| Behaviour.Proceed | shot.py:151-190 | the call past validation: list, select, check the count, then describe or execute; its properties are stated by `Behaviour.RunProceeds`, `Behaviour.EmptySelectionAbandons`, `Behaviour.ShortSelectionNeedsConsent` and `Behaviour.ProceedAnnouncesOnlyCompletion` |
| Behaviour.Execute | shot.py:172-190 | the loop, then the success message, a stop, or the failed command followed by `Exit(1)` or the re-raised error; its properties are stated by `Behaviour.ExecuteNoRollback`, `Behaviour.ExecuteAnnouncesOnlyCompletion` and `Behaviour.IntoSourceDirectoryFails` |
| Behaviour.RunProceeds | shot.py:147-158 | past validation, the call lists the expanded source (or location) and works on the expanded destination |
| Behaviour.DefaultsPassValidation | shot.py:38-49 | with the constructor's defaults (no source, destination ".", start 1, num 1, every flag off) validation passes on every file tree, and the call lists the expanded shell location |
| Behaviour.VersionComesFirst | shot.py:142-143 | with `version` the call returns "1.0.0" and changes nothing |
| Behaviour.InvalidArgsAreInert | shot.py:147-149 | the call stops at validation exactly when a rule is broken; it then prints the message and nothing else changes; the result does not depend on the location lookup or the listing |
| Behaviour.EmptySelectionAbandons | shot.py:129-166 | an empty window prints "no files found" for the listed directory and returns False, with files and answers untouched |
| Behaviour.ShortSelectionNeedsConsent | shot.py:133-166 | a short window goes on exactly when `yes` is set or the user agrees; declining changes no file |
| Behaviour.ShortSelectionWarnsFirst | shot.py:133-137 | past validation, a short window makes the "not enough files" warning the first line the call prints, however it then ends |
| Behaviour.DryRunOnlyDescribes | shot.py:168-170 | a dry run returns `cmd + " " + files + " " + dst`, with "mv" exactly when moving, and changes no file; any other outcome is invalid arguments or abandonment |
| Behaviour.ExecuteNoRollback | shot.py:172-190 | after the loop, the file system is the operation applied in order to exactly the files before the stop or failure (all on completion); the run ends in `Exit(1)` or the re-raised error exactly when an operation raised; then `Exit` exactly without `debug`, with code 1, and the operation on the next file raised (the reported error when re-raised) |
| Behaviour.IntoSourceDirectoryFails | tests/integration/test_shot_integation.py:100-136 | copying or moving a file into its own directory (overwrite agreed) exits with 1, or with `debug` raises the same-file / destination-exists error; no file changes; the failed command is printed last |
| Behaviour.WarningsAnnounceNothing | shot.py:87-102 | per-file warnings are not success messages |
| Behaviour.NoSuccessAppend | shot.py:187 | printing a non-success line keeps "no success announced" |
| Behaviour.NoSuccessTransitive | shot.py:172-187 | "no success announced" composes across steps |
| Behaviour.ExecuteAnnouncesOnlyCompletion | shot.py:172-190 | success ("Moved" when moving, else "Copied") is printed, last, exactly when all files were done and not quiet; a failure prints the failed command last |
| Behaviour.EnoughFilesWarnsOnly | shot.py:129-139 | the file-count check announces no success |
| Behaviour.RunNoRollback | shot.py:141-190 | for a whole call: the file system is the operation applied in order to exactly the selected files before the stop or failure; on `Exit` or `Raised`, `Exit(1)` exactly without `debug`, and the operation on the next file raised (the reported error when re-raised) |
| Behaviour.ProceedAnnouncesOnlyCompletion | shot.py:151-190 | past validation, success is printed, last, exactly on completion when not quiet, naming "Moved" when moving (else "Copied"), the destination and the selection |
| Behaviour.SuccessAnnouncedOnlyOnCompletion | shot.py:141-190 | the same for a whole call: no line but the final one on completion announces success |

## Left out

- The shell lookup of the screenshot location (shot.py:67-71, 151-156) is the parameter `location`: a subprocess and byte decoding, so `encoding` is not modelled.
- The directory listing (`glob` sorted by `getctime`, newest first, shot.py:161-163) is the parameter `listDir`: timestamps are not modelled.
- `os.path.expanduser` is modelled for `~` and `~/...` with `$HOME` as a parameter; `~user` is left unchanged.
- Console rendering, colour (`color`), the `Prompt` dialogue and the `fire` command-line parsing (shot.py:9-11, 64-65, 193-198) are out. Printed lines are `Notice` values, not formatted text. `_confirm` reads from a script of answers; an exhausted script answers "n".
- The exact exception texts of `shutil` are out: errors are `OpError` values.
- Files.Moved: moving a directory entry (only regular files are moved) is modelled as a failure. Missing parent directories of the target are not modelled: a move onto `nodir/x.p` succeeds in the model, while `os.rename` and the copy fallback of `shutil.move` raise, so that run would print the failed command and exit with 1.
- Files.Copied: missing parent directories of the target, permissions and symbolic links are not modelled. Same-file detection is path equality after `Target`, with no path normalisation (`./a` vs `a`).
- The file tree is keyed by path strings as written, with no normalisation: `out/` and `out`, or `./a` and `a`, are different entries. The guards' `IsDir`/`IsFile` tests, the destination-exists test of `Files.Moved` and the same-file test of `Files.Copied` all share this limitation, whereas the operating system treats such paths as one.
- Guards.CanRunOp: its own contract states only that no file changes and that only warnings are printed. The answers it reads are stated by `Guards.CanRunOpAsks`, and its verdict follows from `Guards.ValidExtension` and `Guards.Overwrite`.
- ShotCli.Shot.Call: the body of `__call__` is split into the methods `Proceed`, `SelectScreenshots`, `TryCopyAll`, `CopyAll` and `RunOp` of the same class. Each is proved against its own specification function.
- The success message in tests/unit/test_shot.py:54, 135, 168, 197 and 226 names "from /tmp/tests" and base names. shot.py:183 prints neither. The model follows shot.py.
- tests/test_shot.py exercises an older function interface that shot.py no longer has. It is not part of this model.

## Findings

| source | as written | input that shows it | evidently intended | confidence | as-written member | corrected member |
|---|---|---|---|---|---|---|
| shot.py:98 | `_overwrite_file` looks for `join(dst, basename(file))` even when `dst` names a file (allowed when `num` is 1) | `dst = "b.p"`, an existing file; copying `d/a.p`: it looks for `b.p/a.p`, finds none, and `shutil.copy` overwrites `b.p` without asking | look for the file the operation will write: `dst` itself when `dst` is not a directory | not executed | Guards.OverwriteAsWrittenSkipsQuestion | Guards.CorrectedAsksBeforeOverwrite |
