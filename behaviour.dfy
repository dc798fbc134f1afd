/** One invocation of the tool, `Shot.__call__` (shot.py:141-190), as a
    function of its options and of the world it runs in. The shell lookup
    of the screenshot location and the newest-first directory listing are
    given as `location` and `listDir`; $HOME is `home`. */
module Behaviour {
  import opened Wrappers
  import opened Paths
  import opened Files
  import opened Terminal
  import opened Validation
  import opened Selection
  import opened Guards
  import opened Executor

  /** `__version__` (shot.py:14). */
  const VERSION := "1.0.0"

  /** The constructor arguments that decide behaviour (shot.py:36-62);
      `color` and `encoding` only affect output and decoding. */
  datatype Options = Options(
    src: Option<Path>, dst: Path, mv: bool, start: int, num: int,
    yes: bool, quiet: bool, dryRun: bool, debug: bool, version: bool)

  /** How a call ends. In Python: `Version` returns "1.0.0"; `InvalidArgs`,
      `Stopped` and `Completed` return None; `Abandoned` returns False;
      `DryRun` returns the command string; `Exit` raises SystemExit(1);
      `Raised` re-raises the operation's exception. */
  datatype Outcome =
    | Version(version: string)
    | InvalidArgs(message: string)
    | Abandoned
    | DryRun(command: string)
    | Stopped(index: nat)
    | Completed
    | Exit(code: int)
    | Raised(error: OpError)

  datatype RunResult = RunResult(outcome: Outcome, w: World)

  /** `self.screenshot_dir` (shot.py:151-156), from the validated source:
      the source when one was given, else the location the shell reported. */
  function ScreenshotDir(src: Option<Path>, location: Path): Path
  {
    if HasSrc(src) then src.value else location
  }

  /** The past-tense verb of the success message (shot.py:13). */
  function Verb(mv: bool): string
  {
    if mv then "Moved" else "Copied"
  }

  /** The directory whose files are listed (shot.py:158). */
  function ListedDir(o: Options, home: Path, location: Path): Path
  {
    ExpandUser(home, ScreenshotDir(ExpandSrc(home, o.src), location))
  }

  /** `self.screenshots_to_copy` (shot.py:161-164). */
  function Selected(o: Options, home: Path, location: Path, listDir: Path -> seq<Path>): seq<Path>
  {
    Window(listDir(ListedDir(o, home, location)), o.start, o.num)
  }

  /** The arguments pass `_validate_args`. */
  predicate ValidArgs(o: Options, home: Path, fs: Tree)
  {
    ErrorMessage(fs, home, o.src, o.dst, o.start, o.num) == ""
  }

  /** The options as `_validate_args` leaves them: `src` (when given) and
      `dst` expanded in place (shot.py:117, 120). */
  function Validated(o: Options, home: Path): (v: Options)
    ensures HasSrc(v.src) <==> HasSrc(o.src)
    ensures v.(src := o.src, dst := o.dst) == o
  {
    o.(src := ExpandSrc(home, o.src), dst := ExpandUser(home, o.dst))
  }

  /** The constructor's defaults (shot.py:38-49): no source, the current
      directory as destination, copy, the newest file only, every flag off. */
  const Defaults := Options(None, ".", false, 1, 1, false, false, false, false, false)

  /** Called with its defaults, the tool never rejects its arguments,
      whatever the file tree: it goes straight to the shell's location and
      copies the newest screenshot into ".". */
  lemma DefaultsPassValidation(check: OverwriteCheck, home: Path, location: Path, listDir: Path -> seq<Path>, w: World)
    ensures ValidArgs(Defaults, home, w.fs)
    ensures Run(check, Defaults, home, location, listDir, w) == Proceed(check, Defaults, home, location, listDir, w)
    ensures ListedDir(Defaults, home, location) == ExpandUser(home, location)
  {
  }

  /** `__call__` (shot.py:141-190). `check` is the overwrite check the
      copy loop runs: `AsWritten` is the program as it stands, `Corrected`
      the repaired one; every lemma below holds for both. */
  function Run(check: OverwriteCheck, o: Options, home: Path, location: Path, listDir: Path -> seq<Path>, w: World): (r: RunResult)
    ensures r.outcome.InvalidArgs? ==> r.outcome.message != ""
  {
    if o.version then RunResult(Version(VERSION), w)
    else
      var msg := ErrorMessage(w.fs, home, o.src, o.dst, o.start, o.num);
      if msg != "" then RunResult(InvalidArgs(msg), Say(w, ArgumentErrors(msg)))
      else Proceed(check, Validated(o, home), home, location, listDir, w)
  }

  /** The rest of `__call__` once the arguments passed validation
      (shot.py:151-190), on the validated options `v`: find and list the
      screenshot directory (expanding the source once more), take the
      window, check it, then describe or run the operation. */
  function Proceed(check: OverwriteCheck, v: Options, home: Path, location: Path, listDir: Path -> seq<Path>, w: World): RunResult
  {
    var parsed := ExpandUser(home, ScreenshotDir(v.src, location));
    var sel := Window(listDir(parsed), v.start, v.num);
    var g := EnoughFiles(parsed, v.start, v.num, v.yes, sel, w);
    if !g.ok then RunResult(Abandoned, g.w)
    else
      var command := EquivalentCommand(v.mv, sel, v.dst);
      if v.dryRun then RunResult(DryRun(command), g.w)
      else Execute(check, v, v.dst, sel, command, g.w)
  }

  /** The `try` block of `__call__` (shot.py:172-190): the copy/move loop,
      then the success message unless quiet; an operation that raises
      prints the failed command and ends the call with SystemExit(1), or
      re-raises when debugging. */
  function Execute(check: OverwriteCheck, o: Options, dst: Path, sel: seq<Path>, command: string, w: World): RunResult
  {
    var e := ExecFrom(check, o.mv, o.yes, dst, sel, 0, w);
    match e.status
    case AllDone =>
      RunResult(Completed, if o.quiet then e.w else Say(e.w, Succeeded(Verb(o.mv), dst, sel)))
    case StoppedAt(k) => RunResult(Stopped(k), e.w)
    case FailedAt(_, err) =>
      RunResult(if o.debug then Raised(err) else Exit(1), Say(e.w, CommandFailed(command)))
  }

  /** Past validation, the call lists the directory `ListedDir` names,
      selects `Selected`, and works on the expanded destination. */
  lemma RunProceeds(check: OverwriteCheck, o: Options, home: Path, location: Path, listDir: Path -> seq<Path>, w: World)
    requires !o.version && ValidArgs(o, home, w.fs)
    ensures var v := Validated(o, home);
      && Run(check, o, home, location, listDir, w) == Proceed(check, v, home, location, listDir, w)
      && ExpandUser(home, ScreenshotDir(v.src, location)) == ListedDir(o, home, location)
      && v.dst == ExpandUser(home, o.dst)
  {
  }

  /** With `version` set the call returns the version and does nothing else. */
  lemma VersionComesFirst(check: OverwriteCheck, o: Options, home: Path, location: Path, listDir: Path -> seq<Path>, w: World)
    requires o.version
    ensures Run(check, o, home, location, listDir, w) == RunResult(Version("1.0.0"), w)
  {
  }

  /** The run stops at validation exactly when an argument rule is broken;
      it then prints the message and does nothing else: no source lookup,
      no listing, no answer read, no file touched. */
  lemma InvalidArgsAreInert(check: OverwriteCheck, o: Options, home: Path, location: Path, listDir: Path -> seq<Path>,
                            location': Path, listDir': Path -> seq<Path>, w: World)
    requires !o.version
    ensures var r := Run(check, o, home, location, listDir, w);
      r.outcome.InvalidArgs? <==>
        !(SrcOk(w.fs, home, o.src) && DstOk(w.fs, home, o.dst, o.num) && o.start >= 1 && o.num >= 1)
    ensures var r := Run(check, o, home, location, listDir, w);
      r.outcome.InvalidArgs? ==>
        && r.outcome.message == ErrorMessage(w.fs, home, o.src, o.dst, o.start, o.num)
        && r.w == World(w.fs, w.replies, w.console + [ArgumentErrors(r.outcome.message)])
        && r == Run(check, o, home, location', listDir', w)
  {
    ErrorMessageEmptyIff(w.fs, home, o.src, o.dst, o.start, o.num);
  }

  /** An empty selection (fewer files than `start`) reports that no files
      were found in the listed directory and returns False with the file
      system and the answers untouched. */
  lemma EmptySelectionAbandons(check: OverwriteCheck, o: Options, home: Path, location: Path, listDir: Path -> seq<Path>, w: World)
    requires !o.version && ValidArgs(o, home, w.fs)
    requires |listDir(ListedDir(o, home, location))| < o.start
    ensures Run(check, o, home, location, listDir, w) ==
      RunResult(Abandoned, Say(w, NoFilesFound(ListedDir(o, home, location))))
  {
    ErrorMessageEmptyIff(w.fs, home, o.src, o.dst, o.start, o.num);
    WindowSupply(listDir(ListedDir(o, home, location)), o.start, o.num);
  }

  /** A short selection (the listing ends inside the window) goes on only
      with `yes` or the user's "y"; a declined run changes no file. */
  lemma ShortSelectionNeedsConsent(check: OverwriteCheck, o: Options, home: Path, location: Path, listDir: Path -> seq<Path>, w: World)
    requires !o.version && ValidArgs(o, home, w.fs)
    requires var n := |listDir(ListedDir(o, home, location))|; o.start <= n < o.start + o.num - 1
    ensures var r := Run(check, o, home, location, listDir, w);
      (r.outcome == Abandoned <==> !o.yes && !Consents(w)) &&
      (r.outcome == Abandoned ==> r.w.fs == w.fs)
  {
    ErrorMessageEmptyIff(w.fs, home, o.src, o.dst, o.start, o.num);
    WindowSupply(listDir(ListedDir(o, home, location)), o.start, o.num);
  }

  /** `after` continues `before`, and the first line it adds is `n`. */
  predicate PrintsFirst(before: seq<Notice>, after: seq<Notice>, n: Notice)
  {
    |before| < |after| && after[..|before|] == before && after[|before|] == n
  }

  /** A short selection is announced before anything else happens: past
      validation, the first line the call prints is the "not enough files"
      warning, whatever the user answers and however the run ends. */
  lemma ShortSelectionWarnsFirst(check: OverwriteCheck, v: Options, home: Path, location: Path, listDir: Path -> seq<Path>, w: World)
    requires var sel := Window(listDir(ExpandUser(home, ScreenshotDir(v.src, location))), v.start, v.num);
      1 <= |sel| < v.num
    ensures PrintsFirst(w.console, Proceed(check, v, home, location, listDir, w).w.console, NotEnoughFiles(v.start, v.num))
  {
    var parsed := ExpandUser(home, ScreenshotDir(v.src, location));
    var sel := Window(listDir(parsed), v.start, v.num);
    var g := EnoughFiles(parsed, v.start, v.num, v.yes, sel, w);
    assert PrintsFirst(w.console, g.w.console, NotEnoughFiles(v.start, v.num));
    if g.ok && !v.dryRun {
      var e := ExecFrom(check, v.mv, v.yes, v.dst, sel, 0, g.w);
      var c := Execute(check, v, v.dst, sel, EquivalentCommand(v.mv, sel, v.dst), g.w).w.console;
      assert c == e.w.console || c[..|e.w.console|] == e.w.console;
      PrintsFirstExtends(w.console, g.w.console, e.w.console, NotEnoughFiles(v.start, v.num));
      PrintsFirstExtends(w.console, e.w.console, c, NotEnoughFiles(v.start, v.num));
    }
  }

  lemma PrintsFirstExtends(a: seq<Notice>, b: seq<Notice>, c: seq<Notice>, n: Notice)
    requires PrintsFirst(a, b, n)
    requires |b| <= |c| && c[..|b|] == b
    ensures PrintsFirst(a, c, n)
  {
    assert c[..|a|] == c[..|b|][..|a|];
    assert c[|a|] == c[..|b|][|a|];
  }

  /** A dry run returns the equivalent shell command -- "mv" exactly when
      moving, the selected files in order, then the expanded destination --
      and changes no file. */
  lemma DryRunOnlyDescribes(check: OverwriteCheck, o: Options, home: Path, location: Path, listDir: Path -> seq<Path>, w: World)
    requires !o.version && o.dryRun
    ensures var r := Run(check, o, home, location, listDir, w);
      r.outcome.DryRun? ==>
        && r.outcome.command ==
          (if o.mv then "mv" else "cp") + " " + JoinWords(Selected(o, home, location, listDir)) + " " + ExpandUser(home, o.dst)
        && r.w.fs == w.fs
    ensures var r := Run(check, o, home, location, listDir, w);
      !r.outcome.DryRun? ==> r.outcome.InvalidArgs? || r.outcome == Abandoned
  {
    EquivalentCommandShape(o.mv, Selected(o, home, location, listDir), ExpandUser(home, o.dst));
  }

  /** The run ended on a failing operation: `Exit(1)` without `debug`, the
      error re-raised with it; the files before some `sel[k]` were all
      operated on, the operation on `sel[k]` itself raised (the reported
      error, when re-raised), and nothing was undone. */
  ghost predicate FailedPart(o: Options, fs: Tree, sel: seq<Path>, dst: Path, r: RunResult)
  {
    && (r.outcome.Exit? <==> !o.debug)
    && (r.outcome.Exit? ==> r.outcome.code == 1)
    && exists k :: 0 <= k < |sel| && ApplyAll(o.mv, fs, sel[..k], dst) == Ok(r.w.fs)
         && Operate(o.mv, r.w.fs, sel[k], dst).Err?
         && (r.outcome.Raised? ==> Operate(o.mv, r.w.fs, sel[k], dst) == Err(r.outcome.error))
  }

  /** No rollback: however the loop ends, the file system is the result
      of applying the operation, in order, to the selected files before the
      one it stopped or failed at -- all of them when it completed. The run
      ends in `Exit(1)` or the re-raised error exactly when an operation
      raised. */
  lemma ExecuteNoRollback(check: OverwriteCheck, o: Options, dst: Path, sel: seq<Path>, command: string, w: World)
    ensures var r := Execute(check, o, dst, sel, command, w);
      (r.outcome.Exit? || r.outcome.Raised?) <==> ExecFrom(check, o.mv, o.yes, dst, sel, 0, w).status.FailedAt?
    ensures var r := Execute(check, o, dst, sel, command, w);
      && (r.outcome.Completed? ==> ApplyAll(o.mv, w.fs, sel, dst) == Ok(r.w.fs))
      && (r.outcome.Stopped? ==> r.outcome.index < |sel| && ApplyAll(o.mv, w.fs, sel[..r.outcome.index], dst) == Ok(r.w.fs))
      && (r.outcome.Exit? || r.outcome.Raised? ==> FailedPart(o, w.fs, sel, dst, r))
  {
    var r := Execute(check, o, dst, sel, command, w);
    var e := ExecFrom(check, o.mv, o.yes, dst, sel, 0, w);
    NoRollback(check, o.mv, o.yes, dst, sel, 0, w);
    var p := Reached(e.status, |sel|);
    assert sel[0..p] == sel[..p];
    assert r.w.fs == e.w.fs;
    match e.status
    case AllDone =>
      assert sel[..p] == sel;
    case StoppedAt(k) =>
      assert r.outcome == Stopped(k);
    case FailedAt(k, err) =>
      assert 0 <= k < |sel| && ApplyAll(o.mv, w.fs, sel[..k], dst) == Ok(r.w.fs);
      assert Operate(o.mv, r.w.fs, sel[k], dst) == Err(err);
  }

  /** A file copied or moved into the directory it is in fails once the
      overwrite question is answered (or skipped with `yes`): the copy
      names the file itself, the move finds its own name taken. The call
      prints the failed command and exits with 1, or re-raises the error
      when debugging; no file changes. */
  lemma IntoSourceDirectoryFails(check: OverwriteCheck, o: Options, dir: Path, name: Path, command: string, w: World)
    requires dir != [] && dir[|dir| - 1] != '/' && '/' !in name
    requires IsDir(w.fs, dir) && IsFile(w.fs, dir + "/" + name)
    requires o.yes || Consents(w)
    ensures var f := dir + "/" + name;
      var r := Execute(check, o, dir, [f], command, w);
      && r.outcome == (if !o.debug then Exit(1) else if o.mv then Raised(DestinationExists(f)) else Raised(SameFile(f, f)))
      && r.w.fs == w.fs
      && r.w.console != [] && r.w.console[|r.w.console| - 1] == CommandFailed(command)
  {
    var f := dir + "/" + name;
    IntoOwnDirectoryFails(w.fs, dir, name);
    TargetInOwnDirectory(w.fs, dir, name);
    var g := CanRunOp(check, dir, o.yes, f, w);
    assert g.ok;
  }

  /** Nothing printed after `before` announces success. */
  predicate NoSuccessSince(before: seq<Notice>, after: seq<Notice>)
  {
    |before| <= |after| && after[..|before|] == before &&
    forall k :: |before| <= k < |after| ==> !after[k].Succeeded?
  }

  lemma WarningsAnnounceNothing(a: seq<Notice>, b: seq<Notice>)
    requires WarnedOnly(a, b)
    ensures NoSuccessSince(a, b)
  {
  }

  lemma NoSuccessAppend(a: seq<Notice>, b: seq<Notice>, n: Notice)
    requires NoSuccessSince(a, b) && !n.Succeeded?
    ensures NoSuccessSince(a, b + [n])
  {
    assert (b + [n])[..|a|] == b[..|a|];
  }

  lemma NoSuccessTransitive(a: seq<Notice>, b: seq<Notice>, c: seq<Notice>)
    requires NoSuccessSince(a, b) && NoSuccessSince(b, c)
    ensures NoSuccessSince(a, c)
  {
    assert c[..|a|] == c[..|b|][..|a|];
  }

  /** The success message `last` is printed, as the last line, exactly
      when the call completed and is not quiet; no other line printed since
      `before` announces success. */
  predicate AnnouncesOnlyCompletion(before: seq<Notice>, r: RunResult, quiet: bool, last: Notice)
  {
    if r.outcome.Completed? && !quiet then
      r.w.console != [] && NoSuccessSince(before, r.w.console[..|r.w.console| - 1]) &&
      r.w.console[|r.w.console| - 1] == last
    else NoSuccessSince(before, r.w.console)
  }

  /** What the loop prints: per-file warnings, then the success message
      only after a full pass and only when not quiet, or the failed command
      when an operation raised. */
  lemma ExecuteAnnouncesOnlyCompletion(check: OverwriteCheck, o: Options, dst: Path, sel: seq<Path>, command: string, w: World)
    ensures AnnouncesOnlyCompletion(w.console, Execute(check, o, dst, sel, command, w), o.quiet,
      Succeeded(if o.mv then "Moved" else "Copied", dst, sel))
    ensures var r := Execute(check, o, dst, sel, command, w);
      r.outcome.Exit? || r.outcome.Raised? ==>
        r.w.console[|r.w.console| - 1] == CommandFailed(command)
  {
    var e := ExecFrom(check, o.mv, o.yes, dst, sel, 0, w);
    WarningsAnnounceNothing(w.console, e.w.console);
    match e.status
    case AllDone =>
      if !o.quiet {
        assert (e.w.console + [Succeeded(Verb(o.mv), dst, sel)])[..|e.w.console|] == e.w.console;
      }
    case StoppedAt(_) =>
    case FailedAt(_, _) =>
      NoSuccessAppend(w.console, e.w.console, CommandFailed(command));
  }

  /** The file-count check announces no success. */
  lemma EnoughFilesWarnsOnly(dir: Path, start: int, num: int, yes: bool, selection: seq<Path>, w: World)
    ensures NoSuccessSince(w.console, EnoughFiles(dir, start, num, yes, selection, w).w.console)
  {
    var c := EnoughFiles(dir, start, num, yes, selection, w).w.console;
    assert c == w.console || c == w.console + [NotEnoughFiles(start, num)] || c == w.console + [NoFilesFound(dir)];
    if c != w.console {
      assert c[..|w.console|] == w.console;
    }
  }

  /** No rollback, for a whole call that gets past validation, the file
      count check and the dry-run switch: see `ExecuteNoRollback`. */
  lemma RunNoRollback(check: OverwriteCheck, o: Options, home: Path, location: Path, listDir: Path -> seq<Path>, w: World)
    requires !o.version && !o.dryRun && ValidArgs(o, home, w.fs)
    ensures var r := Run(check, o, home, location, listDir, w);
      var sel := Selected(o, home, location, listDir);
      var dst := ExpandUser(home, o.dst);
      && (r.outcome.Completed? ==> ApplyAll(o.mv, w.fs, sel, dst) == Ok(r.w.fs))
      && (r.outcome.Stopped? ==> r.outcome.index < |sel| && ApplyAll(o.mv, w.fs, sel[..r.outcome.index], dst) == Ok(r.w.fs))
      && (r.outcome.Exit? || r.outcome.Raised? ==> FailedPart(o, w.fs, sel, dst, r))
  {
    RunProceeds(check, o, home, location, listDir, w);
    var sel := Selected(o, home, location, listDir);
    var g := EnoughFiles(ListedDir(o, home, location), o.start, o.num, o.yes, sel, w);
    if g.ok {
      var v := Validated(o, home);
      ExecuteNoRollback(check, v, v.dst, sel, EquivalentCommand(v.mv, sel, v.dst), g.w);
    }
  }

  /** The success message is printed, as the last line, exactly when the
      loop completed and the run is not quiet; no other line printed after
      validation announces success. */
  lemma ProceedAnnouncesOnlyCompletion(check: OverwriteCheck, v: Options, home: Path, location: Path, listDir: Path -> seq<Path>, w: World)
    requires !v.dryRun
    ensures AnnouncesOnlyCompletion(w.console, Proceed(check, v, home, location, listDir, w), v.quiet,
      Succeeded(if v.mv then "Moved" else "Copied", v.dst, Window(listDir(ExpandUser(home, ScreenshotDir(v.src, location))), v.start, v.num)))
  {
    var parsed := ExpandUser(home, ScreenshotDir(v.src, location));
    var sel := Window(listDir(parsed), v.start, v.num);
    var g := EnoughFiles(parsed, v.start, v.num, v.yes, sel, w);
    EnoughFilesWarnsOnly(parsed, v.start, v.num, v.yes, sel, w);
    if g.ok {
      var command := EquivalentCommand(v.mv, sel, v.dst);
      var r := Execute(check, v, v.dst, sel, command, g.w);
      ExecuteAnnouncesOnlyCompletion(check, v, v.dst, sel, command, g.w);
      if r.outcome.Completed? && !v.quiet {
        NoSuccessTransitive(w.console, g.w.console, r.w.console[..|r.w.console| - 1]);
      } else {
        NoSuccessTransitive(w.console, g.w.console, r.w.console);
      }
    }
  }

  /** `ProceedAnnouncesOnlyCompletion` for a whole call that passed
      validation. */
  lemma SuccessAnnouncedOnlyOnCompletion(check: OverwriteCheck, o: Options, home: Path, location: Path, listDir: Path -> seq<Path>, w: World)
    requires !o.version && !o.dryRun && ValidArgs(o, home, w.fs)
    ensures AnnouncesOnlyCompletion(w.console, Run(check, o, home, location, listDir, w), o.quiet,
      Succeeded(if o.mv then "Moved" else "Copied", ExpandUser(home, o.dst), Selected(o, home, location, listDir)))
  {
    RunProceeds(check, o, home, location, listDir, w);
    ProceedAnnouncesOnlyCompletion(check, Validated(o, home), home, location, listDir, w);
  }
}
