/** The `Shot` object (shot.py:17-190): its constructor arguments, the
    fields `__call__` sets as it goes, and the console and answers it
    talks to. Each method is proved to do what the corresponding function
    of the specification modules says. */
module ShotCli {
  import opened Wrappers
  import opened Paths
  import opened Files
  import opened Terminal
  import opened Validation
  import opened Selection
  import opened Guards
  import opened Executor
  import opened Behaviour

  class Shot {
    var src: Option<Path>
    var dst: Path
    const mv: bool
    const start: int
    const num: int
    const yes: bool
    const quiet: bool
    const dryRun: bool
    const debug: bool
    const version: bool
    /** $HOME, as `os.path.expanduser` reads it. */
    const home: Path
    var screenshotDir: Path
    var screenshotDirParsed: Path
    var screenshotsToCopy: seq<Path>
    /** The answers the user will give, in order. */
    var replies: seq<bool>
    /** What has been printed. */
    var console: seq<Notice>

    constructor (o: Options, home: Path, replies: seq<bool>)
      ensures Opts() == o && this.home == home
      ensures this.replies == replies && console == []
    {
      src, dst, mv, start, num := o.src, o.dst, o.mv, o.start, o.num;
      yes, quiet, dryRun, debug, version := o.yes, o.quiet, o.dryRun, o.debug, o.version;
      this.home := home;
      screenshotDir, screenshotDirParsed, screenshotsToCopy := [], [], [];
      this.replies, console := replies, [];
    }

    function Opts(): Options
      reads this
    {
      Options(src, dst, mv, start, num, yes, quiet, dryRun, debug, version)
    }

    /** The world the object runs in: the file system, the answers still
        to come, and the console. */
    function State(fs: FileSystem): World
      reads this, fs
    {
      World(fs.nodes, replies, console)
    }

    /** `_confirm` (shot.py:73-74): reads one answer; an exhausted script
        answers "n". */
    method Confirm() returns (agreed: bool)
      modifies this
      ensures agreed <==> old(replies) != [] && old(replies)[0]
      ensures replies == AfterQuestion(old(replies))
      ensures src == old(src) && dst == old(dst) && console == old(console)
      ensures screenshotDir == old(screenshotDir) && screenshotDirParsed == old(screenshotDirParsed)
      ensures screenshotsToCopy == old(screenshotsToCopy)
    {
      if replies == [] {
        agreed := false;
      } else {
        agreed := replies[0];
        replies := replies[1..];
      }
    }

    /** `_valid_extension` (shot.py:76-92). */
    method ValidExtension(fs: FileSystem, screenshot: Path) returns (ok: bool)
      modifies this
      ensures Verdict(ok, State(fs)) == Guards.ValidExtension(dst, yes, screenshot, old(State(fs)))
      ensures src == old(src) && dst == old(dst)
      ensures screenshotDir == old(screenshotDir) && screenshotDirParsed == old(screenshotDirParsed)
      ensures screenshotsToCopy == old(screenshotsToCopy)
    {
      if IsDir(fs.nodes, dst) {
        return true;
      }
      var srcExt, dstExt := Extension(screenshot), Extension(dst);
      if srcExt == dstExt {
        return true;
      }
      console := console + [ExtensionMismatch(srcExt, dstExt)];
      if yes {
        return true;
      }
      ok := Confirm();
    }

    /** `_overwrite_file` (shot.py:94-103), as written: it looks for
        `join(dst, basename(screenshot))` whatever `dst` names. */
    method OverwriteFile(fs: FileSystem, screenshot: Path) returns (ok: bool)
      modifies this
      ensures Verdict(ok, State(fs)) == OverwriteFileAsWritten(dst, yes, screenshot, old(State(fs)))
      ensures src == old(src) && dst == old(dst)
      ensures screenshotDir == old(screenshotDir) && screenshotDirParsed == old(screenshotDirParsed)
      ensures screenshotsToCopy == old(screenshotsToCopy)
    {
      var target := Join(dst, Basename(screenshot));
      if !IsFile(fs.nodes, target) {
        return true;
      }
      console := console + [AlreadyExists(target)];
      if yes {
        return true;
      }
      ok := Confirm();
    }

    /** `_can_run_op` (shot.py:105-109): the overwrite check runs only when
        the extension check passed. */
    method CanRunOp(fs: FileSystem, screenshot: Path) returns (ok: bool)
      modifies this
      ensures Verdict(ok, State(fs)) == Guards.CanRunOp(AsWritten, dst, yes, screenshot, old(State(fs)))
      ensures src == old(src) && dst == old(dst)
      ensures screenshotDir == old(screenshotDir) && screenshotDirParsed == old(screenshotDirParsed)
      ensures screenshotsToCopy == old(screenshotsToCopy)
    {
      ok := ValidExtension(fs, screenshot);
      if ok {
        ok := OverwriteFile(fs, screenshot);
      }
    }

    /** `_validate_args` (shot.py:111-127): expands `src` (when given) and
        `dst` in place and returns one line per violated rule. */
    method ValidateArgs(fs: FileSystem) returns (errMsg: string)
      modifies this
      ensures errMsg == ErrorMessage(fs.nodes, home, old(src), old(dst), start, num)
      ensures src == ExpandSrc(home, old(src)) && dst == ExpandUser(home, old(dst))
      ensures replies == old(replies) && console == old(console)
      ensures screenshotDir == old(screenshotDir) && screenshotDirParsed == old(screenshotDirParsed)
      ensures screenshotsToCopy == old(screenshotsToCopy)
    {
      ghost var src0, dst0 := src, dst;
      ErrorMessageInCheckOrder(fs.nodes, home, src0, dst0, start, num);
      errMsg := "";
      if src.Some? && src.value != [] {
        src := Some(ExpandUser(home, src.value));
        if !IsDir(fs.nodes, src.value) {
          errMsg := errMsg + Line(SrcNotDir(src.value));
        }
      }
      assert errMsg == LineIf(!SrcOk(fs.nodes, home, src0), SrcNotDir(if src0.Some? then ExpandUser(home, src0.value) else []));
      dst := ExpandUser(home, dst);
      ghost var msg := errMsg;
      if num > 1 && !IsDir(fs.nodes, dst) {
        errMsg := errMsg + Line(DstNotDir(dst));
      }
      assert errMsg == msg + LineIf(!DstOk(fs.nodes, home, dst0, num), DstNotDir(ExpandUser(home, dst0)));
      msg := errMsg;
      if start < 1 {
        errMsg := errMsg + Line(StartTooSmall(start));
      }
      assert errMsg == msg + LineIf(start < 1, StartTooSmall(start));
      msg := errMsg;
      if num < 1 {
        errMsg := errMsg + Line(NumTooSmall(num));
      }
      assert errMsg == msg + LineIf(num < 1, NumTooSmall(num));
    }

    /** `_valid_screenshots_to_copy` (shot.py:129-139). */
    method ValidScreenshotsToCopy(fs: FileSystem) returns (ok: bool)
      modifies this
      ensures Verdict(ok, State(fs)) ==
        EnoughFiles(screenshotDirParsed, start, num, yes, screenshotsToCopy, old(State(fs)))
      ensures src == old(src) && dst == old(dst)
      ensures screenshotDir == old(screenshotDir) && screenshotDirParsed == old(screenshotDirParsed)
      ensures screenshotsToCopy == old(screenshotsToCopy)
    {
      if |screenshotsToCopy| < 1 {
        console := console + [NoFilesFound(screenshotDirParsed)];
        return false;
      }
      if |screenshotsToCopy| < num {
        console := console + [NotEnoughFiles(start, num)];
        if yes {
          return true;
        }
        ok := Confirm();
        return;
      }
      return true;
    }

    /** `__call__` (shot.py:141-190). `location` is what
        `defaults read com.apple.screencapture location` prints, and
        `listDir` lists a directory newest first. */
    method Call(fs: FileSystem, location: Path, listDir: Path -> seq<Path>) returns (outcome: Outcome)
      modifies this, fs
      ensures RunResult(outcome, State(fs)) == Run(AsWritten, old(Opts()), home, location, listDir, old(State(fs)))
      ensures version ==> src == old(src) && dst == old(dst)
      ensures !version ==> src == ExpandSrc(home, old(src)) && dst == ExpandUser(home, old(dst))
      ensures version || ErrorMessage(old(fs.nodes), home, old(src), old(dst), start, num) != "" ==>
        && screenshotDir == old(screenshotDir) && screenshotDirParsed == old(screenshotDirParsed)
        && screenshotsToCopy == old(screenshotsToCopy)
      ensures !version && ErrorMessage(old(fs.nodes), home, old(src), old(dst), start, num) == "" ==>
        && screenshotDir == ScreenshotDir(src, location) && screenshotDirParsed == ExpandUser(home, screenshotDir)
        && screenshotsToCopy == Window(listDir(screenshotDirParsed), start, num)
    {
      if version {
        return Version(VERSION);
      }
      var errMsg := ValidateArgs(fs);
      if errMsg != "" {
        console := console + [ArgumentErrors(errMsg)];
        return InvalidArgs(errMsg);
      }
      outcome := Proceed(fs, location, listDir);
    }

    /** `__call__` past validation (shot.py:145, 151-190): find and list
        the screenshot directory, take the window, check it, then describe
        or run the operation. */
    method Proceed(fs: FileSystem, location: Path, listDir: Path -> seq<Path>) returns (outcome: Outcome)
      modifies this, fs
      ensures RunResult(outcome, State(fs)) == Behaviour.Proceed(AsWritten, old(Opts()), home, location, listDir, old(State(fs)))
      ensures src == old(src) && dst == old(dst)
      ensures screenshotDir == ScreenshotDir(src, location) && screenshotDirParsed == ExpandUser(home, screenshotDir)
      ensures screenshotsToCopy == Window(listDir(screenshotDirParsed), start, num)
    {
      var cmd := CommandName(mv);
      SelectScreenshots(location, listDir);
      var enough := ValidScreenshotsToCopy(fs);
      if !enough {
        return Abandoned;
      }
      var equivalentCommand := JoinWords([cmd, JoinWords(screenshotsToCopy), dst]);
      if dryRun {
        return DryRun(equivalentCommand);
      }
      outcome := TryCopyAll(fs, equivalentCommand);
    }

    /** The directory and the selection of `__call__` (shot.py:151-164):
        the source when one was given, else the location the shell
        reported; expanded; listed newest first; then the window of `num`
        files from the `start`-th. */
    method SelectScreenshots(location: Path, listDir: Path -> seq<Path>)
      modifies this
      ensures screenshotDir == ScreenshotDir(src, location)
      ensures screenshotDirParsed == ExpandUser(home, screenshotDir)
      ensures screenshotsToCopy == Window(listDir(screenshotDirParsed), start, num)
      ensures src == old(src) && dst == old(dst) && replies == old(replies) && console == old(console)
    {
      if src.Some? && src.value != [] {
        screenshotDir := src.value;
      } else {
        screenshotDir := location;
      }
      screenshotDirParsed := ExpandUser(home, screenshotDir);
      var allScreenshots := listDir(screenshotDirParsed);
      screenshotsToCopy := PySlice(allScreenshots, start - 1, start + num - 1);
    }

    /** The `try` block of `__call__` (shot.py:172-190): the loop, then the
        success message unless quiet; an operation that raised prints the
        failed command and ends the call with SystemExit(1), or re-raises
        when debugging. */
    method TryCopyAll(fs: FileSystem, equivalentCommand: string) returns (outcome: Outcome)
      modifies this, fs
      ensures RunResult(outcome, State(fs)) ==
        Execute(AsWritten, old(Opts()), old(dst), old(screenshotsToCopy), equivalentCommand, old(State(fs)))
      ensures src == old(src) && dst == old(dst)
      ensures screenshotDir == old(screenshotDir) && screenshotDirParsed == old(screenshotDirParsed)
      ensures screenshotsToCopy == old(screenshotsToCopy)
    {
      var status := CopyAll(fs);
      match status
      case AllDone =>
        if !quiet {
          console := console + [Succeeded(Verb(mv), dst, screenshotsToCopy)];
        }
        return Completed;
      case StoppedAt(k) =>
        return Stopped(k);
      case FailedAt(_, error) =>
        console := console + [CommandFailed(equivalentCommand)];
        if debug {
          return Raised(error);
        }
        return Exit(1);
    }

    /** One operation of the loop (shot.py:176-179): `shutil.move` when
        moving, else `shutil.copy`; an exception becomes the error. */
    method RunOp(fs: FileSystem, screenshot: Path) returns (error: Option<OpError>)
      modifies fs
      ensures error.None? ==> Operate(mv, old(fs.nodes), screenshot, dst) == Ok(fs.nodes)
      ensures error.Some? ==> Operate(mv, old(fs.nodes), screenshot, dst) == Err(error.value) && fs.nodes == old(fs.nodes)
    {
      if mv {
        error := fs.Move(screenshot, dst);
      } else {
        error := fs.Copy(screenshot, dst);
      }
    }

    /** The loop of `__call__` (shot.py:173-179): each selected file is
        checked and then copied or moved, in order; the loop ends at the
        first file whose check fails or whose operation raises. */
    method CopyAll(fs: FileSystem) returns (status: Status)
      modifies this, fs
      ensures Exec(status, State(fs)) == ExecFrom(AsWritten, mv, yes, old(dst), old(screenshotsToCopy), 0, old(State(fs)))
      ensures src == old(src) && dst == old(dst) && screenshotsToCopy == old(screenshotsToCopy)
      ensures screenshotDir == old(screenshotDir) && screenshotDirParsed == old(screenshotDirParsed)
    {
      ghost var w0 := State(fs);
      var target, selection := dst, screenshotsToCopy;
      var i := 0;
      while i < |selection|
        invariant 0 <= i <= |selection|
        invariant src == old(src) && dst == target && screenshotsToCopy == selection
        invariant screenshotDir == old(screenshotDir) && screenshotDirParsed == old(screenshotDirParsed)
        invariant ExecFrom(AsWritten, mv, yes, target, selection, i, State(fs)) == ExecFrom(AsWritten, mv, yes, target, selection, 0, w0)
        decreases |selection| - i
      {
        var screenshot := selection[i];
        var ok := CanRunOp(fs, screenshot);
        if !ok {
          return StoppedAt(i);
        }
        var error := RunOp(fs, screenshot);
        if error.Some? {
          return FailedAt(i, error.value);
        }
        i := i + 1;
      }
      return AllDone;
    }
  }
}
