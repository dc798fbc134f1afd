/** The copy/move loop of `Shot.__call__` (shot.py:172-179): the selected
    files in order, each checked by `_can_run_op` and then copied or moved.
    The loop stops at the first file whose check fails, or at the first
    operation that raises; what was done before stays done. */
module Executor {
  import opened Paths
  import opened Files
  import opened Terminal
  import opened Guards

  datatype Status = AllDone | StoppedAt(index: nat) | FailedAt(index: nat, error: OpError)

  datatype Exec = Exec(status: Status, w: World)

  /** `shutil.move(file, dst)` or `shutil.copy(file, dst)`. */
  function Operate(mv: bool, fs: Tree, file: Path, dst: Path): Result
  {
    if mv then Moved(fs, file, dst) else Copied(fs, file, dst)
  }

  /** The loop from the `i`-th selected file on. */
  function ExecFrom(check: OverwriteCheck, mv: bool, yes: bool, dst: Path, files: seq<Path>, i: nat, w: World): (e: Exec)
    requires i <= |files|
    ensures e.status.StoppedAt? ==> i <= e.status.index < |files|
    ensures e.status.FailedAt? ==> i <= e.status.index < |files|
    ensures WarnedOnly(w.console, e.w.console)
    decreases |files| - i
  {
    if i == |files| then Exec(AllDone, w)
    else
      var g := CanRunOp(check, dst, yes, files[i], w);
      if !g.ok then Exec(StoppedAt(i), g.w)
      else
        match Operate(mv, g.w.fs, files[i], dst)
        case Err(err) => Exec(FailedAt(i, err), g.w)
        case Ok(fs) =>
          var e := ExecFrom(check, mv, yes, dst, files, i + 1, g.w.(fs := fs));
          WarnedOnlyTransitive(w.console, g.w.console, e.w.console);
          e
  }

  /** The operation applied to each file in turn, stopping at the first
      failure: the reference for what the loop does to the file system. */
  function ApplyAll(mv: bool, fs: Tree, files: seq<Path>, dst: Path): Result
    decreases |files|
  {
    if files == [] then Ok(fs)
    else
      match Operate(mv, fs, files[0], dst)
      case Err(err) => Err(err)
      case Ok(next) => ApplyAll(mv, next, files[1..], dst)
  }

  /** Where the loop left off: the index of the file it stopped or failed
      at, or the end of the selection. */
  function Reached(st: Status, n: nat): nat
  {
    match st
    case AllDone => n
    case StoppedAt(k) => k
    case FailedAt(k, _) => k
  }

  /** No rollback: when the loop ends, the file system is the result of
      applying the operation to exactly the files before the one it stopped
      or failed at (all of them if it finished), and a failing operation
      changed nothing. */
  lemma {:induction false} NoRollback(check: OverwriteCheck, mv: bool, yes: bool, dst: Path, files: seq<Path>, i: nat, w: World)
    requires i <= |files|
    ensures var e := ExecFrom(check, mv, yes, dst, files, i, w);
      i <= Reached(e.status, |files|) <= |files| &&
      ApplyAll(mv, w.fs, files[i..Reached(e.status, |files|)], dst) == Ok(e.w.fs)
    ensures var e := ExecFrom(check, mv, yes, dst, files, i, w);
      e.status.FailedAt? ==> Operate(mv, e.w.fs, files[e.status.index], dst) == Err(e.status.error)
    decreases |files| - i
  {
    var e := ExecFrom(check, mv, yes, dst, files, i, w);
    if i < |files| {
      var g := CanRunOp(check, dst, yes, files[i], w);
      if g.ok {
        var r := Operate(mv, g.w.fs, files[i], dst);
        if r.Ok? {
          var w' := g.w.(fs := r.tree);
          NoRollback(check, mv, yes, dst, files, i + 1, w');
          assert e == ExecFrom(check, mv, yes, dst, files, i + 1, w');
          var p := Reached(e.status, |files|);
          assert files[i..p][0] == files[i];
          assert files[i..p][1..] == files[i + 1..p];
        }
      }
    } else {
      assert files[i..i] == [];
    }
  }

  /** A run that stopped at file `k` ends where `_can_run_op`, run on
      that file in some world over the same files, declined it. */
  ghost predicate StoppedByRefusal(check: OverwriteCheck, yes: bool, dst: Path, files: seq<Path>, e: Exec)
  {
    e.status.StoppedAt? ==>
      && e.status.index < |files|
      && exists wk: World :: wk.fs == e.w.fs && CanRunOp(check, dst, yes, files[e.status.index], wk) == Verdict(false, e.w)
  }

  /** The loop stops at a file only because `_can_run_op`, run on that
      file in the world the loop had reached (the same files), declined it;
      the run then ends in exactly the world that check left behind. */
  lemma {:induction false} StopsOnlyOnRefusal(check: OverwriteCheck, mv: bool, yes: bool, dst: Path, files: seq<Path>, i: nat, w: World)
    requires i <= |files|
    decreases |files| - i
    ensures StoppedByRefusal(check, yes, dst, files, ExecFrom(check, mv, yes, dst, files, i, w))
  {
    var e := ExecFrom(check, mv, yes, dst, files, i, w);
    if i == |files| {
      assert e.status == AllDone;
    } else {
      var g := CanRunOp(check, dst, yes, files[i], w);
      if !g.ok {
        assert e == Exec(StoppedAt(i), g.w);
        assert w.fs == e.w.fs && CanRunOp(check, dst, yes, files[i], w) == Verdict(false, e.w);
      } else {
        var r := Operate(mv, g.w.fs, files[i], dst);
        if r.Ok? {
          StopsOnlyOnRefusal(check, mv, yes, dst, files, i + 1, g.w.(fs := r.tree));
          assert e == ExecFrom(check, mv, yes, dst, files, i + 1, g.w.(fs := r.tree));
        } else {
          assert e.status.FailedAt?;
        }
      }
    }
  }
}
