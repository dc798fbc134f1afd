/** The decisions taken before files are copied or moved: whether there are
    enough files (`_valid_screenshots_to_copy`, shot.py:129-139), and the
    per-file checks `_valid_extension`, `_overwrite_file` and `_can_run_op`
    (shot.py:76-109). Each may print a warning and then ask the user, unless
    `yes` is set. */
module Guards {
  import opened Paths
  import opened Files
  import opened Terminal

  /** The next answer is "y". */
  predicate Consents(w: World)
  {
    w.replies != [] && w.replies[0]
  }

  /** The answers left after one question (none are left to drop once the
      script is exhausted). */
  function AfterQuestion(replies: seq<bool>): seq<bool>
  {
    if replies == [] then [] else replies[1..]
  }

  /** Copying `file` to `dst` would change its extension: `dst` is not a
      directory and the two extensions differ. */
  predicate ChangesExtension(fs: Tree, dst: Path, file: Path)
  {
    !IsDir(fs, dst) && Extension(file) != Extension(dst)
  }

  /** `_valid_extension`: a change of extension needs `yes` or consent. */
  function ValidExtension(dst: Path, yes: bool, file: Path, w: World): (v: Verdict)
    ensures v.ok <==> !ChangesExtension(w.fs, dst, file) || yes || Consents(w)
    ensures v.w.fs == w.fs
    ensures v.w.replies == if ChangesExtension(w.fs, dst, file) && !yes then AfterQuestion(w.replies) else w.replies
    ensures v.w.console == w.console + if ChangesExtension(w.fs, dst, file) then [ExtensionMismatch(Extension(file), Extension(dst))] else []
  {
    if IsDir(w.fs, dst) then Verdict(true, w)
    else
      var srcExt, dstExt := Extension(file), Extension(dst);
      if srcExt == dstExt then Verdict(true, w)
      else AskUnlessYes(yes, Say(w, ExtensionMismatch(srcExt, dstExt)))
  }

  /** `_overwrite_file` as written: it looks for `join(dst, basename(file))`
      whatever `dst` is, so when `dst` is a file path it looks inside it. */
  function OverwriteFileAsWritten(dst: Path, yes: bool, file: Path, w: World): (v: Verdict)
    ensures v.ok <==> !IsFile(w.fs, Join(dst, Basename(file))) || yes || Consents(w)
    ensures v.w.fs == w.fs
    ensures v.w.replies == if IsFile(w.fs, Join(dst, Basename(file))) && !yes then AfterQuestion(w.replies) else w.replies
    ensures v.w.console == w.console + if IsFile(w.fs, Join(dst, Basename(file))) then [AlreadyExists(Join(dst, Basename(file)))] else []
  {
    var target := Join(dst, Basename(file));
    if !IsFile(w.fs, target) then Verdict(true, w)
    else AskUnlessYes(yes, Say(w, AlreadyExists(target)))
  }

  /** `_overwrite_file` as its documentation states it: true when the file
      the operation would write does not exist yet, or the user agrees to
      overwrite it. The file written is `Target`, the path `shutil.copy` and
      `shutil.move` themselves compute. */
  function OverwriteFile(dst: Path, yes: bool, file: Path, w: World): (v: Verdict)
    ensures v.ok <==> !IsFile(w.fs, Target(w.fs, file, dst)) || yes || Consents(w)
    ensures v.w.fs == w.fs
    ensures v.w.replies == if IsFile(w.fs, Target(w.fs, file, dst)) && !yes then AfterQuestion(w.replies) else w.replies
    ensures v.w.console == w.console + if IsFile(w.fs, Target(w.fs, file, dst)) then [AlreadyExists(Target(w.fs, file, dst))] else []
  {
    var target := Target(w.fs, file, dst);
    if !IsFile(w.fs, target) then Verdict(true, w)
    else AskUnlessYes(yes, Say(w, AlreadyExists(target)))
  }

  /** Which overwrite check `_can_run_op` runs: the one the program has
      (`OverwriteFileAsWritten`) or the corrected one (`OverwriteFile`). */
  datatype OverwriteCheck = AsWritten | Corrected

  /** The path the overwrite check looks for. */
  function Probed(check: OverwriteCheck, fs: Tree, file: Path, dst: Path): Path
  {
    if check.AsWritten? then Join(dst, Basename(file)) else Target(fs, file, dst)
  }

  /** `_overwrite_file`, as written or corrected: true when the probed path
      is not an existing file, else after a warning naming it, `yes` or the
      user's consent. */
  function Overwrite(check: OverwriteCheck, dst: Path, yes: bool, file: Path, w: World): (v: Verdict)
    ensures v.ok <==> !IsFile(w.fs, Probed(check, w.fs, file, dst)) || yes || Consents(w)
    ensures v.w.fs == w.fs
    ensures v.w.replies == if IsFile(w.fs, Probed(check, w.fs, file, dst)) && !yes then AfterQuestion(w.replies) else w.replies
    ensures v.w.console == w.console +
      if IsFile(w.fs, Probed(check, w.fs, file, dst)) then [AlreadyExists(Probed(check, w.fs, file, dst))] else []
  {
    if check.AsWritten? then OverwriteFileAsWritten(dst, yes, file, w) else OverwriteFile(dst, yes, file, w)
  }

  /** The check as written lets an existing destination file be replaced
      without asking: with `dst` naming a file (a single file may be copied
      to a file path), it looks for a file inside `dst`, finds none and
      agrees, and the copy then overwrites `dst`. The corrected check asks. */
  lemma OverwriteAsWrittenSkipsQuestion(dst: Path, file: Path, w: World)
    requires IsFile(w.fs, dst) && IsFile(w.fs, file) && file != dst
    requires !IsFile(w.fs, Join(dst, Basename(file)))
    ensures OverwriteFileAsWritten(dst, false, file, w) == Verdict(true, w)
    ensures Copied(w.fs, file, dst).Ok? && Copied(w.fs, file, dst).tree[dst] == w.fs[file]
    ensures OverwriteFile(dst, false, file, w).ok <==> Consents(w)
    ensures OverwriteFile(dst, false, file, w).w.console == w.console + [AlreadyExists(dst)]
    ensures Extension(file) == Extension(dst) ==>
      && CanRunOp(AsWritten, dst, false, file, w) == Verdict(true, w)
      && (CanRunOp(Corrected, dst, false, file, w).ok <==> Consents(w))
  {
  }

  /** A concrete case: copying "d/a.p" onto the existing file "b.p". */
  lemma OverwriteAsWrittenExample()
    ensures var w := World(map["b.p" := File([1]), "d/a.p" := File([2])], [], []);
      && OverwriteFileAsWritten("b.p", false, "d/a.p", w).ok
      && Copied(w.fs, "d/a.p", "b.p") == Ok(w.fs["b.p" := File([2])])
      && !OverwriteFile("b.p", false, "d/a.p", w).ok
  {
    var w := World(map["b.p" := File([1]), "d/a.p" := File([2])], [], []);
    assert Basename("d/a.p") == "a.p" by {
      assert RFind("d/a.p", '/') == 1 by {
        assert "d/a.p"[1] == '/';
        assert forall j :: 1 < j < 5 ==> "d/a.p"[j] != '/';
      }
    }
    assert Join("b.p", "a.p") == "b.p/a.p";
    assert "b.p/a.p" !in w.fs;
  }

  /** `_can_run_op`: the extension check, then (only if it passed) the
      overwrite check. Neither touches the file system, and all they print
      are per-file warnings. */
  function CanRunOp(check: OverwriteCheck, dst: Path, yes: bool, file: Path, w: World): (v: Verdict)
    ensures v.w.fs == w.fs
    ensures WarnedOnly(w.console, v.w.console)
  {
    var e := ValidExtension(dst, yes, file, w);
    WarnsOnce(w.console, ExtensionMismatch(Extension(file), Extension(dst)), ChangesExtension(w.fs, dst, file));
    if !e.ok then e
    else
      var o := Overwrite(check, dst, yes, file, e.w);
      WarnsOnce(e.w.console, AlreadyExists(Probed(check, w.fs, file, dst)), IsFile(w.fs, Probed(check, w.fs, file, dst)));
      WarnedOnlyTransitive(w.console, e.w.console, o.w.console);
      o
  }

  /** Printing at most one per-file warning prints only warnings. */
  lemma WarnsOnce(c: seq<Notice>, n: Notice, printed: bool)
    requires n.IsFileWarning()
    ensures WarnedOnly(c, c + if printed then [n] else [])
  {
    if printed {
      assert (c + [n])[..|c|] == c;
    } else {
      assert c + [] == c;
    }
  }

  /** `after` is `before` with its first answers, at most `n` of them, read. */
  predicate ReadAtMost(before: seq<bool>, after: seq<bool>, n: nat)
  {
    |after| <= |before| <= |after| + n && after == before[|before| - |after|..]
  }

  /** Every answer read between `before` and `after` was "y". */
  predicate AllAgreed(before: seq<bool>, after: seq<bool>)
    requires |after| <= |before|
  {
    forall i :: 0 <= i < |before| - |after| ==> before[i]
  }

  /** One question reads at most one answer, and what it read was "y"
      exactly when the user consented. */
  lemma OneQuestion(r: seq<bool>)
    ensures ReadAtMost(r, AfterQuestion(r), 1)
    ensures AllAgreed(r, AfterQuestion(r)) <==> r == [] || r[0]
  {
  }

  lemma ReadInTurn(a: seq<bool>, b: seq<bool>, c: seq<bool>, n: nat, m: nat)
    requires ReadAtMost(a, b, n) && ReadAtMost(b, c, m)
    ensures ReadAtMost(a, c, n + m)
    ensures AllAgreed(a, b) && AllAgreed(b, c) ==> AllAgreed(a, c)
  {
    assert c == a[|a| - |c|..] by {
      assert a[|a| - |b|..][|b| - |c|..] == a[|a| - |c|..];
    }
    if AllAgreed(a, b) && AllAgreed(b, c) {
      forall i | 0 <= i < |a| - |c|
        ensures a[i]
      {
        if i >= |a| - |b| {
          assert b[i - (|a| - |b|)] == a[i];
        }
      }
    }
  }

  /** The questions of `_can_run_op`: at most two, none with `yes`; a
      passing check read only "y" answers, and read one whenever a warning
      needed consent. */
  lemma CanRunOpAsks(check: OverwriteCheck, dst: Path, yes: bool, file: Path, w: World)
    ensures var v := CanRunOp(check, dst, yes, file, w);
      && ReadAtMost(w.replies, v.w.replies, if yes then 0 else 2)
      && (v.ok ==> AllAgreed(w.replies, v.w.replies))
      && (v.ok && !yes && ChangesExtension(w.fs, dst, file) ==> |v.w.replies| < |w.replies|)
      && (v.ok && !yes && IsFile(w.fs, Probed(check, w.fs, file, dst)) ==> |v.w.replies| < |w.replies|)
  {
    var r := w.replies;
    var e := ValidExtension(dst, yes, file, w);
    OneQuestion(r);
    assert r[|r| - |r|..] == r;
    var n := if ChangesExtension(w.fs, dst, file) && !yes then 1 else 0;
    assert ReadAtMost(r, e.w.replies, n);
    assert e.ok ==> AllAgreed(r, e.w.replies);
    if e.ok {
      var o := Overwrite(check, dst, yes, file, e.w);
      OneQuestion(e.w.replies);
      var m := if IsFile(w.fs, Probed(check, w.fs, file, dst)) && !yes then 1 else 0;
      assert e.w.replies[|e.w.replies| - |e.w.replies|..] == e.w.replies;
      assert ReadAtMost(e.w.replies, o.w.replies, m);
      ReadInTurn(r, e.w.replies, o.w.replies, n, m);
    }
  }

  /** What the overwrite check is for, proved of the corrected check: a
      file that passes `_can_run_op` without `yes` never replaces an
      existing file unannounced -- the warning names the file the copy or
      move writes, and the user answered "y". */
  lemma CorrectedAsksBeforeOverwrite(dst: Path, file: Path, w: World)
    requires IsFile(w.fs, Target(w.fs, file, dst))
    ensures var v := CanRunOp(Corrected, dst, false, file, w);
      v.ok ==>
        && |v.w.replies| < |w.replies| && AllAgreed(w.replies, v.w.replies)
        && v.w.console[|v.w.console| - 1] == AlreadyExists(Target(w.fs, file, dst))
  {
    CanRunOpAsks(Corrected, dst, false, file, w);
    var e := ValidExtension(dst, false, file, w);
    if e.ok {
      var o := Overwrite(Corrected, dst, false, file, e.w);
      assert Probed(Corrected, e.w.fs, file, dst) == Target(w.fs, file, dst);
      assert o.w.console == e.w.console + [AlreadyExists(Target(w.fs, file, dst))];
    }
  }

  /** `_valid_screenshots_to_copy`: no files stops the run with a notice;
      fewer than `num` files prints a warning and goes on only with `yes`
      or the user's consent, asked for only without `yes`. */
  function EnoughFiles(dir: Path, start: int, num: int, yes: bool, selection: seq<Path>, w: World): (v: Verdict)
    ensures v.w.fs == w.fs
    ensures v.ok <==> |selection| >= 1 && (|selection| >= num || yes || Consents(w))
    ensures v.w.console == w.console +
      if |selection| < 1 then [NoFilesFound(dir)] else if |selection| < num then [NotEnoughFiles(start, num)] else []
    ensures v.w.replies == if 1 <= |selection| < num && !yes then AfterQuestion(w.replies) else w.replies
  {
    if |selection| < 1 then Verdict(false, Say(w, NoFilesFound(dir)))
    else if |selection| < num then AskUnlessYes(yes, Say(w, NotEnoughFiles(start, num)))
    else Verdict(true, w)
  }
}
