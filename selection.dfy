/** Choosing the files (shot.py:161-166) and rendering the equivalent shell
    command (shot.py:145, 168). The listing of the screenshot directory,
    newest first, is given: it stands for `glob` sorted by `os.path.getctime`. */
module Selection {
  import opened Paths

  function Min(a: int, b: int): int { if a < b then a else b }
  function Max(a: int, b: int): int { if a < b then b else a }

  /** Python's `s[lo:hi]`: negative bounds count from the end, and both
      bounds are clipped to the sequence. */
  function PySlice<T>(s: seq<T>, lo: int, hi: int): (r: seq<T>)
    ensures |r| <= |s|
  {
    var n := |s|;
    var l := Max(0, Min(n, if lo < 0 then lo + n else lo));
    var h := Max(0, Min(n, if hi < 0 then hi + n else hi));
    if l < h then s[l..h] else []
  }

  /** `all_screenshots[start - 1 : start + num - 1]`. For the arguments
      validation lets through (start and num at least 1) it is the run of
      at most `num` files beginning with the `start`-th newest, in listing
      order, cut short where the listing ends. */
  function Window(all: seq<Path>, start: int, num: int): (r: seq<Path>)
    ensures start >= 1 && num >= 1 ==> |r| == Min(num, Max(0, |all| - start + 1))
    ensures start >= 1 && num >= 1 ==> forall i :: 0 <= i < |r| ==> r[i] == all[start - 1 + i]
  {
    PySlice(all, start - 1, start + num - 1)
  }

  /** The window is empty exactly when the listing has fewer than `start`
      entries, and short of `num` exactly when the listing ends inside it. */
  lemma WindowSupply(all: seq<Path>, start: int, num: int)
    requires start >= 1 && num >= 1
    ensures |Window(all, start, num)| == 0 <==> |all| < start
    ensures |Window(all, start, num)| < num <==> |all| < start + num - 1
  {
  }

  /** `" ".join(words)` */
  function JoinWords(ws: seq<string>): string
  {
    if ws == [] then ""
    else if |ws| == 1 then ws[0]
    else ws[0] + " " + JoinWords(ws[1..])
  }

  /** Joining two non-empty word lists is joining each and putting one
      space between. */
  lemma {:induction false} JoinWordsAppend(a: seq<string>, b: seq<string>)
    requires a != [] && b != []
    ensures JoinWords(a + b) == JoinWords(a) + " " + JoinWords(b)
  {
    if |a| == 1 {
      assert (a + b)[1..] == b;
    } else {
      assert (a + b)[1..] == a[1..] + b;
      JoinWordsAppend(a[1..], b);
    }
  }

  /** `cmd = "mv" if self.mv else "cp"` */
  function CommandName(mv: bool): string
  {
    if mv then "mv" else "cp"
  }

  /** `" ".join([cmd, " ".join(files), dst])` */
  function EquivalentCommand(mv: bool, files: seq<Path>, dst: Path): string
  {
    JoinWords([CommandName(mv), JoinWords(files), dst])
  }

  /** The command is the operation name, the files separated by single
      spaces, and the destination; with at least one file it is the shell
      command whose words are exactly those. */
  lemma EquivalentCommandShape(mv: bool, files: seq<Path>, dst: Path)
    ensures EquivalentCommand(mv, files, dst) == CommandName(mv) + " " + JoinWords(files) + " " + dst
    ensures files != [] ==> EquivalentCommand(mv, files, dst) == JoinWords([CommandName(mv)] + files + [dst])
  {
    var cmd := CommandName(mv);
    var middle := JoinWords(files);
    calc {
      EquivalentCommand(mv, files, dst);
      cmd + " " + JoinWords([cmd, middle, dst][1..]);
      { assert [cmd, middle, dst][1..] == [middle, dst]; }
      cmd + " " + JoinWords([middle, dst]);
      { assert [middle, dst][1..] == [dst]; }
      cmd + " " + (middle + " " + dst);
      cmd + " " + middle + " " + dst;
    }
    if files != [] {
      JoinWordsAppend([cmd], files + [dst]);
      JoinWordsAppend(files, [dst]);
      assert [cmd] + files + [dst] == [cmd] + (files + [dst]);
    }
  }

  /** The command starts with "mv " when moving and "cp " when copying. */
  lemma EquivalentCommandNamesOperation(mv: bool, files: seq<Path>, dst: Path)
    ensures |EquivalentCommand(mv, files, dst)| >= 3
    ensures EquivalentCommand(mv, files, dst)[..3] == (if mv then "mv " else "cp ")
  {
    EquivalentCommandShape(mv, files, dst);
    var c := EquivalentCommand(mv, files, dst);
    assert c == CommandName(mv) + " " + (JoinWords(files) + " " + dst);
  }
}
