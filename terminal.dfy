/** The terminal: what the tool prints (shot.py:87-90, 102, 131, 134-137,
    149, 182-187) and the answers the user gives to "Do you want to
    continue?" (shot.py:73-74). The answers are a script read front to
    back; an exhausted script answers "n". */
module Terminal {
  import opened Paths
  import opened Files

  /** One line printed to the console, by the call that prints it. */
  datatype Notice =
    | ArgumentErrors(message: string)                      // the validator's message, shot.py:149
    | NoFilesFound(dir: Path)                              // shot.py:131
    | NotEnoughFiles(start: int, num: int)                 // shot.py:134-137
    | ExtensionMismatch(srcExt: string, dstExt: string)    // shot.py:87-90
    | AlreadyExists(path: Path)                            // shot.py:102
    | Succeeded(verb: string, dst: Path, files: seq<Path>) // shot.py:182-185
    | CommandFailed(command: string)                       // shot.py:187
  {
    /** The per-file warnings printed by the guards of the copy loop. */
    predicate IsFileWarning()
    {
      ExtensionMismatch? || AlreadyExists?
    }
  }

  /** Everything a run can observe or change: the file system, the answers
      not yet read, and what has been printed so far. */
  datatype World = World(fs: Tree, replies: seq<bool>, console: seq<Notice>)

  /** A guard's decision and the world after it. */
  datatype Verdict = Verdict(ok: bool, w: World)

  /** `self.yes or self._confirm()`: with `yes` no question is asked;
      otherwise the next answer is read. */
  function AskUnlessYes(yes: bool, w: World): (v: Verdict)
    ensures v.w.fs == w.fs && v.w.console == w.console
    ensures v.ok <==> yes || (w.replies != [] && w.replies[0])
    ensures v.w.replies == if yes || w.replies == [] then w.replies else w.replies[1..]
  {
    if yes then Verdict(true, w)
    else if w.replies == [] then Verdict(false, w)
    else Verdict(w.replies[0], w.(replies := w.replies[1..]))
  }

  /** `after` is `before` followed by per-file warnings only. */
  predicate WarnedOnly(before: seq<Notice>, after: seq<Notice>)
  {
    |before| <= |after| && after[..|before|] == before &&
    forall k :: |before| <= k < |after| ==> after[k].IsFileWarning()
  }

  lemma WarnedOnlyTransitive(a: seq<Notice>, b: seq<Notice>, c: seq<Notice>)
    requires WarnedOnly(a, b) && WarnedOnly(b, c)
    ensures WarnedOnly(a, c)
  {
    assert c[..|a|] == c[..|b|][..|a|];
  }

  /** Print a notice. */
  function Say(w: World, n: Notice): World
  {
    w.(console := w.console + [n])
  }
}
