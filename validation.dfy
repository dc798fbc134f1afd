/** `Shot._validate_args` (shot.py:111-127): every rule is checked, and the
    message holds one line per violated rule, in the order src, dst, start,
    num. The empty message means the arguments are valid. */
module Validation {
  import opened Wrappers
  import opened Paths
  import opened Files
  import opened Text

  /** One violated rule, with the value its line reports. */
  datatype ArgError =
    | SrcNotDir(src: Path)
    | DstNotDir(dst: Path)
    | StartTooSmall(start: int)
    | NumTooSmall(num: int)
  {
    /** Position of the rule in the order the checks run. */
    function Rank(): nat
    {
      match this
      case SrcNotDir(_) => 0
      case DstNotDir(_) => 1
      case StartTooSmall(_) => 2
      case NumTooSmall(_) => 3
    }
  }

  /** The message line of one violated rule. */
  function Line(e: ArgError): (s: string)
    ensures |s| > 0
  {
    match e
    case SrcNotDir(src) => "src must be a directory. got:" + src + "\n"
    case DstNotDir(dst) => "dst must be a directory when num > 1. got:" + dst + "\n"
    case StartTooSmall(start) => "start must be > 0. got:" + IntToString(start) + "\n"
    case NumTooSmall(num) => "num must be > 0. got:" + IntToString(num) + "\n"
  }

  /** Every line ends the message line it starts. */
  lemma LineEndsInNewline(e: ArgError)
    ensures Line(e)[|Line(e)| - 1] == '\n'
  {
  }

  /** The lines of several violated rules, one after the other. */
  function Render(es: seq<ArgError>): string
  {
    if es == [] then "" else Line(es[0]) + Render(es[1..])
  }

  /** Rendering distributes over concatenation: the message built by
      appending one line per check is the rendering of all the violations. */
  lemma {:induction false} RenderAppend(a: seq<ArgError>, b: seq<ArgError>)
    ensures Render(a + b) == Render(a) + Render(b)
  {
    if a != [] {
      assert (a + b)[0] == a[0];
      assert (a + b)[1..] == a[1..] + b;
      RenderAppend(a[1..], b);
      calc {
        Render(a + b);
        Line(a[0]) + Render(a[1..] + b);
        Line(a[0]) + (Render(a[1..]) + Render(b));
        (Line(a[0]) + Render(a[1..])) + Render(b);
      }
    } else {
      assert a + b == b;
    }
  }

  /** No violation, no message; a violation always shows. */
  lemma RenderEmptyIff(es: seq<ArgError>)
    ensures Render(es) == "" <==> es == []
  {
    if es != [] {
      assert |Render(es)| >= |Line(es[0])| > 0;
    }
  }

  /** `if self.src:` -- neither None nor the empty string. */
  predicate HasSrc(src: Option<Path>)
  {
    src.Some? && src.value != []
  }

  /** `self.src` after validation: expanded when given. */
  function ExpandSrc(home: Path, src: Option<Path>): (r: Option<Path>)
    ensures HasSrc(r) <==> HasSrc(src)
  {
    if HasSrc(src) then Some(ExpandUser(home, src.value)) else src
  }

  predicate SrcOk(fs: Tree, home: Path, src: Option<Path>)
  {
    !HasSrc(src) || IsDir(fs, ExpandUser(home, src.value))
  }

  predicate DstOk(fs: Tree, home: Path, dst: Path, num: int)
  {
    num <= 1 || IsDir(fs, ExpandUser(home, dst))
  }

  /** Strictly increasing by rank: each rule at most once, in check order. */
  predicate Ranked(r: seq<ArgError>)
  {
    forall i, j :: 0 <= i < j < |r| ==> r[i].Rank() < r[j].Rank()
  }

  lemma RankedConcat(a: seq<ArgError>, b: seq<ArgError>)
    requires Ranked(a) && Ranked(b)
    requires forall x, y :: x in a && y in b ==> x.Rank() < y.Rank()
    ensures Ranked(a + b)
  {
    forall i, j | 0 <= i < j < |a + b|
      ensures (a + b)[i].Rank() < (a + b)[j].Rank()
    {
      if j < |a| {
      } else if i >= |a| {
        assert (a + b)[i] == b[i - |a|] && (a + b)[j] == b[j - |a|];
      } else {
        assert (a + b)[i] in a && (a + b)[j] in b;
      }
    }
  }

  /** `e` is the error its rule reports for these arguments. */
  predicate Reports(e: ArgError, home: Path, src: Option<Path>, dst: Path, start: int, num: int)
  {
    match e
    case SrcNotDir(s) => HasSrc(src) && s == ExpandUser(home, src.value)
    case DstNotDir(d) => d == ExpandUser(home, dst)
    case StartTooSmall(s) => s == start
    case NumTooSmall(n) => n == num
  }

  function When(c: bool, e: ArgError): seq<ArgError>
  {
    if c then [e] else []
  }

  /** The violated rules, in the order they are checked. The dst rule
      applies only when more than one file is asked for: a single file may
      be copied to a file path. */
  function Violations(fs: Tree, home: Path, src: Option<Path>, dst: Path, start: int, num: int): (r: seq<ArgError>)
    ensures forall e :: e in r ==> Reports(e, home, src, dst, start, num)
  {
    var s := When(!SrcOk(fs, home, src), SrcNotDir(if src.Some? then ExpandUser(home, src.value) else []));
    var d := When(!DstOk(fs, home, dst, num), DstNotDir(ExpandUser(home, dst)));
    var t := When(start < 1, StartTooSmall(start));
    var n := When(num < 1, NumTooSmall(num));
    s + d + t + n
  }

  /** The violations come in the order the checks run, each at most once. */
  lemma ViolationsInCheckOrder(fs: Tree, home: Path, src: Option<Path>, dst: Path, start: int, num: int)
    ensures Ranked(Violations(fs, home, src, dst, start, num))
  {
    var s := When(!SrcOk(fs, home, src), SrcNotDir(if src.Some? then ExpandUser(home, src.value) else []));
    var d := When(!DstOk(fs, home, dst, num), DstNotDir(ExpandUser(home, dst)));
    var t := When(start < 1, StartTooSmall(start));
    var n := When(num < 1, NumTooSmall(num));
    assert Violations(fs, home, src, dst, start, num) == s + d + t + n;
    RankedConcat(s, d);
    RankedConcat(s + d, t);
    RankedConcat(s + d + t, n);
  }

  /** A rule's error is in the list exactly when the rule is violated. */
  lemma ViolatedIffReported(fs: Tree, home: Path, src: Option<Path>, dst: Path, start: int, num: int)
    ensures var r := Violations(fs, home, src, dst, start, num);
      && (!SrcOk(fs, home, src) <==> HasSrc(src) && SrcNotDir(ExpandUser(home, src.value)) in r)
      && (!DstOk(fs, home, dst, num) <==> DstNotDir(ExpandUser(home, dst)) in r)
      && (start < 1 <==> StartTooSmall(start) in r)
      && (num < 1 <==> NumTooSmall(num) in r)
  {
    var s := When(!SrcOk(fs, home, src), SrcNotDir(if src.Some? then ExpandUser(home, src.value) else []));
    var d := When(!DstOk(fs, home, dst, num), DstNotDir(ExpandUser(home, dst)));
    var t := When(start < 1, StartTooSmall(start));
    var n := When(num < 1, NumTooSmall(num));
    var r := Violations(fs, home, src, dst, start, num);
    assert r == s + d + t + n;
    assert forall e :: e in r <==> e in s || e in d || e in t || e in n;
  }

  /** The string `_validate_args` returns. */
  function ErrorMessage(fs: Tree, home: Path, src: Option<Path>, dst: Path, start: int, num: int): string
  {
    Render(Violations(fs, home, src, dst, start, num))
  }

  /** The message is empty exactly when all four rules hold. */
  lemma ErrorMessageEmptyIff(fs: Tree, home: Path, src: Option<Path>, dst: Path, start: int, num: int)
    ensures ErrorMessage(fs, home, src, dst, start, num) == "" <==>
      SrcOk(fs, home, src) && DstOk(fs, home, dst, num) && start >= 1 && num >= 1
  {
    var r := Violations(fs, home, src, dst, start, num);
    RenderEmptyIff(r);
    if r != [] {
      assert r[0] in r;
    }
  }

  /** The line of a rule when it is violated, else nothing. */
  function LineIf(violated: bool, e: ArgError): string
  {
    if violated then Line(e) else ""
  }

  /** The message is the concatenation, in the order src, dst, start, num,
      of the line of each violated rule: what appending one line per failed
      check builds. */
  lemma ErrorMessageInCheckOrder(fs: Tree, home: Path, src: Option<Path>, dst: Path, start: int, num: int)
    ensures ErrorMessage(fs, home, src, dst, start, num) ==
      LineIf(!SrcOk(fs, home, src), SrcNotDir(if src.Some? then ExpandUser(home, src.value) else []))
      + LineIf(!DstOk(fs, home, dst, num), DstNotDir(ExpandUser(home, dst)))
      + LineIf(start < 1, StartTooSmall(start))
      + LineIf(num < 1, NumTooSmall(num))
  {
    RenderFourWhen(!SrcOk(fs, home, src), SrcNotDir(if src.Some? then ExpandUser(home, src.value) else []),
      !DstOk(fs, home, dst, num), DstNotDir(ExpandUser(home, dst)),
      start < 1, StartTooSmall(start), num < 1, NumTooSmall(num));
  }

  /** Four optional lines rendered together are the four lines in turn. */
  lemma RenderFourWhen(a: bool, ea: ArgError, b: bool, eb: ArgError, c: bool, ec: ArgError, d: bool, ed: ArgError)
    ensures Render(When(a, ea) + When(b, eb) + When(c, ec) + When(d, ed)) ==
      LineIf(a, ea) + LineIf(b, eb) + LineIf(c, ec) + LineIf(d, ed)
  {
    RenderAppend(When(a, ea) + When(b, eb) + When(c, ec), When(d, ed));
    RenderAppend(When(a, ea) + When(b, eb), When(c, ec));
    RenderAppend(When(a, ea), When(b, eb));
    RenderWhen(a, ea);
    RenderWhen(b, eb);
    RenderWhen(c, ec);
    RenderWhen(d, ed);
  }

  lemma RenderWhen(c: bool, e: ArgError)
    ensures Render(When(c, e)) == LineIf(c, e)
  {
    if c {
      assert [e][1..] == [];
    }
  }

  /** With one file requested, any destination path is accepted. */
  lemma SingleFileAcceptsAnyDst(fs: Tree, home: Path, src: Option<Path>, dst: Path, start: int)
    requires SrcOk(fs, home, src) && start >= 1
    ensures ErrorMessage(fs, home, src, dst, start, 1) == ""
  {
    ErrorMessageEmptyIff(fs, home, src, dst, start, 1);
  }

  /** All violations are reported together, not only the first one: with a
      missing source, a file destination, start 0 and num 0 (so the dst
      rule does not apply) the message has the src, start and num lines. */
  lemma AllErrorsReported(fs: Tree, home: Path)
    requires "foo" !in fs
    ensures ErrorMessage(fs, home, Some("foo"), "foo", 0, 0) ==
      "src must be a directory. got:foo\n" + "start must be > 0. got:0\n" + "num must be > 0. got:0\n"
  {
    ErrorMessageInCheckOrder(fs, home, Some("foo"), "foo", 0, 0);
    assert ExpandUser(home, "foo") == "foo";
    assert IntToString(0) == "0";
  }
}
