/** The file system as the tool sees it, and the two library operations
    that change it: `shutil.copy` and `shutil.move` (shot.py:176-179).
    A path either names a directory, names a regular file with its bytes,
    or is absent. */
module Files {
  import opened Wrappers
  import opened Paths

  newtype byte = x: int | 0 <= x < 256

  datatype Node = Dir | File(data: seq<byte>)

  type Tree = map<Path, Node>

  /** `os.path.isdir` */
  predicate IsDir(fs: Tree, p: Path)
  {
    p in fs && fs[p].Dir?
  }

  /** `os.path.isfile` */
  predicate IsFile(fs: Tree, p: Path)
  {
    p in fs && fs[p].File?
  }

  /** The exceptions the two operations raise. */
  datatype OpError =
    | SameFile(src: Path, dst: Path)        // shutil.SameFileError: "'a' and 'a' are the same file"
    | NotAFile(path: Path)                  // the source is missing or is not a regular file
    | IsADirectory(path: Path)              // the copy would overwrite a directory
    | DestinationExists(path: Path)         // shutil.Error: "Destination path 'a' already exists"

  datatype Result = Ok(tree: Tree) | Err(error: OpError)

  /** Where both operations put `src` when asked to put it at `dst`: inside
      `dst` under the same base name when `dst` is a directory, else at `dst`. */
  function Target(fs: Tree, src: Path, dst: Path): Path
  {
    if IsDir(fs, dst) then Join(dst, Basename(src)) else dst
  }

  /** A file put into a directory keeps its base name. */
  lemma TargetInDirectoryKeepsName(fs: Tree, src: Path, dst: Path)
    requires IsDir(fs, dst)
    ensures Basename(Target(fs, src, dst)) == Basename(src)
  {
    BasenameOfJoin(dst, Basename(src));
  }

  /** `shutil.copy(src, dst)`: the target gets the source's bytes and
      nothing else changes; copying a file onto itself is refused. */
  function Copied(fs: Tree, src: Path, dst: Path): (r: Result)
    ensures r.Ok? <==> IsFile(fs, src) && Target(fs, src, dst) != src && !IsDir(fs, Target(fs, src, dst))
    ensures r.Ok? ==>
      var t := Target(fs, src, dst);
      r.tree.Keys == fs.Keys + {t} && r.tree[t] == fs[src] &&
      src in r.tree && r.tree[src] == fs[src] &&
      forall p :: p in fs && p != t ==> r.tree[p] == fs[p]
    ensures Target(fs, src, dst) == src && src in fs ==> r == Err(SameFile(src, src))
  {
    var t := Target(fs, src, dst);
    if t == src && src in fs then Err(SameFile(src, t))
    else if !IsFile(fs, src) then Err(NotAFile(src))
    else if IsDir(fs, t) then Err(IsADirectory(t))
    else Ok(fs[t := fs[src]])
  }

  /** `shutil.move(src, dst)`: into a directory only when no entry of that
      name exists there; onto a non-directory path by `os.rename`, which
      replaces a file already there. */
  function Moved(fs: Tree, src: Path, dst: Path): (r: Result)
    ensures r.Ok? <==> IsFile(fs, src) && !(IsDir(fs, dst) && Target(fs, src, dst) in fs)
    ensures r.Ok? && Target(fs, src, dst) != src ==>
      var t := Target(fs, src, dst);
      r.tree.Keys == fs.Keys - {src} + {t} && r.tree[t] == fs[src] &&
      forall p :: p in fs && p != src && p != t ==> r.tree[p] == fs[p]
    ensures r.Ok? && Target(fs, src, dst) == src ==> r.tree == fs
    ensures IsDir(fs, dst) && Target(fs, src, dst) in fs ==> r == Err(DestinationExists(Target(fs, src, dst)))
  {
    var t := Target(fs, src, dst);
    if IsDir(fs, dst) && t in fs then Err(DestinationExists(t))
    else if !IsFile(fs, src) then Err(NotAFile(src))
    else if t == src then Ok(fs)
    else Ok((fs - {src})[t := fs[src]])
  }

  /** Copying or moving an entry of a directory into that same directory
      fails: the copy names the source itself, the move finds its own name
      taken. */
  lemma IntoOwnDirectoryFails(fs: Tree, dir: Path, name: Path)
    requires dir != [] && dir[|dir| - 1] != '/' && '/' !in name
    requires IsDir(fs, dir) && IsFile(fs, dir + "/" + name)
    ensures Copied(fs, dir + "/" + name, dir) == Err(SameFile(dir + "/" + name, dir + "/" + name))
    ensures Moved(fs, dir + "/" + name, dir) == Err(DestinationExists(dir + "/" + name))
  {
    TargetInOwnDirectory(fs, dir, name);
  }

  /** An entry of a directory, put into that directory, lands on itself. */
  lemma TargetInOwnDirectory(fs: Tree, dir: Path, name: Path)
    requires dir != [] && dir[|dir| - 1] != '/' && '/' !in name
    requires IsDir(fs, dir)
    ensures Target(fs, dir + "/" + name, dir) == dir + "/" + name
    ensures Join(dir, Basename(dir + "/" + name)) == dir + "/" + name
  {
    assert Join(dir, name) == dir + "/" + name;
    BasenameOfJoin(dir, name);
  }

  /** The real file system, which `Copy` and `Move` update in place. */
  class FileSystem {
    var nodes: Tree

    constructor (nodes: Tree)
      ensures this.nodes == nodes
    {
      this.nodes := nodes;
    }

    method Copy(src: Path, dst: Path) returns (error: Option<OpError>)
      modifies this
      ensures match Copied(old(nodes), src, dst)
        case Ok(t) => nodes == t && error == None
        case Err(e) => nodes == old(nodes) && error == Some(e)
    {
      var r := Copied(nodes, src, dst);
      if r.Ok? {
        nodes := r.tree;
        error := None;
      } else {
        error := Some(r.error);
      }
    }

    method Move(src: Path, dst: Path) returns (error: Option<OpError>)
      modifies this
      ensures match Moved(old(nodes), src, dst)
        case Ok(t) => nodes == t && error == None
        case Err(e) => nodes == old(nodes) && error == Some(e)
    {
      var r := Moved(nodes, src, dst);
      if r.Ok? {
        nodes := r.tree;
        error := None;
      } else {
        error := Some(r.error);
      }
    }
  }
}
