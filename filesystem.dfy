/** The abstract filesystem the listing reads: a map from path to node. A
    directory carries its sticky bit and its entries in listing order; a
    file is either readable, with its text, or unreadable. */
module FileSystem {

  datatype Node = Dir(sticky: bool, entries: seq<string>) | File(text: string) | Unreadable

  type Tree = map<string, Node>

  /** `dir + "/" + name`; this is `os.path.join(dir, name)` when `dir` is
      non-empty and has no trailing slash and `name` is relative. */
  function Join(dir: string, name: string): string
  {
    dir + "/" + name
  }

  predicate IsDir(fs: Tree, path: string)
  {
    path in fs && fs[path].Dir?
  }

  /** `path` exists, is a directory and has the sticky bit set. */
  predicate IsStickyDir(fs: Tree, path: string)
  {
    IsDir(fs, path) && fs[path].sticky
  }

  /** The names a directory lists, in listing order; nothing for a path
      that is missing or is not a directory. */
  function Entries(fs: Tree, dir: string): (r: seq<string>)
    ensures !IsDir(fs, dir) ==> r == []
    ensures IsDir(fs, dir) ==> r == fs[dir].entries
  {
    if IsDir(fs, dir) then fs[dir].entries else []
  }

  /** The tree after writing `node` as `name` inside `dir`: the directory
      exists afterwards, lists `name` once (appended if it is new), keeps
      its sticky bit, and no other path changes. */
  function Place(fs: Tree, dir: string, name: string, node: Node): (fs': Tree)
    ensures Join(dir, name) in fs' && fs'[Join(dir, name)] == node
    ensures IsDir(fs', dir)
    ensures Entries(fs', dir) == Entries(fs, dir) + (if name in Entries(fs, dir) then [] else [name])
    ensures IsStickyDir(fs', dir) == IsStickyDir(fs, dir)
    ensures fs'.Keys == fs.Keys + {dir, Join(dir, name)}
    ensures forall p :: p in fs && p != dir && p != Join(dir, name) ==> fs'[p] == fs[p]
  {
    var listed := Entries(fs, dir);
    var entries := listed + (if name in listed then [] else [name]);
    assert |Join(dir, name)| > |dir|;
    fs[dir := Dir(IsStickyDir(fs, dir), entries)][Join(dir, name) := node]
  }

  /** The tree after making `path` a directory with the given sticky bit,
      keeping whatever it already listed. */
  function SetDir(fs: Tree, path: string, sticky: bool): (fs': Tree)
    ensures IsDir(fs', path) && IsStickyDir(fs', path) == sticky
    ensures Entries(fs', path) == Entries(fs, path)
    ensures fs'.Keys == fs.Keys + {path}
    ensures forall p :: p in fs && p != path ==> fs'[p] == fs[p]
  {
    fs[path := Dir(sticky, Entries(fs, path))]
  }

  /** The filesystem the listing runs against, updated in place by the
      set-up steps of each scenario. */
  class Disk {
    var nodes: Tree

    constructor ()
      ensures nodes == map[]
    {
      nodes := map[];
    }

    /** Writes `node` as `name` inside `dir`, creating `dir` if needed. */
    method Put(dir: string, name: string, node: Node)
      modifies this
      ensures nodes == Place(old(nodes), dir, name, node)
    {
      nodes := Place(nodes, dir, name, node);
    }

    /** Makes `path` a directory and sets or clears its sticky bit. */
    method MakeDir(path: string, sticky: bool)
      modifies this
      ensures nodes == SetDir(old(nodes), path, sticky)
    {
      nodes := SetDir(nodes, path, sticky);
    }
  }
}
