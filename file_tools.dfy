/** src/tools/file-tools.ts: the read, write, remove and list tools over an abstract filesystem. */
module FileTools {
  import opened Wrappers
  import opened JsString

  /** An absolute path, as its components below the root: `/a/b` is ["a", "b"]. */
  type Path = seq<string>

  /** The path's parent, as `path.dirname` gives it; the root is its own parent. */
  function Parent(p: Path): (d: Path)
    ensures d <= p
    ensures p != [] ==> |d| == |p| - 1
  {
    if p == [] then [] else p[..|p| - 1]
  }

  /** The POSIX rendering of a path, as it appears in the tools' results and messages. */
  function Render(p: Path): string {
    "/" + Join(p, "/")
  }

  datatype Node = File(content: string) | Dir

  datatype ItemKind = FileItem | DirectoryItem
  datatype Item = Item(name: string, kind: ItemKind)

  /** The values the tools return; `Thrown` is an exception raised out of the tool's `execute`. */
  datatype Outcome =
    | Error(message: string)
    | Thrown
    | Content(path: string, content: string)
    | Written(path: string, bytesWritten: nat)
    | Removed(path: string)
    | Listed(path: string, items: seq<Item>)

  /** The number of bytes UTF-8 spends on one scalar value. */
  function Utf8Width(c: char): (n: nat)
    ensures 1 <= n <= 4
  {
    if c as int < 0x80 then 1
    else if c as int < 0x800 then 2
    else if c as int < 0x10000 then 3
    else 4
  }

  /** `Buffer.byteLength(s, 'utf-8')`. */
  function Utf8Length(s: string): (n: nat)
    ensures |s| <= n <= 4 * |s|
  {
    if s == [] then 0 else Utf8Length(s[..|s| - 1]) + Utf8Width(s[|s| - 1])
  }

  /** The byte length of a concatenation is the sum of the byte lengths. */
  lemma {:induction false} Utf8LengthAppend(a: string, b: string)
    ensures Utf8Length(a + b) == Utf8Length(a) + Utf8Length(b)
    decreases |b|
  {
    if b == [] {
      assert a + b == a;
    } else {
      var b' := b[..|b| - 1];
      assert (a + b)[..|a + b| - 1] == a + b';
      Utf8LengthAppend(a, b');
    }
  }

  /** ASCII text has one byte per character. */
  lemma {:induction false} Utf8LengthAscii(s: string)
    requires forall i :: 0 <= i < |s| ==> s[i] as int < 0x80
    ensures Utf8Length(s) == |s|
    decreases |s|
  {
    if s != [] {
      Utf8LengthAscii(s[..|s| - 1]);
    }
  }

  /** Every node's parent exists and is a directory, and the root is a directory. */
  ghost predicate ValidTree(nodes: map<Path, Node>) {
    && [] in nodes && nodes[[]] == Dir
    && forall p {:trigger Parent(p)} :: p in nodes && p != [] ==> Parent(p) in nodes && nodes[Parent(p)] == Dir
  }

  /** In a valid tree every proper ancestor of an existing node is an existing directory. */
  lemma {:induction false} AncestorsAreDirectories(nodes: map<Path, Node>, p: Path)
    requires ValidTree(nodes) && p in nodes
    ensures forall k :: 0 <= k < |p| ==> p[..k] in nodes && nodes[p[..k]] == Dir
    decreases |p|
  {
    if p != [] {
      var d := Parent(p);
      assert d in nodes && nodes[d] == Dir;
      AncestorsAreDirectories(nodes, d);
      forall k | 0 <= k < |p| ensures p[..k] in nodes && nodes[p[..k]] == Dir {
        if k < |d| {
          assert p[..k] == d[..k];
        } else {
          assert p[..k] == d;
        }
      }
    }
  }

  /** `fs.mkdirSync(dir, { recursive: true })`: the missing ancestors of `dir`, and `dir`, become
      directories. */
  function MakeDirectories(nodes: map<Path, Node>, dir: Path): map<Path, Node>
    decreases |dir|
  {
    if dir in nodes || dir == [] then nodes else MakeDirectories(nodes, Parent(dir))[dir := Dir]
  }

  /** When no existing ancestor of `dir` is a file, `MakeDirectories` keeps the tree valid, leaves
      every existing node alone, adds only ancestors of `dir`, and makes `dir` a directory. */
  lemma {:induction false} MakeDirectoriesFacts(nodes: map<Path, Node>, dir: Path)
    requires ValidTree(nodes)
    requires forall k :: 0 <= k <= |dir| && dir[..k] in nodes ==> nodes[dir[..k]] == Dir
    ensures var n := MakeDirectories(nodes, dir);
      && ValidTree(n)
      && dir in n && n[dir] == Dir
      && (forall q :: q in nodes ==> q in n && n[q] == nodes[q])
      && (forall q :: q in n ==> q in nodes || (|q| <= |dir| && q == dir[..|q|]))
    decreases |dir|
  {
    if dir in nodes || dir == [] {
      assert dir[..|dir|] == dir;
    } else {
      var d := Parent(dir);
      forall k | 0 <= k <= |d| && d[..k] in nodes ensures nodes[d[..k]] == Dir {
        assert d[..k] == dir[..k];
      }
      MakeDirectoriesFacts(nodes, d);
      var m := MakeDirectories(nodes, d);
      var n := m[dir := Dir];
      forall q | q in n && q != [] ensures Parent(q) in n && n[Parent(q)] == Dir {
        if q != dir {
          assert Parent(q) in m && m[Parent(q)] == Dir;
        }
      }
      forall q | q in n ensures q in nodes || (|q| <= |dir| && q == dir[..|q|]) {
        if q != dir && q !in nodes {
          assert q == d[..|q|];
        }
      }
    }
  }

  /** Whether `write_file` succeeds: the target is not the root or a directory, and no ancestor is a file. */
  ghost predicate CanWrite(nodes: map<Path, Node>, p: Path) {
    && p != []
    && !(p in nodes && nodes[p].Dir?)
    && (forall k :: 0 <= k < |p| && p[..k] in nodes ==> nodes[p[..k]].Dir?)
  }

  /** The filesystem the tools act on. */
  class FileSystem {
    var nodes: map<Path, Node>

    ghost predicate Valid()
      reads this
    {
      ValidTree(nodes)
    }

    /** A filesystem holding only the root directory. */
    constructor ()
      ensures Valid() && nodes == map[[] := Dir]
    {
      nodes := map[[] := Dir];
    }

    /** The names of a directory's entries, as `fs.readdirSync` finds them. */
    function Children(d: Path): (names: set<string>)
      reads this
      ensures forall n :: n in names <==> d + [n] in nodes
    {
      var r := set p | p in nodes && |p| == |d| + 1 && d <= p :: p[|d|];
      assert forall n :: d + [n] in nodes ==> n in r by {
        forall n | d + [n] in nodes ensures n in r {
          var p := d + [n];
          assert |p| == |d| + 1 && d <= p && p[|d|] == n;
        }
      }
      assert forall n :: n in r ==> d + [n] in nodes by {
        forall n | n in r ensures d + [n] in nodes {
          var p :| p in nodes && |p| == |d| + 1 && d <= p && p[|d|] == n;
          assert p == d + [n];
        }
      }
      r
    }

    /** The `read_file` tool. */
    function Read(filePath: string, resolve: string -> Path): (r: Outcome)
      reads this
      ensures resolve(filePath) !in nodes ==> r == Error("File not found: " + Render(resolve(filePath)))
      ensures resolve(filePath) in nodes && nodes[resolve(filePath)].Dir? ==> r == Thrown
      ensures resolve(filePath) in nodes && nodes[resolve(filePath)].File? ==>
        r == Content(Render(resolve(filePath)), nodes[resolve(filePath)].content)
    {
      var resolved := resolve(filePath);
      if resolved !in nodes then Error("File not found: " + Render(resolved))
      else match nodes[resolved]
        case Dir => Thrown
        case File(content) => Content(Render(resolved), content)
    }

    /** The `write_file` tool: create the parent directory when it is missing, then write the file. */
    method Write(filePath: string, content: string, resolve: string -> Path) returns (r: Outcome)
      requires Valid()
      modifies this
      ensures Valid()
      ensures r.Written? <==> CanWrite(old(nodes), resolve(filePath))
      ensures r.Written? ==>
        && r == Written(Render(resolve(filePath)), Utf8Length(content))
        && nodes == MakeDirectories(old(nodes), Parent(resolve(filePath)))[resolve(filePath) := File(content)]
      ensures !r.Written? ==> r == Thrown && nodes == old(nodes)
    {
      var resolved := resolve(filePath);
      if resolved == [] {
        // The root is a directory: writing to it fails.
        return Thrown;
      }
      var parentDir := Parent(resolved);
      assert forall k :: 0 <= k <= |parentDir| ==> parentDir[..k] == resolved[..k];
      if parentDir in nodes {
        if nodes[parentDir].File? {
          return Thrown;
        }
        AncestorsAreDirectories(nodes, parentDir);
      } else if exists k :: 0 <= k <= |parentDir| && parentDir[..k] in nodes && nodes[parentDir[..k]].File? {
        return Thrown;
      }
      MakeDirectoriesFacts(nodes, parentDir);
      var made := MakeDirectories(nodes, parentDir);
      if resolved in made && made[resolved].Dir? {
        return Thrown;
      }
      WriteFileKeepsValid(made, resolved, content);
      nodes := made[resolved := File(content)];
      r := Written(Render(resolved), Utf8Length(content));
    }

    /** The `remove_file` tool. */
    method Remove(filePath: string, resolve: string -> Path) returns (r: Outcome)
      requires Valid()
      modifies this
      ensures Valid()
      ensures resolve(filePath) !in old(nodes) ==>
        r == Error("File not found: " + Render(resolve(filePath))) && nodes == old(nodes)
      ensures resolve(filePath) in old(nodes) && old(nodes)[resolve(filePath)].Dir? ==>
        r == Error("Path is a directory, not a file: " + Render(resolve(filePath))) && nodes == old(nodes)
      ensures resolve(filePath) in old(nodes) && old(nodes)[resolve(filePath)].File? ==>
        r == Removed(Render(resolve(filePath))) && nodes == old(nodes) - {resolve(filePath)}
    {
      var resolved := resolve(filePath);
      if resolved !in nodes {
        return Error("File not found: " + Render(resolved));
      }
      if nodes[resolved].Dir? {
        return Error("Path is a directory, not a file: " + Render(resolved));
      }
      nodes := nodes - {resolved};
      r := Removed(Render(resolved));
    }

    /** The `list_directory` tool; `dirPath` defaults to ".". The entries come in an order the
        filesystem chooses, so the method picks them in an unspecified order. */
    method List(dirPath: Option<string>, resolve: string -> Path) returns (r: Outcome)
      ensures resolve(dirPath.GetOr(".")) !in nodes ==>
        r == Error("Directory not found: " + Render(resolve(dirPath.GetOr("."))))
      ensures resolve(dirPath.GetOr(".")) in nodes && nodes[resolve(dirPath.GetOr("."))].File? ==> r == Thrown
      ensures resolve(dirPath.GetOr(".")) in nodes && nodes[resolve(dirPath.GetOr("."))].Dir? ==>
        && r.Listed? && r.path == Render(resolve(dirPath.GetOr(".")))
        && Listing(resolve(dirPath.GetOr(".")), r.items)
    {
      var resolved := resolve(dirPath.GetOr("."));
      if resolved !in nodes {
        return Error("Directory not found: " + Render(resolved));
      }
      if nodes[resolved].File? {
        return Thrown;
      }
      var items := ListChildren(resolved);
      r := Listed(Render(resolved), items);
    }

    /** The `readdir` loop: each child of `dir` is taken once, in an unspecified order, and typed. */
    method ListChildren(dir: Path) returns (items: seq<Item>)
      ensures Listing(dir, items)
    {
      var remaining := Children(dir);
      items := [];
      while remaining != {}
        invariant remaining <= Children(dir)
        invariant forall i :: 0 <= i < |items| ==> items[i].name in Children(dir) && items[i].name !in remaining
        invariant forall n :: n in Children(dir) && n !in remaining ==> exists i :: 0 <= i < |items| && items[i].name == n
        invariant forall i, j :: 0 <= i < j < |items| ==> items[i].name != items[j].name
        invariant forall i :: 0 <= i < |items| ==> (items[i].kind == DirectoryItem <==> nodes[dir + [items[i].name]] == Dir)
        decreases remaining
      {
        var name :| name in remaining;
        var kind := if nodes[dir + [name]] == Dir then DirectoryItem else FileItem;
        ghost var before := items;
        items := items + [Item(name, kind)];
        remaining := remaining - {name};
        assert items[|items| - 1].name == name;
        assert forall i :: 0 <= i < |before| ==> items[i] == before[i];
      }
    }

    /** A listing of `dir`: one item per entry, no entry twice, typed `directory` exactly for directories. */
    ghost predicate Listing(dir: Path, items: seq<Item>)
      reads this
    {
      && (forall i :: 0 <= i < |items| ==> dir + [items[i].name] in nodes)
      && (forall n :: n in Children(dir) ==> exists i :: 0 <= i < |items| && items[i].name == n)
      && (forall i, j :: 0 <= i < j < |items| ==> items[i].name != items[j].name)
      && (forall i :: 0 <= i < |items| ==> (items[i].kind == DirectoryItem <==> nodes[dir + [items[i].name]] == Dir))
    }
  }

  /** Writing a file whose parent is a directory, over a path that is not a directory, keeps the
      tree valid. */
  lemma WriteFileKeepsValid(nodes: map<Path, Node>, p: Path, content: string)
    requires ValidTree(nodes) && p != []
    requires Parent(p) in nodes && nodes[Parent(p)] == Dir
    requires !(p in nodes && nodes[p] == Dir)
    ensures ValidTree(nodes[p := File(content)])
  {
    var n := nodes[p := File(content)];
    forall q | q in n && q != [] ensures Parent(q) in n && n[Parent(q)] == Dir {
      if q != p {
        assert Parent(q) in nodes && nodes[Parent(q)] == Dir;
      }
    }
  }

  /** What a successful `write_file` leaves behind: the file holds the content, every ancestor is a
      directory, no other existing node changed, and the only new nodes are ancestors of the file. */
  lemma WriteEffect(nodes: map<Path, Node>, p: Path, content: string)
    requires ValidTree(nodes) && CanWrite(nodes, p)
    ensures var n := MakeDirectories(nodes, Parent(p))[p := File(content)];
      && ValidTree(n)
      && p in n && n[p] == File(content)
      && (forall k :: 0 <= k < |p| ==> p[..k] in n && n[p[..k]] == Dir)
      && (forall q :: q in nodes && q != p ==> q in n && n[q] == nodes[q])
      && (forall q :: q in n ==> q in nodes || (|q| <= |p| && q == p[..|q|]))
  {
    var d := Parent(p);
    forall k | 0 <= k <= |d| && d[..k] in nodes ensures nodes[d[..k]] == Dir {
      assert d[..k] == p[..k];
    }
    MakeDirectoriesFacts(nodes, d);
    var m := MakeDirectories(nodes, d);
    WriteFileKeepsValid(m, p, content);
    var n := m[p := File(content)];
    AncestorsAreDirectories(n, p);
    forall q | q in n ensures q in nodes || (|q| <= |p| && q == p[..|q|]) {
      if q != p && q !in nodes {
        assert q == d[..|q|];
      }
    }
  }

  /** The tools whose definition sets `needsApproval: true`. */
  predicate NeedsApproval(toolName: string) {
    toolName == "write_file" || toolName == "remove_file"
  }
}
