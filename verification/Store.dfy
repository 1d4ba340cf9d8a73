/** The tree as files, packed into an archive, and back. */
module Store {
  import opened Wrappers
  import Cluster
  import opened ResourceTree
  import opened Paths
  import opened Layout

  type Bytes = string

  /** How definitions and metadata become bytes, and what a run reports of itself. */
  datatype Codec = Codec(
    encode: Definition -> Bytes, decode: Bytes -> Option<Definition>,
    encodeMetadata: Metadata -> Bytes, decodeMetadata: Bytes -> Option<Metadata>,
    encodeStatus: (string, map<string, Cluster.Outcome>) -> Bytes)

  ghost predicate Invertible(c: Codec) {
    && (forall d: Definition {:trigger c.encode(d)} :: c.decode(c.encode(d)) == Some(d))
    && (forall m: Metadata {:trigger c.encodeMetadata(m)} :: c.decodeMetadata(c.encodeMetadata(m)) == Some(m))
  }

  /** An archive: the names on the way to each file, and the file. */
  type Archive = map<seq<string>, Bytes>

  /** The payload of a leaf can be written: it has a definition and metadata. */
  predicate Writable(p: Payload) {
    p.definition.Some? && p.metadata.Some?
  }

  /** The leaves below `p`. */
  ghost function LeavesUnder(leaves: map<Path, Payload>, p: Path): map<Path, Payload> {
    map q | q in leaves && Under(q, p) :: leaves[q]
  }

  ghost predicate Storable(leaves: map<Path, Payload>) {
    forall q :: q in leaves ==> IsLeaf(q) && ValidNames(q) && Writable(leaves[q])
  }

  /** An archive holds the two files of each leaf and nothing else. */
  ghost predicate Holds(c: Codec, a: Archive, leaves: map<Path, Payload>) {
    && Storable(leaves)
    && (forall q :: q in leaves ==>
         && FileNames(q) in a && a[FileNames(q)] == c.encode(leaves[q].definition.value)
         && MetadataNames(q) in a && a[MetadataNames(q)] == c.encodeMetadata(leaves[q].metadata.value))
    && (forall n :: n in a ==> exists q :: q in leaves && (n == FileNames(q) || n == MetadataNames(q)))
  }

  /** The files of a disk, by their path. */
  class Disk {
    var files: map<string, Bytes>

    constructor ()
      ensures files == map[]
    {
      files := map[];
    }
  }

  /** What lies below a directory, named from there on. */
  function Pack(files: map<string, Bytes>, base: Dir): Archive {
    assert forall f, g | InDir(f, base) && InDir(g, base) && SameSuffix(f, g, base) :: f == g by {
      forall f, g | InDir(f, base) && InDir(g, base) && SameSuffix(f, g, base)
        ensures f == g
      {
        SuffixInjective(f, g, base);
      }
    }
    map f | f in files && InDir(f, base) :: Parse(f).names[|base.names|..] := files[f]
  }

  predicate SameSuffix(f: string, g: string, base: Dir)
    requires InDir(f, base) && InDir(g, base)
  {
    Parse(f).names[|base.names|..] == Parse(g).names[|base.names|..]
  }

  lemma SuffixInjective(f: string, g: string, base: Dir)
    requires InDir(f, base) && InDir(g, base) && SameSuffix(f, g, base)
    ensures f == g
  {
    assert Parse(f).names == base.names + Parse(f).names[|base.names|..];
    assert Parse(g).names == base.names + Parse(g).names[|base.names|..];
    assert Parse(f) == Parse(g);
  }

  predicate InDir(f: string, base: Dir) {
    Clean(f) == f && Parse(f).rooted == base.rooted && base.names < Parse(f).names
  }

  /** The path of what has these names below a directory. */
  function Text(base: Dir, names: seq<string>): string {
    Show(Dir(base.rooted, base.names + names))
  }

  /** An archive laid out below a directory. */
  function UnPack(a: Archive, base: Dir): map<string, Bytes>
    requires Canonical(base) && forall n :: n in a ==> forall x :: x in n ==> Normal(x)
  {
    assert forall n, m | n in a && m in a && Text(base, n) == Text(base, m) :: n == m by {
      forall n, m | n in a && m in a && Text(base, n) == Text(base, m)
        ensures n == m
      {
        AppendNormal(base, n);
        AppendNormal(base, m);
        ShowInjective(Dir(base.rooted, base.names + n), Dir(base.rooted, base.names + m));
        assert n == (base.names + n)[|base.names|..] && m == (base.names + m)[|base.names|..];
      }
    }
    map n | n in a :: Text(base, n) := a[n]
  }

  // ---- Writing

  ghost predicate Laid(
    c: Codec, base: Dir, leaves: map<Path, Payload>, before: map<string, Bytes>, after: map<string, Bytes>)
  {
    && Storable(leaves) && before.Keys <= after.Keys
    && (forall q :: q in leaves ==> LeafLaid(c, base, q, leaves[q], after))
    && (forall f :: f in after ==>
         (f in before && after[f] == before[f]) || exists q :: q in leaves && IsLeaf(q) && IsFileOf(base, q, f))
  }

  ghost predicate LeafLaid(c: Codec, base: Dir, q: Path, p: Payload, files: map<string, Bytes>) {
    && IsLeaf(q) && Writable(p)
    && Text(base, FileNames(q)) in files && files[Text(base, FileNames(q))] == c.encode(p.definition.value)
    && Text(base, MetadataNames(q)) in files
    && files[Text(base, MetadataNames(q))] == c.encodeMetadata(p.metadata.value)
  }

  predicate IsFileOf(base: Dir, q: Path, f: string)
    requires IsLeaf(q)
  {
    f == Text(base, FileNames(q)) || f == Text(base, MetadataNames(q))
  }

  lemma FilesAreApart(base: Dir, p: Path, q: Path, f: string)
    requires Canonical(base) && IsLeaf(p) && IsLeaf(q) && ValidNames(p) && ValidNames(q)
    requires IsFileOf(base, p, f) && IsFileOf(base, q, f)
    ensures p == q
  {
    FileNamesAreNormal(p);
    FileNamesAreNormal(q);
    DirectoriesAreApart(base, p, q);
    DirectoriesAreApart(base, q, p);
    TextInjective(base, FileNames(p), FileNames(q));
    TextInjective(base, FileNames(p), MetadataNames(q));
    TextInjective(base, MetadataNames(p), FileNames(q));
    TextInjective(base, MetadataNames(p), MetadataNames(q));
  }

  lemma FileNamesAreNormal(q: Path)
    requires IsLeaf(q) && ValidNames(q)
    ensures forall n :: n in FileNames(q) || n in MetadataNames(q) ==> Normal(n)
  {
    NamesAreNormal(q);
    JsonNameIsNormal(q[4]);
  }

  lemma TextInjective(base: Dir, a: seq<string>, b: seq<string>)
    requires Canonical(base) && forall n :: n in a || n in b ==> Normal(n)
    ensures Text(base, a) == Text(base, b) ==> a == b
    ensures Canonical(Dir(base.rooted, base.names + a))
  {
    AppendNormal(base, a);
    AppendNormal(base, b);
    if Text(base, a) == Text(base, b) {
      ShowInjective(Dir(base.rooted, base.names + a), Dir(base.rooted, base.names + b));
      assert a == (base.names + a)[|base.names|..] && b == (base.names + b)[|base.names|..];
    }
  }

  lemma LaidNothing(c: Codec, base: Dir, files: map<string, Bytes>)
    ensures Laid(c, base, map[], files, files)
  {
  }

  /** Files of further leaves do not disturb those that are there. */
  lemma LaidOn(
    c: Codec, base: Dir, one: map<Path, Payload>, two: map<Path, Payload>,
    f1: map<string, Bytes>, f2: map<string, Bytes>, f3: map<string, Bytes>)
    requires Canonical(base) && Laid(c, base, one, f1, f2) && Laid(c, base, two, f2, f3) && one.Keys !! two.Keys
    ensures Laid(c, base, one + two, f1, f3)
  {
    hide Text, ValidNames, LeafLaid, IsFileOf;
    forall q | q in one
      ensures LeafLaid(c, base, q, one[q], f3)
    {
      StaysLaid(c, base, q, one[q], two, f2, f3);
    }
  }

  lemma StaysLaid(
    c: Codec, base: Dir, q: Path, p: Payload, two: map<Path, Payload>, f2: map<string, Bytes>, f3: map<string, Bytes>)
    requires Canonical(base) && LeafLaid(c, base, q, p, f2) && ValidNames(q) && q !in two && Laid(c, base, two, f2, f3)
    ensures LeafLaid(c, base, q, p, f3)
  {
    hide Text, ValidNames;
    forall f | f in f2 && IsFileOf(base, q, f)
      ensures f3[f] == f2[f]
    {
      if r :| r in two && IsLeaf(r) && IsFileOf(base, r, f) {
        FilesAreApart(base, q, r, f);
      }
    }
    assert IsFileOf(base, q, Text(base, FileNames(q))) && IsFileOf(base, q, Text(base, MetadataNames(q)));
  }

  method StoreObjectLocal(
    parentsDir: string, o: Node, c: Codec, disk: Disk, ghost base: Dir)
    requires Canonical(base) && IsLeaf(o.path) && ValidNames(o.path) && o.name == o.path[4] && Writable(o.payload)
    requires parentsDir == Show(DirOf(base, o.path[..4]))
    modifies disk
    ensures Laid(c, base, map[o.path := o.payload], old(disk.files), disk.files)
  {
    hide Show, Canonical, DirPath, ValidNames, FileNames, MetadataNames, Text, Laid, DirNames, DirOf, Normal;
    hide ObjectName;
    ghost var q := o.path;
    ghost var before := disk.files;
    ObjectDirText(base, q);
    var objectDir := GenerateDirPath([parentsDir, o.name]);
    var objectFile := GenerateDirPath([objectDir, o.name]);
    objectFile := ObjectName(objectFile, JSON_KIND);
    var metadataFile := GenerateDirPath([objectDir, METADATA_FILE]);
    disk.files := disk.files[objectFile := c.encode(o.payload.definition.value)];
    disk.files := disk.files[metadataFile := c.encodeMetadata(o.payload.metadata.value)];
    OneLaid(c, base, q, o.payload, before);
  }

  lemma OneLaid(c: Codec, base: Dir, q: Path, p: Payload, before: map<string, Bytes>)
    requires IsLeaf(q) && ValidNames(q) && Writable(p) && Text(base, FileNames(q)) != Text(base, MetadataNames(q))
    ensures var after := before[Text(base, FileNames(q)) := c.encode(p.definition.value)]
                               [Text(base, MetadataNames(q)) := c.encodeMetadata(p.metadata.value)];
            Laid(c, base, map[q := p], before, after)
  {
    hide Text, FileNames, MetadataNames, ValidNames;
    assert IsFileOf(base, q, Text(base, FileNames(q))) && IsFileOf(base, q, Text(base, MetadataNames(q)));
  }

  /** The texts that are computed for an object. */
  lemma ObjectDirText(base: Dir, q: Path)
    requires Canonical(base) && IsLeaf(q) && ValidNames(q)
    ensures DirPath([Show(DirOf(base, q[..4])), q[4]]) == Show(DirOf(base, q))
    ensures ObjectName(DirPath([Show(DirOf(base, q)), q[4]]), JSON_KIND) == Text(base, FileNames(q))
    ensures DirPath([Show(DirOf(base, q)), METADATA_FILE]) == Text(base, MetadataNames(q))
    ensures Text(base, FileNames(q)) != Text(base, MetadataNames(q))
  {
    assert Kid(q[..4], q[4]) == q;
    ChildDirText(base, q[..4], q[4], NamespaceKind);
    hide Show, Canonical, Join, DirPath, ValidNames, DirNames, Normal;
    var d := DirOf(base, q);
    NamesAreNormal(q);
    AppendNormal(base, DirNames(q));
    ShowNotEmpty(d);
    LeafNameNormal(q);
    FileText(d, q[4], METADATA_FILE);
    assert d.names + [METADATA_FILE] == base.names + MetadataNames(q);
    assert d.names + [ObjectName(q[4], JSON_KIND)] == base.names + FileNames(q);
    FileNamesAreNormal(q);
    TextInjective(base, FileNames(q), MetadataNames(q));
    DirectoriesAreApart(base, q, q);
  }

  lemma LeafNameNormal(q: Path)
    requires IsLeaf(q) && ValidNames(q)
    ensures Normal(q[4]) && Normal(METADATA_FILE)
  {
  }

  lemma FileText(d: Dir, name: string, other: string)
    requires Canonical(d) && Normal(name) && Normal(other)
    ensures ObjectName(DirPath([Show(d), name]), JSON_KIND)
         == Show(Dir(d.rooted, d.names + [ObjectName(name, JSON_KIND)]))
    ensures DirPath([Show(d), other]) == Show(Dir(d.rooted, d.names + [other]))
  {
    ShowNotEmpty(d);
    JoinName(d, name);
    JoinName(d, other);
    DirPathOfPair(Show(d), name);
    DirPathOfPair(Show(d), other);
    hide Show, Canonical, Join, DirPath, Normal;
    ShowGlue(d.rooted, d.names, name, "." + JSON_KIND);
    var s := Show(Dir(d.rooted, d.names + [name]));
    assert s + "." + JSON_KIND == s + ("." + JSON_KIND);
    assert name + "." + JSON_KIND == name + ("." + JSON_KIND);
  }

  // ---- The walk that writes

  ghost function LeavesIn(leaves: map<Path, Payload>, p: Path, done: set<string>): map<Path, Payload> {
    map q | q in leaves && BelowAny(q, p, done) :: leaves[q]
  }

  lemma LeavesInStep(leaves: map<Path, Payload>, p: Path, done: set<string>, k: string)
    requires k !in done
    ensures LeavesIn(leaves, p, done + {k}) == LeavesIn(leaves, p, done) + LeavesUnder(leaves, Kid(p, k))
    ensures LeavesIn(leaves, p, done).Keys !! LeavesUnder(leaves, Kid(p, k)).Keys
    ensures LeavesIn(leaves, p, {}) == map[]
  {
    forall q
      ensures BelowAny(q, p, done + {k}) <==> BelowAny(q, p, done) || Under(q, Kid(p, k))
      ensures !(BelowAny(q, p, done) && Under(q, Kid(p, k)))
    {
      BelowKid(q, p, k);
    }
  }

  /** Everything in the tree can be written. */
  ghost predicate WritableTree(t: map<Path, Node>, leaves: map<Path, Payload>) {
    (forall q :: q in t ==> ValidNames(q)) && Storable(leaves) && leaves.Keys == LeafPaths(t.Keys)
  }

  /** Groups, versions, resources and namespaces are walked in the same way; they differ in
      how the directory of a child is named. */
  method WriteTree(
    n: Node, dir: string, c: Codec, disk: Disk, ghost base: Dir, ghost t: map<Path, Node>,
    ghost leaves: map<Path, Payload>)
    requires Canonical(base) && Ok(t) && In(n, t) && |n.path| < OBJECT_DEPTH && dir == Show(DirOf(base, n.path))
    requires leaves == LeafPayloads(t) && WritableTree(t, leaves)
    modifies disk
    ensures Laid(c, base, LeavesUnder(leaves, n.path), old(disk.files), disk.files)
    decreases OBJECT_DEPTH - |n.path|, 1
  {
    hide *;
    var todo := n.children.Keys;
    ghost var names := todo;
    ghost var done: set<string> := {};
    WriteBounds(t, n, names, leaves);
    LaidNothing(c, base, disk.files);
    while todo != {}
      invariant names == done + todo && done !! todo
      invariant Laid(c, base, LeavesIn(leaves, n.path, done), old(disk.files), disk.files)
    {
      var k :| k in todo;
      ghost var before := disk.files;
      WriteChild(n, k, dir, c, disk, base, t, leaves);
      LeavesInStep(leaves, n.path, done, k);
      LaidOn(c, base, LeavesIn(leaves, n.path, done), LeavesUnder(leaves, Kid(n.path, k)), old(disk.files), before,
             disk.files);
      todo, done := todo - {k}, done + {k};
    }
    assert done == names;
  }

  lemma WriteBounds(t: map<Path, Node>, n: Node, names: set<string>, leaves: map<Path, Payload>)
    requires Ok(t) && In(n, t) && |n.path| < OBJECT_DEPTH && names == n.children.Keys && WritableTree(t, leaves)
    ensures LeavesIn(leaves, n.path, names) == LeavesUnder(leaves, n.path)
    ensures LeavesIn(leaves, n.path, {}) == map[]
  {
    OkIsClosed(t);
    assert Linked(t, n.path);
    forall q | q in leaves
      ensures BelowAny(q, n.path, names) <==> Under(q, n.path)
    {
      assert q in t.Keys;
      StrictlyBelow(t.Keys, n.path, names, q);
    }
  }

  method WriteChild(
    n: Node, k: string, dir: string, c: Codec, disk: Disk, ghost base: Dir, ghost t: map<Path, Node>,
    ghost leaves: map<Path, Payload>)
    requires Canonical(base) && Ok(t) && In(n, t) && |n.path| < OBJECT_DEPTH && dir == Show(DirOf(base, n.path))
    requires leaves == LeafPayloads(t) && WritableTree(t, leaves) && k in n.children
    modifies disk
    ensures Laid(c, base, LeavesUnder(leaves, Kid(n.path, k)), old(disk.files), disk.files)
    decreases OBJECT_DEPTH - |n.path|, 0
  {
    hide Ok, Linked, In, Show, Canonical, DirNames, Laid, LeafPayloads, WritableTree, LeavesUnder, DirPath;
    var child := n.children[k];
    ChildFacts(t, n, k, leaves);
    ChildDirText(base, n.path, k, n.kind);
    if n.kind == NamespaceKind {
      StoreObjectLocal(dir, child, c, disk, base);
    } else {
      WriteTree(child, ChildDir(n.kind, dir, child.name), c, disk, base, t, leaves);
    }
  }

  lemma ChildFacts(t: map<Path, Node>, n: Node, k: string, leaves: map<Path, Payload>)
    requires Ok(t) && In(n, t) && |n.path| < OBJECT_DEPTH && k in n.children
    requires leaves == LeafPayloads(t) && WritableTree(t, leaves)
    ensures n.kind == KindAt(|n.path|)
    ensures var child := n.children[k];
            && In(child, t) && child.path == Kid(n.path, k) && child.name == k && ValidNames(child.path)
            && (IsLeaf(child.path) ==>
                 && child.path[..4] == n.path && child.path[4] == k && Writable(child.payload)
                 && LeavesUnder(leaves, child.path) == map[child.path := child.payload])
  {
    assert Linked(t, n.path);
    var q := Kid(n.path, k);
    assert Linked(t, q);
    if IsLeaf(q) {
      assert q in leaves;
      forall r | r in leaves && Under(r, q)
        ensures r == q
      {
        assert IsLeaf(r);
      }
    }
  }

  // ---- Packing and unpacking

  lemma TextParses(base: Dir, names: seq<string>)
    requires Canonical(base) && names != [] && forall n :: n in names ==> Normal(n)
    ensures InDir(Text(base, names), base) && Parse(Text(base, names)).names[|base.names|..] == names
  {
    TextInjective(base, names, names);
    ParseShow(Dir(base.rooted, base.names + names));
  }

  /** The archive of a directory into which only the leaves were written. */
  lemma PackHolds(
    c: Codec, base: Dir, leaves: map<Path, Payload>, before: map<string, Bytes>, files: map<string, Bytes>)
    requires Canonical(base) && Laid(c, base, leaves, before, files) && forall f :: f in before ==> !InDir(f, base)
    ensures Holds(c, Pack(files, base), leaves)
  {
    hide Text, InDir, Parse, ValidNames, FileNames, MetadataNames, Pack, LeafLaid, IsFileOf;
    var a := Pack(files, base);
    forall q | q in leaves
      ensures FileNames(q) in a && a[FileNames(q)] == c.encode(leaves[q].definition.value)
      ensures MetadataNames(q) in a && a[MetadataNames(q)] == c.encodeMetadata(leaves[q].metadata.value)
    {
      PackedLeaf(c, base, q, leaves[q], files);
    }
    forall n | n in a
      ensures exists q :: q in leaves && (n == FileNames(q) || n == MetadataNames(q))
    {
      var f := PackedFrom(files, base, n);
      var q :| q in leaves && IsLeaf(q) && IsFileOf(base, q, f);
      ParsedFile(base, q, f);
    }
  }

  lemma PackedFrom(files: map<string, Bytes>, base: Dir, n: seq<string>) returns (f: string)
    requires n in Pack(files, base)
    ensures f in files && InDir(f, base) && Parse(f).names[|base.names|..] == n
  {
    f :| f in files && InDir(f, base) && Parse(f).names[|base.names|..] == n;
  }

  lemma ParsedFile(base: Dir, q: Path, f: string)
    requires Canonical(base) && IsLeaf(q) && ValidNames(q) && IsFileOf(base, q, f) && InDir(f, base)
    ensures var n := Parse(f).names[|base.names|..]; n == FileNames(q) || n == MetadataNames(q)
  {
    FilesParse(base, q);
  }

  lemma PackedLeaf(c: Codec, base: Dir, q: Path, p: Payload, files: map<string, Bytes>)
    requires Canonical(base) && LeafLaid(c, base, q, p, files) && ValidNames(q)
    ensures var a := Pack(files, base);
            && FileNames(q) in a && a[FileNames(q)] == c.encode(p.definition.value)
            && MetadataNames(q) in a && a[MetadataNames(q)] == c.encodeMetadata(p.metadata.value)
  {
    hide Text, InDir, Parse, ValidNames, FileNames, MetadataNames, Pack;
    FilesParse(base, q);
    Packed(files, base, Text(base, FileNames(q)));
    Packed(files, base, Text(base, MetadataNames(q)));
  }

  lemma FilesParse(base: Dir, q: Path)
    requires Canonical(base) && IsLeaf(q) && ValidNames(q)
    ensures InDir(Text(base, FileNames(q)), base) && InDir(Text(base, MetadataNames(q)), base)
    ensures Parse(Text(base, FileNames(q))).names[|base.names|..] == FileNames(q)
    ensures Parse(Text(base, MetadataNames(q))).names[|base.names|..] == MetadataNames(q)
  {
    FileNamesAreNormal(q);
    TextParses(base, FileNames(q));
    TextParses(base, MetadataNames(q));
  }

  lemma Packed(files: map<string, Bytes>, base: Dir, f: string)
    requires f in files && InDir(f, base)
    ensures var n := Parse(f).names[|base.names|..]; n in Pack(files, base) && Pack(files, base)[n] == files[f]
  {
    forall g | InDir(g, base) && SameSuffix(f, g, base)
      ensures g == f
    {
      SuffixInjective(f, g, base);
    }
  }

  lemma HeldNamesAreNormal(c: Codec, a: Archive, leaves: map<Path, Payload>)
    requires Holds(c, a, leaves)
    ensures forall n :: n in a ==> forall x :: x in n ==> Normal(x)
  {
    forall n | n in a
      ensures forall x :: x in n ==> Normal(x)
    {
      var q :| q in leaves && (n == FileNames(q) || n == MetadataNames(q));
      FileNamesAreNormal(q);
    }
  }

  // ---- Reading back

  /** The directory of a file, with its slash, and the name of the file. */
  function SplitFile(f: string): (string, string) {
    if f == "" then ("", "")
    else if f[|f| - 1] == '/' then (f, "")
    else var (dir, name) := SplitFile(f[..|f| - 1]); (dir, name + [f[|f| - 1]])
  }

  lemma {:induction false} SplitFileJoins(f: string)
    ensures SplitFile(f).0 + SplitFile(f).1 == f
  {
    if f != "" {
      SplitFileJoins(f[..|f| - 1]);
    }
  }

  lemma {:induction false} SplitFileAt(dir: string, name: string)
    requires SlashFree(name)
    ensures SplitFile(dir + "/" + name) == (dir + "/", name)
    decreases |name|
  {
    var f := dir + "/" + name;
    if name == "" {
      assert f == dir + "/" && f[|f| - 1] == '/';
    } else {
      var last := |name| - 1;
      assert f[..|f| - 1] == dir + "/" + name[..last] && f[|f| - 1] == name[last];
      SplitFileAt(dir, name[..last]);
      assert name[..last] + [name[last]] == name;
    }
  }

  /** The files by directory. */
  type ResourceMap = map<string, map<string, Bytes>>

  ghost predicate Grouping(files: map<string, Bytes>, rm: ResourceMap) {
    && (forall f {:trigger FileIn(files, rm, f)} :: f in files ==> FileIn(files, rm, f))
    && (forall dir, name {:trigger EntryOk(files, rm, dir, name)} :: EntryOk(files, rm, dir, name))
    && (forall dir {:trigger rm[dir]} :: dir in rm ==> rm[dir] != map[])
  }

  ghost predicate FileIn(files: map<string, Bytes>, rm: ResourceMap, f: string)
    requires f in files
  {
    var (dir, name) := SplitFile(f);
    dir in rm && name in rm[dir] && rm[dir][name] == files[f]
  }

  ghost predicate EntryOk(files: map<string, Bytes>, rm: ResourceMap, dir: string, name: string) {
    dir in rm && name in rm[dir] ==> dir + name in files && SplitFile(dir + name) == (dir, name)
  }

  method GetLocalResourceMap(files: map<string, Bytes>) returns (rm: ResourceMap)
    ensures Grouping(files, rm)
  {
    hide Grouping;
    rm := map[];
    var todo := files.Keys;
    ghost var sofar: map<string, Bytes> := map[];
    assert Grouping(sofar, rm) by { NoFiles(); }
    while todo != {}
      invariant files.Keys == sofar.Keys + todo && sofar.Keys !! todo
      invariant forall f :: f in sofar ==> sofar[f] == files[f]
      invariant Grouping(sofar, rm)
    {
      var f :| f in todo;
      rm := AddFile(rm, f, files[f], sofar);
      todo, sofar := todo - {f}, sofar[f := files[f]];
    }
    assert sofar == files;
  }

  lemma NoFiles()
    ensures Grouping(map[], map[])
  {
  }

  method AddFile(rm: ResourceMap, f: string, content: Bytes, ghost sofar: map<string, Bytes>) returns (rm': ResourceMap)
    requires Grouping(sofar, rm) && f !in sofar
    ensures Grouping(sofar[f := content], rm')
  {
    var (dir, name) := SplitFile(f);
    var files := map[];
    if dir in rm {
      files := rm[dir];
    }
    rm' := rm[dir := files[name := content]];
    FileAdded(rm, f, content, sofar, files, rm');
  }

  lemma FileAdded(
    rm: ResourceMap, f: string, content: Bytes, sofar: map<string, Bytes>, files: map<string, Bytes>, rm': ResourceMap)
    requires Grouping(sofar, rm) && f !in sofar
    requires var (dir, name) := SplitFile(f);
             && files == (if dir in rm then rm[dir] else map[])
             && rm' == rm[dir := files[name := content]]
    ensures Grouping(sofar[f := content], rm')
  {
    hide SplitFile;
    var (dir, name) := SplitFile(f);
    var more := sofar[f := content];
    SplitFileJoins(f);
    forall g | g in more
      ensures FileIn(more, rm', g)
    {
      SplitFileJoins(g);
      assert g in sofar ==> FileIn(sofar, rm, g);
    }
    forall d, n
      ensures EntryOk(more, rm', d, n)
    {
      assert EntryOk(sofar, rm, d, n);
    }
    forall d | d in rm'
      ensures rm'[d] != map[]
    {
      if d == dir {
        assert name in rm'[d];
      }
    }
  }

  // ---- What is read represents the leaves

  function DirKey(base: Dir, q: Path): string {
    Show(DirOf(base, q)) + "/"
  }

  ghost function EntryOf(c: Codec, q: Path, p: Payload): map<string, Bytes>
    requires IsLeaf(q) && Writable(p)
  {
    map[ObjectName(q[4], JSON_KIND) := c.encode(p.definition.value),
        METADATA_FILE := c.encodeMetadata(p.metadata.value)]
  }

  ghost predicate Represents(c: Codec, base: Dir, leaves: map<Path, Payload>, rm: ResourceMap) {
    && Storable(leaves)
    && (forall q :: q in leaves ==> DirKey(base, q) in rm && rm[DirKey(base, q)] == EntryOf(c, q, leaves[q]))
    && (forall dir :: dir in rm ==> exists q :: q in leaves && dir == DirKey(base, q))
  }

  lemma SplitText(base: Dir, q: Path, x: string)
    requires IsLeaf(q) && SlashFree(x)
    ensures Text(base, DirNames(q) + [x]) == DirKey(base, q) + x
    ensures SplitFile(Text(base, DirNames(q) + [x])) == (DirKey(base, q), x)
  {
    var names := base.names + DirNames(q);
    assert base.names + (DirNames(q) + [x]) == names + [x];
    IntercalateSnoc(names, x);
    SplitFileAt(Show(DirOf(base, q)), x);
  }

  lemma DirKeyInjective(base: Dir, p: Path, q: Path)
    requires Canonical(base) && IsLeaf(p) && IsLeaf(q) && ValidNames(p) && ValidNames(q)
    requires DirKey(base, p) == DirKey(base, q)
    ensures p == q
  {
    var a, b := Show(DirOf(base, p)), Show(DirOf(base, q));
    assert a == (a + "/")[..|a|] && b == (b + "/")[..|b|];
    DirectoriesAreApart(base, p, q);
  }

  lemma LeafFilesSplit(c: Codec, base: Dir, q: Path)
    requires IsLeaf(q) && ValidNames(q)
    ensures SplitFile(Text(base, FileNames(q))) == (DirKey(base, q), ObjectName(q[4], JSON_KIND))
    ensures SplitFile(Text(base, MetadataNames(q))) == (DirKey(base, q), METADATA_FILE)
    ensures ObjectName(q[4], JSON_KIND) != METADATA_FILE
  {
    JsonNameIsNormal(q[4]);
    LeafNameNormal(q);
    SplitText(base, q, ObjectName(q[4], JSON_KIND));
    SplitText(base, q, METADATA_FILE);
  }

  lemma UnPacked(a: Archive, base: Dir, n: seq<string>)
    requires Canonical(base) && (forall m :: m in a ==> forall x :: x in m ==> Normal(x)) && n in a
    ensures Text(base, n) in UnPack(a, base) && UnPack(a, base)[Text(base, n)] == a[n]
  {
    forall m | m in a && Text(base, m) == Text(base, n)
      ensures m == n
    {
      TextInjective(base, m, n);
    }
  }

  /** Reading an unpacked archive gives one entry for each leaf. */
  lemma ReadRepresents(c: Codec, base: Dir, leaves: map<Path, Payload>, a: Archive, rm: ResourceMap)
    requires Canonical(base) && Holds(c, a, leaves)
    requires forall n :: n in a ==> forall x :: x in n ==> Normal(x)
    requires Grouping(UnPack(a, base), rm)
    ensures Represents(c, base, leaves, rm)
  {
    hide UnPack, DirKey, ValidNames, Canonical, Normal, Grouping, EntryOf;
    forall q | q in leaves
      ensures DirKey(base, q) in rm && rm[DirKey(base, q)] == EntryOf(c, q, leaves[q])
    {
      ReadEntry(c, base, leaves, a, rm, q);
    }
    forall dir | dir in rm
      ensures exists q :: q in leaves && dir == DirKey(base, q)
    {
      var q := ReadDirOf(c, base, leaves, a, rm, dir);
    }
  }

  lemma ReadDirOf(c: Codec, base: Dir, leaves: map<Path, Payload>, a: Archive, rm: ResourceMap, dir: string)
    returns (q: Path)
    requires Canonical(base) && Holds(c, a, leaves) && dir in rm
    requires forall n :: n in a ==> forall x :: x in n ==> Normal(x)
    requires Grouping(UnPack(a, base), rm)
    ensures q in leaves && IsLeaf(q) && ValidNames(q) && dir == DirKey(base, q)
  {
    hide Text, UnPack, SplitFile, DirKey, FileNames, MetadataNames, ValidNames, Canonical, Normal;
    assert rm[dir] != map[];
    var name :| name in rm[dir];
    q := ReadFrom(c, base, leaves, a, rm, dir, name);
  }

  lemma ReadFrom(
    c: Codec, base: Dir, leaves: map<Path, Payload>, a: Archive, rm: ResourceMap, dir: string, name: string)
    returns (q: Path)
    requires Canonical(base) && Holds(c, a, leaves)
    requires forall n :: n in a ==> forall x :: x in n ==> Normal(x)
    requires Grouping(UnPack(a, base), rm) && dir in rm && name in rm[dir]
    ensures q in leaves && IsLeaf(q) && dir == DirKey(base, q)
    ensures name == ObjectName(q[4], JSON_KIND) || name == METADATA_FILE
  {
    hide SplitFile, DirKey, FileNames, MetadataNames, ValidNames, Canonical, Normal;
    assert EntryOk(UnPack(a, base), rm, dir, name);
    var n :| n in a && Text(base, n) == dir + name;
    q :| q in leaves && (n == FileNames(q) || n == MetadataNames(q));
    LeafFilesSplit(c, base, q);
  }

  lemma ReadEntry(c: Codec, base: Dir, leaves: map<Path, Payload>, a: Archive, rm: ResourceMap, q: Path)
    requires Canonical(base) && Holds(c, a, leaves) && q in leaves
    requires forall n :: n in a ==> forall x :: x in n ==> Normal(x)
    requires Grouping(UnPack(a, base), rm)
    ensures DirKey(base, q) in rm && rm[DirKey(base, q)] == EntryOf(c, q, leaves[q])
  {
    hide Text, UnPack, SplitFile, DirKey, FileNames, MetadataNames, ValidNames, Canonical, Normal;
    ReadFiles(c, base, leaves, a, rm, q);
    hide Grouping, Holds, EntryOf, ObjectName, Writable;
    var dir := DirKey(base, q);
    forall name | name in rm[dir]
      ensures name == ObjectName(q[4], JSON_KIND) || name == METADATA_FILE
    {
      var r := ReadFrom(c, base, leaves, a, rm, dir, name);
      DirKeyInjective(base, q, r);
    }
    EntryIs(c, q, leaves[q], rm[dir]);
  }

  lemma EntryIs(c: Codec, q: Path, p: Payload, entry: map<string, Bytes>)
    requires IsLeaf(q) && ValidNames(q) && Writable(p)
    requires forall name :: name in entry <==> name == ObjectName(q[4], JSON_KIND) || name == METADATA_FILE
    requires entry[METADATA_FILE] == c.encodeMetadata(p.metadata.value)
    requires entry[ObjectName(q[4], JSON_KIND)] == c.encode(p.definition.value)
    ensures entry == EntryOf(c, q, p)
  {
    JsonNameIsNormal(q[4]);
  }

  lemma ReadFiles(c: Codec, base: Dir, leaves: map<Path, Payload>, a: Archive, rm: ResourceMap, q: Path)
    requires Canonical(base) && Holds(c, a, leaves) && q in leaves
    requires forall n :: n in a ==> forall x :: x in n ==> Normal(x)
    requires Grouping(UnPack(a, base), rm)
    ensures IsLeaf(q) && ValidNames(q) && Writable(leaves[q]) && DirKey(base, q) in rm
    ensures var entry := rm[DirKey(base, q)];
            && ObjectName(q[4], JSON_KIND) in entry && METADATA_FILE in entry
            && entry[ObjectName(q[4], JSON_KIND)] == c.encode(leaves[q].definition.value)
            && entry[METADATA_FILE] == c.encodeMetadata(leaves[q].metadata.value)
  {
    hide Text, UnPack, SplitFile, DirKey, FileNames, MetadataNames, ValidNames, Canonical, Normal;
    var files := UnPack(a, base);
    UnPacked(a, base, FileNames(q));
    UnPacked(a, base, MetadataNames(q));
    LeafFilesSplit(c, base, q);
    assert FileIn(files, rm, Text(base, FileNames(q))) && FileIn(files, rm, Text(base, MetadataNames(q)));
  }
}
