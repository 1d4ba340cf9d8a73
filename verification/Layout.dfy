/** Where the files of a stored tree lie: one directory for each object, whose path is read
    off the tree as group_version/resource/namespace/name. */
module Layout {
  import opened ResourceTree
  import opened Paths

  const JSON_KIND := "json"
  const METADATA_FILE := "metadata"

  /** Names as Kubernetes allows them, as far as the layout depends on it: the group may be
      empty but has no underscore, and no name is a path by itself. */
  predicate ValidNames(p: Path) {
    && (|p| > 0 ==> SlashFree(p[0]) && '_' !in p[0])
    && forall i :: 1 <= i < |p| ==> Normal(p[i])
  }

  /** The names of the directories on the way to a node. */
  function DirNames(p: Path): seq<string> {
    if p == [] then []
    else if |p| == 1 then [p[0] + "_"]
    else [p[0] + "_" + p[1]] + p[2..]
  }

  function DirOf(base: Dir, p: Path): Dir {
    Dir(base.rooted, base.names + DirNames(p))
  }

  function FileNames(q: Path): seq<string>
    requires IsLeaf(q)
  {
    DirNames(q) + [ObjectName(q[4], JSON_KIND)]
  }

  function MetadataNames(q: Path): seq<string>
    requires IsLeaf(q)
  {
    DirNames(q) + [METADATA_FILE]
  }

  /** Where the two files of an object lie in an archive. */
  lemma FilesSay(q: Path)
    requires IsLeaf(q)
    ensures |q| == 5
    ensures FileNames(q) == [q[0] + "_" + q[1], q[2], q[3], q[4], q[4] + ".json"]
    ensures MetadataNames(q) == [q[0] + "_" + q[1], q[2], q[3], q[4], "metadata"]
  {
    assert q[2..] == [q[2], q[3], q[4]];
    assert q[4] + "." + JSON_KIND == q[4] + ".json";
  }

  /** The directory of a child, from the text of its parent's directory. */
  function ChildDir(kind: Kind, dir: string, name: string): string {
    match kind
    case RootKind => DirPath([dir, name + "_"])
    case GroupKind => dir + name
    case _ => DirPath([dir, name])
  }

  // ---- Text and names

  lemma DirPathOfPair(a: string, b: string)
    requires a != "" && Clean(a) == a
    ensures DirPath([a, b]) == Join(a, b)
  {
    assert [a, b][..1] == [a] && [a][..0] == [];
    assert DirPath([a]) == Join("", a);
  }

  lemma ShowNotEmpty(d: Dir)
    requires Canonical(d)
    ensures Show(d) != "" && Clean(Show(d)) == Show(d)
  {
    ParseShow(d);
    if !d.rooted && d.names != [] {
      assert d.names[0] in d.names;
    }
  }

  lemma {:induction false} IntercalateLast(names: seq<string>, x: string, y: string)
    ensures Intercalate(names + [x]) + y == Intercalate(names + [x + y])
  {
    if names == [] {
      assert [] + [x] == [x] && [] + [x + y] == [x + y];
    } else {
      assert (names + [x])[1..] == names[1..] + [x];
      assert (names + [x + y])[1..] == names[1..] + [x + y];
      IntercalateLast(names[1..], x, y);
    }
  }

  /** Text glued to a path goes to its last name. */
  lemma ShowGlue(rooted: bool, names: seq<string>, x: string, y: string)
    ensures Show(Dir(rooted, names + [x])) + y == Show(Dir(rooted, names + [x + y]))
  {
    IntercalateLast(names, x, y);
  }

  lemma UnderscoreIsNormal(g: string, v: string)
    requires SlashFree(g) && SlashFree(v)
    ensures Normal(g + "_" + v) && Normal(g + "_")
  {
    assert (g + "_" + v)[|g|] == '_' && (g + "_")[|g|] == '_';
  }

  lemma JsonNameIsNormal(name: string)
    requires Normal(name)
    ensures Normal(ObjectName(name, JSON_KIND)) && ObjectName(name, JSON_KIND) != METADATA_FILE
  {
    var s := ObjectName(name, JSON_KIND);
    assert |s| == |name| + 5 && s[|s| - 1] == 'n';
    assert METADATA_FILE[|METADATA_FILE| - 1] == 'a';
    assert Normal(METADATA_FILE);
  }

  lemma NamesAreNormal(p: Path)
    requires ValidNames(p)
    ensures forall n :: n in DirNames(p) ==> Normal(n)
  {
    if |p| == 1 {
      UnderscoreIsNormal(p[0], "");
    } else if |p| >= 2 {
      UnderscoreIsNormal(p[0], p[1]);
      forall n | n in p[2..]
        ensures Normal(n)
      {
        var i :| 0 <= i < |p[2..]| && p[2..][i] == n;
        assert n == p[i + 2];
      }
    }
  }

  lemma AppendNormal(d: Dir, names: seq<string>)
    requires Canonical(d) && forall n :: n in names ==> Normal(n)
    ensures Canonical(Dir(d.rooted, d.names + names))
  {
    var all := d.names + names;
    forall i | |d.names| <= i < |all|
      ensures all[i] != ".."
    {
      assert all[i] == names[i - |d.names|];
      assert names[i - |d.names|] in names;
    }
  }

  /** The text that the writer computes on its way down is the path of the directory. */
  lemma ChildDirText(base: Dir, p: Path, name: string, kind: Kind)
    requires Canonical(base) && ValidNames(Kid(p, name)) && |p| < OBJECT_DEPTH && kind == KindAt(|p|)
    ensures ChildDir(kind, Show(DirOf(base, p)), name) == Show(DirOf(base, Kid(p, name)))
  {
    hide Show, Canonical, Normal;
    var kid := Kid(p, name);
    assert kid[..|p|] == p && kid[|p|] == name;
    assert ValidNames(p);
    NamesAreNormal(p);
    AppendNormal(base, DirNames(p));
    var d := DirOf(base, p);
    if |p| == 0 {
      UnderscoreIsNormal(name, "");
      ChildOfDir(d, name + "_");
      assert d.names + [name + "_"] == base.names + DirNames(kid);
    } else if |p| == 1 {
      ShowGlue(base.rooted, base.names, p[0] + "_", name);
      assert DirNames(kid) == [p[0] + "_" + name];
    } else {
      ChildOfDir(d, name);
      assert kid[2..] == p[2..] + [name];
      assert d.names + [name] == base.names + DirNames(kid);
    }
  }

  lemma ChildOfDir(d: Dir, name: string)
    requires Canonical(d) && Normal(name)
    ensures DirPath([Show(d), name]) == Show(Dir(d.rooted, d.names + [name]))
  {
    hide Show, Canonical, Normal;
    ShowNotEmpty(d);
    JoinName(d, name);
    DirPathOfPair(Show(d), name);
  }

  // ---- Distinct objects never meet

  lemma {:induction false} SplitAtUnderscore(g1: string, v1: string, g2: string, v2: string)
    requires '_' !in g1 && '_' !in g2 && g1 + "_" + v1 == g2 + "_" + v2
    ensures g1 == g2 && v1 == v2
  {
    var s := g1 + "_" + v1;
    assert s[|g1|] == '_' && s[|g2|] == '_';
    assert s[..|g1|] == g1 && s[..|g2|] == g2;
    assert s[|g1| + 1..] == v1 && s[|g2| + 1..] == v2;
  }

  lemma DirNamesInjective(p: Path, q: Path)
    requires IsLeaf(p) && IsLeaf(q) && ValidNames(p) && ValidNames(q) && DirNames(p) == DirNames(q)
    ensures p == q
  {
    assert DirNames(p)[0] == DirNames(q)[0];
    SplitAtUnderscore(p[0], p[1], q[0], q[1]);
    assert p[2..] == DirNames(p)[1..] && q[2..] == DirNames(q)[1..];
    assert p == [p[0], p[1]] + p[2..] && q == [q[0], q[1]] + q[2..];
  }

  /** Distinct objects have distinct directories, none inside another, and in a directory
      the definition and the metadata are two files. */
  lemma DirectoriesAreApart(base: Dir, p: Path, q: Path)
    requires Canonical(base) && IsLeaf(p) && IsLeaf(q) && ValidNames(p) && ValidNames(q)
    ensures Show(DirOf(base, p)) == Show(DirOf(base, q)) ==> p == q
    ensures DirOf(base, p).names <= DirOf(base, q).names ==> p == q
    ensures FileNames(p) != MetadataNames(q)
    ensures FileNames(p) == FileNames(q) || MetadataNames(p) == MetadataNames(q) ==> p == q
  {
    NamesAreNormal(p);
    NamesAreNormal(q);
    AppendNormal(base, DirNames(p));
    AppendNormal(base, DirNames(q));
    JsonNameIsNormal(p[4]);
    if Show(DirOf(base, p)) == Show(DirOf(base, q)) {
      ShowInjective(DirOf(base, p), DirOf(base, q));
      assert DirNames(p) == DirOf(base, p).names[|base.names|..] == DirNames(q);
      DirNamesInjective(p, q);
    }
    if DirOf(base, p).names <= DirOf(base, q).names {
      assert DirNames(p) == DirOf(base, p).names[|base.names|..] == DirOf(base, q).names[|base.names|..] == DirNames(q);
      DirNamesInjective(p, q);
    }
    assert FileNames(p)[4] != MetadataNames(q)[4];
    assert FileNames(p)[..4] == MetadataNames(p)[..4] == DirNames(p);
    assert FileNames(q)[..4] == MetadataNames(q)[..4] == DirNames(q);
    if FileNames(p) == FileNames(q) || MetadataNames(p) == MetadataNames(q) {
      DirNamesInjective(p, q);
    }
  }
}
