/** Slash-separated paths, joined and cleaned as Go's package `path` does. */
module Paths {
  /** A cleaned path: absolute or not, and the names on the way. */
  datatype Dir = Dir(rooted: bool, names: seq<string>)

  predicate SlashFree(s: string) {
    '/' !in s
  }

  /** A string that names one file or directory. */
  predicate Normal(s: string) {
    s != "" && s != "." && s != ".." && SlashFree(s)
  }

  function Split(s: string): (parts: seq<string>)
    ensures parts != []
  {
    if s == "" then [""]
    else if s[0] == '/' then [""] + Split(s[1..])
    else var rest := Split(s[1..]); [[s[0]] + rest[0]] + rest[1..]
  }

  function Intercalate(parts: seq<string>): string {
    if parts == [] then ""
    else if |parts| == 1 then parts[0]
    else parts[0] + "/" + Intercalate(parts[1..])
  }

  /** One step of cleaning: empty and dot parts vanish, a double dot undoes a name. */
  function Push(rooted: bool, names: seq<string>, part: string): seq<string> {
    if part == "" || part == "." then names
    else if part != ".." then names + [part]
    else if names != [] && names[|names| - 1] != ".." then names[..|names| - 1]
    else if rooted then names
    else names + [part]
  }

  function PushAll(rooted: bool, names: seq<string>, parts: seq<string>): seq<string>
    decreases |parts|
  {
    if parts == [] then names else PushAll(rooted, Push(rooted, names, parts[0]), parts[1..])
  }

  predicate Rooted(s: string) {
    s != "" && s[0] == '/'
  }

  function Parse(s: string): Dir {
    Dir(Rooted(s), PushAll(Rooted(s), [], Split(s)))
  }

  function Show(d: Dir): string {
    if d.rooted then "/" + Intercalate(d.names)
    else if d.names == [] then "."
    else Intercalate(d.names)
  }

  function Clean(s: string): string {
    Show(Parse(s))
  }

  function Join(a: string, b: string): string {
    if a == "" && b == "" then ""
    else if a == "" then Clean(b)
    else Clean(a + "/" + b)
  }

  function DirPath(dirs: seq<string>): string {
    if dirs == [] then "" else Join(DirPath(dirs[..|dirs| - 1]), dirs[|dirs| - 1])
  }

  method GenerateDirPath(dirs: seq<string>) returns (dirRes: string)
    ensures dirRes == DirPath(dirs)
  {
    dirRes := "";
    for i := 0 to |dirs|
      invariant dirRes == DirPath(dirs[..i])
    {
      assert dirs[..i + 1][..i] == dirs[..i];
      dirRes := Join(dirRes, dirs[i]);
    }
    assert dirs[..|dirs|] == dirs;
  }

  function ObjectName(name: string, storageKind: string): string {
    name + "." + storageKind
  }

  lemma {:induction false} SplitAtSlash(a: string, b: string)
    ensures Split(a + "/" + b) == Split(a) + Split(b)
    decreases |a|
  {
    if a == "" {
      assert (a + "/" + b)[1..] == b;
    } else {
      assert (a + "/" + b)[1..] == a[1..] + "/" + b;
      SplitAtSlash(a[1..], b);
    }
  }

  lemma {:induction false} SplitName(s: string)
    requires SlashFree(s)
    ensures Split(s) == [s]
  {
    if s != "" {
      SplitName(s[1..]);
      assert [s[0]] + s[1..] == s;
    }
  }

  lemma {:induction false} SplitIntercalate(names: seq<string>)
    requires names != [] && forall n :: n in names ==> SlashFree(n)
    ensures Split(Intercalate(names)) == names
  {
    SplitName(names[0]);
    if |names| > 1 {
      SplitAtSlash(names[0], Intercalate(names[1..]));
      SplitIntercalate(names[1..]);
    }
  }

  lemma {:induction false} PushAllConcat(rooted: bool, names: seq<string>, a: seq<string>, b: seq<string>)
    ensures PushAll(rooted, names, a + b) == PushAll(rooted, PushAll(rooted, names, a), b)
    decreases |a|
  {
    if a == [] {
      assert a + b == b;
    } else {
      assert (a + b)[1..] == a[1..] + b;
      PushAllConcat(rooted, Push(rooted, names, a[0]), a[1..], b);
    }
  }

  /** The rules of cleaning inside of a path: double slashes, dots, and names that are undone. */
  lemma CleanInside(a: string, name: string, b: string)
    requires Normal(name)
    ensures Clean(a + "//" + b) == Clean(a + "/" + b)
    ensures Clean(a + "/./" + b) == Clean(a + "/" + b)
    ensures Clean(a + "/" + name + "/../" + b) == Clean(a + "/" + b)
  {
    forall rooted, names
      ensures PushAll(rooted, names, [""]) == names && PushAll(rooted, names, ["."]) == names
      ensures PushAll(rooted, names, [name, ".."]) == names
    {
      PushNothing(rooted, names, name);
    }
    assert a + "/" + "" + "/" + b == a + "//" + b;
    assert a + "/" + "." + "/" + b == a + "/./" + b;
    assert [name, ".."][1..] == [".."];
    assert a + "/" + (name + "/" + "..") + "/" + b == a + "/" + name + "/../" + b;
    hide *;
    CleanWithout(a, [""], "", b);
    CleanWithout(a, ["."], ".", b);
    CleanWithout(a, [name, ".."], name + "/" + "..", b);
  }

  /** And at its ends. */
  lemma CleanEnds(a: string, name: string, b: string)
    requires Normal(name)
    ensures a != "" ==> Clean(a + "/") == Clean(a)
    ensures Clean("/../" + b) == Clean("/" + b)
    ensures b == "" || b[0] != '/' ==> Clean("./" + b) == Clean(b) && Clean(name + "/../" + b) == Clean(b)
    ensures Clean("") == "." && Clean("/") == "/"
  {
    PushNothing(false, [], name);
    assert [name, ".."][1..] == [".."] && Intercalate([name, ".."]) == name + "/" + "..";
    assert name + "/" + ".." == name + "/..";
    hide Clean, Split, PushAll, Normal;
    CleanTail(a, name);
    CleanRoot(b);
    if b == "" || b[0] != '/' {
      CleanFront(["."], ".", b);
      CleanFront([name, ".."], name + "/..", b);
      assert "." + "/" + b == "./" + b && name + "/.." + "/" + b == name + "/../" + b;
    }
    ParseShowNone(Dir(true, []));
  }

  lemma CleanTail(a: string, name: string)
    requires Normal(name)
    ensures a != "" ==> Clean(a + "/") == Clean(a)
    ensures Clean("") == "." && Clean("/") == "/"
  {
    SplitAtSlash(a, "");
    assert a + "/" + "" == a + "/";
    PushAllConcat(Rooted(a), [], Split(a), [""]);
    PushNothing(Rooted(a), PushAll(Rooted(a), [], Split(a)), name);
    PushNothing(false, [], name);
    ParseShowNone(Dir(true, []));
  }

  lemma CleanRoot(b: string)
    ensures Clean("/../" + b) == Clean("/" + b)
  {
    var y := Split(b);
    var s := "../" + b;
    assert "/../" + b == ['/'] + s && "/" + b == ['/'] + b && (['/'] + s)[1..] == s && (['/'] + b)[1..] == b;
    SplitName("..");
    SplitAtSlash("..", b);
    assert ".." + "/" + b == s;
    assert Split("/../" + b) == [""] + ([".."] + y) && Split("/" + b) == [""] + y;
    PushAllConcat(true, [], [""], [".."] + y);
    PushAllConcat(true, [], [".."], y);
    PushAllConcat(true, [], [""], y);
    PushNothing(true, [], "x");
    assert PushAll(true, [], [".."]) == PushAll(true, Push(true, [], ".."), []) == [];
  }

  lemma CleanFront(parts: seq<string>, text: string, b: string)
    requires parts != [] && Intercalate(parts) == text && forall p :: p in parts ==> SlashFree(p)
    requires PushAll(false, [], parts) == [] && !Rooted(text) && text != "" && !Rooted(b)
    ensures Clean(text + "/" + b) == Clean(b)
  {
    SplitParts(parts, text, b);
    PushAllConcat(false, [], parts, Split(b));
  }

  lemma SplitParts(parts: seq<string>, text: string, b: string)
    requires parts != [] && Intercalate(parts) == text && forall p :: p in parts ==> SlashFree(p)
    ensures Split(text + "/" + b) == parts + Split(b)
  {
    SplitAtSlash(text, b);
    SplitIntercalate(parts);
  }

  lemma PushNothing(rooted: bool, names: seq<string>, name: string)
    requires Normal(name)
    ensures PushAll(rooted, names, [""]) == names && PushAll(rooted, names, ["."]) == names
    ensures PushAll(rooted, names, [name, ".."]) == names
  {
    assert [name, ".."][1..] == [".."] && [""][1..] == [] && ["."][1..] == [] && [".."][1..] == [];
    assert (names + [name])[..|names|] == names;
  }

  /** Parts that come to nothing can be left out. */
  lemma CleanWithout(a: string, parts: seq<string>, text: string, b: string)
    requires parts != [] && Intercalate(parts) == text && forall p :: p in parts ==> SlashFree(p)
    requires forall rooted, names :: PushAll(rooted, names, parts) == names
    ensures Clean(a + "/" + text + "/" + b) == Clean(a + "/" + b)
  {
    var rooted := Rooted(a + "/" + b);
    var names := PushAll(rooted, [], Split(a));
    assert a + "/" + text + "/" + b == a + "/" + (text + "/" + b);
    SplitAtSlash(a, text + "/" + b);
    SplitAtSlash(a, b);
    SplitParts(parts, text, b);
    PushAllConcat(rooted, [], Split(a), parts + Split(b));
    PushAllConcat(rooted, names, parts, Split(b));
    PushAllConcat(rooted, [], Split(a), Split(b));
  }

  lemma {:induction false} PushAllNormal(rooted: bool, names: seq<string>, parts: seq<string>)
    requires forall p :: p in parts ==> Normal(p)
    ensures PushAll(rooted, names, parts) == names + parts
    decreases |parts|
  {
    if parts != [] {
      assert forall p :: p in parts[1..] ==> p in parts;
      assert Normal(parts[0]);
      PushAllNormal(rooted, names + [parts[0]], parts[1..]);
      assert names + parts == (names + [parts[0]]) + parts[1..];
    }
  }

  /** What cleaning leaves behind: double dots only in front of a relative path. */
  predicate Canonical(d: Dir) {
    && (forall n :: n in d.names ==> n == ".." || Normal(n))
    && (forall i :: 0 <= i < |d.names| && d.names[i] == ".." ==>
         !d.rooted && forall j :: 0 <= j < i ==> d.names[j] == "..")
  }

  lemma {:induction false} PushAllIsCanonical(rooted: bool, names: seq<string>, parts: seq<string>)
    requires Canonical(Dir(rooted, names)) && forall p :: p in parts ==> SlashFree(p)
    ensures Canonical(Dir(rooted, PushAll(rooted, names, parts)))
    decreases |parts|
  {
    if parts != [] {
      assert forall p :: p in parts[1..] ==> p in parts;
      assert SlashFree(parts[0]);
      PushAllIsCanonical(rooted, Push(rooted, names, parts[0]), parts[1..]);
    }
  }

  lemma {:induction false} SplitIsSlashFree(s: string)
    ensures forall p :: p in Split(s) ==> SlashFree(p)
  {
    if s != "" {
      SplitIsSlashFree(s[1..]);
      var rest := Split(s[1..]);
      assert SlashFree(rest[0]);
    }
  }

  lemma ParseIsCanonical(s: string)
    ensures Canonical(Parse(s))
  {
    SplitIsSlashFree(s);
    PushAllIsCanonical(Rooted(s), [], Split(s));
  }

  lemma {:induction false} PushAllCanonical(d: Dir, i: nat)
    requires Canonical(d) && i <= |d.names|
    ensures PushAll(d.rooted, d.names[..i], d.names[i..]) == d.names
    decreases |d.names| - i
  {
    if i < |d.names| {
      assert d.names[i] in d.names;
      assert i > 0 ==> d.names[..i][i - 1] == d.names[i - 1];
      assert d.names[i] == ".." && i > 0 ==> d.names[i - 1] == "..";
      assert d.names[..i] + [d.names[i]] == d.names[..i + 1];
      assert d.names[i..][1..] == d.names[i + 1..];
      PushAllCanonical(d, i + 1);
    } else {
      assert d.names[..i] == d.names;
    }
  }

  lemma ParseShowNone(d: Dir)
    requires d.names == []
    ensures Parse(Show(d)) == d
  {
    assert d.rooted ==> Show(d) == "/";
    assert Split("/") == ["", ""] && PushAll(true, [], ["", ""]) == PushAll(true, [], [""]) == [];
    SplitName(".");
  }

  lemma ParseShow(d: Dir)
    requires Canonical(d)
    ensures Parse(Show(d)) == d
  {
    if d.names == [] {
      ParseShowNone(d);
    } else {
      PushAllCanonical(d, 0);
      hide Normal;
      forall n | n in d.names ensures SlashFree(n) { }
      assert d.names[0] in d.names;
      SplitIntercalate(d.names);
      if d.rooted {
        assert Show(d) == "" + "/" + Intercalate(d.names);
        SplitAtSlash("", Intercalate(d.names));
        assert Split(Show(d))[1..] == d.names;
      } else {
        assert Intercalate(d.names)[0] == d.names[0][0];
      }
    }
  }

  /** Joining to a clean path appends what the new part leaves after cleaning. */
  lemma JoinParts(d: Dir, part: string)
    requires Canonical(d)
    ensures Join(Show(d), part) == Show(Dir(d.rooted, PushAll(d.rooted, d.names, Split(part))))
  {
    ParseShow(d);
    SplitAtSlash(Show(d), part);
    assert Show(d) != "" by {
      if d.names != [] { assert d.names[0] in d.names; }
    }
    assert Rooted(Show(d) + "/" + part) == Rooted(Show(d)) == d.rooted;
    PushAllConcat(d.rooted, [], Split(Show(d)), Split(part));
  }

  lemma JoinName(d: Dir, name: string)
    requires Canonical(d) && Normal(name)
    ensures Canonical(Dir(d.rooted, d.names + [name]))
    ensures Join(Show(d), name) == Show(Dir(d.rooted, d.names + [name]))
  {
    JoinParts(d, name);
    SplitName(name);
    PushAllNormal(d.rooted, d.names, [name]);
  }

  lemma ShowInjective(a: Dir, b: Dir)
    requires Canonical(a) && Canonical(b) && Show(a) == Show(b)
    ensures a == b
  {
    ParseShow(a);
    ParseShow(b);
  }

  lemma {:induction false} IntercalateSnoc(names: seq<string>, x: string)
    requires names != []
    ensures Intercalate(names + [x]) == Intercalate(names) + "/" + x
  {
    if |names| == 1 {
      assert names + [x] == [names[0], x] && [names[0], x][1..] == [x];
    } else {
      assert (names + [x])[1..] == names[1..] + [x];
      IntercalateSnoc(names[1..], x);
      assert names[0] + "/" + (Intercalate(names[1..]) + "/" + x) == names[0] + "/" + Intercalate(names[1..]) + "/" + x;
    }
  }

  /** A further name is put behind a slash. */
  lemma ShowSnoc(d: Dir, x: string)
    requires d.names != []
    ensures Show(Dir(d.rooted, d.names + [x])) == Show(d) + "/" + x
  {
    IntercalateSnoc(d.names, x);
  }
}
