/** The remote store: archives under name/kind/tree, and the check that keeps a run from
    writing over the archive of an earlier one. */
module Archives {
  import opened Wrappers
  import opened Paths
  import opened Layout
  import opened Store

  datatype Blob = JsonArchive(files: Archive) | YamlArchive(files: Archive) | LogArchive(text: string)

  type Objects = map<string, Blob>

  const BACKUP_KIND := "backup"
  const RESTORE_KIND := "restore"
  const UPLOAD_KIND := "tar.gz"
  const JSON_ARCHIVE := "json.tar.gz"
  const YAML_ARCHIVE := "yaml.tar.gz"

  function RemoteDir(name: string, kind: string, tree: string): string {
    DirPath([name, kind, tree])
  }

  function RemotePrefix(name: string, kind: string): string {
    DirPath([name, kind]) + "/"
  }

  function JsonKey(name: string, kind: string, tree: string): string {
    DirPath([RemoteDir(name, kind, tree), ObjectName("json", UPLOAD_KIND)])
  }

  function YamlKey(name: string, kind: string, tree: string): string {
    DirPath([RemoteDir(name, kind, tree), ObjectName("yaml", UPLOAD_KIND)])
  }

  function LogKey(name: string, kind: string, tree: string): string {
    DirPath([RemoteDir(name, kind, tree), ObjectName(ObjectName(tree, "log"), UPLOAD_KIND)])
  }

  function StatusKey(name: string, kind: string, tree: string): string {
    DirPath([RemoteDir(name, kind, tree), ObjectName(ObjectName(tree + "-" + "status", "log"), UPLOAD_KIND)])
  }

  /** The tree name under which a restore is stored. */
  function RestoredName(time: string, tree: string): string {
    RESTORE_KIND + time + "-" + tree
  }

  // ---- Listing

  /** Up to and with the first slash, if there is one. */
  function FirstPart(s: string): string {
    if s == "" then "" else if s[0] == '/' then "/" else [s[0]] + FirstPart(s[1..])
  }

  /** What a listing with a delimiter groups the keys into. */
  function CommonPrefixes(keys: set<string>, prefix: string): set<string> {
    set k | k in keys && prefix <= k && '/' in k[|prefix|..] :: prefix + FirstPart(k[|prefix|..])
  }

  function WithoutSlashes(p: string): string {
    if p != "" && p[|p| - 1] == '/' then WithoutSlashes(p[..|p| - 1]) else p
  }

  /** The last name of a path. */
  function Base(p: string): string {
    if p == "" then "."
    else if WithoutSlashes(p) == "" then "/"
    else SplitFile(WithoutSlashes(p)).1
  }

  function Stored(keys: set<string>, name: string, kind: string): set<string> {
    set p | p in CommonPrefixes(keys, RemotePrefix(name, kind)) :: Base(p)
  }

  predicate Exists(keys: set<string>, name: string, kind: string, tree: string) {
    tree in Stored(keys, name, kind)
  }

  // ---- The check is exact for names that are names

  lemma {:induction false} FirstPartOf(name: string, rest: string)
    requires SlashFree(name)
    ensures FirstPart(name + "/" + rest) == name + "/"
    decreases |name|
  {
    var s := name + "/" + rest;
    if name == "" {
      assert s[0] == '/';
    } else {
      assert s[0] == name[0] && s[1..] == name[1..] + "/" + rest;
      FirstPartOf(name[1..], rest);
      assert [name[0]] + (name[1..] + "/") == name + "/";
    }
  }

  lemma {:induction false} FirstPartShape(s: string)
    requires '/' in s
    ensures exists name :: SlashFree(name) && FirstPart(s) == name + "/"
    decreases |s|
  {
    if s[0] == '/' {
      assert SlashFree("") && FirstPart(s) == "" + "/";
    } else {
      assert s == [s[0]] + s[1..];
      FirstPartShape(s[1..]);
      var name :| SlashFree(name) && FirstPart(s[1..]) == name + "/";
      assert SlashFree([s[0]] + name) && FirstPart(s) == ([s[0]] + name) + "/";
    }
  }

  lemma {:induction false} WithoutOwnSlash(s: string)
    ensures WithoutSlashes(s + "/") == WithoutSlashes(s)
    ensures s != "" && s[|s| - 1] != '/' ==> WithoutSlashes(s) == s
  {
    assert (s + "/")[..|s|] == s;
  }

  /** The last name of "dir/name/". */
  lemma BaseOf(dir: string, name: string)
    requires SlashFree(name) && name != ""
    ensures Base(dir + "/" + name + "/") == name && Base("") == "." && Base("/") == "/"
  {
    var s := dir + "/" + name;
    assert s[|s| - 1] == name[|name| - 1];
    WithoutOwnSlash(s);
    SplitFileAt(dir, name);
  }

  /** The directory that all trees of a cluster and kind lie in. */
  lemma KindDir(name: string, kind: string) returns (d: Dir)
    requires Normal(kind)
    ensures Canonical(d) && d.names != [] && d.names[|d.names| - 1] == kind && DirPath([name, kind]) == Show(d)
  {
    assert [name, kind][..1] == [name] && [name][..0] == [];
    assert DirPath([name]) == Join("", name);
    if name == "" {
      SplitName(kind);
      d := Dir(false, [kind]);
      assert PushAll(false, [], [kind]) == [kind];
      assert Join("", kind) == Show(d);
    } else {
      var up := Parse(name);
      ParseIsCanonical(name);
      JoinName(up, kind);
      d := Dir(up.rooted, up.names + [kind]);
    }
  }

  lemma RemoteDirIs(name: string, kind: string, tree: string, d: Dir)
    requires Canonical(d) && DirPath([name, kind]) == Show(d)
    ensures RemoteDir(name, kind, tree) == Join(Show(d), tree)
  {
    assert [name, kind, tree][..2] == [name, kind];
  }

  /** Where the files of a tree go when the tree name is a name. */
  lemma KeyIs(name: string, kind: string, tree: string, file: string) returns (d: Dir)
    requires Normal(kind) && Normal(tree) && Normal(file)
    ensures Canonical(d) && d.names != [] && d.names[|d.names| - 1] == kind && DirPath([name, kind]) == Show(d)
    ensures RemoteDir(name, kind, tree) == Show(d) + "/" + tree
    ensures DirPath([RemoteDir(name, kind, tree), file]) == Show(d) + "/" + tree + "/" + file
    ensures DirPath([RemoteDir(name, kind, tree), file]) == Show(Dir(d.rooted, d.names + [tree, file]))
    ensures Canonical(Dir(d.rooted, d.names + [tree, file]))
  {
    hide Show, Canonical, Join, DirPath, RemoteDir, Normal;
    d := KindDir(name, kind);
    RemoteDirIs(name, kind, tree, d);
    JoinName(d, tree);
    var e := Dir(d.rooted, d.names + [tree]);
    ShowNotEmpty(e);
    JoinName(e, file);
    DirPathOfPair(Show(e), file);
    ShowSnoc(d, tree);
    ShowSnoc(e, file);
    assert e.names + [file] == d.names + [tree, file];
  }

  /** Where the archives of a run are stored, character by character. */
  lemma KeysSay(name: string, kind: string, tree: string)
    requires Normal(name) && Normal(kind) && Normal(tree)
    ensures JsonKey(name, kind, tree) == name + "/" + kind + "/" + tree + "/json.tar.gz"
    ensures YamlKey(name, kind, tree) == name + "/" + kind + "/" + tree + "/yaml.tar.gz"
  {
    ArchiveNames();
    assert "/" + JSON_ARCHIVE == "/json.tar.gz" && "/" + YAML_ARCHIVE == "/yaml.tar.gz";
    hide *;
    KeysAre(name, kind, tree);
    FileOfRun(name, kind, tree, JSON_ARCHIVE);
    FileOfRun(name, kind, tree, YAML_ARCHIVE);
    Assoc(name + "/" + kind + "/" + tree, "/", JSON_ARCHIVE);
    Assoc(name + "/" + kind + "/" + tree, "/", YAML_ARCHIVE);
  }

  /** And its logs. */
  lemma LogKeysSay(name: string, kind: string, tree: string)
    requires Normal(name) && Normal(kind) && Normal(tree)
    ensures LogKey(name, kind, tree) == name + "/" + kind + "/" + tree + "/" + tree + ".log.tar.gz"
    ensures StatusKey(name, kind, tree) == name + "/" + kind + "/" + tree + "/" + tree + "-status.log.tar.gz"
  {
    LogText(tree);
    LogName(tree);
    LogName(tree + "-" + "status");
    hide *;
    KeysAre(name, kind, tree);
    FileOfRun(name, kind, tree, ObjectName(ObjectName(tree, "log"), UPLOAD_KIND));
    FileOfRun(name, kind, tree, ObjectName(ObjectName(tree + "-" + "status", "log"), UPLOAD_KIND));
    Assoc(name + "/" + kind + "/" + tree + "/", tree, ".log.tar.gz");
    Assoc(name + "/" + kind + "/" + tree + "/", tree, "-status.log.tar.gz");
  }

  /** The kinds of runs, and the name of a restored tree. */
  lemma KindsSay(time: string, tree: string)
    ensures BACKUP_KIND == "backup" && RESTORE_KIND == "restore"
    ensures RestoredName(time, tree) == "restore" + time + "-" + tree
  {
  }

  lemma LogText(tree: string)
    ensures ObjectName(ObjectName(tree, "log"), UPLOAD_KIND) == tree + ".log.tar.gz"
    ensures ObjectName(ObjectName(tree + "-" + "status", "log"), UPLOAD_KIND) == tree + "-status.log.tar.gz"
  {
    assert tree + "." + "log" + "." + "tar.gz" == tree + ("." + "log" + "." + "tar.gz");
    assert tree + "-" + "status" + "." + "log" + "." + "tar.gz"
        == tree + ("-" + "status" + "." + "log" + "." + "tar.gz");
  }

  lemma KeysAre(name: string, kind: string, tree: string)
    ensures var dir := RemoteDir(name, kind, tree);
            && JsonKey(name, kind, tree) == DirPath([dir, ObjectName("json", UPLOAD_KIND)])
            && YamlKey(name, kind, tree) == DirPath([dir, ObjectName("yaml", UPLOAD_KIND)])
            && LogKey(name, kind, tree) == DirPath([dir, ObjectName(ObjectName(tree, "log"), UPLOAD_KIND)])
            && StatusKey(name, kind, tree)
               == DirPath([dir, ObjectName(ObjectName(tree + "-" + "status", "log"), UPLOAD_KIND)])
  {
  }

  lemma DirOfRun(name: string, kind: string, tree: string)
    requires Normal(name) && Normal(kind) && Normal(tree)
    ensures DirPath([name, kind]) == name + "/" + kind
    ensures RemoteDir(name, kind, tree) == name + "/" + kind + "/" + tree
  {
    SplitName(name);
    PushAllNormal(false, [], [name]);
    var one, two := Dir(false, [name]), Dir(false, [name, kind]);
    assert Show(one) == name && Parse(name) == one;
    assert [name, kind][1..] == [kind] && Intercalate([kind]) == kind;
    assert Show(two) == name + "/" + kind;
    assert [name] + [kind] == [name, kind] && [name, kind] + [tree] == [name, kind, tree];
    JoinName(one, kind);
    DirPathOfPair(name, kind);
    RemoteDirIs(name, kind, tree, two);
    JoinName(two, tree);
    ShowSnoc(two, tree);
  }

  lemma FileOfRun(name: string, kind: string, tree: string, file: string)
    requires Normal(name) && Normal(kind) && Normal(tree) && Normal(file)
    ensures DirPath([RemoteDir(name, kind, tree), file]) == name + "/" + kind + "/" + tree + "/" + file
  {
    DirOfRun(name, kind, tree);
    var d := KeyIs(name, kind, tree, file);
  }

  /** The check finds a tree exactly when some file lies below its directory. */
  lemma ExistsIff(keys: set<string>, name: string, kind: string, tree: string)
    requires Normal(name) && Normal(kind) && Normal(tree) && CleanKeys(keys)
    ensures Exists(keys, name, kind, tree) <==> exists k :: k in keys && name + "/" + kind + "/" + tree + "/" <= k
  {
    hide Show, Canonical, FirstPart, Base, Clean, RemoteDir;
    var d := KindDir(name, kind);
    DirOfRun(name, kind, tree);
    hide DirPath, Normal;
    var prefix := RemotePrefix(name, kind);
    assert prefix == Show(d) + "/";
    if tree in Stored(keys, name, kind) {
      var p :| p in CommonPrefixes(keys, prefix) && Base(p) == tree;
      var part := PrefixPart(keys, d, p);
      BaseOf(Show(d), part);
      var k :| k in keys && prefix <= k && '/' in k[|prefix|..] && p == prefix + FirstPart(k[|prefix|..]);
      StartsWithPart(k, prefix, tree);
    }
    if k :| k in keys && name + "/" + kind + "/" + tree + "/" <= k {
      var rest := k[|prefix + tree + "/"|..];
      assert k == prefix + (tree + "/" + rest);
      assert k[|prefix|..] == tree + "/" + rest && (tree + "/" + rest)[|tree|] == '/';
      FirstPartOf(tree, rest);
      assert prefix + FirstPart(k[|prefix|..]) in CommonPrefixes(keys, prefix);
      assert prefix + (tree + "/") == Show(d) + "/" + tree + "/";
      BaseOf(Show(d), tree);
    }
  }

  lemma StartsWithPart(k: string, prefix: string, tree: string)
    requires prefix <= k && '/' in k[|prefix|..] && SlashFree(tree)
    requires prefix + FirstPart(k[|prefix|..]) == prefix + tree + "/"
    ensures prefix + tree + "/" <= k
  {
    var rest := k[|prefix|..];
    assert prefix + FirstPart(rest) == prefix + (tree + "/");
    assert FirstPart(rest) == (prefix + FirstPart(rest))[|prefix|..] == tree + "/";
    RestAfter(rest, tree);
    assert k == prefix + (tree + "/" + rest[|tree| + 1..]);
  }

  /** Any file under the directory of the tree makes the check find it. */
  lemma FoundIfThere(keys: set<string>, name: string, kind: string, tree: string, file: string)
    requires Normal(kind) && Normal(tree) && Normal(file)
    requires DirPath([RemoteDir(name, kind, tree), file]) in keys
    ensures Exists(keys, name, kind, tree)
  {
    hide Show, Canonical, RemoteDir, FirstPart, Base, Clean;
    var d := KeyIs(name, kind, tree, file);
    hide DirPath;
    var k := DirPath([RemoteDir(name, kind, tree), file]);
    var prefix := RemotePrefix(name, kind);
    assert k == prefix + (tree + "/" + file);
    assert k[|prefix|..] == tree + "/" + file && (tree + "/" + file)[|tree|] == '/';
    FirstPartOf(tree, file);
    assert prefix + FirstPart(k[|prefix|..]) in CommonPrefixes(keys, prefix);
    assert prefix + (tree + "/") == Show(d) + "/" + tree + "/";
    BaseOf(Show(d), tree);
  }

  /** Keys that the program writes are clean paths. */
  predicate CleanKeys(keys: set<string>) {
    forall k :: k in keys ==> Clean(k) == k
  }

  /** A tree name that is not a name is never found, although its archive may be there. */
  lemma NeverFound(keys: set<string>, name: string, kind: string, tree: string)
    requires Normal(kind) && !Normal(tree) && CleanKeys(keys)
    ensures !Exists(keys, name, kind, tree)
  {
    var d := KindDir(name, kind);
    forall p | p in CommonPrefixes(keys, RemotePrefix(name, kind))
      ensures Base(p) != tree
    {
      var part := PrefixPart(keys, d, p);
      BaseOf(Show(d), part);
    }
  }

  /** What a listing groups by is a name. */
  lemma PrefixPart(keys: set<string>, d: Dir, p: string) returns (part: string)
    requires Canonical(d) && d.names != [] && Normal(d.names[|d.names| - 1]) && CleanKeys(keys)
    requires p in CommonPrefixes(keys, Show(d) + "/")
    ensures Normal(part) && p == Show(d) + "/" + part + "/"
  {
    hide Show, Canonical, Clean, Normal;
    var prefix := Show(d) + "/";
    var k :| k in keys && prefix <= k && '/' in k[|prefix|..] && p == prefix + FirstPart(k[|prefix|..]);
    var rest := k[|prefix|..];
    assert k == prefix + rest;
    FirstPartShape(rest);
    part :| SlashFree(part) && FirstPart(rest) == part + "/";
    PartIsNormal(d, rest, part);
    assert prefix + (part + "/") == Show(d) + "/" + part + "/";
  }

  lemma {:induction false} RestAfter(s: string, part: string)
    requires '/' in s && SlashFree(part) && FirstPart(s) == part + "/"
    ensures |s| > |part| && s == part + "/" + s[|part| + 1..]
    decreases |s|
  {
    if s[0] == '/' {
      assert part == "" by { assert FirstPart(s) == "/"; assert |part + "/"| == 1; }
    } else {
      assert s == [s[0]] + s[1..];
      assert (part + "/")[0] == FirstPart(s)[0] == s[0];
      assert part != "" && part[0] == s[0];
      assert [s[0]] + FirstPart(s[1..]) == [s[0]] + (part[1..] + "/");
      assert FirstPart(s[1..]) == ([s[0]] + FirstPart(s[1..]))[1..] == part[1..] + "/";
      RestAfter(s[1..], part[1..]);
      assert s[1..][|part[1..]| + 1..] == s[|part| + 1..];
      assert [s[0]] + (part[1..] + "/" + s[|part| + 1..]) == part + "/" + s[|part| + 1..];
    }
  }

  lemma PartIsNormal(d: Dir, rest: string, part: string)
    requires Canonical(d) && d.names != [] && Normal(d.names[|d.names| - 1])
    requires '/' in rest && SlashFree(part) && FirstPart(rest) == part + "/"
    requires Clean(Show(d) + "/" + rest) == Show(d) + "/" + rest
    ensures Normal(part)
  {
    RestAfter(rest, part);
    var k := Show(d) + "/" + rest;
    var tail := rest[|part| + 1..];
    var before := if d.rooted then [""] + d.names else d.names;
    SplitName(part);
    SplitAtSlash(part, tail);
    SplitAtSlash(Show(d), rest);
    ShownSplit(d);
    assert Split(k) == before + ([part] + Split(tail));
    assert Split(k)[|before|] == part && Split(k)[|before| - 1] == d.names[|d.names| - 1];
    InCleanPath(k, |before|);
  }

  lemma CleanPathHasNames(k: string, i: nat)
    requires Clean(k) == k && 0 < i < |Split(k)| && Normal(Split(k)[i - 1])
    ensures Parse(k).names != []
  {
  }

  /** What follows a name in a clean path is a name. */
  lemma InCleanPath(k: string, i: nat)
    requires Clean(k) == k && 0 < i < |Split(k)| && Normal(Split(k)[i - 1])
    ensures Normal(Split(k)[i])
  {
    hide Normal, Split, Show;
    ParseIsCanonical(k);
    ParseShow(Parse(k));
    var names := Parse(k).names;
    CleanPathHasNames(k, i);
    ShownSplit(Parse(k));
    assert Split(k) == if Parse(k).rooted then [""] + names else names;
    assert Split(k)[i] in names;
  }

  /** The parts of the text of a clean path that has names. */
  lemma ShownSplit(d: Dir)
    requires Canonical(d) && d.names != []
    ensures Split(Show(d)) == if d.rooted then [""] + d.names else d.names
  {
    forall n | n in d.names ensures SlashFree(n) { }
    SplitIntercalate(d.names);
    if d.rooted {
      assert Show(d) == "" + "/" + Intercalate(d.names);
      SplitAtSlash("", Intercalate(d.names));
    }
  }

  /** When the archive of a tree is stored, the check finds it iff the tree name is one
      name: without a slash, and neither a dot nor a double dot. */
  lemma CheckIsExact(keys: set<string>, name: string, kind: string, tree: string)
    requires Normal(kind) && CleanKeys(keys)
    requires JsonKey(name, kind, tree) in keys || YamlKey(name, kind, tree) in keys
    ensures Exists(keys, name, kind, tree) <==> Normal(tree)
  {
    ArchiveNames();
    if Normal(tree) {
      if JsonKey(name, kind, tree) in keys {
        FoundIfThere(keys, name, kind, tree, JSON_ARCHIVE);
      } else {
        FoundIfThere(keys, name, kind, tree, YAML_ARCHIVE);
      }
    } else {
      NeverFound(keys, name, kind, tree);
    }
  }

  lemma ArchiveNames()
    ensures ObjectName("json", UPLOAD_KIND) == JSON_ARCHIVE && ObjectName("yaml", UPLOAD_KIND) == YAML_ARCHIVE
    ensures Normal(JSON_ARCHIVE) && Normal(YAML_ARCHIVE) && Normal(BACKUP_KIND) && Normal(RESTORE_KIND)
  {
  }

  // ---- Runs

  class ObjectStore {
    var objects: Objects
    const reliable: bool // whether calls can fail

    constructor (objects: Objects, reliable: bool)
      ensures this.objects == objects && this.reliable == reliable
    {
      this.objects, this.reliable := objects, reliable;
    }

    method UploadObject(key: string, body: Blob) returns (ok: bool)
      modifies this
      ensures objects == if ok then old(objects)[key := body] else old(objects)
      ensures reliable ==> ok
    {
      ok := reliable;
      if * {
        ok := true;
      }
      if ok {
        objects := objects[key := body];
      }
    }
  }

  /** The key names an archive of a tree, and not a log. */
  predicate IsArchiveKey(k: string) {
    var names := Parse(k).names;
    names != [] && names[|names| - 1] in {JSON_ARCHIVE, YAML_ARCHIVE}
  }

  /** No archive that was there has changed. */
  ghost predicate ArchivesKept(before: Objects, after: Objects) {
    forall k :: k in before && IsArchiveKey(k) ==> k in after && after[k] == before[k]
  }

  /** What is new or different lies in the directory. */
  ghost predicate ChangedOnlyIn(before: Objects, after: Objects, dir: string) {
    && before.Keys <= after.Keys
    && forall k :: k in after && (k !in before || before[k] != after[k]) ==> dir + "/" <= k
  }

  /** Uploads both archives, in any order, unless the tree is found. The archives of
      earlier runs are kept when the tree name is one name; the archive that a tree of another
      name has already is written over. */
  method UploadTree(store: ObjectStore, name: string, kind: string, tree: string, archive: Archive)
    returns (ok: bool)
    requires Normal(kind) && CleanKeys(store.objects.Keys) && tree != ""
    modifies store
    ensures ok ==> !Exists(old(store.objects).Keys, name, kind, tree)
    ensures ok ==> JsonKey(name, kind, tree) in store.objects
                   && store.objects[JsonKey(name, kind, tree)] == JsonArchive(archive)
    ensures ok ==> YamlKey(name, kind, tree) in store.objects
                   && store.objects[YamlKey(name, kind, tree)] == YamlArchive(archive)
    ensures store.reliable ==> (ok <==> !Exists(old(store.objects).Keys, name, kind, tree))
    ensures store.reliable && JsonKey(name, kind, tree) in old(store.objects) ==> (ok <==> !Normal(tree))
    ensures CleanKeys(store.objects.Keys)
    ensures Normal(tree) ==> ArchivesKept(old(store.objects), store.objects)
    ensures Normal(tree) ==> ChangedOnlyIn(old(store.objects), store.objects, RemoteDir(name, kind, tree))
  {
    hide IsArchiveKey, Exists, JsonKey, YamlKey, RemoteDir, Normal;
    ok := false;
    if JsonKey(name, kind, tree) in store.objects {
      CheckIsExact(store.objects.Keys, name, kind, tree);
    }
    if Exists(store.objects.Keys, name, kind, tree) {
      return;
    }
    var json, yaml := JsonKey(name, kind, tree), YamlKey(name, kind, tree);
    KeysAreClean(name, kind, tree);
    if Normal(tree) {
      ArchiveKeys(store.objects.Keys, name, kind, tree);
    }
    ghost var before := store.objects;
    ok := UploadBoth(store, json, yaml, archive);
    Uploaded(before, store.objects, json, yaml, name, kind, tree);
  }

  method UploadBoth(store: ObjectStore, json: string, yaml: string, archive: Archive) returns (ok: bool)
    requires json != yaml
    modifies store
    ensures ok ==> json in store.objects && store.objects[json] == JsonArchive(archive)
    ensures ok ==> yaml in store.objects && store.objects[yaml] == YamlArchive(archive)
    ensures store.reliable ==> ok
    ensures OnlyAt(old(store.objects), store.objects, {json, yaml})
  {
    if * {
      ok := store.UploadObject(json, JsonArchive(archive));
      if ok {
        ok := store.UploadObject(yaml, YamlArchive(archive));
      }
    } else {
      ok := store.UploadObject(yaml, YamlArchive(archive));
      if ok {
        ok := store.UploadObject(json, JsonArchive(archive));
      }
    }
  }

  /** Nothing has changed but what is stored under these keys. */
  ghost predicate OnlyAt(before: Objects, after: Objects, keys: set<string>) {
    && before.Keys <= after.Keys <= before.Keys + keys
    && forall k :: k in before && k !in keys ==> after[k] == before[k]
  }

  lemma Uploaded(
    before: Objects, after: Objects, json: string, yaml: string, name: string, kind: string, tree: string)
    requires CleanKeys(before.Keys) && OnlyAt(before, after, {json, yaml})
    requires Clean(json) == json && Clean(yaml) == yaml
    ensures CleanKeys(after.Keys)
    ensures json !in before && yaml !in before ==> ArchivesKept(before, after)
    ensures RemoteDir(name, kind, tree) + "/" <= json && RemoteDir(name, kind, tree) + "/" <= yaml ==>
              ChangedOnlyIn(before, after, RemoteDir(name, kind, tree))
  {
  }

  lemma RemoteDirIsClean(name: string, kind: string, tree: string) returns (d: Dir)
    requires Normal(kind)
    ensures Canonical(d) && RemoteDir(name, kind, tree) == Show(d)
  {
    var up := KindDir(name, kind);
    RemoteDirIs(name, kind, tree, up);
    JoinParts(up, tree);
    SplitIsSlashFree(tree);
    PushAllIsCanonical(up.rooted, up.names, Split(tree));
    d := Dir(up.rooted, PushAll(up.rooted, up.names, Split(tree)));
  }

  lemma KeysAreClean(name: string, kind: string, tree: string)
    requires Normal(kind)
    ensures var json, yaml := JsonKey(name, kind, tree), YamlKey(name, kind, tree);
            json != yaml && Clean(json) == json && Clean(yaml) == yaml
  {
    ArchiveNames();
    var d := RemoteDirIsClean(name, kind, tree);
    hide Show, Normal, RemoteDir, DirPath, Canonical, Join, Clean;
    ShowNotEmpty(d);
    DirPathOfPair(Show(d), JSON_ARCHIVE);
    DirPathOfPair(Show(d), YAML_ARCHIVE);
    JoinName(d, JSON_ARCHIVE);
    JoinName(d, YAML_ARCHIVE);
    var json, yaml := Dir(d.rooted, d.names + [JSON_ARCHIVE]), Dir(d.rooted, d.names + [YAML_ARCHIVE]);
    ShowNotEmpty(json);
    ShowNotEmpty(yaml);
    assert json.names[|d.names|] != yaml.names[|d.names|];
    if Show(json) == Show(yaml) {
      ShowInjective(json, yaml);
    }
  }

  /** Where the archives of a tree go, whatever the tree is called. */
  lemma JsonKeyShape(name: string, kind: string, tree: string)
    requires Normal(kind)
    ensures IsArchiveKey(JsonKey(name, kind, tree)) && IsArchiveKey(YamlKey(name, kind, tree))
  {
    ArchiveNames();
    var d := RemoteDirIsClean(name, kind, tree);
    hide Show, Normal, RemoteDir, DirPath, Canonical, Join, Clean;
    ShowNotEmpty(d);
    DirPathOfPair(Show(d), JSON_ARCHIVE);
    JoinName(d, JSON_ARCHIVE);
    ParseShow(Dir(d.rooted, d.names + [JSON_ARCHIVE]));
    DirPathOfPair(Show(d), YAML_ARCHIVE);
    JoinName(d, YAML_ARCHIVE);
    ParseShow(Dir(d.rooted, d.names + [YAML_ARCHIVE]));
  }

  /** The check misses the archive of a tree whose name has a slash, and a run of the same name
      writes over it. */
  method SlashedNameIsOverwritten(store: ObjectStore, name: string, first: Archive, second: Archive)
    returns (ghost between: Objects)
    requires store.reliable && CleanKeys(store.objects.Keys) && first != second
    modifies store
    ensures var key := JsonKey(name, BACKUP_KIND, "a/b");
            && key in between && between[key] == JsonArchive(first) && IsArchiveKey(key)
            && key in store.objects && store.objects[key] == JsonArchive(second)
    ensures !ArchivesKept(between, store.objects)
  {
    assert "a/b"[1] == '/';
    assert !Normal("a/b");
    ArchiveNames();
    NeverFound(store.objects.Keys, name, BACKUP_KIND, "a/b");
    hide Exists, JsonKey, YamlKey, RemoteDir, Normal, IsArchiveKey, CleanKeys;
    var ok := UploadTree(store, name, BACKUP_KIND, "a/b", first);
    between := store.objects;
    NeverFound(store.objects.Keys, name, BACKUP_KIND, "a/b");
    ok := UploadTree(store, name, BACKUP_KIND, "a/b", second);
    JsonKeyShape(name, BACKUP_KIND, "a/b");
  }

  lemma ArchiveKeys(keys: set<string>, name: string, kind: string, tree: string)
    requires Normal(kind) && Normal(tree) && CleanKeys(keys)
    ensures var json, yaml := JsonKey(name, kind, tree), YamlKey(name, kind, tree);
            && json != yaml && Clean(json) == json && Clean(yaml) == yaml
            && RemoteDir(name, kind, tree) + "/" <= json && RemoteDir(name, kind, tree) + "/" <= yaml
            && (!Exists(keys, name, kind, tree) ==> json !in keys && yaml !in keys)
  {
    ArchiveNames();
    if JsonKey(name, kind, tree) in keys || YamlKey(name, kind, tree) in keys {
      CheckIsExact(keys, name, kind, tree);
    }
    var d := KeyIs(name, kind, tree, JSON_ARCHIVE);
    var e := KeyIs(name, kind, tree, YAML_ARCHIVE);
    hide Show, Normal, RemoteDir, DirPath, Canonical;
    ShowNotEmpty(Dir(d.rooted, d.names + [tree, JSON_ARCHIVE]));
    ShowNotEmpty(Dir(e.rooted, e.names + [tree, YAML_ARCHIVE]));
    var dir := RemoteDir(name, kind, tree);
    assert JsonKey(name, kind, tree) == dir + "/" + JSON_ARCHIVE;
    assert YamlKey(name, kind, tree) == dir + "/" + YAML_ARCHIVE;
    var a, b := dir + "/" + JSON_ARCHIVE, dir + "/" + YAML_ARCHIVE;
    assert a[|dir| + 1..] == JSON_ARCHIVE && b[|dir| + 1..] == YAML_ARCHIVE;
    assert JSON_ARCHIVE[0] != YAML_ARCHIVE[0];
  }

  /** Uploads the logs of a run; these are written over freely. */
  method UploadLogs(store: ObjectStore, name: string, kind: string, tree: string, log: string, status: string)
    returns (ok: bool)
    requires Normal(kind) && Normal(tree) && CleanKeys(store.objects.Keys)
    modifies store
    ensures ArchivesKept(old(store.objects), store.objects) && CleanKeys(store.objects.Keys)
    ensures ChangedOnlyIn(old(store.objects), store.objects, RemoteDir(name, kind, tree))
    ensures store.reliable ==> ok
    ensures ok ==> LogKey(name, kind, tree) in store.objects
                   && store.objects[LogKey(name, kind, tree)] == LogArchive(log)
    ensures store.reliable ==> StatusKey(name, kind, tree) in store.objects
                               && store.objects[StatusKey(name, kind, tree)] == LogArchive(status)
  {
    hide IsArchiveKey, LogKey, StatusKey, RemoteDir, Normal;
    LogKeys(name, kind, tree);
    LogKeysDiffer(name, kind, tree);
    ok := store.UploadObject(LogKey(name, kind, tree), LogArchive(log));
    if ok {
      var ignored := store.UploadObject(StatusKey(name, kind, tree), LogArchive(status));
    }
  }

  lemma LogName(tree: string)
    requires SlashFree(tree)
    ensures var file := ObjectName(ObjectName(tree, "log"), UPLOAD_KIND);
            Normal(file) && file != JSON_ARCHIVE && file != YAML_ARCHIVE
  {
    var file := ObjectName(ObjectName(tree, "log"), UPLOAD_KIND);
    assert file == tree + ".log.tar.gz";
    assert file[|file| - 8] == 'g';
    assert JSON_ARCHIVE[|JSON_ARCHIVE| - 8] == 'n' && YAML_ARCHIVE[|YAML_ARCHIVE| - 8] == 'l';
  }

  lemma LogKeys(name: string, kind: string, tree: string)
    requires Normal(kind) && Normal(tree)
    ensures var log, status := LogKey(name, kind, tree), StatusKey(name, kind, tree);
            && Clean(log) == log && Clean(status) == status && !IsArchiveKey(log) && !IsArchiveKey(status)
            && RemoteDir(name, kind, tree) + "/" <= log && RemoteDir(name, kind, tree) + "/" <= status
  {
    LogName(tree);
    LogName(tree + "-" + "status");
    LogKeyIs(name, kind, tree, ObjectName(ObjectName(tree, "log"), UPLOAD_KIND));
    LogKeyIs(name, kind, tree, ObjectName(ObjectName(tree + "-" + "status", "log"), UPLOAD_KIND));
  }

  lemma LogKeysDiffer(name: string, kind: string, tree: string)
    requires Normal(kind) && Normal(tree)
    ensures LogKey(name, kind, tree) != StatusKey(name, kind, tree)
  {
    LogName(tree);
    LogName(tree + "-" + "status");
    var log := ObjectName(ObjectName(tree, "log"), UPLOAD_KIND);
    var status := ObjectName(ObjectName(tree + "-" + "status", "log"), UPLOAD_KIND);
    var d := KeyIs(name, kind, tree, log);
    var e := KeyIs(name, kind, tree, status);
    assert |log| != |status|;
  }

  lemma LogKeyIs(name: string, kind: string, tree: string, file: string)
    requires Normal(kind) && Normal(tree) && Normal(file) && file != JSON_ARCHIVE && file != YAML_ARCHIVE
    ensures var k := DirPath([RemoteDir(name, kind, tree), file]);
            Clean(k) == k && !IsArchiveKey(k) && RemoteDir(name, kind, tree) + "/" <= k
  {
    var d := KeyIs(name, kind, tree, file);
    var e := Dir(d.rooted, d.names + [tree, file]);
    ShowNotEmpty(e);
    ParseShow(e);
  }

  /** A run that stores a tree: nothing is stored for an empty tree, not even looked for,
      but the logs are. */
  method StoreRun(
    store: ObjectStore, name: string, kind: string, tree: string, archive: Archive, empty: bool, log: string,
    status: string)
    returns (ok: bool)
    requires Normal(kind) && Normal(tree) && CleanKeys(store.objects.Keys)
    modifies store
    ensures ArchivesKept(old(store.objects), store.objects) && CleanKeys(store.objects.Keys)
    ensures ChangedOnlyIn(old(store.objects), store.objects, RemoteDir(name, kind, tree))
    ensures ok && !empty ==> !Exists(old(store.objects).Keys, name, kind, tree)
    ensures ok && !empty ==> IsStored(store.objects, name, kind, tree, archive)
    ensures ok ==> IsLogged(store.objects, name, kind, tree, log)
    ensures ok && store.reliable ==> IsReported(store.objects, name, kind, tree, status)
    ensures store.reliable ==> (ok <==> empty || !Exists(old(store.objects).Keys, name, kind, tree))
  {
    hide *;
    NormalIsNotEmpty(tree);
    ok := true;
    if !empty {
      ok := UploadTree(store, name, kind, tree, archive);
      JsonKeyShape(name, kind, tree);
    } else {
      NothingChanged(store.objects, RemoteDir(name, kind, tree));
    }
    if ok {
      ghost var middle := store.objects;
      ok := UploadLogs(store, name, kind, tree, log, status);
      KeptOn(old(store.objects), middle, store.objects, RemoteDir(name, kind, tree));
      LoggedIs(store.objects, name, kind, tree, log);
      ReportedIs(store.objects, name, kind, tree, status);
      if !empty {
        StillStored(middle, store.objects, name, kind, tree, archive);
      }
    }
  }

  /** The log of the run is in the store. */
  ghost predicate IsLogged(objects: Objects, name: string, kind: string, tree: string, log: string) {
    LogKey(name, kind, tree) in objects && objects[LogKey(name, kind, tree)] == LogArchive(log)
  }

  lemma LoggedIs(objects: Objects, name: string, kind: string, tree: string, log: string)
    ensures IsLogged(objects, name, kind, tree, log)
       <==> LogKey(name, kind, tree) in objects && objects[LogKey(name, kind, tree)] == LogArchive(log)
  {
  }

  /** The report of the run is in the store. */
  ghost predicate IsReported(objects: Objects, name: string, kind: string, tree: string, status: string) {
    StatusKey(name, kind, tree) in objects && objects[StatusKey(name, kind, tree)] == LogArchive(status)
  }

  lemma ReportedIs(objects: Objects, name: string, kind: string, tree: string, status: string)
    ensures IsReported(objects, name, kind, tree, status)
       <==> StatusKey(name, kind, tree) in objects && objects[StatusKey(name, kind, tree)] == LogArchive(status)
  {
  }

  /** The archive of the tree is in the store. */
  ghost predicate IsStored(objects: Objects, name: string, kind: string, tree: string, archive: Archive) {
    var key := JsonKey(name, kind, tree);
    key in objects && objects[key] == JsonArchive(archive)
  }

  lemma NormalIsNotEmpty(name: string)
    requires Normal(name)
    ensures name != ""
  {
  }

  lemma StillStored(
    before: Objects, after: Objects, name: string, kind: string, tree: string, archive: Archive)
    requires JsonKey(name, kind, tree) in before && before[JsonKey(name, kind, tree)] == JsonArchive(archive)
    requires ArchivesKept(before, after) && IsArchiveKey(JsonKey(name, kind, tree))
    ensures IsStored(after, name, kind, tree, archive)
  {
  }

  lemma NothingChanged(a: Objects, dir: string)
    ensures ArchivesKept(a, a) && ChangedOnlyIn(a, a, dir)
  {
  }

  lemma KeptOn(a: Objects, b: Objects, c: Objects, dir: string)
    requires ArchivesKept(a, b) && ArchivesKept(b, c) && ChangedOnlyIn(a, b, dir) && ChangedOnlyIn(b, c, dir)
    ensures ArchivesKept(a, c) && ChangedOnlyIn(a, c, dir)
  {
  }

  /** Over any sequence of runs no archive ever changes. */
  lemma {:induction false} WriteOnce(history: seq<Objects>, i: nat, j: nat)
    requires i <= j < |history|
    requires forall x :: 0 <= x < |history| - 1 ==> ArchivesKept(history[x], history[x + 1])
    ensures ArchivesKept(history[i], history[j])
    decreases j - i
  {
    if i < j {
      WriteOnce(history, i, j - 1);
      assert ArchivesKept(history[j - 1], history[j - 1 + 1]);
    }
  }

  datatype Run = Run(
    name: string, kind: string, tree: string, archive: Archive, empty: bool, log: string, status: string)

  predicate OneName(r: Run) {
    Normal(r.kind) && Normal(r.tree)
  }

  /** The archive of the run is in the store. */
  ghost predicate StoredBy(r: Run, objects: Objects) {
    IsStored(objects, r.name, r.kind, r.tree, r.archive)
  }

  lemma StaysStored(r: Run, before: Objects, after: Objects)
    requires OneName(r) && StoredBy(r, before) && ArchivesKept(before, after)
    ensures StoredBy(r, after)
  {
    JsonKeyShape(r.name, r.kind, r.tree);
  }

  /** Runs one after the other: none changes an archive of an earlier one, and each writes in its own directory. */
  method StoreRuns(store: ObjectStore, runs: seq<Run>) returns (stored: seq<bool>, ghost history: seq<Objects>)
    requires CleanKeys(store.objects.Keys) && forall i :: 0 <= i < |runs| ==> OneName(runs[i])
    modifies store
    ensures |history| == |runs| + 1 && history[0] == old(store.objects) && history[|runs|] == store.objects
    ensures |stored| == |runs|
    ensures forall i, j :: 0 <= i < j < |history| && stored[i] && !runs[i].empty ==> StoredBy(runs[i], history[j])
    ensures store.reliable ==>
              forall i :: 0 <= i < |runs| ==>
                (stored[i] <==> runs[i].empty || !Exists(history[i].Keys, runs[i].name, runs[i].kind, runs[i].tree))
    ensures forall i, j :: 0 <= i <= j < |history| ==> ArchivesKept(history[i], history[j])
    ensures forall i :: 0 <= i < |runs| ==>
              ChangedOnlyIn(history[i], history[i + 1], RemoteDir(runs[i].name, runs[i].kind, runs[i].tree))
  {
    hide ArchivesKept, ChangedOnlyIn, RemoteDir, CleanKeys, Normal, Exists, IsStored;
    history := [store.objects];
    stored := [];
    for i := 0 to |runs|
      invariant CleanKeys(store.objects.Keys) && |stored| == i
      invariant |history| == i + 1 && history[0] == old(store.objects) && history[i] == store.objects
      invariant forall x :: 0 <= x < i && stored[x] && !runs[x].empty ==> StoredBy(runs[x], history[x + 1])
      invariant store.reliable ==>
                  forall x :: 0 <= x < i ==>
                    (stored[x] <==>
                      runs[x].empty || !Exists(history[x].Keys, runs[x].name, runs[x].kind, runs[x].tree))
      invariant forall x :: 0 <= x < i ==> ArchivesKept(history[x], history[x + 1])
      invariant forall x :: 0 <= x < i ==>
                  ChangedOnlyIn(history[x], history[x + 1], RemoteDir(runs[x].name, runs[x].kind, runs[x].tree))
    {
      var r := runs[i];
      assert OneName(r);
      var ok := StoreRun(store, r.name, r.kind, r.tree, r.archive, r.empty, r.log, r.status);
      history := history + [store.objects];
      stored := stored + [ok];
      assert ok && !r.empty ==> StoredBy(r, store.objects);
    }
    forall i, j | 0 <= i <= j < |history|
      ensures ArchivesKept(history[i], history[j])
    {
      WriteOnce(history, i, j);
    }
    forall i, j | 0 <= i < j < |history| && stored[i] && !runs[i].empty
      ensures StoredBy(runs[i], history[j])
    {
      StaysStored(runs[i], history[i + 1], history[j]);
    }
  }

  /** The name of a restored tree is one name whenever the name of the backup is slash-free. */
  lemma RestoredNameIsName(time: string, tree: string)
    ensures Normal(RestoredName(time, tree)) <==> SlashFree(time) && SlashFree(tree)
  {
    var s := RestoredName(time, tree);
    assert |s| > 7 && s[0] == 'r';
    forall c
      ensures c in s <==> c in RESTORE_KIND || c in time || c == '-' || c in tree
    {
      assert s == RESTORE_KIND + time + "-" + tree;
    }
  }
}
