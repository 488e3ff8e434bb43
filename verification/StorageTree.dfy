/** A user's files and folders on a server's disk (server/storage.cpp, common/files.cpp). */
module StorageTree {

  import opened Paths
  import opened Stores

  /** The folders that have to exist for the files to: every proper parent path of a file. */
  ghost predicate IsParent(files: set<FileKey>, dir: FileKey) {
    exists key :: key in files && key.user == dir.user && Below(key.path, dir.path)
  }

  ghost predicate Exact(files: set<FileKey>, dirs: set<FileKey>) {
    forall dir :: dir in dirs <==> IsParent(files, dir)
  }

  /** The folders on the way to a path, from the top down to length `n`. */
  function Above(key: FileKey, n: nat): set<FileKey>
    requires n <= |key.path|
  {
    set i | 0 <= i < n && key.path[i] == '/' :: FileKey(key.user, key.path[..i])
  }

  lemma AboveIsBelow(key: FileKey, dir: FileKey)
    ensures dir in Above(key, |key.path|) <==> dir.user == key.user && Below(key.path, dir.path)
  {
    if dir.user == key.user && Below(key.path, dir.path) {
      var i := |dir.path|;
      assert key.path[i] == '/' && dir == FileKey(key.user, key.path[..i]);
    }
  }

  /** Adding a file adds the folders on the way to it. */
  lemma AddedExact(files: set<FileKey>, dirs: set<FileKey>, key: FileKey)
    requires Exact(files, dirs)
    ensures Exact(files + {key}, dirs + Above(key, |key.path|))
  {
    forall dir ensures dir in dirs + Above(key, |key.path|) <==> IsParent(files + {key}, dir) {
      AboveIsBelow(key, dir);
      if IsParent(files, dir) {
        var k :| k in files && k.user == dir.user && Below(k.path, dir.path);
        assert k in files + {key};
      }
      if IsParent(files + {key}, dir) && dir !in Above(key, |key.path|) {
        var k :| k in files + {key} && k.user == dir.user && Below(k.path, dir.path);
        assert k in files;
      }
    }
  }

  /** A path is free exactly if no folder on the way to it is a file and it is no folder. */
  lemma FreeMeans(files: set<FileKey>, dirs: set<FileKey>, key: FileKey)
    requires Exact(files, dirs)
    ensures Free(files, key) <==> key !in dirs && Above(key, |key.path|) !! files
  {
    if Free(files, key) {
      forall k | k in files && k.user == key.user ensures !Below(k.path, key.path) {
        assert !Clash(k, key);
      }
      forall a | a in files ensures a !in Above(key, |key.path|) { AboveIsBelow(key, a); }
    } else {
      var a :| a in files && Clash(a, key);
      AboveIsBelow(key, a);
      if Below(a.path, key.path) { assert IsParent(files, key); }
    }
  }

  /** While empty folders are removed from the bottom up: the folders are those the files
      need, and those on the way to the removed path up to length `n`. */
  ghost predicate Cleaning(files: set<FileKey>, dirs: set<FileKey>, key: FileKey, n: nat) {
    n <= |key.path| && forall dir :: dir in dirs <==> IsParent(files, dir) || dir in Above(key, n)
  }

  lemma RemovedCleaning(files: set<FileKey>, dirs: set<FileKey>, key: FileKey)
    requires Exact(files, dirs) && key in files
    ensures Cleaning(files - {key}, dirs, key, |key.path|)
  {
    forall dir ensures dir in dirs <==> IsParent(files - {key}, dir) || dir in Above(key, |key.path|) {
      AboveIsBelow(key, dir);
      if IsParent(files, dir) && dir !in Above(key, |key.path|) {
        var k :| k in files && k.user == dir.user && Below(k.path, dir.path);
        assert k in files - {key};
      }
      if IsParent(files - {key}, dir) {
        var k :| k in files - {key} && k.user == dir.user && Below(k.path, dir.path);
        assert k in files;
      }
    }
  }

  /** What readdir would show: a file or folder directly inside. */
  predicate Holds(files: set<FileKey>, dirs: set<FileKey>, dir: FileKey) {
    exists k :: k in files + dirs && k.user == dir.user && LastSlash(k.path) == |dir.path| && ParentPath(k.path) == dir.path
  }

  /** The path one step below `dir` on the way to `path`. */
  function StepBelow(path: string, dir: string): string
    requires Below(path, dir)
  {
    path[..|dir| + 1 + FirstSlash(path[|dir| + 1..])]
  }

  lemma StepBelowFacts(path: string, dir: string)
    requires Below(path, dir)
    ensures var step := StepBelow(path, dir);
      && Below(step, dir) && LastSlash(step) == |dir| && ParentPath(step) == dir
      && (step == path || Below(path, step))
  {
    var rest := path[|dir| + 1..];
    var step := StepBelow(path, dir);
    assert step[..|dir|] == path[..|dir|];
    forall j | |dir| < j < |step| ensures step[j] != '/' {
      assert rest[j - |dir| - 1] == step[j];
    }
    if step != path { assert path[|step|] == rest[FirstSlash(rest)]; }
  }

  /** A folder that some file needs always holds something. */
  lemma NeededHolds(files: set<FileKey>, dirs: set<FileKey>, dir: FileKey)
    requires IsParent(files, dir) && forall d :: IsParent(files, d) ==> d in dirs
    ensures Holds(files, dirs, dir)
  {
    var k :| k in files && k.user == dir.user && Below(k.path, dir.path);
    StepBelowFacts(k.path, dir.path);
    var step := FileKey(k.user, StepBelow(k.path, dir.path));
    if step.path != k.path {
      assert IsParent(files, step);
    } else {
      assert step == k;
    }
    assert step in files + dirs;
  }

  lemma AboveShorter(key: FileKey, n: nat, dir: FileKey)
    requires n <= |key.path| && LastSlash(key.path[..n]) >= 0
    requires dir == FileKey(key.user, ParentPath(key.path[..n]))
    ensures |dir.path| < n && dir.path == key.path[..|dir.path|]
    ensures Above(key, n) == Above(key, |dir.path|) + {dir}
  {
    var m := LastSlash(key.path[..n]);
    assert key.path[..n][..m] == key.path[..m];
    assert forall i :: m < i < n ==> key.path[i] == key.path[..n][i];
    assert key.path[m] == key.path[..n][m];
  }

  lemma NoneAbove(key: FileKey, n: nat)
    requires n <= |key.path| && LastSlash(key.path[..n]) < 0
    ensures Above(key, n) == {}
  {
    assert forall i :: 0 <= i < n ==> key.path[i] == key.path[..n][i];
  }

  lemma NeededUpwards(files: set<FileKey>, key: FileKey, dir: FileKey)
    requires IsParent(files, dir) && |dir.path| <= |key.path| && dir == FileKey(key.user, key.path[..|dir.path|])
    ensures forall d :: d in Above(key, |dir.path|) ==> IsParent(files, d)
  {
    var f :| f in files && f.user == dir.user && Below(f.path, dir.path);
    forall d | d in Above(key, |dir.path|) ensures IsParent(files, d) {
      var i :| 0 <= i < |dir.path| && key.path[i] == '/' && d == FileKey(key.user, key.path[..i]);
      assert dir.path[i] == '/' && dir.path[..i] == key.path[..i];
      BelowBelow(f.path, dir.path, d.path);
    }
  }

  /** rmdir's verdict is the right one: an occupied folder is needed by a file, and so is
      everything above it. */
  lemma OccupiedIsNeeded(files: set<FileKey>, dirs: set<FileKey>, key: FileKey, n: nat, dir: FileKey)
    requires |dir.path| < n && Cleaning(files, dirs, key, n) && dir == FileKey(key.user, key.path[..|dir.path|])
    requires Above(key, n) == Above(key, |dir.path|) + {dir}
    requires Holds(files, dirs, dir)
    ensures Exact(files, dirs)
  {
    var k :| k in files + dirs && k.user == dir.user && LastSlash(k.path) == |dir.path| && ParentPath(k.path) == dir.path;
    assert Below(k.path, dir.path) by { BelowParent(k.path, dir.path); }
    assert IsParent(files, dir) by {
      if k !in files {
        assert k in dirs && |k.path| > |dir.path|;
        assert k !in Above(key, |dir.path|) + {dir};
        var f :| f in files && f.user == k.user && Below(f.path, k.path);
        BelowBelow(f.path, k.path, dir.path);
      }
    }
    NeededUpwards(files, key, dir);
  }

  lemma EmptyIsUnneeded(files: set<FileKey>, dirs: set<FileKey>, key: FileKey, n: nat, dir: FileKey)
    requires |dir.path| < n && Cleaning(files, dirs, key, n) && dir == FileKey(key.user, key.path[..|dir.path|])
    requires Above(key, n) == Above(key, |dir.path|) + {dir}
    requires !Holds(files, dirs, dir)
    ensures Cleaning(files, dirs - {dir}, key, |dir.path|) && dir in dirs
  {
    if IsParent(files, dir) { NeededHolds(files, dirs, dir); }
    assert dir !in Above(key, |dir.path|);
  }

  /* ------------------------------------------------------- making folders, top down */

  /** Nothing is stored or needed below a file, and its name is no folder. */
  lemma FileBlocks(files: set<FileKey>, dirs: set<FileKey>, file: FileKey, key: FileKey)
    requires Exact(files, dirs) && NoneBelow(files) && file in files
    ensures file !in dirs
    ensures key.user == file.user && Below(key.path, file.path) ==> key !in dirs && key !in files
  {
    forall k | k in files && k.user == file.user ensures !Below(k.path, file.path) {
      assert !Clash(k, file);
    }
    if key.user == file.user && Below(key.path, file.path) {
      forall k | k in files && k.user == key.user ensures !Below(k.path, key.path) {
        if Below(k.path, key.path) { BelowBelow(k.path, key.path, file.path); }
      }
    }
  }

  lemma FileHasFolders(files: set<FileKey>, dirs: set<FileKey>, file: FileKey)
    requires Exact(files, dirs) && file in files
    ensures Above(file, |file.path|) <= dirs
  {
    forall dir | dir in Above(file, |file.path|) ensures dir in dirs {
      AboveIsBelow(file, dir);
      assert IsParent(files, dir);
    }
  }

  /** The next slash adds exactly one folder. */
  lemma AboveNext(key: FileKey, start: nat, slash: nat)
    requires start <= slash < |key.path| && key.path[slash] == '/'
    requires forall j :: start <= j < slash ==> key.path[j] != '/'
    ensures Above(key, slash + 1) == Above(key, start) + {FileKey(key.user, key.path[..slash])}
    ensures Above(FileKey(key.user, key.path[..slash]), slash) == Above(key, start)
  {
    var part := FileKey(key.user, key.path[..slash]);
    forall i | 0 <= i < slash && key.path[i] == '/' ensures part.path[..i] == key.path[..i] && i < start { }
    forall dir | dir in Above(key, start) ensures dir in Above(part, slash) {
      var i :| 0 <= i < start && key.path[i] == '/' && dir == FileKey(key.user, key.path[..i]);
      assert part.path[i] == '/' && part.path[..i] == dir.path;
    }
    forall dir | dir in Above(part, slash) ensures dir in Above(key, start) {
      var i :| 0 <= i < slash && part.path[i] == '/' && dir == FileKey(key.user, part.path[..i]);
      assert key.path[i] == '/' && part.path[..i] == key.path[..i];
    }
  }

  lemma PartParent(path: string, start: nat, slash: nat)
    requires start <= slash <= |path| && (start > 0 ==> path[start - 1] == '/')
    requires forall j :: start <= j < slash ==> path[j] != '/'
    ensures ParentPath(path[..slash]) == if start == 0 then "" else path[..start - 1]
  {
    var part := path[..slash];
    assert forall j :: 0 <= j < slash ==> part[j] == path[j];
    if start > 0 {
      assert LastSlash(part) == start - 1;
      assert part[..start - 1] == path[..start - 1];
    } else {
      assert LastSlash(part) == -1;
    }
  }

  /* ----------------------------------------------------------------- walking down */

  /** `path` is somewhere in the folder `rel`; "" is the user's own folder. */
  predicate Under(path: string, rel: string) {
    rel == "" || Below(path, rel)
  }

  function Rest(path: string, rel: string): string
    requires Under(path, rel)
  {
    if rel == "" then path else path[|rel| + 1..]
  }

  /** The entry of `rel` through which `path` is reached. */
  function EntryName(path: string, rel: string): string
    requires Under(path, rel)
  {
    var rest := Rest(path, rel);
    rest[..FirstSlash(rest)]
  }

  function Relative(rel: string, name: string): string {
    if rel == "" then name else rel + "/" + name
  }

  function Depth(rel: string): nat {
    if rel == "" then 0 else |Split(rel)|
  }

  lemma RelativeDepth(rel: string, name: string)
    requires '/' !in name && name != ""
    ensures Depth(Relative(rel, name)) == Depth(rel) + 1
  {
    assert forall i :: 0 <= i < |name| ==> name[i] in name;
    assert Split(name) == [name];
    if rel != "" {
      var r := rel + "/" + name;
      assert r[|rel|] == '/' && r[..|rel|] == rel && r[|rel| + 1..] == name;
      SplitAt(r, |rel|);
    }
  }

  lemma EntryLeads(path: string, rel: string)
    requires Under(path, rel)
    ensures var step := Relative(rel, EntryName(path, rel)); step == path || Below(path, step)
    ensures '/' !in EntryName(path, rel)
  {
    var start := if rel == "" then 0 else |rel| + 1;
    var rest := Rest(path, rel);
    assert path == path[..start] + rest;
    var n := FirstSlash(rest);
    assert Relative(rel, rest[..n]) == path[..start + n] by {
      assert rest[..n] == path[start..start + n];
      if rel != "" { assert path[..start] == rel + "/"; }
    }
    if n < |rest| { assert path[start + n] == rest[n]; }
  }

  lemma EntryValid(path: string, rel: string)
    requires IsValidPath(path) && Under(path, rel)
    ensures IsValidName(EntryName(path, rel))
  {
    var rest := Rest(path, rel);
    if rel != "" { SplitAt(path, |rel|); }
    assert Split(rest)[0] == EntryName(path, rel);
    assert Split(rest)[0] in Split(rest);
  }

  /** On the way to a valid path every entry is valid, and leads to it or is it. */
  lemma EntryFacts(path: string, rel: string)
    requires IsValidPath(path) && Under(path, rel)
    ensures var step := Relative(rel, EntryName(path, rel));
      && IsValidName(EntryName(path, rel)) && '/' !in EntryName(path, rel)
      && (step == path || Below(path, step))
      && (step != path ==> Depth(rel) + 1 < Depth(path))
  {
    EntryLeads(path, rel);
    EntryValid(path, rel);
    var step := Relative(rel, EntryName(path, rel));
    RelativeDepth(rel, EntryName(path, rel));
    if step != path { SplitAt(path, |step|); }
  }

  lemma PrefixAt(path: string, step: string, i: nat)
    requires (path == step || Below(path, step)) && i < |step|
    ensures path[i] == step[i]
  {
    if Below(path, step) { assert path[..|step|][i] == path[i]; }
  }

  lemma UnderStep(path: string, rel: string, name: string)
    requires path == Relative(rel, name) || Below(path, Relative(rel, name))
    ensures Under(path, rel)
  {
    if rel != "" {
      var step := Relative(rel, name);
      forall i | 0 <= i <= |rel| ensures path[i] == step[i] { PrefixAt(path, step, i); }
      assert path[..|rel|] == rel;
    }
  }

  lemma EntryOf(path: string, rel: string, name: string)
    requires '/' !in name && name != "" && (path == Relative(rel, name) || Below(path, Relative(rel, name)))
    ensures Under(path, rel) && EntryName(path, rel) == name
  {
    UnderStep(path, rel, name);
    var step := Relative(rel, name);
    var start := if rel == "" then 0 else |rel| + 1;
    var rest := Rest(path, rel);
    forall i | 0 <= i < |name| ensures rest[i] == name[i] && rest[i] != '/' {
      PrefixAt(path, step, start + i);
      assert name[i] in name;
    }
    assert |rest| > |name| ==> rest[|name|] == '/';
    assert FirstSlash(rest) == |name|;
  }

  /* -------------------------------------------------------- one entry of a folder */

  ghost predicate AllValid(files: set<FileKey>) {
    forall key :: key in files ==> IsValidUser(key.user) && IsValidPath(key.path)
  }

  /** A user's files somewhere in the folder `rel`, by path. */
  ghost function PathsUnder(files: set<FileKey>, user: string, rel: string): set<string> {
    set key | key in files && key.user == user && Under(key.path, rel) :: key.path
  }

  /** Those of them reached through some of the folder's entries. */
  ghost function PathsThrough(files: set<FileKey>, user: string, rel: string, names: set<string>): set<string> {
    set key | key in files && key.user == user && Under(key.path, rel) && EntryName(key.path, rel) in names :: key.path
  }

  lemma ThroughOneMore(files: set<FileKey>, user: string, rel: string, names: set<string>, name: string)
    ensures PathsThrough(files, user, rel, names + {name})
         == PathsThrough(files, user, rel, names) + PathsThrough(files, user, rel, {name})
  {
  }

  lemma ValidNameNoSlash(name: string)
    requires IsValidName(name)
    ensures '/' !in name && name != ""
  {
  }

  lemma InvalidEntry(files: set<FileKey>, user: string, rel: string, name: string)
    requires AllValid(files) && !IsValidName(name)
    ensures PathsThrough(files, user, rel, {name}) == {}
  {
    forall key | key in files && Under(key.path, rel) ensures EntryName(key.path, rel) != name {
      EntryFacts(key.path, rel);
    }
  }

  lemma FolderEntry(files: set<FileKey>, dirs: set<FileKey>, user: string, rel: string, name: string)
    requires AllValid(files) && Exact(files, dirs) && NoneBelow(files)
    requires IsValidName(name) && FileKey(user, Relative(rel, name)) in dirs
    ensures PathsThrough(files, user, rel, {name}) == PathsUnder(files, user, Relative(rel, name))
    ensures Depth(Relative(rel, name)) == Depth(rel) + 1
  {
    var dir := FileKey(user, Relative(rel, name));
    ValidNameNoSlash(name);
    RelativeDepth(rel, name);
    forall key | key in files && key.user == user
      ensures Under(key.path, rel) && EntryName(key.path, rel) == name <==> Under(key.path, dir.path)
    {
      if Under(key.path, rel) && EntryName(key.path, rel) == name {
        EntryFacts(key.path, rel);
        if key.path == dir.path { FileBlocks(files, dirs, key, key); }
      }
      if Below(key.path, dir.path) { EntryOf(key.path, rel, name); }
    }
  }

  lemma FileEntry(files: set<FileKey>, user: string, rel: string, name: string)
    requires AllValid(files) && NoneBelow(files)
    requires IsValidName(name) && FileKey(user, Relative(rel, name)) in files
    ensures PathsThrough(files, user, rel, {name}) == {Relative(rel, name)}
  {
    var file := FileKey(user, Relative(rel, name));
    ValidNameNoSlash(name);
    EntryOf(file.path, rel, name);
    forall key | key in files && key.user == user && Under(key.path, rel) && EntryName(key.path, rel) == name
      ensures key == file
    {
      EntryFacts(key.path, rel);
      assert !Clash(key, file);
    }
  }

  /** No file can be reached through an entry that is passed over. */
  lemma OtherEntry(files: set<FileKey>, dirs: set<FileKey>, user: string, rel: string, name: string)
    requires AllValid(files) && Exact(files, dirs) && IsValidName(name)
    requires FileKey(user, Relative(rel, name)) in dirs ==> Depth(rel) + 1 >= MAX_PATH_DEPTH
    requires FileKey(user, Relative(rel, name)) in files ==> !IsValidPath(Relative(rel, name))
    ensures PathsThrough(files, user, rel, {name}) == {}
  {
    forall key | key in files && key.user == user && Under(key.path, rel) ensures EntryName(key.path, rel) != name {
      EntryFacts(key.path, rel);
      var dir := FileKey(user, Relative(rel, EntryName(key.path, rel)));
      if dir.path != key.path { assert IsParent(files, dir); }
    }
  }

  lemma RelativeParent(rel: string, name: string)
    requires '/' !in name
    ensures ParentPath(Relative(rel, name)) == rel && BaseName(Relative(rel, name)) == name
  {
    var path := Relative(rel, name);
    var start := |path| - |name|;
    forall i | start <= i < |path| ensures path[i] != '/' {
      assert path[i] == name[i - start] && name[i - start] in name;
    }
    if rel != "" {
      assert path[start - 1] == '/';
      assert path[..start - 1] == rel;
    }
    assert path[start..] == name;
  }

  /** What readdir shows leads to every file in the folder. */
  lemma AllThroughEntries(files: set<FileKey>, dirs: set<FileKey>, user: string, rel: string, names: set<string>)
    requires AllValid(files) && Exact(files, dirs)
    requires forall k :: k in files + dirs && k.user == user && ParentPath(k.path) == rel ==> BaseName(k.path) in names
    ensures PathsThrough(files, user, rel, names) == PathsUnder(files, user, rel)
  {
    forall key | key in files && key.user == user && Under(key.path, rel) ensures EntryName(key.path, rel) in names {
      EntryFacts(key.path, rel);
      var step := FileKey(user, Relative(rel, EntryName(key.path, rel)));
      RelativeParent(rel, EntryName(key.path, rel));
      if step.path != key.path { assert IsParent(files, step); }
      assert step in files + dirs;
    }
  }
}
