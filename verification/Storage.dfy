/** A server's store: files, folders and the hash cache (server/storage.cpp). Operations are
    taken one at a time. */
module Storage {

  import opened Fnv
  import opened Octets
  import opened Paths
  import opened Stores
  import opened StorageTree

  datatype Stored = Stored(data: Bytes, mtime: int)

  datatype Info = Info(size: nat, mtime: int, hash: nat)

  function InfoOf(file: Stored): Info {
    Info(|file.data|, file.mtime, Hash(file.data))
  }

  const USERS_DIR := "users"

  function FullPath(key: FileKey): string {
    JoinPath(JoinPath(USERS_DIR, key.user), key.path)
  }

  lemma FullPathForm(key: FileKey)
    requires IsValidUser(key.user)
    ensures FullPath(key) == USERS_DIR + "/" + (key.user + "/" + key.path)
  {
    var dir := USERS_DIR + "/" + key.user;
    assert IsUserChar(key.user[|key.user| - 1]) && dir[|dir| - 1] == key.user[|key.user| - 1];
    assert JoinPath(USERS_DIR, key.user) == dir;
    assert dir + "/" + key.path == USERS_DIR + "/" + (key.user + "/" + key.path);
  }

  lemma UserIsOneStep(user: string)
    requires IsValidUser(user)
    ensures '/' !in user && Steps(user)
  {
    assert forall i :: 0 <= i < |user| ==> IsUserChar(user[i]);
    if !Steps(user) { assert IsUserChar(user[0]); }
  }

  lemma FullPathParts(key: FileKey)
    requires ValidKey(key)
    ensures Split(FullPath(key)) == [USERS_DIR, key.user] + Split(key.path)
  {
    FullPathForm(key);
    UserIsOneStep(key.user);
    SplitsAfter(key.user, key.path);
    assert USERS_DIR == ['u', 's', 'e', 'r', 's'];
    SplitsAfter(USERS_DIR, key.user + "/" + key.path);
  }

  /** Going along the full path of a stored file leads into the folder of its own user, and to
      a place that no other file's path leads to. */
  lemma KeysLeadApart(a: FileKey, b: FileKey)
    requires ValidKey(a) && ValidKey(b)
    ensures Walk(Split(FullPath(a))) == Inside([USERS_DIR, a.user] + Split(a.path))
    ensures Walk(Split(FullPath(a))) == Walk(Split(FullPath(b))) <==> a == b
  {
    KeyLeads(a);
    KeyLeads(b);
    if [USERS_DIR, a.user] + Split(a.path) == [USERS_DIR, b.user] + Split(b.path) {
      var x, y := [USERS_DIR, a.user] + Split(a.path), [USERS_DIR, b.user] + Split(b.path);
      assert a.user == x[1] == y[1] == b.user;
      assert Split(a.path) == x[2..] == y[2..] == Split(b.path);
      JoinSplit(a.path);
      JoinSplit(b.path);
    }
  }

  lemma KeyLeads(key: FileKey)
    requires ValidKey(key)
    ensures Walk(Split(FullPath(key))) == Inside([USERS_DIR, key.user] + Split(key.path))
  {
    var parts := [USERS_DIR, key.user] + Split(key.path);
    FullPathParts(key);
    UserIsOneStep(key.user);
    PathIsValidIff(key.path);
    OnlySteps(Split(key.path));
    assert USERS_DIR[0] == 'u';
    WalkSteps(parts);
  }

  /** Two users' files, or two files of one user, never share a cache entry. */
  lemma FullPathInjective(a: FileKey, b: FileKey)
    requires ValidKey(a) && ValidKey(b) && FullPath(a) == FullPath(b)
    ensures a == b
  {
    var x, y := a.user + "/" + a.path, b.user + "/" + b.path;
    FullPathForm(a);
    FullPathForm(b);
    assert x == FullPath(a)[|USERS_DIR| + 1..] == FullPath(b)[|USERS_DIR| + 1..] == y;
    UserEndsAtSlash(a);
    UserEndsAtSlash(b);
    assert a.path == x[|a.user| + 1..] == y[|b.user| + 1..] == b.path;
  }

  lemma UserEndsAtSlash(key: FileKey)
    requires IsValidUser(key.user)
    ensures FirstSlash(key.user + "/" + key.path) == |key.user|
    ensures (key.user + "/" + key.path)[..|key.user|] == key.user
  {
    assert forall i :: 0 <= i < |key.user| ==> IsUserChar(key.user[i]);
    FirstSlashOf(key.user, key.path);
  }

  /** The folder an entry would be created in exists. */
  predicate Reachable(dirs: set<FileKey>, entry: FileKey) {
    ParentPath(entry.path) == "" || FileKey(entry.user, ParentPath(entry.path)) in dirs
  }

  class Store {
    var files: map<FileKey, Stored>
    var dirs: set<FileKey>
    var cache: map<string, Info>

    /** The folders are exactly the parents of the files, no file is in another's way. */
    ghost predicate TreeOk() reads this {
      && (forall key :: key in files ==> ValidKey(key))
      && Exact(files.Keys, dirs) && NoneBelow(files.Keys)
    }

    /** A cache entry that matches a stored file's size and time has its hash. */
    ghost predicate CacheOk() reads this {
      forall key :: key in files && FullPath(key) in cache ==> Trusted(files[key], cache[FullPath(key)])
    }

    ghost predicate Valid() reads this {
      TreeOk() && CacheOk()
    }

    /** The listing from hashing every stored file of the user afresh. */
    ghost function Fresh(user: string): map<string, Info> reads this {
      map key | key in files && key.user == user :: key.path := InfoOf(files[key])
    }

    constructor ()
      ensures Valid() && files == map[] && dirs == {}
    {
      files, dirs, cache := map[], {}, map[];
    }

    /** mkdir: `made` or already there, or the way there is blocked. */
    method Mkdir(dir: FileKey) returns (present: bool)
      modifies this`dirs
      ensures present <==> dir in old(dirs) + files.Keys || Reachable(old(dirs), dir)
      ensures dirs == if present && dir !in files then old(dirs) + {dir} else old(dirs)
    {
      if dir in dirs || dir in files { return true; }
      if Reachable(dirs, dir) {
        dirs := dirs + {dir};
        return true;
      }
      return false;
    }

    /** make_parent_dirs: nothing is made if a file stands where a folder should be. */
    method MakeParentDirs(key: FileKey) returns (ok: bool)
      requires TreeOk() && ValidKey(key)
      modifies this`dirs
      ensures ok <==> Above(key, |key.path|) !! files.Keys
      ensures dirs == if ok then old(dirs) + Above(key, |key.path|) else old(dirs)
    {
      ValidPathStart(key.path);
      if ParentPath(key.path) == "" {
        NoSlashNoneAbove(key);
        return true;
      }
      NothingPast(key, LastSlash(key.path));
      ok := MakeDirs(key);
    }

    /** One round of make_dirs' loop. */
    method MakePart(key: FileKey, start: nat, slash: nat, ghost before: set<FileKey>, ghost blocked: bool)
      returns (present: bool)
      requires Exact(files.Keys, before) && NoneBelow(files.Keys) && Making(files.Keys, before, dirs, key, start, blocked)
      requires start <= slash < |key.path| && key.path[slash] == '/' && key.path[0] != '/'
      requires forall j :: start <= j < slash ==> key.path[j] != '/'
      modifies this`dirs
      ensures var file := FileKey(key.user, key.path[..slash]) in files;
        present ==> Making(files.Keys, before, dirs, key, slash + 1, blocked || file)
      ensures !present ==> dirs == before && !(Above(key, slash + 1) !! files.Keys)
    {
      ghost var was := dirs;
      present := Mkdir(FileKey(key.user, key.path[..slash]));
      MadeNext(files.Keys, before, was, dirs, key, start, slash, blocked, present);
    }

    /** make_dirs on the path's parent: one mkdir after every slash, then a last look. */
    method MakeDirs(key: FileKey) returns (ok: bool)
      requires Exact(files.Keys, dirs) && NoneBelow(files.Keys)
      requires ParentPath(key.path) != "" && key.path[0] != '/'
      modifies this`dirs
      ensures ok <==> Above(key, |ParentPath(key.path)| + 1) !! files.Keys
      ensures dirs == if ok then old(dirs) + Above(key, |ParentPath(key.path)| + 1) else old(dirs)
    {
      var parent := ParentPath(key.path);
      ghost var blocked := false;
      var start := 0;
      while start <= |parent|
        invariant 0 <= start <= |parent| + 1
        invariant Making(files.Keys, old(dirs), dirs, key, start, blocked)
      {
        var slash := start + FirstSlash(parent[start..]);
        NextSlash(key.path, |parent|, start, slash);
        var present := MakePart(key, start, slash, old(dirs), blocked);
        if !present {
          AboveGrows(key, slash + 1, |parent| + 1);
          return false;
        }
        blocked := blocked || FileKey(key.user, key.path[..slash]) in files;
        start := slash + 1;
      }
      ok := FileKey(key.user, parent) in dirs;
      LastLook(files.Keys, old(dirs), dirs, key, blocked);
    }

    /** commit: stored unless a file and a folder would need the same name; a refused
        commit changes neither files nor folders. */
    method Commit(key: FileKey, data: Bytes, mtime: int) returns (ok: bool)
      requires Valid() && ValidKey(key)
      modifies this
      ensures Valid()
      ensures ok <==> Free(old(files).Keys, key)
      ensures files == if ok then old(files)[key := Stored(data, mtime)] else old(files)
      ensures !ok ==> dirs == old(dirs)
    {
      FreeMeans(files.Keys, dirs, key);
      ok := MakeParentDirs(key);
      if !ok { return; }
      // Size and time could match an entry made for other contents.
      cache := cache - {FullPath(key)};
      ok := key !in dirs;
      if !ok {
        NeededAlready(files.Keys, old(dirs), key);
        return;
      }
      AddedExact(files.Keys, old(dirs), key);
      NowNoneBelow(files.Keys, key);
      files := files[key := Stored(data, mtime)];
      assert files.Keys == old(files).Keys + {key};
      OthersStillTrusted(old(files), old(cache), key, files);
    }

    /** remove_empty_parents. */
    method RemoveEmptyParents(key: FileKey)
      requires Cleaning(files.Keys, dirs, key, |key.path|) && key.path != "" && key.path[0] != '/'
      modifies this`dirs
      ensures Exact(files.Keys, dirs)
    {
      var path := key.path;
      assert key.path[..|path|] == key.path;
      while ParentPath(path) != ""
        invariant |path| <= |key.path| && path == key.path[..|path|]
        invariant Cleaning(files.Keys, dirs, key, |path|)
        decreases |path|
      {
        var dir := FileKey(key.user, ParentPath(path));
        AboveShorter(key, |path|, dir);
        if Holds(files.Keys, dirs, dir) {
          OccupiedIsNeeded(files.Keys, dirs, key, |path|, dir);
          return;
        }
        EmptyIsUnneeded(files.Keys, dirs, key, |path|, dir);
        dirs := dirs - {dir};
        path := ParentPath(path);
      }
      assert path != "" ==> path[0] != '/';
      NoneAbove(key, |path|);
    }

    /** remove. */
    method Remove(key: FileKey) returns (existed: bool)
      requires Valid() && ValidKey(key)
      modifies this
      ensures Valid()
      ensures existed <==> key in old(files)
      ensures files == old(files) - {key}
      ensures !existed ==> dirs == old(dirs)
    {
      existed := key in files;
      if !existed { return; }
      RemovedCleaning(files.Keys, dirs, key);
      ValidPathStart(key.path);
      files := files - {key};
      assert files.Keys == old(files).Keys - {key};
      RemoveEmptyParents(key);
      cache := cache - {FullPath(key)};
    }

    /** readdir: the names of the files and folders directly inside. */
    function Entries(user: string, rel: string): set<string> reads this {
      (set key | key in files && key.user == user && ParentPath(key.path) == rel :: BaseName(key.path))
      + (set key | key in dirs && key.user == user && ParentPath(key.path) == rel :: BaseName(key.path))
    }

    /** walk: every stored file in the folder is found, however deep it lies. */
    method Walk(user: string, rel: string, depth: nat) returns (found: set<string>)
      requires TreeOk() && depth == Depth(rel) < MAX_PATH_DEPTH
      ensures found == PathsUnder(files.Keys, user, rel)
      decreases MAX_PATH_DEPTH - depth, 1
    {
      found := {};
      var todo := Entries(user, rel);
      ghost var seen: set<string> := {};
      while todo != {}
        invariant seen + todo == Entries(user, rel)
        invariant found == PathsThrough(files.Keys, user, rel, seen)
      {
        var name :| name in todo;
        todo := todo - {name};
        var inside := WalkEntry(user, rel, depth, name);
        found := found + inside;
        ThroughOneMore(files.Keys, user, rel, seen, name);
        seen := seen + {name};
      }
      AllThroughEntries(files.Keys, dirs, user, rel, seen);
    }

    /** One round of walk's loop. */
    method WalkEntry(user: string, rel: string, depth: nat, name: string) returns (found: set<string>)
      requires TreeOk() && depth == Depth(rel) < MAX_PATH_DEPTH
      ensures found == PathsThrough(files.Keys, user, rel, {name})
      decreases MAX_PATH_DEPTH - depth, 0
    {
      var relative := Relative(rel, name);
      if !IsValidName(name) {
        InvalidEntry(files.Keys, user, rel, name);
        found := {};
      } else if FileKey(user, relative) in dirs && depth + 1 < MAX_PATH_DEPTH {
        FolderEntry(files.Keys, dirs, user, rel, name);
        found := Walk(user, relative, depth + 1);
      } else if FileKey(user, relative) in files && IsValidPath(relative) {
        FileEntry(files.Keys, user, rel, name);
        found := {relative};
      } else {
        OtherEntry(files.Keys, dirs, user, rel, name);
        found := {};
      }
    }

    /** list: cached hashes where size and time still match, fresh ones otherwise. */
    method List(user: string) returns (listing: map<string, Info>)
      requires Valid()
      modifies this`cache
      ensures Valid() && listing == Fresh(user)
    {
      listing := map[];
      var found := Walk(user, "", 0);
      var todo := found;
      while todo != {}
        invariant todo <= found && Valid()
        invariant listing.Keys == found - todo
        invariant forall path :: path in listing ==> listing[path] == InfoOf(files[FileKey(user, path)])
      {
        var path :| path in todo;
        todo := todo - {path};
        var key := FileKey(user, path);
        var file := files[key];
        var full := FullPath(key);
        if full in cache && cache[full].size == |file.data| && cache[full].mtime == file.mtime {
          listing := listing[path := Info(|file.data|, file.mtime, cache[full].hash)];
        } else {
          var _, hash := HashChunks(file.data, |file.data|);
          assert file.data[..|file.data|] == file.data;
          var info := Info(|file.data|, file.mtime, hash);
          CachedStillTrusted(files, cache, key, info);
          cache := cache[full := info];
          listing := listing[path := info];
        }
      }
    }
  }

  /** Folders are made from the top down until a file is in the way. */
  ghost predicate Making(files: set<FileKey>, before: set<FileKey>, dirs: set<FileKey>, key: FileKey, start: nat, blocked: bool) {
    && start <= |key.path| && (start > 0 ==> key.path[start - 1] == '/')
    && (blocked ==> start > 0 && FileKey(key.user, key.path[..start - 1]) in files && dirs == before)
    && (!blocked ==> Above(key, start) !! files && dirs == before + Above(key, start))
  }

  lemma BlockedAbove(files: set<FileKey>, key: FileKey, start: nat, end: nat)
    requires 0 < start <= end <= |key.path| && key.path[start - 1] == '/' && FileKey(key.user, key.path[..start - 1]) in files
    ensures !(Above(key, end) !! files)
  {
    assert FileKey(key.user, key.path[..start - 1]) in Above(key, end);
  }

  /** stat's verdict at the end: the parent is a folder unless it is a file. */
  lemma LastLook(files: set<FileKey>, before: set<FileKey>, dirs: set<FileKey>, key: FileKey, blocked: bool)
    requires Exact(files, before) && NoneBelow(files) && ParentPath(key.path) != ""
    requires Making(files, before, dirs, key, |ParentPath(key.path)| + 1, blocked)
    ensures var parent := FileKey(key.user, ParentPath(key.path));
      parent in dirs <==> Above(key, |parent.path| + 1) !! files
    ensures var parent := FileKey(key.user, ParentPath(key.path));
      dirs == if parent in dirs then before + Above(key, |parent.path| + 1) else before
  {
    var parent := FileKey(key.user, ParentPath(key.path));
    var n := |parent.path| + 1;
    if blocked {
      FileBlocks(files, dirs, parent, key);
      BlockedAbove(files, key, n, n);
    } else {
      assert parent in Above(key, n);
    }
  }

  lemma MadeNext(files: set<FileKey>, before: set<FileKey>, dirs: set<FileKey>, dirs': set<FileKey>,
                 key: FileKey, start: nat, slash: nat, blocked: bool, present: bool)
    requires Exact(files, before) && NoneBelow(files) && Making(files, before, dirs, key, start, blocked)
    requires start <= slash < |key.path| && key.path[slash] == '/' && key.path[0] != '/'
    requires forall j :: start <= j < slash ==> key.path[j] != '/'
    requires present <==> FileKey(key.user, key.path[..slash]) in dirs + files || Reachable(dirs, FileKey(key.user, key.path[..slash]))
    requires var part := FileKey(key.user, key.path[..slash]);
      dirs' == if present && part !in files then dirs + {part} else dirs
    ensures present ==> Making(files, before, dirs', key, slash + 1, blocked || FileKey(key.user, key.path[..slash]) in files)
    ensures !present ==> dirs' == before && !(Above(key, slash + 1) !! files)
  {
    var part := FileKey(key.user, key.path[..slash]);
    AboveNext(key, start, slash);
    PartParent(key.path, start, slash);
    if blocked {
      BlockedHere(files, dirs, key, start, slash);
      BlockedAbove(files, key, start, slash + 1);
      assert !present;
    } else {
      if start > 0 { assert FileKey(key.user, key.path[..start - 1]) in Above(key, start); }
      assert present;
      if part in files { FileHasFolders(files, before, part); }
    }
  }

  predicate Trusted(file: Stored, entry: Info) {
    entry.size == |file.data| && entry.mtime == file.mtime ==> entry.hash == Hash(file.data)
  }

  lemma NoSlashNoneAbove(key: FileKey)
    requires ValidKey(key) && ParentPath(key.path) == ""
    ensures Above(key, |key.path|) == {}
  {
    ValidPathStart(key.path);
    assert key.path[..|key.path|] == key.path;
    NoneAbove(key, |key.path|);
  }

  lemma NextSlash(path: string, end: nat, start: nat, slash: nat)
    requires start <= end < |path| && path[end] == '/'
    requires slash == start + FirstSlash(path[..end][start..])
    ensures start <= slash <= end && path[slash] == '/' && path[..end][..slash] == path[..slash]
    ensures forall j :: start <= j < slash ==> path[j] != '/'
  {
    var rest := path[..end][start..];
    assert forall j :: start <= j < end ==> rest[j - start] == path[j];
  }

  lemma NothingPast(key: FileKey, end: nat)
    requires end == LastSlash(key.path)
    ensures Above(key, |key.path|) == Above(key, end + 1)
  {
  }

  /** Below a file no folder can be made. */
  lemma BlockedHere(files: set<FileKey>, dirs: set<FileKey>, key: FileKey, start: nat, slash: nat)
    requires Exact(files, dirs) && NoneBelow(files)
    requires 0 < start <= slash < |key.path| && key.path[start - 1] == '/'
    requires FileKey(key.user, key.path[..start - 1]) in files
    ensures FileKey(key.user, key.path[..slash]) !in files && FileKey(key.user, key.path[..slash]) !in dirs
    ensures FileKey(key.user, key.path[..start - 1]) !in dirs
  {
    var file, part := FileKey(key.user, key.path[..start - 1]), FileKey(key.user, key.path[..slash]);
    assert part.path[start - 1] == '/' && part.path[..start - 1] == file.path;
    FileBlocks(files, dirs, file, part);
  }

  lemma NeededAlready(files: set<FileKey>, dirs: set<FileKey>, key: FileKey)
    requires Exact(files, dirs) && key in dirs + Above(key, |key.path|)
    ensures dirs + Above(key, |key.path|) == dirs && key in dirs
  {
    AboveIsBelow(key, key);
    var k :| k in files && k.user == key.user && Below(k.path, key.path);
    forall dir | dir in Above(key, |key.path|) ensures dir in dirs {
      AboveIsBelow(key, dir);
      BelowBelow(k.path, key.path, dir.path);
      assert IsParent(files, dir);
    }
  }

  lemma NowNoneBelow(files: set<FileKey>, key: FileKey)
    requires NoneBelow(files) && Free(files, key)
    ensures NoneBelow(files + {key})
  {
  }

  /** A new file invalidates no other file's cache entry. */
  lemma OthersStillTrusted(files: map<FileKey, Stored>, cache: map<string, Info>, key: FileKey, files': map<FileKey, Stored>)
    requires forall k :: k in files && FullPath(k) in cache ==> Trusted(files[k], cache[FullPath(k)])
    requires key in files' && forall k :: k in files' && k != key ==> k in files && files'[k] == files[k]
    ensures forall k :: k in files' && FullPath(k) in cache - {FullPath(key)} ==>
      Trusted(files'[k], (cache - {FullPath(key)})[FullPath(k)])
  {
  }

  lemma AboveGrows(key: FileKey, m: nat, n: nat)
    requires m <= n <= |key.path|
    ensures Above(key, m) <= Above(key, n)
  {
  }

  /** Caching one file's hash invalidates no other entry: full paths are distinct. */
  lemma CachedStillTrusted(files: map<FileKey, Stored>, cache: map<string, Info>, key: FileKey, info: Info)
    requires forall k :: k in files ==> ValidKey(k)
    requires forall k :: k in files && FullPath(k) in cache ==> Trusted(files[k], cache[FullPath(k)])
    requires key in files && Trusted(files[key], info)
    ensures forall k :: k in files && FullPath(k) in cache[FullPath(key) := info] ==>
      Trusted(files[k], cache[FullPath(key) := info][FullPath(k)])
  {
    forall k | k in files && FullPath(k) == FullPath(key) ensures k == key { FullPathInjective(k, key); }
  }
}
