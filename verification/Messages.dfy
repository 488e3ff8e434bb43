/** The objects that write and read payloads (common/protocol.cpp), and the loops over
    lists and manifests built on them. A method that stands for a throwing one returns
    whether it did not throw. */
module Messages {

  import opened Basics
  import opened Octets
  import opened Wire

  class Writer {
    var buf: Bytes

    constructor ()
      ensures buf == []
    {
      buf := [];
    }

    method U8(n: byte)
      modifies this
      ensures buf == old(buf) + PutU8(n)
    {
      buf := buf + [n];
    }

    method U16(n: u16)
      modifies this
      ensures buf == old(buf) + PutU16(n)
    {
      U8(n / 0x100);
      U8(n % 0x100);
    }

    method U32(n: u32)
      modifies this
      ensures buf == old(buf) + PutU32(n)
    {
      U16(n / TWO_16);
      U16(n % TWO_16);
    }

    method U64(n: u64)
      modifies this
      ensures buf == old(buf) + PutU64(n)
    {
      U32(n / TWO_32);
      U32(n % TWO_32);
    }

    method I64(n: i64)
      modifies this
      ensures buf == old(buf) + PutI64(n)
    {
      U64(Unsigned(n));
    }

    /** str throws for a string whose length sixteen bits cannot hold. */
    method Str(s: Bytes) returns (ok: bool)
      modifies this
      ensures ok <==> |s| <= MAX_TEXT
      ensures ok ==> buf == old(buf) + PutStr(s)
      ensures !ok ==> buf == old(buf)
    {
      if |s| > MAX_TEXT { return false; }
      U16(|s|);
      buf := buf + s;
      return true;
    }

    method WriteServer(s: ServerAddress) returns (ok: bool)
      modifies this
      ensures ok <==> |s.host| <= MAX_TEXT
      ensures ok ==> buf == old(buf) + PutServer(s)
    {
      U32(s.id);
      ok := Str(s.host);
      if ok { U16(s.port); }
    }

    method WriteServers(servers: seq<ServerAddress>) returns (ok: bool)
      modifies this
      ensures ok <==> AllFit(servers)
      ensures ok ==> buf == old(buf) + PutServers(servers)
    {
      U16(|servers| % TWO_16);
      ok := WriteEach(servers);
    }

    /** The loop of write_servers. */
    method WriteEach(servers: seq<ServerAddress>) returns (ok: bool)
      modifies this
      ensures ok <==> AllFit(servers)
      ensures ok ==> buf == old(buf) + PutMany<Server>(PutServer, servers)
    {
      ghost var start, written: seq<Server> := buf, [];
      for i := 0 to |servers|
        invariant written == servers[..i] && buf == start + PutMany<Server>(PutServer, written)
      {
        ghost var before := buf;
        ok := WriteServer(servers[i]);
        if !ok { return; }
        ghost var one: Server := servers[i];
        OneMoreWritten<Server>(PutServer, written, one, start, before, buf);
        written := written + [one];
      }
      assert written == servers;
      ok := true;
    }

    method WriteAccount(a: AccountEntry) returns (ok: bool)
      modifies this
      ensures ok <==> |a.user| <= MAX_TEXT && |a.record| <= MAX_TEXT
      ensures ok ==> buf == old(buf) + PutAccount(a)
    {
      ok := Str(a.user);
      if ok { ok := Str(a.record); }
    }

    method WriteOwnedFile(f: FileEntry) returns (ok: bool)
      modifies this
      ensures ok <==> |f.user| <= MAX_TEXT && |f.file.name| <= MAX_TEXT
      ensures ok ==> buf == old(buf) + PutOwned(f)
    {
      ok := Str(f.user);
      if ok { ok := WriteFileInfo(f.file); }
    }

    method WriteAccounts(accounts: seq<AccountEntry>) returns (ok: bool)
      modifies this
      ensures ok <==> AccountsFit(accounts)
      ensures ok ==> buf == old(buf) + PutCounted<Account>(PutAccount, accounts)
    {
      U32(|accounts| % TWO_32);
      ghost var start, written: seq<Account> := buf, [];
      for i := 0 to |accounts|
        invariant written == accounts[..i] && buf == start + PutMany<Account>(PutAccount, written)
      {
        ghost var before := buf;
        ok := WriteAccount(accounts[i]);
        if !ok { return; }
        ghost var one: Account := accounts[i];
        OneMoreWritten<Account>(PutAccount, written, one, start, before, buf);
        written := written + [one];
      }
      assert written == accounts;
      ok := true;
    }

    method WriteOwned(files: seq<FileEntry>) returns (ok: bool)
      modifies this
      ensures ok <==> FilesFit(files)
      ensures ok ==> buf == old(buf) + PutCounted<OwnedFile>(PutOwned, files)
    {
      U32(|files| % TWO_32);
      ghost var start, written: seq<OwnedFile> := buf, [];
      for i := 0 to |files|
        invariant written == files[..i] && buf == start + PutMany<OwnedFile>(PutOwned, written)
      {
        ghost var before := buf;
        var f := files[i];
        ok := WriteOwnedFile(f);
        if !ok { return; }
        ghost var one: OwnedFile := f;
        OneMoreTyped(files, i, written, one);
        OneMoreWritten<OwnedFile>(PutOwned, written, one, start, before, buf);
        written := written + [one];
      }
      AllTyped(files, written);
      Regroup(old(buf), PutU32(|files| % TWO_32), PutMany<OwnedFile>(PutOwned, written));
      ok := true;
    }

    method WriteFileHeader(f: FileInfo) returns (ok: bool)
      modifies this
      ensures ok <==> |f.name| <= MAX_TEXT
      ensures ok ==> buf == old(buf) + PutFileHeader(f)
    {
      ok := Str(f.name);
      if ok {
        U64(f.size);
        I64(f.mtime);
      }
    }

    method WriteFileInfo(f: FileInfo) returns (ok: bool)
      modifies this
      ensures ok <==> |f.name| <= MAX_TEXT
      ensures ok ==> buf == old(buf) + PutFileInfo(f)
    {
      ok := WriteFileHeader(f);
      if ok { U64(f.hash); }
    }
  }

  class Reader {
    const data: Bytes
    var pos: nat

    /** The reader never leaves the payload. */
    ghost predicate Valid() reads this {
      pos <= |data|
    }

    ghost function Left(): Bytes
      requires Valid()
      reads this
    {
      data[pos..]
    }

    constructor (data: Bytes)
      ensures Valid() && Left() == data && this.data == data
    {
      this.data, pos := data, 0;
    }

    /** take: the next `n` bytes, or no step at all. */
    method Take(n: nat) returns (ok: bool, p: Bytes)
      requires Valid()
      modifies this
      ensures Valid() && (ok <==> n <= |old(Left())|)
      ensures ok ==> old(Left()) == p + Left() && |p| == n
      ensures !ok ==> Left() == old(Left())
    {
      if |data| - pos < n { return false, []; }
      p := data[pos..pos + n];
      pos := pos + n;
      ok := true;
      assert p + data[pos..] == data[old(pos)..];
    }

    method U8() returns (ok: bool, n: byte)
      requires Valid()
      modifies this
      ensures Valid() && Matches(ok, n, GetU8(old(Left())), Left())
    {
      var p;
      ok, p := Take(1);
      if !ok { return false, 0; }
      n := p[0];
    }

    method U16() returns (ok: bool, n: u16)
      requires Valid()
      modifies this
      ensures Valid() && Matches(ok, n, GetU16(old(Left())), Left())
    {
      var p;
      ok, p := Take(2);
      if !ok { return false, 0; }
      n := (p[0] as int) * 0x100 + p[1];
    }

    method U32() returns (ok: bool, n: u32)
      requires Valid()
      modifies this
      ensures Valid() && Matches(ok, n, GetU32(old(Left())), Left())
    {
      var high, low;
      n := 0;
      ok, high := U16();
      if !ok { return; }
      ok, low := U16();
      if !ok { return; }
      n := (high as int) * TWO_16 + low;
    }

    method U64() returns (ok: bool, n: u64)
      requires Valid()
      modifies this
      ensures Valid() && Matches(ok, n, GetU64(old(Left())), Left())
    {
      var high, low;
      n := 0;
      ok, high := U32();
      if !ok { return; }
      ok, low := U32();
      if !ok { return; }
      n := (high as int) * TWO_32 + low;
    }

    method I64() returns (ok: bool, n: i64)
      requires Valid()
      modifies this
      ensures Valid() && Matches(ok, n, GetI64(old(Left())), Left())
    {
      var raw;
      ok, raw := U64();
      n := Signed(raw);
    }

    method Str() returns (ok: bool, s: Text)
      requires Valid()
      modifies this
      ensures Valid() && Matches(ok, s, GetStr(old(Left())), Left())
    {
      var size;
      s := [];
      ok, size := U16();
      if !ok { return; }
      var p;
      ok, p := Take(size);
      if !ok { return; }
      s := p;
    }

    method ReadServer() returns (ok: bool, s: Server)
      requires Valid()
      modifies this
      ensures Valid() && Matches(ok, s, GetServer(old(Left())), Left())
    {
      var id, host, port;
      s := ServerAddress(0, [], 0);
      ok, id := U32();
      if !ok { return; }
      ok, host := Str();
      if !ok { return; }
      ok, port := U16();
      if !ok { return; }
      s := ServerAddress(id, host, port);
    }

    method ReadServers() returns (ok: bool, servers: seq<Server>)
      requires Valid()
      modifies this
      ensures Valid() && Matches(ok, servers, GetServers(old(Left())), Left())
    {
      var count;
      servers := [];
      ok, count := U16();
      if !ok { return; }
      ghost var start := Left();
      NothingRead(GetServer, count, start);
      while |servers| < count
        invariant Valid() && ReadsOn(GetServer, count, start, servers, Left())
      {
        var s;
        ghost var before := Left();
        ok, s := ReadServer();
        if !ok {
          RanShort(GetServer, count, start, servers, before);
          return;
        }
        OneMoreRead(GetServer, count, start, servers, before, s, Left());
        servers := servers + [s];
      }
      AllRead(GetServer, count, start, servers, Left());
    }

    method ReadFileHeader() returns (ok: bool, f: File)
      requires Valid()
      modifies this
      ensures Valid() && Matches(ok, f, GetFileHeader(old(Left())), Left())
    {
      var name, size, mtime;
      f := FileInfo([], 0, 0, 0);
      ok, name := Str();
      if !ok { return; }
      ok, size := U64();
      if !ok { return; }
      ok, mtime := I64();
      if !ok { return; }
      f := FileInfo(name, size, mtime, 0);
    }

    method ReadFileInfo() returns (ok: bool, f: File)
      requires Valid()
      modifies this
      ensures Valid() && Matches(ok, f, GetFileInfo(old(Left())), Left())
    {
      var hash;
      ok, f := ReadFileHeader();
      if !ok { return; }
      ok, hash := U64();
      f := f.(hash := hash);
    }

    method ReadAccount() returns (ok: bool, a: Account)
      requires Valid()
      modifies this
      ensures Valid() && Matches(ok, a, GetAccount(old(Left())), Left())
    {
      var user, record;
      a := AccountEntry([], []);
      ok, user := Str();
      if !ok { return; }
      ok, record := Str();
      a := AccountEntry(user, record);
    }

    method ReadOwnedFile() returns (ok: bool, f: OwnedFile)
      requires Valid()
      modifies this
      ensures Valid() && Matches(ok, f, GetOwned(old(Left())), Left())
    {
      var user, file;
      f := FileEntry([], FileInfo([], 0, 0, 0));
      ok, user := Str();
      if !ok { return; }
      ok, file := ReadFileInfo();
      f := FileEntry(user, file);
    }

    method ReadAccounts() returns (ok: bool, accounts: map<Text, Text>)
      requires Valid()
      modifies this
      ensures Valid() && var parsed := GetCounted(GetAccount, old(Left()));
        if ok then parsed.Got? && accounts == Folded(AccountPair, parsed.value) && Left() == parsed.rest else parsed == Short
    {
      var count;
      accounts := map[];
      ok, count := U32();
      if !ok { return; }
      ghost var start, xs: seq<Account> := Left(), [];
      NothingRead(GetAccount, count, start);
      for i := 0 to count
        invariant Valid() && |xs| == i && accounts == Folded(AccountPair, xs)
        invariant ReadsOn(GetAccount, count, start, xs, Left())
      {
        var a;
        ghost var before := Left();
        ok, a := ReadAccount();
        if !ok {
          RanShort(GetAccount, count, start, xs, before);
          return;
        }
        OneMoreRead(GetAccount, count, start, xs, before, a, Left());
        OneMoreFolded(AccountPair, xs, a);
        xs := xs + [a];
        accounts := accounts[a.user := a.record];
      }
      AllRead(GetAccount, count, start, xs, Left());
    }

    method ReadOwned() returns (ok: bool, files: map<(Text, Text), File>)
      requires Valid()
      modifies this
      ensures Valid() && var parsed := GetCounted(GetOwned, old(Left()));
        if ok then parsed.Got? && files == Folded(OwnedPair, parsed.value) && Left() == parsed.rest else parsed == Short
    {
      var count;
      files := map[];
      ok, count := U32();
      if !ok { return; }
      ghost var start, xs: seq<OwnedFile> := Left(), [];
      NothingRead(GetOwned, count, start);
      for i := 0 to count
        invariant Valid() && |xs| == i && files == Folded(OwnedPair, xs)
        invariant ReadsOn(GetOwned, count, start, xs, Left())
      {
        var f;
        ghost var before := Left();
        ok, f := ReadOwnedFile();
        if !ok {
          RanShort(GetOwned, count, start, xs, before);
          return;
        }
        OneMoreRead(GetOwned, count, start, xs, before, f, Left());
        OneMoreFolded(OwnedPair, xs, f);
        xs := xs + [f];
        files := files[(f.user, f.file.name) := f.file];
      }
      AllRead(GetOwned, count, start, xs, Left());
    }
  }

  predicate AllFit(servers: seq<ServerAddress>) {
    forall s :: s in servers ==> |s.host| <= MAX_TEXT
  }

  lemma OneMoreWritten<T>(put: T -> Bytes, xs: seq<T>, x: T, start: Bytes, before: Bytes, after: Bytes)
    requires before == start + PutMany(put, xs) && after == before + put(x)
    ensures after == start + PutMany(put, xs + [x])
  {
    PutManyAppend(put, xs, x);
    Regroup(start, PutMany(put, xs), put(x));
  }

  lemma OneMoreTyped(files: seq<FileEntry>, i: nat, written: seq<OwnedFile>, one: OwnedFile)
    requires i < |files| && written == files[..i] && one == files[i]
    ensures written + [one] == files[..i + 1]
  {
  }

  lemma AllTyped(files: seq<FileEntry>, written: seq<OwnedFile>)
    requires written == files[..|files|]
    ensures FilesFit(files) && written == files
  {
    assert files[..|files|] == files;
    forall f | f in files ensures |f.user| <= MAX_TEXT && |f.file.name| <= MAX_TEXT { assert f in written; }
  }

  predicate AccountsFit(accounts: seq<AccountEntry>) {
    forall a :: a in accounts ==> |a.user| <= MAX_TEXT && |a.record| <= MAX_TEXT
  }

  predicate FilesFit(files: seq<FileEntry>) {
    forall f :: f in files ==> |f.user| <= MAX_TEXT && |f.file.name| <= MAX_TEXT
  }

  /** A read succeeds where the format says so, with its value, and leaves the rest. */
  ghost predicate Matches<T(!new)>(ok: bool, x: T, parsed: Parsed<T>, left: Bytes) {
    if ok then parsed == Got(x, left) else parsed == Short
  }

  function Prefixed<T>(xs: seq<T>, r: Parsed<seq<T>>): Parsed<seq<T>> {
    match r
    case Short => Short
    case Got(ys, rest) => Got(xs + ys, rest)
  }

  /** After `xs`, reading goes on at `left`. */
  ghost predicate ReadsOn<T(!new)>(get: Bytes -> Parsed<T>, n: nat, start: Bytes, xs: seq<T>, left: Bytes) {
    |xs| <= n && GetMany(get, n, start) == Prefixed(xs, GetMany(get, n - |xs|, left))
  }

  lemma NothingRead<T(!new)>(get: Bytes -> Parsed<T>, n: nat, start: Bytes)
    ensures ReadsOn(get, n, start, [], start)
  {
    var all := GetMany(get, n, start);
    if all.Got? { assert [] + all.value == all.value; }
  }

  lemma OneMoreRead<T(!new)>(get: Bytes -> Parsed<T>, n: nat, start: Bytes, xs: seq<T>, b: Bytes, x: T, b': Bytes)
    requires ReadsOn(get, n, start, xs, b) && |xs| < n && get(b) == Got(x, b')
    ensures ReadsOn(get, n, start, xs + [x], b')
  {
    var more := GetMany(get, n - |xs| - 1, b');
    assert |xs + [x]| == |xs| + 1;
    if more.Got? { assert xs + ([x] + more.value) == (xs + [x]) + more.value; }
  }

  lemma RanShort<T(!new)>(get: Bytes -> Parsed<T>, n: nat, start: Bytes, xs: seq<T>, b: Bytes)
    requires ReadsOn(get, n, start, xs, b) && |xs| < n && get(b) == Short
    ensures GetMany(get, n, start) == Short
  {
  }

  lemma AllRead<T(!new)>(get: Bytes -> Parsed<T>, n: nat, start: Bytes, xs: seq<T>, left: Bytes)
    requires ReadsOn(get, n, start, xs, left) && |xs| == n
    ensures GetMany(get, n, start) == Got(xs, left)
  {
    assert xs + [] == xs;
  }

  lemma {:induction false} PutManyAppend<T>(put: T -> Bytes, xs: seq<T>, x: T)
    ensures PutMany(put, xs + [x]) == PutMany(put, xs) + put(x)
  {
    if xs == [] {
      assert [x][1..] == [];
    } else {
      assert (xs + [x])[1..] == xs[1..] + [x];
      PutManyAppend(put, xs[1..], x);
    }
  }

  /* ------------------------------------------------------------------ manifests */

  /** Entries put into a map one after another. */
  function Folded<E, K(==), V>(pair: E -> (K, V), entries: seq<E>): map<K, V> {
    if entries == [] then map[]
    else
      var last := pair(entries[|entries| - 1]);
      Folded(pair, entries[..|entries| - 1])[last.0 := last.1]
  }

  lemma OneMoreFolded<E, K, V>(pair: E -> (K, V), entries: seq<E>, e: E)
    ensures Folded(pair, entries + [e]) == Folded(pair, entries)[pair(e).0 := pair(e).1]
  {
    assert (entries + [e])[..|entries|] == entries;
  }

  ghost predicate Agree<E(!new), K(!new), V(!new)>(pair: E -> (K, V), entries: seq<E>, m: map<K, V>) {
    forall e :: e in entries ==> pair(e).0 in m && m[pair(e).0] == pair(e).1
  }

  ghost predicate Lists<E(!new), K(!new), V(!new)>(pair: E -> (K, V), entries: seq<E>, k: K) {
    exists e :: e in entries && pair(e).0 == k
  }

  /** `entries` are those of the map, in some order. */
  ghost predicate Enumerates<E(!new), K(!new), V(!new)>(pair: E -> (K, V), entries: seq<E>, m: map<K, V>) {
    Agree(pair, entries, m) && forall k :: k in m ==> Lists(pair, entries, k)
  }

  lemma {:induction false} FoldedMeans<E(!new), K(!new), V(!new)>(pair: E -> (K, V), entries: seq<E>, m: map<K, V>)
    requires Agree(pair, entries, m)
    ensures forall k :: Lists(pair, entries, k) ==> k in Folded(pair, entries)
    ensures forall k :: k in Folded(pair, entries) ==> k in m && Folded(pair, entries)[k] == m[k]
  {
    if entries != [] {
      var front, last := entries[..|entries| - 1], entries[|entries| - 1];
      assert entries == front + [last];
      FoldedMeans(pair, front, m);
      forall k | Lists(pair, entries, k) ensures k in Folded(pair, entries) {
        if k != pair(last).0 {
          var e :| e in entries && pair(e).0 == k;
          assert e in front && Lists(pair, front, k);
        }
      }
    }
  }

  lemma FoldedEnumerates<E(!new), K(!new), V(!new)>(pair: E -> (K, V), entries: seq<E>, m: map<K, V>)
    requires Enumerates(pair, entries, m)
    ensures Folded(pair, entries) == m
  {
    FoldedMeans(pair, entries, m);
  }

  lemma ManifestBack(m: Manifest)
    requires |m.accounts| < TWO_32 && |m.files| < TWO_32
    ensures GetManifest(PutManifest(m)) == Got(m, [])
  {
    ManifestExact(m, PutManifest(m), []);
    assert PutManifest(m) + [] == PutManifest(m);
  }

  function AccountPair(a: Account): (Text, Text) {
    (a.user, a.record)
  }

  function OwnedPair(f: OwnedFile): ((Text, Text), File) {
    ((f.user, f.file.name), f.file)
  }

  /** What the primary makes of a backup's manifest is exactly what the backup has, in
      whatever order it listed it. */
  lemma ManifestReturns(m: Manifest, accounts: map<Text, Text>, files: map<(Text, Text), File>)
    requires |m.accounts| < TWO_32 && |m.files| < TWO_32
    requires Enumerates(AccountPair, m.accounts, accounts) && Enumerates(OwnedPair, m.files, files)
    ensures GetManifest(PutManifest(m)) == Got(m, [])
    ensures Folded(AccountPair, m.accounts) == accounts && Folded(OwnedPair, m.files) == files
  {
    ManifestBack(m);
    FoldedEnumerates(AccountPair, m.accounts, accounts);
    FoldedEnumerates(OwnedPair, m.files, files);
  }

  /** build_manifest throws for a text whose length sixteen bits cannot hold. */
  method BuildManifest(accounts: seq<AccountEntry>, files: seq<FileEntry>) returns (ok: bool, payload: Bytes)
    ensures ok <==> AccountsFit(accounts) && FilesFit(files)
    ensures ok ==> payload == PutManifest(Manifest(accounts, files))
  {
    payload := [];
    var w := new Writer();
    ok := w.WriteAccounts(accounts);
    if !ok { return; }
    ok := w.WriteOwned(files);
    if ok { payload := w.buf; }
  }

  /** A manifest is read as two counted lists, one after the other. */
  lemma ManifestParts(payload: Bytes)
    ensures var first := GetCounted(GetAccount, payload);
      first.Short? ==> GetManifest(payload) == Short
    ensures var first := GetCounted(GetAccount, payload);
      first.Got? ==>
        var second := GetCounted(GetOwned, first.rest);
        if second.Short? then GetManifest(payload) == Short
        else GetManifest(payload) == Got(Manifest(first.value, second.value), second.rest)
  {
  }

  /** The two loops over a manifest in attach_replica. */
  method ReadManifest(payload: Bytes) returns (ok: bool, accounts: map<Text, Text>, files: map<(Text, Text), File>)
    ensures ok <==> GetManifest(payload).Got?
    ensures ok ==> var m := GetManifest(payload).value;
      accounts == Folded(AccountPair, m.accounts) && files == Folded(OwnedPair, m.files)
  {
    files := map[];
    ManifestParts(payload);
    var r := new Reader(payload);
    ok, accounts := r.ReadAccounts();
    if ok { ok, files := r.ReadOwned(); }
  }
}
