/** The byte format of message payloads (common/protocol.cpp, common/files.cpp,
    server/cluster.cpp): what is written, what is read, and that they match exactly. */
module Wire {

  import opened Basics
  import opened Octets

  const MAX_TEXT: nat := 0xFFFF

  /** A string the format can carry. */
  type Text = s: Bytes | |s| <= MAX_TEXT

  /** A field and the bytes after it; `Short` where the reader throws. */
  datatype Parsed<+T> = Got(value: T, rest: Bytes) | Short

  /** Put(x) is the one way to write x: reading gives x and `rest` exactly when the bytes
      are Put(x) followed by `rest`. */
  ghost predicate ExactAt<T(!new)>(put: T -> Bytes, get: Bytes -> Parsed<T>, x: T, b: Bytes, rest: Bytes) {
    get(b) == Got(x, rest) <==> b == put(x) + rest
  }

  ghost predicate Exact<T(!new)>(put: T -> Bytes, get: Bytes -> Parsed<T>) {
    forall x, b, rest :: ExactAt(put, get, x, b, rest)
  }

  /* --------------------------------------------------------------- integers */

  function PutU8(n: byte): Bytes { [n] }

  function PutU16(n: u16): Bytes { [n / 0x100, n % 0x100] }

  function PutU32(n: u32): Bytes { PutU16(n / TWO_16) + PutU16(n % TWO_16) }

  function PutU64(n: u64): Bytes { PutU32(n / TWO_32) + PutU32(n % TWO_32) }

  function PutI64(n: i64): Bytes { PutU64(Unsigned(n)) }

  function GetU8(b: Bytes): Parsed<byte> {
    if |b| < 1 then Short else Got(b[0], b[1..])
  }

  function GetU16(b: Bytes): Parsed<u16> {
    if |b| < 2 then Short else Got((b[0] as int) * 0x100 + b[1], b[2..])
  }

  function GetU32(b: Bytes): Parsed<u32> {
    match GetU16(b)
    case Short => Short
    case Got(high, rest) =>
      match GetU16(rest)
      case Short => Short
      case Got(low, rest') => Got(high * TWO_16 + low, rest')
  }

  function GetU64(b: Bytes): Parsed<u64> {
    match GetU32(b)
    case Short => Short
    case Got(high, rest) =>
      match GetU32(rest)
      case Short => Short
      case Got(low, rest') => Got(high * TWO_32 + low, rest')
  }

  function GetI64(b: Bytes): Parsed<i64> {
    match GetU64(b)
    case Short => Short
    case Got(n, rest) => Got(Signed(n), rest)
  }

  /** The number whose digits to the base 256 these are, the most significant first. */
  function NumberOf(b: Bytes): nat {
    if b == [] then 0 else NumberOf(b[..|b| - 1]) * 0x100 + b[|b| - 1]
  }

  lemma NumberOfAppend(b: Bytes, digit: byte)
    ensures NumberOf(b + [digit]) == NumberOf(b) * 0x100 + digit
  {
    assert (b + [digit])[..|b|] == b;
  }

  lemma NumberOfTwo(b: Bytes, high: byte, low: byte)
    ensures NumberOf(b + [high, low]) == NumberOf(b) * TWO_16 + (high as int) * 0x100 + low
  {
    NumberOfAppend(b, high);
    NumberOfAppend(b + [high], low);
    assert b + [high, low] == b + [high] + [low];
  }

  lemma BigEndian16(b: Bytes, n: u16)
    ensures NumberOf(b + PutU16(n)) == NumberOf(b) * TWO_16 + n
  {
    NumberOfTwo(b, n / 0x100, n % 0x100);
  }

  lemma BigEndian32(b: Bytes, n: u32)
    ensures NumberOf(b + PutU32(n)) == NumberOf(b) * TWO_32 + n
  {
    var high, low := PutU16(n / TWO_16), PutU16(n % TWO_16);
    Regroup(b, high, low);
    BigEndian16(b, n / TWO_16);
    BigEndian16(b + high, n % TWO_16);
  }

  /** Numbers go out in as many bytes as their width says, the most significant one first. */
  lemma BigEndian(n: u64)
    ensures |PutU64(n)| == 8 && NumberOf(PutU64(n)) == n
    ensures n < TWO_32 ==> |PutU32(n)| == 4 && NumberOf(PutU32(n)) == n
    ensures n < TWO_16 ==> |PutU16(n)| == 2 && NumberOf(PutU16(n)) == n
  {
    var high, low := PutU32(n / TWO_32), PutU32(n % TWO_32);
    BigEndian32([], n / TWO_32);
    BigEndian32(high, n % TWO_32);
    assert [] + high == high;
    if n < TWO_32 {
      BigEndian32([], n);
      assert [] + PutU32(n) == PutU32(n);
    }
    if n < TWO_16 {
      BigEndian16([], n);
      assert [] + PutU16(n) == PutU16(n);
    }
  }

  lemma U8Exact(n: byte, b: Bytes, rest: Bytes)
    ensures GetU8(b) == Got(n, rest) <==> b == PutU8(n) + rest
  {
    if |b| >= 1 { assert b == [b[0]] + b[1..]; }
  }

  lemma U16Exact(n: u16, b: Bytes, rest: Bytes)
    ensures GetU16(b) == Got(n, rest) <==> b == PutU16(n) + rest
  {
    if |b| >= 2 { assert b == [b[0], b[1]] + b[2..]; }
  }

  lemma Quarters(high: u16, low: u16, n: u32)
    ensures high * TWO_16 + low == n <==> high == n / TWO_16 && low == n % TWO_16
  {
  }

  lemma U32Exact(n: u32, b: Bytes, rest: Bytes)
    ensures GetU32(b) == Got(n, rest) <==> b == PutU32(n) + rest
  {
    var high, low := n / TWO_16, n % TWO_16;
    var tail := PutU16(low) + rest;
    Regroup(PutU16(high), PutU16(low), rest);
    U16Exact(high, b, tail);
    U16Exact(low, tail, rest);
    Quarters(high, low, n);
    if GetU16(b).Got? {
      var b' := GetU16(b).rest;
      U16Exact(GetU16(b).value, b, b');
      if GetU16(b').Got? {
        Quarters(GetU16(b).value, GetU16(b').value, n);
        U16Exact(GetU16(b').value, b', GetU16(b').rest);
      }
    }
  }

  lemma Halves(high: u32, low: u32, n: u64)
    ensures high * TWO_32 + low == n <==> high == n / TWO_32 && low == n % TWO_32
  {
  }

  lemma U64Exact(n: u64, b: Bytes, rest: Bytes)
    ensures GetU64(b) == Got(n, rest) <==> b == PutU64(n) + rest
  {
    var high, low := n / TWO_32, n % TWO_32;
    var tail := PutU32(low) + rest;
    Regroup(PutU32(high), PutU32(low), rest);
    U32Exact(high, b, tail);
    U32Exact(low, tail, rest);
    Halves(high, low, n);
    if GetU32(b).Got? {
      var b' := GetU32(b).rest;
      U32Exact(GetU32(b).value, b, b');
      if GetU32(b').Got? {
        Halves(GetU32(b).value, GetU32(b').value, n);
        U32Exact(GetU32(b').value, b', GetU32(b').rest);
      }
    }
  }

  lemma I64Exact(n: i64, b: Bytes, rest: Bytes)
    ensures GetI64(b) == Got(n, rest) <==> b == PutI64(n) + rest
  {
    U64Exact(Unsigned(n), b, rest);
  }

  /* ----------------------------------------------------------------- strings */

  function PutStr(s: Text): Bytes { PutU16(|s|) + s }

  function GetStr(b: Bytes): Parsed<Text> {
    match GetU16(b)
    case Short => Short
    case Got(n, rest) => if |rest| < n then Short else Got(rest[..n], rest[n..])
  }

  lemma StrExact(s: Text, b: Bytes, rest: Bytes)
    ensures GetStr(b) == Got(s, rest) <==> b == PutStr(s) + rest
  {
    assert PutStr(s) + rest == PutU16(|s|) + (s + rest);
    U16Exact(|s|, b, s + rest);
    if GetU16(b).Got? {
      var n, tail := GetU16(b).value, GetU16(b).rest;
      U16Exact(n, b, tail);
      if n <= |tail| { assert tail == tail[..n] + tail[n..]; }
      assert (s + rest)[..|s|] == s && (s + rest)[|s|..] == rest;
    }
  }

  /* ------------------------------------------------------------- lists */

  function PutMany<T>(put: T -> Bytes, xs: seq<T>): Bytes {
    if xs == [] then [] else put(xs[0]) + PutMany(put, xs[1..])
  }

  function GetMany<T>(get: Bytes -> Parsed<T>, n: nat, b: Bytes): (r: Parsed<seq<T>>)
    ensures r.Got? ==> |r.value| == n
  {
    if n == 0 then Got([], b)
    else match get(b)
      case Short => Short
      case Got(x, rest) =>
        match GetMany(get, n - 1, rest)
        case Short => Short
        case Got(xs, rest') => Got([x] + xs, rest')
  }

  lemma GetManyStep<T(!new)>(get: Bytes -> Parsed<T>, n: nat, b: Bytes, x: T, b': Bytes, xs: seq<T>, rest: Bytes)
    requires n > 0 && get(b) == Got(x, b') && GetMany(get, n - 1, b') == Got(xs, rest)
    ensures GetMany(get, n, b) == Got([x] + xs, rest)
  {
  }

  lemma {:induction false} ManyReads<T(!new)>(put: T -> Bytes, get: Bytes -> Parsed<T>, xs: seq<T>, rest: Bytes)
    requires Exact(put, get)
    ensures GetMany(get, |xs|, PutMany(put, xs) + rest) == Got(xs, rest)
  {
    if xs == [] {
      assert PutMany(put, xs) + rest == rest;
    } else {
      var tail := PutMany(put, xs[1..]) + rest;
      Regroup(put(xs[0]), PutMany(put, xs[1..]), rest);
      assert ExactAt(put, get, xs[0], put(xs[0]) + tail, tail);
      ManyReads(put, get, xs[1..], rest);
      GetManyStep(get, |xs|, put(xs[0]) + tail, xs[0], tail, xs[1..], rest);
      assert xs == [xs[0]] + xs[1..];
    }
  }

  lemma {:induction false} ManyOnly<T(!new)>(put: T -> Bytes, get: Bytes -> Parsed<T>, n: nat, b: Bytes)
    requires Exact(put, get) && GetMany(get, n, b).Got?
    ensures var r := GetMany(get, n, b); b == PutMany(put, r.value) + r.rest
  {
    var xs, rest := GetMany(get, n, b).value, GetMany(get, n, b).rest;
    if n == 0 {
      assert PutMany(put, xs) + rest == rest;
    } else {
      var x, b' := get(b).value, get(b).rest;
      assert ExactAt(put, get, x, b, b');
      ManyOnly(put, get, n - 1, b');
      var more := GetMany(get, n - 1, b').value;
      assert xs == [x] + more && xs[1..] == more;
      Regroup(put(x), PutMany(put, more), rest);
    }
  }

  lemma ManyExact<T(!new)>(put: T -> Bytes, get: Bytes -> Parsed<T>, xs: seq<T>, b: Bytes, rest: Bytes)
    requires Exact(put, get)
    ensures GetMany(get, |xs|, b) == Got(xs, rest) <==> b == PutMany(put, xs) + rest
  {
    ManyReads(put, get, xs, rest);
    if GetMany(get, |xs|, b).Got? { ManyOnly(put, get, |xs|, b); }
  }

  /* -------------------------------------------------------- addresses and files */

  datatype ServerAddress = ServerAddress(id: u32, host: Bytes, port: u16)

  type Server = s: ServerAddress | |s.host| <= MAX_TEXT witness ServerAddress(0, [], 0)

  function PutServer(s: Server): Bytes {
    PutU32(s.id) + PutStr(s.host) + PutU16(s.port)
  }

  function GetServer(b: Bytes): Parsed<Server> {
    match GetU32(b)
    case Short => Short
    case Got(id, b1) =>
      match GetStr(b1)
      case Short => Short
      case Got(host, b2) =>
        match GetU16(b2)
        case Short => Short
        case Got(port, rest) => Got(ServerAddress(id, host, port), rest)
  }

  lemma ServerExact(s: Server, b: Bytes, rest: Bytes)
    ensures GetServer(b) == Got(s, rest) <==> b == PutServer(s) + rest
  {
    var t2 := PutU16(s.port) + rest;
    var t1 := PutStr(s.host) + t2;
    assert PutServer(s) + rest == PutU32(s.id) + t1;
    U32Exact(s.id, b, t1);
    StrExact(s.host, t1, t2);
    U16Exact(s.port, t2, rest);
    if GetU32(b).Got? {
      var b1 := GetU32(b).rest;
      U32Exact(GetU32(b).value, b, b1);
      if GetStr(b1).Got? {
        StrExact(GetStr(b1).value, b1, GetStr(b1).rest);
        U16Exact(s.port, GetStr(b1).rest, rest);
      }
    }
  }

  /** An id of four bytes, the length of the host's name in two, the name, a port of two. */
  lemma ServerLayout(s: Server)
    ensures var b, n := PutServer(s), |s.host|;
      && |b| == 8 + n && NumberOf(b[..4]) == s.id && NumberOf(b[4..6]) == n
      && b[6..6 + n] == s.host && NumberOf(b[6 + n..]) == s.port
  {
    var b, n := PutServer(s), |s.host|;
    BigEndian(s.id);
    BigEndian(n);
    BigEndian(s.port);
    assert b[..4] == PutU32(s.id) && b[4..6] == PutU16(n) && b[6 + n..] == PutU16(s.port);
  }

  /** The count is cast to sixteen bits. */
  function PutServers(servers: seq<Server>): Bytes {
    PutU16(|servers| % TWO_16) + PutMany(PutServer, servers)
  }

  function GetServers(b: Bytes): Parsed<seq<Server>> {
    match GetU16(b)
    case Short => Short
    case Got(n, rest) => GetMany(GetServer, n, rest)
  }

  datatype FileInfo = FileInfo(name: Bytes, size: u64, mtime: i64, hash: u64)

  type File = f: FileInfo | |f.name| <= MAX_TEXT witness FileInfo([], 0, 0, 0)

  /** A file header leaves out the hash. */
  function PutFileHeader(f: File): Bytes {
    PutStr(f.name) + PutU64(f.size) + PutI64(f.mtime)
  }

  function GetFileHeader(b: Bytes): Parsed<File> {
    match GetStr(b)
    case Short => Short
    case Got(name, b1) =>
      match GetU64(b1)
      case Short => Short
      case Got(size, b2) =>
        match GetI64(b2)
        case Short => Short
        case Got(mtime, rest) => Got(FileInfo(name, size, mtime, 0), rest)
  }

  function PutFileInfo(f: File): Bytes {
    PutFileHeader(f) + PutU64(f.hash)
  }

  function GetFileInfo(b: Bytes): Parsed<File> {
    match GetFileHeader(b)
    case Short => Short
    case Got(f, b1) =>
      match GetU64(b1)
      case Short => Short
      case Got(hash, rest) => Got(f.(hash := hash), rest)
  }

  lemma FileHeaderExact(f: File, b: Bytes, rest: Bytes)
    ensures GetFileHeader(b) == Got(f.(hash := 0), rest) <==> b == PutFileHeader(f) + rest
  {
    var t2 := PutI64(f.mtime) + rest;
    var t1 := PutU64(f.size) + t2;
    assert PutFileHeader(f) + rest == PutStr(f.name) + t1;
    StrExact(f.name, b, t1);
    U64Exact(f.size, t1, t2);
    I64Exact(f.mtime, t2, rest);
    if GetStr(b).Got? {
      var b1 := GetStr(b).rest;
      StrExact(GetStr(b).value, b, b1);
      if GetU64(b1).Got? {
        U64Exact(GetU64(b1).value, b1, GetU64(b1).rest);
        I64Exact(f.mtime, GetU64(b1).rest, rest);
      }
    }
  }

  lemma FileInfoExact(f: File, b: Bytes, rest: Bytes)
    ensures GetFileInfo(b) == Got(f, rest) <==> b == PutFileInfo(f) + rest
  {
    var tail := PutU64(f.hash) + rest;
    assert PutFileInfo(f) + rest == PutFileHeader(f) + tail;
    FileHeaderExact(f, b, tail);
    U64Exact(f.hash, tail, rest);
    if GetFileHeader(b).Got? {
      var head := GetFileHeader(b);
      FileHeaderExact(head.value, b, head.rest);
      U64Exact(f.hash, head.rest, rest);
    }
  }

  /** The length of the name in two bytes, the name, and eight bytes each for the size, the
      time and the hash; the time in two's complement. */
  lemma FileInfoLayout(f: File)
    ensures var b, n := PutFileInfo(f), |f.name|;
      && |b| == 26 + n && NumberOf(b[..2]) == n && b[2..2 + n] == f.name
      && NumberOf(b[2 + n..10 + n]) == f.size
      && NumberOf(b[10 + n..18 + n]) == (if f.mtime < 0 then f.mtime + TWO_64 else f.mtime)
      && NumberOf(b[18 + n..]) == f.hash
      && PutFileHeader(f) == b[..18 + n]
  {
    var b, n := PutFileInfo(f), |f.name|;
    BigEndian(n);
    BigEndian(f.size);
    BigEndian(Unsigned(f.mtime));
    BigEndian(f.hash);
    assert b[..2] == PutU16(n) && b[2..2 + n] == f.name && b[2 + n..10 + n] == PutU64(f.size);
    assert b[10 + n..18 + n] == PutI64(f.mtime) && b[18 + n..] == PutU64(f.hash);
    assert b[..18 + n] == PutFileHeader(f);
  }

  /** An Upload message: where the change came from, and the file's header. */
  function PutUpload(origin: byte, f: File): Bytes {
    PutU8(origin) + PutFileHeader(f)
  }

  function GetUpload(b: Bytes): Parsed<(byte, File)> {
    match GetU8(b)
    case Short => Short
    case Got(origin, b1) =>
      match GetFileHeader(b1)
      case Short => Short
      case Got(f, rest) => Got((origin, f), rest)
  }

  lemma UploadExact(origin: byte, f: File, b: Bytes, rest: Bytes)
    ensures GetUpload(b) == Got((origin, f.(hash := 0)), rest) <==> b == PutUpload(origin, f) + rest
  {
    var tail := PutFileHeader(f) + rest;
    assert PutUpload(origin, f) + rest == PutU8(origin) + tail;
    U8Exact(origin, b, tail);
    FileHeaderExact(f, tail, rest);
    if GetU8(b).Got? {
      U8Exact(GetU8(b).value, b, GetU8(b).rest);
      FileHeaderExact(f, GetU8(b).rest, rest);
    }
  }

  /* ------------------------------------------------------------------ manifests */

  datatype AccountEntry = AccountEntry(user: Bytes, record: Bytes)

  type Account = a: AccountEntry | |a.user| <= MAX_TEXT && |a.record| <= MAX_TEXT witness AccountEntry([], [])

  datatype FileEntry = FileEntry(user: Bytes, file: FileInfo)

  type OwnedFile = f: FileEntry | |f.user| <= MAX_TEXT && |f.file.name| <= MAX_TEXT
    witness FileEntry([], FileInfo([], 0, 0, 0))

  datatype Manifest = Manifest(accounts: seq<Account>, files: seq<OwnedFile>)

  function PutAccount(a: Account): Bytes {
    PutStr(a.user) + PutStr(a.record)
  }

  function GetAccount(b: Bytes): Parsed<Account> {
    match GetStr(b)
    case Short => Short
    case Got(user, b1) =>
      match GetStr(b1)
      case Short => Short
      case Got(record, rest) => Got(AccountEntry(user, record), rest)
  }

  function PutOwned(f: OwnedFile): Bytes {
    PutStr(f.user) + PutFileInfo(f.file)
  }

  function GetOwned(b: Bytes): Parsed<OwnedFile> {
    match GetStr(b)
    case Short => Short
    case Got(user, b1) =>
      match GetFileInfo(b1)
      case Short => Short
      case Got(file, rest) => Got(FileEntry(user, file), rest)
  }

  lemma AccountExact(a: Account, b: Bytes, rest: Bytes)
    ensures GetAccount(b) == Got(a, rest) <==> b == PutAccount(a) + rest
  {
    var tail := PutStr(a.record) + rest;
    Regroup(PutStr(a.user), PutStr(a.record), rest);
    StrExact(a.user, b, tail);
    StrExact(a.record, tail, rest);
    if GetStr(b).Got? {
      StrExact(GetStr(b).value, b, GetStr(b).rest);
      StrExact(a.record, GetStr(b).rest, rest);
    }
  }

  lemma OwnedExact(f: OwnedFile, b: Bytes, rest: Bytes)
    ensures GetOwned(b) == Got(f, rest) <==> b == PutOwned(f) + rest
  {
    var tail := PutFileInfo(f.file) + rest;
    Regroup(PutStr(f.user), PutFileInfo(f.file), rest);
    StrExact(f.user, b, tail);
    FileInfoExact(f.file, tail, rest);
    if GetStr(b).Got? {
      StrExact(GetStr(b).value, b, GetStr(b).rest);
      FileInfoExact(f.file, GetStr(b).rest, rest);
    }
  }

  /** The count is cast to thirty-two bits. */
  function PutCounted<T>(put: T -> Bytes, xs: seq<T>): Bytes {
    PutU32(|xs| % TWO_32) + PutMany(put, xs)
  }

  function GetCounted<T>(get: Bytes -> Parsed<T>, b: Bytes): (r: Parsed<seq<T>>)
    ensures r.Got? ==> |r.value| < TWO_32
  {
    match GetU32(b)
    case Short => Short
    case Got(n, rest) => GetMany(get, n, rest)
  }

  function PutManifest(m: Manifest): Bytes {
    PutCounted(PutAccount, m.accounts) + PutCounted(PutOwned, m.files)
  }

  function GetBoth<A, B>(getA: Bytes -> Parsed<A>, getB: Bytes -> Parsed<B>, b: Bytes): Parsed<(seq<A>, seq<B>)> {
    match GetCounted(getA, b)
    case Short => Short
    case Got(xs, b1) =>
      match GetCounted(getB, b1)
      case Short => Short
      case Got(ys, rest) => Got((xs, ys), rest)
  }

  function GetManifest(b: Bytes): Parsed<Manifest> {
    match GetBoth(GetAccount, GetOwned, b)
    case Short => Short
    case Got(lists, rest) => Got(Manifest(lists.0, lists.1), rest)
  }

  lemma CodecsExact()
    ensures Exact(PutServer, GetServer) && Exact(PutAccount, GetAccount) && Exact(PutOwned, GetOwned)
  {
    forall s, b, rest ensures ExactAt(PutServer, GetServer, s, b, rest) { ServerExact(s, b, rest); }
    forall a, b, rest ensures ExactAt(PutAccount, GetAccount, a, b, rest) { AccountExact(a, b, rest); }
    forall f, b, rest ensures ExactAt(PutOwned, GetOwned, f, b, rest) { OwnedExact(f, b, rest); }
  }

  lemma CountedExact<T(!new)>(put: T -> Bytes, get: Bytes -> Parsed<T>, xs: seq<T>, b: Bytes, rest: Bytes)
    requires Exact(put, get) && |xs| < TWO_32
    ensures GetCounted(get, b) == Got(xs, rest) <==> b == PutCounted(put, xs) + rest
  {
    var tail := PutMany(put, xs) + rest;
    assert PutCounted(put, xs) + rest == PutU32(|xs|) + tail;
    U32Exact(|xs|, b, tail);
    ManyExact(put, get, xs, tail, rest);
    if GetU32(b).Got? {
      U32Exact(GetU32(b).value, b, GetU32(b).rest);
      ManyExact(put, get, xs, GetU32(b).rest, rest);
    }
  }

  lemma BothExact<A(!new), B(!new)>(putA: A -> Bytes, getA: Bytes -> Parsed<A>, putB: B -> Bytes, getB: Bytes -> Parsed<B>,
                                    xs: seq<A>, ys: seq<B>, b: Bytes, rest: Bytes)
    requires Exact(putA, getA) && Exact(putB, getB) && |xs| < TWO_32 && |ys| < TWO_32
    ensures GetBoth(getA, getB, b) == Got((xs, ys), rest) <==> b == (PutCounted(putA, xs) + PutCounted(putB, ys)) + rest
  {
    var head, tail := PutCounted(putA, xs), PutCounted(putB, ys) + rest;
    assert (head + PutCounted(putB, ys)) + rest == head + tail;
    CountedExact(putA, getA, xs, b, tail);
    CountedExact(putB, getB, ys, tail, rest);
    var first := GetCounted(getA, b);
    if first.Got? {
      CountedExact(putA, getA, first.value, b, first.rest);
      CountedExact(putB, getB, ys, first.rest, rest);
    }
  }

  /** A manifest comes back exactly, and from no other bytes. */
  lemma ManifestExact(m: Manifest, b: Bytes, rest: Bytes)
    requires |m.accounts| < TWO_32 && |m.files| < TWO_32
    ensures GetManifest(b) == Got(m, rest) <==> b == PutManifest(m) + rest
  {
    CodecsExact();
    BothExact(PutAccount, GetAccount, PutOwned, GetOwned, m.accounts, m.files, b, rest);
  }

  lemma {:induction false} PutManySplits<T>(put: T -> Bytes, xs: seq<T>, n: nat)
    requires n <= |xs|
    ensures PutMany(put, xs) == PutMany(put, xs[..n]) + PutMany(put, xs[n..])
  {
    if n == 0 {
      assert xs[0..] == xs;
    } else {
      PutManySplits(put, xs[1..], n - 1);
      assert xs[1..][..n - 1] == xs[..n][1..] && xs[1..][n - 1..] == xs[n..];
    }
  }

  /** Reading a server list gives as many entries as the cast count says, in order; the
      bytes of the others are left over. */
  lemma ServersRead(servers: seq<Server>, rest: Bytes)
    ensures var n := |servers| % TWO_16;
      GetServers(PutServers(servers) + rest) == Got(servers[..n], PutMany(PutServer, servers[n..]) + rest)
  {
    CodecsExact();
    var n := |servers| % TWO_16;
    var left := PutMany(PutServer, servers[n..]) + rest;
    var tail := PutMany(PutServer, servers[..n]) + left;
    PutManySplits(PutServer, servers, n);
    assert PutServers(servers) + rest == PutU16(n) + tail;
    U16Exact(n, PutServers(servers) + rest, tail);
    ManyExact(PutServer, GetServer, servers[..n], tail, left);
  }

  /** A server list comes back exactly, and from no other bytes. */
  lemma ServerListExact(servers: seq<Server>, b: Bytes, rest: Bytes)
    requires |servers| < TWO_16
    ensures GetServers(b) == Got(servers, rest) <==> b == PutServers(servers) + rest
  {
    CodecsExact();
    var tail := PutMany(PutServer, servers) + rest;
    assert PutServers(servers) + rest == PutU16(|servers|) + tail;
    U16Exact(|servers|, b, tail);
    ManyExact(PutServer, GetServer, servers, tail, rest);
    if GetU16(b).Got? {
      U16Exact(GetU16(b).value, b, GetU16(b).rest);
      ManyExact(PutServer, GetServer, servers, GetU16(b).rest, rest);
    }
  }

  lemma LongListIsCut(servers: seq<Server>)
    requires |servers| > 0xFFFF
    ensures GetServers(PutServers(servers)) != Got(servers, [])
  {
    var n, b := |servers| % TWO_16, PutServers(servers);
    ServersRead(servers, []);
    assert b + [] == b;
    assert |servers[..n]| == n;
  }

  /** A server list comes back whole if and only if it has at most 65535 entries. */
  lemma ServerListReturnsIff(servers: seq<Server>)
    ensures GetServers(PutServers(servers)) == Got(servers, []) <==> |servers| <= 0xFFFF
  {
    if |servers| <= 0xFFFF {
      ServerListExact(servers, PutServers(servers), []);
      assert PutServers(servers) + [] == PutServers(servers);
    } else {
      LongListIsCut(servers);
    }
  }
}
