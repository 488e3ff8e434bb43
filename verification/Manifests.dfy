/** The size the cluster runs reckon with is the length of the bytes that are really sent. */
module Manifests {

  import opened Octets
  import opened Wire
  import opened Frames
  import opened Stores
  import opened Sizes

  /** A string as bytes, one for each character. */
  function Encoded(s: string): (b: Bytes)
    ensures |b| == |s|
  {
    seq(|s|, i requires 0 <= i < |s| => s[i] as int % 0x100)
  }

  predicate AllShort(files: Files, accounts: Accounts) {
    && (forall key :: key in files ==> |key.user| <= MAX_TEXT && |key.path| <= MAX_TEXT)
    && (forall user :: user in accounts ==> |user| <= MAX_TEXT && |accounts[user]| <= MAX_TEXT)
  }

  /** The entries in the order of `users` and `keys`; times may be anything. */
  function AccountEntries(users: seq<string>, accounts: Accounts): seq<Account>
    requires forall user :: user in users ==> user in accounts && |user| <= MAX_TEXT && |accounts[user]| <= MAX_TEXT
  {
    if users == [] then []
    else [AccountEntry(Encoded(users[0]), Encoded(accounts[users[0]]))] + AccountEntries(users[1..], accounts)
  }

  function FileEntries(keys: seq<FileKey>, files: Files, times: FileKey -> i64): seq<OwnedFile>
    requires forall key :: key in keys ==> key in files && |key.user| <= MAX_TEXT && |key.path| <= MAX_TEXT
  {
    if keys == [] then []
    else
      var key := keys[0];
      [FileEntry(Encoded(key.user), FileInfo(Encoded(key.path), files[key].size, times(key), files[key].hash))]
      + FileEntries(keys[1..], files, times)
  }

  ghost predicate Orders<T(!new)>(xs: seq<T>, all: set<T>) {
    && (forall x :: x in xs <==> x in all)
    && (forall i, j :: 0 <= i < j < |xs| ==> xs[i] != xs[j])
  }

  lemma OrdersRest<T(!new)>(xs: seq<T>, all: set<T>)
    requires Orders(xs, all) && xs != []
    ensures xs[0] in all && Orders(xs[1..], all - {xs[0]})
  {
    var rest := xs[1..];
    forall i, j | 0 <= i < j < |rest| ensures rest[i] != rest[j] { assert xs[i + 1] != xs[j + 1]; }
    forall i | 0 <= i < |rest| ensures rest[i] != xs[0] { assert xs[i + 1] != xs[0]; }
  }

  lemma {:induction false} AccountsLength(users: seq<string>, accounts: Accounts)
    requires Orders(users, accounts.Keys)
    requires forall user :: user in accounts ==> |user| <= MAX_TEXT && |accounts[user]| <= MAX_TEXT
    ensures |PutMany(PutAccount, AccountEntries(users, accounts))| == AccountBytes(accounts)
    ensures |AccountEntries(users, accounts)| == |users|
    decreases |users|
  {
    if users != [] {
      var user, rest := users[0], accounts - {users[0]};
      OrdersRest(users, accounts.Keys);
      assert rest.Keys == accounts.Keys - {user};
      AccountsLength(users[1..], rest);
      SameEntries(users[1..], accounts, rest);
      AccountBytesWithout(accounts, user);
      var entry: Account := AccountEntry(Encoded(user), Encoded(accounts[user]));
      assert AccountEntries(users, accounts)[1..] == AccountEntries(users[1..], rest);
      assert |PutAccount(entry)| == AccountEntryBytes(user, accounts[user]);
    }
  }

  lemma {:induction false} SameEntries(users: seq<string>, accounts: Accounts, rest: Accounts)
    requires forall user :: user in users ==> user in rest && user in accounts && rest[user] == accounts[user]
    requires forall user :: user in users ==> |user| <= MAX_TEXT && |accounts[user]| <= MAX_TEXT
    ensures AccountEntries(users, accounts) == AccountEntries(users, rest)
  {
    if users != [] { SameEntries(users[1..], accounts, rest); }
  }

  lemma FileEntryLength(f: OwnedFile)
    ensures |PutOwned(f)| == 2 + |f.user| + 2 + |f.file.name| + 24
  {
  }

  lemma {:induction false} FilesLength(keys: seq<FileKey>, all: set<FileKey>, files: Files, times: FileKey -> i64)
    requires Orders(keys, all) && all <= files.Keys
    requires forall key :: key in files ==> |key.user| <= MAX_TEXT && |key.path| <= MAX_TEXT
    ensures |PutMany(PutOwned, FileEntries(keys, files, times))| == FileBytes(all)
    ensures |FileEntries(keys, files, times)| == |keys|
    decreases |keys|
  {
    if keys != [] {
      var key := keys[0];
      OrdersRest(keys, all);
      FilesLength(keys[1..], all - {key}, files, times);
      FileBytesWithout(all, key);
      var entries := FileEntries(keys, files, times);
      FileEntryLength(entries[0]);
      assert entries[1..] == FileEntries(keys[1..], files, times);
    }
  }

  /** However a store is listed, its manifest has the length reckoned with, and it can be sent
      if and only if it fits. */
  lemma ManifestLength(users: seq<string>, keys: seq<FileKey>, files: Files, accounts: Accounts, times: FileKey -> i64, kind: u16)
    requires AllShort(files, accounts) && Orders(users, accounts.Keys) && Orders(keys, files.Keys)
    ensures var m := Manifest(AccountEntries(users, accounts), FileEntries(keys, files, times));
      |PutManifest(m)| == ManifestBytes(files, accounts)
      && (Sendable(Message(kind, PutManifest(m))) <==> FitsFrame(files, accounts))
  {
    AccountsLength(users, accounts);
    FilesLength(keys, files.Keys, files, times);
  }

  lemma ServerLength(s: Server)
    ensures |PutServer(s)| == 8 + |s.host|
  {
  }

  lemma {:induction false} ServersLength(servers: seq<Server>)
    requires forall s :: s in servers ==> |s.host| <= 253
    ensures |PutMany(PutServer, servers)| <= 261 * |servers|
  {
    if servers != [] {
      assert servers[0] in servers;
      ServerLength(servers[0]);
      ServersLength(servers[1..]);
    }
  }

  /** Ids run from 1000 downwards, so no cluster has more than a thousand members: with host
      names of at most 253 bytes the member list always fits in a message. */
  lemma MemberListFits(me: Server, servers: seq<Server>, kind: u16)
    requires |servers| <= 1000 && |me.host| <= 253 && forall s :: s in servers ==> |s.host| <= 253
    ensures Sendable(Message(kind, PutServer(me) + PutServers(servers)))
  {
    ServersLength(servers);
    ServerLength(me);
  }
}
