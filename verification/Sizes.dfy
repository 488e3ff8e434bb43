/** How large a server's manifest is, and when it fits in one message (server/cluster.cpp,
    common/connection.cpp). */
module Sizes {

  import opened Octets
  import opened Stores

  /** One file in a manifest: two strings with their lengths, size, time and hash. */
  function FileEntryBytes(key: FileKey): nat {
    2 + |key.user| + 2 + |key.path| + 24
  }

  function AccountEntryBytes(user: string, record: string): nat {
    2 + |user| + 2 + |record|
  }

  ghost function FileBytes(keys: set<FileKey>): nat {
    if keys == {} then 0
    else
      var key :| key in keys;
      FileEntryBytes(key) + FileBytes(keys - {key})
  }

  ghost function AccountBytes(accounts: Accounts): nat {
    if accounts == map[] then 0
    else
      var user :| user in accounts;
      AccountEntryBytes(user, accounts[user]) + AccountBytes(accounts - {user})
  }

  /** Two counts, the accounts and the files. */
  ghost function ManifestBytes(files: Files, accounts: Accounts): nat {
    4 + AccountBytes(accounts) + (4 + FileBytes(files.Keys))
  }

  /** A longer message is never sent. */
  ghost predicate FitsFrame(files: Files, accounts: Accounts) {
    ManifestBytes(files, accounts) <= MAX_PAYLOAD
  }

  lemma {:induction false} FileBytesWithout(keys: set<FileKey>, key: FileKey)
    requires key in keys
    ensures FileBytes(keys) == FileEntryBytes(key) + FileBytes(keys - {key})
  {
    var first :| first in keys && FileBytes(keys) == FileEntryBytes(first) + FileBytes(keys - {first});
    if first != key {
      FileBytesWithout(keys - {first}, key);
      FileBytesWithout(keys - {key}, first);
      assert keys - {first} - {key} == keys - {key} - {first};
    }
  }

  lemma {:induction false} AccountBytesWithout(accounts: Accounts, user: string)
    requires user in accounts
    ensures AccountBytes(accounts) == AccountEntryBytes(user, accounts[user]) + AccountBytes(accounts - {user})
  {
    var first :| first in accounts
      && AccountBytes(accounts) == AccountEntryBytes(first, accounts[first]) + AccountBytes(accounts - {first});
    if first != user {
      AccountBytesWithout(accounts - {first}, user);
      AccountBytesWithout(accounts - {user}, first);
      assert accounts - {first} - {user} == accounts - {user} - {first};
    }
  }

  lemma {:induction false} FileBytesAtLeast(keys: set<FileKey>)
    ensures FileBytes(keys) >= 28 * |keys|
  {
    if keys != {} {
      var key :| key in keys;
      FileBytesWithout(keys, key);
      FileBytesAtLeast(keys - {key});
    }
  }

  /** Enough files never fit, however short their names are. */
  lemma ManyFilesDoNotFit(files: Files, accounts: Accounts)
    requires |files.Keys| >= 37450
    ensures !FitsFrame(files, accounts)
  {
    FileBytesAtLeast(files.Keys);
  }

  /** The length check of send_locked, applied to the manifest the loops build. */
  method MeasureManifest(files: Files, accounts: Accounts) returns (bytes: nat)
    ensures bytes == ManifestBytes(files, accounts)
  {
    bytes := 4;
    var users := accounts.Keys;
    assert accounts - (accounts.Keys - users) == accounts;
    while users != {}
      invariant users <= accounts.Keys
      invariant bytes + AccountBytes(accounts - (accounts.Keys - users)) == 4 + AccountBytes(accounts)
    {
      var user :| user in users;
      AccountBytesWithout(accounts - (accounts.Keys - users), user);
      assert accounts - (accounts.Keys - users) - {user} == accounts - (accounts.Keys - (users - {user}));
      users := users - {user};
      bytes := bytes + AccountEntryBytes(user, accounts[user]);
    }
    assert accounts - accounts.Keys == map[];
    bytes := bytes + 4;
    var keys := files.Keys;
    while keys != {}
      invariant keys <= files.Keys
      invariant bytes + FileBytes(keys) == ManifestBytes(files, accounts)
    {
      var key :| key in keys;
      FileBytesWithout(keys, key);
      keys := keys - {key};
      bytes := bytes + FileEntryBytes(key);
    }
  }
}
