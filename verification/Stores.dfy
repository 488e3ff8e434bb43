/** What a server stores for its users, and the changes clients make to it.
    A file's content is identified by its hash and size, as the servers themselves do
    when they compare listings. */
module Stores {

  import opened Octets
  import opened Paths

  datatype FileKey = FileKey(user: string, path: string)
  datatype Digest = Digest(hash: u64, size: u64)

  type Files = map<FileKey, Digest>

  /** Account records, opaque, by user. */
  type Accounts = map<string, string>

  predicate ValidKey(key: FileKey) {
    IsValidUser(key.user) && IsValidPath(key.path)
  }

  /** A file and a folder of one user would need the same name. */
  predicate Clash(a: FileKey, b: FileKey) {
    a.user == b.user && (Below(a.path, b.path) || Below(b.path, a.path))
  }

  /** Nothing stored has a path above or below this one. */
  predicate Free(keys: set<FileKey>, key: FileKey) {
    forall a :: a in keys ==> !Clash(a, key)
  }

  /** No stored path lies below another. */
  ghost predicate NoneBelow(keys: set<FileKey>) {
    forall a, b :: a in keys && b in keys ==> !Clash(a, b)
  }

  ghost predicate Apart(fs: Files, gs: Files) {
    forall a, b :: a in fs && b in gs ==> !Clash(a, b)
  }

  ghost predicate ClashFree(fs: Files) {
    NoneBelow(fs.Keys)
  }

  datatype Change =
    | Put(key: FileKey, digest: Digest)
    | Delete(key: FileKey)
    | Enroll(user: string, record: string)

  /** A store takes a change unless it would put a file where a folder is or the reverse. */
  predicate Accepts(fs: Files, change: Change) {
    change.Put? ==> Free(fs.Keys, change.key)
  }

  function Applied(fs: Files, change: Change): Files {
    match change
    case Put(key, digest) => fs[key := digest]
    case Delete(key) => fs - {key}
    case Enroll(_, _) => fs
  }

  /** A new account takes the place of any record the user had. */
  function Enrolled(accounts: Accounts, change: Change): Accounts {
    if change.Enroll? then accounts[change.user := change.record] else accounts
  }

  predicate Has(accounts: Accounts, change: Change) {
    change.Enroll? ==> change.user in accounts && accounts[change.user] == change.record
  }

  /** Every account record of `accounts` is among `others`. */
  predicate Covers(others: Accounts, accounts: Accounts) {
    forall user :: user in accounts ==> user in others && others[user] == accounts[user]
  }

  /** One entry of the history of changes. `acked`: the client was told it succeeded. */
  datatype Entry = Entry(change: Change, acked: bool)

  function Replay(start: Files, log: seq<Entry>): Files {
    if log == [] then start
    else Applied(Replay(start, log[..|log| - 1]), log[|log| - 1].change)
  }

  lemma ReplayAppend(start: Files, log: seq<Entry>, entry: Entry)
    ensures Replay(start, log + [entry]) == Applied(Replay(start, log), entry.change)
  {
    assert (log + [entry])[..|log|] == log;
  }

  /** The accounts users were told they have: those from the start and the acknowledged ones. */
  function Promised(start: Accounts, log: seq<Entry>): Accounts {
    if log == [] then start
    else
      var before, entry := Promised(start, log[..|log| - 1]), log[|log| - 1];
      if entry.acked then Enrolled(before, entry.change) else before
  }

  lemma PromisedAppend(start: Accounts, log: seq<Entry>, entry: Entry)
    ensures Promised(start, log + [entry]) ==
      if entry.acked then Enrolled(Promised(start, log), entry.change) else Promised(start, log)
  {
    assert (log + [entry])[..|log|] == log;
  }

  /** Two stores that are one accepted change apart never clash with each other, so a new
      primary and a backup that missed the last change never refuse each other's files. */
  lemma OneChangeApart(fs: Files, change: Change)
    requires ClashFree(fs) && Accepts(fs, change)
    ensures ClashFree(Applied(fs, change))
    ensures Apart(fs, fs) && Apart(fs, Applied(fs, change)) && Apart(Applied(fs, change), fs)
  {
    if change.Put? { NotBelowItself(change.key.path); }
  }
}
