/** The client's three-way comparison of sync_dir, the server and the saved base, as
    functions on their contents (client/client.cpp). */
module Sync {

  type Name = string

  datatype Option<+T> = None | Some(value: T)

  datatype Info = Info(size: nat, mtime: int, hash: nat)

  type Listing = map<Name, Info>

  function At(files: Listing, name: Name): Option<Info> {
    if name in files then Some(files[name]) else None
  }

  predicate Same(a: Info, b: Info) {
    a.hash == b.hash && a.size == b.size
  }

  predicate SameAt(a: Option<Info>, b: Option<Info>) {
    if a.Some? && b.Some? then Same(a.value, b.value) else a == b
  }

  /** One session: what is on disk, what was saved at the last sync, and the user's files on
      the server. `copies` maps each conflicted copy made so far to the name it was made
      for; `moves` counts transfers and deletions. */
  datatype World = World(disk: Listing, base: Listing, server: Listing, copies: map<Name, Name>, moves: nat)

  /** How displaced versions are named, given the files that exist. */
  type Naming = (Name, set<Name>) -> Name

  /* ------------------------------------------------------------ hashing lazily */

  /** fill_hash: a file whose size and time match the base is not read again. */
  function Seen(w: World, name: Name): Info
    requires name in w.disk
  {
    var file := w.disk[name];
    if name in w.base && w.base[name].size == file.size && w.base[name].mtime == file.mtime
    then file.(hash := w.base[name].hash)
    else file
  }

  predicate HonestPair(file: Info, base: Info) {
    file.size == base.size && file.mtime == base.mtime ==> file.hash == base.hash
  }

  /** Files with the base's size and time have its contents. */
  ghost predicate Honest(w: World) {
    forall n :: n in w.disk && n in w.base ==> HonestPair(w.disk[n], w.base[n])
  }

  /** Taking the base's hash shows what is really on disk unless the file was changed under
      the same size and time. */
  lemma SeenIsTrueIff(w: World, name: Name)
    requires name in w.disk
    ensures Seen(w, name) == w.disk[name] <==> (name in w.base ==> HonestPair(w.disk[name], w.base[name]))
  {
  }

  /* ----------------------------------------------------------- installing a file */

  /** Neither the incoming version nor the one last synced. */
  predicate Displaces(w: World, name: Name, incoming: Info) {
    && name in w.disk && !Same(Seen(w, name), incoming)
    && !(name in w.base && Same(w.base[name], Seen(w, name)))
  }

  function Root(w: World, name: Name): Name {
    if name in w.copies then w.copies[name] else name
  }

  function CopyName(w: World, name: Name, naming: Naming): Name {
    naming(name, w.disk.Keys)
  }

  /** A local version that was never synced is moved out of the way. */
  function Displaced(w: World, name: Name, naming: Naming): World
    requires name in w.disk
  {
    var copy := CopyName(w, name, naming);
    w.(disk := (w.disk - {name})[copy := w.disk[name]], copies := w.copies[copy := Root(w, name)])
  }

  function Installed(w: World, name: Name, incoming: Info, naming: Naming): World {
    var w' := if Displaces(w, name, incoming) then Displaced(w, name, naming) else w;
    w'.(disk := w'.disk[name := incoming], base := w'.base[name := incoming])
  }

  /* ------------------------------------------------------------------- the pass */

  datatype Action = Agree | Forget | Upload | RemoteDelete | Download | LocalDelete

  function Decide(here: Option<Info>, there: Option<Info>, base: Option<Info>): Action {
    if here.Some? && there.Some? && Same(here.value, there.value) then Agree
    else if here.None? && there.None? then Forget
    else
      var changedHere := if here.Some? then !(base.Some? && Same(base.value, here.value)) else base.Some?;
      var changedThere := if there.Some? then !(base.Some? && Same(base.value, there.value)) else base.Some?;
      var push := if changedHere != changedThere then changedHere
                  else if here.Some? && there.Some? then false
                  else here.Some?;
      if push && here.Some? then Upload
      else if push then RemoteDelete
      else if there.Some? then Download
      else LocalDelete
  }

  /** What a pass compares: both listings as they were when it started. */
  datatype Snapshot = Snapshot(local: Listing, remote: Listing)

  function Taken(w: World): Snapshot {
    Snapshot(map n | n in w.disk :: Seen(w, n), w.server)
  }

  function Done(w: World, snap: Snapshot, name: Name, action: Action, naming: Naming): World {
    match action
    case Agree => if name in snap.local then w.(base := w.base[name := snap.local[name]]) else w
    case Forget => w.(base := w.base - {name})
    case Upload =>
      if name in w.disk && name in snap.local then
        w.(server := w.server[name := w.disk[name]], base := w.base[name := snap.local[name]], moves := w.moves + 1)
      else w
    case RemoteDelete => w.(server := w.server - {name}, base := w.base - {name}, moves := w.moves + 1)
    case Download =>
      if name in w.server then
        Installed(w, name, w.server[name], naming).(moves := w.moves + 1)
      else w
    case LocalDelete => w.(disk := w.disk - {name}, base := w.base - {name}, moves := w.moves + 1)
  }

  function Choice(w: World, snap: Snapshot, name: Name): Action {
    Decide(At(snap.local, name), At(snap.remote, name), At(w.base, name))
  }

  function Visit(w: World, snap: Snapshot, name: Name, naming: Naming): World {
    Done(w, snap, name, Choice(w, snap, name), naming)
  }

  /** Whatever is sent, fetched or removed is counted. */
  lemma UncountedMovesNothing(w: World, snap: Snapshot, name: Name, naming: Naming)
    requires Visit(w, snap, name, naming).moves == w.moves
    ensures Visit(w, snap, name, naming).disk == w.disk && Visit(w, snap, name, naming).server == w.server
  {
  }

  function Pass(w: World, snap: Snapshot, names: seq<Name>, naming: Naming): World {
    if names == [] then w
    else Visit(Pass(w, snap, names[..|names| - 1], naming), snap, names[|names| - 1], naming)
  }

  /** The connection breaks over a name: the server may have applied the request, but the
      client does not learn of it. */
  function Severed(w: World, snap: Snapshot, name: Name, applied: bool): World {
    match Choice(w, snap, name)
    case Upload => if applied && name in w.disk then w.(server := w.server[name := w.disk[name]]) else w
    case RemoteDelete => if applied then w.(server := w.server - {name}) else w
    case _ => w
  }

  function AllNames(w: World): set<Name> {
    w.disk.Keys + w.server.Keys + w.base.Keys
  }

  ghost predicate Lists(names: seq<Name>, all: set<Name>) {
    && (forall n :: n in names <==> n in all)
    && (forall i, j :: 0 <= i < j < |names| ==> names[i] != names[j])
  }

  /** No conflicted copy gets the name of an existing file, or one that is in the base. */
  ghost predicate NamesFree(w: World, naming: Naming) {
    forall n, existing :: naming(n, existing) !in existing && naming(n, existing) !in w.base
  }

  /* --------------------------------------------------------- what a pass achieves */

  /** Disk, server and base all have the same contents under the name, or none has any. */
  predicate Agreed(w: World, name: Name) {
    SameAt(At(w.disk, name), At(w.server, name)) && SameAt(At(w.disk, name), At(w.base, name))
  }

  /** A local version the server and the base do not account for. */
  predicate LocalEdit(w: World, name: Name) {
    name in w.disk && !(name in w.base && Same(w.base[name], w.disk[name]))
  }

  predicate RemoteEdit(w: World, name: Name) {
    name in w.server && !(name in w.base && Same(w.base[name], w.server[name]))
  }

  /** The contents are under the name, on either side, or in a conflicted copy of it. */
  ghost predicate Kept(w: World, name: Name, info: Info) {
    || SameAt(At(w.disk, name), Some(info)) || SameAt(At(w.server, name), Some(info))
    || exists c :: InCopy(w, c, name, info)
  }

  predicate InCopy(w: World, copy: Name, name: Name, info: Info) {
    copy in w.copies && w.copies[copy] == name && copy in w.disk && Same(w.disk[copy], info)
  }
}
