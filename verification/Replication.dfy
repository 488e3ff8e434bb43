/** The primary's replica links and what travels over them (server/cluster.cpp), and the
    client requests that change something (server/server.cpp). Every method runs with the
    write lock held. A peer may crash before or after handling any message. */
module Replication {

  import opened Basics
  import opened Members
  import opened Octets
  import opened Paths
  import opened Records
  import opened Sizes
  import opened Stores

  datatype Message =
    | ReplPut(key: FileKey, digest: Digest)
    | ReplDelete(key: FileKey)
    | ReplAccount(user: string, record: string)
    | ReplicaAttach(list: MemberMap)
    | Membership(list: MemberMap)

  /** What a backup has: files, accounts, and the member list it was last sent. */
  datatype Copy = Copy(files: Files, accounts: Accounts, told: MemberMap)

  /** The message is answered with Ok; an invalid name in a deletion is passed over. */
  predicate Takes(copy: Copy, msg: Message) {
    match msg
    case ReplPut(key, digest) => ValidKey(key) && Accepts(copy.files, Put(key, digest))
    case ReplAccount(user, record) => IsValidUser(user) && IsValidRecord(record)
    case _ => true
  }

  function After(copy: Copy, msg: Message): Copy {
    match msg
    case ReplPut(key, digest) => copy.(files := Applied(copy.files, Put(key, digest)))
    case ReplDelete(key) => if ValidKey(key) then copy.(files := Applied(copy.files, Delete(key))) else copy
    case ReplAccount(user, record) => copy.(accounts := copy.accounts[user := record])
    case ReplicaAttach(list) => copy.(told := list)
    case Membership(list) => copy.(told := list)
  }

  /** The messages that carry a change. */
  predicate Carries(msg: Message) {
    msg.ReplPut? || msg.ReplDelete? || msg.ReplAccount?
  }

  predicate KeysValid(files: Files) {
    forall key :: key in files ==> ValidKey(key)
  }

  predicate RecordsValid(accounts: Accounts) {
    forall user :: user in accounts ==> IsValidUser(user) && IsValidRecord(accounts[user])
  }

  /** Whatever messages arrive, valid or not, what a backup has stays in order: no file in the
      way of another, no invalid name, no invalid record. */
  lemma BackupStaysWellKept(copy: Copy, msg: Message)
    requires WellKept(copy.files) && RecordsValid(copy.accounts)
    ensures var copy' := if Takes(copy, msg) then After(copy, msg) else copy;
      WellKept(copy'.files) && RecordsValid(copy'.accounts)
  {
    if msg.ReplPut? { NotBelowItself(msg.key.path); }
  }

  /** What a store lists of itself. */
  ghost predicate WellKept(files: Files) {
    ClashFree(files) && KeysValid(files)
  }

  /** A backup as the primary sees it through its link. */
  datatype Peer = Peer(alive: bool, copy: Copy)

  /** One request and its reply: a peer may crash before or after handling it. */
  ghost predicate Exchanged(before: Peer, msg: Message, ok: bool, after: Peer) {
    && (after.alive ==> before.alive)
    && (ok ==> after.alive && Takes(before.copy, msg) && after.copy == After(before.copy, msg))
    && (!ok && after.alive ==> !Takes(before.copy, msg) && after.copy == before.copy)
    && (after.copy == before.copy || (Takes(before.copy, msg) && after.copy == After(before.copy, msg)))
  }

  /** Nothing changed at any other server. */
  ghost predicate OnlyPeer(before: map<nat, Peer>, after: map<nat, Peer>, id: nat) {
    id in before && id in after && after == before[id := after[id]]
  }

  lemma OnlyPeerTwice(p0: map<nat, Peer>, p1: map<nat, Peer>, p2: map<nat, Peer>, id: nat)
    requires OnlyPeer(p0, p1, id) && OnlyPeer(p1, p2, id)
    ensures OnlyPeer(p0, p2, id) && p2.Keys == p0.Keys
  {
  }

  lemma SamePeer(peers: map<nat, Peer>, id: nat)
    requires id in peers
    ensures OnlyPeer(peers, peers, id)
  {
    assert peers[id := peers[id]] == peers;
  }

  class PrimarySide {
    var files: Files
    var accounts: Accounts
    var members: MemberMap
    var links: set<nat>
    /** The other servers, by id; not part of the primary's memory. */
    var peers: map<nat, Peer>

    ghost predicate Valid() reads this {
      WellKept(files) && RecordsValid(accounts) && links <= peers.Keys
    }

    /** Every linked backup has the primary's files and all its accounts. */
    ghost predicate Synced() reads this {
      forall id :: id in links && id in peers ==>
        peers[id].copy.files == files && Covers(peers[id].copy.accounts, accounts)
    }

    /** Every linked backup has acknowledged the current member list. */
    ghost predicate AllTold() reads this {
      forall id :: id in links && id in peers ==> peers[id].copy.told == members
    }

    /** apply_replicated on the backup `id`: false if the answer is an Error. */
    method Handle(id: nat, msg: Message) returns (ok: bool)
      requires id in peers
      modifies this`peers
      ensures ok == Takes(old(peers)[id].copy, msg)
      ensures peers == if ok then old(peers)[id := old(peers)[id].(copy := After(old(peers)[id].copy, msg))] else old(peers)
    {
      var copy := peers[id].copy;
      ok := true;
      match msg {
        case ReplPut(key, digest) =>
          ok := ValidKey(key) && Free(copy.files.Keys, key);
          if ok { copy := copy.(files := copy.files[key := digest]); }
        case ReplDelete(key) =>
          if ValidKey(key) {
            assert key !in copy.files ==> copy.files - {key} == copy.files;
            copy := copy.(files := copy.files - {key});
          }
        case ReplAccount(user, record) =>
          ok := IsValidUser(user) && IsValidRecord(record);
          if ok { copy := copy.(accounts := copy.accounts[user := record]); }
        case ReplicaAttach(list) => copy := copy.(told := list);
        case Membership(list) => copy := copy.(told := list);
      }
      if ok { peers := peers[id := peers[id].(copy := copy)]; }
    }

    method Call(id: nat, msg: Message) returns (ok: bool)
      requires id in peers
      modifies this`peers
      ensures OnlyPeer(old(peers), peers, id)
      ensures Exchanged(old(peers)[id], msg, ok, peers[id])
    {
      var crashesBefore: bool := *;
      if crashesBefore { peers := peers[id := peers[id].(alive := false)]; }
      if !peers[id].alive { return false; }
      ok := Handle(id, msg);
      var crashesAfter: bool := *;
      if crashesAfter {
        peers := peers[id := peers[id].(alive := false)];
        ok := false;
      }
    }

    /** drop_link: forgets the backup and tells the others, which may fail in turn. */
    method DropLink(id: nat)
      requires Valid()
      modifies this`links, this`members, this`peers
      ensures Valid() && links <= old(links) - {id}
      ensures members == old(members) - (old(links) - links)
      ensures OnlyLists(old(peers), peers)
      ensures forall i :: i in old(links) - links && i != id ==> !peers[i].alive
      ensures id in old(links) || old(AllTold()) ==> AllTold()
      decreases |links|, 0
    {
      if id !in links {
        assert members == members - {};
        return;
      }
      links := links - {id};
      members := members - {id};
      Broadcast();
    }

    /** broadcast_membership: sends the list down every link and drops those that fail. */
    method Broadcast()
      requires Valid()
      modifies this`links, this`members, this`peers
      ensures Valid() && links <= old(links)
      ensures members == old(members) - (old(links) - links)
      ensures OnlyLists(old(peers), peers)
      ensures forall i :: i in old(links) - links ==> !peers[i].alive
      ensures AllTold()
      decreases |links|, 1
    {
      var failed := TellLinks();
      assert members == old(members) - (old(links) - links);
      ghost var first := failed;
      while failed != {}
        invariant Valid() && links <= old(links)
        invariant members == old(members) - (old(links) - links)
        invariant failed <= first <= old(links)
        invariant failed == first ==> links == old(links)
        invariant failed != first || first == {} ==> AllTold()
        invariant OnlyLists(old(peers), peers)
        invariant forall i :: i in first ==> !peers[i].alive
        invariant forall i :: i in old(links) - links ==> !peers[i].alive
      {
        var id :| id in failed;
        failed := failed - {id};
        ghost var mid := links;
        SubsetSize(links, old(links));
        DropLink(id);
        DroppedTwice(old(members), old(links), mid, links);
      }
    }

    /** Sends the current member list down every link; returns the ids that failed. */
    method TellLinks() returns (failed: set<nat>)
      requires Valid()
      modifies this`peers
      ensures Valid() && failed <= links && OnlyLists(old(peers), peers)
      ensures forall i :: i in links - failed ==> peers[i].copy.told == members
      ensures forall i :: i in failed ==> !peers[i].alive
    {
      failed := {};
      var todo := links;
      while todo != {}
        invariant Valid() && todo <= links && failed <= links - todo && OnlyLists(old(peers), peers)
        invariant forall i :: i in links - todo - failed ==> peers[i].copy.told == members
        invariant forall i :: i in failed ==> !peers[i].alive
      {
        var id :| id in todo;
        todo := todo - {id};
        ghost var before := peers;
        var ok := Call(id, Membership(members));
        ListSent(old(peers), before, peers, id, members, ok);
        if !ok { failed := failed + {id}; }
      }
    }

    /** put_on_link: sends what the store holds under the name now; `gone` if nothing. */
    method PutOnLink(id: nat, key: FileKey) returns (ok: bool, gone: bool)
      requires id in peers
      modifies this`peers
      ensures OnlyPeer(old(peers), peers, id)
      ensures gone <==> key !in files
      ensures gone ==> ok && peers == old(peers)
      ensures !gone ==> Exchanged(old(peers)[id], ReplPut(key, files[key]), ok, peers[id])
    {
      gone := key !in files;
      if gone { return true, true; }
      ok := Call(id, ReplPut(key, files[key]));
    }

    /** account_on_link: with a valid record it fails only if the backup has crashed. */
    method AccountOnLink(id: nat, user: string) returns (ok: bool)
      requires id in peers && user in accounts && RecordsValid(accounts)
      modifies this`peers
      ensures OnlyPeer(old(peers), peers, id)
      ensures peers[id].copy == old(peers)[id].copy.(accounts := peers[id].copy.accounts)
      ensures ok ==> peers[id].alive && peers[id].alive == old(peers)[id].alive
      ensures ok ==> peers[id].copy.accounts == old(peers)[id].copy.accounts[user := accounts[user]]
      ensures !ok ==> !peers[id].alive
    {
      ok := Call(id, ReplAccount(user, accounts[user]));
    }

    /** Sends the accounts the backup lacks or has another record for. */
    method SendAccounts(id: nat) returns (ok: bool)
      requires id in peers && RecordsValid(accounts)
      modifies this`peers
      ensures OnlyPeer(old(peers), peers, id)
      ensures peers[id].copy == old(peers)[id].copy.(accounts := peers[id].copy.accounts)
      ensures ok && old(peers)[id].alive ==> peers[id].alive
      ensures peers[id].alive ==> old(peers)[id].alive
      ensures ok ==> Covers(peers[id].copy.accounts, accounts)
      ensures ok || !peers[id].alive
      ensures Covers(old(peers)[id].copy.accounts, accounts) ==> peers == old(peers) && ok
    {
      var remote := peers[id].copy.accounts;
      SamePeer(peers, id);
      var todo := accounts.Keys;
      while todo != {}
        invariant todo <= accounts.Keys
        invariant OnlyPeer(old(peers), peers, id)
        invariant peers[id].copy == old(peers)[id].copy.(accounts := peers[id].copy.accounts)
        invariant old(peers)[id].alive == peers[id].alive
        invariant forall u :: u in accounts && u !in todo ==>
          u in peers[id].copy.accounts && peers[id].copy.accounts[u] == accounts[u]
        invariant forall u :: u in remote && u in todo ==>
          u in peers[id].copy.accounts && peers[id].copy.accounts[u] == remote[u]
        invariant Covers(remote, accounts) ==> peers == old(peers)
      {
        var user :| user in todo;
        todo := todo - {user};
        if user !in remote || remote[user] != accounts[user] {
          ghost var before := peers;
          var sent := AccountOnLink(id, user);
          OnlyPeerTwice(old(peers), before, peers, id);
          if !sent { return false; }
        }
      }
      return true;
    }

    /** put_on_link for a file that is stored: refused only if it clashes with the backup's. */
    method SendOne(id: nat, key: FileKey) returns (ok: bool)
      requires id in peers && key in files && KeysValid(files)
      modifies this`peers
      ensures OnlyPeer(old(peers), peers, id)
      ensures peers[id].copy == old(peers)[id].copy.(files := peers[id].copy.files)
      ensures ok ==> peers[id].alive && peers[id].alive == old(peers)[id].alive
      ensures ok ==> Free(old(peers)[id].copy.files.Keys, key)
      ensures ok ==> peers[id].copy.files == old(peers)[id].copy.files[key := files[key]]
      ensures !ok && peers[id].alive ==> !Free(old(peers)[id].copy.files.Keys, key)
      ensures peers[id].alive ==> old(peers)[id].alive
    {
      var gone;
      ok, gone := PutOnLink(id, key);
      assert !gone; // the write lock is held
    }

    /** Sends the files the backup lacks or has other contents for. A backup that has a
        file where the primary has a folder, or the reverse, refuses one of them. */
    method SendFiles(id: nat) returns (ok: bool)
      requires id in peers && WellKept(files) && ClashFree(peers[id].copy.files)
      modifies this`peers
      ensures OnlyPeer(old(peers), peers, id)
      ensures peers[id].copy == old(peers)[id].copy.(files := peers[id].copy.files)
      ensures ok && old(peers)[id].alive ==> peers[id].alive
      ensures peers[id].alive ==> old(peers)[id].alive
      ensures ok ==> peers[id].copy.files == old(peers)[id].copy.files + files
      ensures ok ==> Apart(files, old(peers)[id].copy.files)
      ensures !ok && peers[id].alive ==> !Apart(files, old(peers)[id].copy.files)
      ensures old(peers)[id].copy.files == files ==> peers == old(peers) && ok
    {
      var remote := peers[id].copy.files;
      SamePeer(peers, id);
      var todo, done: set<FileKey> := files.Keys, {};
      while todo != {}
        invariant done <= files.Keys && todo == files.Keys - done
        invariant OnlyPeer(old(peers), peers, id)
        invariant peers[id].copy == old(peers)[id].copy.(files := Patched(remote, files, done))
        invariant old(peers)[id].alive == peers[id].alive
        invariant forall a, b :: a in done && b in remote ==> !Clash(a, b)
        invariant remote == files ==> peers == old(peers)
      {
        var key :| key in todo;
        todo := todo - {key};
        if key in remote && remote[key] == files[key] {
          PatchOne(remote, files, done, key);
        } else {
          ghost var before := peers;
          var sent := SendOne(id, key);
          OnlyPeerTwice(old(peers), before, peers, id);
          if !sent {
            if peers[id].alive { RefusedMeansClash(remote, files, done, key); }
            return false;
          }
          PatchOne(remote, files, done, key);
        }
        done := done + {key};
      }
      assert Patched(remote, files, done) == remote + files;
      return true;
    }

    /** delete_on_link. */
    method DeleteOnLink(id: nat, key: FileKey) returns (ok: bool)
      requires id in peers && ValidKey(key)
      modifies this`peers
      ensures OnlyPeer(old(peers), peers, id)
      ensures peers[id].copy == old(peers)[id].copy.(files := peers[id].copy.files)
      ensures ok ==> peers[id].alive && peers[id].alive == old(peers)[id].alive
      ensures ok ==> peers[id].copy.files == old(peers)[id].copy.files - {key}
      ensures !ok ==> !peers[id].alive
    {
      ok := Call(id, ReplDelete(key));
    }

    /** Deletes what the backup has and the primary has not. */
    method DeleteExtras(id: nat, remote: Files) returns (ok: bool)
      requires id in peers && peers[id].copy.files == remote + files && KeysValid(remote)
      modifies this`peers
      ensures OnlyPeer(old(peers), peers, id)
      ensures peers[id].copy == old(peers)[id].copy.(files := peers[id].copy.files)
      ensures ok && old(peers)[id].alive ==> peers[id].alive
      ensures peers[id].alive ==> old(peers)[id].alive
      ensures ok ==> peers[id].copy.files == files
      ensures ok || !peers[id].alive
      ensures remote == files ==> peers == old(peers) && ok
    {
      SamePeer(peers, id);
      var todo := remote.Keys - files.Keys;
      while todo != {}
        invariant todo <= remote.Keys - files.Keys
        invariant OnlyPeer(old(peers), peers, id)
        invariant peers[id].copy == old(peers)[id].copy.(files := peers[id].copy.files)
        invariant old(peers)[id].alive == peers[id].alive
        invariant peers[id].copy.files == (remote + files) - (remote.Keys - files.Keys - todo)
        invariant remote == files ==> peers == old(peers)
      {
        var key :| key in todo;
        todo := todo - {key};
        ghost var before := peers;
        var sent := DeleteOnLink(id, key);
        OnlyPeerTwice(old(peers), before, peers, id);
        if !sent { return false; }
      }
      assert (remote + files) - (remote.Keys - files.Keys) == files;
      return true;
    }

    /** Brings a server's accounts and files in line, without linking it. */
    method Resync(id: nat) returns (ok: bool)
      requires Valid() && id in peers && WellKept(peers[id].copy.files)
      modifies this`peers
      ensures OnlyPeer(old(peers), peers, id)
      ensures ok ==> peers[id].copy.files == files && Covers(peers[id].copy.accounts, accounts)
      ensures peers[id].copy.told == old(peers)[id].copy.told
      ensures ok && old(peers)[id].alive <==> peers[id].alive && Apart(files, old(peers)[id].copy.files)
      ensures peers[id].alive ==> old(peers)[id].alive
      ensures old(peers)[id].copy.files == files && Covers(old(peers)[id].copy.accounts, accounts) ==>
        peers == old(peers)
    {
      var remote := peers[id].copy.files;
      ok := SendAccounts(id);
      if !ok { return; }
      ok := SendFiles(id);
      if !ok { return; }
      ok := DeleteExtras(id, remote);
    }

    /** The server's answer to ReplicaAttach: its manifest, if that fits in one message. */
    method RequestManifest(id: nat) returns (ok: bool)
      requires id in peers
      modifies this`peers
      ensures OnlyPeer(old(peers), peers, id)
      ensures peers[id].copy == old(peers)[id].copy.(told := peers[id].copy.told)
      ensures peers[id].copy.told == members || peers[id].copy.told == old(peers)[id].copy.told
      ensures ok ==> peers[id].copy.told == members
      ensures ok <==> peers[id].alive && FitsFrame(peers[id].copy.files, peers[id].copy.accounts)
      ensures peers[id].alive ==> old(peers)[id].alive
    {
      ok := Call(id, ReplicaAttach(members));
      if ok {
        var bytes := MeasureManifest(peers[id].copy.files, peers[id].copy.accounts);
        ok := bytes <= MAX_PAYLOAD;
      }
    }

    /** attach_replica: brings a server up to date and links it. It succeeds exactly if the
        server stays up, its manifest fits in one message and the two stores do not clash;
        otherwise no link is added. */
    method AttachReplica(id: nat) returns (ok: bool)
      requires Valid() && id in peers && WellKept(peers[id].copy.files)
      modifies this`links, this`peers
      ensures Valid() && OnlyPeer(old(peers), peers, id)
      ensures links == if ok then old(links) + {id} else old(links)
      ensures ok ==> peers[id].copy.files == files && Covers(peers[id].copy.accounts, accounts)
      ensures ok ==> peers[id].copy.told == members
      ensures var copy := old(peers)[id].copy;
        ok <==> peers[id].alive && Apart(files, copy.files) && FitsFrame(copy.files, copy.accounts)
      ensures peers[id].alive ==> old(peers)[id].alive
      ensures old(Synced()) ==> Synced()
      ensures old(AllTold()) ==> AllTold()
    {
      ok := RequestManifest(id);
      if !ok { return; }
      ok := Resync(id);
      if !ok { return; }
      links := links + {id};
    }

    /** A file is sent as the store has it, and with the write lock held it is never found
        gone. */
    method SendChange(id: nat, msg: Message) returns (ok: bool)
      requires id in peers && Carries(msg) && (msg.ReplPut? ==> msg.key in files && files[msg.key] == msg.digest)
      modifies this`peers
      ensures OnlyPeer(old(peers), peers, id)
      ensures peers[id].copy.told == old(peers)[id].copy.told
      ensures ok ==> peers[id].copy == After(old(peers)[id].copy, msg)
      ensures !ok ==> !peers[id].alive || !Takes(old(peers)[id].copy, msg)
      ensures peers[id].alive ==> old(peers)[id].alive
    {
      if msg.ReplPut? {
        var gone;
        ok, gone := PutOnLink(id, msg.key);
        assert !gone;
      } else {
        ok := Call(id, msg);
      }
    }

    /** Sends one change down every link; returns the ids that failed. */
    method SendToLinks(msg: Message) returns (failed: set<nat>)
      requires Valid() && Carries(msg) && (msg.ReplPut? ==> msg.key in files && files[msg.key] == msg.digest)
      modifies this`peers
      ensures Valid() && peers.Keys == old(peers.Keys) && failed <= links
      ensures forall i :: i in links ==> peers[i].copy.told == old(peers)[i].copy.told
      ensures forall i :: i in links - failed ==> peers[i].copy == After(old(peers)[i].copy, msg)
      ensures forall i :: i in failed ==> !peers[i].alive || !Takes(old(peers)[i].copy, msg)
      ensures forall i :: i in peers && peers[i].alive ==> old(peers)[i].alive
    {
      failed := {};
      var todo := links;
      while todo != {}
        invariant Valid() && peers.Keys == old(peers.Keys)
        invariant todo <= links && failed <= links - todo
        invariant forall i :: i in links ==> peers[i].copy.told == old(peers)[i].copy.told
        invariant forall i :: i in todo ==> peers[i] == old(peers)[i]
        invariant forall i :: i in links - todo - failed ==> peers[i].copy == After(old(peers)[i].copy, msg)
        invariant forall i :: i in failed ==> !peers[i].alive || !Takes(old(peers)[i].copy, msg)
        invariant forall i :: i in peers && peers[i].alive ==> old(peers)[i].alive
      {
        var id :| id in todo;
        todo := todo - {id};
        var ok := SendChange(id, msg);
        if !ok { failed := failed + {id}; }
      }
    }

    method DropAll(ids: set<nat>)
      requires Valid() && ids <= links
      modifies this`links, this`members, this`peers
      ensures Valid() && links <= old(links) - ids && OnlyLists(old(peers), peers)
      ensures members == old(members) - (old(links) - links)
      ensures forall i :: i in old(links) - links - ids ==> !peers[i].alive
      ensures old(AllTold()) ==> AllTold()
    {
      var todo := ids;
      assert members == old(members) - (old(links) - links);
      while todo != {}
        invariant Valid() && todo <= ids && links <= old(links) - (ids - todo)
        invariant members == old(members) - (old(links) - links)
        invariant OnlyLists(old(peers), peers)
        invariant forall i :: i in old(links) - links - ids ==> !peers[i].alive
        invariant old(AllTold()) ==> AllTold()
      {
        var id :| id in todo;
        todo := todo - {id};
        ghost var mid := links;
        DropLink(id);
        DroppedTwice(old(members), old(links), mid, links);
      }
    }

    /** replicate_put, replicate_delete and replicate_account: every backup that stays
        linked has applied the change, and only crashed ones do not stay. */
    method Replicate(msg: Message)
      requires Valid() && Carries(msg) && (msg.ReplPut? ==> msg.key in files && files[msg.key] == msg.digest)
      requires forall i :: i in links ==> Takes(peers[i].copy, msg)
      requires forall i :: i in links ==> After(peers[i].copy, msg).files == files
      requires forall i :: i in links ==> Covers(After(peers[i].copy, msg).accounts, accounts)
      modifies this`links, this`members, this`peers
      ensures Valid() && Synced() && links <= old(links) && peers.Keys == old(peers.Keys)
      ensures members == old(members) - (old(links) - links)
      ensures forall i :: i in old(links) - links ==> !peers[i].alive
      ensures forall i :: i in peers && peers[i].alive ==> old(peers)[i].alive
      ensures old(AllTold()) ==> AllTold()
    {
      var failed := SendToLinks(msg);
      DropAll(failed);
    }

    /** handle_upload: stored here and on every backup before it is acknowledged, or
        refused with nothing changed anywhere. */
    method HandleUpload(key: FileKey, digest: Digest) returns (stored: bool)
      requires Valid() && Synced() && IsValidUser(key.user)
      modifies this`files, this`links, this`members, this`peers
      ensures Valid() && Synced()
      ensures stored <==> IsValidPath(key.path) && Accepts(old(files), Put(key, digest))
      ensures files == if stored then old(files)[key := digest] else old(files)
      ensures !stored ==> links == old(links) && peers == old(peers)
      ensures links <= old(links) && peers.Keys == old(peers.Keys)
      ensures members == old(members) - (old(links) - links)
      ensures forall i :: i in old(links) - links ==> !peers[i].alive
      ensures old(AllTold()) ==> AllTold()
    {
      stored := IsValidPath(key.path) && Free(files.Keys, key);
      assert members - {} == members;
      if !stored { return; }
      OneChangeApart(files, Put(key, digest));
      files := files[key := digest];
      Replicate(ReplPut(key, files[key]));
    }

    /** handle_delete. */
    method HandleDelete(key: FileKey) returns (existed: bool)
      requires Valid() && Synced()
      modifies this`files, this`links, this`members, this`peers
      ensures Valid() && Synced()
      ensures existed <==> key in old(files)
      ensures files == old(files) - {key}
      ensures !existed ==> links == old(links) && peers == old(peers)
      ensures links <= old(links) && peers.Keys == old(peers.Keys)
      ensures members == old(members) - (old(links) - links)
      ensures forall i :: i in old(links) - links ==> !peers[i].alive
      ensures old(AllTold()) ==> AllTold()
    {
      existed := IsValidPath(key.path) && key in files;
      assert members - {} == members;
      if !existed {
        assert files - {key} == files;
        return;
      }
      files := files - {key};
      Replicate(ReplDelete(key));
    }

    /** authenticate: a user without an account gets one, here and on every backup; `made` is
        the record made for it, "" if none could be. Anyone else must have the password, which
        `matches` says. `found` is what was seen before the write lock was taken: the account
        may have come in between. */
    method Authenticate(user: string, found: bool, made: string, matches: bool) returns (accepted: bool)
      requires Valid() && Synced() && IsValidUser(user) && (made == "" || IsValidRecord(made))
      requires found ==> user in accounts
      modifies this`accounts, this`links, this`members, this`peers
      ensures Valid() && Synced()
      ensures accepted <==> if user in old(accounts) then matches else made != ""
      ensures accounts == if user !in old(accounts) && made != "" then old(accounts)[user := made] else old(accounts)
      ensures user in old(accounts) || made == "" ==> links == old(links) && peers == old(peers)
      ensures links <= old(links) && peers.Keys == old(peers.Keys)
      ensures members == old(members) - (old(links) - links)
      ensures forall i :: i in old(links) - links ==> !peers[i].alive
      ensures old(AllTold()) ==> AllTold()
    {
      assert members - {} == members;
      if !found {
        if made != "" && user !in accounts {
          accounts := accounts[user := made];
          Replicate(ReplAccount(user, made));
          return true;
        }
        if user !in accounts { return false; }
      }
      return matches;
    }
  }

  function Patched(remote: Files, local: Files, done: set<FileKey>): Files
    requires done <= local.Keys
  {
    remote + (map k | k in done :: local[k])
  }

  lemma PatchOne(remote: Files, local: Files, done: set<FileKey>, key: FileKey)
    requires done <= local.Keys && key in local
    ensures Patched(remote, local, done + {key}) == Patched(remote, local, done)[key := local[key]]
    ensures key in remote && key !in done && remote[key] == local[key] ==>
      Patched(remote, local, done + {key}) == Patched(remote, local, done)
    ensures remote.Keys <= Patched(remote, local, done).Keys
  {
  }

  lemma DroppedTwice(all: MemberMap, before: set<nat>, mid: set<nat>, after: set<nat>)
    requires after <= mid <= before
    ensures all - (before - mid) - (mid - after) == all - (before - after)
  {
  }

  lemma RefusedMeansClash(remote: Files, local: Files, done: set<FileKey>, key: FileKey)
    requires ClashFree(local) && done <= local.Keys && key in local
    requires !Accepts(Patched(remote, local, done), Put(key, local[key]))
    ensures !Apart(local, remote)
  {
    var a :| a in Patched(remote, local, done) && Clash(a, key);
    assert a in remote && Clash(key, a);
  }

  lemma ListSent(p0: map<nat, Peer>, p1: map<nat, Peer>, p2: map<nat, Peer>, id: nat, list: MemberMap, ok: bool)
    requires OnlyLists(p0, p1) && OnlyPeer(p1, p2, id) && Exchanged(p1[id], Membership(list), ok, p2[id])
    ensures OnlyLists(p0, p2) && p2.Keys == p0.Keys
  {
  }

  /** The same peers with the same files and accounts, none back from the dead. */
  ghost predicate OnlyLists(before: map<nat, Peer>, after: map<nat, Peer>) {
    && before.Keys == after.Keys
    && (forall i :: i in before ==> after[i].copy == before[i].copy.(told := after[i].copy.told))
    && (forall i :: i in before && after[i].alive ==> before[i].alive)
  }
}
