/** The client that does all this in place: sync_dir, the saved state, and the work queue
    (client/client.cpp). Exchanges with the server may be cut off at any point. */
module SyncClient {

  import opened ConflictNames
  import opened Sync
  import opened SyncPass
  import opened SyncTheorems
  import opened SyncEvents

  /** The local time shown when a conflicted copy of a file is made. */
  type Clock = Name -> Stamp

  datatype Result = Ok | Refused | Lost

  datatype PassResult = NotListed | BrokenOff | Completed

  class SyncDir {
    var disk: Listing
    var state: Listing
    /** The user's files on the server; not part of the client's memory. */
    var server: Listing
    var queue: seq<Name>
    var queued: set<Name>
    /** What the worker thread is at. */
    var task: Task
    ghost var copies: map<Name, Name>
    ghost var moves: nat
    ghost var sent: seq<Name>

    ghost function Now(): World reads this {
      World(disk, state, server, copies, moves)
    }

    /** fill_hash. */
    method FillHash(name: Name) returns (info: Info)
      requires name in disk
      ensures info == Seen(Now(), name)
    {
      var file := disk[name];
      if name in state && state[name].size == file.size && state[name].mtime == file.mtime {
        info := file.(hash := state[name].hash);
      } else {
        info := file;
      }
    }

    /** install. */
    method Install(name: Name, incoming: Info, clock: Clock)
      requires (forall n :: clock(n).Valid())
      modifies this`disk, this`state, this`copies
      ensures Now() == Installed(old(Now()), name, incoming, NamesBy(clock))
    {
      if name in disk {
        var current := FillHash(name);
        if !Same(current, incoming) && !(name in state && Same(state[name], current)) {
          var copy := SearchName(name, clock(name), disk.Keys);
          copies := copies[copy := Root(Now(), name)];
          disk := (disk - {name})[copy := disk[name]];
        }
      }
      state := state[name := incoming];
      disk := disk[name := incoming];
    }

    /** One exchange: `applied` is what the server did, `result` what the client learns. The
        server, or a file that cannot be read to its end, may make it a refusal. */
    method TransactUpload(name: Name) returns (result: Result, ghost applied: bool)
      requires name in disk
      modifies this`server
      ensures result == Ok ==> applied
      ensures result == Refused ==> !applied
      ensures server == if applied then old(server)[name := disk[name]] else old(server)
    {
      var cut, reached, taken: bool := *, *, *;
      applied := (!cut || reached) && taken;
      if (!cut || reached) && taken { server := server[name := disk[name]]; }
      result := if cut then Lost else if taken then Ok else Refused;
    }

    /** The server refuses to delete what it does not have. */
    method TransactDelete(name: Name) returns (result: Result, ghost applied: bool)
      modifies this`server
      ensures result == Refused <==> !result.Lost? && name !in old(server)
      ensures server == if applied then old(server) - {name} else old(server)
      ensures result != Lost ==> applied
    {
      var cut, reached: bool := *, *;
      applied := !cut || reached;
      result := if cut then Lost else if name in server then Ok else Refused;
      if !cut || reached { server := server - {name}; }
    }

    /** The body of reconcile's loop over names. */
    method ReconcileName(name: Name, local: Listing, remote: Listing, clock: Clock)
      returns (result: Result, ghost applied: bool)
      requires (forall n :: clock(n).Valid())
      requires Choice(Now(), Snapshot(local, remote), name).Upload? ==> name in disk
      requires Choice(Now(), Snapshot(local, remote), name).Download? ==> name in server
      modifies this`disk, this`state, this`server, this`copies, this`moves
      ensures result == Ok ==> Now() == Visit(old(Now()), Snapshot(local, remote), name, NamesBy(clock))
      ensures result == Refused ==> Now() == old(Now())
      ensures result == Lost ==> Now() == Severed(old(Now()), Snapshot(local, remote), name, applied)
    {
      result, applied := Ok, false;
      var here, there := name in local, name in remote;
      var hasBase := name in state;
      if here && there && Same(local[name], remote[name]) {
        state := state[name := local[name]];
        return;
      }
      if !here && !there {
        state := state - {name};
        return;
      }
      var changedHere := if here then !(hasBase && Same(state[name], local[name])) else hasBase;
      var changedThere := if there then !(hasBase && Same(state[name], remote[name])) else hasBase;
      var push;
      if changedHere != changedThere {
        push := changedHere;
      } else if here && there {
        push := false; // a conflict: the download below wins the name
      } else {
        push := here;
      }
      if push && here {
        result, applied := TransactUpload(name);
        if result == Ok {
          state := state[name := local[name]];
          moves := moves + 1;
        }
      } else if push {
        result, applied := TransactDelete(name);
        if result != Lost {
          result := Ok; // gone is gone
          state := state - {name};
          moves := moves + 1;
        }
      } else if there {
        result := *;
        if result == Ok {
          Install(name, server[name], clock);
          moves := moves + 1;
        }
      } else {
        disk := disk - {name};
        state := state - {name};
        moves := moves + 1;
      }
    }

    /** reconcile. `names` are the names visited, in order, and `refused` those the server would
        not take or give; a pass that breaks off does so over `x`. */
    method Reconcile(clock: Clock)
      returns (result: PassResult, ghost names: seq<Name>, ghost refused: set<Name>, ghost x: Name, ghost applied: bool)
      requires (forall n :: clock(n).Valid()) && Honest(Now()) && copies == map[]
      requires forall n, existing :: NamesBy(clock)(n, existing) !in state
      modifies this`disk, this`state, this`server, this`copies, this`moves
      ensures result.NotListed? ==> Now() == old(Now())
      ensures !result.NotListed? ==> CanVisit(old(Now()), names, NamesBy(clock))
      ensures result.Completed? ==> Now() == FreshPass(old(Now()), names, NamesBy(clock))
      ensures result.Completed? ==> forall n :: n in AllNames(old(Now())) <==> n in names || n in refused
      ensures result.Completed? && refused == {} ==> CanPass(old(Now()), names, NamesBy(clock))
      ensures result.BrokenOff? ==> x in AllNames(old(Now())) && x !in names
      ensures result.BrokenOff? ==> Now() == BrokenPass(old(Now()), names, x, applied, NamesBy(clock))
    {
      names, refused, x, applied := [], {}, "", false;
      NamesByFree(clock);
      var listed: bool := *;
      if !listed { return NotListed, names, refused, x, applied; }
      ghost var w0 := Now();
      var remote := server;
      var local := TakeLocal();
      var todo := disk.Keys + remote.Keys + state.Keys;
      ghost var all := todo;
      while todo != {}
        invariant todo <= all == AllNames(w0)
        invariant Visited(names, refused, all - todo)
        invariant Snapshot(local, remote) == Taken(w0)
        invariant Now() == FreshPass(w0, names, NamesBy(clock))
      {
        var name :| name in todo;
        todo := todo - {name};
        PassReady(w0, names, name, NamesBy(clock));
        OneMoreVisited(names, refused, all - (todo + {name}), name);
        FreshPassMore(w0, names, name, NamesBy(clock));
        assert all - todo == all - (todo + {name}) + {name};
        var step;
        step, applied := ReconcileName(name, local, remote, clock);
        if step == Lost {
          SomeVisited(w0, names, refused, all - (todo + {name}), NamesBy(clock));
          return BrokenOff, names, refused, name, applied;
        } else if step == Ok {
          names := names + [name];
        } else {
          refused := refused + {name};
        }
      }
      SomeVisited(w0, names, refused, all, NamesBy(clock));
      return Completed, names, refused, x, applied;
    }

    /** The listing of sync_dir with hashes filled in. */
    method TakeLocal() returns (local: Listing)
      ensures local == Taken(Now()).local
    {
      local := map[];
      var todo := disk.Keys;
      while todo != {}
        invariant todo <= disk.Keys && local.Keys == disk.Keys - todo
        invariant forall n :: n in local ==> local[n] == Seen(Now(), n)
      {
        var name :| name in todo;
        todo := todo - {name};
        var info := FillHash(name);
        local := local[name := info];
      }
    }

    /** All of the client, as the runs of single changes see it. */
    ghost function Whole(): Client reads this {
      Client.Client(Now(), queue, queued, task, sent)
    }

    /** sync_local_change. */
    method SyncLocalChange(name: Name) returns (ghost outcome: Outcome)
      modifies this`state, this`server, this`moves, this`sent
      ensures Whole() == Compared(old(Whole()), name, outcome)
    {
      outcome := Accepted;
      var present := name in disk;
      var hasBase := name in state;
      if present {
        var here := FillHash(name);
        if hasBase && Same(state[name], here) { return; }
        sent := sent + [name];
        var result, applied := TransactUpload(name);
        outcome := if result == Ok then Accepted else if result == Refused then Rejected else Failed(applied);
        if result == Ok {
          state := state[name := here];
          moves := moves + 1;
        }
      } else {
        if !hasBase { return; }
        ghost var before := server;
        var result, applied := TransactDelete(name);
        outcome := if result == Lost then Failed(applied) else if result == Ok then Accepted else Rejected;
        if result != Lost { state := state - {name}; }
        if result == Ok { moves := moves + 1; }
        assert name !in before ==> before - {name} == before;
      }
    }

    /** enqueue. */
    method Enqueue(name: Name)
      modifies this`queue, this`queued
      ensures Whole() == Next(old(Whole()), Watch(name))
    {
      if name in queued { return; }
      queued := queued + {name};
      queue := queue + [name];
    }

    /** The locked section of worker_loop. */
    method TakeName()
      requires Enabled(Whole(), Take)
      modifies this`queue, this`queued, this`task
      ensures Whole() == Next(old(Whole()), Take)
    {
      var name := queue[0];
      queue := queue[1..];
      queued := queued - {name};
      task := Took(name);
    }

    /** What worker_loop does with a name it has taken. */
    method CompareTaken() returns (ghost outcome: Outcome)
      requires task.Took? && task.name != ""
      modifies this`state, this`server, this`moves, this`sent, this`task
      ensures Whole() == Next(old(Whole()), Compare(old(task).name, outcome))
    {
      outcome := SyncLocalChange(task.name);
      task := Waiting;
    }

    /** The first part of rescan_local: the names are collected before any is compared. */
    method CollectNames()
      requires task == Took("")
      modifies this`task
      ensures Whole() == Next(old(Whole()), Scan)
    {
      task := Scanning(disk.Keys + state.Keys);
    }

    /** One round of rescan_local's loop, or its end. */
    method CompareNext() returns (ghost e: Event)
      requires task.Scanning?
      modifies this`state, this`server, this`moves, this`sent, this`task
      ensures (old(task).left == {} && e == Finish) || (e.Compare? && e.name in old(task).left)
      ensures Whole() == Next(old(Whole()), e)
    {
      if task.left == {} {
        task := Waiting;
        e := Finish;
      } else {
        var name :| name in task.left;
        ghost var outcome := SyncLocalChange(name);
        task := Scanning(task.left - {name});
        e := Compare(name, outcome);
      }
    }
  }

  /** Every name handled so far is visited once or was refused. */
  ghost predicate Visited(names: seq<Name>, refused: set<Name>, handled: set<Name>) {
    && (forall n :: n in handled <==> n in names || n in refused)
    && (forall n :: n in names ==> n !in refused)
    && (forall i, j :: 0 <= i < j < |names| ==> names[i] != names[j])
  }

  lemma OneMoreVisited(names: seq<Name>, refused: set<Name>, handled: set<Name>, name: Name)
    requires Visited(names, refused, handled) && name !in handled
    ensures Visited(names + [name], refused, handled + {name})
    ensures Visited(names, refused + {name}, handled + {name})
  {
  }

  lemma SomeVisited(w0: World, names: seq<Name>, refused: set<Name>, handled: set<Name>, naming: Naming)
    requires Honest(w0) && NamesFree(w0, naming) && w0.copies == map[]
    requires Visited(names, refused, handled) && handled <= AllNames(w0)
    ensures CanVisit(w0, names, naming)
    ensures handled == AllNames(w0) && refused == {} ==> CanPass(w0, names, naming)
  {
  }

  lemma FreshPassMore(w: World, names: seq<Name>, name: Name, naming: Naming)
    ensures FreshPass(w, names + [name], naming) == Visit(FreshPass(w, names, naming), Taken(Rested(w)), name, naming)
  {
    assert (names + [name])[..|names|] == names;
  }

  /** What the loop body can rely on when it reaches a name. */
  lemma PassReady(w0: World, names: seq<Name>, name: Name, naming: Naming)
    requires Honest(w0) && NamesFree(w0, naming) && w0.copies == map[]
    requires forall n :: n in names ==> n in AllNames(w0)
    requires forall i, j :: 0 <= i < j < |names| ==> names[i] != names[j]
    requires name in AllNames(w0) && name !in names
    ensures var w, snap := Pass(w0, Taken(w0), names, naming), Taken(w0);
      && (Choice(w, snap, name).Upload? ==> name in w.disk)
      && (Choice(w, snap, name).Download? ==> name in w.server)
  {
    PassGoing(w0, names, naming);
    Views(w0, Pass(w0, Taken(w0), names, naming), Names(names), name);
  }
}
