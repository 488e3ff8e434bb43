/** Runs of single changes on a client: files pushed by the server, watcher events in any
    number and order, rescans, and edits by the user (client/client.cpp). The worker takes a
    name and compares it in two steps, and a rescan compares its names one by one; anything
    may happen in between. */
module SyncEvents {

  import opened Sync
  import opened SyncTheorems

  /** How an exchange with the server ended; a failed one may still have been applied. */
  datatype Outcome = Accepted | Rejected | Failed(applied: bool)

  /** What the worker is at: nothing, a name it took off the queue ("" asks for a rescan), or
      the names a rescan still has to compare. */
  datatype Task = Waiting | Took(name: Name) | Scanning(left: set<Name>)

  /** `queue` and `queued` hold the names waiting to be compared; `sent` are the uploads
      attempted so far. */
  datatype Client = Client(world: World, queue: seq<Name>, queued: set<Name>, task: Task, sent: seq<Name>)

  datatype Event =
    | Push(name: Name, incoming: Info, naming: Naming)
    | PushDelete(name: Name)
    | Watch(name: Name)
    | Edit(name: Name, now: Option<Info>)
    | Take
    | Scan
    | Compare(name: Name, outcome: Outcome)
    | Finish

  /** sync_local_change sees nothing to do: the file and the base agree. */
  predicate NothingToSend(w: World, name: Name) {
    if name in w.disk then name in w.base && Same(w.base[name], Seen(w, name)) else name !in w.base
  }

  /** It does exactly if nothing was created, modified or deleted since the last sync. */
  lemma NothingToSendIff(w: World, name: Name)
    requires Honest(w)
    ensures NothingToSend(w, name) <==> SameAt(At(w.disk, name), At(w.base, name))
  {
  }

  function LocalChange(w: World, name: Name, outcome: Outcome): World {
    if NothingToSend(w, name) then w
    else if name in w.disk then
      var stored := w.server[name := w.disk[name]];
      match outcome
      case Accepted => w.(server := stored, base := w.base[name := Seen(w, name)], moves := w.moves + 1)
      case Rejected => w
      case Failed(applied) => if applied then w.(server := stored) else w
    else
      match outcome
      case Accepted => w.(server := w.server - {name}, base := w.base - {name}, moves := w.moves + 1)
      case Rejected => w.(base := w.base - {name})
      case Failed(applied) => if applied then w.(server := w.server - {name}) else w
  }

  function Compared(c: Client, name: Name, outcome: Outcome): Client {
    var sends := !NothingToSend(c.world, name) && name in c.world.disk;
    c.(world := LocalChange(c.world, name, outcome), sent := if sends then c.sent + [name] else c.sent)
  }

  function Enqueued(c: Client, name: Name): Client {
    if name in c.queued then c else c.(queue := c.queue + [name], queued := c.queued + {name})
  }

  function Popped(c: Client): Client
    requires c.queue != []
  {
    c.(queue := c.queue[1..], queued := c.queued - {c.queue[0]}, task := Took(c.queue[0]))
  }

  ghost predicate Enabled(c: Client, e: Event) {
    match e
    case Push(name, _, naming) => NamesFree(c.world, naming)
    case Edit(name, now) => now.Some? && name in c.world.base ==> HonestPair(now.value, c.world.base[name])
    case Take => c.task.Waiting? && c.queue != []
    case Scan => c.task == Took("")
    case Compare(name, _) => (c.task == Took(name) && name != "") || (c.task.Scanning? && name in c.task.left)
    case Finish => c.task == Scanning({})
    case _ => true
  }

  ghost function Next(c: Client, e: Event): Client
    requires Enabled(c, e)
  {
    match e
    case Push(name, incoming, naming) => c.(world := Installed(c.world, name, incoming, naming))
    case PushDelete(name) => c.(world := PushedDelete(c.world, name))
    case Watch(name) => Enqueued(c, name)
    case Edit(name, now) =>
      c.(world := c.world.(disk := if now.Some? then c.world.disk[name := now.value] else c.world.disk - {name}))
    case Take => Popped(c)
    case Scan => c.(task := Scanning(c.world.disk.Keys + c.world.base.Keys))
    case Compare(name, outcome) =>
      Compared(c, name, outcome).(task := if c.task.Took? then Waiting else Scanning(c.task.left - {name}))
    case Finish => c.(task := Waiting)
  }

  ghost predicate Possible(c: Client, es: seq<Event>)
    decreases |es|
  {
    es == [] || (Enabled(c, es[0]) && Possible(Next(c, es[0]), es[1..]))
  }

  ghost function Run(c: Client, es: seq<Event>): Client
    requires Possible(c, es)
    decreases |es|
  {
    if es == [] then c else Run(Next(c, es[0]), es[1..])
  }

  /* ------------------------------------------------------------------- the queue */

  ghost predicate QueueOk(c: Client) {
    && (forall i, j :: 0 <= i < j < |c.queue| ==> c.queue[i] != c.queue[j])
    && (forall n :: n in c.queue <==> n in c.queued)
  }

  lemma PoppedQueue(c: Client)
    requires QueueOk(c) && c.queue != []
    ensures QueueOk(Popped(c)) && c.queue[0] !in Popped(c).queued
  {
    var rest := Popped(c).queue;
    assert c.queue == [c.queue[0]] + rest;
    forall i, j | 0 <= i < j < |rest| ensures rest[i] != rest[j] {
      assert rest[i] == c.queue[i + 1] && rest[j] == c.queue[j + 1];
    }
    forall j | 0 <= j < |rest| ensures rest[j] != c.queue[0] {
      assert rest[j] == c.queue[j + 1];
    }
  }

  lemma StepQueue(c: Client, e: Event)
    requires QueueOk(c) && Enabled(c, e)
    ensures QueueOk(Next(c, e))
  {
    if e.Take? { PoppedQueue(c); }
  }

  /** The queue never holds a name twice, and `queued` is exactly its contents. */
  lemma {:induction false} QueueStaysOk(c: Client, es: seq<Event>)
    requires QueueOk(c) && Possible(c, es)
    ensures QueueOk(Run(c, es))
    decreases |es|
  {
    if es != [] {
      StepQueue(c, es[0]);
      QueueStaysOk(Next(c, es[0]), es[1..]);
    }
  }

  /* -------------------------------------------------------------- no event is missed */

  /** The names an event has arrived for that have not been compared since. */
  ghost function Unseen(c: Client, es: seq<Event>): set<Name>
    requires Possible(c, es)
    decreases |es|
  {
    if es == [] then {}
    else
      var last := |es| - 1;
      PossibleFront(c, es);
      var before := Unseen(c, es[..last]);
      match es[last]
      case Watch(n) => before + {n}
      case Compare(n, _) => before - {n}
      case Scan => before - {""}
      case _ => before
  }

  lemma {:induction false} PossibleFront(c: Client, es: seq<Event>)
    requires Possible(c, es) && es != []
    ensures Possible(c, es[..|es| - 1]) && Enabled(Run(c, es[..|es| - 1]), es[|es| - 1])
    ensures Run(c, es) == Next(Run(c, es[..|es| - 1]), es[|es| - 1])
    decreases |es|
  {
    if |es| > 1 {
      var rest := es[1..];
      PossibleFront(Next(c, es[0]), rest);
      assert es[..|es| - 1][1..] == rest[..|rest| - 1] && rest[|rest| - 1] == es[|es| - 1];
    }
  }

  /** A name is queued, or the worker has taken it and not looked at it yet. */
  predicate Awaited(c: Client, n: Name) {
    n in c.queue || c.task == Took(n)
  }

  lemma StepAwaits(c: Client, e: Event, n: Name)
    requires QueueOk(c) && Enabled(c, e)
    ensures e == Watch(n) ==> Awaited(Next(c, e), n)
    ensures Awaited(c, n) && !(e.Compare? && e.name == n) && !(e.Scan? && n == "") ==> Awaited(Next(c, e), n)
  {
    if e.Take? { assert c.queue == [c.queue[0]] + Popped(c).queue; }
  }

  /** Whatever else happens, and also when it arrives after its name was taken off the queue:
      a name whose event has arrived is queued or still to be compared, until it has been. */
  lemma {:induction false} EventsNotMissed(c: Client, es: seq<Event>)
    requires QueueOk(c) && Possible(c, es)
    ensures forall n :: n in Unseen(c, es) ==> Awaited(Run(c, es), n)
    decreases |es|
  {
    if es != [] {
      var last := |es| - 1;
      PossibleFront(c, es);
      EventsNotMissed(c, es[..last]);
      QueueStaysOk(c, es[..last]);
      forall n | n in Unseen(c, es) ensures Awaited(Run(c, es), n) {
        StepAwaits(Run(c, es[..last]), es[last], n);
      }
    }
  }

  /** A name taken off the queue is queued again by an event that arrives before, or after,
      it is compared. */
  lemma EventAfterTakeCounts(c: Client)
    requires QueueOk(c) && Enabled(c, Take)
    ensures var c' := Next(c, Take);
      && c.queue[0] !in c'.queued && c'.task == Took(c.queue[0])
      && Next(c', Watch(c.queue[0])).queue == c'.queue + [c.queue[0]]
  {
    PoppedQueue(c);
  }

  /** What a comparison achieves: the server has the file as it is on disk, or the name is
      gone from both, and the base agrees. */
  lemma ComparisonSyncs(w: World, n: Name)
    requires !NothingToSend(w, n)
    ensures var w' := LocalChange(w, n, Accepted);
      NothingToSend(w', n) && w'.disk == w.disk && At(w'.server, n) == At(w.disk, n)
  {
  }

  /* --------------------------------------------------- installed files stay put */

  /** The file is on disk as it was last synced. */
  ghost predicate AsSynced(w: World, n: Name) {
    n in w.disk && NothingToSend(w, n)
  }

  function Times(names: seq<Name>, n: Name): nat {
    if names == [] then 0
    else Times(names[..|names| - 1], n) + if names[|names| - 1] == n then 1 else 0
  }

  lemma TimesAppend(names: seq<Name>, m: Name, n: Name)
    ensures Times(names + [m], n) == Times(names, n) + if m == n then 1 else 0
  {
    assert (names + [m])[..|names|] == names;
  }

  predicate Disturbs(e: Event, n: Name) {
    (e.Edit? || e.PushDelete?) && e.name == n
  }

  lemma InstalledAsSynced(w: World, name: Name, incoming: Info, naming: Naming, n: Name)
    requires NamesFree(w, naming) && (n == name || AsSynced(w, n))
    ensures AsSynced(Installed(w, name, incoming, naming), n)
  {
  }

  lemma LocalChangeAsSynced(w: World, name: Name, outcome: Outcome, n: Name)
    requires AsSynced(w, n) && name != n
    ensures AsSynced(LocalChange(w, name, outcome), n)
  {
    var w' := LocalChange(w, name, outcome);
    assert w'.disk == w.disk && n in w'.base && w'.base[n] == w.base[n];
  }

  lemma ComparedAsSynced(c: Client, name: Name, outcome: Outcome, n: Name)
    requires AsSynced(c.world, n)
    ensures AsSynced(Compared(c, name, outcome).world, n)
    ensures Times(Compared(c, name, outcome).sent, n) == Times(c.sent, n)
  {
    if name != n {
      LocalChangeAsSynced(c.world, name, outcome, n);
      TimesAppend(c.sent, name, n);
    }
  }

  lemma StepAsSynced(c: Client, e: Event, n: Name)
    requires Enabled(c, e) && AsSynced(c.world, n) && !Disturbs(e, n)
    ensures AsSynced(Next(c, e).world, n) && Times(Next(c, e).sent, n) == Times(c.sent, n)
  {
    match e
    case Push(name, incoming, naming) => InstalledAsSynced(c.world, name, incoming, naming, n);
    case Compare(name, outcome) => ComparedAsSynced(c, name, outcome, n);
    case _ =>
  }

  lemma {:induction false} RunAsSynced(c: Client, es: seq<Event>, n: Name)
    requires Possible(c, es) && AsSynced(c.world, n) && forall e :: e in es ==> !Disturbs(e, n)
    ensures AsSynced(Run(c, es).world, n) && Times(Run(c, es).sent, n) == Times(c.sent, n)
    decreases |es|
  {
    if es != [] {
      StepAsSynced(c, es[0], n);
      RunAsSynced(Next(c, es[0]), es[1..], n);
    }
  }

  /** A file the server pushed is never uploaded back, whatever events and rescans follow,
      until the user changes it or the server deletes it. */
  lemma PushedFileNotSentBack(c: Client, name: Name, incoming: Info, naming: Naming, es: seq<Event>)
    requires NamesFree(c.world, naming) && Possible(Next(c, Push(name, incoming, naming)), es)
    requires forall e :: e in es ==> !Disturbs(e, name)
    ensures Times(Run(Next(c, Push(name, incoming, naming)), es).sent, name) == Times(c.sent, name)
  {
    InstalledAsSynced(c.world, name, incoming, naming, name);
    RunAsSynced(Next(c, Push(name, incoming, naming)), es, name);
  }
}
