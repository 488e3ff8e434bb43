/** What runs of single changes do for the user: edits survive them, and rescans miss
    nothing. */
module SyncRuns {

  import opened Sync
  import opened SyncPass
  import opened SyncTheorems
  import opened SyncEvents
  import opened SyncOutcomes

  /* -------------------------------------------------------------- one comparison */

  /** A comparison moves nothing on disk, and nothing at all under any other name. What it
      finds unsynced is sent, is on the server if the request was carried out, and counts as
      synced only if the server said so. */
  lemma ComparisonMeans(c: Client, n: Name, outcome: Outcome)
    requires Honest(c.world) && Enabled(c, Compare(n, outcome)) && ChangedHere(c.world, n)
    ensures var w, w' := c.world, Next(c, Compare(n, outcome)).world;
      && w'.disk == w.disk && SameBut(w.base, w'.base, n) && SameBut(w.server, w'.server, n)
      && (outcome == Accepted ==> !ChangedHere(w', n) && At(w'.server, n) == At(w.disk, n))
      && (outcome == Rejected ==> w'.server == w.server && w'.base == if n in w.disk then w.base else w.base - {n})
      && (outcome.Failed? ==> w'.base == w.base && At(w'.server, n) == if outcome.applied then At(w.disk, n) else At(w.server, n))
    ensures Next(c, Compare(n, outcome)).sent == c.sent + if n in c.world.disk then [n] else []
  {
  }

  lemma SyncedComparison(c: Client, n: Name, outcome: Outcome)
    requires Honest(c.world) && Enabled(c, Compare(n, outcome)) && !ChangedHere(c.world, n)
    ensures Next(c, Compare(n, outcome)).world == c.world && Next(c, Compare(n, outcome)).sent == c.sent
  {
  }

  /** Unless the server has taken it, an edit is still an edit. */
  lemma ComparedEdit(c: Client, m: Name, outcome: Outcome, n: Name)
    requires Honest(c.world) && Enabled(c, Compare(m, outcome)) && LocalEdit(c.world, n)
    ensures var w' := Next(c, Compare(m, outcome)).world;
      LocalEdit(w', n) || (outcome == Accepted && m == n && SameAt(At(w'.server, n), At(c.world.disk, n)))
  {
    if ChangedHere(c.world, m) { ComparisonMeans(c, m, outcome); } else { SyncedComparison(c, m, outcome); }
  }

  /* ------------------------------------------------------------------ edits survive */

  /** The contents are on disk under `k`, unsynced, or on the server and not about to be
      overwritten with others. */
  predicate HeldAt(w: World, k: Name, f: Info) {
    k in w.disk && if LocalEdit(w, k) then Same(w.disk[k], f) else SameAt(At(w.server, k), Some(f))
  }

  /** The name itself, or a conflicted copy that goes back to it. */
  predicate StandsFor(w: World, k: Name, n: Name) {
    k == n || (k in w.copies && w.copies[k] == n)
  }

  /** The file has kept its name throughout. */
  predicate Rooted(w: World, n: Name) {
    n in w.disk && n !in w.copies
  }

  ghost predicate Held(w: World, n: Name, f: Info) {
    Rooted(w, n) && exists k :: StandsFor(w, k, n) && HeldAt(w, k, f)
  }

  /** The user does not edit the file or a copy of it, and no deletion of either is pushed. */
  predicate Leaves(w: World, e: Event, n: Name) {
    e.Edit? || e.PushDelete? ==> !StandsFor(w, e.name, n)
  }

  ghost predicate AllLeave(c: Client, es: seq<Event>, n: Name)
    requires Possible(c, es)
    decreases |es|
  {
    es == [] || (Leaves(c.world, es[0], n) && AllLeave(Next(c, es[0]), es[1..], n))
  }

  /** The server has pushed the very same contents. */
  predicate Brought(es: seq<Event>, f: Info) {
    exists i :: 0 <= i < |es| && es[i].Push? && Same(es[i].incoming, f)
  }

  lemma ComparedHeld(c: Client, m: Name, outcome: Outcome, n: Name, f: Info)
    requires Honest(c.world) && Enabled(c, Compare(m, outcome)) && Held(c.world, n, f)
    ensures Held(Next(c, Compare(m, outcome)).world, n, f) && Honest(Next(c, Compare(m, outcome)).world)
  {
    var k :| StandsFor(c.world, k, n) && HeldAt(c.world, k, f);
    var w' := Next(c, Compare(m, outcome)).world;
    if ChangedHere(c.world, m) { ComparisonMeans(c, m, outcome); } else { SyncedComparison(c, m, outcome); }
    assert w'.copies == c.world.copies;
    assert StandsFor(w', k, n) && HeldAt(w', k, f);
  }

  lemma DisplacedHeld(w: World, k: Name, incoming: Info, naming: Naming, n: Name, f: Info)
    requires Honest(w) && NamesFree(w, naming) && Rooted(w, n) && StandsFor(w, k, n)
    requires k in w.disk && LocalEdit(w, k) && Same(w.disk[k], f) && !Same(incoming, f)
    ensures Held(Installed(w, k, incoming, naming), n, f)
  {
    var copy, w' := CopyName(w, k, naming), Installed(w, k, incoming, naming);
    assert copy !in w.disk && copy !in w.base;
    assert StandsFor(w', copy, n) && HeldAt(w', copy, f);
  }

  lemma InstalledHeld(w: World, name: Name, incoming: Info, naming: Naming, k: Name, n: Name, f: Info)
    requires Honest(w) && NamesFree(w, naming) && Rooted(w, n) && StandsFor(w, k, n) && HeldAt(w, k, f)
    requires !Same(incoming, f)
    ensures Held(Installed(w, name, incoming, naming), n, f)
  {
    var w' := Installed(w, name, incoming, naming);
    if name == k && LocalEdit(w, k) {
      DisplacedHeld(w, k, incoming, naming, n, f);
    } else {
      assert CopyName(w, name, naming) !in w.disk;
      assert StandsFor(w', k, n) && HeldAt(w', k, f);
    }
  }

  lemma MovedHeld(c: Client, e: Event, n: Name, f: Info)
    requires Honest(c.world) && Enabled(c, e) && Leaves(c.world, e, n) && Held(c.world, n, f) && (e.Edit? || e.PushDelete?)
    ensures Held(Next(c, e).world, n, f) && Honest(Next(c, e).world)
  {
    var k :| StandsFor(c.world, k, n) && HeldAt(c.world, k, f);
    assert StandsFor(Next(c, e).world, k, n) && HeldAt(Next(c, e).world, k, f);
  }

  lemma StepHeld(c: Client, e: Event, n: Name, f: Info)
    requires Honest(c.world) && Enabled(c, e) && Leaves(c.world, e, n) && Held(c.world, n, f)
    requires e.Push? ==> !Same(e.incoming, f)
    ensures Held(Next(c, e).world, n, f) && Honest(Next(c, e).world)
  {
    match e
    case Push(name, incoming, naming) =>
      var k :| StandsFor(c.world, k, n) && HeldAt(c.world, k, f);
      InstalledHonest(c.world, name, incoming, naming);
      InstalledHeld(c.world, name, incoming, naming, k, n, f);
    case Compare(m, outcome) => ComparedHeld(c, m, outcome, n, f);
    case Edit(_, _) => MovedHeld(c, e, n, f);
    case PushDelete(_) => MovedHeld(c, e, n, f);
    case _ =>
  }

  lemma BroughtLater(es: seq<Event>, f: Info)
    requires es != [] && Brought(es[1..], f)
    ensures Brought(es, f)
  {
    var i :| 0 <= i < |es[1..]| && es[1..][i].Push? && Same(es[1..][i].incoming, f);
    assert es[i + 1] == es[1..][i];
  }

  lemma {:induction false} RunHeld(c: Client, es: seq<Event>, n: Name, f: Info)
    requires Honest(c.world) && Possible(c, es) && AllLeave(c, es, n) && Held(c.world, n, f) && !Brought(es, f)
    ensures Held(Run(c, es).world, n, f) && Honest(Run(c, es).world)
    decreases |es|
  {
    if es != [] {
      assert es[0].Push? ==> !Same(es[0].incoming, f);
      if Brought(es[1..], f) { BroughtLater(es, f); }
      StepHeld(c, es[0], n, f);
      RunHeld(Next(c, es[0]), es[1..], n, f);
    }
  }

  /** What is held survives a pass that breaks off anywhere. */
  lemma BrokenPassHolds(w: World, names: seq<Name>, x: Name, applied: bool, naming: Naming, k: Name, f: Info)
    requires CanVisit(w, names, naming) && x in AllNames(w) && x !in names && HeldAt(w, k, f)
    ensures Kept(BrokenPass(w, names, x, applied, naming), k, f)
  {
    var w' := BrokenPass(w, names, x, applied, naming);
    BrokenPassLosesNothing(w, names, x, applied, naming);
    if LocalEdit(w, k) {
      assert Kept(w', k, w.disk[k]);
      SameKept(w', k, w.disk[k], f);
    } else {
      UneditedStays(w, names, x, applied, naming, k);
    }
  }

  lemma SameKept(w: World, k: Name, f: Info, g: Info)
    requires Kept(w, k, f) && Same(f, g)
    ensures Kept(w, k, g)
  {
    if c :| InCopy(w, c, k, f) { assert InCopy(w, c, k, g); }
  }

  /** A file the user has not touched stays on the server, whatever was done to it there. */
  lemma UneditedStays(w: World, names: seq<Name>, x: Name, applied: bool, naming: Naming, k: Name)
    requires CanVisit(w, names, naming) && x in AllNames(w) && x !in names && k in w.disk && !LocalEdit(w, k)
    ensures SameAt(At(BrokenPass(w, names, x, applied, naming).server, k), At(w.server, k))
  {
    var w0, w1 := Rested(w), FreshPass(w, names, naming);
    PassGoing(w0, names, naming);
    SeveredSparesOthers(w1, Taken(w0), x, applied);
    if k in names {
      UneditedWins(w, names, naming, k);
    } else {
      assert k !in Names(names) && At(w1.server, k) == At(w.server, k);
      if k == x { SeveredUnedited(w0, w1, Names(names), x, applied); }
    }
  }

  lemma UneditedWins(w: World, names: seq<Name>, naming: Naming, k: Name)
    requires CanVisit(w, names, naming) && k in names && k in w.disk && !LocalEdit(w, k)
    ensures SameAt(At(FreshPass(w, names, naming).server, k), At(w.server, k))
  {
    WhoWins(w, names, naming, k);
    assert !ChangedHere(w, k);
  }

  lemma SeveredUnedited(w0: World, w1: World, done: set<Name>, x: Name, applied: bool)
    requires Honest(w0) && Going(w0, w1, done) && x !in done && x in AllNames(w0) && x in w0.disk && !LocalEdit(w0, x)
    ensures At(Severed(w1, Taken(w0), x, applied).server, x) == At(w1.server, x)
  {
    Views(w0, w1, done, x);
  }

  /** Whatever is pushed, compared, rescanned, refused or cut off, in any order and followed by
      a pass that breaks off anywhere: an edit that the user and pushed deletions leave alone
      is on disk or on the server, under its name or in a conflicted copy of it, unless the
      server itself has sent those very contents. */
  lemma EditSurvives(c: Client, es: seq<Event>, n: Name, names: seq<Name>, x: Name, applied: bool, naming: Naming)
    requires Honest(c.world) && c.world.copies == map[] && LocalEdit(c.world, n)
    requires Possible(c, es) && AllLeave(c, es, n)
    requires var w := Run(c, es).world; CanVisit(w, names, naming) && x in AllNames(w) && x !in names
    ensures Brought(es, c.world.disk[n]) ||
      exists k :: StandsFor(Run(c, es).world, k, n)
        && Kept(BrokenPass(Run(c, es).world, names, x, applied, naming), k, c.world.disk[n])
  {
    var f := c.world.disk[n];
    if !Brought(es, f) {
      assert StandsFor(c.world, n, n) && HeldAt(c.world, n, f);
      RunHeld(c, es, n, f);
      var w := Run(c, es).world;
      var k :| StandsFor(w, k, n) && HeldAt(w, k, f);
      BrokenPassHolds(w, names, x, applied, naming, k, f);
    }
  }

  /* ---------------------------------------------------------------------- rescans */

  ghost predicate ComparedIn(es: seq<Event>, n: Name) {
    exists e :: e in es && e.Compare? && e.name == n
  }

  lemma {:induction false} LeftIsCompared(c: Client, es: seq<Event>)
    requires c.task.Scanning? && Possible(c, es) && Finish !in es && Enabled(Run(c, es), Finish)
    ensures forall n :: n in c.task.left ==> ComparedIn(es, n)
    decreases |es|
  {
    if es != [] {
      var c1 := Next(c, es[0]);
      assert es[0] in es && forall e :: e in es[1..] ==> e in es;
      LeftIsCompared(c1, es[1..]);
      forall n | n in c.task.left ensures ComparedIn(es, n) {
        if n in c1.task.left {
          var e :| e in es[1..] && e.Compare? && e.name == n;
          assert e in es;
        }
      }
    }
  }

  /** Before a rescan ends, every name that was on disk or in the base when it began has been
      compared, whatever else happened in between. */
  lemma RescanComparesAll(c: Client, es: seq<Event>)
    requires Enabled(c, Scan) && Possible(Next(c, Scan), es) && Finish !in es && Enabled(Run(Next(c, Scan), es), Finish)
    ensures forall n :: n in c.world.disk || n in c.world.base ==> ComparedIn(es, n)
  {
    LeftIsCompared(Next(c, Scan), es);
  }

  ghost predicate Accepting(e: Event) {
    e.Compare? && e.outcome == Accepted
  }

  /** What a rescan makes of a name: in sync, and on the server as on disk if it was not. */
  predicate Rescanned(w: World, w': World, n: Name) {
    && !ChangedHere(w', n)
    && At(w'.server, n) == if ChangedHere(w, n) then At(w.disk, n) else At(w.server, n)
  }

  /** A name not yet compared is as it was. */
  predicate Untouched(w: World, w': World, n: Name) {
    At(w'.server, n) == At(w.server, n) && At(w'.base, n) == At(w.base, n)
  }

  lemma OneAccepted(w0: World, c: Client, m: Name, n: Name)
    requires Honest(w0) && Honest(c.world) && c.world.disk == w0.disk && Enabled(c, Compare(m, Accepted))
    requires Untouched(w0, c.world, n) || Rescanned(w0, c.world, n)
    ensures var w' := Next(c, Compare(m, Accepted)).world;
      w'.disk == w0.disk && Honest(w') && (Rescanned(w0, w', n) || (Untouched(w0, w', n) && n != m))
  {
    if ChangedHere(c.world, m) { ComparisonMeans(c, m, Accepted); } else { SyncedComparison(c, m, Accepted); }
  }

  lemma {:induction false} AcceptedRescans(w0: World, c: Client, es: seq<Event>, n: Name)
    requires Honest(w0) && Honest(c.world) && c.world.disk == w0.disk && Possible(c, es) && forall e :: e in es ==> Accepting(e)
    requires Rescanned(w0, c.world, n) || (Untouched(w0, c.world, n) && ComparedIn(es, n))
    ensures Rescanned(w0, Run(c, es).world, n) && Run(c, es).world.disk == w0.disk
    decreases |es|
  {
    if es != [] {
      assert es[0] in es && forall e :: e in es <==> e == es[0] || e in es[1..];
      OneAccepted(w0, c, es[0].name, n);
      AcceptedRescans(w0, Next(c, es[0]), es[1..], n);
    }
  }

  /** If the server takes everything and nothing else happens, then afterwards there is nothing
      left to send, and the server has what is on disk under every name that had been changed,
      created or deleted. */
  lemma RescanSyncsAll(c: Client, es: seq<Event>)
    requires Honest(c.world) && Enabled(c, Scan) && Possible(Next(c, Scan), es) && Enabled(Run(Next(c, Scan), es), Finish)
    requires forall e :: e in es ==> Accepting(e)
    ensures var w' := Run(Next(c, Scan), es).world; w'.disk == c.world.disk && forall n :: Rescanned(c.world, w', n)
  {
    RescanComparesAll(c, es);
    forall n ensures Rescanned(c.world, Run(Next(c, Scan), es).world, n) && Run(Next(c, Scan), es).world.disk == c.world.disk {
      AcceptedRescans(c.world, Next(c, Scan), es, n);
    }
    assert Rescanned(c.world, Run(Next(c, Scan), es).world, "");
  }

  /* ---------------------------------------------------------------------- pushes */

  /** A pushed file is on disk afterwards, exactly as it was sent, and counts as synced. */
  lemma PushArrives(c: Client, name: Name, incoming: Info, naming: Naming)
    requires Enabled(c, Push(name, incoming, naming))
    ensures var w' := Next(c, Push(name, incoming, naming)).world;
      At(w'.disk, name) == Some(incoming) && At(w'.base, name) == Some(incoming) && w'.server == c.world.server
    ensures var w' := Next(c, Push(name, incoming, naming)).world;
      forall n :: n in c.world.disk && n != name ==> At(w'.disk, n) == At(c.world.disk, n) && At(w'.base, n) == At(c.world.base, n)
  {
  }

  /** A push makes a conflicted copy if and only if there is an edit that it would overwrite
      with other contents. */
  lemma CopyIsMadeIff(c: Client, name: Name, incoming: Info, naming: Naming)
    requires Honest(c.world) && Enabled(c, Push(name, incoming, naming))
    ensures var w, w' := c.world, Next(c, Push(name, incoming, naming)).world;
      w'.disk.Keys == w.disk.Keys + {name} <==> !(LocalEdit(w, name) && !Same(w.disk[name], incoming))
  {
    var w, w' := c.world, Next(c, Push(name, incoming, naming)).world;
    var copy := CopyName(w, name, naming);
    assert copy !in w.disk;
    if Displaces(w, name, incoming) { assert copy in w'.disk; }
  }

  /** A pushed deletion takes exactly the one file, and the base forgets it. */
  lemma PushedDeletionArrives(c: Client, name: Name)
    ensures var w' := Next(c, PushDelete(name)).world;
      w'.disk == c.world.disk - {name} && w'.base == c.world.base - {name} && w'.server == c.world.server
  {
  }
}
