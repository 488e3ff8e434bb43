/** Which side wins: what a pass leaves under a name, from what each side did to it since the
    last sync. */
module SyncOutcomes {

  import opened Sync
  import opened SyncPass
  import opened SyncTheorems

  /** Created, modified or deleted against the base. */
  predicate ChangedHere(w: World, n: Name) {
    !SameAt(At(w.disk, n), At(w.base, n))
  }

  predicate ChangedThere(w: World, n: Name) {
    !SameAt(At(w.server, n), At(w.base, n))
  }

  /** The server ends up with what it had if only it has changed, or if both have and it still
      has the file; otherwise it gets what is on disk. */
  predicate ServerWins(w: World, n: Name) {
    ChangedThere(w, n) && (!ChangedHere(w, n) || n in w.server)
  }

  /** What the pass started from and what it leaves agree with that. */
  predicate Settled(w: World, w': World, n: Name) {
    && Agreed(w', n)
    && if ServerWins(w, n) then At(w'.server, n) == At(w.server, n)
       else SameAt(At(w'.server, n), At(w.disk, n)) && At(w'.disk, n) == At(w.disk, n)
  }

  lemma PlainSettles(w0: World, w: World, done: set<Name>, x: Name, naming: Naming)
    requires Honest(w0) && Going(w0, w, done) && x !in done && x in AllNames(w0)
    requires !Choice(w, Taken(w0), x).Download?
    ensures Settled(w0, Visit(w, Taken(w0), x, naming), x)
  {
    Views(w0, w, done, x);
    PlainListed(w0, w, done, x);
    PlainAgrees(w, Taken(w0), x, naming);
  }

  lemma DownloadSettles(w0: World, w: World, done: set<Name>, x: Name, naming: Naming)
    requires Honest(w0) && Going(w0, w, done) && NamesFree(w0, naming) && x !in done && x in AllNames(w0)
    requires Choice(w, Taken(w0), x).Download?
    ensures Settled(w0, Visit(w, Taken(w0), x, naming), x)
  {
    Views(w0, w, done, x);
    DownloadMeans(w0, w, done, x, naming);
    if x in w.disk { FreshCopy(w0, w, done, x, naming); }
  }

  /** Visiting one name leaves what an earlier visit settled. */
  lemma VisitSpares(w0: World, w: World, done: set<Name>, x: Name, naming: Naming, n: Name)
    requires Honest(w0) && Going(w0, w, done) && NamesFree(w0, naming) && x !in done && x in AllNames(w0) && n in done
    ensures var w' := Visit(w, Taken(w0), x, naming);
      At(w'.disk, n) == At(w.disk, n) && At(w'.server, n) == At(w.server, n) && At(w'.base, n) == At(w.base, n)
  {
    if Choice(w, Taken(w0), x).Download? {
      DownloadMeans(w0, w, done, x, naming);
      FreshCopy(w0, w, done, x, naming);
    } else {
      PlainListed(w0, w, done, x);
      PlainAgrees(w, Taken(w0), x, naming);
    }
  }

  lemma VisitSettles(w0: World, w: World, done: set<Name>, x: Name, naming: Naming)
    requires Honest(w0) && Going(w0, w, done) && NamesFree(w0, naming) && x !in done && x in AllNames(w0)
    requires forall n :: n in done ==> Settled(w0, w, n)
    ensures forall n :: n in done + {x} ==> Settled(w0, Visit(w, Taken(w0), x, naming), n)
  {
    if Choice(w, Taken(w0), x).Download? {
      DownloadSettles(w0, w, done, x, naming);
    } else {
      PlainSettles(w0, w, done, x, naming);
    }
    forall n | n in done ensures Settled(w0, Visit(w, Taken(w0), x, naming), n) {
      assert Settled(w0, w, n);
      VisitSpares(w0, w, done, x, naming, n);
    }
  }

  lemma {:induction false} PassSettles(w0: World, names: seq<Name>, naming: Naming)
    requires Honest(w0) && NamesFree(w0, naming) && w0.copies == map[]
    requires forall n :: n in names ==> n in AllNames(w0)
    requires forall i, j :: 0 <= i < j < |names| ==> names[i] != names[j]
    ensures forall n :: n in names ==> Settled(w0, Pass(w0, Taken(w0), names, naming), n)
  {
    if names != [] {
      var last := |names| - 1;
      NamesGrow(names);
      PassSettles(w0, names[..last], naming);
      PassGoing(w0, names[..last], naming);
      VisitSettles(w0, Pass(w0, Taken(w0), names[..last], naming), Names(names[..last]), names[last], naming);
      forall n | n in names ensures n in Names(names[..last]) + {names[last]} { assert n in Names(names); }
    }
  }

  /** What a name that was changed on one side, on both or on neither comes to. */
  lemma WhoWins(w: World, names: seq<Name>, naming: Naming, n: Name)
    requires CanVisit(w, names, naming) && n in names
    ensures var w' := FreshPass(w, names, naming);
      && Agreed(w', n)
      && (ServerWins(w, n) ==> At(w'.server, n) == At(w.server, n) && SameAt(At(w'.disk, n), At(w.server, n)))
      && (!ServerWins(w, n) ==> At(w'.disk, n) == At(w.disk, n) && SameAt(At(w'.server, n), At(w.disk, n)))
  {
    PassSettles(Rested(w), names, naming);
    assert Settled(Rested(w), FreshPass(w, names, naming), n);
  }

  /** A change made on one side only, be it a new file, an edit or a deletion, is on both
      afterwards. */
  lemma OneSidedChangeSpreads(w: World, names: seq<Name>, naming: Naming, n: Name)
    requires CanVisit(w, names, naming) && n in names
    ensures var w' := FreshPass(w, names, naming);
      && (ChangedHere(w, n) && !ChangedThere(w, n) ==>
            At(w'.disk, n) == At(w.disk, n) && SameAt(At(w'.server, n), At(w.disk, n)))
      && (ChangedThere(w, n) && !ChangedHere(w, n) ==>
            At(w'.server, n) == At(w.server, n) && SameAt(At(w'.disk, n), At(w.server, n)))
  {
    WhoWins(w, names, naming, n);
  }

  /** In particular a file deleted on one side, and not touched on the other, is gone from
      both, and from the base. */
  lemma DeletionSpreads(w: World, names: seq<Name>, naming: Naming, n: Name)
    requires CanVisit(w, names, naming) && n in names && n in w.base
    requires
      || (n !in w.disk && n in w.server && Same(w.base[n], w.server[n]))
      || (n !in w.server && n in w.disk && Same(w.base[n], w.disk[n]))
    ensures var w' := FreshPass(w, names, naming); n !in w'.disk && n !in w'.server && n !in w'.base
  {
    WhoWins(w, names, naming, n);
  }

  /** A file modified on one side and deleted on the other is kept, as modified, on both. */
  lemma ModifiedBeatsDeleted(w: World, names: seq<Name>, naming: Naming, n: Name)
    requires CanVisit(w, names, naming) && n in names && n in w.base
    ensures var w' := FreshPass(w, names, naming);
      && (LocalEdit(w, n) && n !in w.server ==> At(w'.disk, n) == At(w.disk, n) && SameAt(At(w'.server, n), At(w.disk, n)))
      && (RemoteEdit(w, n) && n !in w.disk ==> At(w'.server, n) == At(w.server, n) && SameAt(At(w'.disk, n), At(w.server, n)))
  {
    WhoWins(w, names, naming, n);
  }

  /** Modified on both sides, differently: the server's version is under the name on both, and
      what was on disk is there in a conflicted copy. */
  lemma ConflictKeepsBoth(w: World, names: seq<Name>, naming: Naming, n: Name)
    requires CanVisit(w, names, naming) && n in names && Conflicted(w, n)
    ensures var w' := FreshPass(w, names, naming);
      && At(w'.server, n) == At(w.server, n) && SameAt(At(w'.disk, n), At(w.server, n))
      && exists c :: c != n && InCopy(w', c, n, w.disk[n])
  {
    WhoWins(w, names, naming, n);
    PartPassLosesNothing(w, names, naming);
    var w' := FreshPass(w, names, naming);
    assert Kept(w', n, w.disk[n]);
    var c :| InCopy(w', c, n, w.disk[n]);
    assert c != n;
  }
}
