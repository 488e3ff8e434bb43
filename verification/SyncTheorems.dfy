/** What reconcile guarantees: no edit is lost, three passes settle everything, and sessions
    of one user converge. */
module SyncTheorems {

  import opened Sync
  import opened SyncPass

  /** A session about to start a pass. */
  function Rested(w: World): World {
    w.(copies := map[])
  }

  /** A pass over some names, in some order; a name whose exchange the server rejects is left
      as it is, and so counts as not visited. */
  function FreshPass(w: World, names: seq<Name>, naming: Naming): World {
    Pass(Rested(w), Taken(Rested(w)), names, naming)
  }

  ghost predicate CanVisit(w: World, names: seq<Name>, naming: Naming) {
    && Honest(w) && NamesFree(w, naming)
    && (forall n :: n in names ==> n in AllNames(w))
    && (forall i, j :: 0 <= i < j < |names| ==> names[i] != names[j])
  }

  /** Every name is visited, in some order: a complete pass. */
  ghost predicate CanPass(w: World, names: seq<Name>, naming: Naming) {
    Honest(w) && NamesFree(w, naming) && Lists(names, AllNames(w))
  }

  lemma FreshPassGoing(w: World, names: seq<Name>, naming: Naming)
    requires CanPass(w, names, naming)
    ensures Going(Rested(w), FreshPass(w, names, naming), AllNames(w))
  {
    PassGoing(Rested(w), names, naming);
    assert Names(names) == AllNames(w);
  }

  /* ------------------------------------------------------------- nothing is lost */

  /** A pass broken off while it handles `x`, or before it if nothing was applied. */
  function BrokenPass(w: World, names: seq<Name>, x: Name, applied: bool, naming: Naming): World {
    Severed(FreshPass(w, names, naming), Taken(Rested(w)), x, applied)
  }

  lemma SafeIsKept(w0: World, w: World, done: set<Name>, n: Name)
    requires Going(w0, w, done) && LocalEdit(w0, n)
    ensures Kept(w, n, w0.disk[n])
  {
    assert EditSafe(w0, w, done, n);
  }

  lemma SeveredSparesOthers(w: World, snap: Snapshot, x: Name, applied: bool)
    ensures var w' := Severed(w, snap, x, applied);
      w'.disk == w.disk && w'.base == w.base && w'.copies == w.copies && SameBut(w.server, w'.server, x)
  {
  }

  lemma SeveredSparesEdits(w0: World, w: World, done: set<Name>, x: Name, applied: bool)
    requires Honest(w0) && Going(w0, w, done) && x !in done && x in AllNames(w0) && RemoteEdit(w0, x)
    ensures At(Severed(w, Taken(w0), x, applied).server, x) == At(w0.server, x)
  {
    Views(w0, w, done, x);
  }

  lemma SeveredKeeps(w0: World, w: World, done: set<Name>, x: Name, applied: bool)
    requires Honest(w0) && Going(w0, w, done) && x !in done && x in AllNames(w0)
    ensures var w' := Severed(w, Taken(w0), x, applied);
      && (forall n :: LocalEdit(w0, n) ==> Kept(w', n, w0.disk[n]))
      && (forall n :: RemoteEdit(w0, n) ==> At(w'.server, n) == At(w0.server, n))
      && Honest(w')
  {
    var w' := Severed(w, Taken(w0), x, applied);
    SeveredSparesOthers(w, Taken(w0), x, applied);
    forall n | LocalEdit(w0, n) ensures Kept(w', n, w0.disk[n]) {
      assert EditSafe(w0, w, done, n);
      if c :| InCopy(w, c, n, w0.disk[n]) { assert InCopy(w', c, n, w0.disk[n]); }
    }
    forall n | RemoteEdit(w0, n) ensures At(w'.server, n) == At(w0.server, n) {
      if n == x { SeveredSparesEdits(w0, w, done, x, applied); }
    }
  }

  /** Wherever a pass breaks off, whichever names were rejected before, and whether or not the
      server applied the request it broke off over: every local edit is still on disk or on
      the server under its name, or in a conflicted copy made for it, and every edit on the
      server is still there. */
  lemma BrokenPassLosesNothing(w: World, names: seq<Name>, x: Name, applied: bool, naming: Naming)
    requires CanVisit(w, names, naming) && x in AllNames(w) && x !in names
    ensures forall n :: LocalEdit(w, n) ==> Kept(BrokenPass(w, names, x, applied, naming), n, w.disk[n])
    ensures forall n :: RemoteEdit(w, n) ==>
      At(BrokenPass(w, names, x, applied, naming).server, n) == At(w.server, n)
    ensures Honest(BrokenPass(w, names, x, applied, naming))
  {
    var w0 := Rested(w);
    PassGoing(w0, names, naming);
    SeveredKeeps(w0, FreshPass(w, names, naming), Names(names), x, applied);
    forall n | LocalEdit(w, n) ensures Kept(BrokenPass(w, names, x, applied, naming), n, w.disk[n]) {
      assert LocalEdit(w0, n);
    }
    forall n | RemoteEdit(w, n) ensures At(BrokenPass(w, names, x, applied, naming).server, n) == At(w.server, n) {
      assert RemoteEdit(w0, n);
    }
  }

  /** The same for a pass that reaches its end, and every name it visited agrees. */
  lemma PartPassLosesNothing(w: World, names: seq<Name>, naming: Naming)
    requires CanVisit(w, names, naming)
    ensures forall n :: LocalEdit(w, n) ==> Kept(FreshPass(w, names, naming), n, w.disk[n])
    ensures forall n :: RemoteEdit(w, n) ==> At(FreshPass(w, names, naming).server, n) == At(w.server, n)
    ensures forall n :: n in names ==> Agreed(FreshPass(w, names, naming), n)
    ensures Honest(FreshPass(w, names, naming))
  {
    PassGoing(Rested(w), names, naming);
    forall n | LocalEdit(w, n) ensures Kept(FreshPass(w, names, naming), n, w.disk[n]) {
      assert LocalEdit(Rested(w), n);
      SafeIsKept(Rested(w), FreshPass(w, names, naming), Names(names), n);
    }
    forall n | RemoteEdit(w, n) ensures At(FreshPass(w, names, naming).server, n) == At(w.server, n) {
      assert RemoteEdit(Rested(w), n);
    }
    forall n | n in names ensures Agreed(FreshPass(w, names, naming), n) { assert n in Names(names); }
  }

  /* ------------------------------------------------------------ passes settle down */

  ghost predicate InSync(w: World) {
    forall n :: Agreed(w, n)
  }

  /** What is on the server agrees; what is only on disk is new. */
  predicate CalmAt(w: World, n: Name) {
    if n in w.server then Agreed(w, n) else n in w.disk ==> n !in w.base
  }

  ghost predicate Calm(w: World) {
    forall n :: CalmAt(w, n)
  }

  /** Every name the pass considered agrees afterwards; anything else is a conflicted copy
      that only this disk has. */
  lemma OnePassAgrees(w: World, names: seq<Name>, naming: Naming)
    requires CanPass(w, names, naming)
    ensures var w' := FreshPass(w, names, naming);
      && Honest(w') && Calm(w')
      && (forall n :: n in AllNames(w) ==> Agreed(w', n))
      && (forall n :: n in AllNames(w') && n !in AllNames(w) ==>
            n in w'.copies && n in w'.disk && n !in w'.server && n !in w'.base)
  {
    FreshPassGoing(w, names, naming);
    var w' := FreshPass(w, names, naming);
    forall n ensures CalmAt(w', n) {
      if n in AllNames(w) {
        assert Agreed(w', n);
      } else {
        assert At(w'.server, n) == At(Rested(w).server, n) && At(w'.base, n) == At(Rested(w).base, n);
      }
    }
  }

  /** Both sides have changed, differently. */
  predicate Conflicted(w: World, n: Name) {
    && LocalEdit(w, n) && RemoteEdit(w, n) && !Same(w.disk[n], w.server[n])
  }

  ghost predicate NoConflict(w: World) {
    forall n :: !Conflicted(w, n)
  }

  /** Without a conflict no name is displaced. */
  lemma CalmVisit(w0: World, w: World, done: set<Name>, x: Name, naming: Naming)
    requires Honest(w0) && Going(w0, w, done) && x !in done && x in AllNames(w0)
    requires w.copies == map[] && !Conflicted(w0, x)
    ensures Visit(w, Taken(w0), x, naming).copies == map[]
  {
    Views(w0, w, done, x);
  }

  lemma {:induction false} CalmPass(w0: World, names: seq<Name>, naming: Naming)
    requires Honest(w0) && NamesFree(w0, naming) && w0.copies == map[] && NoConflict(w0)
    requires forall n :: n in names ==> n in AllNames(w0)
    requires forall i, j :: 0 <= i < j < |names| ==> names[i] != names[j]
    ensures Pass(w0, Taken(w0), names, naming).copies == map[]
  {
    if names != [] {
      var last := |names| - 1;
      NamesGrow(names);
      CalmPass(w0, names[..last], naming);
      PassGoing(w0, names[..last], naming);
      CalmVisit(w0, Pass(w0, Taken(w0), names[..last], naming), Names(names[..last]), names[last], naming);
    }
  }

  /** A pass that finds no conflict leaves everything in sync, with nothing new on disk. */
  lemma CalmPassSyncs(w: World, names: seq<Name>, naming: Naming)
    requires CanPass(w, names, naming) && NoConflict(w)
    ensures InSync(FreshPass(w, names, naming)) && Honest(FreshPass(w, names, naming))
  {
    OnePassAgrees(w, names, naming);
    forall n ensures !Conflicted(Rested(w), n) { assert !Conflicted(w, n); }
    CalmPass(Rested(w), names, naming);
    var w' := FreshPass(w, names, naming);
    forall n ensures Agreed(w', n) {
      if n in AllNames(w) { assert Agreed(w', n); }
    }
  }

  lemma CalmHasNoConflict(w: World)
    requires Calm(w)
    ensures NoConflict(w)
  {
    forall n ensures !Conflicted(w, n) { assert CalmAt(w, n); }
  }

  lemma {:induction false} SyncedPass(w0: World, names: seq<Name>, naming: Naming)
    requires Honest(w0) && NamesFree(w0, naming) && w0.copies == map[] && InSync(w0)
    requires forall n :: n in names ==> n in AllNames(w0)
    requires forall i, j :: 0 <= i < j < |names| ==> names[i] != names[j]
    ensures var w := Pass(w0, Taken(w0), names, naming);
      w.disk == w0.disk && w.server == w0.server && w.moves == w0.moves
  {
    if names != [] {
      var last := |names| - 1;
      var w, x := Pass(w0, Taken(w0), names[..last], naming), names[last];
      SyncedPass(w0, names[..last], naming);
      PassGoing(w0, names[..last], naming);
      Views(w0, w, Names(names[..last]), x);
      assert Agreed(w0, x);
    }
  }

  /** Whatever state passes that broke off have left behind: one completed pass makes disk,
      server and base agree on every name, a second also sends the conflicted copies, and a
      third transfers nothing. */
  lemma ThreePassesSettle(w: World, names: seq<Name>, naming: Naming, names': seq<Name>, naming': Naming,
                          names'': seq<Name>, naming'': Naming)
    requires CanPass(w, names, naming) && CanPass(FreshPass(w, names, naming), names', naming')
    requires CanPass(FreshPass(FreshPass(w, names, naming), names', naming'), names'', naming'')
    ensures var w1 := FreshPass(w, names, naming);
      var w2 := FreshPass(w1, names', naming');
      var w3 := FreshPass(w2, names'', naming'');
      && (forall n :: n in AllNames(w) ==> Agreed(w1, n))
      && InSync(w2)
      && w3.disk == w2.disk && w3.server == w2.server && w3.moves == w2.moves
  {
    OnePassAgrees(w, names, naming);
    CalmHasNoConflict(FreshPass(w, names, naming));
    CalmPassSyncs(FreshPass(w, names, naming), names', naming');
    var w2 := Rested(FreshPass(FreshPass(w, names, naming), names', naming'));
    assert InSync(w2) by {
      forall n ensures Agreed(w2, n) { assert Agreed(FreshPass(FreshPass(w, names, naming), names', naming'), n); }
    }
    SyncedPass(w2, names'', naming'');
  }

  /* ------------------------------------------------------- pushes from the server */

  /** PushDelete: the file goes without being compared with the base. */
  function PushedDelete(w: World, name: Name): World {
    w.(disk := w.disk - {name}, base := w.base - {name})
  }

  lemma InstalledHonest(w: World, name: Name, incoming: Info, naming: Naming)
    requires Honest(w) && NamesFree(w, naming)
    ensures Honest(Installed(w, name, incoming, naming))
  {
    if Displaces(w, name, incoming) {
      var copy := CopyName(w, name, naming);
      assert copy !in w.base;
      forall n | n in Installed(w, name, incoming, naming).disk && n in Installed(w, name, incoming, naming).base
        ensures HonestPair(Installed(w, name, incoming, naming).disk[n], Installed(w, name, incoming, naming).base[n])
      {
      }
    }
  }

  /** A pushed file never costs a local edit: it is displaced, unless it is the same. */
  lemma InstalledLosesNothing(w: World, name: Name, incoming: Info, naming: Naming)
    requires Honest(w) && NamesFree(w, naming) && w.copies == map[]
    ensures forall n :: LocalEdit(w, n) ==> Kept(Installed(w, name, incoming, naming), n, w.disk[n])
  {
    var w' := Installed(w, name, incoming, naming);
    forall n | LocalEdit(w, n) ensures Kept(w', n, w.disk[n]) {
      if n == name && Displaces(w, name, incoming) {
        assert InCopy(w', CopyName(w, name, naming), n, w.disk[n]);
      }
    }
  }

  /** A pushed delete keeps every local edit if and only if it does not hit one. */
  lemma PushedDeleteKeepsEditsIff(w: World, name: Name)
    ensures (forall n :: LocalEdit(w, n) ==> n in PushedDelete(w, name).disk) <==> !LocalEdit(w, name)
  {
  }
}
