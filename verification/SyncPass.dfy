/** What one reconcile pass does, name by name, complete or broken off. */
module SyncPass {

  import opened Sync

  /** Names still ahead look as they did when the pass started, apart from new copies. */
  ghost predicate Ahead(w0: World, w: World, done: set<Name>) {
    && (forall n :: n !in done ==> At(w.server, n) == At(w0.server, n) && At(w.base, n) == At(w0.base, n))
    && (forall n :: n !in done && n in w0.disk ==> n in w.disk && w.disk[n] == w0.disk[n])
    && (forall n :: n !in done && n in w.disk && n !in w0.disk ==> n in w.copies)
  }

  /** Names behind agree, and those without a base that were anywhere are still on disk. */
  ghost predicate Behind(w0: World, w: World, done: set<Name>) {
    && (forall n :: n in done ==> Agreed(w, n))
    && (forall n :: n in done && n !in w0.base && (n in w0.disk || n in w0.server) ==> n in w.disk)
  }

  ghost predicate NewCopies(w0: World, w: World) {
    forall c :: c in w.copies ==> c !in w0.disk && c !in w0.base && c in w.disk
  }

  /** A local edit of `n` is still ahead, has reached the server, or is in a copy. */
  ghost predicate EditSafe(w0: World, w: World, done: set<Name>, n: Name)
    requires n in w0.disk
  {
    n !in done || SameAt(At(w.server, n), At(w0.disk, n)) || exists c :: InCopy(w, c, n, w0.disk[n])
  }

  ghost predicate EditsSafe(w0: World, w: World, done: set<Name>) {
    && (forall n :: LocalEdit(w0, n) ==> EditSafe(w0, w, done, n))
    && (forall n :: RemoteEdit(w0, n) ==> At(w.server, n) == At(w0.server, n))
  }

  ghost predicate Going(w0: World, w: World, done: set<Name>) {
    && Honest(w) && done <= AllNames(w0)
    && Ahead(w0, w, done) && Behind(w0, w, done) && NewCopies(w0, w) && EditsSafe(w0, w, done)
  }

  lemma StartGoing(w0: World)
    requires Honest(w0) && w0.copies == map[]
    ensures Going(w0, w0, {})
  {
  }

  lemma Views(w0: World, w: World, done: set<Name>, x: Name)
    requires Honest(w0) && Going(w0, w, done) && x !in done && x in AllNames(w0)
    ensures At(Taken(w0).local, x) == At(w0.disk, x)
    ensures Choice(w, Taken(w0), x) == Decide(At(w0.disk, x), At(w0.server, x), At(w0.base, x))
  {
  }

  /** The listings differ at most under one name. */
  ghost predicate SameBut(m: Listing, m': Listing, x: Name) {
    forall n :: n != x ==> (n in m' <==> n in m) && (n in m ==> m'[n] == m[n])
  }

  ghost predicate StepAt(w: World, w': World, x: Name) {
    SameBut(w.disk, w'.disk, x) && SameBut(w.base, w'.base, x) && SameBut(w.server, w'.server, x)
  }

  lemma PlainAhead(w0: World, w: World, w': World, done: set<Name>, x: Name)
    requires Ahead(w0, w, done) && StepAt(w, w', x) && w'.copies == w.copies
    ensures Ahead(w0, w', done + {x})
  {
  }

  lemma PlainBehind(w0: World, w: World, w': World, done: set<Name>, x: Name)
    requires Behind(w0, w, done) && StepAt(w, w', x) && Agreed(w', x)
    requires x !in w0.base && (x in w0.disk || x in w0.server) ==> x in w'.disk
    ensures Behind(w0, w', done + {x})
  {
    forall n | n in done && n != x ensures Agreed(w', n) { assert Agreed(w, n); }
  }

  /** Whatever was kept as a copy under `x` still is kept as a copy somewhere. */
  ghost predicate CopyStays(w: World, w': World, x: Name) {
    forall n, info :: InCopy(w, x, n, info) ==> exists c :: InCopy(w', c, n, info)
  }

  lemma StepEdits(w0: World, w: World, w': World, done: set<Name>, x: Name)
    requires EditsSafe(w0, w, done) && StepAt(w, w', x) && w'.copies == w.copies && x !in done
    requires CopyStays(w, w', x) && (LocalEdit(w0, x) ==> EditSafe(w0, w', done + {x}, x))
    requires RemoteEdit(w0, x) ==> At(w'.server, x) == At(w0.server, x)
    ensures EditsSafe(w0, w', done + {x})
  {
    forall n | LocalEdit(w0, n) && n != x ensures EditSafe(w0, w', done + {x}, n) {
      assert EditSafe(w0, w, done, n);
      if c :| InCopy(w, c, n, w0.disk[n]) {
        if c != x { assert InCopy(w', c, n, w0.disk[n]); }
      }
    }
  }

  /** Handling `x` without making a copy. */
  lemma Step(w0: World, w: World, w': World, done: set<Name>, x: Name)
    requires Going(w0, w, done) && x !in done && x in AllNames(w0)
    requires w'.copies == w.copies && StepAt(w, w', x) && (x in w.copies ==> x in w'.disk)
    requires Agreed(w', x) && (x in w'.disk && x in w'.base ==> HonestPair(w'.disk[x], w'.base[x]))
    requires x !in w0.base && (x in w0.disk || x in w0.server) ==> x in w'.disk
    requires CopyStays(w, w', x) && (LocalEdit(w0, x) ==> EditSafe(w0, w', done + {x}, x))
    requires RemoteEdit(w0, x) ==> At(w'.server, x) == At(w0.server, x)
    ensures Going(w0, w', done + {x})
  {
    PlainAhead(w0, w, w', done, x);
    PlainBehind(w0, w, w', done, x);
    StepEdits(w0, w, w', done, x);
  }

  lemma NotACopy(w0: World, w: World, done: set<Name>, x: Name)
    requires Going(w0, w, done) && (x in w0.disk || x in w0.base)
    ensures x !in w.copies
  {
  }

  /** A name without a copy in its way is handled as its listings say. */
  ghost predicate AsListed(w: World, snap: Snapshot, x: Name) {
    At(snap.local, x) == At(w.disk, x) && At(snap.remote, x) == At(w.server, x)
  }

  lemma PlainAgrees(w: World, snap: Snapshot, x: Name, naming: Naming)
    requires AsListed(w, snap, x) && !Choice(w, snap, x).Download?
    requires x in w.disk && x in w.base ==> HonestPair(w.disk[x], w.base[x])
    ensures var w' := Visit(w, snap, x, naming);
      && w'.copies == w.copies && StepAt(w, w', x) && Agreed(w', x)
      && (x in w'.disk && x in w'.base ==> HonestPair(w'.disk[x], w'.base[x]))
  {
  }

  lemma PlainKeeps(w: World, snap: Snapshot, x: Name, naming: Naming)
    requires AsListed(w, snap, x) && !Choice(w, snap, x).Download?
    ensures var w' := Visit(w, snap, x, naming);
      && (x !in w.base && (x in w.disk || x in w.server) ==> x in w'.disk)
      && (LocalEdit(w, x) ==> SameAt(At(w'.server, x), At(w.disk, x)))
      && (RemoteEdit(w, x) ==> At(w'.server, x) == At(w.server, x))
  {
  }

  lemma PlainListed(w0: World, w: World, done: set<Name>, x: Name)
    requires Honest(w0) && Going(w0, w, done) && x !in done && x in AllNames(w0)
    requires !Choice(w, Taken(w0), x).Download?
    ensures AsListed(w, Taken(w0), x) && x !in w.copies && At(w.disk, x) == At(w0.disk, x)
  {
    Views(w0, w, done, x);
    NotACopy(w0, w, done, x);
  }

  lemma VisitPlain(w0: World, w: World, done: set<Name>, x: Name, naming: Naming)
    requires Honest(w0) && Going(w0, w, done) && x !in done && x in AllNames(w0)
    requires !Choice(w, Taken(w0), x).Download?
    ensures Going(w0, Visit(w, Taken(w0), x, naming), done + {x})
  {
    var w' := Visit(w, Taken(w0), x, naming);
    PlainListed(w0, w, done, x);
    PlainAgrees(w, Taken(w0), x, naming);
    PlainKeeps(w, Taken(w0), x, naming);
    assert CopyStays(w, w', x);
    Step(w0, w, w', done, x);
  }

  /** The displaced version of `x`, saved before anything takes its place. */
  function Copied(w: World, x: Name, naming: Naming): World
    requires x in w.disk
  {
    var copy := CopyName(w, x, naming);
    w.(disk := w.disk[copy := w.disk[x]], copies := w.copies[copy := Root(w, x)])
  }

  lemma FreshCopy(w0: World, w: World, done: set<Name>, x: Name, naming: Naming)
    requires Going(w0, w, done) && NamesFree(w0, naming) && x !in done
    ensures var c := CopyName(w, x, naming); c !in w.disk && c !in done && c !in w0.disk && c !in w0.base && c !in w.base
  {
    var c := CopyName(w, x, naming);
    assert c !in w0.base;
    forall n | n in done ensures n in w0.base || n in w.disk { assert n in AllNames(w0); }
  }

  lemma CopiedGoing(w0: World, w: World, done: set<Name>, x: Name, naming: Naming)
    requires Going(w0, w, done) && NamesFree(w0, naming) && x !in done && x in w.disk
    ensures Going(w0, Copied(w, x, naming), done)
  {
    FreshCopy(w0, w, done, x, naming);
    var c, w' := CopyName(w, x, naming), Copied(w, x, naming);
    forall n | LocalEdit(w0, n) ensures EditSafe(w0, w', done, n) {
      assert EditSafe(w0, w, done, n);
      if b :| InCopy(w, b, n, w0.disk[n]) { assert InCopy(w', b, n, w0.disk[n]); }
    }
    forall n | n in done ensures Agreed(w', n) { assert Agreed(w, n); }
  }

  lemma CopiedStays(w0: World, w: World, w': World, done: set<Name>, x: Name, naming: Naming)
    requires Going(w0, w, done) && NamesFree(w0, naming) && x !in done && x in w.disk
    requires var c := CopyName(w, x, naming);
      c in w'.disk && w'.disk[c] == w.disk[x] && w'.copies == Copied(w, x, naming).copies
    ensures CopyStays(Copied(w, x, naming), w', x)
    ensures LocalEdit(w0, x) ==> EditSafe(w0, w', done + {x}, x)
  {
    var c := CopyName(w, x, naming);
    FreshCopy(w0, w, done, x, naming);
    forall n, info | InCopy(Copied(w, x, naming), x, n, info) ensures InCopy(w', c, n, info) { }
    if LocalEdit(w0, x) { assert InCopy(w', c, x, w0.disk[x]); }
  }

  lemma DisplacingSteps(w: World, x: Name, incoming: Info, naming: Naming)
    requires Displaces(w, x, incoming) && CopyName(w, x, naming) !in w.disk
    ensures var w1, w' := Copied(w, x, naming), Installed(w, x, incoming, naming);
      StepAt(w1, w', x) && w'.copies == w1.copies && w'.server == w.server
    ensures var c, w' := CopyName(w, x, naming), Installed(w, x, incoming, naming);
      c in w'.disk && w'.disk[c] == w.disk[x]
  {
  }

  lemma VisitDisplacing(w0: World, w: World, done: set<Name>, x: Name, naming: Naming)
    requires Honest(w0) && Going(w0, w, done) && NamesFree(w0, naming) && x !in done && x in AllNames(w0)
    requires x in w.server && Displaces(w, x, w.server[x])
    ensures Going(w0, Installed(w, x, w.server[x], naming).(moves := w.moves + 1), done + {x})
  {
    var w1, w' := Copied(w, x, naming), Installed(w, x, w.server[x], naming).(moves := w.moves + 1);
    FreshCopy(w0, w, done, x, naming);
    CopiedGoing(w0, w, done, x, naming);
    DisplacingSteps(w, x, w.server[x], naming);
    CopiedStays(w0, w, w', done, x, naming);
    Step(w0, w1, w', done, x);
  }

  lemma VisitInstalling(w0: World, w: World, done: set<Name>, x: Name, naming: Naming)
    requires Honest(w0) && Going(w0, w, done) && x !in done && x in AllNames(w0)
    requires x in w.server && !Displaces(w, x, w.server[x])
    ensures Going(w0, Installed(w, x, w.server[x], naming).(moves := w.moves + 1), done + {x})
  {
    var w' := Installed(w, x, w.server[x], naming).(moves := w.moves + 1);
    forall n, info | InCopy(w, x, n, info) ensures InCopy(w', x, n, info) { }
    assert SameBut(w.disk, w'.disk, x);
    Step(w0, w, w', done, x);
  }

  lemma DownloadMeans(w0: World, w: World, done: set<Name>, x: Name, naming: Naming)
    requires Honest(w0) && Going(w0, w, done) && x !in done && x in AllNames(w0)
    requires Choice(w, Taken(w0), x).Download?
    ensures x in w.server
    ensures Visit(w, Taken(w0), x, naming) == Installed(w, x, w.server[x], naming).(moves := w.moves + 1)
  {
    Views(w0, w, done, x);
  }

  lemma VisitGoing(w0: World, w: World, done: set<Name>, x: Name, naming: Naming)
    requires Honest(w0) && Going(w0, w, done) && NamesFree(w0, naming) && x !in done && x in AllNames(w0)
    ensures Going(w0, Visit(w, Taken(w0), x, naming), done + {x})
  {
    if !Choice(w, Taken(w0), x).Download? {
      VisitPlain(w0, w, done, x, naming);
    } else {
      DownloadMeans(w0, w, done, x, naming);
      if Displaces(w, x, w.server[x]) {
        VisitDisplacing(w0, w, done, x, naming);
      } else {
        VisitInstalling(w0, w, done, x, naming);
      }
    }
  }

  /* ------------------------------------------------------------- a whole pass */

  function Names(names: seq<Name>): set<Name> {
    set n | n in names
  }

  lemma NamesGrow(names: seq<Name>)
    requires names != [] && forall i, j :: 0 <= i < j < |names| ==> names[i] != names[j]
    ensures var last := |names| - 1;
      Names(names[..last]) + {names[last]} == Names(names) && names[last] !in Names(names[..last])
      && forall n :: n in names[..last] ==> n in names
  {
    assert names == names[..|names| - 1] + [names[|names| - 1]];
  }

  lemma {:induction false} PassGoing(w0: World, names: seq<Name>, naming: Naming)
    requires Honest(w0) && NamesFree(w0, naming) && w0.copies == map[]
    requires forall n :: n in names ==> n in AllNames(w0)
    requires forall i, j :: 0 <= i < j < |names| ==> names[i] != names[j]
    ensures Going(w0, Pass(w0, Taken(w0), names, naming), Names(names))
  {
    if names == [] {
      StartGoing(w0);
      assert Names(names) == {};
    } else {
      var last := |names| - 1;
      NamesGrow(names);
      PassGoing(w0, names[..last], naming);
      VisitGoing(w0, Pass(w0, Taken(w0), names[..last], naming), Names(names[..last]), names[last], naming);
    }
  }
}
