/** Committing staged files over their destinations, with hard links as recovery copies.
    A file is its inode: nothing is written in place, so equal inodes are equal bytes. */
module StagedRestore {

  type Inode = nat

  /** Destinations, staged temporaries and recovery links have disjoint names. */
  datatype Path = Dest(n: nat) | Temp(n: nat) | Recovery(n: nat)

  type Links = map<Path, Inode>

  datatype Staged = Staged(dest: Path, tmp: Path)

  datatype Replaced = Replaced(dest: Path, original: Path, hadFile: bool)

  /** rename(): between two links of one inode it does nothing and succeeds. */
  function Rename(l: Links, from: Path, to: Path): Links
    requires from in l
  {
    if to in l && l[to] == l[from] then l else (l - {from})[to := l[from]]
  }

  function UndoOne(l: Links, e: Replaced): Links {
    if !e.hadFile then l - {e.dest}
    else if e.original in l then Rename(l, e.original, e.dest)
    else l
  }

  /** Undo every replacement, last first. */
  function Undo(l: Links, es: seq<Replaced>): Links
    decreases |es|
  {
    if es == [] then l else Undo(UndoOne(l, es[|es| - 1]), es[..|es| - 1])
  }

  ghost predicate WellFormed(es: seq<Replaced>) {
    && (forall i | 0 <= i < |es| :: es[i].dest.Dest? && es[i].original.Recovery?)
    && (forall i, j | 0 <= i < j < |es| && es[i].hadFile && es[j].hadFile :: es[i].original != es[j].original)
  }

  ghost predicate SameAt(a: Links, b: Links, p: Path) {
    (p in a <==> p in b) && (p in a ==> a[p] == b[p])
  }

  ghost predicate SameDests(a: Links, b: Links) {
    forall p: Path | p.Dest? :: SameAt(a, b, p)
  }

  ghost predicate SameForUndo(a: Links, b: Links, es: seq<Replaced>) {
    SameDests(a, b) && forall i | 0 <= i < |es| && es[i].hadFile :: SameAt(a, b, es[i].original)
  }

  /** Undo looks only at destinations and at its own recovery links. */
  lemma {:induction false} UndoDependsOn(a: Links, b: Links, es: seq<Replaced>)
    requires WellFormed(es) && SameForUndo(a, b, es)
    ensures SameDests(Undo(a, es), Undo(b, es))
    decreases |es|
  {
    if es != [] {
      var e, rest := es[|es| - 1], es[..|es| - 1];
      assert SameAt(a, b, e.dest);
      assert SameForUndo(UndoOne(a, e), UndoOne(b, e), rest) by {
        forall p: Path | p.Dest? ensures SameAt(UndoOne(a, e), UndoOne(b, e), p) {
          assert SameAt(a, b, p);
        }
        forall i | 0 <= i < |rest| && rest[i].hadFile ensures SameAt(UndoOne(a, e), UndoOne(b, e), rest[i].original) {
          assert SameAt(a, b, es[i].original);
        }
      }
      UndoDependsOn(UndoOne(a, e), UndoOne(b, e), rest);
    }
  }

  /** One more replacement, finished or not, is undone without trace on the destinations. */
  lemma ReplacementIsUndone(orig: Links, l: Links, es: seq<Replaced>, e: Replaced, after: Links)
    requires WellFormed(es + [e]) && SameDests(Undo(l, es), orig)
    requires e.hadFile <==> e.dest in l
    requires e.hadFile ==> e.original in after && after[e.original] == l[e.dest]
    requires forall p: Path | p.Dest? && p != e.dest :: SameAt(after, l, p)
    requires forall i | 0 <= i < |es| && es[i].hadFile :: SameAt(after, l, es[i].original)
    ensures SameDests(Undo(after, es + [e]), orig)
  {
    var undone := UndoOne(after, e);
    assert (es + [e])[..|es|] == es;
    assert WellFormed(es) by {
      assert forall i | 0 <= i < |es| :: (es + [e])[i] == es[i];
    }
    assert SameForUndo(undone, l, es) by {
      forall p: Path | p.Dest? ensures SameAt(undone, l, p) {
        if p != e.dest {
          assert SameAt(after, l, p);
        }
      }
      forall i | 0 <= i < |es| && es[i].hadFile ensures SameAt(undone, l, es[i].original) {
        assert SameAt(after, l, es[i].original);
        if e.hadFile {
          assert (es + [e])[i].original != (es + [e])[|es|].original;
        }
      }
    }
    UndoDependsOn(undone, l, es);
    forall p: Path | p.Dest? ensures SameAt(Undo(after, es + [e]), orig, p) {
      assert SameAt(Undo(undone, es), Undo(l, es), p) && SameAt(Undo(l, es), orig, p);
    }
  }

  // ---- No destination's original bytes are ever lost ----

  ghost predicate Untouched(es: seq<Replaced>, d: Path) {
    forall i | 0 <= i < |es| :: es[i].dest != d
  }

  /** Entry `k` is the first replacement of `d`, and its recovery link holds `inode`. */
  ghost predicate HeldBy(l: Links, es: seq<Replaced>, d: Path, inode: Inode, k: nat) {
    && k < |es| && es[k].dest == d && es[k].hadFile && Untouched(es[..k], d)
    && es[k].original in l && l[es[k].original] == inode
  }

  ghost predicate FreeRecovery(l: Links, es: seq<Replaced>, inode: Inode, p: Path) {
    && p.Recovery? && p in l && l[p] == inode
    && forall i | 0 <= i < |es| && es[i].hadFile :: es[i].original != p
  }

  ghost predicate Guarded(l: Links, es: seq<Replaced>, d: Path, inode: Inode) {
    || (exists k :: HeldBy(l, es, d, inode, k))
    || (Untouched(es, d) && ((d in l && l[d] == inode) || exists p :: FreeRecovery(l, es, inode, p)))
  }

  /** Every original destination is held, with replacements `es` still to be undone. */
  ghost predicate AllGuarded(orig: Links, l: Links, es: seq<Replaced>) {
    && (forall d: Path | d.Dest? && d in orig :: Guarded(l, es, d, orig[d]))
    && (forall i | 0 <= i < |es| && !es[i].hadFile :: es[i].dest !in orig)
  }

  /** The bytes of every original destination are at the destination or in a recovery link. */
  ghost predicate NothingLost(orig: Links, l: Links) {
    forall d: Path | d.Dest? && d in orig :: exists p :: p in l && (p == d || p.Recovery?) && l[p] == orig[d]
  }

  lemma GuardedIsNotLost(orig: Links, l: Links, es: seq<Replaced>)
    requires WellFormed(es) && AllGuarded(orig, l, es)
    ensures NothingLost(orig, l)
  {
  }

  /** Undoing the last entry, or failing to, keeps every destination guarded. */
  lemma UndoStepGuarded(orig: Links, l: Links, es: seq<Replaced>, after: Links)
    requires WellFormed(es) && es != [] && AllGuarded(orig, l, es)
    requires after == l || after == UndoOne(l, es[|es| - 1])
    ensures AllGuarded(orig, after, es[..|es| - 1]) && WellFormed(es[..|es| - 1])
  {
    var e, rest := es[|es| - 1], es[..|es| - 1];
    forall d: Path | d.Dest? && d in orig ensures Guarded(after, rest, d, orig[d]) {
      assert Guarded(l, es, d, orig[d]);
      if k: nat :| HeldBy(l, es, d, orig[d], k) {
        if k < |rest| {
          assert rest[..k] == es[..k];
          assert HeldBy(after, rest, d, orig[d], k);
        } else {
          assert rest == es[..k];
          if after == l {
            assert FreeRecovery(after, rest, orig[d], e.original);
          } else {
            assert d in after && after[d] == orig[d];
          }
        }
      } else {
        assert Untouched(rest, d);
        if p :| FreeRecovery(l, es, orig[d], p) {
          assert FreeRecovery(after, rest, orig[d], p);
        } else {
          assert es[|es| - 1].dest != d;
        }
      }
    }
  }

  /** While committing, original destinations also stay present. */
  ghost predicate Committing(orig: Links, l: Links, es: seq<Replaced>) {
    && (forall d: Path | d.Dest? && d in orig ::
          d in l && ((exists k :: HeldBy(l, es, d, orig[d], k)) || (Untouched(es, d) && l[d] == orig[d])))
    && (forall i | 0 <= i < |es| && !es[i].hadFile :: es[i].dest !in orig)
  }

  lemma CommittingIsGuarded(orig: Links, l: Links, es: seq<Replaced>)
    requires Committing(orig, l, es)
    ensures AllGuarded(orig, l, es)
  {
  }

  /** Moving a destination aside, and renaming over it or not, keeps the commit guarded. */
  lemma CommitStepGuarded(orig: Links, l: Links, es: seq<Replaced>, e: Replaced, after: Links)
    requires WellFormed(es + [e]) && Committing(orig, l, es)
    requires e.hadFile <==> e.dest in l
    requires e.hadFile ==> e.original !in l && e.original in after && after[e.original] == l[e.dest] && e.dest in after
    requires forall p: Path | (p.Dest? && p != e.dest) || (p.Recovery? && p in l) :: SameAt(after, l, p)
    ensures Committing(orig, after, es + [e])
  {
    var next := es + [e];
    forall d: Path | d.Dest? && d in orig
      ensures d in after && ((exists k :: HeldBy(after, next, d, orig[d], k)) || (Untouched(next, d) && after[d] == orig[d]))
    {
      if d != e.dest {
        assert SameAt(after, l, d);
      }
      if k: nat :| HeldBy(l, es, d, orig[d], k) {
        assert next[..k] == es[..k];
        assert next[k] == es[k];
        assert SameAt(after, l, es[k].original);
        assert HeldBy(after, next, d, orig[d], k);
      } else if d == e.dest {
        assert next[..|es|] == es;
        assert HeldBy(after, next, d, orig[d], |es|);
      }
    }
  }

  /** The committed map: each destination holds its last staged file. */
  function CommittedTo(l: Links, files: seq<Staged>): Links
    decreases |files|
  {
    if files == [] then l
    else
      var f := files[|files| - 1];
      var before := CommittedTo(l, files[..|files| - 1]);
      if f.tmp in l then before[f.dest := l[f.tmp]] else before
  }

  ghost predicate Stageable(l: Links, files: seq<Staged>) {
    && (forall i | 0 <= i < |files| :: files[i].dest.Dest? && files[i].tmp.Temp? && files[i].tmp in l)
    && (forall i, j | 0 <= i < j < |files| :: files[i].tmp != files[j].tmp)
  }

  /** `p` is a recovery name that `es` does not use. */
  ghost predicate Foreign(es: seq<Replaced>, p: Path) {
    p.Recovery? && forall i | 0 <= i < |es| && es[i].hadFile :: es[i].original != p
  }

  ghost predicate SameForeign(a: Links, b: Links, es: seq<Replaced>) {
    forall p: Path | Foreign(es, p) :: SameAt(a, b, p)
  }

  /** `es` is a list whose rollback on `l` gives back the destinations of `orig`, and
      nothing else but its recovery links was added. */
  ghost predicate Reversible(orig: Links, l: Links, es: seq<Replaced>) {
    && WellFormed(es) && AllGuarded(orig, l, es) && SameDests(Undo(l, es), orig)
    && (forall i | 0 <= i < |es| && es[i].hadFile :: es[i].original in l && es[i].original !in orig)
    && SameForeign(l, orig, es)
  }

  lemma StepReversible(orig: Links, l: Links, es: seq<Replaced>, e: Replaced, after: Links)
    requires Reversible(orig, l, es) && Committing(orig, l, es)
    requires e.dest.Dest? && e.original.Recovery?
    requires e.hadFile <==> e.dest in l
    requires e.hadFile ==> e.original !in l && e.original in after && after[e.original] == l[e.dest] && e.dest in after
    requires forall p: Path | (p.Dest? && p != e.dest) || (p.Recovery? && (p != e.original || !e.hadFile)) :: SameAt(after, l, p)
    ensures Reversible(orig, after, es + [e]) && Committing(orig, after, es + [e])
  {
    var next := es + [e];
    assert WellFormed(next) by {
      forall i, j | 0 <= i < j < |next| && next[i].hadFile && next[j].hadFile ensures next[i].original != next[j].original {
        if j == |es| {
          assert es[i].original in l;
        }
      }
    }
    ReplacementIsUndone(orig, l, es, e, after);
    CommitStepGuarded(orig, l, es, e, after);
    CommittingIsGuarded(orig, after, next);
    assert e.hadFile ==> e.original !in orig by {
      if e.hadFile {
        assert Foreign(es, e.original);
        assert SameAt(l, orig, e.original);
      }
    }
    forall p: Path | Foreign(next, p) ensures SameAt(after, orig, p) {
      assert forall i | 0 <= i < |es| :: next[i] == es[i];
      assert Foreign(es, p);
      assert next[|es|] == e;
      assert SameAt(after, l, p) && SameAt(l, orig, p);
    }
  }

  /** A rollback of `es` that began at `start` and has dealt with all but the first `i`. */
  ghost predicate RollingBack(orig: Links, start: Links, l: Links, es: seq<Replaced>, i: nat) {
    && i <= |es| && WellFormed(es[..i]) && AllGuarded(orig, l, es[..i])
    && (forall k | 0 <= k < i && es[k].hadFile :: es[k].original in l)
    && SameForeign(l, start, es)
  }

  lemma RollbackStep(orig: Links, start: Links, before: Links, after: Links, es: seq<Replaced>, i: nat)
    requires 0 < i && RollingBack(orig, start, before, es, i) && WellFormed(es)
    requires after == before || after == UndoOne(before, es[i - 1])
    ensures RollingBack(orig, start, after, es, i - 1)
    ensures Undo(before, es[..i]) == Undo(UndoOne(before, es[i - 1]), es[..i - 1])
  {
    var rest := es[..i];
    assert rest[..i - 1] == es[..i - 1] && rest[i - 1] == es[i - 1];
    UndoStepGuarded(orig, before, rest, after);
    forall p: Path | Foreign(es, p) ensures SameAt(after, start, p) {
      assert SameAt(before, start, p) && SameAt(after, before, p);
    }
  }

  /** A finished rollback followed by cleanup gives back the original map. */
  lemma CleanRestores(orig: Links, stopped: Links, l: Links, es: seq<Replaced>, clean: bool)
    requires Reversible(orig, stopped, es)
    requires SameDests(l, Undo(stopped, es)) && SameForeign(l, stopped, es)
    requires clean ==> forall i | 0 <= i < |es| && es[i].hadFile :: es[i].original !in l
    ensures NothingLost(orig, l)
    ensures clean ==> forall p: Path | !p.Temp? :: SameAt(l, orig, p)
  {
    forall p: Path | p.Dest? ensures SameAt(l, orig, p) {
      assert SameAt(l, Undo(stopped, es), p) && SameAt(Undo(stopped, es), orig, p);
    }
    if clean {
      forall p: Path | p.Recovery? ensures SameAt(l, orig, p) {
        if Foreign(es, p) {
          assert SameAt(l, stopped, p) && SameAt(stopped, orig, p);
        }
      }
    }
  }

  lemma CommittedStep(orig: Links, before: Links, after: Links, files: seq<Staged>, i: nat)
    requires Stageable(orig, files) && i < |files| && SameDests(before, CommittedTo(orig, files[..i]))
    requires forall k | i <= k < |files| :: SameAt(before, orig, files[k].tmp)
    requires files[i].dest in after && files[i].tmp in before && after[files[i].dest] == before[files[i].tmp]
    requires forall p: Path | p != files[i].dest && p != files[i].tmp && !p.Recovery? :: SameAt(after, before, p)
    ensures SameDests(after, CommittedTo(orig, files[..i + 1]))
    ensures forall k | i + 1 <= k < |files| :: SameAt(after, orig, files[k].tmp)
  {
    assert files[..i + 1][..i] == files[..i];
    forall p: Path | p.Dest? ensures SameAt(after, CommittedTo(orig, files[..i + 1]), p) {
      assert SameAt(before, orig, files[i].tmp);
      if p != files[i].dest {
        assert SameAt(after, before, p) && SameAt(before, CommittedTo(orig, files[..i]), p);
      }
    }
    forall k | i + 1 <= k < |files| ensures SameAt(after, orig, files[k].tmp) {
      assert SameAt(after, before, files[k].tmp) && SameAt(before, orig, files[k].tmp);
    }
  }

  class FileSystem {
    var links: Links

    constructor (links: Links)
      ensures this.links == links
    {
      this.links := links;
    }

    /** A system call may be refused; a refused call changes nothing. */
    method Refused(calm: bool) returns (refused: bool)
      ensures calm ==> !refused
    {
      refused := *;
      refused := refused && !calm;
    }

    method RenameOver(from: Path, to: Path, calm: bool) returns (ok: bool)
      modifies this`links
      ensures ok ==> from in old(links) && links == Rename(old(links), from, to)
      ensures !ok ==> links == old(links)
      ensures calm && from in old(links) ==> ok
    {
      var refused := Refused(calm);
      if refused || from !in links {
        return false;
      }
      links := Rename(links, from, to);
      return true;
    }

    /** Remove counts an absent path as success. */
    method Remove(p: Path, calm: bool) returns (ok: bool)
      modifies this`links
      ensures links == if ok then old(links) - {p} else old(links)
      ensures calm ==> ok
    {
      var refused := Refused(calm);
      if p in links && refused {
        return false;
      }
      links := links - {p};
      return true;
    }

    /** A recovery name no file has. */
    method RecoveryName() returns (p: Path)
      ensures p.Recovery? && p !in links
    {
      var rest, n: nat := links.Keys, 0;
      while rest != {}
        invariant rest <= links.Keys
        invariant forall q | q in links && q !in rest && q.Recovery? :: q.n < n
        decreases rest
      {
        var q :| q in rest;
        if q.Recovery? && q.n >= n {
          n := q.n + 1;
        }
        rest := rest - {q};
      }
      p := Recovery(n);
    }

    /** Link the existing destination under a fresh recovery name. */
    method MoveAside(dest: Path, calm: bool) returns (ok: bool, e: Replaced)
      requires dest.Dest?
      modifies this`links
      ensures e.dest == dest && e.original.Recovery?
      ensures ok ==> (e.hadFile <==> dest in old(links))
      ensures ok && e.hadFile ==> e.original !in old(links) && links == old(links)[e.original := old(links)[dest]]
      ensures !ok || !e.hadFile ==> links == old(links)
      ensures calm ==> ok
    {
      e := Replaced(dest, Recovery(0), false);
      if dest !in links {
        return true, e;
      }
      var original := RecoveryName();
      var refused := Refused(calm);
      if refused {
        return false, e;
      }
      links := links[original := links[dest]];
      return true, Replaced(dest, original, true);
    }

    method UndoEntry(e: Replaced, calm: bool) returns (done: bool)
      requires e.hadFile ==> e.original in links
      modifies this`links
      ensures links == if done then UndoOne(old(links), e) else old(links)
      ensures calm ==> done
    {
      if e.hadFile {
        done := RenameOver(e.original, e.dest, calm);
      } else {
        done := Remove(e.dest, calm);
      }
    }

    /** Undo replacements last first, going on past a failure. */
    method RollbackCommitted(es: seq<Replaced>, calm: bool, ghost orig: Links) returns (ok: bool)
      requires WellFormed(es) && AllGuarded(orig, links, es)
      requires forall i | 0 <= i < |es| && es[i].hadFile :: es[i].original in links
      modifies this`links
      ensures NothingLost(orig, links)
      ensures ok ==> links == Undo(old(links), es)
      ensures SameForeign(links, old(links), es)
      ensures calm ==> ok
    {
      ghost var start := links;
      ok := true;
      var i := |es|;
      assert es[..i] == es;
      while i > 0
        invariant 0 <= i <= |es| && RollingBack(orig, start, links, es, i)
        invariant ok ==> Undo(links, es[..i]) == Undo(start, es)
        invariant calm ==> ok
      {
        ghost var before := links;
        var done := UndoEntry(es[i - 1], calm);
        RollbackStep(orig, start, before, links, es, i);
        ok := ok && done;
        i := i - 1;
      }
      GuardedIsNotLost(orig, links, es[..0]);
    }

    /** Remove the recovery links, going on past a failure. */
    method CleanupReplaced(es: seq<Replaced>, calm: bool) returns (ok: bool)
      requires WellFormed(es)
      modifies this`links
      ensures SameDests(links, old(links))
      ensures SameForeign(links, old(links), es)
      ensures ok ==> forall i | 0 <= i < |es| && es[i].hadFile :: es[i].original !in links
      ensures calm ==> ok
    {
      ok := true;
      for i := 0 to |es|
        invariant SameDests(links, old(links))
        invariant SameForeign(links, old(links), es)
        invariant ok ==> forall k | 0 <= k < i && es[k].hadFile :: es[k].original !in links
        invariant calm ==> ok
      {
        if es[i].hadFile {
          var done := Remove(es[i].original, calm);
          ok := ok && done;
        }
      }
    }

    /** Move one destination aside and rename its staged file over it. */
    method ReplaceOne(f: Staged, es: seq<Replaced>, calm: bool, ghost orig: Links) returns (ok: bool, next: seq<Replaced>)
      requires f.dest.Dest? && f.tmp.Temp?
      requires Reversible(orig, links, es) && Committing(orig, links, es)
      modifies this`links
      ensures Reversible(orig, links, next) && Committing(orig, links, next)
      ensures ok ==> f.tmp in old(links) && f.dest in links && links[f.dest] == old(links)[f.tmp]
      ensures forall p: Path | p != f.dest && p != f.tmp && !p.Recovery? :: SameAt(links, old(links), p)
      ensures calm && f.tmp in old(links) ==> ok
    {
      ghost var before := links;
      var e: Replaced;
      ok, e := MoveAside(f.dest, calm);
      if !ok {
        return false, es;
      }
      ok := RenameOver(f.tmp, f.dest, calm);
      StepReversible(orig, before, es, e, links);
      next := es + [e];
    }

    /** Roll back what was committed, and clean up only after a full rollback: otherwise every
        remaining recovery link is kept. */
    method Retreat(es: seq<Replaced>, calm: bool, ghost orig: Links) returns (clean: bool)
      requires Reversible(orig, links, es)
      modifies this`links
      ensures NothingLost(orig, links)
      ensures clean ==> forall p: Path | !p.Temp? :: SameAt(links, orig, p)
      ensures calm ==> clean
    {
      ghost var stopped := links;
      clean := RollbackCommitted(es, calm, orig);
      if clean {
        clean := CleanupReplaced(es, calm);
        CleanRestores(orig, stopped, links, es, clean);
      }
    }

    /** Replace every destination, or put everything back.  `clean` says that a failed
        commit was rolled back and cleaned up without a further failure; `calmUndo` keeps
        faults out of that part alone. */
    method Commit(files: seq<Staged>, calm: bool, calmUndo: bool) returns (ok: bool, replaced: seq<Replaced>, clean: bool)
      requires Stageable(links, files)
      modifies this`links
      ensures NothingLost(old(links), links)
      ensures ok ==> SameDests(links, CommittedTo(old(links), files))
      ensures ok ==> Reversible(old(links), links, replaced)
      ensures !ok && clean ==> forall p: Path | !p.Temp? :: SameAt(links, old(links), p)
      ensures calmUndo && !ok ==> clean
      ensures calm ==> ok
    {
      ghost var orig := links;
      replaced, ok, clean := [], true, true;
      var i := 0;
      while i < |files|
        invariant 0 <= i <= |files|
        invariant Reversible(orig, links, replaced) && Committing(orig, links, replaced)
        invariant SameDests(links, CommittedTo(orig, files[..i]))
        invariant forall k | i <= k < |files| :: SameAt(links, orig, files[k].tmp)
      {
        ghost var before := links;
        ok, replaced := ReplaceOne(files[i], replaced, calm, orig);
        if !ok {
          break;
        }
        CommittedStep(orig, before, links, files, i);
        i := i + 1;
      }
      GuardedIsNotLost(orig, links, replaced);
      assert files[..|files|] == files;
      if !ok {
        clean := Retreat(replaced, calmUndo, orig);
      }
    }

    /** The restore command: commit, update the database row, and on a failed update roll
        back and clean up; on success drop the recovery links. */
    method Restore(files: seq<Staged>, calm: bool, calmUndo: bool) returns (ok: bool, clean: bool)
      requires Stageable(links, files)
      modifies this`links
      ensures ok ==> SameDests(links, CommittedTo(old(links), files))
      ensures !ok ==> NothingLost(old(links), links)
      ensures !ok && clean ==> forall p: Path | !p.Temp? :: SameAt(links, old(links), p)
      ensures calmUndo ==> clean
      ensures calm ==> ok
    {
      ghost var orig := links;
      var replaced: seq<Replaced>;
      ok, replaced, clean := Commit(files, calm, calmUndo);
      if !ok {
        return;
      }
      var updateFails := Refused(calm);
      if updateFails {
        ok := false;
        clean := Retreat(replaced, calmUndo, orig);
        return;
      }
      clean := CleanupReplaced(replaced, calmUndo);
    }
  }
}
