/**
 Verified removal next to a concurrent editor.  The editor changes directory
 entries atomically between any two system calls of the removal; only the
 private quarantine name is out of its reach.
 */
module Removal {
  import opened Options

  type Name = nat
  type Inode = nat

  datatype File = Regular(content: seq<nat>) | Symlink | Special

  /** One atomic change by the editor: an object takes a name, or the name goes. */
  datatype Edit = Put(name: Name, inode: Inode) | Unlink(name: Name)

  type Entries = map<Name, Inode>

  function EditOnce(names: Entries, e: Edit): Entries {
    match e
    case Put(name, inode) => names[name := inode]
    case Unlink(name) => names - {name}
  }

  /** What the directory looks like after the editor's changes. */
  function Edited(names: Entries, edits: seq<Edit>): Entries {
    if edits == [] then names else EditOnce(Edited(names, edits[..|edits| - 1]), edits[|edits| - 1])
  }

  predicate Avoids(edits: seq<Edit>, private: Name) { forall e :: e in edits ==> e.name != private }

  lemma {:induction false} EditedTwice(names: Entries, first: seq<Edit>, second: seq<Edit>)
    ensures Edited(Edited(names, first), second) == Edited(names, first + second)
  {
    if second == [] {
      assert first + second == first;
    } else {
      var n := |second| - 1;
      EditedTwice(names, first, second[..n]);
      assert (first + second)[..|first + second| - 1] == first + second[..n];
    }
  }

  /** The editor's changes and a private entry do not see each other. */
  lemma {:induction false} PrivateApart(names: Entries, edits: seq<Edit>, private: Name, inode: Inode)
    requires Avoids(edits, private)
    ensures Edited(names[private := inode], edits) == Edited(names, edits)[private := inode]
    ensures private !in names ==> private !in Edited(names, edits)
  {
    if edits != [] {
      var n := |edits| - 1;
      assert edits[n] in edits;
      assert forall e :: e in edits[..n] ==> e in edits;
      PrivateApart(names, edits[..n], private, inode);
    }
  }

  predicate PutLast(edits: seq<Edit>, k: nat, name: Name, inode: Inode) {
    k < |edits| && edits[k] == Put(name, inode) && forall i :: k < i < |edits| ==> edits[i].name != name
  }

  /** A name shows the last object that the editor put there. */
  lemma {:induction false} LastPutShows(names: Entries, edits: seq<Edit>, k: nat, name: Name, inode: Inode)
    requires PutLast(edits, k, name, inode)
    ensures name in Edited(names, edits) && Edited(names, edits)[name] == inode
  {
    var n := |edits| - 1;
    if k < n {
      assert forall i :: k < i < n ==> edits[..n][i] == edits[i];
      LastPutShows(names, edits[..n], k, name, inode);
    }
  }

  /** What the caller is told. */
  datatype Outcome =
    | Removed
    | Kept(failed: bool)          // false, with or without an error
    | Quarantined                 // false, with an error naming the quarantine

  /** Errors of single system calls. */
  datatype Faults = Faults(open: bool, rename: bool, reopen: bool, remove: bool, link: bool, cleanup: bool)

  /** The editor's changes before each system call, and after the last. */
  datatype Edits = Edits(open: seq<Edit>, check: seq<Edit>, rename: seq<Edit>, reopen: seq<Edit>, last: seq<Edit>,
                         cleanup: seq<Edit>, after: seq<Edit>)

  predicate AllAvoid(e: Edits, private: Name) {
    Avoids(e.open, private) && Avoids(e.check, private) && Avoids(e.rename, private) && Avoids(e.reopen, private) &&
    Avoids(e.last, private) && Avoids(e.cleanup, private) && Avoids(e.after, private)
  }

  class Directory {
    var names: Entries
    const files: Inode -> File

    constructor (names: Entries, files: Inode -> File)
      ensures this.names == names && this.files == files
    {
      this.names, this.files := names, files;
    }

    /** The editor runs. */
    method Interfere(edits: seq<Edit>)
      modifies this
      ensures names == Edited(old(names), edits)
    {
      for i := 0 to |edits|
        invariant names == Edited(old(names), edits[..i])
      {
        assert edits[..i + 1][..i] == edits[..i];
        names := EditOnce(names, edits[i]);
      }
      assert edits[..|edits|] == edits;
    }

    /** Opens the object at a name if it is a regular file. */
    method OpenRegular(name: Name) returns (inode: Option<Inode>)
      ensures inode == if name in names && files(names[name]).Regular? then Some(names[name]) else None
    {
      if name in names && files(names[name]).Regular? {
        return Some(names[name]);
      }
      return None;
    }

    method Rename(name: Name, to: Name, fault: bool) returns (ok: bool)
      requires name != to
      modifies this
      ensures ok <==> name in old(names) && !fault
      ensures names == if ok then (old(names) - {name})[to := old(names)[name]] else old(names)
    {
      ok := name in names && !fault;
      if ok {
        var inode := names[name];
        names := (names - {name})[to := inode];
      }
    }

    /** A hard link never replaces an entry. */
    method Link(name: Name, to: Name, fault: bool) returns (ok: bool)
      requires name in names
      modifies this
      ensures ok <==> to !in old(names) && !fault
      ensures names == if ok then old(names)[to := old(names)[name]] else old(names)
    {
      ok := to !in names && !fault;
      if ok {
        names := names[to := names[name]];
      }
    }

    method Remove(name: Name, fault: bool) returns (ok: bool)
      requires name in names
      modifies this
      ensures ok <==> !fault
      ensures names == if ok then old(names) - {name} else old(names)
    {
      ok := !fault;
      if ok {
        names := names - {name};
      }
    }

    /**
     Removed: as if the name had been deleted in one step at the rename, and the
     object deleted is the one whose content was verified at the first opening
     and again in quarantine.
     */
    ghost predicate RemovedOnce(before: Entries, name: Name, expected: seq<nat>, e: Edits)
      reads this
    {
      var first := Edited(before, e.open);
      var taken := Edited(first, e.check + e.rename);
      && name in first && name in taken && taken[name] == first[name] && files(taken[name]) == Regular(expected)
      && names == Edited(taken - {name}, e.reopen + e.last + e.after)
    }

    /** Only the editor has acted, and an error is reported exactly when a call has failed on what was there. */
    ghost predicate Untouched(before: Entries, name: Name, expected: seq<nat>, preserve: set<Inode>, failed: bool, e: Edits, f: Faults)
      reads this
    {
      if !Verifies(before, name, expected, preserve, e, f) then failed == f.open && names == Edited(before, e.open + e.after)
      else if !Checks(before, name, e) then !failed && names == Edited(before, e.open + e.check + e.after)
      else
        failed == (name in Edited(before, e.open + e.check + e.rename)) &&
        names == Edited(before, e.open + e.check + e.rename + e.after)
    }

    /** What was taken was linked back where no entry was; if the last call failed, the quarantine name remains too. */
    ghost predicate Restored(before: Entries, name: Name, quarantine: Name, failed: bool, e: Edits)
      reads this
    {
      var taken := Edited(before, e.open + e.check + e.rename);
      name in taken && LinkedBack(taken, name, quarantine, failed, e)
    }

    ghost predicate LinkedBack(taken: Entries, name: Name, quarantine: Name, failed: bool, e: Edits)
      requires name in taken
      reads this
    {
      var back := Edited(taken - {name}, e.reopen + e.last);
      name !in back &&
      var relinked := Edited(back[name := taken[name]], e.cleanup + e.after);
      names == if failed then relinked[quarantine := taken[name]] else relinked
    }

    /** What can be read in quarantine: a regular file, and no call fails. */
    predicate Readable(taken: Entries, name: Name, f: Faults)
      requires name in taken
    {
      !f.reopen && files(taken[name]).Regular?
    }

    /**
     An object stays in quarantine if it cannot be read there; if it is the
     verified one and its removal fails; or if it is another one and it cannot be
     linked back, because the call fails or the name has been taken since.
     */
    predicate StaysQuarantined(taken: Entries, name: Name, first: Inode, expected: seq<nat>, e: Edits, f: Faults)
      requires name in taken
    {
      !Readable(taken, name, f) ||
      if taken[name] == first && files(first) == Regular(expected) then f.remove
      else f.link || name in Edited(taken - {name}, e.reopen + e.last)
    }

    predicate LeftInQuarantine(taken: Entries, name: Name, quarantine: Name, e: Edits, f: Faults)
      requires name in taken
      reads this
    {
      var edits := if Readable(taken, name, f) then e.reopen + e.last + e.after else e.reopen + e.after;
      names == Edited(taken - {name}, edits)[quarantine := taken[name]]
    }

    /** The file can be verified at the name: it has the expected content and need not be preserved. */
    predicate Verifies(before: Entries, name: Name, expected: seq<nat>, preserve: set<Inode>, e: Edits, f: Faults) {
      var first := Edited(before, e.open);
      !f.open && name in first && files(first[name]) == Regular(expected) && first[name] !in preserve
    }

    /** Nothing but a symbolic link has come to the name since. */
    predicate Checks(before: Entries, name: Name, e: Edits) {
      var checked := Edited(before, e.open + e.check);
      name in checked && !files(checked[name]).Symlink?
    }

    /** The name is moved into quarantine. */
    predicate Takes(before: Entries, name: Name, expected: seq<nat>, preserve: set<Inode>, e: Edits, f: Faults) {
      Verifies(before, name, expected, preserve, e, f) && Checks(before, name, e) &&
      name in Edited(before, e.open + e.check + e.rename) && !f.rename
    }

    /** The verified object is still the one at the name when the name is taken, and no call fails. */
    predicate Succeeds(before: Entries, name: Name, expected: seq<nat>, preserve: set<Inode>, e: Edits, f: Faults) {
      Takes(before, name, expected, preserve, e, f) && !f.reopen && !f.remove &&
      Edited(before, e.open + e.check + e.rename)[name] == Edited(before, e.open)[name]
    }

    /** What the editor puts at the name once it has been taken stays there: only the object taken is removed. */
    lemma RemovalSparesNewer(before: Entries, name: Name, expected: seq<nat>, e: Edits, k: nat, inode: Inode)
      requires RemovedOnce(before, name, expected, e) && PutLast(e.reopen + e.last + e.after, k, name, inode)
      ensures name in names && names[name] == inode
    {
      LastPutShows(Edited(Edited(before, e.open), e.check + e.rename) - {name}, e.reopen + e.last + e.after, k, name, inode);
    }

    /** Linking back never hides it either: nothing was there at the link, and what comes later stays. */
    lemma RelinkSparesNewer(taken: Entries, name: Name, quarantine: Name, failed: bool, e: Edits, k: nat, inode: Inode)
      requires name in taken && name != quarantine && LinkedBack(taken, name, quarantine, failed, e)
      ensures !PutLast(e.reopen + e.last, k, name, inode)
      ensures PutLast(e.cleanup + e.after, k, name, inode) ==> name in names && names[name] == inode
    {
      var back := Edited(taken - {name}, e.reopen + e.last);
      if PutLast(e.reopen + e.last, k, name, inode) {
        LastPutShows(taken - {name}, e.reopen + e.last, k, name, inode);
      }
      if PutLast(e.cleanup + e.after, k, name, inode) {
        LastPutShows(back[name := taken[name]], e.cleanup + e.after, k, name, inode);
      }
    }

    method RemoveVerified(name: Name, quarantine: Name, expected: seq<nat>, preserve: set<Inode>, e: Edits, f: Faults)
      returns (r: Outcome)
      requires name != quarantine && quarantine !in names && AllAvoid(e, quarantine)
      modifies this
      ensures r.Removed? <==> Succeeds(old(names), name, expected, preserve, e, f)
      ensures r.Quarantined? <==>
        Takes(old(names), name, expected, preserve, e, f) &&
        StaysQuarantined(Edited(old(names), e.open + e.check + e.rename), name, Edited(old(names), e.open)[name], expected, e, f)
      ensures match r
        case Removed => RemovedOnce(old(names), name, expected, e)
        case Kept(failed) =>
          if Takes(old(names), name, expected, preserve, e, f)
          then failed == f.cleanup && Restored(old(names), name, quarantine, failed, e)
          else Untouched(old(names), name, expected, preserve, failed, e, f)
        case Quarantined => LeftInQuarantine(Edited(old(names), e.open + e.check + e.rename), name, quarantine, e, f)
    {
      ghost var before := names;
      Interfere(e.open);
      var input := OpenRegular(name);
      if f.open || input.None? || input.value in preserve || files(input.value) != Regular(expected) {
        Interfere(e.after);
        EditedTwice(before, e.open, e.after);
        return Kept(f.open);
      }
      Interfere(e.check);
      EditedTwice(before, e.open, e.check);
      if name !in names || files(names[name]).Symlink? {
        Interfere(e.after);
        EditedTwice(before, e.open + e.check, e.after);
        return Kept(false);
      }
      Interfere(e.rename);
      EditedTwice(before, e.open + e.check, e.rename);
      EditedTwice(Edited(before, e.open), e.check, e.rename);
      ghost var taken: Entries := names;
      PrivateApart(before, e.open + e.check + e.rename, quarantine, 0);
      var present := name in names;
      var renamed := Rename(name, quarantine, f.rename);
      if !renamed {
        Interfere(e.after);
        EditedTwice(before, e.open + e.check + e.rename, e.after);
        return Kept(present);
      }
      r := RemoveQuarantined(name, quarantine, input.value, expected, e, f, taken);
    }

    /** The object in quarantine is verified again; anything else is linked back without overwriting. */
    method RemoveQuarantined(name: Name, quarantine: Name, first: Inode, expected: seq<nat>, e: Edits, f: Faults,
                             ghost taken: Entries)
      returns (r: Outcome)
      requires name != quarantine && AllAvoid(e, quarantine) && quarantine !in taken && name in taken
      requires names == (taken - {name})[quarantine := taken[name]]
      modifies this
      ensures r.Removed? <==> !f.reopen && taken[name] == first && files(first) == Regular(expected) && !f.remove
      ensures r.Removed? ==> names == Edited(taken - {name}, e.reopen + e.last + e.after)
      ensures r.Kept? ==> r.failed == f.cleanup && LinkedBack(taken, name, quarantine, r.failed, e)
      ensures r.Quarantined? <==> StaysQuarantined(taken, name, first, expected, e, f)
      ensures r.Quarantined? ==> LeftInQuarantine(taken, name, quarantine, e, f)
    {
      ghost var base: Entries, inode: Inode := taken - {name}, taken[name];
      Interfere(e.reopen);
      PrivateApart(base, e.reopen, quarantine, inode);
      var input := OpenRegular(quarantine);
      if f.reopen || input.None? {
        Interfere(e.after);
        QuarantineApart(base, e.reopen, e.after, quarantine, inode);
        return Quarantined;
      }
      var verified := input.value == first && files(input.value) == Regular(expected);
      Interfere(e.last);
      QuarantineApart(base, e.reopen, e.last, quarantine, inode);
      ghost var back: Entries := Edited(base, e.reopen + e.last);
      if verified {
        var removed := Remove(quarantine, f.remove);
        r := if removed then Removed else Quarantined;
        assert removed ==> names == back;
        Interfere(e.after);
        EditedTwice(base, e.reopen + e.last, e.after);
        QuarantineApart(base, e.reopen + e.last, e.after, quarantine, inode);
      } else {
        r := Restore(name, quarantine, inode, back, e, f);
        QuarantineApart(base, e.reopen + e.last, e.after, quarantine, inode);
        EditedTwice(base, e.reopen + e.last, e.after);
      }
    }

    /** Links the object back where no entry is, or leaves it in quarantine. */
    method Restore(name: Name, quarantine: Name, ghost inode: Inode, ghost back: Entries, e: Edits, f: Faults) returns (r: Outcome)
      requires name != quarantine && AllAvoid(e, quarantine) && quarantine !in back
      requires names == back[quarantine := inode]
      modifies this
      ensures r == if f.link || name in back then Quarantined else Kept(f.cleanup)
      ensures r.Quarantined? ==> names == Edited(back, e.after)[quarantine := inode]
      ensures r.Kept? ==> name !in back
      ensures r.Kept? && r.failed ==> names == Edited(back[name := inode], e.cleanup + e.after)[quarantine := inode]
      ensures r.Kept? && !r.failed ==> names == Edited(back[name := inode], e.cleanup + e.after)
    {
      var linked := Link(quarantine, name, f.link);
      if !linked {
        Interfere(e.after);
        PrivateApart(back, e.after, quarantine, inode);
        return Quarantined;
      }
      ghost var restored: Entries := back[name := inode];
      assert names == restored[quarantine := inode];
      Interfere(e.cleanup);
      PrivateApart(restored, e.cleanup, quarantine, inode);
      var cleaned := Remove(quarantine, f.cleanup);
      assert cleaned ==> names == Edited(restored, e.cleanup);
      Interfere(e.after);
      EditedTwice(restored, e.cleanup, e.after);
      PrivateApart(Edited(restored, e.cleanup), e.after, quarantine, inode);
      r := Kept(!cleaned);
    }

    lemma QuarantineApart(base: Entries, first: seq<Edit>, second: seq<Edit>, quarantine: Name, inode: Inode)
      requires Avoids(first, quarantine) && Avoids(second, quarantine) && quarantine !in base
      ensures Edited(Edited(base[quarantine := inode], first), second) == Edited(base, first + second)[quarantine := inode]
      ensures Edited(Edited(base, first)[quarantine := inode], second) == Edited(base, first + second)[quarantine := inode]
      ensures quarantine !in Edited(base, first + second)
    {
      PrivateApart(base, first, quarantine, inode);
      PrivateApart(Edited(base, first), second, quarantine, inode);
      EditedTwice(base, first, second);
    }
  }
}
