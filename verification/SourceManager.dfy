/** The source store as the program keeps it; every method is one critical section. */
module SourceManager {
  import opened SourceStore

  class Manager {
    var sessions: map<UploadId, Upload>
    var snapshots: map<Key, Source>
    var pins: map<Source, nat>
    var blobs: set<Ref>
    // what was announced and prepared, and where each task stands
    ghost var issued: map<UploadId, Source>
    ghost var prepared: set<Source>
    ghost var collectors: map<TaskId, Collector>
    ghost var commits: map<TaskId, SourceStore.Commit>
    ghost var holder: Holder

    ghost function View(): State
      reads this
    {
      State(sessions, issued, snapshots, pins, prepared, blobs, collectors, commits, holder)
    }

    constructor ()
      ensures View() == State(map[], map[], map[], map[], {}, {}, map[], map[], Nobody) && Inv(View())
    {
      sessions, snapshots, pins, blobs := map[], map[], map[], {};
      issued, prepared, collectors, commits, holder := map[], {}, map[], map[], Nobody;
    }

    /** Every announced digest is on disk. */
    method HasBlobs(x: Source) returns (all: bool)
      ensures all <==> Complete(View(), x)
    {
      var left := x.digests;
      while left != {}
        invariant left <= x.digests
        invariant forall d :: d in x.digests && d !in left ==> Ref(x.owner, d) in blobs
        decreases left
      {
        var d :| d in left;
        if Ref(x.owner, d) !in blobs {
          assert Ref(x.owner, d) in Refs(x);
          return false;
        }
        left := left - {d};
      }
      return true;
    }

    /** The pin is taken under the lock that protects the upload. */
    method PrepareUpload(owner: Owner, u: UploadId) returns (ok: bool)
      modifies `pins, `prepared
      ensures ok <==> CanPrepare(old(View()), u) && old(sessions)[u].source.owner == owner
      ensures ok ==> View() == Prepare(old(View()), u)
      ensures !ok ==> View() == old(View())
    {
      if u !in sessions || sessions[u].source.owner != owner || sessions[u].expired || sessions[u].committing {
        return false;
      }
      var source := sessions[u].source;
      ok := HasBlobs(source);
      if ok {
        pins := pins[source := (if source in pins then pins[source] else 0) + 1];
        prepared := prepared + {source};
      }
    }

    method ConsumeUpload(owner: Owner, u: UploadId)
      modifies `sessions
      ensures View() == if u in old(sessions) && old(sessions)[u].source.owner == owner then Consume(old(View()), u) else old(View())
    {
      if u in sessions && sessions[u].source.owner == owner {
        sessions := sessions - {u};
      }
    }

    method ReleaseSnapshot(x: Source)
      modifies `pins, `prepared
      ensures View() == Release(old(View()), x)
    {
      if x !in pins {
        return;
      }
      if pins[x] <= 1 {
        pins := pins - {x};
        prepared := prepared - {x};
      } else {
        pins := pins[x := pins[x] - 1];
      }
    }

    /** What the collector gathers under the storage lock: live uploads, then pins. */
    method LockedReferences() returns (refs: set<Ref>)
      ensures refs == SessionRefs(View()) + PinRefs(View())
    {
      refs := {};
      var uploads := sessions.Keys;
      while uploads != {}
        invariant uploads <= sessions.Keys
        invariant refs == set u, r | u in sessions.Keys - uploads && !sessions[u].expired && r in Refs(sessions[u].source) :: r
        decreases uploads
      {
        var u :| u in uploads;
        uploads := uploads - {u};
        if !sessions[u].expired {
          refs := refs + Refs(sessions[u].source);
        }
      }
      var sources := pins.Keys;
      while sources != {}
        invariant sources <= pins.Keys
        invariant refs == SessionRefs(View()) + set x, r | x in pins.Keys - sources && r in Refs(x) :: r
        decreases sources
      {
        var x :| x in sources;
        sources := sources - {x};
        refs := refs + Refs(x);
      }
    }

    /** The last phase: mark again, then walk the blobs and delete what is old enough and unmarked. */
    method RemoveUnreferenced(ghost g: TaskId, marked: set<Ref>, aged: set<Ref>) returns (removed: set<Ref>)
      requires g in collectors && collectors[g] == Locked(marked) && holder == Collecting(g)
      modifies `blobs, `collectors, `holder
      ensures CanRemove(old(View()), g, removed) && View() == Remove(old(View()), g, removed)
      ensures removed == old(blobs) * aged - (marked + SessionRefs(old(View())) + PinRefs(old(View())))
    {
      var now := LockedReferences();
      var references := marked + now;
      removed := {};
      var left := blobs;
      while left != {}
        invariant left <= old(blobs)
        invariant removed == (old(blobs) - left) * aged - references
        invariant blobs == old(blobs) - removed && collectors == old(collectors) && holder == old(holder)
        decreases left
      {
        var r :| r in left;
        left := left - {r};
        if r in aged && r !in references {
          blobs := blobs - {r};
          removed := removed + {r};
        }
      }
      collectors := collectors - {g};
      holder := Nobody;
    }
  }
}
