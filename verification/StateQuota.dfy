/**
 The byte quota of the state volume: publications reserve their bytes before
 they stage a file, and turn the reservation into published bytes at the final
 rename.  Results are written under the storage lock without a reservation.
 */
module StateQuota {
  import opened Counting
  import opened Totals

  type Path = nat
  type TempId = nat

  /** A handle from stageState.  `pending` means that the handle still refers to a staged file. */
  datatype Publication = Publication(path: Path, size: nat, pending: bool, reserved: bool, returned: bool)

  /**
   What an encoder writes through the limited writer: `length` bytes in all; if
   the attempt fails, what was accepted ends at `stops`.  `sound` says that
   neither encoder nor disk fails, `cleaned` that removing the remains succeeds.
   */
  datatype Stream = Stream(length: nat, stops: nat, sound: bool, cleaned: bool)

  function Min(a: nat, b: nat): nat { if a <= b then a else b }

  /** The writer refuses what does not fit. */
  predicate Accepted(w: Stream, limit: int) { w.sound && w.length <= limit }
  function Remains(w: Stream, limit: nat): nat { Min(w.stops, Min(w.length, limit)) }

  datatype Staging = NoFile | Wrote(stream: Stream)

  /** What a staging that fails in the writer leaves behind without a reservation. */
  function StagingLeaks(size: nat, w: Staging): nat {
    if w.Wrote? && !Accepted(w.stream, size) && !w.stream.cleaned then Remains(w.stream, size) else 0
  }

  /** What a write of a result leaves behind. */
  function WriteLeaks(limit: nat, w: Stream, renamed: bool): nat {
    if w.cleaned || (Accepted(w, limit) && renamed) then 0
    else if Accepted(w, limit) then w.length
    else Remains(w, limit)
  }

  datatype Outcome = Committed | AlreadyClosed | DestinationRefused | QuotaExceeded | RenameFailed

  type Handles = map<TempId, Publication>

  function ReservedBytes(handles: Handles, id: TempId): nat {
    if id in handles && handles[id].reserved then handles[id].size else 0
  }

  /** The reservations are those of the publications not yet committed or closed. */
  ghost predicate Reserves(handles: Handles, reservations: map<TempId, nat>) {
    forall id :: (id in reservations <==> id in handles && handles[id].reserved) &&
                 (id in reservations ==> reservations[id] == handles[id].size)
  }

  /** A handle given to a caller keeps its complete staged file as long as its reservation. */
  predicate HandleKept(p: Publication, id: TempId, temporaries: map<TempId, nat>) {
    (p.returned && p.reserved ==> p.pending && id in temporaries && temporaries[id] == p.size) &&
    (p.reserved && id in temporaries ==> temporaries[id] <= p.size) &&
    (p.pending && !p.reserved ==> id !in temporaries)
  }

  ghost predicate HandlesKept(handles: Handles, temporaries: map<TempId, nat>) {
    forall id :: id in handles ==> HandleKept(handles[id], id, temporaries)
  }

  lemma HandlesKeptAt(handles: Handles, handles': Handles, temporaries: map<TempId, nat>, temporaries': map<TempId, nat>, id: TempId)
    requires HandlesKept(handles, temporaries) && SameOff(handles, handles', id) && SameOff(temporaries, temporaries', id)
    requires id in handles' ==> HandleKept(handles'[id], id, temporaries')
    ensures HandlesKept(handles', temporaries')
  {
    forall k | k in handles' ensures HandleKept(handles'[k], k, temporaries') {
      assert k != id ==> HandleKept(handles[k], k, temporaries);
    }
  }

  lemma ReservesAt(handles: Handles, handles': Handles, reservations: map<TempId, nat>, reservations': map<TempId, nat>, id: TempId)
    requires Reserves(handles, reservations) && SameOff(handles, handles', id) && SameOff(reservations, reservations', id)
    requires id in reservations' <==> id in handles' && handles'[id].reserved
    requires id in reservations' ==> reservations'[id] == handles'[id].size
    ensures Reserves(handles', reservations')
  {
  }

  // ----- Bytes without a reservation -----

  ghost function LeakedBytes(temporaries: map<TempId, nat>, reservations: map<TempId, nat>): nat {
    Total(temporaries - reservations.Keys)
  }

  function LeakAt(temporaries: map<TempId, nat>, reservations: map<TempId, nat>, id: TempId): nat {
    if id in temporaries && id !in reservations then temporaries[id] else 0
  }

  /** Only one staged file and its reservation change. */
  lemma LeakedAt(temporaries: map<TempId, nat>, temporaries': map<TempId, nat>,
                 reservations: map<TempId, nat>, reservations': map<TempId, nat>, id: TempId)
    requires SameOff(temporaries, temporaries', id) && SameOff(reservations, reservations', id)
    ensures LeakedBytes(temporaries', reservations') + LeakAt(temporaries, reservations, id) ==
            LeakedBytes(temporaries, reservations) + LeakAt(temporaries', reservations', id)
  {
    var m, m' := temporaries - reservations.Keys, temporaries' - reservations'.Keys;
    assert m - {id} == m' - {id};
    TotalAt(m, id);
    TotalAt(m', id);
  }

  /** Staged file and reservation of a returned publication disappear together. */
  lemma Withdrawn(handles: Handles, temporaries: map<TempId, nat>, reservations: map<TempId, nat>, id: TempId)
    requires HandlesKept(handles, temporaries) && Reserves(handles, reservations)
    requires id in handles && handles[id].returned && handles[id].reserved
    ensures id in reservations && reservations[id] == handles[id].size
    ensures HandlesKept(handles[id := handles[id].(reserved := false)], temporaries - {id})
    ensures Reserves(handles[id := handles[id].(reserved := false)], reservations - {id})
    ensures LeakedBytes(temporaries - {id}, reservations - {id}) == LeakedBytes(temporaries, reservations)
  {
    var handles' := handles[id := handles[id].(reserved := false)];
    assert HandleKept(handles[id], id, temporaries);
    assert id in reservations && reservations[id] == handles[id].size;
    hide HandlesKept, Reserves;
    HandlesKeptAt(handles, handles', temporaries, temporaries - {id}, id);
    ReservesAt(handles, handles', reservations, reservations - {id}, id);
    LeakedAt(temporaries, temporaries - {id}, reservations, reservations - {id}, id);
  }

  // ----- What the operations do -----

  /** The volume and what is accounted of it, as a value. */
  datatype Volume = Volume(max: nat, stateBytes: int, pendingBytes: int, publications: Handles,
                           files: map<Path, nat>, temporaries: map<TempId, nat>)

  function Empty(max: nat): Volume { Volume(max, 0, 0, map[], map[], map[]) }
  function Free(v: Volume): int { v.max - v.stateBytes - v.pendingBytes }

  /** One critical section, or one stretch of work outside the lock, with its outcome. */
  datatype Operation =
    | Reserving(id: TempId, path: Path, size: int)
    | Progressing(id: TempId, bytes: nat)
    | Finishing(id: TempId, staging: Staging)
    | Committing(id: TempId, regular: bool, renamed: bool)
    | Closing(id: TempId, cleaned: bool)
    | Writing(path: Path, id: TempId, stream: Stream, renamed: bool)
    | Deleting(path: Path)
    | Sweeping(expired: set<Path>, measured: bool)

  /** A publication that has reserved its bytes; what it has staged so far fits the reservation. */
  predicate Starting(v: Volume, id: TempId) {
    id in v.publications && v.publications[id].reserved && !v.publications[id].pending && !v.publications[id].returned &&
    (id in v.temporaries ==> v.temporaries[id] <= v.publications[id].size)
  }

  /** Staged names are fresh, and a handle is used by its owner only. */
  predicate Possible(v: Volume, op: Operation) {
    match op
    case Reserving(id, _, _) => id !in v.publications && id !in v.temporaries
    case Writing(_, id, _, _) => id !in v.publications && id !in v.temporaries
    case Progressing(id, _) => Starting(v, id)
    case Finishing(id, _) => Starting(v, id)
    case Committing(id, _, _) => id in v.publications && v.publications[id].returned
    case Closing(id, _) => id in v.publications && v.publications[id].returned
    case _ => true
  }

  function Reserved(v: Volume, id: TempId, path: Path, size: int): Volume {
    if 0 <= size <= Free(v) then
      v.(publications := v.publications[id := Publication(path, size, false, true, false)],
         pendingBytes := v.pendingBytes + size)
    else v
  }

  /** A failed writer gives the reservation back, whatever it leaves behind. */
  function Abandoned(v: Volume, id: TempId, left: nat): Volume
    requires id in v.publications
  {
    v.(publications := v.publications[id := v.publications[id].(reserved := false)],
       temporaries := if left == 0 then v.temporaries - {id} else v.temporaries[id := left],
       pendingBytes := v.pendingBytes - v.publications[id].size)
  }

  function Kept(v: Volume, id: TempId, length: nat, returned: bool): Volume
    requires id in v.publications
  {
    v.(publications := v.publications[id := v.publications[id].(pending := true, returned := returned)],
       temporaries := v.temporaries[id := length])
  }

  predicate Closes(v: Volume, id: TempId, cleaned: bool)
    requires id in v.publications
  {
    cleaned || !v.publications[id].pending || id !in v.temporaries
  }

  /** A staged file that cannot be removed keeps its reservation. */
  function Closed(v: Volume, id: TempId, cleaned: bool): Volume
    requires id in v.publications
  {
    if !Closes(v, id, cleaned) then v
    else
      var p := v.publications[id];
      v.(publications := v.publications[id := p.(pending := false, reserved := false)],
         temporaries := if p.pending then v.temporaries - {id} else v.temporaries,
         pendingBytes := v.pendingBytes - (if p.reserved then p.size else 0))
  }

  predicate Completes(v: Volume, id: TempId, w: Staging)
    requires id in v.publications
  {
    w.Wrote? && Accepted(w.stream, v.publications[id].size) && w.stream.length == v.publications[id].size
  }

  function Staged(v: Volume, id: TempId, w: Staging): Volume
    requires id in v.publications
  {
    var size := v.publications[id].size;
    if w.NoFile? || !Accepted(w.stream, size) then Abandoned(v, id, StagingLeaks(size, w))
    else if w.stream.length == size then Kept(v, id, size, true)
    else Closed(Kept(v, id, w.stream.length, false), id, w.stream.cleaned)
  }

  predicate Publishes(v: Volume, id: TempId, regular: bool, renamed: bool)
    requires id in v.publications
  {
    v.publications[id].reserved && v.publications[id].pending && regular && renamed
  }

  function SizeAt(files: map<Path, nat>, path: Path): nat { if path in files then files[path] else 0 }

  function Renamed(v: Volume, id: TempId): Volume
    requires id in v.publications
  {
    var p := v.publications[id];
    v.(publications := v.publications[id := p.(reserved := false)],
       files := v.files[p.path := p.size], temporaries := v.temporaries - {id},
       stateBytes := v.stateBytes + p.size - SizeAt(v.files, p.path), pendingBytes := v.pendingBytes - p.size)
  }

  predicate Replaces(v: Volume, w: Stream, renamed: bool) { Accepted(w, Free(v)) && renamed }

  function Written(v: Volume, path: Path, temp: TempId, w: Stream, renamed: bool): Volume
    requires Free(v) >= 0
  {
    if Replaces(v, w, renamed) then
      v.(files := v.files[path := w.length], stateBytes := v.stateBytes + w.length - SizeAt(v.files, path))
    else if w.cleaned then v
    else v.(temporaries := v.temporaries[temp := WriteLeaks(Free(v), w, renamed)])
  }

  function Deleted(v: Volume, path: Path): Volume {
    v.(files := v.files - {path}, stateBytes := v.stateBytes - SizeAt(v.files, path))
  }

  ghost function Swept(v: Volume, expired: set<Path>, measured: bool): Volume {
    v.(files := v.files - expired, stateBytes := if measured then Total(v.files - expired) else v.stateBytes)
  }

  ghost function Next(v: Volume, op: Operation): Volume {
    if !Possible(v, op) || Free(v) < 0 then v
    else
      match op
      case Reserving(id, path, size) => Reserved(v, id, path, size)
      case Progressing(id, bytes) => v.(temporaries := v.temporaries[id := Min(bytes, v.publications[id].size)])
      case Finishing(id, w) => Staged(v, id, w)
      case Committing(id, regular, renamed) => if Publishes(v, id, regular, renamed) then Renamed(v, id) else v
      case Closing(id, cleaned) => Closed(v, id, cleaned)
      case Writing(path, id, w, renamed) => Written(v, path, id, w, renamed)
      case Deleting(path) => Deleted(v, path)
      case Sweeping(expired, measured) => Swept(v, expired, measured)
  }

  /** The volume after a sequence of operations; what its owner cannot do is skipped. */
  ghost function After(v: Volume, ops: seq<Operation>): Volume {
    if ops == [] then v else Next(After(v, ops[..|ops| - 1]), ops[|ops| - 1])
  }

  /** The bytes that an operation leaves on disk without a reservation: a write failed and so did its cleanup. */
  function LeakOf(v: Volume, op: Operation): nat {
    if !Possible(v, op) || Free(v) < 0 then 0
    else
      match op
      case Finishing(id, w) => StagingLeaks(v.publications[id].size, w)
      case Writing(_, _, w, renamed) => WriteLeaks(Free(v), w, renamed)
      case _ => 0
  }

  /** What all operations of a sequence leave behind. */
  ghost function LeakOfAll(v: Volume, ops: seq<Operation>): nat {
    if ops == [] then 0
    else
      var front := ops[..|ops| - 1];
      LeakOfAll(v, front) + LeakOf(After(v, front), ops[|ops| - 1])
  }

  // ----- Reservations that nobody can give back -----

  /** The file was staged with another size than reserved, and its cleanup failed: no handle was returned. */
  predicate Stuck(v: Volume, id: TempId) {
    id in v.publications && v.publications[id].reserved && v.publications[id].pending && !v.publications[id].returned
  }

  /** The part of the reservation that is not on disk. */
  function Unfilled(v: Volume, id: TempId): nat
    requires id in v.publications
  {
    var size, staged := v.publications[id].size, SizeAt(v.temporaries, id);
    if staged <= size then size - staged else 0
  }

  function Withheld(v: Volume): map<TempId, nat> { map id | id in v.publications && Stuck(v, id) :: Unfilled(v, id) }

  /** No operation touches it. */
  lemma StuckStays(v: Volume, op: Operation, id: TempId)
    requires Stuck(v, id)
    ensures Stuck(Next(v, op), id) && Unfilled(Next(v, op), id) == Unfilled(v, id)
  {
  }

  lemma WithheldStays(v: Volume, op: Operation)
    ensures Total(Withheld(v)) <= Total(Withheld(Next(v, op)))
  {
    hide Next, Stuck, Unfilled;
    forall id | id in Withheld(v) ensures id in Withheld(Next(v, op)) && Withheld(v)[id] == Withheld(Next(v, op))[id] {
      StuckStays(v, op, id);
      StuckKnown(Next(v, op), id);
    }
    TotalMonotone(Withheld(v), Withheld(Next(v, op)));
  }

  lemma StuckKnown(v: Volume, id: TempId)
    requires Stuck(v, id)
    ensures id in v.publications
  {
  }

  class Storage {
    const max: nat
    var stateBytes: int
    var pendingBytes: int
    var publications: Handles
    var files: map<Path, nat>               // published files and their sizes
    var temporaries: map<TempId, nat>       // staged siblings that exist on disk

    ghost var reservations: map<TempId, nat>  // the bytes that pendingBytes adds up

    function View(): Volume
      reads this
    {
      Volume(max, stateBytes, pendingBytes, publications, files, temporaries)
    }

    ghost predicate Outstanding()
      reads this
    {
      pendingBytes == Total(reservations) && Reserves(publications, reservations)
    }

    ghost predicate Valid()
      reads this
    {
      Total(files) <= stateBytes && stateBytes + pendingBytes <= max && Outstanding() && HandlesKept(publications, temporaries)
    }

    lemma FreeSpace()
      requires Valid()
      ensures Free(View()) >= 0
    {
    }

    ghost function OnDisk(): nat
      reads this
    {
      Total(files) + Total(temporaries)
    }

    /** Staged bytes that no reservation stands for. */
    ghost function Leaked(): nat
      reads this
    {
      LeakedBytes(temporaries, reservations)
    }

    /** Reserved bytes that are not on disk yet. */
    ghost function Unused(): int
      reads this
    {
      Total(reservations) - Total(Restricted(temporaries, reservations.Keys))
    }

    /** Bytes still accounted of files that a sweep removed before it failed. */
    ghost function Stale(): int
      reads this
    {
      stateBytes - Total(files)
    }

    /**
     The books balance; so what is on disk stays within the accounted sum exactly
     when no more bytes have leaked than are reserved or accounted in vain, and
     within the quota exactly when the quota leaves room for the difference.
     */
    lemma BooksBalance()
      requires Valid()
      ensures Unused() >= 0 && Stale() >= 0
      ensures OnDisk() + Unused() + Stale() == stateBytes + pendingBytes + Leaked()
      ensures OnDisk() <= stateBytes + pendingBytes <==> Leaked() <= Unused() + Stale()
      ensures OnDisk() <= max <==> Leaked() <= Unused() + Stale() + (max - stateBytes - pendingBytes)
    {
      TotalPartition(temporaries, reservations.Keys);
      var kept := Restricted(temporaries, reservations.Keys);
      forall id | id in kept ensures id in reservations && kept[id] <= reservations[id] {
        assert HandleKept(publications[id], id, temporaries);
      }
      TotalMonotone(kept, reservations);
    }

    /** What is withheld is part of the unused reservations, and all of it once every handle is closed or committed. */
    lemma WithheldUnused()
      requires Valid()
      ensures Total(Withheld(View())) <= Unused()
      ensures (forall id :: id in publications && publications[id].reserved ==> Stuck(View(), id)) ==>
        Unused() == Total(Withheld(View()))
    {
      var rest := Rest(reservations, temporaries);
      forall id | id in Withheld(View()) ensures id in rest && Withheld(View())[id] == rest[id] {
        WithheldAt(id);
      }
      assert (forall id :: id in publications && publications[id].reserved ==> Stuck(View(), id)) ==> rest.Keys <= Withheld(View()).Keys;
      hide Stuck, Unfilled, HandlesKept, Reserves, LeakedBytes;
      TotalRest(reservations, temporaries);
      TotalMonotone(Withheld(View()), rest);
      if forall id :: id in publications && publications[id].reserved ==> Stuck(View(), id) {
        assert Withheld(View()) == rest;
      }
    }

    lemma WithheldAt(id: TempId)
      requires Valid() && id in Withheld(View())
      ensures id in reservations && Unfilled(View(), id) == Rest(reservations, temporaries)[id]
    {
      hide Total, LeakedBytes;
      assert HandleKept(publications[id], id, temporaries);
    }

    /** The first half of stageState, under the lock. */
    method Reserve(id: TempId, path: Path, size: int) returns (ok: bool)
      requires Valid() && id !in publications && id !in temporaries
      modifies `publications, `reservations, `pendingBytes
      ensures Valid() && Leaked() == old(Leaked()) && Stale() == old(Stale())
      ensures ok <==> 0 <= size <= max - old(stateBytes + pendingBytes)
      ensures ok ==> publications == old(publications)[id := Publication(path, size, false, true, false)]
      ensures pendingBytes == old(pendingBytes) + if ok then size else 0
      ensures !ok ==> publications == old(publications)
      ensures View() == Reserved(old(View()), id, path, size)
    {
      if size < 0 || size > max - stateBytes - pendingBytes {
        return false;
      }
      assert id !in reservations;
      hide HandlesKept, Reserves, LeakedBytes;
      TotalUpdate(reservations, id, size);
      reservations := reservations[id := size];
      pendingBytes := pendingBytes + size;
      publications := publications[id := Publication(path, size, false, true, false)];
      HandlesKeptAt(old(publications), publications, temporaries, temporaries, id);
      ReservesAt(old(publications), publications, old(reservations), reservations, id);
      LeakedAt(temporaries, temporaries, old(reservations), reservations, id);
      return true;
    }

    /** Bytes reach the staged file, outside the lock and through the limited writer. */
    method Progress(id: TempId, bytes: nat)
      requires Valid() && Starting(View(), id)
      modifies `temporaries
      ensures Valid() && Starting(View(), id) && Leaked() == old(Leaked()) && Stale() == old(Stale())
      ensures temporaries == old(temporaries)[id := Min(bytes, publications[id].size)]
    {
      assert id in reservations;
      hide Reserves;
      temporaries := temporaries[id := Min(bytes, publications[id].size)];
      HandlesKeptAt(publications, publications, old(temporaries), temporaries, id);
      LeakedAt(old(temporaries), temporaries, reservations, reservations, id);
    }

    /** The second half of stageState: the staged file is complete, or the publication is closed again. */
    method Stage(id: TempId, w: Staging) returns (ok: bool)
      requires Valid() && Starting(View(), id)
      modifies `publications, `reservations, `pendingBytes, `temporaries
      ensures Valid() && Stale() == old(Stale())
      ensures ok <==> Completes(old(View()), id, w)
      ensures ok ==> id in publications && publications[id].returned && id in temporaries && temporaries[id] == publications[id].size
      ensures View() == Staged(old(View()), id, w)
      ensures Leaked() == old(Leaked()) + StagingLeaks(old(publications)[id].size, w)
      ensures !ok && ReservedBytes(publications, id) == 0 ==> pendingBytes == old(pendingBytes) - old(publications)[id].size
    {
      var size := publications[id].size;
      if w.NoFile? {
        Abandon(id, 0);
        return false;
      } else if !Accepted(w.stream, size) {
        Abandon(id, if w.stream.cleaned then 0 else Remains(w.stream, size));
        return false;
      }
      ok := w.stream.length == size;
      Keep(id, w.stream.length, ok);
      if !ok {
        var _ := CloseHandle(id, w.stream.cleaned);
      }
    }

    /** The writer failed: the reservation is given back, whatever was left behind. */
    method Abandon(id: TempId, left: nat)
      requires Valid() && Starting(View(), id)
      modifies `publications, `reservations, `pendingBytes, `temporaries
      ensures Valid() && Stale() == old(Stale()) && Leaked() == old(Leaked()) + left
      ensures View() == Abandoned(old(View()), id, left)
    {
      var p := publications[id];
      assert id in reservations && reservations[id] == p.size;
      hide HandlesKept, Reserves, LeakedBytes;
      TotalSplit(reservations, id);
      reservations := reservations - {id};
      pendingBytes := pendingBytes - p.size;
      publications := publications[id := p.(reserved := false)];
      temporaries := if left == 0 then temporaries - {id} else temporaries[id := left];
      HandlesKeptAt(old(publications), publications, old(temporaries), temporaries, id);
      ReservesAt(old(publications), publications, old(reservations), reservations, id);
      LeakedAt(old(temporaries), temporaries, old(reservations), reservations, id);
    }

    /** The temporary is written; the handle refers to it. */
    method Keep(id: TempId, length: nat, returned: bool)
      requires Valid() && Starting(View(), id) && length <= publications[id].size && (returned ==> length == publications[id].size)
      modifies `publications, `temporaries
      ensures Valid() && Leaked() == old(Leaked()) && Stale() == old(Stale())
      ensures View() == Kept(old(View()), id, length, returned)
    {
      var p := publications[id];
      assert id in reservations && reservations[id] == p.size;
      hide HandlesKept, Reserves, LeakedBytes;
      temporaries := temporaries[id := length];
      publications := publications[id := p.(pending := true, returned := returned)];
      ReservesAt(old(publications), publications, reservations, reservations, id);
      HandlesKeptAt(old(publications), publications, old(temporaries), temporaries, id);
      LeakedAt(old(temporaries), temporaries, reservations, reservations, id);
    }

    /** Removes the staged file first; the reservation is given back only when nothing is left behind. */
    method CloseHandle(id: TempId, cleaned: bool) returns (closed: bool)
      requires Valid() && id in publications && (publications[id].pending || !publications[id].reserved)
      modifies `publications, `reservations, `pendingBytes, `temporaries
      ensures Valid() && Leaked() == old(Leaked()) && Stale() == old(Stale())
      ensures closed <==> Closes(old(View()), id, cleaned)
      ensures View() == Closed(old(View()), id, cleaned)
    {
      var p := publications[id];
      assert id in reservations <==> p.reserved;
      hide Reserves, HandlesKept, LeakedBytes;
      closed := !(p.pending && id in temporaries && !cleaned);
      if closed {
        Undo(id);
      }
    }

    /** What is left of the staged file is gone, and so is the reservation. */
    method Undo(id: TempId)
      requires Valid() && id in publications && (publications[id].pending || !publications[id].reserved)
      requires id in reservations <==> publications[id].reserved
      modifies `publications, `reservations, `pendingBytes, `temporaries
      ensures Valid() && Leaked() == old(Leaked()) && Stale() == old(Stale())
      ensures View() == Closed(old(View()), id, true)
    {
      var p := publications[id];
      assert p.pending && !p.reserved ==> id !in temporaries by { assert HandleKept(p, id, temporaries); }
      hide Reserves, HandlesKept, LeakedBytes;
      if p.pending {
        temporaries := temporaries - {id};
      }
      if p.reserved {
        TotalSplit(reservations, id);
        reservations := reservations - {id};
        pendingBytes := pendingBytes - p.size;
      }
      publications := publications[id := p.(pending := false, reserved := false)];
      ReservesAt(old(publications), publications, old(reservations), reservations, id);
      HandlesKeptAt(old(publications), publications, old(temporaries), temporaries, id);
      LeakedAt(old(temporaries), temporaries, old(reservations), reservations, id);
    }

    /** Close: idempotent; a failed cleanup keeps the reservation for a later retry. */
    method Close(id: TempId, cleaned: bool) returns (closed: bool)
      requires Valid() && id in publications && publications[id].returned
      modifies `publications, `reservations, `pendingBytes, `temporaries
      ensures Valid() && Leaked() == old(Leaked()) && Stale() == old(Stale())
      ensures closed ==> id !in temporaries || !old(publications)[id].pending
      ensures closed ==> ReservedBytes(publications, id) == 0
      ensures closed ==> pendingBytes == old(pendingBytes) - ReservedBytes(old(publications), id)
      ensures closed <==> cleaned || id !in old(temporaries) || !old(publications)[id].pending
      ensures !closed ==> View() == old(View())
      ensures publications - {id} == old(publications) - {id} && temporaries - {id} == old(temporaries) - {id}
      ensures View() == Closed(old(View()), id, cleaned)
    {
      assert HandleKept(publications[id], id, temporaries);
      closed := CloseHandle(id, cleaned);
    }

    /**
     The final rename under the lock.  The reservation was part of the sum all
     along, so the quota test inside never refuses.
     */
    method Commit(id: TempId, regular: bool, renamed: bool) returns (r: Outcome)
      requires Valid() && id in publications && publications[id].returned
      modifies this
      ensures Valid() && Leaked() == old(Leaked()) && Stale() == old(Stale())
      ensures r != QuotaExceeded
      ensures r.Committed? <==> old(publications)[id].reserved && old(publications)[id].pending && regular && renamed
      ensures r.Committed? ==>
        var p := old(publications)[id];
        publications == old(publications)[id := p.(reserved := false)] &&
        files == old(files)[p.path := p.size] && temporaries == old(temporaries) - {id} &&
        stateBytes + pendingBytes == old(stateBytes + pendingBytes) - SizeAt(old(files), p.path)
      ensures View() == if Publishes(old(View()), id, regular, renamed) then Renamed(old(View()), id) else old(View())
    {
      var p := publications[id];
      if !p.reserved || !p.pending {
        return AlreadyClosed;
      }
      var replaced := 0;
      if p.path in files {
        if !regular {
          return DestinationRefused;
        }
        replaced := files[p.path];
      } else if !regular {
        return DestinationRefused;
      }
      if stateBytes + pendingBytes > max {
        return QuotaExceeded;
      }
      if !renamed {
        return RenameFailed;
      }
      Publish(id, replaced);
      return Committed;
    }

    /** The rename: the staged file takes the place of the old one, and its reservation becomes published bytes. */
    method Publish(id: TempId, replaced: nat)
      requires Valid() && id in publications && publications[id].returned && publications[id].reserved && publications[id].pending
      requires replaced == SizeAt(files, publications[id].path)
      modifies this
      ensures Valid() && Leaked() == old(Leaked()) && Stale() == old(Stale())
      ensures View() == Renamed(old(View()), id)
    {
      var p := publications[id];
      hide HandlesKept, Reserves, Total, LeakedBytes;
      Withdrawn(publications, temporaries, reservations, id);
      assert Total(files[p.path := p.size]) == Total(files) + p.size - replaced by { TotalUpdate(files, p.path, p.size); }
      assert Total(reservations - {id}) == Total(reservations) - p.size by { TotalSplit(reservations, id); }
      ghost var was := View();
      files, temporaries := files[p.path := p.size], temporaries - {id};
      stateBytes, pendingBytes := stateBytes + p.size - replaced, pendingBytes - p.size;
      publications, reservations := publications[id := p.(reserved := false)], reservations - {id};
      assert View() == Renamed(was, id);
    }

    /**
     A result, or a rewritten result archive, is written straight under the lock:
     the old file stays until the rename, and the writer refuses more than is left over.
     */
    method WriteAtomic(path: Path, temp: TempId, w: Stream, renamed: bool) returns (change: int, ok: bool)
      requires Valid() && temp !in publications && temp !in temporaries
      modifies `files, `stateBytes, `temporaries
      ensures Valid() && Stale() == old(Stale())
      ensures ok <==> Accepted(w, max - old(stateBytes + pendingBytes)) && renamed
      ensures change == stateBytes - old(stateBytes) == if ok then w.length - SizeAt(old(files), path) else 0
      ensures View() == Written(old(View()), path, temp, w, renamed)
      ensures stateBytes + pendingBytes <= old(stateBytes + pendingBytes) + Min(w.length, max - old(stateBytes + pendingBytes))
      ensures Leaked() == old(Leaked()) + WriteLeaks(max - old(stateBytes + pendingBytes), w, renamed)
    {
      assert temp !in reservations;
      hide LeakedBytes, Reserves;
      var available: nat := max - stateBytes - pendingBytes;
      ok := Accepted(w, available) && renamed;
      change := 0;
      if ok {
        var replaced := if path in files then files[path] else 0;
        TotalUpdate(files, path, w.length);
        files := files[path := w.length];
        change := w.length - replaced;
        stateBytes := stateBytes + change;
      } else if !w.cleaned {
        temporaries := temporaries[temp := if Accepted(w, available) then w.length else Remains(w, available)];
        HandlesKeptAt(publications, publications, old(temporaries), temporaries, temp);
        LeakedAt(old(temporaries), temporaries, reservations, reservations, temp);
      }
    }

    /** WriteResult: the remaining space is never negative. */
    method WriteResult(path: Path, temp: TempId, w: Stream, renamed: bool) returns (ok: bool)
      requires Valid() && temp !in publications && temp !in temporaries
      modifies `files, `stateBytes, `temporaries
      ensures Valid() && Stale() == old(Stale())
      ensures ok <==> Accepted(w, max - old(stateBytes + pendingBytes)) && renamed
      ensures ok ==> files == old(files)[path := w.length] && stateBytes + pendingBytes <= max
      ensures !ok ==> files == old(files) && stateBytes == old(stateBytes)
      ensures View() == Written(old(View()), path, temp, w, renamed)
      ensures Leaked() == old(Leaked()) + WriteLeaks(max - old(stateBytes + pendingBytes), w, renamed)
    {
      var available := max - stateBytes - pendingBytes;
      if available < 0 {
        return false;
      }
      var _, written := WriteAtomic(path, temp, w, renamed);
      return written;
    }

    /** Deletion of one regular file; the clamp at zero is never used. */
    method DeleteFile(path: Path) returns (freed: nat)
      requires Valid()
      modifies `files, `stateBytes
      ensures Valid() && Leaked() == old(Leaked()) && Stale() == old(Stale())
      ensures files == old(files) - {path}
      ensures freed == SizeAt(old(files), path) && View() == Deleted(old(View()), path)
    {
      if path !in files {
        assert files - {path} == files;
        return 0;
      }
      TotalSplit(files, path);
      freed := files[path];
      files := files - {path};
      stateBytes := if stateBytes < freed then 0 else stateBytes - freed;
    }

    /** directorySize: staged siblings are not counted. */
    method DirectorySize() returns (total: nat)
      ensures total == Total(files)
    {
      total := 0;
      var left := files;
      while left != map[]
        invariant total + Total(left) == Total(files)
        decreases left
      {
        var path :| path in left;
        TotalSplit(left, path);
        total := total + left[path];
        left := left - {path};
      }
    }

    /** A sweep removes files and then measures what is left, unless it fails before. */
    method Sweep(expired: set<Path>, measured: bool)
      requires Valid()
      modifies `files, `stateBytes
      ensures files == old(files) - expired
      ensures Valid() && Leaked() == old(Leaked()) && View() == Swept(old(View()), expired, measured)
      ensures measured ==> stateBytes == Total(files) <= old(stateBytes) && Stale() == 0
      ensures !measured ==> stateBytes == old(stateBytes) && Stale() >= old(Stale())
    {
      TotalLess(files, expired);
      files := files - expired;
      if measured {
        stateBytes := DirectorySize();
      }
    }

    /** A fresh volume; startup refuses one that already exceeds the quota. */
    constructor (max: nat)
      ensures Valid() && Leaked() == 0 && Stale() == 0 && this.max == max
      ensures View() == Empty(max)
    {
      this.max := max;
      stateBytes, pendingBytes := 0, 0;
      publications, files, temporaries, reservations := map[], map[], map[], map[];
      new;
      assert temporaries - reservations.Keys == map[];
    }
  }

  // ----- Every sequence of operations -----

  /** One operation does what it does to the volume, and leaks exactly what it leaves behind. */
  method Perform(s: Storage, op: Operation)
    requires s.Valid()
    modifies s
    ensures s.Valid() && s.View() == Next(old(s.View()), op)
    ensures s.Leaked() == old(s.Leaked()) + LeakOf(old(s.View()), op)
    ensures s.Stale() == if op.Sweeping? then s.Stale() else old(s.Stale())
    ensures op.Sweeping? && op.measured ==> s.Stale() == 0
  {
    hide s.Valid, s.Leaked, Reserved, Staged, Renamed, Closed, Written, Deleted, Swept, StagingLeaks, WriteLeaks, Starting;
    assert Free(s.View()) >= 0 by { s.FreeSpace(); }
    if Possible(s.View(), op) {
      match op
      case Reserving(id, path, size) => var _ := s.Reserve(id, path, size);
      case Progressing(id, bytes) => s.Progress(id, bytes);
      case Finishing(id, w) => var _ := s.Stage(id, w);
      case Committing(id, regular, renamed) => var _ := s.Commit(id, regular, renamed);
      case Closing(id, cleaned) => var _ := s.Close(id, cleaned);
      case Writing(path, id, w, renamed) => var _ := s.WriteResult(path, id, w, renamed);
      case Deleting(path) => var _ := s.DeleteFile(path);
      case Sweeping(expired, measured) => s.Sweep(expired, measured);
    }
  }

  lemma AfterOne(v: Volume, ops: seq<Operation>, op: Operation)
    ensures After(v, ops + [op]) == Next(After(v, ops), op)
  {
    assert (ops + [op])[..|ops|] == ops;
  }

  /** A file that fits is published under its name as a whole, and only the difference of the sizes stays accounted. */
  lemma Published(v: Volume, id: TempId, path: Path, size: nat, w: Stream)
    requires id !in v.publications && id !in v.temporaries && size <= Free(v) && w.sound && w.length == size
    ensures var v' := After(v, [Reserving(id, path, size), Finishing(id, Wrote(w)), Committing(id, true, true)]);
      v'.files == v.files[path := size] && v'.temporaries == v.temporaries && v'.pendingBytes == v.pendingBytes &&
      v'.stateBytes == v.stateBytes + size - SizeAt(v.files, path)
  {
    hide Next, After;
    var first, second, last := Reserving(id, path, size), Finishing(id, Wrote(w)), Committing(id, true, true);
    var v1 := Next(v, first);
    var v2 := Next(v1, second);
    AfterOne(v, [], first);
    AfterOne(v, [first], second);
    AfterOne(v, [first, second], last);
    assert [] + [first] == [first] && [first] + [second] == [first, second] && [first, second] + [last] == [first, second, last];
    assert After(v, []) == v by { AfterNothing(v); }
    Begun(v, id, path, size);
    Filled(v1, id, w);
    Placed(v2, id);
  }

  lemma AfterNothing(v: Volume)
    ensures After(v, []) == v
  {
  }

  lemma Begun(v: Volume, id: TempId, path: Path, size: nat)
    requires id !in v.publications && id !in v.temporaries && size <= Free(v)
    ensures var p := Publication(path, size, false, true, false);
      Next(v, Reserving(id, path, size)) == v.(publications := v.publications[id := p], pendingBytes := v.pendingBytes + size)
  {
  }

  lemma Filled(v: Volume, id: TempId, w: Stream)
    requires Starting(v, id) && Free(v) >= 0 && w.sound && w.length == v.publications[id].size
    ensures var p := v.publications[id];
      Next(v, Finishing(id, Wrote(w))) ==
      v.(publications := v.publications[id := Publication(p.path, p.size, true, true, true)], temporaries := v.temporaries[id := p.size])
  {
  }

  lemma Placed(v: Volume, id: TempId)
    requires id in v.publications && v.publications[id].returned && v.publications[id].pending && v.publications[id].reserved && Free(v) >= 0
    ensures var p, v' := v.publications[id], Next(v, Committing(id, true, true));
      v'.files == v.files[p.path := p.size] && v'.temporaries == v.temporaries - {id} && v'.pendingBytes == v.pendingBytes - p.size &&
      v'.stateBytes == v.stateBytes + p.size - SizeAt(v.files, p.path)
  {
  }

  /** A write that fails cleans up after itself. */
  predicate Tidy(op: Operation) {
    match op
    case Finishing(_, w) => w.Wrote? ==> w.stream.cleaned
    case Writing(_, _, w, _) => w.cleaned
    case _ => true
  }

  lemma {:induction false} TidyLeaksNothing(v: Volume, ops: seq<Operation>)
    requires forall op :: op in ops ==> Tidy(op)
    ensures LeakOfAll(v, ops) == 0
  {
    hide Next, LeakOf, Tidy;
    if ops != [] {
      var n := |ops| - 1;
      TidyLeaksNothing(v, ops[..n]);
      assert ops[n] in ops;
      TidyOne(After(v, ops[..n]), ops[n]);
    }
  }

  lemma TidyOne(v: Volume, op: Operation)
    requires Tidy(op)
    ensures LeakOf(v, op) == 0
  {
  }

  /**
   Nothing has leaked exactly if no operation, in the state that it found, had
   its write fail and its cleanup too, after bytes had reached the disk.
   */
  lemma {:induction false} LeaksExactly(v: Volume, ops: seq<Operation>)
    ensures LeakOfAll(v, ops) == 0 <==> forall i :: 0 <= i < |ops| ==> !Leaks(After(v, ops[..i]), ops[i])
  {
    hide Next, LeakOf, Leaks, After;
    if ops != [] {
      var n := |ops| - 1;
      var front := ops[..n];
      assert forall i :: 0 <= i < n ==> front[..i] == ops[..i];
      LeaksExactly(v, front);
      LeaksMeans(After(v, front), ops[n]);
      assert LeakOfAll(v, front) == 0 <==> forall i :: 0 <= i < n ==> !Leaks(After(v, ops[..i]), ops[i]);
    }
  }

  /** Bytes reached the disk, and neither the write nor its cleanup succeeded. */
  predicate Leaks(v: Volume, op: Operation) {
    Possible(v, op) && Free(v) >= 0 &&
    match op
    case Finishing(id, w) =>
      w.Wrote? && !w.stream.cleaned && w.stream.stops > 0 && w.stream.length > 0 && v.publications[id].size > 0 &&
      !Accepted(w.stream, v.publications[id].size)
    case Writing(_, _, w, renamed) =>
      !w.cleaned && w.length > 0 && !Replaces(v, w, renamed) && (Accepted(w, Free(v)) || (w.stops > 0 && Free(v) > 0))
    case _ => false
  }

  lemma LeaksMeans(v: Volume, op: Operation)
    ensures LeakOf(v, op) > 0 <==> Leaks(v, op)
  {
  }

  /** Any sequence of operations on a volume, and what it leaks. */
  method Continue(s: Storage, ops: seq<Operation>)
    requires s.Valid()
    modifies s
    ensures s.Valid() && s.View() == After(old(s.View()), ops)
    ensures s.Leaked() == old(s.Leaked()) + LeakOfAll(old(s.View()), ops)
    ensures Total(Withheld(s.View())) >= old(Total(Withheld(s.View())))
    ensures (forall op :: op in ops && op.Sweeping? ==> op.measured) && old(s.Stale()) == 0 ==> s.Stale() == 0
  {
    hide s.Leaked, Next, LeakOf, s.Stale, Withheld;
    ghost var v := s.View();
    for i := 0 to |ops|
      invariant s.Valid() && s.View() == After(v, ops[..i])
      invariant s.Leaked() == old(s.Leaked()) + LeakOfAll(v, ops[..i])
      invariant Total(Withheld(s.View())) >= Total(Withheld(v))
      invariant (forall op :: op in ops && op.Sweeping? ==> op.measured) && old(s.Stale()) == 0 ==> s.Stale() == 0
    {
      assert ops[i] in ops && ops[..i + 1][..i] == ops[..i];
      WithheldStays(s.View(), ops[i]);
      Perform(s, ops[i]);
    }
    assert ops[..|ops|] == ops;
  }

  /**
   After any sequence of operations, and so in every state: the books balance
   with the bytes that the failed cleanups of the sequence left behind, and the
   volume stays within the accounted sum exactly when these are no more than the
   bytes reserved or accounted in vain.
   */
  method Run(max: nat, ops: seq<Operation>) returns (s: Storage, ghost leaks: nat)
    ensures fresh(s) && s.Valid() && s.View() == After(Empty(max), ops)
    ensures s.Leaked() == leaks == LeakOfAll(Empty(max), ops)
    ensures s.OnDisk() + s.Unused() + s.Stale() == s.stateBytes + s.pendingBytes + leaks
    ensures s.OnDisk() <= s.stateBytes + s.pendingBytes <==> leaks <= s.Unused() + s.Stale()
    ensures leaks == 0 <==> forall i :: 0 <= i < |ops| ==> !Leaks(After(Empty(max), ops[..i]), ops[i])
    ensures (forall op :: op in ops ==> Tidy(op)) ==> s.OnDisk() <= s.stateBytes + s.pendingBytes <= max
    ensures (forall op :: op in ops && op.Sweeping? ==> op.measured) ==> s.Stale() == 0
  {
    hide s.Leaked, Next, LeakOf, Leaks, s.OnDisk, s.Unused, s.Stale, Withheld;
    s := new Storage(max);
    Continue(s, ops);
    leaks := LeakOfAll(Empty(max), ops);
    s.BooksBalance();
    LeaksExactly(Empty(max), ops);
    if forall op :: op in ops ==> Tidy(op) {
      TidyLeaksNothing(Empty(max), ops);
    }
  }

  /** While nothing more leaks, the volume stays within the accounted sum if no more has leaked than is withheld. */
  method StaysWithin(s: Storage, ops: seq<Operation>)
    requires s.Valid() && s.Leaked() <= Total(Withheld(s.View())) && forall op :: op in ops ==> Tidy(op)
    modifies s
    ensures s.Valid() && s.View() == After(old(s.View()), ops)
    ensures s.OnDisk() <= s.stateBytes + s.pendingBytes
  {
    hide s.Leaked, Next, LeakOf, Tidy, s.OnDisk, s.Unused, s.Stale, Withheld;
    TidyLeaksNothing(s.View(), ops);
    Continue(s, ops);
    s.BooksBalance();
    s.WithheldUnused();
  }

  /** What the owner of a publication does to be done with it. */
  function Settling(v: Volume, id: TempId): Operation {
    if Starting(v, id) then Finishing(id, NoFile) else Closing(id, true)
  }

  predicate Owned(v: Volume, id: TempId) { id in v.publications && v.publications[id].reserved && !Stuck(v, id) }

  /** It leaves one publication less to be done with. */
  lemma Settles(s: Storage, id: TempId)
    requires s.Valid() && Owned(s.View(), id)
    ensures var v, v' := s.View(), Next(s.View(), Settling(s.View(), id));
      v'.publications.Keys == v.publications.Keys && !Owned(v', id) && Total(Withheld(v')) == Total(Withheld(v)) &&
      forall k :: k != id ==> (Owned(v', k) <==> Owned(v, k))
  {
    var v, v' := s.View(), Next(s.View(), Settling(s.View(), id));
    s.FreeSpace();
    SettledNow(s, id);
    hide Next, Settling, s.Valid;
    assert Withheld(v') == Withheld(v);
  }

  /** The publication has given its reservation back, and no other has changed. */
  lemma SettledNow(s: Storage, id: TempId)
    requires s.Valid() && Owned(s.View(), id) && Free(s.View()) >= 0
    ensures var v, v' := s.View(), Next(s.View(), Settling(s.View(), id));
      v'.publications.Keys == v.publications.Keys && !v'.publications[id].reserved &&
      v'.publications - {id} == v.publications - {id} && v'.temporaries - {id} == v.temporaries - {id}
  {
    hide Total, LeakedBytes, Reserves;
    var v := s.View();
    assert HandleKept(v.publications[id], id, v.temporaries);
    assert Possible(v, Settling(v, id));
    if Starting(v, id) {
    } else {
    }
  }

  /**
   Once every publication has been settled and the published files measured, the
   volume holds more than is accounted exactly if more has leaked than is withheld.
   */
  method Settle(s: Storage) returns (ops: seq<Operation>)
    requires s.Valid()
    modifies s
    ensures s.Valid() && s.View() == After(old(s.View()), ops) && forall op :: op in ops ==> Tidy(op)
    ensures s.OnDisk() > s.stateBytes + s.pendingBytes <==> old(s.Leaked()) > old(Total(Withheld(s.View())))
  {
    hide s.Leaked, Next, LeakOf, s.OnDisk, s.Unused, s.Stale, Withheld, Stuck, Starting;
    ops := [Sweeping({}, true)];
    ghost var v := s.View();
    AfterOne(v, [], ops[0]);
    assert [] + [ops[0]] == ops;
    TidyOne(v, ops[0]);
    Perform(s, ops[0]);
    SweptWithheld(v);
    var left := s.publications.Keys;
    while left != {}
      invariant s.Valid() && s.View() == After(v, ops) && forall op :: op in ops ==> Tidy(op)
      invariant s.Leaked() == old(s.Leaked()) && s.Stale() == 0 && Total(Withheld(s.View())) == Total(Withheld(v))
      invariant forall id :: Owned(s.View(), id) ==> id in left
      decreases left
    {
      var id :| id in left;
      left := left - {id};
      if Owned(s.View(), id) {
        var op := Settling(s.View(), id);
        Settles(s, id);
        AfterOne(v, ops, op);
        TidyOne(s.View(), op);
        Perform(s, op);
        ops := ops + [op];
      }
    }
    AllSettled(s);
    s.WithheldUnused();
    s.BooksBalance();
  }

  lemma SweptWithheld(v: Volume)
    ensures var v' := Next(v, Sweeping({}, true));
      Withheld(v') == Withheld(v) && v'.publications == v.publications
  {
  }

  lemma AllSettled(s: Storage)
    requires s.Valid() && forall id :: !Owned(s.View(), id)
    ensures forall id :: id in s.publications && s.publications[id].reserved ==> Stuck(s.View(), id)
  {
    forall id | id in s.publications && s.publications[id].reserved ensures Stuck(s.View(), id) {
      assert !Owned(s.View(), id);
    }
  }

  /**
   When both the write of a staged file and the removal of its remains fail, the
   reservation is given back although the bytes stay: the volume can then hold
   more than the quota.
   */
  method LeakExceedsQuota() returns (s: Storage)
    ensures s.Valid() && s.Leaked() == 10 && s.OnDisk() > s.max
  {
    hide Total, LeakedBytes, Reserves, HandlesKept, HandleKept;
    s := new Storage(10);
    var first := s.Reserve(0, 0, 10);
    var failed := s.Stage(0, Wrote(Stream(10, 10, false, false)));
    var second := s.Reserve(1, 0, 10);
    var staged := s.Stage(1, Wrote(Stream(10, 10, true, true)));
    hide *;
    TwoFiles(s.temporaries);
    LeakedOnDisk(s);
  }

  lemma TwoFiles(temporaries: map<TempId, nat>)
    requires temporaries == map[0 := 10, 1 := 10]
    ensures Total(temporaries) == 20
  {
    var none: map<TempId, nat> := map[];
    TotalUpdate(none, 0, 10);
    TotalUpdate(none[0 := 10], 1, 10);
    assert temporaries == none[0 := 10][1 := 10];
  }

  lemma LeakedOnDisk(s: Storage)
    requires Total(s.temporaries) > s.max
    ensures s.OnDisk() > s.max
  {
  }
}
