/**
 Retime: give one snapshot another time and more tags, once.

 restic names a snapshot file after its contents, so Retime writes a copy and
 removes the old file. The store may fail either call before or after it took
 effect. The ID of the copy is new on every write, because every encryption
 uses a fresh random IV; it is a parameter here, as is the order in which the
 store lists its files.
 */
module Retime {
  import opened Common
  import opened Restic

  type Store = map<string, Snapshot>

  const ID_LENGTH: nat := 64

  /** Files are named after their snapshots, by full IDs. */
  predicate Named(store: Store) {
    forall id :: id in store ==>
      store[id].id == id && |id| == ID_LENGTH && (store[id].original == "" || |store[id].original| == ID_LENGTH)
  }

  /** The snapshots of a store in some order. */
  predicate Lists(files: seq<Snapshot>, store: Store) {
    && (forall f :: f in files ==> f.id in store && store[f.id] == f)
    && (forall id :: id in store ==> store[id] in files)
  }

  /** What a BackupRun asks for, with the tag it finds a copy by first. */
  datatype Request = Request(id: string, at: nat, tag: string, extra: seq<string>)

  /** One call: the listing it gets, the ID its write gets, and how its write
      and its remove end. */
  datatype Call = Call(files: seq<Snapshot>, newID: string, put: Fault, remove: Fault)

  datatype Outcome = Outcome(store: Store, result: Option<Snapshot>)

  /** The three searches of retime: the snapshot itself by the start of its ID,
      the copy once the snapshot is gone, and the copy beside the snapshot. */
  datatype Search = ByID(id: string) | ByOriginal(id: string, tag: string) | CopyOf(of: Snapshot, at: nat, tag: string)

  predicate Matches(search: Search, s: Snapshot) {
    match search
    case ByID(id) => id <= s.id
    case ByOriginal(id, tag) => id <= s.original && tag in s.tags
    case CopyOf(of, at, tag) => s.id != of.id && s.original == Origin(of) && s.time == at && tag in s.tags
  }

  function First(files: seq<Snapshot>, search: Search): Option<Snapshot> {
    if files == [] then None
    else if Matches(search, files[0]) then Some(files[0])
    else First(files[1..], search)
  }

  function AddTags(tags: seq<string>, more: seq<string>): seq<string> {
    if more == [] then tags
    else
      var front := AddTags(tags, more[..|more| - 1]);
      if more[|more| - 1] in front then front else front + [more[|more| - 1]]
  }

  function Origin(s: Snapshot): string { if s.original == "" then s.id else s.original }

  /** The copy: the old document with the new time and tags, and the old ID as
      its original, unless the old snapshot was a copy itself. */
  function Copy(s: Snapshot, r: Request, newID: string): Snapshot {
    Snapshot(newID, r.at, AddTags(s.tags, [r.tag] + r.extra), Origin(s), s.body)
  }

  function Put(store: Store, s: Snapshot, fault: Fault): Store {
    if fault.FailsBefore? then store else store[s.id := s]
  }

  function Removed(store: Store, id: string, fault: Fault): Store {
    if fault.FailsBefore? then store else store - {id}
  }

  function Retimed(store: Store, r: Request, c: Call): Outcome {
    var found := First(c.files, ByID(r.id));
    if found.None? then
      Outcome(store, First(c.files, ByOriginal(r.id, r.tag)))
    else
      var copy := First(c.files, CopyOf(found.value, r.at, r.tag));
      if copy.Some? then
        Outcome(Removed(store, found.value.id, c.remove), if c.remove.NoFault? then copy else None)
      else
        var written := Copy(found.value, r, c.newID);
        if !c.put.NoFault? then Outcome(Put(store, written, c.put), None)
        else Outcome(Removed(Put(store, written, c.put), found.value.id, c.remove), if c.remove.NoFault? then Some(written) else None)
  }

  // ----------------------------------------------------------- the program

  class Repository {
    var snapshots: Store

    constructor (snapshots: Store)
      ensures this.snapshots == snapshots
    {
      this.snapshots := snapshots;
    }

    static method FindFirst(files: seq<Snapshot>, search: Search) returns (found: Option<Snapshot>)
      ensures found == First(files, search)
    {
      for i := 0 to |files|
        invariant First(files, search) == First(files[i..], search)
      {
        if Matches(search, files[i]) {
          return Some(files[i]);
        }
      }
      found := None;
    }

    static method Tagged(tags: seq<string>, more: seq<string>) returns (all: seq<string>)
      ensures all == AddTags(tags, more)
    {
      all := tags;
      for i := 0 to |more|
        invariant all == AddTags(tags, more[..i])
      {
        assert more[..i + 1][..i] == more[..i];
        if more[i] !in all {
          all := all + [more[i]];
        }
      }
      assert more[..|more|] == more;
    }

    /** retime, once the exclusive lock is held. */
    method Retime(r: Request, c: Call) returns (result: Option<Snapshot>)
      modifies this
      ensures Outcome(snapshots, result) == Retimed(old(snapshots), r, c)
    {
      var before := FindFirst(c.files, ByID(r.id));
      if before.None? {
        result := FindFirst(c.files, ByOriginal(r.id, r.tag));
        return;
      }
      var copy := FindFirst(c.files, CopyOf(before.value, r.at, r.tag));
      if copy.Some? {
        snapshots := Removed(snapshots, before.value.id, c.remove);
        return if c.remove.NoFault? then copy else None;
      }
      var tags := Tagged(before.value.tags, [r.tag] + r.extra);
      var original := if before.value.original == "" then before.value.id else before.value.original;
      var written := before.value.(id := c.newID, time := r.at, tags := tags, original := original);
      snapshots := Put(snapshots, written, c.put);
      if !c.put.NoFault? {
        return None;
      }
      snapshots := Removed(snapshots, before.value.id, c.remove);
      result := if c.remove.NoFault? then Some(written) else None;
    }
  }

  // ---------------------------------------------------------- exactly once

  lemma {:induction false} FirstMeans(files: seq<Snapshot>, search: Search)
    ensures First(files, search).None? <==> forall s :: s in files ==> !Matches(search, s)
    ensures First(files, search).Some? ==> First(files, search).value in files && Matches(search, First(files, search).value)
  {
    if files != [] {
      FirstMeans(files[1..], search);
      assert files == [files[0]] + files[1..];
    }
  }

  predicate NoneTwice(tags: seq<string>) { forall i, j :: 0 <= i < j < |tags| ==> tags[i] != tags[j] }

  lemma {:induction false} AddTagsMeans(tags: seq<string>, more: seq<string>)
    ensures tags <= AddTags(tags, more)
    ensures forall t :: t in AddTags(tags, more) <==> t in tags || t in more
    ensures NoneTwice(tags) ==> NoneTwice(AddTags(tags, more))
  {
    if more != [] {
      AddTagsMeans(tags, more[..|more| - 1]);
      assert more == more[..|more| - 1] + [more[|more| - 1]];
    }
  }

  /** The store before the first call: it holds the snapshot under its full ID,
      the snapshot is no copy, and no copy of it is there. */
  predicate Ready(store: Store, r: Request) {
    && Named(store)
    && r.id in store && store[r.id].original == ""
    && forall id :: id in store && store[id].original == r.id ==> r.tag !in store[id].tags
  }

  /** How far the move got: nothing is written, the copy stands beside the old
      snapshot, or only the copy is left. */
  datatype Progress = Untouched | Both(copy: string) | Moved(copy: string)

  /** The store differs from the first one by exactly that progress. */
  predicate Reached(first: Store, r: Request, store: Store, p: Progress)
    requires r.id in first
  {
    match p
    case Untouched => store == first
    case Both(c) => c !in first && |c| == ID_LENGTH && store == first[c := Copy(first[r.id], r, c)]
    case Moved(c) => c !in first && |c| == ID_LENGTH && store == first[c := Copy(first[r.id], r, c)] - {r.id}
  }

  /** The ID of a write is new. */
  predicate Fair(first: Store, store: Store, c: Call) {
    Lists(c.files, store) && |c.newID| == ID_LENGTH && c.newID !in first && c.newID !in store
  }

  function NextProgress(p: Progress, c: Call): Progress {
    match p
    case Untouched =>
      if c.put.FailsBefore? then Untouched
      else if c.put.FailsAfter? || c.remove.FailsBefore? then Both(c.newID)
      else Moved(c.newID)
    case Both(copy) => if c.remove.FailsBefore? then p else Moved(copy)
    case Moved(_) => p
  }

  /** Whether the call returns a snapshot. */
  predicate Completes(p: Progress, c: Call) {
    match p
    case Untouched => c.put.NoFault? && c.remove.NoFault?
    case Both(_) => c.remove.NoFault?
    case Moved(_) => true
  }

  /** By its full ID a listing gives the snapshot itself, or nothing. */
  lemma FindsByID(store: Store, id: string, files: seq<Snapshot>)
    requires Named(store) && Lists(files, store) && |id| == ID_LENGTH
    ensures First(files, ByID(id)) == if id in store then Some(store[id]) else None
  {
    FirstMeans(files, ByID(id));
    forall s | s in files && id <= s.id ensures id in store && s == store[id] { SamePrefix(id, s.id); }
    if id in store { assert store[id] in files; }
  }

  lemma ReachedIsNamed(first: Store, r: Request, store: Store, p: Progress)
    requires Ready(first, r) && Reached(first, r, store, p)
    ensures Named(store)
  {
  }

  /** Beside the old snapshot, a call finds the copy an earlier call wrote. */
  lemma FindsCopyBeside(first: Store, r: Request, store: Store, p: Progress, files: seq<Snapshot>)
    requires Ready(first, r) && Reached(first, r, store, p) && Lists(files, store) && !p.Moved?
    ensures First(files, CopyOf(first[r.id], r.at, r.tag)) == if p.Both? then Some(store[p.copy]) else None
  {
    var search := CopyOf(first[r.id], r.at, r.tag);
    FirstMeans(files, search);
    AddTagsMeans(first[r.id].tags, [r.tag] + r.extra);
    if p.Both? {
      assert store[p.copy] in files && Matches(search, store[p.copy]);
      forall s | s in files && Matches(search, s) ensures s == store[p.copy] { assert store[s.id] == s; }
    } else {
      forall s | s in files ensures !Matches(search, s) { assert store[s.id] == s; }
    }
  }

  /** After the old snapshot is gone, a call finds the copy by its original. */
  lemma FindsCopyAlone(first: Store, r: Request, store: Store, p: Progress, files: seq<Snapshot>)
    requires Ready(first, r) && Reached(first, r, store, p) && Lists(files, store) && p.Moved?
    ensures First(files, ByOriginal(r.id, r.tag)) == Some(store[p.copy])
  {
    var search := ByOriginal(r.id, r.tag);
    FirstMeans(files, search);
    AddTagsMeans(first[r.id].tags, [r.tag] + r.extra);
    assert store[p.copy] in files && Matches(search, store[p.copy]);
    forall s | s in files && Matches(search, s) ensures s == store[p.copy] {
      assert store[s.id] == s;
      SamePrefix(r.id, s.original);
    }
  }

  lemma SamePrefix(a: string, b: string)
    requires a <= b && |a| == |b|
    ensures a == b
  {
  }

  /** One call moves the progress as its faults allow, never back, and returns
      the copy exactly when it completes. */
  lemma CallMoves(first: Store, r: Request, store: Store, p: Progress, c: Call)
    requires Ready(first, r) && Reached(first, r, store, p) && Fair(first, store, c)
    ensures var o, p' := Retimed(store, r, c), NextProgress(p, c);
            && Reached(first, r, o.store, p')
            && (o.result.Some? <==> Completes(p, c))
            && (o.result.Some? ==> p'.Moved? && o.result == Some(Copy(first[r.id], r, p'.copy)))
            && (p.Moved? ==> o.store == store)
  {
    ReachedIsNamed(first, r, store, p);
    FindsByID(store, r.id, c.files);
    if p.Moved? { FindsCopyAlone(first, r, store, p, c.files); } else { FindsCopyBeside(first, r, store, p, c.files); }
  }

  /** The store after a sequence of calls, and the answer of the last one. */
  function After(store: Store, r: Request, calls: seq<Call>): Outcome {
    if calls == [] then Outcome(store, None)
    else Retimed(After(store, r, calls[..|calls| - 1]).store, r, calls[|calls| - 1])
  }

  predicate AllFair(store: Store, r: Request, calls: seq<Call>) {
    forall i :: 0 <= i < |calls| ==> Fair(store, After(store, r, calls[..i]).store, calls[i])
  }

  lemma FrontIsFair(store: Store, r: Request, calls: seq<Call>)
    requires AllFair(store, r, calls) && calls != []
    ensures AllFair(store, r, calls[..|calls| - 1])
    ensures Fair(store, After(store, r, calls[..|calls| - 1]).store, calls[|calls| - 1])
  {
    var front := calls[..|calls| - 1];
    forall i | 0 <= i < |front| ensures Fair(store, After(store, r, front[..i]).store, front[i]) {
      assert front[..i] == calls[..i];
    }
  }

  function ProgressAfter(calls: seq<Call>): Progress {
    if calls == [] then Untouched else NextProgress(ProgressAfter(calls[..|calls| - 1]), calls[|calls| - 1])
  }

  /** Over any sequence of calls the store differs from the first one by the
      progress alone: the old snapshot or its one copy is always there, and no
      other snapshot ever changes. */
  lemma {:induction false} AtMostOneCopy(store: Store, r: Request, calls: seq<Call>)
    requires Ready(store, r) && AllFair(store, r, calls)
    ensures Reached(store, r, After(store, r, calls).store, ProgressAfter(calls))
  {
    if calls != [] {
      var front := calls[..|calls| - 1];
      FrontIsFair(store, r, calls);
      AtMostOneCopy(store, r, front);
      CallMoves(store, r, After(store, r, front).store, ProgressAfter(front), calls[|calls| - 1]);
    }
  }

  /** The moved snapshot: the same data under a new ID, at the moment asked for,
      with the old ID as its original and the new tags behind the old ones. */
  ghost predicate MovedFrom(before: Snapshot, r: Request, after: Snapshot) {
    && after.id != before.id && after.body == before.body && after.time == r.at && after.original == before.id
    && before.tags <= after.tags && forall t :: t in after.tags <==> t in before.tags || t == r.tag || t in r.extra
  }

  lemma CopyIsMoved(s: Snapshot, r: Request, newID: string)
    requires s.original == "" && newID != s.id
    ensures MovedFrom(s, r, Copy(s, r, newID))
  {
    AddTagsMeans(s.tags, [r.tag] + r.extra);
  }

  /** Once a call returned, every later call returns the same copy and leaves
      the store as it is. */
  lemma {:induction false} ExactlyOnce(store: Store, r: Request, calls: seq<Call>, k: nat)
    requires Ready(store, r) && AllFair(store, r, calls) && k < |calls|
    requires After(store, r, calls[..k + 1]).result.Some?
    ensures After(store, r, calls) == After(store, r, calls[..k + 1])
    ensures After(store, r, calls).result.value.id in After(store, r, calls).store && r.id !in After(store, r, calls).store
    ensures MovedFrom(store[r.id], r, After(store, r, calls).result.value)
    decreases |calls|
  {
    hide MovedFrom, AddTags, Retimed, Fair;
    var front, last := calls[..|calls| - 1], calls[|calls| - 1];
    FrontIsFair(store, r, calls);
    AtMostOneCopy(store, r, front);
    CallMoves(store, r, After(store, r, front).store, ProgressAfter(front), last);
    if k == |calls| - 1 {
      assert calls[..k + 1] == calls;
      CopyIsMoved(store[r.id], r, ProgressAfter(calls).copy);
    } else {
      assert front[..k + 1] == calls[..k + 1];
      ExactlyOnce(store, r, front, k);
      CallReturned(store, r, front);
    }
  }

  /** A sequence whose last call returned has moved the snapshot. */
  lemma CallReturned(store: Store, r: Request, calls: seq<Call>)
    requires Ready(store, r) && AllFair(store, r, calls) && After(store, r, calls).result.Some?
    ensures ProgressAfter(calls).Moved?
    ensures After(store, r, calls).result == Some(Copy(store[r.id], r, ProgressAfter(calls).copy))
  {
    var front := calls[..|calls| - 1];
    FrontIsFair(store, r, calls);
    AtMostOneCopy(store, r, front);
    CallMoves(store, r, After(store, r, front).store, ProgressAfter(front), calls[|calls| - 1]);
  }

  /** A retry by the snapshot's own ID finds the moved copy exactly when the
      snapshot was not a copy already: a copy keeps the original it has. */
  lemma RetryFindsTheCopyIff(store: Store, r: Request, c: Call, d: Call)
    requires Named(store) && r.id in store && r.id != ""
    requires forall id :: id in store && store[id].original == r.id ==> r.tag !in store[id].tags
    requires forall id :: id in store ==> !Matches(CopyOf(store[r.id], r.at, r.tag), store[id])
    requires Fair(store, store, c) && c.put.NoFault? && c.remove.NoFault?
    requires Lists(d.files, Retimed(store, r, c).store) && store[r.id].original != r.id
    ensures Retimed(store, r, c).result.Some?
    ensures Retimed(Retimed(store, r, c).store, r, d).result.Some? <==> store[r.id].original == ""
  {
    FindsByID(store, r.id, c.files);
    FirstMeans(c.files, CopyOf(store[r.id], r.at, r.tag));
    var o := Retimed(store, r, c);
    assert o.store == store[c.newID := Copy(store[r.id], r, c.newID)] - {r.id};
    FindsByID(o.store, r.id, d.files);
    FirstMeans(d.files, ByOriginal(r.id, r.tag));
    AddTagsMeans(store[r.id].tags, [r.tag] + r.extra);
    assert o.store[c.newID] in d.files;
    forall s | s in d.files && Matches(ByOriginal(r.id, r.tag), s) ensures s.id == c.newID {
      assert o.store[s.id] == s;
      SamePrefix(r.id, s.original);
    }
  }
}
