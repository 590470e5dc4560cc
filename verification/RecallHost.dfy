/** The host an index run drives: Open WebUI over its REST protocol and the state file.
    Every call may fail, and a failed call may have taken effect before its reply was
    lost. People keep using their chats between any two calls. */
module RecallHost {
  import opened RecallWorld
  import opened RecallPlan

  datatype Reply = Fine | Refused | ReplyLost

  datatype Fetched = NotFetched | Fetched(version: int, renderable: bool)

  /** Everything but the chats is the same. */
  predicate SameStores(a: World, b: World) {
    && b.collection == a.collection && b.kb == a.kb && b.nextFile == a.nextFile
    && b.disk == a.disk && b.attaches == a.attaches
  }

  /** The reference is one of this user's chats, at a version it had between the two worlds. */
  predicate Names(a: World, b: World, user: nat, r: ChatRef) {
    && r.id in b.live && b.live[r.id].owner == user == r.user
    && 0 < r.updatedAt <= b.live[r.id].version
    && (r.id in a.live ==> a.live[r.id].version <= r.updatedAt)
  }

  /** No chat is named twice. */
  ghost predicate ListsOnce(refs: seq<ChatRef>) {
    forall i, j :: 0 <= i < j < |refs| ==> refs[i].id != refs[j].id
  }

  class Host {
    var w: World
    ghost var trace: seq<World>
    var calls: nat

    /** What goes wrong with the n-th call, and what the operator's chats become before it. */
    const faults: nat -> Reply
    const drift: (nat, World) -> (map<ChatId, LiveChat>, set<ChatId>)
    const resetLeaves: nat -> set<FileId>
    /** What a listing names beside the chats as they are at its end, and chats it misses, when
        they shift between its pages; and the versions its pages name. */
    const listedBeside: nat -> seq<ChatRef>
    const overlooked: nat -> set<ChatId>
    const listedAt: (nat, ChatId) -> int

    /** No call fails unless what it asks is impossible. */
    const steady: bool
    /** From this call on nobody touches a chat. */
    const stillFrom: nat
    /** The server refuses to remove a file the collection does not hold. */
    const strict: bool

    constructor (w: World, faults: nat -> Reply, drift: (nat, World) -> (map<ChatId, LiveChat>, set<ChatId>),
                 resetLeaves: nat -> set<FileId>, listedBeside: nat -> seq<ChatRef>,
                 overlooked: nat -> set<ChatId>, listedAt: (nat, ChatId) -> int, steady: bool, stillFrom: nat,
                 strict: bool)
      ensures this.w == w && this.steady == steady && this.stillFrom == stillFrom && this.strict == strict
      ensures trace == [] && calls == 0
    {
      this.w, this.trace, this.calls := w, [], 0;
      this.faults, this.drift, this.resetLeaves := faults, drift, resetLeaves;
      this.listedBeside, this.overlooked, this.listedAt := listedBeside, overlooked, listedAt;
      this.steady, this.stillFrom, this.strict := steady, stillFrom, strict;
    }

    /** Nobody touches a chat any more. */
    predicate Still()
      reads `calls
    {
      calls >= stillFrom
    }

    /** Every world recorded since position `from` kept the promise. */
    ghost predicate KeptThePromiseSince(from: nat)
      reads this
    {
      forall i :: from <= i < |trace| ==> CrashConsistent(trace[i])
    }

    /** Every world recorded since position `from` carries this completion stamp. */
    ghost predicate StampSince(from: nat, stamp: nat)
      reads this
    {
      forall i :: from <= i < |trace| ==> trace[i].disk.completedAt == stamp
    }

    /** Time passes up to the next call. */
    method Begin() returns (fault: Reply)
      requires Sound(w)
      modifies this
      ensures forall d :: SoundDoc(old(w), d) ==> SoundDoc(w, d)
      ensures Sound(w) && Moved(old(w), w) && Drifted(old(w), w) && trace == old(trace)
      ensures Orphans(w) == Orphans(old(w)) && (CrashConsistent(old(w)) ==> CrashConsistent(w))
      ensures calls == old(calls) + 1 && (old(Still()) ==> Still() && SameChats(old(w), w))
      ensures steady ==> fault == Fine
    {
      var (live', born') := drift(calls, w);
      if calls < stillFrom && Evolves(w.users, w.live, w.born, live', born') {
        w := w.(live := live', born := born');
      }
      MovedKeeps(old(w), w);
      fault := if steady then Fine else faults(calls);
      calls := calls + 1;
    }

    /** A call that changes nothing: health, sign-in, listing users, model discovery,
        reading the state file. */
    method Ask() returns (ok: bool)
      requires Sound(w)
      modifies this
      ensures Sound(w) && Drifted(old(w), w) && trace == old(trace) + [w]
      ensures SameStores(old(w), w)
      ensures Orphans(w) == Orphans(old(w)) && (CrashConsistent(old(w)) ==> CrashConsistent(w))
      ensures calls == old(calls) + 1 && (old(Still()) ==> Still() && SameChats(old(w), w))
      ensures steady ==> ok
    {
      var fault := Begin();
      ok := fault.Fine?;
      trace := trace + [w];
    }

    /** Empties the collection, keeping its id. A failed reset may have removed any files. */
    method ResetKnowledge() returns (ok: bool)
      requires Sound(w)
      modifies this
      ensures Sound(w) && Drifted(old(w), w) && trace == old(trace) + [w]
      ensures SameStores(old(w).(kb := w.kb), w)
      ensures w.kb.Keys <= old(w).kb.Keys && forall f :: f in w.kb ==> w.kb[f] == old(w).kb[f]
      ensures ok ==> w.kb == map[]
      ensures calls == old(calls) + 1 && (old(Still()) ==> Still() && SameChats(old(w), w))
      ensures steady ==> ok
    {
      var fault := Begin();
      ok := fault.Fine?;
      ghost var before := w;
      w := w.(kb := if ok then map[] else w.kb - resetLeaves(calls));
      trace := trace + [w];
      forall id | id in w.disk.chats ensures SoundEntry(w, id, w.disk.chats[id]) {
        assert SoundEntry(before, id, before.disk.chats[id]);
      }
    }

    /** Finds the collection by name, or creates it. */
    method EnsureKnowledge() returns (ok: bool, id: nat)
      requires Sound(w)
      modifies this
      ensures Sound(w) && Drifted(old(w), w) && trace == old(trace) + [w]
      ensures SameStores(old(w).(collection := w.collection), w)
      ensures Orphans(w) == Orphans(old(w)) && (CrashConsistent(old(w)) ==> CrashConsistent(w))
      ensures old(w).collection != 0 ==> w.collection == old(w).collection
      ensures ok ==> id == w.collection != 0
      ensures calls == old(calls) + 1 && (old(Still()) ==> Still() && SameChats(old(w), w))
      ensures steady ==> ok
    {
      var fault := Begin();
      ok := fault.Fine?;
      ghost var before := w;
      if w.collection == 0 && !fault.Refused? {
        w := w.(collection := 1);
      }
      id := w.collection;
      trace := trace + [w];
      forall id | id in w.disk.chats ensures SoundEntry(w, id, w.disk.chats[id]) {
        assert SoundEntry(before, id, before.disk.chats[id]);
      }
      if CrashConsistent(old(w)) {
        forall id | id in w.disk.chats && Current(w, id) ensures Backed(w, id) {
          assert Current(before, id) && Backed(before, id);
        }
      }
    }

    /** Lists one user's chats, page after page and never deduplicated: a chat may be named
        twice or at a version it had while the pages were read, and one that people's edits
        shift between two pages may be overlooked. When nobody touches a chat meanwhile, each
        is named once and as it is. */
    method ListUserChats(user: nat) returns (ok: bool, refs: seq<ChatRef>)
      requires Sound(w)
      modifies this
      ensures Sound(w) && Drifted(old(w), w) && trace == old(trace) + [w]
      ensures SameStores(old(w), w)
      ensures Orphans(w) == Orphans(old(w)) && (CrashConsistent(old(w)) ==> CrashConsistent(w))
      ensures calls == old(calls) + 1 && (old(Still()) ==> Still() && SameChats(old(w), w))
      ensures ok ==> forall r :: r in refs ==> Names(old(w), w, user, r)
      ensures ok ==>
        forall id :: id in w.live && w.live[id].owner == user && id !in overlooked(old(calls)) ==> id in Ids(refs)
      ensures ok && old(Still()) ==> ListsOnce(refs)
      ensures ok && old(Still()) ==> forall id :: id in w.live && w.live[id].owner == user ==> id in Ids(refs)
      ensures steady ==> ok
    {
      var n, still, before := calls, calls >= stillFrom, w;
      var fault := Begin();
      ok, refs := fault.Fine?, [];
      var missed: set<ChatId> := if still then {} else overlooked(n);
      var rest := w.live.Keys;
      while rest != {}
        invariant rest <= w.live.Keys
        invariant forall r :: r in refs ==> Names(before, w, user, r) && r.id !in rest
        invariant ListsOnce(refs)
        invariant forall id :: id in w.live && w.live[id].owner == user && id !in rest && id !in missed ==>
          id in Ids(refs)
        decreases rest
      {
        var id :| id in rest;
        if w.live[id].owner == user && id !in missed {
          var r := ChatRef(id, user, listedAt(n, id));
          if !Names(before, w, user, r) { r := ChatRef(id, user, w.live[id].version); }
          refs := refs + [r];
          assert r in refs;
        }
        rest := rest - {id};
      }
      if !still {
        var beside := listedBeside(n);
        for i := 0 to |beside|
          invariant forall r :: r in refs ==> Names(before, w, user, r)
          invariant forall id :: id in w.live && w.live[id].owner == user && id !in missed ==> id in Ids(refs)
        {
          if Names(before, w, user, beside[i]) { refs := refs + [beside[i]]; }
        }
      }
      trace := trace + [w];
    }

    /** Fetches one chat as it is now. A chat deleted since the listing is an error. */
    method GetChat(id: ChatId) returns (doc: Fetched)
      requires Sound(w)
      modifies this
      ensures Sound(w) && Drifted(old(w), w) && trace == old(trace) + [w]
      ensures SameStores(old(w), w)
      ensures Orphans(w) == Orphans(old(w)) && (CrashConsistent(old(w)) ==> CrashConsistent(w))
      ensures calls == old(calls) + 1 && (old(Still()) ==> Still() && SameChats(old(w), w))
      ensures doc.Fetched? ==> id in w.live && doc == Fetched(w.live[id].version, w.live[id].renderable)
      ensures steady && id in w.live ==> doc.Fetched?
    {
      var fault := Begin();
      doc := if fault.Fine? && id in w.live then Fetched(w.live[id].version, w.live[id].renderable) else NotFetched;
      trace := trace + [w];
    }

    /** Removes one file from the collection. */
    method RemoveKnowledgeFile(f: FileId) returns (ok: bool)
      requires Sound(w) && f in Claimed(w.disk.chats)
      modifies this
      ensures Sound(w) && Drifted(old(w), w) && trace == old(trace) + [w]
      ensures SameStores(old(w).(kb := w.kb), w)
      ensures w.kb == old(w).kb - {f} || (!ok && w.kb == old(w).kb)
      ensures Orphans(w) == Orphans(old(w))
      ensures CrashConsistent(old(w)) && NotCurrent(w, f) ==> CrashConsistent(w)
      ensures calls == old(calls) + 1 && (old(Still()) ==> Still() && SameChats(old(w), w))
      ensures strict && f !in old(w).kb ==> !ok
      ensures steady ==> ok == !(strict && f !in old(w).kb)
    {
      var fault := Begin();
      ok := fault.Fine? && !(strict && f !in w.kb);
      ghost var before := w;
      if ok || fault.ReplyLost? {
        w := w.(kb := w.kb - {f});
      }
      trace := trace + [w];
      RemovalKeepsSound(before, f);
      if CrashConsistent(old(w)) {
        RemovalKeepsThePromiseIff(before, f);
      }
    }

    /** Uploads a transcript and joins it to the collection, under a file id never used before. */
    method UploadToKnowledge(doc: Doc) returns (ok: bool, f: FileId)
      requires Sound(w) && w.collection != 0 && SoundDoc(w, doc)
      modifies this
      ensures Sound(w) && trace == old(trace) + [w] && f == old(w).nextFile
      ensures Drifted(old(w), w) && SameStores(old(w).(kb := w.kb, nextFile := w.nextFile), w)
      ensures (w.kb == old(w).kb[f := doc] && w.nextFile == f + 1) || (!ok && w.kb == old(w).kb && w.nextFile == f)
      ensures Orphans(old(w)) <= Orphans(w) <= Orphans(old(w)) + {f}
      ensures CrashConsistent(old(w)) ==> CrashConsistent(w)
      ensures calls == old(calls) + 1 && (old(Still()) ==> Still() && SameChats(old(w), w))
      ensures steady ==> ok
    {
      hide CrashConsistent, Evolves, Sound, Orphans;
      var fault := Begin();
      ok, f := fault.Fine?, w.nextFile;
      ghost var before := w;
      if !fault.Refused? {
        UploadKeeps(w, doc);
        w := w.(kb := w.kb[f := doc], nextFile := f + 1);
      }
      trace := trace + [w];
    }

    /** Writes the state file. The write is atomic, but an error may come after the rename. */
    method WriteState(s: State) returns (ok: bool)
      requires Sound(w) && Sound(w.(disk := s))
      modifies this
      ensures Sound(w) && Drifted(old(w), w) && trace == old(trace) + [w]
      ensures SameStores(old(w).(disk := w.disk), w)
      ensures w.disk == s || (!ok && w.disk == old(w).disk)
      ensures CrashConsistent(old(w)) && CrashConsistent(old(w).(disk := s)) ==> CrashConsistent(w)
      ensures CrashConsistent(old(w).(disk := s)) && w.disk == s ==> CrashConsistent(w)
      ensures calls == old(calls) + 1 && (old(Still()) ==> Still() && SameChats(old(w), w))
      ensures steady ==> ok
    {
      var fault := Begin();
      ok := fault.Fine?;
      ghost var before := w;
      if !fault.Refused? {
        w := w.(disk := s);
      }
      trace := trace + [w];
      assert Moved(old(w).(disk := s), before.(disk := s));
      MovedKeeps(old(w).(disk := s), before.(disk := s));
    }

    /** Wires the collection into the served model. */
    method AttachKnowledge() returns (ok: bool)
      requires Sound(w)
      modifies this
      ensures Sound(w) && Drifted(old(w), w) && trace == old(trace) + [w]
      ensures SameStores(old(w).(attaches := w.attaches), w)
      ensures Orphans(w) == Orphans(old(w)) && (CrashConsistent(old(w)) ==> CrashConsistent(w))
      ensures ok ==> w.attaches > old(w).attaches
      ensures calls == old(calls) + 1 && (old(Still()) ==> Still() && SameChats(old(w), w))
      ensures steady ==> ok
    {
      var fault := Begin();
      ok := fault.Fine?;
      ghost var before := w;
      if !fault.Refused? {
        w := w.(attaches := w.attaches + 1);
      }
      trace := trace + [w];
      forall id | id in w.disk.chats ensures SoundEntry(w, id, w.disk.chats[id]) {
        assert SoundEntry(before, id, before.disk.chats[id]);
      }
      if CrashConsistent(old(w)) {
        forall id | id in w.disk.chats && Current(w, id) ensures Backed(w, id) {
          assert Current(before, id) && Backed(before, id);
        }
      }
    }
  }
}
