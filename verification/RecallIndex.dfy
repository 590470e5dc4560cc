/** `villa recall index`: the ordered run that brings the recall collection and the
    state file into step with the live chats, persisting after every chat. */
module RecallIndex {
  import opened RecallWorld
  import opened RecallPlan
  import opened RecallHost

  datatype ChatOutcome = Failed | Uploaded | Skipped

  /** A listed reference stays meaningful while chats move on. */
  ghost predicate Listed(w: World, r: ChatRef) {
    && r.updatedAt > 0 && r.id in w.born
    && (r.id in w.live ==> w.live[r.id].version >= r.updatedAt && HumanId(w.users, w.live[r.id].owner))
  }

  /** The world an index run works in once its collection exists and is on record. */
  ghost predicate OnRecord(w: World, state: State) {
    Sound(w) && w.disk == state && w.collection != 0 && state.knowledgeId != 0
  }

  function Put(s: State, id: ChatId, e: ChatState): State {
    s.(chats := s.chats[id := e])
  }

  function Drop(s: State, id: ChatId): State {
    s.(chats := s.chats - {id})
  }

  lemma DriftedTwice(a: World, b: World, c: World)
    requires a.live.Keys <= a.born && Drifted(a, b) && Drifted(b, c)
    ensures Drifted(a, c)
  {
  }

  /** Nothing but the chats, the state file and what the collection holds has moved. */
  ghost predicate SameCollection(a: World, b: World) {
    a.collection == b.collection && a.attaches == b.attaches
  }

  /** An entry may name this file: it holds the chat at a version the chat had. */
  ghost predicate Truthful(w: World, id: ChatId, f: FileId) {
    f == NO_FILE
    || (f in w.kb && w.kb[f].chat == id && (id in w.live ==> w.kb[f].version <= w.live[id].version))
  }

  /** The orphans once an entry naming `f` stands for chat `id`. */
  ghost function AfterPut(w: World, id: ChatId, f: FileId): set<FileId> {
    Orphans(w) - {f} + (if Holds(w, id) && w.disk.chats[id].file != f then {w.disk.chats[id].file} else {})
  }

  method PersistEntry(h: Host, state: State, id: ChatId, e: ChatState, ghost quiet: bool)
    returns (state': State, ok: bool)
    requires quiet ==> h.Still()
    requires OnRecord(h.w, state) && id in h.w.born && SoundEntry(h.w, id, e)
    requires forall j :: j in state.chats && j != id && e.file != NO_FILE ==> state.chats[j].file != e.file
    modifies h
    ensures state' == Put(state, id, e)
    ensures Sound(h.w) && Drifted(old(h.w), h.w) && SameStores(old(h.w).(disk := h.w.disk), h.w)
    ensures h.trace == old(h.trace) + [h.w]
    ensures h.w.disk == state' || (!ok && h.w.disk == state)
    ensures h.w.disk == state' ==> Orphans(h.w) == AfterPut(old(h.w), id, e.file)
    ensures h.w.disk == state ==> Orphans(h.w) == Orphans(old(h.w))
    ensures CrashConsistent(old(h.w)) && Truthful(old(h.w), id, e.file) ==> CrashConsistent(h.w)
    ensures quiet ==> h.Still() && SameChats(old(h.w), h.w)
    ensures h.steady ==> ok
  {
    state' := Put(state, id, e);
    PutEntryKeeps(h.w, id, e);
    ok := h.WriteState(state');
  }

  method PersistDrop(h: Host, state: State, id: ChatId, ghost quiet: bool) returns (state': State, ok: bool)
    requires quiet ==> h.Still()
    requires OnRecord(h.w, state)
    modifies h
    ensures state' == Drop(state, id)
    ensures Sound(h.w) && Drifted(old(h.w), h.w) && SameStores(old(h.w).(disk := h.w.disk), h.w)
    ensures h.trace == old(h.trace) + [h.w]
    ensures h.w.disk == state' || (!ok && h.w.disk == state)
    ensures !Holds(old(h.w), id) ==> Orphans(h.w) == Orphans(old(h.w))
    ensures ok ==> Orphans(old(h.w)) <= Orphans(h.w)
    ensures CrashConsistent(old(h.w)) ==> CrashConsistent(h.w)
    ensures quiet ==> h.Still() && SameChats(old(h.w), h.w)
    ensures h.steady ==> ok
  {
    state' := Drop(state, id);
    DropEntryKeeps(h.w, id);
    ok := h.WriteState(state');
  }

  /** The entry for one chat is out of date, so its file may go. */
  predicate Stale(state: State, r: ChatRef, oldFile: FileId) {
    oldFile == NO_FILE || (r.id in state.chats && state.chats[r.id].updatedAt < r.updatedAt)
  }

  /** Puts on record that no transcript stands for the chat any more. */
  method ClearEntry(h: Host, state: State, id: ChatId, ghost quiet: bool) returns (state': State, ok: bool)
    requires quiet ==> h.Still()
    requires OnRecord(h.w, state) && id in state.chats && state.chats[id].file !in h.w.kb
    modifies h
    ensures state' == Put(state, id, state.chats[id].(file := NO_FILE, updatedAt := 0))
    ensures Sound(h.w) && Drifted(old(h.w), h.w) && SameStores(old(h.w).(disk := h.w.disk), h.w)
    ensures h.trace == old(h.trace) + [h.w]
    ensures h.w.disk == state' || (!ok && h.w.disk == state)
    ensures Orphans(h.w) == Orphans(old(h.w))
    ensures CrashConsistent(old(h.w)) ==> CrashConsistent(h.w)
    ensures quiet ==> h.Still() && SameChats(old(h.w), h.w)
    ensures h.steady ==> ok
  {
    hide Sound, CrashConsistent, Evolves, Drifted, Claimed, Orphans, SoundEntry, AfterPut, Holds, Truthful;
    MayClear(h.w, id);
    NothingOrphanedByClearing(h.w, id);
    state', ok := PersistEntry(h, state, id, state.chats[id].(file := NO_FILE, updatedAt := 0), quiet);
  }

  /** What the clean-replace half of an update has done, finished or not: the old file may be
      gone, and once it is and the entry is cleared, the state says so. */
  ghost predicate OldGone(a: World, b: World, state: State, state': State, id: ChatId, f: FileId, ok: bool,
                          quiet: bool) {
    && Sound(b) && Drifted(a, b) && SameCollection(a, b) && b.nextFile == a.nextFile && Orphans(b) == Orphans(a)
    && (quiet ==> SameChats(a, b)) && b.kb.Keys <= a.kb.Keys
    && (forall j :: j in state.chats && j != id ==> j in b.disk.chats && b.disk.chats[j] == state.chats[j])
    && (ok ==> b.kb == a.kb - {f} && b.disk == state' && IsPut(state, state', id)
               && state'.chats[id].file == NO_FILE && state'.chats[id].updatedAt == 0)
  }

  lemma OldTaken(a: World, b: World, state: State, ref: ChatRef, f: FileId, ok: bool, quiet: bool)
    requires Sound(b) && Removed(a, b, state, f, ok, quiet) && a.disk == state
    ensures OldGone(a, b, state, state, ref.id, f, false, quiet)
  {
  }

  lemma OldCleared(a: World, m: World, b: World, state: State, state': State, id: ChatId, f: FileId, ok: bool,
                   quiet: bool)
    requires Sound(a) && Removed(a, m, state, f, true, quiet) && a.disk == state && id in state.chats && f !in m.kb
    requires state' == Put(state, id, state.chats[id].(file := NO_FILE, updatedAt := 0))
    requires Sound(b) && Drifted(m, b) && SameStores(m.(disk := b.disk), b)
    requires (b.disk == state' || (!ok && b.disk == state))
    requires Orphans(b) == Orphans(m) && (quiet ==> SameChats(m, b))
    ensures OldGone(a, b, state, state', id, f, ok, quiet)
  {
    hide Orphans, Drifted;
    SoundLive(a);
    DriftedTwice(a, m, b);
  }

  /** The clean-replace half of an update: the old transcript goes, and the entry is
      cleared on disk at once so the chat comes back as work whatever fails next. */
  method RemoveOld(h: Host, state: State, ref: ChatRef, oldFile: FileId, ghost quiet: bool)
    returns (state': State, ok: bool, ghost mid: World)
    requires quiet ==> h.Still()
    requires OnRecord(h.w, state) && Listed(h.w, ref) && oldFile != NO_FILE
    requires ref.id in state.chats && state.chats[ref.id].file == oldFile
    modifies h
    ensures OldGone(old(h.w), h.w, state, state', ref.id, oldFile, ok, quiet) && (quiet ==> h.Still())
    ensures h.trace == old(h.trace) + [h.w] || h.trace == old(h.trace) + [mid, h.w]
    ensures h.trace[|old(h.trace)|] == mid && mid.disk == state
    ensures h.w.disk.completedAt == state.completedAt == state'.completedAt
    ensures CrashConsistent(old(h.w)) && MayGo(old(h.w), ref.id, oldFile) ==>
      CrashConsistent(mid) && CrashConsistent(h.w)
    ensures ok && h.strict ==> oldFile in old(h.w.kb)
    ensures h.strict && oldFile !in old(h.w.kb) ==> h.w.disk == state
    ensures h.steady && (h.strict ==> oldFile in old(h.w.kb)) ==> ok
    ensures ok ==> Uncovered(old(h.w), state, mid, oldFile, quiet)
  {
    ghost var w0 := h.w;
    state' := state;
    ok := TakeOld(h, state, ref, oldFile, quiet);
    mid := h.w;
    hide Sound, CrashConsistent, Evolves, Drifted, Claimed, Orphans, SoundEntry, Listed, MayGo, Removed, Uncovered,
         OldGone;
    RemovedMeans(w0, mid, state, ref, oldFile, ok, quiet);
    OldTaken(w0, mid, state, ref, oldFile, ok, quiet);
    if ok {
      state', ok := ClearEntry(h, state, ref.id, quiet);
      OldCleared(w0, mid, h.w, state, state', ref.id, oldFile, ok, quiet);
    }
  }

  /** What removing the old transcript has done, whether or not its reply came. */
  ghost predicate Removed(a: World, b: World, state: State, oldFile: FileId, ok: bool, quiet: bool) {
    && Drifted(a, b) && SameStores(a.(kb := b.kb), b) && Orphans(b) == Orphans(a)
    && (b.kb == a.kb - {oldFile} || (!ok && b.kb == a.kb)) && (quiet ==> SameChats(a, b))
  }

  lemma RemovedMeans(a: World, b: World, state: State, ref: ChatRef, oldFile: FileId, ok: bool, quiet: bool)
    requires Removed(a, b, state, oldFile, ok, quiet) && a.disk == state
    ensures ok ==> Uncovered(a, state, b, oldFile, quiet)
    ensures Drifted(a, b) && SameStores(a.(kb := b.kb), b) && Orphans(b) == Orphans(a)
    ensures (b.kb == a.kb - {oldFile} || (!ok && b.kb == a.kb)) && (quiet ==> SameChats(a, b))
  {
  }

  /** The first call of a clean replace: the old transcript goes. */
  method TakeOld(h: Host, state: State, ref: ChatRef, oldFile: FileId, ghost quiet: bool) returns (ok: bool)
    requires quiet ==> h.Still()
    requires OnRecord(h.w, state) && Listed(h.w, ref) && oldFile != NO_FILE
    requires ref.id in state.chats && state.chats[ref.id].file == oldFile
    modifies h
    ensures Sound(h.w) && h.trace == old(h.trace) + [h.w] && Removed(old(h.w), h.w, state, oldFile, ok, quiet)
    ensures quiet ==> h.Still()
    ensures CrashConsistent(old(h.w)) && MayGo(old(h.w), ref.id, oldFile) ==> CrashConsistent(h.w)
    ensures h.strict && oldFile !in old(h.w.kb) ==> !ok
    ensures h.steady && (h.strict ==> oldFile in old(h.w.kb)) ==> ok
  {
    ghost var w0 := h.w;
    assert oldFile in Claimed(h.w.disk.chats);
    hide Sound, CrashConsistent, Evolves, Drifted, Claimed, Orphans, SoundEntry, Listed, NotCurrent, Current;
    ok := h.RemoveKnowledgeFile(oldFile);
    if !Current(w0, ref.id) {
      StaleStaysStale(w0, h.w, ref.id, oldFile);
    }
  }

  lemma MayClear(w: World, id: ChatId)
    requires Sound(w) && id in w.disk.chats
    ensures SoundEntry(w, id, w.disk.chats[id].(file := NO_FILE, updatedAt := 0)) && id in w.born
    ensures NO_FILE !in w.kb && NO_FILE !in Orphans(w)
  {
    assert SoundEntry(w, id, w.disk.chats[id]);
  }

  lemma NothingOrphanedByClearing(w: World, id: ChatId)
    requires Sound(w) && id in w.disk.chats && w.disk.chats[id].file !in w.kb
    ensures AfterPut(w, id, NO_FILE) == Orphans(w) && Truthful(w, id, NO_FILE)
  {
    assert NO_FILE !in w.kb;
  }

  /** There is no file to remove, or its entry does not claim to be current. */
  ghost predicate MayGo(w: World, id: ChatId, oldFile: FileId) {
    oldFile == NO_FILE || !(id in w.disk.chats && Current(w, id))
  }

  lemma StaleMayGo(w: World, ref: ChatRef, oldFile: FileId)
    requires Listed(w, ref)
    ensures Stale(w.disk, ref, oldFile) ==> MayGo(w, ref.id, oldFile)
  {
  }

  /** On a server that minds missing files, an entry whose file is missing is never rewritten. */
  lemma RemovalStaysLost(a: World, b: World, id: ChatId)
    requires Sound(a) && Drifted(a, b) && b.kb.Keys <= a.kb.Keys && id in a.disk.chats
    requires forall j :: j in a.disk.chats && j != id ==> j in b.disk.chats && b.disk.chats[j] == a.disk.chats[j]
    requires a.disk.chats[id].file !in a.kb ==> b.disk == a.disk
    ensures StaysLost(a, b)
  {
    forall j | Lost(a, j) ensures Lost(b, j) {
      assert SoundEntry(a, j, a.disk.chats[j]) && j in a.born;
    }
  }

  lemma LostSelf(w: World)
    ensures StaysLost(w, w)
  {
  }

  lemma LostTwice(a: World, b: World, c: World)
    requires StaysLost(a, b) && StaysLost(b, c)
    ensures StaysLost(a, c)
  {
  }

  lemma ListedSurvives(a: World, b: World, r: ChatRef)
    requires Drifted(a, b) && Listed(a, r)
    ensures Listed(b, r)
  {
  }

  /** The file just uploaded may stand for its chat. */
  lemma UploadMayBeRecorded(w: World, r: ChatRef, f: FileId, d: Doc, e: ChatState)
    requires Sound(w) && Listed(w, r) && f in w.kb && w.kb[f] == d && d.chat == r.id
    requires r.updatedAt <= d.version && (r.id in w.live ==> d.version <= w.live[r.id].version)
    requires e.file == f && e.updatedAt == r.updatedAt
    ensures SoundEntry(w, r.id, e) && Truthful(w, r.id, f) && r.id in w.born
  {
  }

  lemma FreshIsUnclaimed(w: World)
    requires Sound(w)
    ensures forall j :: j in w.disk.chats ==> w.disk.chats[j].file < w.nextFile
    ensures w.nextFile !in w.kb && w.nextFile !in Orphans(w) && NO_FILE !in w.kb
  {
    forall j | j in w.disk.chats ensures w.disk.chats[j].file < w.nextFile {
      assert SoundEntry(w, j, w.disk.chats[j]);
    }
  }

  lemma StillThere(a: World, b: World, id: ChatId)
    requires Drifted(a, b) && id in a.live && id in a.born
    ensures id in b.live ==> a.live[id].version <= b.live[id].version
  {
  }

  lemma ExceptTheEmptyOne(a: World, b: World, id: ChatId)
    requires Sound(a) && Drifted(a, b)
    requires forall j :: j in a.disk.chats && j != id ==> j in b.disk.chats && b.disk.chats[j] == a.disk.chats[j]
    requires forall f :: f in b.kb ==> f in a.kb || f >= a.nextFile
    ensures FileOf(a.disk, id) == NO_FILE || FileOf(a.disk, id) in a.kb ==> StaysLost(a, b)
  {
    LeftAloneStaysLost(a, b, id);
  }

  /** The rest of indexing one chat: fetch, render, upload, record. */
  method FetchAndRecord(h: Host, state: State, ref: ChatRef, now: nat, ghost quiet: bool)
    returns (state': State, outcome: ChatOutcome)
    requires quiet ==> h.Still()
    requires OnRecord(h.w, state) && Listed(h.w, ref)
    modifies h
    ensures Sound(h.w) && Drifted(old(h.w), h.w) && SameCollection(old(h.w), h.w) && h.w.nextFile >= old(h.w.nextFile)
    ensures |h.trace| > |old(h.trace)| && old(h.trace) == h.trace[..|old(h.trace)|]
    ensures h.StampSince(|old(h.trace)|, state.completedAt)
    ensures !outcome.Failed? ==> OnRecord(h.w, state')
    ensures outcome.Uploaded? ==> IsPut(state, state', ref.id) && NewEntry(old(h.w), h.w, ref, state'.chats[ref.id])
    ensures outcome.Skipped? ==> state' == Drop(state, ref.id) && h.w.kb == old(h.w.kb)
    ensures quiet && !outcome.Failed? ==> ref.id in h.w.live && (outcome.Uploaded? <==> h.w.live[ref.id].renderable)
    ensures quiet ==> h.Still() && SameChats(old(h.w), h.w)
    ensures CrashConsistent(old(h.w)) ==> CrashConsistent(h.w) && h.KeptThePromiseSince(|old(h.trace)|)
    ensures !Holds(old(h.w), ref.id) ==> OrphansGrowByOne(old(h.w), h.w, outcome)
    ensures FileOf(state, ref.id) == NO_FILE || FileOf(state, ref.id) in old(h.w.kb) ==> StaysLost(old(h.w), h.w)
    ensures !outcome.Failed? ==> Orphans(old(h.w)) <= Orphans(h.w)
    ensures outcome.Uploaded? && Holds(old(h.w), ref.id) ==> FileOf(state, ref.id) in Orphans(h.w)
    ensures h.steady && quiet && ref.id in old(h.w.live) ==> !outcome.Failed?
  {
    hide Sound, CrashConsistent, Evolves, Drifted, Claimed, Orphans, Listed, SoundEntry, Truthful, Lost, StaysLost,
         HumanId;
    ghost var w0 := h.w;
    assert w0.live.Keys <= w0.born by { SoundLive(w0); }
    var ok: bool;
    state' := state;
    var doc := h.GetChat(ref.id);
    ghost var w1 := h.w;
    ExceptTheEmptyOne(w0, w1, ref.id);
    if doc.NotFetched? {
      return state', Failed;
    }
    ListedSurvives(w0, w1, ref);
    if !doc.renderable {
      state', ok := PersistDrop(h, state, ref.id, quiet);
      DriftedTwice(w0, w1, h.w);
      ExceptTheEmptyOne(w0, h.w, ref.id);
      return state', if ok then Skipped else Failed;
    }
    state', outcome := UploadAndRecord(h, state, ref, doc.version, now, quiet);
    DriftedTwice(w0, w1, h.w);
    ExceptTheEmptyOne(w0, h.w, ref.id);
  }

  /** The rest of the rest: upload the transcript as it is now, record it. */
  method UploadAndRecord(h: Host, state: State, ref: ChatRef, version: int, now: nat, ghost quiet: bool)
    returns (state': State, outcome: ChatOutcome)
    requires quiet ==> h.Still()
    requires OnRecord(h.w, state) && Listed(h.w, ref)
    requires ref.id in h.w.live && h.w.live[ref.id].version == version && h.w.live[ref.id].renderable
    modifies h
    ensures Sound(h.w) && Drifted(old(h.w), h.w) && SameCollection(old(h.w), h.w) && h.w.nextFile >= old(h.w.nextFile)
    ensures |h.trace| > |old(h.trace)| && old(h.trace) == h.trace[..|old(h.trace)|]
    ensures h.StampSince(|old(h.trace)|, state.completedAt)
    ensures outcome.Uploaded? ==> OnRecord(h.w, state')
    ensures outcome.Uploaded? ==> IsPut(state, state', ref.id) && NewEntry(old(h.w), h.w, ref, state'.chats[ref.id])
    ensures !outcome.Skipped? && (quiet ==> h.Still() && SameChats(old(h.w), h.w))
    ensures CrashConsistent(old(h.w)) ==> CrashConsistent(h.w) && h.KeptThePromiseSince(|old(h.trace)|)
    ensures !Holds(old(h.w), ref.id) ==> OrphansGrowByOne(old(h.w), h.w, outcome)
    ensures outcome.Uploaded? ==> Orphans(old(h.w)) <= Orphans(h.w)
    ensures outcome.Uploaded? && Holds(old(h.w), ref.id) ==> FileOf(state, ref.id) in Orphans(h.w)
    ensures forall j :: j in state.chats && j != ref.id ==> j in h.w.disk.chats && h.w.disk.chats[j] == state.chats[j]
    ensures forall f :: f in h.w.kb ==> f in old(h.w.kb) || f >= old(h.w.nextFile)
    ensures h.steady ==> outcome.Uploaded?
  {
    hide Sound, CrashConsistent, Evolves, Drifted, Claimed, Orphans, Listed, SoundEntry, Truthful, HumanId;
    ghost var w1 := h.w;
    state' := state;
    FreshIsUnclaimed(w1);
    assert SoundDoc(w1, Doc(ref.id, version)) by { ListedWasBorn(w1, ref); }
    var ok, f := h.UploadToKnowledge(Doc(ref.id, version));
    ghost var w2 := h.w;
    if !ok {
      return state', Failed;
    }
    ListedSurvives(w1, w2, ref);
    AtLeastListed(w1, ref);
    SoundLive(w1);
    StillThere(w1, w2, ref.id);
    var e := ChatState(ref.user, ref.updatedAt, f, now);
    UploadMayBeRecorded(w2, ref, f, Doc(ref.id, version), e);
    state', ok := PersistEntry(h, state, ref.id, e, quiet);
    DriftedTwice(w1, w2, h.w);
    outcome := if ok then Uploaded else Failed;
  }

  lemma SoundLive(w: World)
    requires Sound(w)
    ensures w.live.Keys <= w.born
  {
  }

  lemma ListedWasBorn(w: World, r: ChatRef)
    requires Listed(w, r)
    ensures r.id in w.born
  {
  }

  lemma AtLeastListed(w: World, r: ChatRef)
    requires Listed(w, r) && r.id in w.live
    ensures w.live[r.id].version >= r.updatedAt
  {
  }

  /** At most the file this call uploaded is orphaned, and only when the call failed. */
  ghost predicate OrphansGrowByOne(a: World, b: World, outcome: ChatOutcome) {
    && Orphans(a) <= Orphans(b) <= Orphans(a) + {a.nextFile}
    && (!outcome.Failed? ==> Orphans(b) == Orphans(a))
  }

  predicate IsPut(s: State, s': State, id: ChatId) {
    id in s'.chats && s' == Put(s, id, s'.chats[id])
  }

  /** At this moment the file is gone and its entry is not cleared yet. */
  ghost predicate Uncovered(w0: World, state: State, w: World, f: FileId, quiet: bool) {
    w.disk == state && f !in w.kb && (quiet ==> SameChats(w0, w))
  }

  /** Indexes one chat: replace, fetch, render, upload, record. Each step is on disk
      before the next begins. */
  method IndexChat(h: Host, state: State, ref: ChatRef, oldFile: FileId, now: nat, ghost quiet: bool)
    returns (state': State, outcome: ChatOutcome)
    requires quiet ==> h.Still()
    requires OnRecord(h.w, state) && Listed(h.w, ref)
    requires oldFile != NO_FILE ==> ref.id in state.chats && state.chats[ref.id].file == oldFile
    modifies h
    ensures Sound(h.w) && Drifted(old(h.w), h.w) && SameCollection(old(h.w), h.w) && h.w.nextFile >= old(h.w.nextFile)
    ensures |h.trace| > |old(h.trace)| && old(h.trace) == h.trace[..|old(h.trace)|]
    ensures h.StampSince(|old(h.trace)|, state.completedAt)
    ensures !outcome.Failed? ==> OnRecord(h.w, state')
    ensures outcome.Uploaded? ==> IsPut(state, state', ref.id)
    ensures outcome.Uploaded? ==> NewEntry(old(h.w).(kb := old(h.w).kb - {oldFile}), h.w, ref, state'.chats[ref.id])
    ensures outcome.Skipped? ==> state' == Drop(state, ref.id) && h.w.kb == old(h.w.kb) - {oldFile}
    ensures quiet && !outcome.Failed? ==> ref.id in h.w.live && (outcome.Uploaded? <==> h.w.live[ref.id].renderable)
    ensures quiet ==> h.Still() && SameChats(old(h.w), h.w)
    ensures CrashConsistent(old(h.w)) && MayGo(old(h.w), ref.id, oldFile) ==>
      CrashConsistent(h.w) && h.KeptThePromiseSince(|old(h.trace)|)
    ensures !Holds(old(h.w), ref.id) || oldFile != NO_FILE ==> OrphansGrowByOne(old(h.w), h.w, outcome)
    ensures !outcome.Failed? && h.strict && oldFile != NO_FILE ==> oldFile in old(h.w.kb)
    ensures h.strict && (oldFile == FileOf(state, ref.id) || FileOf(state, ref.id) in old(h.w.kb)) ==>
      StaysLost(old(h.w), h.w)
    ensures oldFile != NO_FILE && !outcome.Failed? ==>
      Uncovered(old(h.w), state, h.trace[|old(h.trace)|], oldFile, quiet)
    ensures !outcome.Failed? && oldFile == NO_FILE ==> Orphans(old(h.w)) <= Orphans(h.w)
    ensures outcome.Uploaded? && oldFile == NO_FILE && Holds(old(h.w), ref.id) ==> FileOf(state, ref.id) in Orphans(h.w)
    ensures h.steady && quiet && ref.id in old(h.w.live) ==>
      (h.strict && oldFile != NO_FILE ==> oldFile in old(h.w.kb)) ==>
      !outcome.Failed?
  {
    hide Sound, CrashConsistent, Evolves, Drifted, Claimed, Orphans, Listed, Lost, StaysLost;
    ghost var w0 := h.w;
    SoundLive(w0);
    FreshIsUnclaimed(w0);
    if oldFile == NO_FILE {
      assert w0.kb - {oldFile} == w0.kb;
      state', outcome := FetchAndRecord(h, state, ref, now, quiet);
    } else {
      var ok;
      ghost var mid;
      state', ok, mid := RemoveOld(h, state, ref, oldFile, quiet);
      ghost var w1, s1 := h.w, state';
      if h.strict {
        RemovalStaysLost(w0, w1, ref.id);
      }
      if !ok {
        return state', Failed;
      }
      ListedSurvives(w0, w1, ref);
      FreshIsUnclaimed(w1);
      state', outcome := FetchAndRecord(h, state', ref, now, quiet);
      DriftedTwice(w0, w1, h.w);
      if h.strict {
        LostTwice(w0, w1, h.w);
      }
      if outcome.Uploaded? {
        assert state' == Put(state, ref.id, state'.chats[ref.id]);
      } else if outcome.Skipped? {
        assert Drop(s1, ref.id) == Drop(state, ref.id);
      }
    }
  }

  /** The entry an upload leaves: it names a fresh file that holds the chat at the
      listed version or a later one. */
  ghost predicate NewEntry(a: World, b: World, ref: ChatRef, e: ChatState) {
    && e.updatedAt == ref.updatedAt && e.user == ref.user && a.nextFile == e.file < b.nextFile
    && e.file in b.kb && b.kb == a.kb[e.file := b.kb[e.file]]
    && b.kb[e.file].chat == ref.id && b.kb[e.file].version >= ref.updatedAt
  }

  // ------------------------------------------------------------------
  // The loops
  // ------------------------------------------------------------------

  ghost predicate SameBacking(a: map<FileId, Doc>, b: map<FileId, Doc>, f: FileId) {
    (f in a <==> f in b) && (f in a ==> a[f] == b[f])
  }

  /** Chats outside `touched` keep their entries and the files behind them. */
  ghost predicate Spares(a: map<FileId, Doc>, s: State, b: map<FileId, Doc>, s': State, touched: set<ChatId>) {
    forall id :: id !in touched ==>
      && (id in s.chats <==> id in s'.chats)
      && (id in s.chats ==> s'.chats[id] == s.chats[id] && SameBacking(a, b, s.chats[id].file))
  }

  lemma SparesTwice(a: map<FileId, Doc>, s: State, b: map<FileId, Doc>, s': State,
                    c: map<FileId, Doc>, s'': State, t: set<ChatId>, u: set<ChatId>)
    requires Spares(a, s, b, s', t) && Spares(b, s', c, s'', u)
    ensures Spares(a, s, c, s'', t + u)
  {
  }

  /** A run that stopped here or went on leaves the orphans it found, and at most one more. */
  ghost predicate OrphansGrow(a: World, b: World, ok: bool) {
    && Orphans(a) <= Orphans(b)
    && (ok ==> Orphans(b) == Orphans(a))
    && exists f: FileId :: Orphans(b) <= Orphans(a) + {f}
  }

  /** The reference has been reconciled: its chat is on record at the listed version,
      backed by a file, or it was skipped and has no entry. */
  ghost predicate Reconciled(kb: map<FileId, Doc>, s: State, r: ChatRef) {
    r.id in s.chats ==>
      var e := s.chats[r.id];
      e.updatedAt == r.updatedAt && e.file in kb && kb[e.file].chat == r.id && kb[e.file].version >= r.updatedAt
  }

  function FileOf(s: State, id: ChatId): FileId {
    if id in s.chats then s.chats[id].file else NO_FILE
  }

  lemma RemovalSpares(w: World, s: State, s': State, id: ChatId)
    requires Sound(w) && w.disk == s && s' == Drop(s, id)
    ensures Spares(w.kb, s, w.kb - {FileOf(s, id)}, s', {id})
  {
    forall j | j in s.chats && j != id ensures SameBacking(w.kb, w.kb - {FileOf(s, id)}, s.chats[j].file) {
      assert NO_FILE !in w.kb;
    }
  }

  lemma IndexingSpares(a: World, s: State, b: World, s': State, ref: ChatRef, oldFile: FileId)
    requires Sound(a) && a.disk == s
    requires oldFile == NO_FILE || oldFile == FileOf(s, ref.id)
    requires IsPut(s, s', ref.id) && NewEntry(a.(kb := a.kb - {oldFile}), b, ref, s'.chats[ref.id])
    ensures Spares(a.kb, s, b.kb, s', {ref.id}) && Reconciled(b.kb, s', ref)
  {
    forall j | j in s.chats && j != ref.id ensures SameBacking(a.kb, b.kb, s.chats[j].file) {
      assert SoundEntry(a, j, s.chats[j]);
      assert NO_FILE !in a.kb;
    }
  }

  /** What deleting one entry leaves behind, in full or cut short. */
  ghost predicate Deleted(a: World, b: World, state: State, state': State, id: ChatId, strict: bool, ok: bool) {
    && Sound(b) && Drifted(a, b) && SameCollection(a, b) && Orphans(b) == Orphans(a)
    && (ok ==> OnRecord(b, state') && state' == Drop(state, id) && Spares(a.kb, state, b.kb, state', {id}))
    && (ok && strict && FileOf(state, id) != NO_FILE ==> FileOf(state, id) in a.kb)
    && (strict ==> StaysLost(a, b))
  }

  /** The file went, or there was none or it is still there; then its entry did, or not. */
  lemma TakenThenDropped(w0: World, w1: World, w2: World, state: State, state': State, id: ChatId, strict: bool,
                         ok: bool)
    requires OnRecord(w0, state) && id in state.chats && Sound(w1) && Sound(w2)
    requires ok ==> state' == Drop(state, id)
    requires Drifted(w0, w1) && SameStores(w0.(kb := w1.kb), w1)
    requires w1.kb == w0.kb - {FileOf(state, id)} || (!ok && w1.kb == w0.kb && w2 == w1)
    requires w2 == w1 || (Drifted(w1, w2) && SameStores(w1.(disk := w2.disk), w2))
    requires w2.disk == Drop(state, id) || (!ok && w2.disk == state)
    requires Orphans(w1) == Orphans(w0) && Orphans(w2) == Orphans(w1)
    requires strict && FileOf(state, id) != NO_FILE && FileOf(state, id) !in w0.kb ==> !ok && w2 == w1
    ensures Deleted(w0, w2, state, state', id, strict, ok)
  {
    SoundLive(w0);
    NotHeldWithoutFile(w0, id);
    RemovalSpares(w0, state, Drop(state, id), id);
    hide Sound, Orphans, Spares, Lost, StaysLost;
    if w2 != w1 {
      DriftedTwice(w0, w1, w2);
    }
    if strict {
      if FileOf(state, id) == NO_FILE { ExceptTheEmptyOne(w0, w2, id); } else { RemovalStaysLost(w0, w2, id); }
    }
  }

  /** The worlds recorded on the way all carry this stamp and, if it is to be kept, keep the
      promise. */
  ghost predicate Onward(t0: seq<World>, t: seq<World>, stamp: nat, kept: bool) {
    && |t| >= |t0| && t0 == t[..|t0|]
    && (forall i :: |t0| <= i < |t| ==> t[i].disk.completedAt == stamp && (kept ==> CrashConsistent(t[i])))
  }

  lemma OneMore(t0: seq<World>, t: seq<World>, w: World, stamp: nat, kept: bool)
    requires Onward(t0, t, stamp, kept) && w.disk.completedAt == stamp && (kept ==> CrashConsistent(w))
    ensures Onward(t0, t + [w], stamp, kept)
  {
  }

  method DeleteOne(h: Host, state: State, id: ChatId, ghost quiet: bool) returns (state': State, ok: bool)
    requires quiet ==> h.Still()
    requires OnRecord(h.w, state) && id in state.chats
    modifies h
    ensures Deleted(old(h.w), h.w, state, state', id, h.strict, ok)
    ensures Onward(old(h.trace), h.trace, state.completedAt, CrashConsistent(old(h.w)) && !Current(old(h.w), id))
    ensures CrashConsistent(old(h.w)) && !Current(old(h.w), id) ==> CrashConsistent(h.w)
    ensures ok && quiet && Current(old(h.w), id) ==> BrokenSince(h.trace, |old(h.trace)|)
    ensures |h.trace| > |old(h.trace)|
    ensures quiet ==> h.Still() && SameChats(old(h.w), h.w)
    ensures h.steady && (h.strict && FileOf(state, id) != NO_FILE ==> FileOf(state, id) in old(h.w.kb)) ==> ok
  {
    ghost var w0, t0 := h.w, h.trace;
    ghost var kept := CrashConsistent(w0) && !Current(w0, id);
    state', ok := state, true;
    NotHeldWithoutFile(w0, id);
    assert Onward(t0, t0, state.completedAt, kept);
    CurrentHasFile(w0, id);
    hide Sound, CrashConsistent, Evolves, Drifted, Orphans, Spares, Deleted, StaysLost, Current, Holds, Onward,
         BrokenSince;
    if state.chats[id].file != NO_FILE {
      ok := TakeFile(h, state, id, quiet);
      OneMore(t0, t0, h.w, state.completedAt, kept);
      if !ok {
        TakenThenDropped(w0, h.w, h.w, state, state', id, h.strict, ok);
        return;
      }
      NotHeldAfterRemoval(h.w, id);
    }
    ghost var w1, t1 := h.w, h.trace;
    DriftedSelf(w0);
    state', ok := PersistDrop(h, state, id, quiet);
    if quiet && Current(w0, id) { TakenIsBroken(w0, w1, id, h.trace, |t0|); }
    OneMore(t0, t1, h.w, state.completedAt, kept);
    TakenThenDropped(w0, w1, h.w, state, state', id, h.strict, ok);
  }

  lemma CurrentHasFile(w: World, id: ChatId)
    requires id in w.disk.chats
    ensures Current(w, id) ==> w.disk.chats[id].file != NO_FILE
  {
  }

  /** An entry is current, and for a moment its file is gone. */
  lemma TakenIsBroken(a: World, b: World, id: ChatId, trace: seq<World>, from: nat)
    requires SameChats(a, b) && b.disk == a.disk && id in a.disk.chats && Current(a, id)
    requires a.disk.chats[id].file !in b.kb && from < |trace| && trace[from] == b
    ensures BrokenSince(trace, from)
  {
    assert Current(b, id) && !Backed(b, id);
  }

  /** The transcript of a chat no longer listed goes. */
  method TakeFile(h: Host, state: State, id: ChatId, ghost quiet: bool) returns (ok: bool)
    requires quiet ==> h.Still()
    requires OnRecord(h.w, state) && id in state.chats && state.chats[id].file != NO_FILE
    modifies h
    ensures Sound(h.w) && Drifted(old(h.w), h.w) && SameStores(old(h.w).(kb := h.w.kb), h.w)
    ensures h.trace == old(h.trace) + [h.w]
    ensures h.w.kb == old(h.w.kb) - {state.chats[id].file} || (!ok && h.w.kb == old(h.w.kb))
    ensures Orphans(h.w) == Orphans(old(h.w))
    ensures CrashConsistent(old(h.w)) && !Current(old(h.w), id) ==> CrashConsistent(h.w)
    ensures quiet ==> h.Still() && SameChats(old(h.w), h.w)
    ensures h.strict && state.chats[id].file !in old(h.w.kb) ==> !ok
    ensures h.steady && (h.strict ==> state.chats[id].file in old(h.w.kb)) ==> ok
  {
    ghost var w0 := h.w;
    var file := state.chats[id].file;
    assert file in Claimed(w0.disk.chats);
    hide Sound, CrashConsistent, Evolves, Drifted, Claimed, Orphans;
    ok := h.RemoveKnowledgeFile(file);
    if !Current(w0, id) { StaleStaysStale(w0, h.w, id, file); }
  }

  lemma NotHeldWithoutFile(w: World, id: ChatId)
    requires Sound(w)
    ensures FileOf(w.disk, id) == NO_FILE ==> !Holds(w, id)
    ensures NO_FILE !in w.kb
  {
    FreshIsUnclaimed(w);
  }

  lemma NotHeldAfterRemoval(w: World, id: ChatId)
    requires id in w.disk.chats && w.disk.chats[id].file !in w.kb
    ensures !Holds(w, id)
  {
  }

  /** An entry that is not current does not become so while its chat moves on. */
  lemma StaleStaysStale(a: World, b: World, id: ChatId, f: FileId)
    requires Sound(a) && Sound(b) && Drifted(a, b) && a.disk == b.disk && id in a.disk.chats && !Current(a, id)
    requires a.disk.chats[id].file == f != NO_FILE
    ensures NotCurrent(b, f)
  {
    assert SoundEntry(a, id, a.disk.chats[id]) && id in a.born;
  }

  ghost predicate AllPresent(w: World, s: State, ids: set<ChatId>) {
    forall id :: id in ids && FileOf(s, id) != NO_FILE ==> FileOf(s, id) in w.kb
  }

  /** Nothing the server would refuse stands in the way of indexing these chats. */
  ghost predicate Doable(w: World, s: State, ids: set<ChatId>, strict: bool) {
    ids <= w.live.Keys && (strict ==> AllPresent(w, s, ids))
  }

  lemma StillPresent(w0: World, s0: State, kb: map<FileId, Doc>, s: State, done: set<ChatId>, all: set<ChatId>,
                     id: ChatId)
    requires Spares(w0.kb, s0, kb, s, done) && id !in done && id in all
    ensures FileOf(s, id) == FileOf(s0, id)
    ensures FileOf(s, id) != NO_FILE ==> (FileOf(s, id) in kb <==> FileOf(s, id) in w0.kb)
    ensures AllPresent(w0, s0, all) && FileOf(s, id) != NO_FILE ==> FileOf(s, id) in kb
  {
  }

  function SetOf(ids: seq<nat>): set<nat> {
    set id | id in ids
  }

  lemma Snoc(ids: seq<nat>, i: nat)
    requires i < |ids|
    ensures SetOf(ids[..i+1]) == SetOf(ids[..i]) + {ids[i]}
    ensures Ascending(ids) ==> ids[i] !in SetOf(ids[..i])
  {
    assert ids[..i+1] == ids[..i] + [ids[i]];
  }

  /** What the deletes have done so far: `w0` and `s0` are where they began, in `trace[..n]`,
      and the first `i` entries are gone. */
  ghost predicate DeletedSoFar(w0: World, s0: State, w: World, s: State, trace: seq<World>, n: nat, ids: seq<ChatId>,
                               i: nat, quiet: bool, strict: bool)
    requires n <= |trace| && i <= |ids|
  {
    && Drifted(w0, w) && SameCollection(w0, w) && Orphans(w) == Orphans(w0) && (quiet ==> SameChats(w0, w))
    && s == s0.(chats := s.chats) && s.chats.Keys == s0.chats.Keys - SetOf(ids[..i])
    && Spares(w0.kb, s0, w.kb, s, SetOf(ids[..i]))
    && (CrashConsistent(w0) && NoneCurrent(w0, ids) ==> CrashConsistent(w))
    && Onward(trace[..n], trace, s0.completedAt, CrashConsistent(w0) && NoneCurrent(w0, ids))
    && (quiet && !NoneCurrent(w0, ids[..i]) ==> BrokenSince(trace, n))
    && (strict ==> AllPresent(w0, s0, SetOf(ids[..i])) && StaysLost(w0, w))
  }

  lemma NothingDeleted(w: World, s: State, trace: seq<World>, ids: seq<ChatId>, quiet: bool, strict: bool)
    requires OnRecord(w, s)
    ensures DeletedSoFar(w, s, w, s, trace, |trace|, ids, 0, quiet, strict)
  {
    DriftedSelf(w);
    SparesNone(w, s);
    LostSelf(w);
    assert SetOf(ids[..0]) == {};
  }

  /** One delete more, in full or cut short: the stores. */
  lemma DeletedOneMore(w0: World, s0: State, w1: World, s1: State, t1: seq<World>, w: World, s: State,
                       n: nat, ids: seq<ChatId>, i: nat, quiet: bool, strict: bool, ok: bool)
    requires Sound(w0) && w0.disk == s0 && n <= |t1| && i < |ids| && ids[i] !in SetOf(ids[..i])
    requires DeletedSoFar(w0, s0, w1, s1, t1, n, ids, i, quiet, strict)
    requires Deleted(w1, w, s1, s, ids[i], strict, ok) && (quiet ==> SameChats(w1, w))
    ensures Drifted(w0, w) && SameCollection(w0, w) && Orphans(w) == Orphans(w0)
    ensures (strict ==> StaysLost(w0, w)) && (quiet ==> SameChats(w0, w))
    ensures ok ==> s == s0.(chats := s.chats) && s.chats.Keys == s0.chats.Keys - SetOf(ids[..i+1])
    ensures ok ==> Spares(w0.kb, s0, w.kb, s, SetOf(ids[..i+1]))
    ensures ok && strict ==> AllPresent(w0, s0, SetOf(ids[..i+1]))
  {
    ghost var id, done := ids[i], SetOf(ids[..i]);
    SoundLive(w0);
    hide Sound, CrashConsistent, Drifted, Evolves, Orphans, Spares, AllPresent, Lost, StaysLost, Current, NoneCurrent,
         Onward, BrokenSince;
    DriftedTwice(w0, w1, w);
    if strict { LostTwice(w0, w1, w); }
    if ok {
      Snoc(ids, i);
      SparesTwice(w0.kb, s0, w1.kb, s1, w.kb, s, done, {id});
      StillPresent(w0, s0, w1.kb, s1, done, done + {id}, id);
      if strict { PresentToo(w0, s0, done, id); }
    }
  }

  /** And the promise. */
  lemma DeletedOneMorePromise(w0: World, s0: State, w1: World, s1: State, t1: seq<World>, w: World, t: seq<World>,
                              n: nat, ids: seq<ChatId>, i: nat, quiet: bool, strict: bool, ok: bool)
    requires Sound(w0) && w0.disk == s0 && w1.disk == s1 && n <= |t1| && i < |ids| && ids[i] in s1.chats
    requires ids[i] !in SetOf(ids[..i]) && DeletedSoFar(w0, s0, w1, s1, t1, n, ids, i, quiet, strict)
    requires Onward(t1, t, s1.completedAt, CrashConsistent(w1) && !Current(w1, ids[i]))
    requires CrashConsistent(w1) && !Current(w1, ids[i]) ==> CrashConsistent(w)
    requires ok && quiet && Current(w1, ids[i]) ==> BrokenSince(t, |t1|)
    ensures Onward(t1[..n], t, s0.completedAt, CrashConsistent(w0) && NoneCurrent(w0, ids)) && n <= |t|
    ensures t[..n] == t1[..n] && (CrashConsistent(w0) && NoneCurrent(w0, ids) ==> CrashConsistent(w))
    ensures ok && quiet && !NoneCurrent(w0, ids[..i+1]) ==> BrokenSince(t, n)
  {
    ghost var id := ids[i];
    hide Sound, CrashConsistent, Drifted, Evolves, Orphans, Spares, AllPresent, Lost, StaysLost, Current;
    assert t[..n] == t1[..n];
    SameCurrency(w0, s0, w1, s1, SetOf(ids[..i]), id, quiet);
    assert ids[..i+1] == ids[..i] + [id];
    if ok && quiet && !NoneCurrent(w0, ids[..i+1]) {
      if NoneCurrent(w0, ids[..i]) {
        assert Current(w1, id);
        BrokenStill(t, |t1|, n);
      } else {
        BrokenOn(t1, t, n);
      }
    }
  }

  lemma DeletedOnceMore(w0: World, s0: State, w: World, s: State, t: seq<World>, n: nat, ids: seq<ChatId>, i: nat,
                        quiet: bool, strict: bool)
    requires n <= |t| && i <= |ids| && Drifted(w0, w) && SameCollection(w0, w) && Orphans(w) == Orphans(w0)
    requires (strict ==> StaysLost(w0, w) && AllPresent(w0, s0, SetOf(ids[..i]))) && (quiet ==> SameChats(w0, w))
    requires s == s0.(chats := s.chats) && s.chats.Keys == s0.chats.Keys - SetOf(ids[..i])
    requires Spares(w0.kb, s0, w.kb, s, SetOf(ids[..i]))
    requires Onward(t[..n], t, s0.completedAt, CrashConsistent(w0) && NoneCurrent(w0, ids))
    requires CrashConsistent(w0) && NoneCurrent(w0, ids) ==> CrashConsistent(w)
    requires quiet && !NoneCurrent(w0, ids[..i]) ==> BrokenSince(t, n)
    ensures DeletedSoFar(w0, s0, w, s, t, n, ids, i, quiet, strict)
  {
  }

  lemma BrokenStill(t: seq<World>, from: nat, n: nat)
    requires n <= from && BrokenSince(t, from)
    ensures BrokenSince(t, n)
  {
  }

  lemma BrokenOn(t1: seq<World>, t: seq<World>, n: nat)
    requires |t1| <= |t| && t1 == t[..|t1|] && BrokenSince(t1, n)
    ensures BrokenSince(t, n)
  {
    var i :| n <= i < |t1| && !CrashConsistent(t1[i]);
    assert t[i] == t1[i];
  }

  /** An entry not reached yet is current only if it was, and still is if nobody touches a chat. */
  lemma SameCurrency(w0: World, s0: State, w: World, s: State, done: set<ChatId>, id: ChatId, quiet: bool)
    requires Sound(w0) && Drifted(w0, w) && w0.disk == s0 && w.disk == s && Spares(w0.kb, s0, w.kb, s, done)
    requires id !in done && id in s.chats && (quiet ==> SameChats(w0, w))
    ensures id in s0.chats && (Current(w, id) ==> Current(w0, id)) && (quiet && Current(w0, id) ==> Current(w, id))
  {
    assert SoundEntry(w0, id, s0.chats[id]) && id in w0.born;
  }

  /** Deletes the entries one by one, each with its file, and puts each on record at once. */
  method DeleteAll(h: Host, state: State, ids: seq<ChatId>, ghost quiet: bool)
    returns (state': State, ok: bool, deleted: nat)
    requires OnRecord(h.w, state) && Ascending(ids) && (quiet ==> h.Still())
    requires forall id :: id in ids ==> id in state.chats
    modifies h
    ensures Sound(h.w) && Drifted(old(h.w), h.w) && SameCollection(old(h.w), h.w)
    ensures Onward(old(h.trace), h.trace, state.completedAt, CrashConsistent(old(h.w)) && NoneCurrent(old(h.w), ids))
    ensures ok ==> OnRecord(h.w, state') && deleted == |ids| && state' == state.(chats := state'.chats)
    ensures ok ==> state'.chats.Keys == state.chats.Keys - SetOf(ids)
    ensures ok ==> Spares(old(h.w.kb), state, h.w.kb, state', SetOf(ids))
    ensures Orphans(h.w) == Orphans(old(h.w))
    ensures CrashConsistent(old(h.w)) && NoneCurrent(old(h.w), ids) ==> CrashConsistent(h.w)
    ensures ok && quiet && !NoneCurrent(old(h.w), ids) ==> BrokenSince(h.trace, |old(h.trace)|)
    ensures !ok ==> |h.trace| > |old(h.trace)|
    ensures quiet ==> h.Still() && SameChats(old(h.w), h.w)
    ensures ok && h.strict ==> AllPresent(old(h.w), state, SetOf(ids))
    ensures h.strict ==> StaysLost(old(h.w), h.w)
    ensures h.steady && (h.strict ==> AllPresent(old(h.w), state, SetOf(ids))) ==> ok
  {
    hide Sound, CrashConsistent, Drifted, Evolves, Orphans, Spares, AllPresent, Lost, StaysLost, Current, NoneCurrent,
         BrokenSince, Deleted, DeletedSoFar, Onward;
    ghost var w0, n, all := h.w, |h.trace|, SetOf(ids);
    state', ok, deleted := state, true, 0;
    NothingDeleted(w0, state, h.trace, ids, quiet, h.strict);
    for i := 0 to |ids|
      invariant ok && deleted == i && OnRecord(h.w, state') && (quiet ==> h.Still())
      invariant n <= |h.trace| && h.trace[..n] == old(h.trace)
      invariant state'.completedAt == state.completedAt && state'.chats.Keys == state.chats.Keys - SetOf(ids[..i])
      invariant DeletedSoFar(w0, state, h.w, state', h.trace, n, ids, i, quiet, h.strict)
    {
      ghost var w1, s1, t1 := h.w, state', h.trace;
      var id := ids[i];
      Snoc(ids, i);
      assert id in ids && id in all;
      MissingMeanwhile(w0, state, w1, s1, t1, n, ids, i, quiet, h.strict);
      state', ok := DeleteOne(h, state', id, quiet);
      DeletedMeans(w1, h.w, s1, state', id, h.strict, ok);
      DeletedOneMore(w0, state, w1, s1, t1, h.w, state', n, ids, i, quiet, h.strict, ok);
      DeletedOneMorePromise(w0, state, w1, s1, t1, h.w, h.trace, n, ids, i, quiet, h.strict, ok);
      if !ok {
        return;
      }
      DeletedOnceMore(w0, state, h.w, state', h.trace, n, ids, i + 1, quiet, h.strict);
      deleted := deleted + 1;
    }
    assert ids[..|ids|] == ids;
    AllDeleted(w0, state, h.w, state', h.trace, n, ids, quiet, h.strict);
  }

  lemma DeletedMeans(a: World, b: World, state: State, state': State, id: ChatId, strict: bool, ok: bool)
    requires Deleted(a, b, state, state', id, strict, ok)
    ensures Sound(b) && (ok ==> OnRecord(b, state') && state' == Drop(state, id))
  {
  }

  lemma AllDeleted(w0: World, s0: State, w: World, s: State, trace: seq<World>, n: nat, ids: seq<ChatId>, quiet: bool,
                   strict: bool)
    requires n <= |trace| && DeletedSoFar(w0, s0, w, s, trace, n, ids, |ids|, quiet, strict)
    ensures Drifted(w0, w) && SameCollection(w0, w) && Orphans(w) == Orphans(w0) && (quiet ==> SameChats(w0, w))
    ensures s == s0.(chats := s.chats) && s.chats.Keys == s0.chats.Keys - SetOf(ids)
    ensures Spares(w0.kb, s0, w.kb, s, SetOf(ids))
    ensures CrashConsistent(w0) && NoneCurrent(w0, ids) ==> CrashConsistent(w)
    ensures Onward(trace[..n], trace, s0.completedAt, CrashConsistent(w0) && NoneCurrent(w0, ids))
    ensures quiet && !NoneCurrent(w0, ids) ==> BrokenSince(trace, n)
    ensures strict ==> AllPresent(w0, s0, SetOf(ids)) && StaysLost(w0, w)
  {
    assert ids[..|ids|] == ids;
  }

  /** The file of an entry not reached yet is there if it was when the deletes began. */
  lemma MissingMeanwhile(w0: World, s0: State, w: World, s: State, trace: seq<World>, n: nat, ids: seq<ChatId>, i: nat,
                         quiet: bool, strict: bool)
    requires n <= |trace| && i < |ids| && DeletedSoFar(w0, s0, w, s, trace, n, ids, i, quiet, strict)
    requires ids[i] !in SetOf(ids[..i])
    ensures AllPresent(w0, s0, SetOf(ids)) && FileOf(s, ids[i]) != NO_FILE ==> FileOf(s, ids[i]) in w.kb
  {
    hide Drifted, Orphans, CrashConsistent, NoneCurrent, Onward, BrokenSince, StaysLost;
    assert ids[i] in ids;
    StillPresent(w0, s0, w.kb, s, SetOf(ids[..i]), SetOf(ids), ids[i]);
  }

  lemma SparesNone(w: World, s: State)
    ensures Spares(w.kb, s, w.kb, s, {}) && AllPresent(w, s, {})
  {
  }

  lemma PresentToo(w: World, s: State, done: set<ChatId>, id: ChatId)
    requires AllPresent(w, s, done) && (FileOf(s, id) != NO_FILE ==> FileOf(s, id) in w.kb)
    ensures AllPresent(w, s, done + {id})
  {
  }

  lemma DriftedSelf(w: World)
    requires Sound(w)
    ensures Drifted(w, w)
  {
  }

  /** None of these chats has an entry that is current. */
  ghost predicate NoneCurrent(w: World, ids: seq<ChatId>) {
    forall id :: id in ids && id in w.disk.chats ==> !Current(w, id)
  }

  /** Every reference of the list calls for this kind of work. */
  ghost predicate WorkList(state: State, refs: seq<ChatRef>, replace: bool) {
    forall r :: r in refs ==> IsWork(state.chats, r, !replace)
  }

  /** The chat of the j-th reference has come before. */
  predicate Again(refs: seq<ChatRef>, j: nat)
    requires j < |refs|
  {
    refs[j].id in Ids(refs[..j])
  }

  ghost predicate NotRendered(w: World, id: ChatId) {
    id in w.live && !w.live[id].renderable
  }

  /** A chat comes again only if it is skipped every time: nobody touches it during the run,
      and it renders to nothing. */
  ghost predicate AgainOnlySkipped(w: World, refs: seq<ChatRef>, quiet: bool) {
    forall j :: 0 <= j < |refs| && Again(refs, j) ==> quiet && NotRendered(w, refs[j].id)
  }

  /** Among the first `i` references a chat comes again that is uploaded every time. */
  ghost predicate UploadedAgain(w: World, refs: seq<ChatRef>, i: nat)
    requires i <= |refs|
  {
    exists j :: 0 <= j < i && Again(refs, j) && refs[j].id in w.live && w.live[refs[j].id].renderable
  }

  /** The chat has moved on since it was listed: an entry at the listed version is not current. */
  ghost predicate MovedOn(w: World, r: ChatRef) {
    r.id in w.live && w.live[r.id].version > r.updatedAt
  }

  /** A chat comes again only if nobody touches it any more, and if it renders to nothing or
      has moved on already. */
  ghost predicate AgainHarmless(w: World, refs: seq<ChatRef>, quiet: bool) {
    forall j :: 0 <= j < |refs| && Again(refs, j) ==>
      quiet && (NotRendered(w, refs[j].id) || (OneVersionEach(refs) && MovedOn(w, refs[j])))
  }

  /** The reference names the chat as it is, with text to upload. */
  ghost predicate Uploadable(w: World, r: ChatRef) {
    r.id in w.live && w.live[r.id].renderable && w.live[r.id].version == r.updatedAt
  }

  /** Among the first `i` references a chat comes again that is put on record as it is every time. */
  ghost predicate UpdatedAgain(w: World, refs: seq<ChatRef>, i: nat)
    requires i <= |refs|
  {
    exists j :: 0 <= j < i && Again(refs, j) && Uploadable(w, refs[j])
  }

  /** Work that is done again with nobody touching a chat either is harmless or shows. */
  lemma HarmlessOrAgain(w: World, refs: seq<ChatRef>)
    requires AllListed(w, refs) && Ids(refs) <= w.live.Keys
    ensures AgainOnlySkipped(w, refs, true) || UploadedAgain(w, refs, |refs|)
    ensures OneVersionEach(refs) ==> AgainHarmless(w, refs, true) || UpdatedAgain(w, refs, |refs|)
  {
    forall j | 0 <= j < |refs| && Again(refs, j)
      ensures NotRendered(w, refs[j].id) || w.live[refs[j].id].renderable
      ensures NotRendered(w, refs[j].id) || MovedOn(w, refs[j]) || Uploadable(w, refs[j]) {
      assert refs[j] in refs && refs[j].id in Ids(refs) && Listed(w, refs[j]);
    }
  }

  /** The promise was broken at some moment since. */
  ghost predicate BrokenSince(trace: seq<World>, from: nat) {
    exists t :: from <= t < |trace| && !CrashConsistent(trace[t])
  }

  ghost predicate Finished(w: World, s: State, r: ChatRef, quiet: bool) {
    Reconciled(w.kb, s, r) && (quiet ==> r.id in w.live && (r.id in s.chats <==> w.live[r.id].renderable))
  }

  ghost predicate AllFinished(w: World, s: State, refs: seq<ChatRef>, quiet: bool) {
    forall r :: r in refs ==> Finished(w, s, r, quiet)
  }

  ghost predicate AllListed(w: World, refs: seq<ChatRef>) {
    forall r :: r in refs ==> Listed(w, r)
  }

  lemma AllListedSurvives(a: World, b: World, refs: seq<ChatRef>)
    requires Drifted(a, b) && AllListed(a, refs)
    ensures AllListed(b, refs)
  {
  }

  lemma IdsSnoc(refs: seq<ChatRef>, i: nat)
    requires i < |refs|
    ensures Ids(refs[..i+1]) == Ids(refs[..i]) + {refs[i].id} && refs[i].id in Ids(refs)
  {
    assert refs[..i+1] == refs[..i] + [refs[i]];
  }

  /** The entries of these chats name files that are there; in a quiet run exactly the chats
      that render have one. */
  ghost predicate Standing(w: World, s: State, ids: set<ChatId>, quiet: bool) {
    && (forall id :: id in ids && id in s.chats ==> s.chats[id].file in w.kb)
    && (quiet ==> forall id :: id in ids ==> id in w.live && (id in s.chats <==> w.live[id].renderable))
  }

  /** The first `i` references have been dealt with and nothing else was touched; if no chat
      is listed at two versions, every one of them is reconciled. */
  ghost predicate InStep(w0: World, s0: State, w: World, s: State, refs: seq<ChatRef>, i: nat, quiet: bool,
                         strict: bool)
    requires i <= |refs|
  {
    && Spares(w0.kb, s0, w.kb, s, Ids(refs[..i])) && s.chats.Keys <= s0.chats.Keys + Ids(refs[..i])
    && Standing(w, s, Ids(refs[..i]), quiet)
    && (OneVersionEach(refs) ==> AllFinished(w, s, refs[..i], quiet))
    && (strict ==> AllPresent(w0, s0, Ids(refs[..i])))
  }

  /** One step of the loop, seen through its contract. */
  ghost predicate StepTaken(a: World, s: State, b: World, s': State, ref: ChatRef, oldFile: FileId,
                            outcome: ChatOutcome, quiet: bool) {
    && Sound(a) && a.disk == s && !outcome.Failed? && (oldFile == NO_FILE || oldFile == FileOf(s, ref.id))
    && (outcome.Uploaded? ==> IsPut(s, s', ref.id) && NewEntry(a.(kb := a.kb - {oldFile}), b, ref, s'.chats[ref.id]))
    && (outcome.Skipped? ==> s' == Drop(s, ref.id) && b.kb == a.kb - {oldFile})
    && (quiet ==> SameChats(a, b) && ref.id in b.live && (outcome.Uploaded? <==> b.live[ref.id].renderable))
  }

  lemma IndexedOne(a: World, s: State, b: World, s': State, ref: ChatRef, oldFile: FileId, outcome: ChatOutcome,
                   quiet: bool)
    requires StepTaken(a, s, b, s', ref, oldFile, outcome, quiet)
    ensures Spares(a.kb, s, b.kb, s', {ref.id}) && Finished(b, s', ref, quiet) && Standing(b, s', {ref.id}, quiet)
    ensures s'.chats.Keys <= s.chats.Keys + {ref.id}
  {
    if outcome.Uploaded? {
      IndexingSpares(a, s, b, s', ref, oldFile);
    } else if oldFile == FileOf(s, ref.id) {
      RemovalSpares(a, s, s', ref.id);
    } else {
      FreshIsUnclaimed(a);
      assert a.kb - {NO_FILE} == a.kb;
    }
  }

  lemma OneMoreFinished(a: World, s: State, b: World, s': State, refs: seq<ChatRef>, i: nat, quiet: bool)
    requires OneVersionEach(refs) && i < |refs|
    requires AllFinished(a, s, refs[..i], quiet) && Spares(a.kb, s, b.kb, s', {refs[i].id})
    requires Finished(b, s', refs[i], quiet) && (quiet ==> SameChats(a, b))
    ensures AllFinished(b, s', refs[..i+1], quiet)
  {
    forall r | r in refs[..i+1] ensures Finished(b, s', r, quiet) {
      assert refs[..i+1] == refs[..i] + [refs[i]];
      assert r in refs && refs[i] in refs;
      if r != refs[i] {
        assert r in refs[..i] && Finished(a, s, r, quiet) && r.id != refs[i].id;
      }
    }
  }

  lemma StandingMore(a: World, s: State, b: World, s': State, ids: set<ChatId>, id: ChatId, quiet: bool)
    requires Standing(a, s, ids, quiet) && Spares(a.kb, s, b.kb, s', {id}) && Standing(b, s', {id}, quiet)
    requires quiet ==> SameChats(a, b)
    ensures Standing(b, s', ids + {id}, quiet)
  {
  }

  lemma InStepAdvances(w0: World, s0: State, a: World, s: State, b: World, s': State, refs: seq<ChatRef>, i: nat,
                       oldFile: FileId, outcome: ChatOutcome, quiet: bool, strict: bool)
    requires i < |refs| && InStep(w0, s0, a, s, refs, i, quiet, strict)
    requires StepTaken(a, s, b, s', refs[i], oldFile, outcome, quiet)
    requires strict && !Again(refs, i) && FileOf(s0, refs[i].id) != NO_FILE ==> FileOf(s0, refs[i].id) in w0.kb
    ensures InStep(w0, s0, b, s', refs, i + 1, quiet, strict)
  {
    IndexedOne(a, s, b, s', refs[i], oldFile, outcome, quiet);
    StepQuiet(a, s, b, s', refs[i], oldFile, outcome, quiet);
    hide StepTaken, Finished, AllFinished, Spares, Standing, OneVersionEach, AllPresent;
    IdsSnoc(refs, i);
    if OneVersionEach(refs) { OneMoreFinished(a, s, b, s', refs, i, quiet); }
    StandingMore(a, s, b, s', Ids(refs[..i]), refs[i].id, quiet);
    SparesTwice(w0.kb, s0, a.kb, s, b.kb, s', Ids(refs[..i]), {refs[i].id});
    if strict {
      if Again(refs, i) {
        assert Ids(refs[..i+1]) == Ids(refs[..i]);
      } else {
        PresentToo(w0, s0, Ids(refs[..i]), refs[i].id);
      }
    }
  }

  lemma StepQuiet(a: World, s: State, b: World, s': State, ref: ChatRef, oldFile: FileId, outcome: ChatOutcome,
                  quiet: bool)
    requires StepTaken(a, s, b, s', ref, oldFile, outcome, quiet)
    ensures quiet ==> SameChats(a, b)
  {
  }

  lemma InStepAtStart(w: World, s: State, refs: seq<ChatRef>, quiet: bool, strict: bool)
    ensures InStep(w, s, w, s, refs, 0, quiet, strict)
  {
  }

  lemma InStepAtEnd(w0: World, s0: State, w: World, s: State, refs: seq<ChatRef>, quiet: bool, strict: bool)
    requires InStep(w0, s0, w, s, refs, |refs|, quiet, strict)
    ensures Spares(w0.kb, s0, w.kb, s, Ids(refs)) && s.chats.Keys <= s0.chats.Keys + Ids(refs)
    ensures OneVersionEach(refs) ==> AllFinished(w, s, refs, quiet)
    ensures strict ==> AllPresent(w0, s0, Ids(refs))
    ensures quiet ==> Ids(refs) <= w.live.Keys
  {
    assert refs[..|refs|] == refs;
  }

  /** What the loop knows of the reference it is about to index. */
  lemma NextInWorkList(w0: World, s0: State, w: World, s: State, refs: seq<ChatRef>, i: nat, replace: bool,
                       quiet: bool, strict: bool)
    requires Sound(w0) && w0.disk == s0 && Sound(w) && w.disk == s && (quiet ==> SameChats(w0, w))
    requires WorkList(s0, refs, replace) && i < |refs| && InStep(w0, s0, w, s, refs, i, quiet, strict)
    ensures var f := if replace then FileOf(s, refs[i].id) else NO_FILE;
      && (Doable(w0, s0, Ids(refs), strict) ==> refs[i].id in w0.live && (strict && f != NO_FILE ==> f in w.kb))
      && (f == FileOf(s, refs[i].id) || FileOf(s, refs[i].id) in w.kb)
      && (!Again(refs, i) ==> Stale(s, refs[i], f) && FileOf(s, refs[i].id) == FileOf(s0, refs[i].id))
      && (!Again(refs, i) && FileOf(s0, refs[i].id) != NO_FILE ==> replace && (f in w.kb <==> f in w0.kb))
      && (Again(refs, i) && quiet && NotRendered(w0, refs[i].id) ==> FileOf(s, refs[i].id) == NO_FILE)
      && (Again(refs, i) && quiet && !NotRendered(w0, refs[i].id) ==>
            refs[i].id in s.chats && s.chats[refs[i].id].file in w.kb)
  {
    var id := refs[i].id;
    assert refs[i] in refs && id in Ids(refs) && IsWork(s0.chats, refs[i], !replace);
    assert NO_FILE !in w.kb && NO_FILE !in w0.kb;
  }

  /** An update listed again removes, as the old file, the one the first time put there: its
      entry is current, and for a moment names nothing. */
  lemma AgainBreaksThePromise(w0: World, s0: State, w: World, s: State, t: World, refs: seq<ChatRef>, i: nat,
                              strict: bool)
    requires Sound(w) && w.disk == s && SameChats(w0, w) && SameChats(w, t) && i < |refs|
    requires InStep(w0, s0, w, s, refs, i, true, strict) && OneVersionEach(refs)
    requires Again(refs, i) && Uploadable(w0, refs[i]) && Uncovered(w, s, t, FileOf(s, refs[i].id), true)
    ensures !CrashConsistent(t)
  {
    AgainIsOnRecord(w0, s0, w, s, refs, i, true, strict);
    var r := refs[i];
    assert Finished(w, s, r, true);
    assert NO_FILE !in w.kb;
    assert Current(t, r.id) && !Backed(t, r.id);
  }

  /** A chat that comes again has been dealt with at the very version it is listed at. */
  lemma AgainIsOnRecord(w0: World, s0: State, w: World, s: State, refs: seq<ChatRef>, i: nat, quiet: bool,
                        strict: bool)
    requires i < |refs| && InStep(w0, s0, w, s, refs, i, quiet, strict) && OneVersionEach(refs) && Again(refs, i)
    ensures Finished(w, s, refs[i], quiet)
  {
    var q :| q in refs[..i] && q.id == refs[i].id;
    assert q in refs && refs[i] in refs && q == refs[i];
  }

  /** The account of the loop so far: what was orphaned, and when the promise was broken. */
  ghost predicate Account(w0: World, w: World, trace: seq<World>, from: nat, refs: seq<ChatRef>, i: nat,
                          replace: bool, quiet: bool)
    requires i <= |refs|
  {
    && (replace || AgainOnlySkipped(w0, refs, quiet) ==> Orphans(w) == Orphans(w0))
    && (!replace ==> Orphans(w0) <= Orphans(w))
    && (!replace && quiet && UploadedAgain(w0, refs, i) ==> Orphans(w) != Orphans(w0))
    && (CrashConsistent(w0) && (replace ==> AgainHarmless(w0, refs, quiet)) ==>
          CrashConsistent(w) && forall t :: from <= t < |trace| ==> CrashConsistent(trace[t]))
    && (replace && quiet && OneVersionEach(refs) && UpdatedAgain(w0, refs, i) ==> BrokenSince(trace, from))
  }

  lemma AccountAtStart(w: World, trace: seq<World>, refs: seq<ChatRef>, replace: bool, quiet: bool)
    ensures Account(w, w, trace, |trace|, refs, 0, replace, quiet)
  {
  }

  /** What the account needs to know of a reference before it is indexed. */
  ghost predicate Accountable(w0: World, w: World, s: State, refs: seq<ChatRef>, i: nat, replace: bool, quiet: bool,
                              oldFile: FileId)
    requires i < |refs|
  {
    && (oldFile == NO_FILE && (replace || AgainOnlySkipped(w0, refs, quiet)) ==> !Holds(w, refs[i].id))
    && ((replace ==> AgainHarmless(w0, refs, quiet)) ==> MayGo(w, refs[i].id, oldFile))
    && (quiet && Again(refs, i) && !NotRendered(w0, refs[i].id) ==>
          Holds(w, refs[i].id) && FileOf(s, refs[i].id) !in Orphans(w))
  }

  lemma NextIsAccountable(w0: World, s0: State, w: World, s: State, refs: seq<ChatRef>, i: nat, replace: bool,
                          quiet: bool, strict: bool)
    requires Sound(w0) && w0.disk == s0 && Sound(w) && w.disk == s && (quiet ==> SameChats(w0, w))
    requires WorkList(s0, refs, replace) && i < |refs| && InStep(w0, s0, w, s, refs, i, quiet, strict)
    requires Listed(w, refs[i])
    ensures Accountable(w0, w, s, refs, i, replace, quiet, if replace then FileOf(s, refs[i].id) else NO_FILE)
  {
    NextInWorkList(w0, s0, w, s, refs, i, replace, quiet, strict);
    FreshIsUnclaimed(w);
    assert refs[i].id in s.chats ==> s.chats[refs[i].id].file in Claimed(w.disk.chats);
    if replace && AgainHarmless(w0, refs, quiet) {
      NextMayGo(w0, s0, w, s, refs, i, quiet, strict);
    }
  }

  lemma NextMayGo(w0: World, s0: State, w: World, s: State, refs: seq<ChatRef>, i: nat, quiet: bool, strict: bool)
    requires Sound(w0) && w0.disk == s0 && Sound(w) && w.disk == s && (quiet ==> SameChats(w0, w))
    requires WorkList(s0, refs, true) && i < |refs| && InStep(w0, s0, w, s, refs, i, quiet, strict)
    requires Listed(w, refs[i]) && AgainHarmless(w0, refs, quiet)
    ensures MayGo(w, refs[i].id, FileOf(s, refs[i].id))
  {
    NextInWorkList(w0, s0, w, s, refs, i, true, quiet, strict);
    hide Sound, WorkList, InStep, OneVersionEach;
    if !Again(refs, i) {
      StaleMayGo(w, refs[i], FileOf(s, refs[i].id));
    } else if !NotRendered(w0, refs[i].id) {
      AgainIsOnRecord(w0, s0, w, s, refs, i, quiet, strict);
    }
  }

  /** One more reference indexed, and what its contract says of orphans and of the promise. */
  ghost predicate Accounted(a: World, b: World, s: State, trace: seq<World>, from: nat, ref: ChatRef, oldFile: FileId,
                            uploaded: bool, quiet: bool)
    requires from < |trace|
  {
    && (!Holds(a, ref.id) || oldFile != NO_FILE ==> Orphans(b) == Orphans(a))
    && (oldFile == NO_FILE ==> Orphans(a) <= Orphans(b))
    && (uploaded && oldFile == NO_FILE && Holds(a, ref.id) ==> FileOf(s, ref.id) in Orphans(b))
    && (CrashConsistent(a) && MayGo(a, ref.id, oldFile) ==>
          CrashConsistent(b) && forall t :: from <= t < |trace| ==> CrashConsistent(trace[t]))
    && (oldFile != NO_FILE ==> Uncovered(a, s, trace[from], oldFile, quiet))
  }

  lemma OrphansAdvance(w0: World, a: World, s: State, b: World, t1: seq<World>, t2: seq<World>, n: nat,
                       refs: seq<ChatRef>, i: nat,
                       replace: bool, quiet: bool, oldFile: FileId, uploaded: bool)
    requires i < |refs| && n <= |t1| < |t2| && Account(w0, a, t1, n, refs, i, replace, quiet)
    requires (quiet ==> SameChats(w0, a))
    requires Accountable(w0, a, s, refs, i, replace, quiet, oldFile) && (!replace ==> oldFile == NO_FILE)
    requires Accounted(a, b, s, t2, |t1|, refs[i], oldFile, uploaded, quiet)
    requires quiet && refs[i].id in w0.live && w0.live[refs[i].id].renderable ==> uploaded
    ensures replace || AgainOnlySkipped(w0, refs, quiet) ==> Orphans(b) == Orphans(w0)
    ensures !replace ==> Orphans(w0) <= Orphans(b)
    ensures !replace && quiet && UploadedAgain(w0, refs, i + 1) ==> Orphans(b) != Orphans(w0)
  {
    hide Orphans, CrashConsistent, Holds, Uncovered, MayGo;
    if !replace && quiet && UploadedAgain(w0, refs, i + 1) && !UploadedAgain(w0, refs, i) {
      assert Again(refs, i) && FileOf(s, refs[i].id) in Orphans(b) && FileOf(s, refs[i].id) !in Orphans(a);
    }
  }

  lemma PromiseAdvances(w0: World, s0: State, a: World, s: State, b: World, t1: seq<World>, t2: seq<World>, n: nat,
                        refs: seq<ChatRef>,
                        i: nat, replace: bool, quiet: bool, strict: bool, oldFile: FileId, uploaded: bool)
    requires i < |refs| && n <= |t1| < |t2| && t1 <= t2 && Account(w0, a, t1, n, refs, i, replace, quiet)
    requires Sound(a) && a.disk == s && (quiet ==> SameChats(w0, a)) && InStep(w0, s0, a, s, refs, i, quiet, strict)
    requires Accountable(w0, a, s, refs, i, replace, quiet, oldFile) && (replace ==> oldFile == FileOf(s, refs[i].id))
    requires Accounted(a, b, s, t2, |t1|, refs[i], oldFile, uploaded, quiet)
    ensures CrashConsistent(w0) && (replace ==> AgainHarmless(w0, refs, quiet)) ==>
      CrashConsistent(b) && forall t :: n <= t < |t2| ==> CrashConsistent(t2[t])
    ensures replace && quiet && OneVersionEach(refs) && UpdatedAgain(w0, refs, i + 1) ==> BrokenSince(t2, n)
  {
    hide Orphans, CrashConsistent, MayGo, InStep, Sound, OneVersionEach;
    if replace && quiet && OneVersionEach(refs) && UpdatedAgain(w0, refs, i + 1) {
      if UpdatedAgain(w0, refs, i) {
        var t :| n <= t < |t1| && !CrashConsistent(t1[t]);
        assert t2[t] == t1[t];
      } else {
        assert Again(refs, i) && Uploadable(w0, refs[i]);
        NoFileNotHeld(a, refs[i].id);
        AgainBreaksThePromise(w0, s0, a, s, t2[|t1|], refs, i, strict);
      }
    }
  }

  lemma NoFileNotHeld(w: World, id: ChatId)
    requires Sound(w)
    ensures Holds(w, id) ==> FileOf(w.disk, id) != NO_FILE
  {
  }

  lemma AccountAdvances(w0: World, s0: State, a: World, s: State, b: World, t1: seq<World>, t2: seq<World>, n: nat,
                        refs: seq<ChatRef>,
                        i: nat, replace: bool, quiet: bool, strict: bool, oldFile: FileId, uploaded: bool)
    requires i < |refs| && n <= |t1| < |t2| && t1 <= t2 && Account(w0, a, t1, n, refs, i, replace, quiet)
    requires Sound(a) && a.disk == s && (quiet ==> SameChats(w0, a)) && InStep(w0, s0, a, s, refs, i, quiet, strict)
    requires Accountable(w0, a, s, refs, i, replace, quiet, oldFile)
    requires oldFile == (if replace then FileOf(s, refs[i].id) else NO_FILE)
    requires Accounted(a, b, s, t2, |t1|, refs[i], oldFile, uploaded, quiet)
    requires quiet && refs[i].id in w0.live && w0.live[refs[i].id].renderable ==> uploaded
    ensures Account(w0, b, t2, n, refs, i + 1, replace, quiet)
  {
    OrphansAdvance(w0, a, s, b, t1, t2, n, refs, i, replace, quiet, oldFile, uploaded);
    PromiseAdvances(w0, s0, a, s, b, t1, t2, n, refs, i, replace, quiet, strict, oldFile, uploaded);
    hide Orphans, CrashConsistent, Accountable, Accounted, InStep, Sound, AgainOnlySkipped, AgainHarmless,
         UploadedAgain, UpdatedAgain, BrokenSince;
  }

  /** A failed step orphans at most one file more. */
  lemma FailedGrows(w0: World, a: World, b: World, trace: seq<World>, n: nat, refs: seq<ChatRef>, i: nat,
                    replace: bool, quiet: bool, oldFile: FileId)
    requires i < |refs| && Account(w0, a, trace, n, refs, i, replace, quiet)
    requires oldFile == NO_FILE && (replace || AgainOnlySkipped(w0, refs, quiet)) ==> !Holds(a, refs[i].id)
    requires !Holds(a, refs[i].id) || oldFile != NO_FILE ==> OrphansGrowByOne(a, b, Failed)
    ensures replace || AgainOnlySkipped(w0, refs, quiet) ==> OrphansGrow(w0, b, false)
  {
  }

  /** Executes the updates (replacing the old transcript first) or the adds. A chat that
      comes again in the list is worked on again. */
  method IndexAll(h: Host, state: State, refs: seq<ChatRef>, replace: bool, now: nat, ghost quiet: bool)
    returns (state': State, ok: bool, uploaded: nat, skipped: nat)
    requires quiet ==> h.Still()
    requires OnRecord(h.w, state) && AllListed(h.w, refs) && WorkList(state, refs, replace)
    modifies h
    ensures Sound(h.w) && Drifted(old(h.w), h.w) && SameCollection(old(h.w), h.w)
    ensures Onward(old(h.trace), h.trace, state.completedAt,
                   CrashConsistent(old(h.w)) && (replace ==> AgainHarmless(old(h.w), refs, quiet)))
    ensures ok ==> OnRecord(h.w, state') && uploaded + skipped == |refs| && state' == state.(chats := state'.chats)
    ensures quiet ==> h.Still() && SameChats(old(h.w), h.w)
    ensures ok ==>
      Spares(old(h.w.kb), state, h.w.kb, state', Ids(refs)) && state'.chats.Keys <= state.chats.Keys + Ids(refs)
    ensures ok && OneVersionEach(refs) ==> AllFinished(h.w, state', refs, quiet)
    ensures replace || AgainOnlySkipped(old(h.w), refs, quiet) ==> OrphansGrow(old(h.w), h.w, ok)
    ensures ok && !replace ==> Orphans(old(h.w)) <= Orphans(h.w)
    ensures ok && !replace && quiet && !AgainOnlySkipped(old(h.w), refs, true) ==> Orphans(h.w) != Orphans(old(h.w))
    ensures CrashConsistent(old(h.w)) && (replace ==> AgainHarmless(old(h.w), refs, quiet)) ==> CrashConsistent(h.w)
    ensures ok && replace && quiet && OneVersionEach(refs) && !AgainHarmless(old(h.w), refs, true) ==>
      BrokenSince(h.trace, |old(h.trace)|)
    ensures !ok ==> |h.trace| > |old(h.trace)|
    ensures ok && h.strict ==> AllPresent(old(h.w), state, Ids(refs))
    ensures h.strict ==> StaysLost(old(h.w), h.w)
    ensures h.steady && quiet && Doable(old(h.w), state, Ids(refs), h.strict) ==> ok
  {
    hide Sound, CrashConsistent, Drifted, Evolves, Orphans, Spares, AllPresent, Listed, NewEntry, AllListed,
         OneVersionEach, AllFinished, WorkList, Stale, Holds, OrphansGrow, OrphansGrowByOne, InStep, Doable, Lost,
         StaysLost,
         Account, Accountable, Accounted, AgainOnlySkipped, AgainHarmless, UploadedAgain, UpdatedAgain, BrokenSince,
         Uncovered, StepTaken, Again, NotRendered, MayGo;
    LostSelf(h.w);
    ghost var w0, n := h.w, |h.trace|;
    state', ok, uploaded, skipped := state, true, 0, 0;
    SoundLive(w0);
    DriftedSelf(w0);
    InStepAtStart(w0, state, refs, quiet, h.strict);
    AccountAtStart(w0, h.trace, refs, replace, quiet);
    for i := 0 to |refs|
      invariant ok && uploaded + skipped == i && OnRecord(h.w, state') && state' == state.(chats := state'.chats)
      invariant Drifted(w0, h.w) && SameCollection(w0, h.w)
      invariant |h.trace| >= n && old(h.trace) == h.trace[..n] && h.StampSince(n, state.completedAt)
      invariant quiet ==> h.Still() && SameChats(w0, h.w)
      invariant InStep(w0, state, h.w, state', refs, i, quiet, h.strict)
      invariant Account(w0, h.w, h.trace, n, refs, i, replace, quiet)
      invariant h.strict ==> StaysLost(w0, h.w)
    {
      var outcome;
      state', outcome := IndexNext(h, state', refs, i, replace, now, w0, state, n, quiet);
      if outcome.Failed? {
        ok := false;
        return;
      }
      if outcome.Uploaded? {
        uploaded := uploaded + 1;
      } else {
        skipped := skipped + 1;
      }
    }
    InStepAtEnd(w0, state, h.w, state', refs, quiet, h.strict);
    if quiet { HarmlessOrAgain(w0, refs); }
    AccountAtEnd(w0, h.w, h.trace, n, refs, replace, quiet);
  }

  lemma AccountAtEnd(w0: World, w: World, trace: seq<World>, n: nat, refs: seq<ChatRef>, replace: bool, quiet: bool)
    requires Account(w0, w, trace, n, refs, |refs|, replace, quiet)
    ensures replace || AgainOnlySkipped(w0, refs, quiet) ==> OrphansGrow(w0, w, true)
    ensures !replace ==> Orphans(w0) <= Orphans(w)
    ensures !replace && quiet && UploadedAgain(w0, refs, |refs|) ==> Orphans(w) != Orphans(w0)
    ensures CrashConsistent(w0) && (replace ==> AgainHarmless(w0, refs, quiet)) ==>
      CrashConsistent(w) && forall t :: n <= t < |trace| ==> CrashConsistent(trace[t])
    ensures replace && quiet && OneVersionEach(refs) && UpdatedAgain(w0, refs, |refs|) ==> BrokenSince(trace, n)
  {
    assert Orphans(w) <= Orphans(w) + {NO_FILE};
  }

  /** One round of the loop. `w0`, `s0` and `n` say where the loop began. */
  method IndexNext(h: Host, state: State, refs: seq<ChatRef>, i: nat, replace: bool, now: nat,
                   ghost w0: World, ghost s0: State, ghost n: nat, ghost quiet: bool)
    returns (state': State, outcome: ChatOutcome)
    requires quiet ==> h.Still()
    requires i < |refs| && OnRecord(h.w, state) && Sound(w0) && w0.disk == s0 && Drifted(w0, h.w)
    requires SameCollection(w0, h.w)
    requires AllListed(w0, refs) && WorkList(s0, refs, replace) && n <= |h.trace| && state == s0.(chats := state.chats)
    requires h.StampSince(n, s0.completedAt)
    requires InStep(w0, s0, h.w, state, refs, i, quiet, h.strict)
    requires Account(w0, h.w, h.trace, n, refs, i, replace, quiet)
    requires (quiet ==> SameChats(w0, h.w)) && (h.strict ==> StaysLost(w0, h.w))
    modifies h
    ensures Sound(h.w) && Drifted(w0, h.w) && SameCollection(w0, h.w)
    ensures |h.trace| > |old(h.trace)| && old(h.trace) == h.trace[..|old(h.trace)|] && h.StampSince(n, s0.completedAt)
    ensures (quiet ==> h.Still() && SameChats(w0, h.w)) && (h.strict ==> StaysLost(w0, h.w))
    ensures !outcome.Failed? ==> OnRecord(h.w, state') && state' == s0.(chats := state'.chats)
    ensures !outcome.Failed? ==> InStep(w0, s0, h.w, state', refs, i + 1, quiet, h.strict)
    ensures !outcome.Failed? ==> Account(w0, h.w, h.trace, n, refs, i + 1, replace, quiet)
    ensures replace || AgainOnlySkipped(w0, refs, quiet) ==> outcome.Failed? ==> OrphansGrow(w0, h.w, false)
    ensures CrashConsistent(w0) && (replace ==> AgainHarmless(w0, refs, quiet)) ==>
      CrashConsistent(h.w) && h.KeptThePromiseSince(n)
    ensures h.steady && quiet && Doable(w0, s0, Ids(refs), h.strict) ==> !outcome.Failed?
  {
    hide Sound, CrashConsistent, Drifted, Evolves, Orphans, Spares, AllPresent, Listed, NewEntry, AllListed,
         OneVersionEach, AllFinished, WorkList, Stale, Holds, OrphansGrow, OrphansGrowByOne, InStep, Doable, Lost,
         StaysLost,
         Account, Accountable, Accounted, AgainOnlySkipped, AgainHarmless, UploadedAgain, UpdatedAgain, BrokenSince,
         Uncovered, StepTaken, Again, NotRendered, MayGo;
    ghost var w1, t1 := h.w, h.trace;
    var ref := refs[i];
    var oldFile := if replace then FileOf(state, ref.id) else NO_FILE;
    SoundLive(w0);
    ListedNow(w0, w1, refs, i);
    NextInWorkList(w0, s0, w1, state, refs, i, replace, quiet, h.strict);
    NextIsAccountable(w0, s0, w1, state, refs, i, replace, quiet, h.strict);
    AccountableMeans(w0, w1, state, refs, i, replace, quiet, oldFile);
    PromiseSoFar(w0, w1, t1, n, refs, i, replace, quiet);
    state', outcome := IndexChat(h, state, ref, oldFile, now, quiet);
    DriftedTwice(w0, w1, h.w);
    if h.strict { LostTwice(w0, w1, h.w); }
    forall t | n <= t < |t1| ensures h.trace[t] == t1[t] {
    }
    if outcome.Failed? {
      FailedGrows(w0, w1, h.w, t1, n, refs, i, replace, quiet, oldFile);
      return;
    }
    StepWasTaken(w1, state, h.w, state', ref, oldFile, outcome, quiet);
    StepIsAccounted(w1, h.w, state, h.trace, |t1|, ref, oldFile, outcome, quiet);
    NextWasPresent(w0, s0, w1, state, refs, i, replace, quiet, h.strict, oldFile);
    InStepAdvances(w0, s0, w1, state, h.w, state', refs, i, oldFile, outcome, quiet, h.strict);
    AccountAdvances(w0, s0, w1, state, h.w, t1, h.trace, n, refs, i, replace, quiet, h.strict, oldFile,
                    outcome.Uploaded?);
  }

  lemma ListedNow(w0: World, w: World, refs: seq<ChatRef>, i: nat)
    requires AllListed(w0, refs) && Drifted(w0, w) && i < |refs|
    ensures Listed(w, refs[i])
  {
    AllListedSurvives(w0, w, refs);
  }

  lemma AccountableMeans(w0: World, w: World, s: State, refs: seq<ChatRef>, i: nat, replace: bool, quiet: bool,
                         oldFile: FileId)
    requires i < |refs| && Accountable(w0, w, s, refs, i, replace, quiet, oldFile)
    ensures oldFile == NO_FILE && (replace || AgainOnlySkipped(w0, refs, quiet)) ==> !Holds(w, refs[i].id)
    ensures (replace ==> AgainHarmless(w0, refs, quiet)) ==> MayGo(w, refs[i].id, oldFile)
  {
  }

  lemma PromiseSoFar(w0: World, w: World, trace: seq<World>, n: nat, refs: seq<ChatRef>, i: nat, replace: bool,
                     quiet: bool)
    requires i <= |refs| && Account(w0, w, trace, n, refs, i, replace, quiet)
    ensures CrashConsistent(w0) && (replace ==> AgainHarmless(w0, refs, quiet)) ==>
      CrashConsistent(w) && forall t :: n <= t < |trace| ==> CrashConsistent(trace[t])
  {
  }

  lemma StepWasTaken(a: World, s: State, b: World, s': State, ref: ChatRef, oldFile: FileId, outcome: ChatOutcome,
                     quiet: bool)
    requires Sound(a) && a.disk == s && !outcome.Failed? && (oldFile == NO_FILE || oldFile == FileOf(s, ref.id))
    requires outcome.Uploaded? ==> IsPut(s, s', ref.id)
    requires outcome.Uploaded? ==> NewEntry(a.(kb := a.kb - {oldFile}), b, ref, s'.chats[ref.id])
    requires outcome.Skipped? ==> s' == Drop(s, ref.id) && b.kb == a.kb - {oldFile}
    requires quiet ==> SameChats(a, b) && ref.id in b.live && (outcome.Uploaded? <==> b.live[ref.id].renderable)
    ensures StepTaken(a, s, b, s', ref, oldFile, outcome, quiet)
  {
  }

  lemma StepIsAccounted(a: World, b: World, s: State, trace: seq<World>, from: nat, ref: ChatRef, oldFile: FileId,
                        outcome: ChatOutcome, quiet: bool)
    requires from < |trace| && !outcome.Failed?
    requires !Holds(a, ref.id) || oldFile != NO_FILE ==> OrphansGrowByOne(a, b, outcome)
    requires oldFile == NO_FILE ==> Orphans(a) <= Orphans(b)
    requires outcome.Uploaded? && oldFile == NO_FILE && Holds(a, ref.id) ==> FileOf(s, ref.id) in Orphans(b)
    requires CrashConsistent(a) && MayGo(a, ref.id, oldFile) ==>
      CrashConsistent(b) && forall t :: from <= t < |trace| ==> CrashConsistent(trace[t])
    requires oldFile != NO_FILE ==> Uncovered(a, s, trace[from], oldFile, quiet)
    ensures Accounted(a, b, s, trace, from, ref, oldFile, outcome.Uploaded?, quiet)
  {
  }

  /** On a server that minds, what went was there when the loop began. */
  lemma NextWasPresent(w0: World, s0: State, w: World, s: State, refs: seq<ChatRef>, i: nat, replace: bool, quiet: bool,
                       strict: bool, oldFile: FileId)
    requires Sound(w0) && w0.disk == s0 && Sound(w) && w.disk == s && (quiet ==> SameChats(w0, w))
    requires WorkList(s0, refs, replace) && i < |refs| && InStep(w0, s0, w, s, refs, i, quiet, strict)
    requires oldFile == (if replace then FileOf(s, refs[i].id) else NO_FILE)
    requires (strict && oldFile != NO_FILE ==> oldFile in w.kb)
    ensures strict && !Again(refs, i) && FileOf(s0, refs[i].id) != NO_FILE ==> FileOf(s0, refs[i].id) in w0.kb
  {
    NextInWorkList(w0, s0, w, s, refs, i, replace, quiet, strict);
  }
}
