/** The three stores an index run keeps in step: the operator's live chats, the
    files of the recall collection, and the recall state on disk. */
module RecallWorld {

  type ChatId = nat
  type FileId = nat

  /** The empty file id: no transcript stands for the chat. */
  const NO_FILE: FileId := 0
  /** The empty stamp of a run that never started or never completed. */
  const NEVER: nat := 0

  datatype User = User(id: nat, service: bool)

  ghost predicate EachOnce(users: seq<User>) {
    forall i, j :: 0 <= i < j < |users| ==> users[i].id != users[j].id
  }

  /** Users as a listing of them yields them: none twice. */
  type Users = users: seq<User> | EachOnce(users) witness []

  /** One chat as a listing reports it. */
  datatype ChatRef = ChatRef(id: ChatId, user: nat, updatedAt: int)

  /** One chat as the state on disk records it. */
  datatype ChatState = ChatState(user: nat, updatedAt: int, file: FileId, indexedAt: nat)

  datatype State = State(
    knowledgeId: nat, embeddingModel: string, embeddingDim: int,
    startedAt: nat, completedAt: nat, chats: map<ChatId, ChatState>)

  /** The transcript of one chat at one version; a chat's version is its updated_at. */
  datatype Doc = Doc(chat: ChatId, version: int)

  datatype LiveChat = LiveChat(owner: nat, version: int, renderable: bool)

  /** `born` holds every chat id ever used: the id of a deleted chat never comes back.
      `attaches` counts the times the collection was wired into the served model. */
  datatype World = World(
    users: Users, live: map<ChatId, LiveChat>, born: set<ChatId>,
    collection: nat, kb: map<FileId, Doc>, nextFile: FileId,
    disk: State, attaches: nat)

  predicate HumanId(users: seq<User>, id: nat) {
    exists u :: u in users && u.id == id && !u.service
  }

  predicate KnownId(users: seq<User>, id: nat) {
    exists u :: u in users && u.id == id
  }

  /** What people may do to their chats while the run is between two calls: write new
      ones, touch existing ones, delete. A version fixes the text it stands for. */
  predicate Evolves(users: seq<User>, live: map<ChatId, LiveChat>, born: set<ChatId>,
                    live': map<ChatId, LiveChat>, born': set<ChatId>) {
    && born <= born'
    && live'.Keys <= born'
    && (forall id :: id in live' ==> live'[id].version > 0 && KnownId(users, live'[id].owner))
    && (forall id :: id in live' && id !in live ==> id !in born)
    && (forall id :: id in live' && id in live ==>
          && live'[id].owner == live[id].owner
          && live'[id].version >= live[id].version
          && (live'[id].version == live[id].version ==> live'[id] == live[id]))
  }

  /** Between the two worlds people may have used their chats. */
  predicate Drifted(a: World, b: World) {
    b.users == a.users && Evolves(a.users, a.live, a.born, b.live, b.born)
  }

  predicate SameChats(a: World, b: World) {
    b.live == a.live && b.born == a.born
  }

  /** A step in which only the chats moved. */
  predicate Moved(a: World, b: World) {
    && Evolves(a.users, a.live, a.born, b.live, b.born)
    && b == a.(live := b.live, born := b.born)
  }

  /** The structural facts every reachable world has, whatever failed. */
  ghost predicate Sound(w: World) {
    && (forall f :: f in w.kb ==> 0 < f < w.nextFile && SoundDoc(w, w.kb[f]))
    && 0 < w.nextFile
    && (w.collection == 0 ==> w.kb == map[])
    && (w.disk.knowledgeId == 0 ==> w.disk.chats == map[])
    && (w.disk.knowledgeId != 0 ==> w.disk.knowledgeId == w.collection)
    && w.live.Keys <= w.born
    && w.disk.chats.Keys <= w.born
    && (forall id :: id in w.live ==> w.live[id].version > 0 && KnownId(w.users, w.live[id].owner))
    && SoundEntries(w)
  }

  /** A transcript was rendered from a version its chat has or had. */
  ghost predicate SoundDoc(w: World, d: Doc) {
    && d.chat in w.born
    && (d.chat in w.live ==>
          && d.version <= w.live[d.chat].version
          && (d.version == w.live[d.chat].version ==> w.live[d.chat].renderable))
  }

  ghost predicate SoundEntries(w: World) {
    && (forall id :: id in w.disk.chats ==> SoundEntry(w, id, w.disk.chats[id]))
    && (forall i, j :: i in w.disk.chats && j in w.disk.chats && i != j && w.disk.chats[i].file != NO_FILE
                       ==> w.disk.chats[i].file != w.disk.chats[j].file)
  }

  ghost predicate SoundEntry(w: World, id: ChatId, e: ChatState) {
    && e.file < w.nextFile
    && (e.file == NO_FILE ==> e.updatedAt == 0)
    && (id in w.live ==> e.updatedAt <= w.live[id].version && HumanId(w.users, w.live[id].owner))
    && (e.file in w.kb ==> w.kb[e.file].chat == id && w.kb[e.file].version >= e.updatedAt)
  }

  /** The promise a crash must not break: an entry that claims to be current names a
      file that is there and holds exactly that version of that chat. */
  ghost predicate CrashConsistent(w: World) {
    forall id :: id in w.disk.chats && Current(w, id) ==> Backed(w, id)
  }

  ghost predicate Current(w: World, id: ChatId)
    requires id in w.disk.chats
  {
    && w.disk.chats[id].file != NO_FILE
    && id in w.live && w.disk.chats[id].updatedAt == w.live[id].version
  }

  ghost predicate Backed(w: World, id: ChatId)
    requires id in w.disk.chats
  {
    var e := w.disk.chats[id];
    e.file in w.kb && w.kb[e.file] == Doc(id, e.updatedAt)
  }

  /** The chat's entry is out of date and names a file the collection has lost. */
  ghost predicate Lost(w: World, id: ChatId) {
    id in w.disk.chats && w.disk.chats[id].file != NO_FILE && w.disk.chats[id].file !in w.kb && !Current(w, id)
  }

  ghost predicate StaysLost(a: World, b: World) {
    forall id :: Lost(a, id) ==> Lost(b, id)
  }

  /** No entry that claims `f` claims to be current. */
  ghost predicate NotCurrent(w: World, f: FileId) {
    forall id :: id in w.disk.chats && w.disk.chats[id].file == f ==> !Current(w, id)
  }

  function Claimed(chats: map<ChatId, ChatState>): set<FileId> {
    set id | id in chats :: chats[id].file
  }

  /** Files of the collection that no entry on disk claims: nothing will ever remove them. */
  function Orphans(w: World): set<FileId> {
    w.kb.Keys - Claimed(w.disk.chats)
  }

  // ------------------------------------------------------------------
  // What one effect does to the invariants
  // ------------------------------------------------------------------

  lemma MovedKeeps(a: World, b: World)
    requires Sound(a) && Moved(a, b)
    ensures Sound(b) && Orphans(a) == Orphans(b)
    ensures CrashConsistent(a) ==> CrashConsistent(b)
  {
    forall id | id in b.disk.chats ensures SoundEntry(b, id, b.disk.chats[id]) {
      assert SoundEntry(a, id, a.disk.chats[id]);
      assert id in a.born;
    }
    if CrashConsistent(a) {
      forall id | id in b.disk.chats && Current(b, id) ensures Backed(b, id) {
        assert SoundEntry(a, id, a.disk.chats[id]);
        assert id in a.born && id in a.live;
        assert a.live[id].version == b.live[id].version;
        assert Current(a, id);
      }
    }
  }

  /** Removing a file keeps the promise exactly when the entry that claims it, if any,
      is not current. That is why an update must find its own entry stale. */
  lemma RemovalKeepsThePromiseIff(w: World, f: FileId)
    requires Sound(w) && CrashConsistent(w)
    ensures CrashConsistent(w.(kb := w.kb - {f})) <==> NotCurrent(w, f)
  {
    var w' := w.(kb := w.kb - {f});
    if NotCurrent(w, f) {
      forall id | id in w'.disk.chats && Current(w', id) ensures Backed(w', id) {
        assert Current(w, id) && Backed(w, id);
      }
    } else {
      var id :| id in w.disk.chats && w.disk.chats[id].file == f && Current(w, id);
      assert Current(w', id) && !Backed(w', id);
    }
  }

  lemma RemovalKeepsSound(w: World, f: FileId)
    requires Sound(w)
    ensures Sound(w.(kb := w.kb - {f}))
    ensures f in Claimed(w.disk.chats) || f !in w.kb ==> Orphans(w.(kb := w.kb - {f})) == Orphans(w)
  {
    var w' := w.(kb := w.kb - {f});
    forall id | id in w'.disk.chats ensures SoundEntry(w', id, w'.disk.chats[id]) {
      assert SoundEntry(w, id, w.disk.chats[id]);
    }
  }

  lemma UploadKeeps(w: World, d: Doc)
    requires Sound(w) && w.collection != 0 && SoundDoc(w, d)
    ensures var w' := w.(kb := w.kb[w.nextFile := d], nextFile := w.nextFile + 1);
            && Sound(w') && Orphans(w') == Orphans(w) + {w.nextFile}
            && (CrashConsistent(w) ==> CrashConsistent(w'))
  {
    var w' := w.(kb := w.kb[w.nextFile := d], nextFile := w.nextFile + 1);
    forall id | id in w'.disk.chats ensures SoundEntry(w', id, w'.disk.chats[id]) {
      assert SoundEntry(w, id, w.disk.chats[id]);
    }
    assert w.nextFile !in Claimed(w.disk.chats);
    if CrashConsistent(w) {
      forall id | id in w'.disk.chats && Current(w', id) ensures Backed(w', id) {
        assert Current(w, id) && Backed(w, id);
      }
    }
  }

  /** Rewriting one entry keeps the structural facts when the entry
      written is itself sound and claims no other entry's file. */
  lemma PutEntryKeeps(w: World, id: ChatId, e: ChatState)
    requires Sound(w) && id in w.born && SoundEntry(w, id, e) && w.disk.knowledgeId != 0
    requires forall j :: j in w.disk.chats && j != id && e.file != NO_FILE ==> w.disk.chats[j].file != e.file
    ensures var w' := w.(disk := w.disk.(chats := w.disk.chats[id := e]));
            && Sound(w')
            && (CrashConsistent(w) && (Current(w', id) ==> Backed(w', id)) ==> CrashConsistent(w'))
            && Orphans(w') == Orphans(w) - {e.file}
            + (if Holds(w, id) && w.disk.chats[id].file != e.file then {w.disk.chats[id].file} else {})
  {
    var w' := w.(disk := w.disk.(chats := w.disk.chats[id := e]));
    forall j | j in w'.disk.chats ensures SoundEntry(w', j, w'.disk.chats[j]) {
      if j != id { assert SoundEntry(w, j, w.disk.chats[j]); }
    }
    PutEntryOrphans(w, id, e);
    if CrashConsistent(w) && (Current(w', id) ==> Backed(w', id)) {
      forall j | j in w'.disk.chats && Current(w', j) ensures Backed(w', j) {
        if j != id { assert Current(w, j) && Backed(w, j); }
      }
    }
  }

  /** The chat's entry names a file that is in the collection. */
  ghost predicate Holds(w: World, id: ChatId) {
    id in w.disk.chats && w.disk.chats[id].file in w.kb
  }

  lemma PutEntryOrphans(w: World, id: ChatId, e: ChatState)
    requires Sound(w)
    ensures Orphans(w.(disk := w.disk.(chats := w.disk.chats[id := e])))
         == Orphans(w) - {e.file}
            + (if Holds(w, id) && w.disk.chats[id].file != e.file then {w.disk.chats[id].file} else {})
  {
    var chats, chats' := w.disk.chats, w.disk.chats[id := e];
    forall f | f in w.kb
      ensures f in Claimed(chats') <==> f == e.file || exists j :: j in chats && j != id && chats[j].file == f {
      if f == e.file { assert chats'[id].file == f; }
      if j :| j in chats && j != id && chats[j].file == f { assert chats'[j].file == f; }
    }
  }

  lemma DropEntryKeeps(w: World, id: ChatId)
    requires Sound(w)
    ensures var w' := w.(disk := w.disk.(chats := w.disk.chats - {id}));
            && Sound(w') && (CrashConsistent(w) ==> CrashConsistent(w'))
            && Orphans(w') == Orphans(w) + (if Holds(w, id) then {w.disk.chats[id].file} else {})
  {
    DropEntryOrphans(w, id);
    var w' := w.(disk := w.disk.(chats := w.disk.chats - {id}));
    forall j | j in w'.disk.chats ensures SoundEntry(w', j, w'.disk.chats[j]) {
      assert SoundEntry(w, j, w.disk.chats[j]);
    }
    if CrashConsistent(w) {
      forall j | j in w'.disk.chats && Current(w', j) ensures Backed(w', j) {
        assert Current(w, j) && Backed(w, j);
      }
    }
  }

  lemma DropEntryOrphans(w: World, id: ChatId)
    requires Sound(w)
    ensures Orphans(w.(disk := w.disk.(chats := w.disk.chats - {id})))
         == Orphans(w) + (if Holds(w, id) then {w.disk.chats[id].file} else {})
  {
    var chats, chats' := w.disk.chats, w.disk.chats - {id};
    forall f | f in w.kb ensures f in Claimed(chats') <==> exists j :: j in chats && j != id && chats[j].file == f {
      if j :| j in chats && j != id && chats[j].file == f { assert chats'[j].file == f; }
    }
  }

  /** An entry stays lost while it is left alone and only fresh files arrive. */
  lemma LeftAloneStaysLost(a: World, b: World, but: ChatId)
    requires Sound(a) && Drifted(a, b)
    requires forall id :: id in a.disk.chats && id != but ==> id in b.disk.chats && b.disk.chats[id] == a.disk.chats[id]
    requires forall f :: f in b.kb ==> f in a.kb || f >= a.nextFile
    ensures forall id :: Lost(a, id) && id != but ==> Lost(b, id)
  {
    forall id | Lost(a, id) && id != but ensures Lost(b, id) {
      assert SoundEntry(a, id, a.disk.chats[id]);
      assert id in a.born;
    }
  }
}
