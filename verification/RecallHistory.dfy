/** What holds over every sequence of index runs, whatever made each of them stop. */
module RecallHistory {
  import opened Options
  import opened RecallWorld
  import opened RecallPlan
  import opened RecallIndex
  import opened RecallRun

  /** One run, with the worlds it began and ended in. */
  datatype Episode = Episode(before: World, after: World, run: Run)

  /** Runs one after the other; between two of them people use their chats. */
  ghost predicate History(es: seq<Episode>) {
    && (forall i :: 0 <= i < |es| ==> Outcome(es[i].before, es[i].after, es[i].run))
    && (forall i :: 0 < i < |es| ==> Moved(es[i-1].after, es[i].before))
  }

  /** No listing overlooked a chat with a current entry, or named one to be updated twice, but
      one that nobody touched any more that had no text or had moved on. */
  ghost predicate NeverMistaken(es: seq<Episode>) {
    forall i :: 0 <= i < |es| ==> Unmistaken(es[i].run)
  }

  ghost predicate EachAddsApart(es: seq<Episode>) {
    forall i :: 0 <= i < |es| ==> AddsApart(es[i].run)
  }

  /** No rebuild was cut short. */
  ghost predicate NoCutRebuild(es: seq<Episode>) {
    forall i :: 0 <= i < |es| ==> es[i].run.input.rebuild ==> es[i].run.passed
  }

  function Failures(es: seq<Episode>): nat {
    if es == [] then 0 else Failures(es[..|es| - 1]) + (if es[|es| - 1].run.passed then 0 else 1)
  }

  /** A host on which recall never ran: everything below starts from here. */
  lemma FreshWorldIsSound(w: World)
    requires w.collection == 0 && w.kb == map[] && w.nextFile > 0
    requires w.disk.knowledgeId == 0 && w.disk.chats == map[] && w.live.Keys <= w.born
    requires forall id :: id in w.live ==> w.live[id].version > 0 && KnownId(w.users, w.live[id].owner)
    ensures Sound(w) && CrashConsistent(w) && Orphans(w) == {} && !Wedged(w)
  {
    assert Claimed(w.disk.chats) == {};
  }

  lemma HistoryFront(es: seq<Episode>)
    requires History(es) && |es| > 0
    ensures History(es[..|es| - 1])
    ensures NeverMistaken(es) ==> NeverMistaken(es[..|es| - 1])
    ensures EachAddsApart(es) ==> EachAddsApart(es[..|es| - 1])
    ensures NoCutRebuild(es) ==> NoCutRebuild(es[..|es| - 1])
  {
    hide Outcome, Unmistaken, AddsApart, Moved;
    var front := es[..|es| - 1];
    assert forall i :: 0 <= i < |front| ==> front[i] == es[i];
  }

  /** Crash consistency is an invariant of every history without a cut-short rebuild. */
  lemma {:induction false} PromiseSurvivesHistory(es: seq<Episode>)
    requires History(es) && NeverMistaken(es) && NoCutRebuild(es) && |es| > 0 && CrashConsistent(es[0].before)
    ensures CrashConsistent(es[|es| - 1].before) && CrashConsistent(es[|es| - 1].after)
    decreases |es|
  {
    hide Unmistaken, OrphanAccount, Wedged, StaysLost, FullyIndexed, Converged;
    var n := |es| - 1;
    var last := es[n];
    assert Outcome(last.before, last.after, last.run) && Unmistaken(last.run);
    if n == 0 {
    } else {
      HistoryFront(es);
      PromiseSurvivesHistory(es[..n]);
      assert Outcome(es[n-1].before, es[n-1].after, es[n-1].run);
      MovedKeeps(es[n-1].after, last.before);
    }
    if last.run.input.rebuild { PassedRebuildIsConsistent(last); }
  }

  lemma PassedRebuildIsConsistent(e: Episode)
    requires Outcome(e.before, e.after, e.run) && Unmistaken(e.run)
    requires e.run.input.rebuild && e.run.passed
    ensures CrashConsistent(e.after)
  {
    hide Unmistaken, AddsApart, OrphanAccount, CrashConsistent;
  }

  /** Resume converges: after any history of runs that failed anywhere, an undisturbed
      admitted run passes exactly when it rebuilds or nothing it must remove is already
      gone from a server that minds; and then exactly the operator's renderable chats are
      indexed, each current and backed by a file that is there. */
  lemma ResumeConverges(es: seq<Episode>)
    requires History(es) && |es| > 0 && CrashConsistent(es[0].before)
    requires NeverMistaken(es[..|es| - 1]) && NoCutRebuild(es[..|es| - 1])
    requires var e := es[|es| - 1]; e.run.steady && e.run.quiet && Admitted(e.before, e.run.input)
    ensures var e := es[|es| - 1]; e.run.passed <==> e.run.input.rebuild || !(e.run.strict && Wedged(e.before))
    ensures es[|es| - 1].run.passed ==> FullyIndexed(es[|es| - 1].after)
  {
    hide OrphanAccount, Unmistaken, AddsApart, StaysLost, Converged, Admitted;
    var n := |es| - 1;
    var e := es[n];
    if n > 0 {
      HistoryFront(es);
      PromiseSurvivesHistory(es[..n]);
      assert Outcome(es[n-1].before, es[n-1].after, es[n-1].run);
      MovedKeeps(es[n-1].after, e.before);
    }
    assert Outcome(e.before, e.after, e.run);
  }

  /** The collection ends up with at most one unclaimed file more for every failed run. */
  lemma {:induction false} OrphansBoundedByFailures(es: seq<Episode>)
    requires History(es) && EachAddsApart(es) && |es| > 0
    ensures |Orphans(es[|es| - 1].after)| <= |Orphans(es[0].before)| + Failures(es)
    decreases |es|
  {
    hide Outcome, Orphans, Moved, AddsApart;
    var n := |es| - 1;
    var last := es[n];
    OneRunOrphans(last);
    if n == 0 {
      assert es[..n] == [];
    } else {
      HistoryFront(es);
      assert Outcome(es[n-1].before, es[n-1].after, es[n-1].run);
      SoundAtTheEnds(es[n-1]);
      OrphansBoundedByFailures(es[..n]);
      MovedKeeps(es[n-1].after, last.before);
      assert Failures(es) == Failures(es[..n]) + (if last.run.passed then 0 else 1);
    }
  }

  lemma SoundAtTheEnds(e: Episode)
    requires Outcome(e.before, e.after, e.run)
    ensures Sound(e.before) && Sound(e.after)
  {
  }

  lemma OneRunAccount(e: Episode)
    requires Outcome(e.before, e.after, e.run) && AddsApart(e.run)
    ensures OrphanAccount(e.before, e.after, e.run.input.rebuild, e.run.passed)
  {
    hide AddsApart, Unmistaken, OrphanAccount;
  }

  lemma AtMostOneMore(a: set<FileId>, b: set<FileId>, f: FileId, none: bool)
    requires b <= a + {f} && (none ==> b <= a)
    ensures |b| <= |a| + (if none then 0 else 1)
  {
    if none {
      SubsetSize(b, a);
    } else {
      SubsetSize(b, a + {f});
      assert |a + {f}| == if f in a then |a| else |a| + 1 by {
        if f in a { assert a + {f} == a; }
      }
    }
  }

  lemma OneRunOrphans(e: Episode)
    requires Outcome(e.before, e.after, e.run) && AddsApart(e.run)
    ensures |Orphans(e.after)| <= |Orphans(e.before)| + (if e.run.passed then 0 else 1)
  {
    OneRunAccount(e);
    hide Outcome, AddsApart, Orphans, OrphansGrow;
    var f: FileId :| Orphans(e.after) <= Orphans(e.before) + {f};
    AtMostOneMore(Orphans(e.before), Orphans(e.after), f, e.run.passed);
  }

  lemma {:induction false} SubsetSize(a: set<FileId>, b: set<FileId>)
    requires a <= b
    ensures |a| <= |b|
    decreases a
  {
    if a == {} {
    } else {
      var x :| x in a;
      SubsetSize(a - {x}, b - {x});
    }
  }

  /** A run cut short between removing a stale file and recording it leaves a wedge. */
  lemma RemovalWedgesIff(w: World, f: FileId)
    requires f in w.kb && f != NO_FILE
    ensures Wedged(w.(kb := w.kb - {f})) <==>
            Wedged(w) || exists id :: id in w.disk.chats && w.disk.chats[id].file == f && !Current(w, id)
  {
    var w' := w.(kb := w.kb - {f});
    assert forall id :: id in w.disk.chats ==> Current(w', id) == Current(w, id);
    if id :| Lost(w, id) {
      assert Lost(w', id);
    }
    if id :| id in w.disk.chats && w.disk.chats[id].file == f && !Current(w, id) {
      assert Lost(w', id);
    }
    if id :| Lost(w', id) {
      assert w.disk.chats[id].file == f || Lost(w, id);
    }
  }

  /** On a server that refuses to remove what it does not hold, a wedge is for ever: no
      run that does not rebuild passes again, whatever else goes right. */
  lemma {:induction false} WedgeIsForEver(es: seq<Episode>)
    requires History(es) && |es| > 0 && Wedged(es[0].before)
    requires forall i :: 0 <= i < |es| ==> es[i].run.strict && !es[i].run.input.rebuild
    ensures Wedged(es[|es| - 1].after) && !es[|es| - 1].run.passed
    decreases |es|
  {
    hide Wedged, Outcome, Moved;
    var n := |es| - 1;
    var last := es[n];
    if n == 0 {
    } else {
      HistoryFront(es);
      assert forall i :: 0 <= i < n ==> es[..n][i] == es[i];
      WedgeIsForEver(es[..n]);
      assert Outcome(es[n-1].before, es[n-1].after, es[n-1].run);
      SoundAtTheEnds(es[n-1]);
      WedgeOutlastsThePause(es[n-1].after, last.before);
    }
    WedgedRunFails(last);
  }

  lemma WedgedRunFails(e: Episode)
    requires Outcome(e.before, e.after, e.run)
    requires Wedged(e.before) && e.run.strict && !e.run.input.rebuild
    ensures Wedged(e.after) && !e.run.passed
  {
    LostMeansWedged(e.before, e.after);
  }

  lemma WedgeOutlastsThePause(a: World, b: World)
    requires Sound(a) && Moved(a, b) && Wedged(a)
    ensures Wedged(b)
  {
    var id :| Lost(a, id);
    assert SoundEntry(a, id, a.disk.chats[id]) && id in a.born;
    assert Lost(b, id);
  }

  // ------------------------------------------------------------------
  // What heals a record a cut-short rebuild left
  // ------------------------------------------------------------------

  /** Without a rebuild, the next undisturbed run against a server that does not mind missing
      files passes, and it has healed the record exactly when every chat behind a hollow
      entry has moved on or is gone. */
  lemma HealedIffMovedOn(a: World, e: Episode)
    requires Sound(a) && Moved(a, e.before) && Outcome(e.before, e.after, e.run)
    requires e.run.steady && e.run.quiet && !e.run.strict && !e.run.input.rebuild && Admitted(e.before, e.run.input)
    ensures e.run.passed
    ensures FullyIndexed(e.after) <==> forall id :: Hollow(a, id) ==>
      !(id in e.before.live && e.before.live[id] == a.live[id])
  {
    hide OrphanAccount, Unmistaken, AddsApart, StaysLost, Converged, Admitted, FullyIndexed;
    assert FullyIndexed(e.after) <==> CrashConsistent(e.before);
    forall id
      ensures Hollow(e.before, id) <==> Hollow(a, id) && id in e.before.live && e.before.live[id] == a.live[id] {
      HollowAfterPause(a, e.before, id);
    }
    assert CrashConsistent(e.before) <==> forall id :: !Hollow(e.before, id);
  }

  lemma HollowAfterPause(a: World, b: World, id: ChatId)
    requires Sound(a) && Moved(a, b)
    ensures Hollow(b, id) <==> Hollow(a, id) && id in b.live && b.live[id] == a.live[id]
  {
    if id in a.disk.chats {
      assert SoundEntry(a, id, a.disk.chats[id]) && id in a.born;
    }
  }

  /** On a server that minds, a hollow entry whose chat has moved on is a wedge. */
  lemma MovedOnIsWedged(a: World, b: World, id: ChatId)
    requires Sound(a) && Moved(a, b) && Hollow(a, id) && a.disk.chats[id].file !in a.kb
    ensures Lost(b, id) <==> !(id in b.live && b.live[id] == a.live[id])
  {
    assert SoundEntry(a, id, a.disk.chats[id]) && id in a.born;
  }

  // ------------------------------------------------------------------
  // A chat listed twice
  // ------------------------------------------------------------------

  /** One chat at version 2, on record at version 1. */
  function OneStaleChat(): World {
    World([User(1, false)], map[7 := LiveChat(1, 2, true)], {7}, 1, map[1 := Doc(7, 1)], 2,
          State(1, "bge", 1024, NEVER, NEVER, map[7 := ChatState(1, 1, 1, 0)]), 0)
  }

  /** A run over this listing, made in this world, that passes with nobody touching a chat any
      more, though somebody did while they were listed. */
  function Rested(input: RunInput, listing: seq<ChatRef>, met: World, strict: bool): Run {
    Run(input, listing, Some(met), true, true, false, true, strict)
  }

  /** Listed twice, because another chat was written between two pages, it is an update carried
      out twice: the run passes, and breaks the promise on its way. Listed once, it does not. */
  lemma TwiceListedStaleChat(input: RunInput, strict: bool)
    ensures var w, r := OneStaleChat(), ChatRef(7, 1, 2);
      && Sound(w) && CrashConsistent(w) && AllListed(w, [r, r]) && OneVersionEach([r, r])
      && Reachable(w, [r, r], strict)
      && !Unmistaken(Rested(input, [r, r], w, strict)) && Unmistaken(Rested(input, [r], w, strict))
  {
    var w, r := OneStaleChat(), ChatRef(7, 1, 2);
    OneStaleChatIsSound();
    hide Sound, CrashConsistent, IsPlan;
    assert multiset([r, r])[r] == 2 && Repeats([r, r], r, r) && r in [r, r];
    assert Ids([r, r]) == {7} == Ids([r]) by {
      assert r in [r] && r in [r, r];
    }
    OnceIsApart(w, w.disk.chats, [r], false, true);
    forall p | IsPlan([r, r], w.disk.chats, p) ensures Possible(w, [r, r], p, strict) {
      PlanMembers([r, r], w.disk.chats, p);
    }
  }

  lemma OneStaleChatIsSound()
    ensures Sound(OneStaleChat()) && CrashConsistent(OneStaleChat()) && HumanId(OneStaleChat().users, 1)
  {
    assert User(1, false) in OneStaleChat().users;
  }

  /** One chat, on record as it is. */
  function OneCurrentChat(): World {
    World([User(1, false)], map[7 := LiveChat(1, 2, true)], {7}, 1, map[1 := Doc(7, 2)], 2,
          State(1, "bge", 1024, NEVER, NEVER, map[7 := ChatState(1, 2, 1, 0)]), 0)
  }

  /** Overlooked, because another chat was deleted between two pages, it is taken for deleted
      itself: the run passes, and breaks the promise on its way. */
  lemma OverlookedCurrentChat(input: RunInput, strict: bool)
    ensures var w := OneCurrentChat();
      && Sound(w) && CrashConsistent(w) && AllListed(w, []) && OneVersionEach([]) && Reachable(w, [], strict)
      && !Unmistaken(Rested(input, [], w, strict))
  {
    var w := OneCurrentChat();
    assert User(1, false) in w.users;
    assert Current(w, 7);
    forall p | IsPlan([], w.disk.chats, p) ensures Possible(w, [], p, strict) {
      PlanMembers([], w.disk.chats, p);
    }
  }

  /** What indexing one listed chat leaves when it uploads. */
  ghost predicate JustIndexed(a: World, b: World, ref: ChatRef) {
    && Sound(a) && Sound(b) && ref.id in b.disk.chats && NewEntry(a, b, ref, b.disk.chats[ref.id])
    && b.disk == Put(a.disk, ref.id, b.disk.chats[ref.id])
  }

  /** An add leaves the orphans alone exactly when its chat had no file yet; listed a
      second time, it orphans the file of the first. */
  lemma AddOrphansIff(a: World, b: World, ref: ChatRef)
    requires JustIndexed(a, b, ref)
    ensures Orphans(b) == Orphans(a) <==> !Holds(a, ref.id)
    ensures Holds(a, ref.id) ==> Orphans(b) == Orphans(a) + {FileOf(a.disk, ref.id)}
  {
    var e := b.disk.chats[ref.id];
    FreshIsUnclaimed(a);
    UploadedIsOrphan(a, b, ref);
    var mid := a.(kb := b.kb, nextFile := b.nextFile);
    PutEntryOrphansOf(mid.kb, a.disk.chats, ref.id, e);
    if Holds(a, ref.id) {
      HeldIsClaimed(a, ref.id);
    }
  }

  /** Before it is recorded, the fresh file is one orphan more. */
  lemma UploadedIsOrphan(a: World, b: World, ref: ChatRef)
    requires JustIndexed(a, b, ref)
    ensures b.kb.Keys - Claimed(a.disk.chats) == Orphans(a) + {b.disk.chats[ref.id].file}
  {
    FreshIsUnclaimed(a);
  }

  lemma PutEntryOrphansOf(kb: map<FileId, Doc>, chats: map<ChatId, ChatState>, id: ChatId, e: ChatState)
    requires forall i, j :: i in chats && j in chats && i != j && chats[i].file in kb ==> chats[i].file != chats[j].file
    ensures kb.Keys - Claimed(chats[id := e])
         == kb.Keys - Claimed(chats) - {e.file}
            + (if id in chats && chats[id].file in kb && chats[id].file != e.file then {chats[id].file} else {})
  {
    var chats' := chats[id := e];
    forall f | f in kb
      ensures f in Claimed(chats') <==> f == e.file || exists j :: j in chats && j != id && chats[j].file == f {
      if f == e.file { assert chats'[id].file == f; }
      if j :| j in chats && j != id && chats[j].file == f { assert chats'[j].file == f; }
    }
  }

  lemma HeldIsClaimed(w: World, id: ChatId)
    requires Holds(w, id)
    ensures FileOf(w.disk, id) in Claimed(w.disk.chats) && FileOf(w.disk, id) !in Orphans(w)
  {
  }
}
