/** The diff that decides what an index run adds, updates and deletes, and the
    pre-mutation guards of a run. */
module RecallPlan {
  import opened RecallWorld

  datatype PlanResult = PlanResult(adds: seq<ChatRef>, updates: seq<ChatRef>, deletes: seq<ChatId>)

  function Ids(refs: seq<ChatRef>): set<ChatId> {
    set r | r in refs :: r.id
  }

  predicate IsAdd(chats: map<ChatId, ChatState>, r: ChatRef) {
    r.id !in chats
  }

  predicate IsUpdate(chats: map<ChatId, ChatState>, r: ChatRef) {
    r.id in chats && r.updatedAt > chats[r.id].updatedAt
  }

  predicate IsWork(chats: map<ChatId, ChatState>, r: ChatRef, adds: bool) {
    if adds then IsAdd(chats, r) else IsUpdate(chats, r)
  }

  /** No chat is listed at two versions; it may still be listed twice. */
  ghost predicate OneVersionEach(refs: seq<ChatRef>) {
    forall r, q :: r in refs && q in refs && q.id == r.id ==> q == r
  }

  /** The references that call for work of one kind, in listing order. */
  function Select(live: seq<ChatRef>, chats: map<ChatId, ChatState>, adds: bool): seq<ChatRef> {
    if live == [] then []
    else
      var r, rest := live[|live| - 1], Select(live[..|live| - 1], chats, adds);
      if IsWork(chats, r, adds) then rest + [r] else rest
  }

  lemma {:induction false} SelectMembers(live: seq<ChatRef>, chats: map<ChatId, ChatState>, adds: bool)
    ensures forall r :: r in Select(live, chats, adds) <==> r in live && IsWork(chats, r, adds)
    ensures forall r ::
      multiset(Select(live, chats, adds))[r] == if IsWork(chats, r, adds) then multiset(live)[r] else 0
    decreases |live|
  {
    if live == [] {
    } else {
      SelectMembers(live[..|live| - 1], chats, adds);
      assert live == live[..|live| - 1] + [live[|live| - 1]];
    }
  }

  ghost predicate SortedById(s: seq<ChatRef>) {
    forall i, j :: 0 <= i < j < |s| ==> s[i].id <= s[j].id
  }

  ghost predicate Ascending(s: seq<nat>) {
    forall i, j :: 0 <= i < j < |s| ==> s[i] < s[j]
  }

  /** What a plan must be: each list sorted, and holding exactly the diff. */
  ghost predicate IsPlan(live: seq<ChatRef>, chats: map<ChatId, ChatState>, p: PlanResult) {
    && SortedById(p.adds) && multiset(p.adds) == multiset(Select(live, chats, true))
    && SortedById(p.updates) && multiset(p.updates) == multiset(Select(live, chats, false))
    && Ascending(p.deletes) && forall id :: id in p.deletes <==> id in chats && id !in Ids(live)
  }

  lemma PlanMembers(live: seq<ChatRef>, chats: map<ChatId, ChatState>, p: PlanResult)
    requires IsPlan(live, chats, p)
    ensures forall r :: r in p.adds <==> r in live && IsAdd(chats, r)
    ensures forall r :: r in p.updates <==> r in live && IsUpdate(chats, r)
    ensures forall id :: id in p.deletes <==> id in chats && id !in Ids(live)
    ensures forall r :: r in p.adds ==> multiset(p.adds)[r] == multiset(live)[r]
    ensures forall r :: r in p.updates ==> multiset(p.updates)[r] == multiset(live)[r]
  {
    SelectMembers(live, chats, true);
    SelectMembers(live, chats, false);
    forall r ensures r in p.adds <==> r in live && IsAdd(chats, r) {
      assert r in p.adds <==> r in multiset(p.adds);
      assert r in Select(live, chats, true) <==> r in multiset(Select(live, chats, true));
    }
    forall r ensures r in p.updates <==> r in live && IsUpdate(chats, r) {
      assert r in p.updates <==> r in multiset(p.updates);
      assert r in Select(live, chats, false) <==> r in multiset(Select(live, chats, false));
    }
  }

  /** What is twice in a list comes again behind some front of it, and the other way round. */
  lemma {:induction false} TwiceIffAgain(refs: seq<ChatRef>, r: ChatRef)
    ensures multiset(refs)[r] >= 2 <==> exists j :: 0 <= j < |refs| && refs[j] == r && r in refs[..j]
    decreases |refs|
  {
    if refs == [] {
    } else {
      var n := |refs| - 1;
      var front := refs[..n];
      assert refs == front + [refs[n]];
      TwiceIffAgain(front, r);
      assert r in front <==> r in multiset(front);
      forall j | 0 <= j < n ensures front[..j] == refs[..j] && front[j] == refs[j] {
      }
      if multiset(front)[r] >= 2 {
        var j :| 0 <= j < n && front[j] == r && r in front[..j];
        assert refs[j] == r && r in refs[..j];
      }
    }
  }

  /** Puts one reference into its place in a sorted list. */
  method InsertRef(refs: seq<ChatRef>, r: ChatRef) returns (out: seq<ChatRef>)
    requires SortedById(refs)
    ensures SortedById(out) && multiset(out) == multiset(refs) + multiset{r}
  {
    var k := |refs|;
    while k > 0 && refs[k-1].id > r.id
      invariant 0 <= k <= |refs|
      invariant forall j :: k <= j < |refs| ==> refs[j].id > r.id
    {
      k := k - 1;
    }
    SpliceRef(refs, k, r);
    SpliceElements(refs, k, r);
    out := Splice(refs, k, r);
  }

  /** The elements of a list with one more put in at position k. */
  function Splice<T>(s: seq<T>, k: nat, x: T): (out: seq<T>)
    requires k <= |s|
    ensures |out| == |s| + 1
    ensures forall i :: 0 <= i < k ==> out[i] == s[i]
    ensures out[k] == x
    ensures forall i :: k < i <= |s| ==> out[i] == s[i-1]
  {
    s[..k] + [x] + s[k..]
  }

  lemma SpliceRef(refs: seq<ChatRef>, k: nat, r: ChatRef)
    requires SortedById(refs) && k <= |refs|
    requires (k > 0 ==> refs[k-1].id <= r.id) && forall j :: k <= j < |refs| ==> refs[j].id > r.id
    ensures SortedById(Splice(refs, k, r))
  {
    hide Splice;
    var out := Splice(refs, k, r);
    assert forall i :: 0 <= i < |out| ==> out[i] == if i < k then refs[i] else if i == k then r else refs[i-1];
  }

  lemma SpliceElements<T>(s: seq<T>, k: nat, x: T)
    requires k <= |s|
    ensures multiset(Splice(s, k, x)) == multiset(s) + multiset{x}
    ensures forall y :: y in Splice(s, k, x) <==> y in s || y == x
  {
    assert s == s[..k] + s[k..];
    assert forall y :: y in Splice(s, k, x) <==> y in multiset(Splice(s, k, x));
  }

  method SortRefs(refs: seq<ChatRef>) returns (out: seq<ChatRef>)
    ensures SortedById(out) && multiset(out) == multiset(refs)
  {
    out := [];
    for i := 0 to |refs|
      invariant SortedById(out) && multiset(out) == multiset(refs[..i])
    {
      assert refs[..i+1] == refs[..i] + [refs[i]];
      out := InsertRef(out, refs[i]);
    }
    assert refs[..|refs|] == refs;
  }

  method InsertId(ids: seq<nat>, x: nat) returns (out: seq<nat>)
    requires Ascending(ids) && x !in ids
    ensures Ascending(out) && forall id :: id in out <==> id in ids || id == x
  {
    var k := |ids|;
    while k > 0 && ids[k-1] > x
      invariant 0 <= k <= |ids|
      invariant forall j :: k <= j < |ids| ==> ids[j] > x
    {
      k := k - 1;
    }
    assert k > 0 ==> ids[k-1] in ids;
    SpliceId(ids, k, x);
    SpliceElements(ids, k, x);
    out := Splice(ids, k, x);
  }

  lemma SpliceId(ids: seq<nat>, k: nat, x: nat)
    requires Ascending(ids) && k <= |ids|
    requires (k > 0 ==> ids[k-1] < x) && (k < |ids| ==> x < ids[k])
    ensures Ascending(Splice(ids, k, x))
  {
    hide Splice;
    var out := Splice(ids, k, x);
    assert forall i :: 0 <= i < |out| ==> out[i] == if i < k then ids[i] else if i == k then x else ids[i-1];
  }

  method SortIds(ids: set<nat>) returns (out: seq<nat>)
    ensures Ascending(out) && forall id :: id in out <==> id in ids
  {
    out := [];
    var rest := ids;
    while rest != {}
      invariant rest <= ids && Ascending(out) && forall id :: id in out <==> id in ids - rest
      decreases rest
    {
      var x :| x in rest;
      out := InsertId(out, x);
      rest := rest - {x};
    }
  }

  /** Diffs the live list against the recorded chats. */
  method Plan(live: seq<ChatRef>, chats: map<ChatId, ChatState>) returns (p: PlanResult)
    ensures IsPlan(live, chats, p)
  {
    var adds, updates, liveIds: set<ChatId> := [], [], {};
    for i := 0 to |live|
      invariant adds == Select(live[..i], chats, true)
      invariant updates == Select(live[..i], chats, false)
      invariant liveIds == Ids(live[..i])
    {
      var ref := live[i];
      assert live[..i+1][..i] == live[..i];
      assert live[..i+1] == live[..i] + [ref];
      liveIds := liveIds + {ref.id};
      if ref.id !in chats {
        adds := adds + [ref];
      } else if ref.updatedAt > chats[ref.id].updatedAt {
        updates := updates + [ref];
      }
    }
    assert live[..|live|] == live;
    var sortedAdds := SortRefs(adds);
    var sortedUpdates := SortRefs(updates);
    var deletes := SortIds(chats.Keys - liveIds);
    p := PlanResult(sortedAdds, sortedUpdates, deletes);
  }

  /** An entry cleared by an interrupted update comes back as work exactly when its
      live chat carries a positive updated_at: a listing that omits the field (zero)
      would leave the chat out of retrieval for good. */
  lemma ClearedEntryRequalifiesIff(live: seq<ChatRef>, chats: map<ChatId, ChatState>, p: PlanResult, r: ChatRef)
    requires IsPlan(live, chats, p) && r in live && r.id in chats
    requires chats[r.id].file == NO_FILE && chats[r.id].updatedAt == 0
    ensures r in p.updates <==> r.updatedAt > 0
    ensures r !in p.adds && r.id !in p.deletes
  {
    PlanMembers(live, chats, p);
  }

  /** What carrying out a plan leaves on record: no deleted chat, and for every added
      or updated chat either the listed version or no entry at all (a recorded skip). */
  ghost predicate CarriesOut(p: PlanResult, before: map<ChatId, ChatState>, after: map<ChatId, ChatState>) {
    && (forall id :: id in after ==> id in before || id in Ids(p.adds))
    && (forall id :: id in p.deletes ==> id !in after)
    && (forall r :: r in p.adds + p.updates && r.id in after ==> after[r.id].updatedAt >= r.updatedAt)
    && (forall id :: id in before && id !in p.deletes && id !in Ids(p.updates) && id !in Ids(p.adds)
          ==> id in after && after[id] == before[id])
  }

  /** Planning again over the same list finds nothing to update or delete, and adds
      only chats the first pass skipped. */
  lemma PlanIsAFixpoint(live: seq<ChatRef>, before: map<ChatId, ChatState>, p: PlanResult,
                        after: map<ChatId, ChatState>, q: PlanResult)
    requires IsPlan(live, before, p) && CarriesOut(p, before, after) && IsPlan(live, after, q)
    ensures (forall r :: r !in q.updates) && (forall id :: id !in q.deletes)
    ensures forall r :: r in q.adds ==> r in p.adds || exists s :: s in p.updates && s.id == r.id
  {
    PlanMembers(live, after, q);
    forall r | r in live ensures !IsUpdate(after, r) {
      PlannedKeepsPace(live, before, p, after, r);
    }
    forall id | id in after ensures id in Ids(live) {
      KeptWasListed(live, before, p, after, id);
    }
    forall r | r in q.adds ensures r in p.adds || exists s :: s in p.updates && s.id == r.id {
      UnrecordedWasPlanned(live, before, p, after, r);
    }
  }

  lemma KeptWasListed(live: seq<ChatRef>, before: map<ChatId, ChatState>, p: PlanResult,
                      after: map<ChatId, ChatState>, id: ChatId)
    requires IsPlan(live, before, p) && CarriesOut(p, before, after) && id in after
    ensures id in Ids(live)
  {
    PlanMembers(live, before, p);
    if id !in before {
      var r :| r in p.adds && r.id == id;
      assert r in live;
    }
  }

  lemma UnrecordedWasPlanned(live: seq<ChatRef>, before: map<ChatId, ChatState>, p: PlanResult,
                             after: map<ChatId, ChatState>, r: ChatRef)
    requires IsPlan(live, before, p) && CarriesOut(p, before, after) && r in live && r.id !in after
    ensures r in p.adds || exists s :: s in p.updates && s.id == r.id
  {
    PlanMembers(live, before, p);
    if r !in p.adds {
      assert r.id in before && r.id in Ids(live) && r.id !in p.deletes;
      assert forall s :: s in p.adds ==> IsAdd(before, s);
      assert r.id in Ids(p.updates);
    }
  }

  lemma PlannedKeepsPace(live: seq<ChatRef>, before: map<ChatId, ChatState>, p: PlanResult,
                         after: map<ChatId, ChatState>, r: ChatRef)
    requires IsPlan(live, before, p) && CarriesOut(p, before, after) && r in live
    ensures !IsUpdate(after, r)
  {
    if r in p.adds || r in p.updates {
      assert r in p.adds + p.updates;
    } else {
      NotPlannedKeepsPace(live, before, p, after, r);
    }
  }

  /** A reference that called for no work still calls for none afterwards, even when
      another reference to the same chat did. */
  lemma NotPlannedKeepsPace(live: seq<ChatRef>, before: map<ChatId, ChatState>, p: PlanResult,
                            after: map<ChatId, ChatState>, r: ChatRef)
    requires IsPlan(live, before, p) && CarriesOut(p, before, after)
    requires r in live && r !in p.adds && r !in p.updates
    ensures !IsUpdate(after, r)
  {
    PlanMembers(live, before, p);
    assert r.id in before && r.updatedAt <= before[r.id].updatedAt;
    if r.id in Ids(p.updates) {
      var s :| s in p.updates && s.id == r.id;
      assert s in p.adds + p.updates && s.updatedAt > before[s.id].updatedAt;
    } else {
      assert r.id !in Ids(p.adds);
    }
  }

  // ------------------------------------------------------------------
  // Guards before the first mutation
  // ------------------------------------------------------------------

  datatype RunInput = RunInput(
    rebuild: bool, sharedAck: bool, memoryOn: bool,
    embeddingModel: string, embeddingDim: int, startedAt: nat, now: nat)

  datatype Skew = SkewUnknown | SkewMatch | SkewMismatch

  function EmbeddingSkew(s: State, model: string, dim: int): Skew {
    if s.embeddingModel == "" then SkewUnknown
    else if s.embeddingModel == model && s.embeddingDim == dim then SkewMatch
    else SkewMismatch
  }

  datatype Prepared = RefusedShared | RefusedSkew | Ready(reset: bool, state: State)

  /** The guards, and the state a run is about to persist. */
  function PrepareIndexRun(input: RunInput, humans: nat, s: State): Prepared {
    if humans > 1 && !input.sharedAck then RefusedShared
    else if !input.rebuild && EmbeddingSkew(s, input.embeddingModel, input.embeddingDim) == SkewMismatch then
      RefusedSkew
    else
      Ready(
        input.rebuild && s.knowledgeId != 0,
        s.(embeddingModel := input.embeddingModel, embeddingDim := input.embeddingDim,
           startedAt := input.startedAt, completedAt := NEVER,
           chats := if input.rebuild then map[] else s.chats))
  }
}
