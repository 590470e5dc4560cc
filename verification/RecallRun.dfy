/** One whole `villa recall index` run, from its gate to its completion stamp. */
module RecallRun {
  import opened Options
  import opened RecallWorld
  import opened RecallPlan
  import opened RecallHost
  import opened RecallIndex

  // ------------------------------------------------------------------
  // The chat universe
  // ------------------------------------------------------------------

  /** Where the disk already has the listed version, it has it right. */
  ghost predicate EntryAgrees(w: World, r: ChatRef) {
    r.id in w.disk.chats && w.disk.chats[r.id].updatedAt >= r.updatedAt ==>
      w.disk.chats[r.id].updatedAt == r.updatedAt && w.disk.chats[r.id].file != NO_FILE && Backed(w, r.id)
  }

  ghost predicate EntriesAgree(w: World, refs: seq<ChatRef>) {
    forall r :: r in refs ==> EntryAgrees(w, r)
  }

  /** No entry is current whose chat the listing does not name. */
  ghost predicate NoneOverlooked(w: World, refs: seq<ChatRef>) {
    forall id :: id in w.disk.chats && id !in Ids(refs) ==> !Current(w, id)
  }

  /** The listing is exactly the chats people have right now. */
  ghost predicate ListsExactly(w: World, refs: seq<ChatRef>) {
    && (forall r :: r in refs ==> r.id in w.live && w.live[r.id].version == r.updatedAt && w.live[r.id].owner == r.user)
    && (forall id :: id in Ids(refs) <==> id in w.live && HumanId(w.users, w.live[id].owner))
  }

  /** No reference is older than its chat was when listing began. */
  ghost predicate NoOlderThan(w: World, refs: seq<ChatRef>) {
    forall r :: r in refs && r.id in w.born ==> r.id in w.live && r.updatedAt >= w.live[r.id].version
  }

  lemma NoOlderGrows(w: World, a: World, b: World, refs: seq<ChatRef>, more: seq<ChatRef>, user: nat)
    requires Sound(w) && Sound(a) && NoOlderThan(w, refs) && Drifted(w, a) && Drifted(a, b)
    requires forall r :: r in more ==> Names(a, b, user, r)
    ensures NoOlderThan(w, refs + more)
  {
    forall r | r in more && r.id in w.born ensures r.id in w.live && r.updatedAt >= w.live[r.id].version {
      assert r.id in a.born && r.id in a.live;
    }
  }

  ghost predicate ListsExactlySoFar(w: World, refs: seq<ChatRef>, users: seq<User>) {
    && (forall r :: r in refs ==> r.id in w.live && w.live[r.id].version == r.updatedAt && w.live[r.id].owner == r.user)
    && (forall id :: id in Ids(refs) <==> id in w.live && HumanId(users, w.live[id].owner))
  }

  lemma IdsOfBoth(a: seq<ChatRef>, b: seq<ChatRef>)
    ensures Ids(a + b) == Ids(a) + Ids(b)
  {
  }

  lemma HumanSnoc(users: seq<User>, i: nat, id: nat)
    requires i < |users|
    ensures HumanId(users[..i+1], id) <==> HumanId(users[..i], id) || (users[i].id == id && !users[i].service)
  {
    assert users[..i+1] == users[..i] + [users[i]];
  }

  /** What one user's listing adds. `a` is the world before the call, `b` after. */
  lemma OneUserListed(a: World, b: World, refs: seq<ChatRef>, more: seq<ChatRef>, users: seq<User>, i: nat)
    requires Sound(a) && Sound(b) && Drifted(a, b) && a.disk == b.disk && users == a.users && i < |users|
    requires !users[i].service
    requires forall r :: r in more ==> Names(a, b, users[i].id, r)
    requires AllListed(a, refs)
    ensures AllListed(b, refs + more)
  {
    forall r | r in refs + more ensures Listed(b, r) {
      if r in more {
        assert users[i] in users;
      } else {
        ListedSurvives(a, b, r);
      }
    }
  }

  lemma NotOneBefore(users: seq<User>, i: nat, id: nat)
    requires i < |users| && EachOnce(users) && HumanId(users[..i], id)
    ensures id != users[i].id
  {
    var j :| 0 <= j < i && users[..i][j].id == id;
    assert users[j].id == id;
  }

  lemma OneUserListedExactly(a: World, b: World, refs: seq<ChatRef>, more: seq<ChatRef>, users: seq<User>, i: nat)
    requires SameChats(a, b) && i < |users| && !users[i].service && EachOnce(users)
    requires forall r :: r in more ==> Names(a, b, users[i].id, r)
    requires forall id :: id in b.live && b.live[id].owner == users[i].id ==> id in Ids(more)
    requires ListsExactlySoFar(a, refs, users[..i]) && ListsOnce(refs) && ListsOnce(more)
    ensures ListsExactlySoFar(b, refs + more, users[..i+1]) && ListsOnce(refs + more)
  {
    IdsOfBoth(refs, more);
    forall r | r in refs ensures r.id in b.live && b.live[r.id].owner != users[i].id {
      assert r.id in Ids(refs);
      NotOneBefore(users, i, b.live[r.id].owner);
    }
    forall j, k | 0 <= j < k < |refs + more| ensures (refs + more)[j].id != (refs + more)[k].id {
      if j < |refs| <= k { assert (refs + more)[j] in refs && (refs + more)[k] in more; }
    }
    forall id ensures id in Ids(refs + more) <==> id in b.live && HumanId(users[..i+1], b.live[id].owner) {
      if id in b.live { HumanSnoc(users, i, b.live[id].owner); }
    }
  }

  /** A user whose chats are never indexed changes nothing about what is listed. */
  lemma ServiceUserSkipped(w: World, refs: seq<ChatRef>, users: seq<User>, i: nat)
    requires i < |users| && users[i].service
    ensures ListsExactlySoFar(w, refs, users[..i]) ==> ListsExactlySoFar(w, refs, users[..i+1])
  {
    forall id | id in w.live ensures HumanId(users[..i+1], w.live[id].owner) == HumanId(users[..i], w.live[id].owner) {
      HumanSnoc(users, i, w.live[id].owner);
    }
  }

  /** A reference just taken from the live list agrees with what a kept promise recorded. */
  lemma FreshlyListedAgrees(a: World, b: World, user: nat, r: ChatRef)
    requires Sound(a) && Sound(b) && CrashConsistent(a) && Drifted(a, b) && SameStores(a, b) && Names(a, b, user, r)
    ensures EntryAgrees(b, r)
  {
    if r.id in a.disk.chats && a.disk.chats[r.id].updatedAt >= r.updatedAt {
      assert SoundEntry(a, r.id, a.disk.chats[r.id]);
      assert r.id in a.born && r.id in a.live;
      assert Current(a, r.id) && Backed(a, r.id);
    }
  }

  lemma AgreementKeeps(a: World, b: World, refs: seq<ChatRef>)
    requires a.disk == b.disk && a.kb == b.kb && EntriesAgree(a, refs)
    ensures EntriesAgree(b, refs)
  {
    forall r | r in refs ensures EntryAgrees(b, r) {
      assert EntryAgrees(a, r);
    }
  }

  lemma AgreementGrows(a: World, b: World, refs: seq<ChatRef>, more: seq<ChatRef>, user: nat)
    requires Sound(a) && Sound(b) && CrashConsistent(a) && Drifted(a, b) && SameStores(a, b) && EntriesAgree(b, refs)
    requires forall r :: r in more ==> Names(a, b, user, r)
    ensures EntriesAgree(b, refs + more)
  {
    forall r | r in refs + more ensures EntryAgrees(b, r) {
      if r in more { FreshlyListedAgrees(a, b, user, r); }
    }
  }

  /** The chat was overlooked by one of these calls. */
  ghost predicate Missed(h: Host, id: ChatId, from: nat, to: nat) {
    exists n :: from <= n < to && id in h.overlooked(n)
  }

  /** Of the chats of these users, every recorded one is named, or was overlooked. */
  ghost predicate NamedOrMissed(h: Host, w: World, refs: seq<ChatRef>, users: seq<User>, from: nat, to: nat) {
    forall id :: id in w.live && id in w.disk.chats && HumanId(users, w.live[id].owner) && id !in Ids(refs) ==>
      Missed(h, id, from, to)
  }

  lemma OneUserNamed(h: Host, a: World, b: World, refs: seq<ChatRef>, more: seq<ChatRef>, users: seq<User>, i: nat,
                     from: nat, n: nat)
    requires Sound(a) && Drifted(a, b) && b.disk == a.disk && i < |users| && from <= n
    requires NamedOrMissed(h, a, refs, users[..i], from, n)
    requires forall id :: id in b.live && b.live[id].owner == users[i].id && id !in h.overlooked(n) ==> id in Ids(more)
    ensures NamedOrMissed(h, b, refs + more, users[..i+1], from, n + 1)
  {
    IdsOfBoth(refs, more);
    forall id | id in b.live && id in b.disk.chats && HumanId(users[..i+1], b.live[id].owner) && id !in Ids(refs + more)
      ensures Missed(h, id, from, n + 1) {
      HumanSnoc(users, i, b.live[id].owner);
      if b.live[id].owner != users[i].id {
        assert id in a.born && id in a.live;
        var m :| from <= m < n && id in h.overlooked(m);
        assert id in h.overlooked(m);
      }
    }
  }

  lemma ServiceUserNamed(h: Host, w: World, refs: seq<ChatRef>, users: seq<User>, i: nat, from: nat, to: nat)
    requires i < |users| && users[i].service && NamedOrMissed(h, w, refs, users[..i], from, to)
    ensures NamedOrMissed(h, w, refs, users[..i+1], from, to)
  {
    forall id | id in w.live ensures HumanId(users[..i+1], w.live[id].owner) == HumanId(users[..i], w.live[id].owner) {
      HumanSnoc(users, i, w.live[id].owner);
    }
  }

  /** Every current entry the listing does not name is one of a chat it overlooked. */
  ghost predicate OnlyMissed(h: Host, w: World, refs: seq<ChatRef>, from: nat, to: nat) {
    forall id :: id in w.disk.chats && Current(w, id) && id !in Ids(refs) ==> Missed(h, id, from, to)
  }

  lemma ListingNamesAll(h: Host, w: World, refs: seq<ChatRef>, from: nat, to: nat)
    requires Sound(w) && NamedOrMissed(h, w, refs, w.users, from, to)
    ensures OnlyMissed(h, w, refs, from, to)
  {
    forall id | id in w.disk.chats && Current(w, id) && id !in Ids(refs) ensures Missed(h, id, from, to) {
      assert SoundEntry(w, id, w.disk.chats[id]);
    }
  }

  lemma ListingStarts(w: World)
    requires Sound(w)
    ensures Drifted(w, w) && AllListed(w, []) && ListsOnce([])
    ensures ListsExactlySoFar(w, [], w.users[..0]) && EntriesAgree(w, []) && NoOlderThan(w, [])
  {
  }

  lemma ListingEnds(w: World, refs: seq<ChatRef>)
    requires Sound(w) && ListsExactlySoFar(w, refs, w.users)
    ensures ListsExactly(w, refs) && NoneOverlooked(w, refs)
  {
    forall id | id in w.disk.chats && id !in Ids(refs) ensures id !in w.live {
      assert SoundEntry(w, id, w.disk.chats[id]);
    }
  }

  lemma HumansSnoc(users: seq<User>, i: nat)
    requires i < |users|
    ensures |Humans(users[..i+1])| == |Humans(users[..i])| + (if users[i].service then 0 else 1)
    ensures users[..|users|] == users && Humans(users[..0]) == []
  {
    assert users[..i+1][..i] == users[..i];
  }

  lemma {:induction false} FewerHumans(users: seq<User>, i: nat)
    requires i <= |users|
    ensures |Humans(users[..i])| <= |Humans(users)|
    decreases |users| - i
  {
    if i == |users| {
      assert users[..i] == users;
    } else {
      HumansSnoc(users, i);
      FewerHumans(users, i + 1);
    }
  }

  /** What listing so far has yielded; `w0` is where it began, with call `from`. */
  ghost predicate ListedSoFar(h: Host, w0: World, w: World, live: seq<ChatRef>, users: seq<User>, i: nat, from: nat,
                              to: nat, quiet: bool)
    requires i <= |users|
  {
    && AllListed(w, live) && NoOlderThan(w0, live) && NamedOrMissed(h, w, live, users[..i], from, to)
    && (quiet ==> ListsExactlySoFar(w, live, users[..i]) && ListsOnce(live))
    && (CrashConsistent(w0) ==> EntriesAgree(w, live))
  }

  lemma NoneListed(h: Host, w: World, at: nat, quiet: bool)
    requires Sound(w)
    ensures ListedSoFar(h, w, w, [], w.users, 0, at, at, quiet)
  {
    ListingStarts(w);
  }

  lemma OneUserMore(h: Host, w0: World, a: World, b: World, live: seq<ChatRef>, chats: seq<ChatRef>, users: seq<User>,
                    i: nat, from: nat, n: nat, quiet: bool)
    requires Sound(w0) && Sound(a) && Sound(b) && Drifted(w0, a) && Drifted(a, b) && SameStores(a, b)
    requires users == a.users && EachOnce(users) && i < |users| && !users[i].service && from <= n
    requires (quiet ==> SameChats(a, b)) && (CrashConsistent(w0) ==> CrashConsistent(a))
    requires ListedSoFar(h, w0, a, live, users, i, from, n, quiet)
    requires forall r :: r in chats ==> Names(a, b, users[i].id, r)
    requires forall id :: id in b.live && b.live[id].owner == users[i].id && id !in h.overlooked(n) ==> id in Ids(chats)
    requires quiet ==>
      ListsOnce(chats) && forall id :: id in b.live && b.live[id].owner == users[i].id ==> id in Ids(chats)
    ensures ListedSoFar(h, w0, b, live + chats, users, i + 1, from, n + 1, quiet)
  {
    hide Sound, CrashConsistent, Drifted, Evolves, AllListed, ListsExactlySoFar, NoOlderThan, EntriesAgree,
         NamedOrMissed, Names, ListsOnce;
    OneUserListed(a, b, live, chats, users, i);
    NoOlderGrows(w0, a, b, live, chats, users[i].id);
    OneUserNamed(h, a, b, live, chats, users, i, from, n);
    if quiet { OneUserListedExactly(a, b, live, chats, users, i); }
    if CrashConsistent(w0) {
      AgreementKeeps(a, b, live);
      AgreementGrows(a, b, live, chats, users[i].id);
    }
  }

  /** Lists the chats of every user but the service account, with one call for each. */
  method ListChats(h: Host, users: Users) returns (ok: bool, live: seq<ChatRef>)
    requires Sound(h.w) && users == h.w.users
    modifies h
    ensures Sound(h.w) && Drifted(old(h.w), h.w) && SameStores(old(h.w), h.w)
    ensures |h.trace| >= |old(h.trace)| && old(h.trace) == h.trace[..|old(h.trace)|]
    ensures |h.trace| <= |old(h.trace)| + |Humans(users)| && (ok ==> |h.trace| == |old(h.trace)| + |Humans(users)|)
    ensures h.calls - old(h.calls) == |h.trace| - |old(h.trace)|
    ensures |h.trace| > |old(h.trace)| ==> h.trace[|h.trace| - 1] == h.w
    ensures |h.trace| == |old(h.trace)| ==> h.w == old(h.w)
    ensures h.StampSince(|old(h.trace)|, old(h.w.disk.completedAt))
    ensures CrashConsistent(old(h.w)) ==> CrashConsistent(h.w) && h.KeptThePromiseSince(|old(h.trace)|)
    ensures Orphans(h.w) == Orphans(old(h.w))
    ensures old(h.Still()) ==> h.Still() && SameChats(old(h.w), h.w)
    ensures ok ==> AllListed(h.w, live) && OnlyMissed(h, h.w, live, old(h.calls), h.calls)
    ensures ok && CrashConsistent(old(h.w)) ==> EntriesAgree(h.w, live)
    ensures ok && old(h.Still()) ==> ListsExactly(h.w, live) && NoneOverlooked(h.w, live) && ListsOnce(live)
    ensures NoOlderThan(old(h.w), live)
    ensures h.steady ==> ok
  {
    hide Sound, CrashConsistent, Drifted, Orphans, AllListed, ListsExactlySoFar, NoOlderThan, ListsExactly,
         EntriesAgree, NoneOverlooked, OnlyMissed, ListsOnce, Humans, Heard, Listening, ListedSoFar;
    ghost var w0, t0, at, quiet := h.w, h.trace, h.calls, h.Still();
    ok, live := true, [];
    ListeningStarts(h, w0, t0, users, at, quiet);
    for i := 0 to |users|
      invariant ok && Listening(h, w0, h.w, t0, h.trace, users, i, live, at, h.calls, quiet)
      invariant quiet ==> h.Still()
    {
      HumansSnoc(users, i);
      FewerHumans(users, i + 1);
      if users[i].service {
        ServiceUserListened(h, w0, h.w, t0, h.trace, users, i, live, at, h.calls, quiet);
        continue;
      }
      ghost var w1, t1, n := h.w, h.trace, h.calls;
      var chats;
      ListeningMeans(h, w0, w1, t0, t1, users, i, live, at, n, quiet);
      ok, chats := h.ListUserChats(users[i].id);
      ListenedOnce(h, w0, w1, h.w, t0, t1, users, i, live, at, n, quiet);
      if !ok {
        return;
      }
      ListenedMore(h, w0, w1, h.w, t0, t1, users, i, live, chats, at, n, quiet);
      live := live + chats;
    }
    assert users[..|users|] == users;
    ListeningMeans(h, w0, h.w, t0, h.trace, users, |users|, live, at, h.calls, quiet);
    ListingNamesAll(h, h.w, live, at, h.calls);
    if quiet { ListingEnds(h.w, live); }
  }

  /** The state of a listing that has come as far as user `i`, at call `n`. */
  ghost predicate Listening(h: Host, w0: World, w: World, t0: seq<World>, t: seq<World>, users: Users, i: nat,
                            live: seq<ChatRef>, at: nat, n: nat, quiet: bool)
    requires i <= |users|
  {
    && Sound(w) && Drifted(w0, w) && SameStores(w0, w) && Orphans(w) == Orphans(w0) && w.users == users
    && (quiet ==> SameChats(w0, w)) && (CrashConsistent(w0) ==> CrashConsistent(w))
    && n == at + |Humans(users[..i])| && Heard(w0, w, t0, t, |Humans(users[..i])|)
    && ListedSoFar(h, w0, w, live, users, i, at, n, quiet)
  }

  lemma ListeningStarts(h: Host, w: World, t: seq<World>, users: Users, at: nat, quiet: bool)
    requires Sound(w) && users == w.users
    ensures Listening(h, w, w, t, t, users, 0, [], at, at, quiet) && Drifted(w, w) && NoOlderThan(w, [])
  {
    ListingStarts(w);
    NoneListed(h, w, at, quiet);
    NoHumans(users);
    NothingHeard(w, t);
  }

  lemma ListeningMeans(h: Host, w0: World, w: World, t0: seq<World>, t: seq<World>, users: Users, i: nat,
                       live: seq<ChatRef>, at: nat, n: nat, quiet: bool)
    requires i <= |users| && Listening(h, w0, w, t0, t, users, i, live, at, n, quiet)
    ensures Sound(w) && Drifted(w0, w) && SameStores(w0, w) && Orphans(w) == Orphans(w0) && w.users == users
    ensures (quiet ==> SameChats(w0, w)) && (CrashConsistent(w0) ==> CrashConsistent(w))
    ensures n == at + |Humans(users[..i])| == at + |t| - |t0| && |t0| <= |t| && t0 == t[..|t0|]
    ensures if |t| == |t0| then w == w0 else t[|t| - 1] == w
    ensures forall j :: |t0| <= j < |t| ==> t[j].disk.completedAt == w0.disk.completedAt
    ensures CrashConsistent(w0) ==> forall j :: |t0| <= j < |t| ==> CrashConsistent(t[j])
    ensures AllListed(w, live) && NoOlderThan(w0, live) && NamedOrMissed(h, w, live, users[..i], at, n)
    ensures quiet ==> ListsExactlySoFar(w, live, users[..i]) && ListsOnce(live)
    ensures CrashConsistent(w0) ==> EntriesAgree(w, live)
  {
  }

  lemma ServiceUserListened(h: Host, w0: World, w: World, t0: seq<World>, t: seq<World>, users: Users, i: nat,
                            live: seq<ChatRef>, at: nat, n: nat, quiet: bool)
    requires i < |users| && users[i].service && Listening(h, w0, w, t0, t, users, i, live, at, n, quiet)
    ensures Listening(h, w0, w, t0, t, users, i + 1, live, at, n, quiet)
  {
    HumansSnoc(users, i);
    ServiceUserSkipped(w, live, users, i);
    ServiceUserNamed(h, w, live, users, i, at, n);
  }

  /** One call more; whether it failed or not, nothing but chats has moved. */
  lemma ListenedOnce(h: Host, w0: World, w1: World, w: World, t0: seq<World>, t1: seq<World>, users: Users, i: nat,
                     live: seq<ChatRef>, at: nat, n: nat, quiet: bool)
    requires Sound(w0) && i < |users| && !users[i].service && Listening(h, w0, w1, t0, t1, users, i, live, at, n, quiet)
    requires Sound(w) && Drifted(w1, w) && SameStores(w1, w) && Orphans(w) == Orphans(w1)
    requires (quiet ==> SameChats(w1, w)) && (CrashConsistent(w1) ==> CrashConsistent(w))
    ensures Drifted(w0, w) && SameStores(w0, w) && Orphans(w) == Orphans(w0) && w.users == users
    ensures (quiet ==> SameChats(w0, w)) && (CrashConsistent(w0) ==> CrashConsistent(w)) && NoOlderThan(w0, live)
    ensures Heard(w0, w, t0, t1 + [w], |Humans(users[..i+1])|) && n + 1 == at + |Humans(users[..i+1])|
    ensures var t := t1 + [w];
      |t| == |t0| + |Humans(users[..i+1])| && t0 == t[..|t0|]
      && (forall j :: |t0| <= j < |t| ==> t[j].disk.completedAt == w0.disk.completedAt)
      && (CrashConsistent(w0) ==> forall j :: |t0| <= j < |t| ==> CrashConsistent(t[j]))
  {
    HumansSnoc(users, i);
    SoundLive(w0);
    hide Sound, CrashConsistent, Evolves, Orphans, ListedSoFar;
    SameUsers(w1, w);
    DriftedTwice(w0, w1, w);
    HeardMore(w0, w1, w, t0, t1, |Humans(users[..i])|);
    HeardMeans(w0, w, t0, t1 + [w], |Humans(users[..i])| + 1);
    ListedSoFarMeans(h, w0, w1, live, users, i, at, n, quiet);
  }

  lemma ListenedMore(h: Host, w0: World, w1: World, w: World, t0: seq<World>, t1: seq<World>, users: Users, i: nat,
                     live: seq<ChatRef>, chats: seq<ChatRef>, at: nat, n: nat, quiet: bool)
    requires Sound(w0) && i < |users| && !users[i].service && Listening(h, w0, w1, t0, t1, users, i, live, at, n, quiet)
    requires Sound(w) && Drifted(w1, w) && SameStores(w1, w) && Orphans(w) == Orphans(w1)
    requires (quiet ==> SameChats(w1, w)) && (CrashConsistent(w1) ==> CrashConsistent(w))
    requires forall r :: r in chats ==> Names(w1, w, users[i].id, r)
    requires forall id :: id in w.live && w.live[id].owner == users[i].id && id !in h.overlooked(n) ==> id in Ids(chats)
    requires quiet ==>
      ListsOnce(chats) && forall id :: id in w.live && w.live[id].owner == users[i].id ==> id in Ids(chats)
    ensures Listening(h, w0, w, t0, t1 + [w], users, i + 1, live + chats, at, n + 1, quiet)
  {
    ListenedOnce(h, w0, w1, w, t0, t1, users, i, live, at, n, quiet);
    hide Sound, CrashConsistent, Drifted, Orphans, ListedSoFar, Heard, Names, ListsOnce;
    OneUserMore(h, w0, w1, w, live, chats, users, i, at, n, quiet);
  }

  /** What listing, which writes nothing, has put on the trace: `k` worlds. */
  ghost predicate Heard(w0: World, w: World, t0: seq<World>, t: seq<World>, k: nat) {
    && |t| == |t0| + k && t0 == t[..|t0|] && (if k == 0 then w == w0 else t[|t| - 1] == w)
    && forall i :: |t0| <= i < |t| ==>
         t[i].disk.completedAt == w0.disk.completedAt && (CrashConsistent(w0) ==> CrashConsistent(t[i]))
  }

  lemma NothingHeard(w: World, t: seq<World>)
    ensures Heard(w, w, t, t, 0)
  {
  }

  lemma HeardMore(w0: World, a: World, b: World, t0: seq<World>, t: seq<World>, k: nat)
    requires Heard(w0, a, t0, t, k) && b.disk == w0.disk && (CrashConsistent(w0) ==> CrashConsistent(b))
    ensures Heard(w0, b, t0, t + [b], k + 1)
  {
  }

  lemma HeardMeans(w0: World, w: World, t0: seq<World>, t: seq<World>, k: nat)
    requires Heard(w0, w, t0, t, k)
    ensures |t| == |t0| + k && t0 == t[..|t0|] && (if k == 0 then w == w0 else t[|t| - 1] == w)
    ensures forall i :: |t0| <= i < |t| ==> t[i].disk.completedAt == w0.disk.completedAt
    ensures CrashConsistent(w0) ==> forall i :: |t0| <= i < |t| ==> CrashConsistent(t[i])
  {
  }

  lemma NoHumans(users: seq<User>)
    ensures |Humans(users[..0])| == 0
  {
  }

  lemma ListedSoFarMeans(h: Host, w0: World, w: World, live: seq<ChatRef>, users: seq<User>, i: nat, from: nat, to: nat,
                         quiet: bool)
    requires i <= |users| && ListedSoFar(h, w0, w, live, users, i, from, to, quiet)
    ensures AllListed(w, live) && NoOlderThan(w0, live) && NamedOrMissed(h, w, live, users[..i], from, to)
    ensures quiet ==> ListsExactlySoFar(w, live, users[..i]) && ListsOnce(live)
    ensures CrashConsistent(w0) ==> EntriesAgree(w, live)
  {
  }

  lemma SameUsers(a: World, b: World)
    requires Drifted(a, b)
    ensures a.users == b.users
  {
  }

  // ------------------------------------------------------------------
  // Everything before the first chat
  // ------------------------------------------------------------------

  /** The users whose chats recall would pool. */
  function Humans(users: seq<User>): (humans: seq<User>)
    ensures forall u :: u in humans <==> u in users && !u.service
  {
    if users == [] then []
    else
      var front, last := Humans(users[..|users| - 1]), users[|users| - 1];
      assert users == users[..|users| - 1] + [last];
      if last.service then front else front + [last]
  }

  method HumanUsers(users: seq<User>) returns (humans: seq<User>)
    ensures humans == Humans(users)
  {
    humans := [];
    for i := 0 to |users|
      invariant humans == Humans(users[..i])
    {
      assert users[..i+1][..i] == users[..i];
      if !users[i].service {
        humans := humans + [users[i]];
      }
    }
    assert users[..|users|] == users;
  }

  /** The one place where the disk may claim files that are gone: a rebuild has emptied
      the collection (or part of it) and has not written the state yet. */
  ghost predicate InResetWindow(w0: World, w: World) {
    && w.disk == w0.disk && w.collection == w0.collection
    && w.kb.Keys <= w0.kb.Keys && forall f :: f in w.kb ==> w.kb[f] == w0.kb[f]
  }

  ghost predicate ConsistentOrReset(w0: World, w: World, rebuild: bool) {
    CrashConsistent(w) || (rebuild && InResetWindow(w0, w))
  }

  ghost predicate AllConsistentOrReset(w0: World, trace: seq<World>, from: nat, rebuild: bool) {
    forall i :: from <= i < |trace| ==> ConsistentOrReset(w0, trace[i], rebuild)
  }

  datatype Opening = Closed | Refused | Stopped | Open(state: State)

  /** What the gate and the guards say, before anything was tried. */
  predicate Admitted(w: World, input: RunInput) {
    input.memoryOn && PrepareIndexRun(input, |Humans(w.users)|, w.disk).Ready?
  }

  /** The state a run that got past its opening stands on. */
  ghost predicate Opened(w0: World, w: World, state: State, input: RunInput) {
    && OnRecord(w, state) && state.completedAt == NEVER && state.startedAt == input.startedAt
    && state.embeddingModel == input.embeddingModel && state.embeddingDim == input.embeddingDim
    && w.attaches == w0.attaches && w.nextFile == w0.nextFile
    && state.chats == (if input.rebuild then map[] else w0.disk.chats)
    && w.kb == (if input.rebuild && w0.disk.knowledgeId != 0 then map[] else w0.kb)
  }

  ghost predicate StampsHonestOrGone(w0: World, trace: seq<World>, from: nat) {
    forall i :: from <= i < |trace| ==> trace[i].disk == w0.disk || trace[i].disk.completedAt == NEVER
  }

  lemma OpeningStateKeeps(w: World, state: State)
    requires Sound(w) && state.knowledgeId == w.collection != 0
    requires state.chats == map[] || state.chats == w.disk.chats
    ensures Sound(w.(disk := state))
    ensures state.chats == w.disk.chats ==> Orphans(w.(disk := state)) == Orphans(w)
    ensures state.chats == map[] || (state.chats == w.disk.chats && CrashConsistent(w)) ==>
      CrashConsistent(w.(disk := state))
    ensures Orphans(w.(disk := state)) <= w.kb.Keys
  {
    var w' := w.(disk := state);
    forall id | id in w'.disk.chats ensures SoundEntry(w', id, w'.disk.chats[id]) {
      assert SoundEntry(w, id, w.disk.chats[id]);
    }
    if state.chats == w.disk.chats && CrashConsistent(w) {
      forall id | id in w'.disk.chats && Current(w', id) ensures Backed(w', id) {
        assert Current(w, id);
      }
    }
  }

  lemma ResetShrinksOrphans(w0: World, w: World)
    requires InResetWindow(w0, w)
    ensures Orphans(w) <= Orphans(w0)
  {
  }

  lemma OrphansFollowStores(a: World, b: World)
    requires a.kb == b.kb && a.disk == b.disk
    ensures Orphans(a) == Orphans(b)
  {
  }

  lemma UnrecordedHasNoEntries(w: World)
    requires Sound(w)
    ensures w.disk.knowledgeId == 0 ==> w.disk.chats == map[]
  {
  }

  /** Reachability, token, users and state: four calls that change nothing. */
  method ReachHost(h: Host) returns (ok: bool)
    requires Sound(h.w)
    modifies h
    ensures Sound(h.w) && Drifted(old(h.w), h.w) && SameStores(old(h.w), h.w)
    ensures |h.trace| >= |old(h.trace)| && old(h.trace) == h.trace[..|old(h.trace)|]
    ensures h.calls - old(h.calls) == |h.trace| - |old(h.trace)| <= 4 && (ok ==> |h.trace| == |old(h.trace)| + 4)
    ensures forall i :: |old(h.trace)| <= i < |h.trace| ==> h.trace[i].disk == old(h.w.disk)
    ensures CrashConsistent(old(h.w)) ==> CrashConsistent(h.w) && h.KeptThePromiseSince(|old(h.trace)|)
    ensures Orphans(h.w) == Orphans(old(h.w))
    ensures old(h.Still()) ==> h.Still() && SameChats(old(h.w), h.w)
    ensures h.steady ==> ok
  {
    hide Sound, CrashConsistent, Drifted, Evolves, Orphans;
    ghost var w0 := h.w;
    SoundLive(w0);
    ok := h.Ask();
    if !ok { return; }
    ghost var w1 := h.w;
    ok := h.Ask();
    DriftedTwice(w0, w1, h.w);
    if !ok { return; }
    ghost var w2 := h.w;
    ok := h.Ask();
    DriftedTwice(w0, w2, h.w);
    if !ok { return; }
    ghost var w3 := h.w;
    ok := h.Ask();
    DriftedTwice(w0, w3, h.w);
  }

  /** The calls it takes to open a run: four to reach the host, the reset of a rebuild, one to
      find the collection, and the write. */
  function OpeningCalls(input: RunInput, disk: State): nat {
    if input.rebuild && disk.knowledgeId != 0 then 7 else 6
  }

  /** Gate, reachability, token, users, state, guards, reset, collection, and the write
      that opens the run by clearing the completion stamp. A refusal touches nothing. */
  method OpenRun(h: Host, input: RunInput) returns (opening: Opening, users: Users)
    requires Sound(h.w)
    modifies h
    ensures Sound(h.w) && Drifted(old(h.w), h.w) && users == h.w.users
    ensures |h.trace| >= |old(h.trace)| && old(h.trace) == h.trace[..|old(h.trace)|]
    ensures h.calls - old(h.calls) == |h.trace| - |old(h.trace)| <= OpeningCalls(input, old(h.w.disk))
    ensures opening.Open? ==>
      |h.trace| == |old(h.trace)| + OpeningCalls(input, old(h.w.disk)) && h.trace[|h.trace| - 1] == h.w
    ensures opening.Closed? ==> h.trace == old(h.trace)
    ensures opening.Closed? || opening.Refused? ==> SameStores(old(h.w), h.w)
    ensures opening.Open? ==> Opened(old(h.w), h.w, opening.state, input)
    ensures CrashConsistent(old(h.w)) ==> AllConsistentOrReset(old(h.w), h.trace, |old(h.trace)|, input.rebuild)
    ensures CrashConsistent(old(h.w)) ==> ConsistentOrReset(old(h.w), h.w, input.rebuild)
    ensures opening.Open? && (input.rebuild || CrashConsistent(old(h.w))) ==> CrashConsistent(h.w)
    ensures StampsHonestOrGone(old(h.w), h.trace, |old(h.trace)|)
    ensures h.w.disk == old(h.w.disk) || h.w.disk.completedAt == NEVER
    ensures Orphans(h.w) <= Orphans(old(h.w)) && (!input.rebuild ==> Orphans(h.w) == Orphans(old(h.w)))
    ensures !input.rebuild ==> SameIndex(old(h.w), h.w)
    ensures h.w.attaches == old(h.w.attaches)
    ensures old(h.Still()) ==> h.Still() && SameChats(old(h.w), h.w)
    ensures opening.Open? ==> Admitted(old(h.w), input)
    ensures h.steady && Admitted(old(h.w), input) ==> opening.Open?
  {
    hide Sound, CrashConsistent, Drifted, Evolves, Orphans;
    ghost var w0, n := h.w, |h.trace|;
    users := h.w.users;
    DriftedSelf(w0);
    SoundLive(w0);
    if !input.memoryOn {
      return Closed, users;
    }
    var ok := ReachHost(h);
    SameUsers(w0, h.w);
    if !ok { return Stopped, users; }
    var state := h.w.disk;
    var humans := HumanUsers(users);
    var prepared := PrepareIndexRun(input, |humans|, state);
    if !prepared.Ready? { return Opening.Refused, users; }
    ghost var w4 := h.w;
    opening := EnterCollection(h, input, state, prepared);
    DriftedTwice(w0, w4, h.w);
  }

  /** A rebuild empties the collection first: from here on the disk may claim files that are gone. */
  method ResetFirst(h: Host, reset: bool) returns (ok: bool)
    requires Sound(h.w)
    modifies h
    ensures Sound(h.w) && Drifted(old(h.w), h.w) && SameStores(old(h.w).(kb := h.w.kb), h.w)
    ensures h.trace == if reset then old(h.trace) + [h.w] else old(h.trace)
    ensures h.calls == old(h.calls) + (if reset then 1 else 0)
    ensures !reset ==> ok && h.w == old(h.w)
    ensures InResetWindow(old(h.w), h.w) && Orphans(h.w) <= Orphans(old(h.w))
    ensures ok && reset ==> h.w.kb == map[]
    ensures old(h.Still()) ==> h.Still() && SameChats(old(h.w), h.w)
    ensures h.steady ==> ok
  {
    hide Sound, Evolves, Drifted;
    ok := true;
    DriftedSelf(h.w);
    if reset {
      ghost var w0 := h.w;
      ok := h.ResetKnowledge();
      ResetShrinksOrphans(w0, h.w);
    }
  }

  /** What finding the collection and writing the opening state has done, from `a` by `mid`. */
  ghost predicate PutOnRecord(a: World, mid: World, b: World, begun: State, ok: bool) {
    && Sound(b) && Drifted(a, b) && b.kb == a.kb && b.nextFile == a.nextFile && b.attaches == a.attaches
    && (a.collection != 0 ==> b.collection == a.collection)
    && mid.disk == a.disk && mid.kb == a.kb && (a.collection != 0 ==> mid.collection == a.collection)
    && (b.disk == begun || (!ok && b.disk == a.disk)) && (ok ==> OnRecord(b, begun))
    && (CrashConsistent(a) ==> CrashConsistent(mid) && (b.disk == a.disk ==> CrashConsistent(b)))
    && (begun.chats == map[] || (begun.chats == a.disk.chats && CrashConsistent(a)) ==>
          b.disk == begun ==> CrashConsistent(b))
    && (b.disk == a.disk || begun.chats == a.disk.chats ==> Orphans(b) == Orphans(a)) && Orphans(b) <= a.kb.Keys
  }

  /** Finds the collection and puts the opening state on record under its id. */
  method BeginOnRecord(h: Host, state: State) returns (ok: bool, begun: State, ghost mid: World)
    requires Sound(h.w) && (state.chats == map[] || state.chats == h.w.disk.chats)
    modifies h
    ensures begun == state.(knowledgeId := begun.knowledgeId) && PutOnRecord(old(h.w), mid, h.w, begun, ok)
    ensures h.trace == old(h.trace) + [mid, h.w] || (!ok && h.trace == old(h.trace) + [h.w] && mid == h.w)
    ensures h.trace[|h.trace| - 1] == h.w
    ensures h.calls - old(h.calls) == |h.trace| - |old(h.trace)| && (ok ==> |h.trace| == |old(h.trace)| + 2)
    ensures old(h.Still()) ==> h.Still() && SameChats(old(h.w), h.w)
    ensures h.steady ==> ok
  {
    hide Sound, CrashConsistent, Drifted, Evolves, Orphans;
    ghost var w1 := h.w;
    SoundLive(w1);
    OrphansAreThere(w1);
    var id;
    ok, id := h.EnsureKnowledge();
    mid := h.w;
    begun := state.(knowledgeId := id);
    NoEntriesNoClaims(mid);
    if !ok { return; }
    OpeningStateKeeps(mid, begun);
    ok := h.WriteState(begun);
    DriftedTwice(w1, mid, h.w);
    OrphansFollowStores(mid.(disk := h.w.disk), h.w);
    NoEntriesNoClaims(h.w);
  }

  lemma OrphansAreThere(w: World)
    ensures Orphans(w) <= w.kb.Keys
  {
  }

  lemma NoEntriesNoClaims(w: World)
    ensures w.disk.chats == map[] ==> CrashConsistent(w)
  {
  }

  /** Reset on a rebuild, find the collection, put the opening state on record. */
  method EnterCollection(h: Host, input: RunInput, state: State, prepared: Prepared) returns (opening: Opening)
    requires Sound(h.w) && state == h.w.disk
    requires prepared.Ready? && exists humans :: prepared == PrepareIndexRun(input, humans, state)
    modifies h
    ensures opening.Open? || opening.Stopped?
    ensures Sound(h.w) && Drifted(old(h.w), h.w)
    ensures |h.trace| >= |old(h.trace)| && old(h.trace) == h.trace[..|old(h.trace)|]
    ensures h.calls - old(h.calls) == |h.trace| - |old(h.trace)| <= OpeningCalls(input, state) - 4
    ensures opening.Open? ==>
      |h.trace| == |old(h.trace)| + OpeningCalls(input, state) - 4 && h.trace[|h.trace| - 1] == h.w
    ensures opening.Open? ==> Opened(old(h.w), h.w, opening.state, input)
    ensures CrashConsistent(old(h.w)) ==> AllConsistentOrReset(old(h.w), h.trace, |old(h.trace)|, input.rebuild)
    ensures CrashConsistent(old(h.w)) ==> ConsistentOrReset(old(h.w), h.w, input.rebuild)
    ensures opening.Open? && (input.rebuild || CrashConsistent(old(h.w))) ==> CrashConsistent(h.w)
    ensures StampsHonestOrGone(old(h.w), h.trace, |old(h.trace)|)
    ensures h.w.disk == old(h.w.disk) || h.w.disk.completedAt == NEVER
    ensures Orphans(h.w) <= Orphans(old(h.w)) && (!input.rebuild ==> Orphans(h.w) == Orphans(old(h.w)))
    ensures !input.rebuild ==> SameIndex(old(h.w), h.w)
    ensures h.w.attaches == old(h.w.attaches)
    ensures old(h.Still()) ==> h.Still() && SameChats(old(h.w), h.w)
    ensures h.steady ==> opening.Open?
  {
    hide Sound, CrashConsistent, Drifted, Evolves, Orphans, PutOnRecord, StampsHonestOrGone, AllConsistentOrReset;
    ghost var w0, t0 := h.w, h.trace;
    SoundLive(w0);
    UnrecordedHasNoEntries(w0);
    var ok := ResetFirst(h, prepared.reset);
    ghost var w1, mid := h.w, h.w;
    if !ok {
      OpeningStoppedEarly(w0, w1, t0, h.trace, input);
      return Stopped;
    }
    var begun;
    ok, begun, mid := BeginOnRecord(h, prepared.state);
    DriftedBoth(w0, w1, mid, h.w, begun, ok);
    EnteredSoFar(w0, w1, mid, h.w, t0, h.trace, input, state, prepared, begun, ok);
    opening := if ok then Open(begun) else Stopped;
  }

  lemma DriftedBoth(w0: World, w1: World, mid: World, w: World, begun: State, ok: bool)
    requires w0.live.Keys <= w0.born && Drifted(w0, w1) && PutOnRecord(w1, mid, w, begun, ok)
    ensures Drifted(w0, w) && Sound(w) && w.attaches == w1.attaches
  {
    DriftedTwice(w0, w1, w);
  }

  /** A rebuild that could not empty the collection stops in its window. */
  lemma OpeningStoppedEarly(w0: World, w: World, t0: seq<World>, t: seq<World>, input: RunInput)
    requires input.rebuild && t == t0 + [w] && InResetWindow(w0, w)
    ensures AllConsistentOrReset(w0, t, |t0|, true) && StampsHonestOrGone(w0, t, |t0|)
    ensures ConsistentOrReset(w0, w, true)
  {
  }

  /** The promise, the stamps and the orphans over the whole opening. */
  lemma EnteredSoFar(w0: World, w1: World, mid: World, w: World, t0: seq<World>, t: seq<World>, input: RunInput,
                     state: State, prepared: Prepared, begun: State, ok: bool)
    requires Sound(w0) && (w0.disk.knowledgeId == 0 ==> w0.disk.chats == map[]) && state == w0.disk && prepared.Ready?
    requires exists humans :: prepared == PrepareIndexRun(input, humans, state)
    requires SameStores(w0.(kb := w1.kb), w1) && InResetWindow(w0, w1) && Orphans(w1) <= Orphans(w0)
    requires !prepared.reset ==> w1 == w0
    requires prepared.reset ==> w1.kb == map[]
    requires PutOnRecord(w1, mid, w, begun, ok) && begun == prepared.state.(knowledgeId := begun.knowledgeId)
    requires var front := if prepared.reset then t0 + [w1] else t0;
      t == front + [mid, w] || (t == front + [w] && mid == w)
    ensures CrashConsistent(w0) ==>
      AllConsistentOrReset(w0, t, |t0|, input.rebuild) && ConsistentOrReset(w0, w, input.rebuild)
    ensures ok && (input.rebuild || CrashConsistent(w0)) ==> CrashConsistent(w)
    ensures StampsHonestOrGone(w0, t, |t0|) && (w.disk == w0.disk || w.disk.completedAt == NEVER)
    ensures Orphans(w) <= Orphans(w0) && (!input.rebuild ==> Orphans(w) == Orphans(w0) && SameIndex(w0, w))
    ensures ok ==> Opened(w0, w, begun, input)
  {
    hide Drifted, CrashConsistent, Orphans;
    if prepared.reset { assert w0.collection != 0; }
    if CrashConsistent(w0) {
      assert ConsistentOrReset(w0, w1, input.rebuild) && ConsistentOrReset(w0, mid, input.rebuild);
      assert ConsistentOrReset(w0, w, input.rebuild);
    }
  }

  /** With these files gone and nothing written yet, the promise holds exactly when none of
      them stood for a current entry; once the reset is complete, when no entry was current. */
  lemma WindowBreaksThePromiseIff(w0: World, gone: set<FileId>)
    requires CrashConsistent(w0)
    ensures CrashConsistent(w0.(kb := w0.kb - gone)) <==>
            forall id :: id in w0.disk.chats && Current(w0, id) ==> w0.disk.chats[id].file !in gone
    ensures CrashConsistent(w0.(kb := map[])) <==> forall id :: id in w0.disk.chats ==> !Current(w0, id)
  {
    var part, all := w0.(kb := w0.kb - gone), w0.(kb := map[]);
    forall id | id in w0.disk.chats
      ensures Current(part, id) == Current(w0, id) && Current(all, id) == Current(w0, id)
      ensures Current(w0, id) ==> (Backed(part, id) <==> w0.disk.chats[id].file !in gone) && !Backed(all, id) {
      if Current(w0, id) { assert Backed(w0, id); }
    }
  }

  // ------------------------------------------------------------------
  // Carrying out the plan
  // ------------------------------------------------------------------

  /** Every listed chat is on record at its listed version behind a file that holds it,
      or was skipped and has no entry; no other chat has an entry. */
  ghost predicate Converged(w: World, listing: seq<ChatRef>) {
    && (forall r :: r in listing ==> Reconciled(w.kb, w.disk, r))
    && (forall id :: id in w.disk.chats ==> id in Ids(listing))
  }

  /** Exactly the renderable chats of the operator are indexed, each at the version it
      has, each behind a file that holds exactly that version. */
  ghost predicate FullyIndexed(w: World) {
    && (forall id :: id in w.disk.chats <==>
          id in w.live && HumanId(w.users, w.live[id].owner) && w.live[id].renderable)
    && (forall id :: id in w.disk.chats ==> Current(w, id) && Backed(w, id))
  }

  /** An entry whose chat moved on or is gone names a file the collection has lost. */
  ghost predicate Wedged(w: World) {
    exists id :: Lost(w, id)
  }

  function Removals(p: PlanResult): set<ChatId> {
    SetOf(p.deletes) + Ids(p.updates)
  }

  /** In a quiet run the files a plan removes are exactly those of the stale entries. */
  lemma NothingMissingIffNotWedged(w: World, listing: seq<ChatRef>, p: PlanResult)
    requires Sound(w) && ListsExactly(w, listing) && IsPlan(listing, w.disk.chats, p)
    ensures AllPresent(w, w.disk, Removals(p)) <==> !Wedged(w)
  {
    PlanMembers(listing, w.disk.chats, p);
    forall id | id in w.disk.chats && w.disk.chats[id].file != NO_FILE ensures id in Removals(p) <==> !Current(w, id) {
      StaleIsPlanned(w, listing, p, id);
    }
    forall id | id in Removals(p) ensures id in w.disk.chats {
      if id in Ids(p.updates) {
        var r :| r in p.updates && r.id == id;
        assert IsUpdate(w.disk.chats, r);
      }
    }
    assert forall id :: Lost(w, id) <==>
      id in Removals(p) && FileOf(w.disk, id) != NO_FILE && FileOf(w.disk, id) !in w.kb;
  }

  lemma StaleIsPlanned(w: World, listing: seq<ChatRef>, p: PlanResult, id: ChatId)
    requires Sound(w) && ListsExactly(w, listing) && IsPlan(listing, w.disk.chats, p)
    requires id in w.disk.chats && w.disk.chats[id].file != NO_FILE
    ensures id in Removals(p) <==> !Current(w, id)
  {
    PlanMembers(listing, w.disk.chats, p);
    assert SoundEntry(w, id, w.disk.chats[id]);
    if id in w.live {
      var r :| r in listing && r.id == id;
      assert IsUpdate(w.disk.chats, r) <==> !Current(w, id);
      if id in Ids(p.updates) {
        var u :| u in p.updates && u.id == id;
        assert u in listing && IsUpdate(w.disk.chats, u);
      }
    }
  }

  /** Whatever people do meanwhile, a lost file's entry is in the way of the next plan. */
  lemma LostIsPlanned(w0: World, w: World, listing: seq<ChatRef>, p: PlanResult)
    requires Sound(w0) && w0.disk == w.disk && w0.kb == w.kb && NoOlderThan(w0, listing)
    requires IsPlan(listing, w.disk.chats, p)
    ensures AllPresent(w, w.disk, Removals(p)) ==> !Wedged(w0)
  {
    PlanMembers(listing, w.disk.chats, p);
    forall id | Lost(w0, id) ensures id in Removals(p) {
      assert SoundEntry(w0, id, w0.disk.chats[id]);
      if id in Ids(listing) {
        var r :| r in listing && r.id == id;
        assert id in w0.born && IsUpdate(w.disk.chats, r);
      }
    }
    assert forall id :: Lost(w0, id) ==> FileOf(w.disk, id) != NO_FILE && FileOf(w.disk, id) !in w.kb;
  }

  /** One chat, listed twice. */
  ghost predicate Repeats(listing: seq<ChatRef>, r: ChatRef, q: ChatRef) {
    r in listing && q in listing && r.id == q.id && (r != q || multiset(listing)[r] >= 2)
  }

  /** A chat the plan would work on twice is one that nobody touches any more, and that
      renders to nothing or, if it is an update, has moved on already. */
  ghost predicate WorkApart(w: World, chats: map<ChatId, ChatState>, listing: seq<ChatRef>, adds: bool, quiet: bool) {
    forall r, q :: Repeats(listing, r, q) && IsWork(chats, r, adds) && IsWork(chats, q, adds) ==>
      quiet && (NotRendered(w, r.id) || (!adds && OneVersionEach(listing) && MovedOn(w, r)))
  }

  lemma OnceIsApart(w: World, chats: map<ChatId, ChatState>, listing: seq<ChatRef>, adds: bool, quiet: bool)
    requires ListsOnce(listing)
    ensures WorkApart(w, chats, listing, adds, quiet) && OneVersionEach(listing)
  {
    forall r, q | r in listing && q in listing && r.id == q.id ensures r == q {
      var i :| 0 <= i < |listing| && listing[i] == r;
      var j :| 0 <= j < |listing| && listing[j] == q;
      assert !(i < j) && !(j < i);
    }
    forall r, q ensures !Repeats(listing, r, q) {
      if Repeats(listing, r, q) { OnceIsOnce(listing, r); }
    }
  }

  lemma {:induction false} OnceIsOnce(listing: seq<ChatRef>, r: ChatRef)
    requires ListsOnce(listing)
    ensures multiset(listing)[r] <= 1
    decreases |listing|
  {
    if listing == [] {
    } else {
      var front, last := listing[..|listing| - 1], listing[|listing| - 1];
      assert listing == front + [last];
      OnceIsOnce(front, r);
      if r == last {
        forall i | 0 <= i < |front| ensures front[i] != r { assert listing[i] == front[i]; }
        assert r !in front;
      }
    }
  }

  function ListOf(p: PlanResult, adds: bool): seq<ChatRef> {
    if adds then p.adds else p.updates
  }

  lemma ListMembers(listing: seq<ChatRef>, chats: map<ChatId, ChatState>, p: PlanResult, adds: bool)
    requires IsPlan(listing, chats, p)
    ensures forall r :: r in ListOf(p, adds) <==> r in listing && IsWork(chats, r, adds)
    ensures forall r :: r in ListOf(p, adds) ==> multiset(ListOf(p, adds))[r] == multiset(listing)[r]
  {
    PlanMembers(listing, chats, p);
  }

  lemma ApartMeansHarmless(w: World, listing: seq<ChatRef>, chats: map<ChatId, ChatState>, p: PlanResult, adds: bool,
                           quiet: bool)
    requires IsPlan(listing, chats, p) && WorkApart(w, chats, listing, adds, quiet)
    ensures if adds then AgainOnlySkipped(w, p.adds, quiet) else AgainHarmless(w, p.updates, quiet)
  {
    var refs := ListOf(p, adds);
    ListMembers(listing, chats, p, adds);
    PlannedAgree(listing, chats, p);
    hide IsPlan, NotRendered, OneVersionEach, MovedOn;
    forall j | 0 <= j < |refs| && Again(refs, j)
      ensures quiet && (NotRendered(w, refs[j].id) || (!adds && OneVersionEach(refs) && MovedOn(w, refs[j]))) {
      var r := refs[j];
      var q :| q in refs[..j] && q.id == r.id;
      assert q in refs && r in refs;
      if q == r { TwiceIffAgain(refs, r); }
      assert Repeats(listing, r, q);
    }
  }

  /** While nobody touches a chat, one listed twice that calls for work is worked on again. */
  lemma NotApartMeansAgain(w: World, listing: seq<ChatRef>, chats: map<ChatId, ChatState>, p: PlanResult, adds: bool)
    requires IsPlan(listing, chats, p) && !WorkApart(w, chats, listing, adds, true)
    requires adds || OneVersionEach(listing)
    ensures if adds then !AgainOnlySkipped(w, p.adds, true) else !AgainHarmless(w, p.updates, true)
  {
    var refs := ListOf(p, adds);
    ListMembers(listing, chats, p, adds);
    var r, q :| Repeats(listing, r, q) && IsWork(chats, r, adds) && IsWork(chats, q, adds)
                && !NotRendered(w, r.id) && (adds || !MovedOn(w, r));
    assert r in refs && q in refs;
    hide IsPlan, NotRendered, MovedOn;
    if r == q {
      TwiceIffAgain(refs, r);
      var j :| 0 <= j < |refs| && refs[j] == r && r in refs[..j];
      assert Again(refs, j);
    } else {
      var a :| 0 <= a < |refs| && refs[a] == r;
      var b :| 0 <= b < |refs| && refs[b] == q;
      if a < b {
        assert refs[a] in refs[..b] && Again(refs, b);
      } else {
        assert refs[b] in refs[..a] && Again(refs, a);
      }
    }
  }

  lemma ExactListsAgree(w: World, listing: seq<ChatRef>)
    requires ListsExactly(w, listing)
    ensures OneVersionEach(listing)
  {
  }

  lemma PlannedAgree(listing: seq<ChatRef>, chats: map<ChatId, ChatState>, p: PlanResult)
    requires IsPlan(listing, chats, p)
    ensures OneVersionEach(listing) ==> OneVersionEach(p.updates) && OneVersionEach(p.adds)
  {
    PlanMembers(listing, chats, p);
  }

  lemma HarmlessLater(a: World, b: World, refs: seq<ChatRef>, quiet: bool)
    requires quiet ==> SameChats(a, b)
    ensures AgainOnlySkipped(a, refs, quiet) <==> AgainOnlySkipped(b, refs, quiet)
    ensures AgainHarmless(a, refs, quiet) <==> AgainHarmless(b, refs, quiet)
  {
  }

  lemma UpdatesAreWork(w0: World, w1: World, s1: State, listing: seq<ChatRef>, p: PlanResult)
    requires IsPlan(listing, w0.disk.chats, p)
    requires Spares(w0.kb, w0.disk, w1.kb, s1, SetOf(p.deletes))
    ensures WorkList(s1, p.updates, true)
    ensures AllPresent(w1, s1, Ids(p.updates)) <==> AllPresent(w0, w0.disk, Ids(p.updates))
  {
    PlanMembers(listing, w0.disk.chats, p);
    forall r | r in p.updates ensures IsUpdate(s1.chats, r) && r.id !in SetOf(p.deletes) {
      assert r.id in Ids(listing) && IsUpdate(w0.disk.chats, r);
    }
    forall id | id in Ids(p.updates)
      ensures FileOf(s1, id) == FileOf(w0.disk, id) && (FileOf(s1, id) in w1.kb <==> FileOf(s1, id) in w0.kb) {
      var r :| r in p.updates && r.id == id;
      assert IsUpdate(s1.chats, r);
    }
  }

  lemma AddsAreWork(w0: World, s1: State, w2: World, s2: State, listing: seq<ChatRef>, p: PlanResult)
    requires IsPlan(listing, w0.disk.chats, p)
    requires s1.chats.Keys == w0.disk.chats.Keys - SetOf(p.deletes) && s2.chats.Keys <= s1.chats.Keys + Ids(p.updates)
    ensures WorkList(s2, p.adds, false) && AllPresent(w2, s2, Ids(p.adds))
    ensures Ids(p.adds) !! Ids(p.updates)
  {
    PlanMembers(listing, w0.disk.chats, p);
    forall r | r in p.adds ensures r.id !in s2.chats && r.id !in Ids(p.updates) {
      assert IsAdd(w0.disk.chats, r);
      forall u | u in p.updates ensures u.id != r.id {
        assert IsUpdate(w0.disk.chats, u);
      }
    }
    forall id | id in Ids(p.adds) ensures FileOf(s2, id) == NO_FILE {
      var r :| r in p.adds && r.id == id;
    }
  }

  lemma StaysFinished(a: World, s: State, b: World, s': State, refs: seq<ChatRef>, touched: set<ChatId>, quiet: bool)
    requires AllFinished(a, s, refs, quiet) && Spares(a.kb, s, b.kb, s', touched) && touched !! Ids(refs)
    requires quiet ==> SameChats(a, b)
    ensures AllFinished(b, s', refs, quiet)
  {
    forall r | r in refs ensures Finished(b, s', r, quiet) {
      assert Finished(a, s, r, quiet) && r.id in Ids(refs);
    }
  }

  /** The whole plan, seen from its end. */
  ghost predicate CarriedOut(w0: World, w: World, p: PlanResult, quiet: bool) {
    && Spares(w0.kb, w0.disk, w.kb, w.disk, Removals(p) + Ids(p.adds))
    && AllFinished(w, w.disk, p.updates, quiet) && AllFinished(w, w.disk, p.adds, quiet)
    && (forall id :: id in p.deletes ==> id !in w.disk.chats)
    && (quiet ==> SameChats(w0, w))
  }

  lemma CarriedOutInSteps(w0: World, w1: World, s1: State, w2: World, s2: State, w3: World, listing: seq<ChatRef>,
                          p: PlanResult, quiet: bool)
    requires IsPlan(listing, w0.disk.chats, p)
    requires Spares(w0.kb, w0.disk, w1.kb, s1, SetOf(p.deletes))
    requires s1.chats.Keys == w0.disk.chats.Keys - SetOf(p.deletes)
    requires s2.chats.Keys <= s1.chats.Keys + Ids(p.updates)
    requires Spares(w1.kb, s1, w2.kb, s2, Ids(p.updates)) && AllFinished(w2, s2, p.updates, quiet)
    requires Spares(w2.kb, s2, w3.kb, w3.disk, Ids(p.adds)) && AllFinished(w3, w3.disk, p.adds, quiet)
    requires quiet ==> SameChats(w0, w1) && SameChats(w1, w2) && SameChats(w2, w3)
    ensures CarriedOut(w0, w3, p, quiet)
  {
    AddsAreWork(w0, s1, w2, s2, listing, p);
    StaysFinished(w2, s2, w3, w3.disk, p.updates, Ids(p.adds), quiet);
    SparesTwice(w0.kb, w0.disk, w1.kb, s1, w2.kb, s2, SetOf(p.deletes), Ids(p.updates));
    SparesTwice(w0.kb, w0.disk, w2.kb, s2, w3.kb, w3.disk, Removals(p), Ids(p.adds));
    forall id | id in p.deletes ensures id !in w3.disk.chats {
      DeletedStaysOut(w0, s1, listing, p, id);
    }
  }

  lemma DeletedStaysOut(w0: World, s1: State, listing: seq<ChatRef>, p: PlanResult, id: ChatId)
    requires IsPlan(listing, w0.disk.chats, p) && id in p.deletes
    requires s1.chats.Keys == w0.disk.chats.Keys - SetOf(p.deletes)
    ensures id !in s1.chats && id !in Ids(p.updates) && id !in Ids(p.adds)
  {
    PlanMembers(listing, w0.disk.chats, p);
  }

  lemma CarriedOutConverges(w0: World, w: World, listing: seq<ChatRef>, p: PlanResult, quiet: bool)
    requires IsPlan(listing, w0.disk.chats, p) && OneVersionEach(listing) && CarriedOut(w0, w, p, quiet)
    requires EntriesAgree(w0, listing)
    ensures Converged(w, listing)
  {
    PlanMembers(listing, w0.disk.chats, p);
    forall r | r in listing ensures Reconciled(w.kb, w.disk, r) {
      if r in p.adds || r in p.updates {
        assert Finished(w, w.disk, r, quiet);
      } else {
        UntouchedEntry(w0, w, listing, p, quiet, r);
      }
    }
    forall id | id in w.disk.chats ensures id in Ids(listing) {
      if id in Ids(p.adds) {
        var r :| r in p.adds && r.id == id;
        assert r in listing;
      } else if id in Ids(p.updates) {
        var r :| r in p.updates && r.id == id;
        assert r in listing;
      } else {
        assert id !in p.deletes && id in w0.disk.chats;
      }
    }
  }

  /** A listed chat that called for no work keeps its entry and the file behind it. */
  lemma UntouchedEntry(w0: World, w: World, listing: seq<ChatRef>, p: PlanResult, quiet: bool, r: ChatRef)
    requires IsPlan(listing, w0.disk.chats, p) && OneVersionEach(listing) && CarriedOut(w0, w, p, quiet)
    requires EntryAgrees(w0, r)
    requires r in listing && r !in p.adds && r !in p.updates
    ensures r.id in w0.disk.chats && r.id in w.disk.chats && w.disk.chats[r.id] == w0.disk.chats[r.id]
    ensures Reconciled(w.kb, w.disk, r) && Backed(w0, r.id) && Backed(w, r.id)
  {
    hide OneVersionEach, IsPlan, AllFinished, Removals;
    UnplannedIsApart(w0, listing, p, r);
  }

  lemma UnplannedIsApart(w0: World, listing: seq<ChatRef>, p: PlanResult, r: ChatRef)
    requires IsPlan(listing, w0.disk.chats, p) && OneVersionEach(listing)
    requires r in listing && r !in p.adds && r !in p.updates
    ensures r.id in w0.disk.chats && w0.disk.chats[r.id].updatedAt >= r.updatedAt
    ensures r.id !in Removals(p) + Ids(p.adds)
  {
    hide IsPlan, OneVersionEach;
    PlanMembers(listing, w0.disk.chats, p);
    assert r.id in Ids(listing) && !IsAdd(w0.disk.chats, r) && !IsUpdate(w0.disk.chats, r);
    forall q | q in p.adds || q in p.updates ensures q.id != r.id {
      OneReferenceEach(listing, r, q);
    }
  }

  lemma OneReferenceEach(listing: seq<ChatRef>, r: ChatRef, q: ChatRef)
    requires OneVersionEach(listing) && r in listing && q in listing
    ensures q.id == r.id ==> q == r
  {
  }

  lemma CarriedOutIndexesAll(w0: World, w: World, listing: seq<ChatRef>, p: PlanResult)
    requires Sound(w0) && Sound(w) && w0.users == w.users
    requires IsPlan(listing, w0.disk.chats, p) && CarriedOut(w0, w, p, true)
    requires EntriesAgree(w0, listing) && ListsExactly(w0, listing)
    ensures FullyIndexed(w)
  {
    ExactListsAgree(w0, listing);
    CarriedOutConverges(w0, w, listing, p, true);
    forall id | id in w.disk.chats ensures id in w.live && HumanId(w.users, w.live[id].owner) && w.live[id].renderable {
      var r :| r in listing && r.id == id;
      IndexedAsListed(w0, w, listing, p, r);
    }
    forall id | id in w.disk.chats ensures Current(w, id) && Backed(w, id) {
      var r :| r in listing && r.id == id;
      IndexedAsListed(w0, w, listing, p, r);
    }
    forall id | id in w.live && HumanId(w.users, w.live[id].owner) && w.live[id].renderable ensures id in w.disk.chats {
      assert id in Ids(listing);
      var r :| r in listing && r.id == id;
      RenderableIsRecorded(w0, w, listing, p, r);
    }
  }

  /** A world that has converged keeps the promise, whatever the runs before it left. */
  lemma ConvergedIsConsistent(w: World, listing: seq<ChatRef>)
    requires Sound(w) && Converged(w, listing)
    ensures CrashConsistent(w)
  {
    forall id | id in w.disk.chats && Current(w, id) ensures Backed(w, id) {
      var r :| r in listing && r.id == id;
      assert Reconciled(w.kb, w.disk, r) && SoundDoc(w, w.kb[w.disk.chats[id].file]);
    }
  }

  lemma IndexedAsListed(w0: World, w: World, listing: seq<ChatRef>, p: PlanResult, r: ChatRef)
    requires Sound(w) && w0.users == w.users && SameChats(w0, w) && Converged(w, listing)
    requires ListsExactly(w0, listing) && r in listing && r.id in w.disk.chats
    ensures HumanId(w.users, w0.live[r.id].owner) && Current(w, r.id) && Backed(w, r.id) && w.live[r.id].renderable
  {
    assert r.id in Ids(listing) && Reconciled(w.kb, w.disk, r);
    var e := w.disk.chats[r.id];
    assert SoundDoc(w, w.kb[e.file]);
  }

  lemma RenderableIsRecorded(w0: World, w: World, listing: seq<ChatRef>, p: PlanResult, r: ChatRef)
    requires IsPlan(listing, w0.disk.chats, p) && OneVersionEach(listing) && CarriedOut(w0, w, p, true)
    requires EntriesAgree(w0, listing) && r in listing && r.id in w.live && w.live[r.id].renderable
    ensures r.id in w.disk.chats
  {
    if r in p.adds || r in p.updates {
      assert Finished(w, w.disk, r, true);
    } else {
      UntouchedEntry(w0, w, listing, p, true, r);
    }
  }

  datatype Counts = Counts(added: nat, updated: nat, deleted: nat, skipped: nat)

  lemma DeletesAreRecorded(w: World, listing: seq<ChatRef>, p: PlanResult)
    requires IsPlan(listing, w.disk.chats, p)
    ensures (forall id :: id in p.deletes ==> id in w.disk.chats) && Ascending(p.deletes)
    ensures NoneOverlooked(w, listing) <==> NoneCurrent(w, p.deletes)
  {
    PlanMembers(listing, w.disk.chats, p);
  }

  /** Removing the transcripts a plan deletes keeps the promise, each of them, exactly when
      the listing overlooked no chat with a current entry. */
  lemma DeletesKeepThePromiseIff(w: World, listing: seq<ChatRef>, p: PlanResult)
    requires Sound(w) && CrashConsistent(w) && IsPlan(listing, w.disk.chats, p)
    ensures NoneOverlooked(w, listing) <==>
            forall id :: id in p.deletes ==> CrashConsistent(w.(kb := w.kb - {FileOf(w.disk, id)}))
  {
    PlanMembers(listing, w.disk.chats, p);
    forall id | id in p.deletes
      ensures CrashConsistent(w.(kb := w.kb - {FileOf(w.disk, id)})) <==> !Current(w, id) {
      var f := w.disk.chats[id].file;
      FreshIsUnclaimed(w);
      if f in w.kb {
        RemovalKeepsThePromiseIff(w, f);
      } else {
        assert w.kb - {f} == w.kb;
      }
    }
  }

  lemma PlannedAreListed(w: World, listing: seq<ChatRef>, p: PlanResult, chats: map<ChatId, ChatState>)
    requires AllListed(w, listing) && IsPlan(listing, chats, p)
    ensures AllListed(w, p.updates) && AllListed(w, p.adds)
  {
    PlanMembers(listing, chats, p);
  }

  lemma PlannedAreLive(w: World, listing: seq<ChatRef>, p: PlanResult)
    requires Ids(listing) <= w.live.Keys && IsPlan(listing, w.disk.chats, p)
    ensures Ids(p.updates) <= w.live.Keys && Ids(p.adds) <= w.live.Keys
  {
    PlanMembers(listing, w.disk.chats, p);
    assert forall r :: r in listing ==> r.id in Ids(listing);
  }

  lemma PresentSplit(w: World, s: State, a: set<ChatId>, b: set<ChatId>)
    ensures AllPresent(w, s, a + b) <==> AllPresent(w, s, a) && AllPresent(w, s, b)
  {
  }

  lemma GrewSinceStart(a: World, b: World, c: World, ok: bool)
    requires Orphans(a) == Orphans(b) && OrphansGrow(b, c, ok)
    ensures OrphansGrow(a, c, ok)
  {
  }

  lemma GrewNothing(a: World, b: World)
    requires OrphansGrow(a, b, true)
    ensures Orphans(a) == Orphans(b)
  {
  }

  lemma SameOrphansGrow(a: World, b: World, ok: bool)
    requires Orphans(a) == Orphans(b)
    ensures OrphansGrow(a, b, ok)
  {
    assert Orphans(b) <= Orphans(a) + {NO_FILE};
  }

  lemma StillDoable(a: World, s: State, b: World, s': State, ids: set<ChatId>, strict: bool)
    requires Doable(a, s, ids, strict) && SameChats(a, b)
    requires AllPresent(b, s', ids) <==> AllPresent(a, s, ids)
    ensures Doable(b, s', ids, strict)
  {
  }

  lemma DoableNow(w: World, s: State, ids: set<ChatId>, strict: bool)
    requires ids <= w.live.Keys && (strict ==> AllPresent(w, s, ids))
    ensures Doable(w, s, ids, strict)
  {
  }

  /** Every chat listed is still there, and the server has every file the plan removes, or
      does not mind. */
  ghost predicate Possible(w: World, listing: seq<ChatRef>, p: PlanResult, strict: bool) {
    Ids(listing) <= w.live.Keys && (strict ==> AllPresent(w, w.disk, Removals(p)))
  }

  lemma PossibleSplit(w: World, listing: seq<ChatRef>, p: PlanResult, strict: bool)
    requires Possible(w, listing, p, strict) && IsPlan(listing, w.disk.chats, p)
    ensures Doable(w, w.disk, Ids(p.updates), strict) && Ids(p.adds) <= w.live.Keys
    ensures strict ==> AllPresent(w, w.disk, SetOf(p.deletes))
  {
    PlannedAreLive(w, listing, p);
  }

  /** What carrying out a plan has done, finished or not. */
  ghost predicate Worked(a: World, b: World, state: State, listing: seq<ChatRef>, p: PlanResult, quiet: bool,
                         strict: bool, ok: bool) {
    && (AgainOnlySkipped(a, p.adds, quiet) ==> OrphansGrow(a, b, ok))
    && (ok && quiet && !AgainOnlySkipped(a, p.adds, true) ==> Orphans(b) != Orphans(a))
    && (ok && OneVersionEach(listing) ==> CarriedOut(a, b, p, quiet))
    && (ok && strict ==> AllPresent(a, state, Removals(p)))
    && (strict ==> StaysLost(a, b))
  }

  lemma WorkStopped(a: World, m: World, b: World, state: State, listing: seq<ChatRef>, p: PlanResult, quiet: bool,
                    strict: bool)
    requires Orphans(m) == Orphans(a) && OrphansGrow(m, b, false) && (strict ==> StaysLost(a, m) && StaysLost(m, b))
    ensures Worked(a, b, state, listing, p, quiet, strict, false)
  {
    if strict { LostTwice(a, m, b); }
  }

  /** Deletes and updates are done; the adds were tried. */
  lemma WorkedThrough(w0: World, w1: World, s1: State, w2: World, s2: State, w3: World, listing: seq<ChatRef>,
                      p: PlanResult,
                      quiet: bool, strict: bool, ok: bool)
    requires IsPlan(listing, w0.disk.chats, p) && Orphans(w2) == Orphans(w0)
    requires Spares(w0.kb, w0.disk, w1.kb, s1, SetOf(p.deletes))
    requires s1.chats.Keys == w0.disk.chats.Keys - SetOf(p.deletes)
    requires s2.chats.Keys <= s1.chats.Keys + Ids(p.updates) && Spares(w1.kb, s1, w2.kb, s2, Ids(p.updates))
    requires quiet ==> SameChats(w0, w1) && SameChats(w1, w2) && SameChats(w2, w3)
    requires OneVersionEach(p.updates) ==> AllFinished(w2, s2, p.updates, quiet)
    requires ok ==> Spares(w2.kb, s2, w3.kb, w3.disk, Ids(p.adds))
    requires ok && OneVersionEach(p.adds) ==> AllFinished(w3, w3.disk, p.adds, quiet)
    requires AgainOnlySkipped(w2, p.adds, quiet) ==> OrphansGrow(w2, w3, ok)
    requires ok && quiet && !AgainOnlySkipped(w2, p.adds, true) ==> Orphans(w3) != Orphans(w2)
    requires strict ==> AllPresent(w0, w0.disk, Removals(p)) && StaysLost(w0, w2) && StaysLost(w2, w3)
    ensures Worked(w0, w3, w0.disk, listing, p, quiet, strict, ok)
  {
    hide Orphans, Spares, AllFinished, CarriedOut, AllPresent, StaysLost, OrphansGrow, AgainOnlySkipped,
         OneVersionEach, IsPlan;
    HarmlessLater(w0, w2, p.adds, quiet);
    PlannedAgree(listing, w0.disk.chats, p);
    if AgainOnlySkipped(w0, p.adds, quiet) { GrewSinceStart(w0, w2, w3, ok); }
    if strict { LostTwice(w0, w2, w3); }
    if ok && OneVersionEach(listing) {
      CarriedOutInSteps(w0, w1, s1, w2, s2, w3, listing, p, quiet);
    }
  }

  /** With the deletes done, the updates can be begun. */
  lemma UpdatesAreDue(w0: World, w1: World, s1: State, listing: seq<ChatRef>, p: PlanResult, quiet: bool,
                      strict: bool)
    requires IsPlan(listing, w0.disk.chats, p) && AllListed(w0, listing) && Drifted(w0, w1)
    requires Spares(w0.kb, w0.disk, w1.kb, s1, SetOf(p.deletes)) && (quiet ==> SameChats(w0, w1))
    ensures AllListed(w1, p.updates) && WorkList(s1, p.updates, true)
    ensures AllPresent(w1, s1, Ids(p.updates)) <==> AllPresent(w0, w0.disk, Ids(p.updates))
    ensures AgainHarmless(w0, p.updates, quiet) <==> AgainHarmless(w1, p.updates, quiet)
    ensures quiet && Possible(w0, listing, p, strict) ==> Doable(w1, s1, Ids(p.updates), strict)
  {
    hide *;
    AllListedSurvives(w0, w1, listing);
    PlannedAreListed(w1, listing, p, w0.disk.chats);
    HarmlessLater(w0, w1, p.updates, quiet);
    UpdatesAreWork(w0, w1, s1, listing, p);
    if quiet && Possible(w0, listing, p, strict) {
      PossibleSplit(w0, listing, p, strict);
      StillDoable(w0, w0.disk, w1, s1, Ids(p.updates), strict);
    }
  }

  /** With the updates done, so can the adds. */
  lemma AddsAreDue(w0: World, s1: State, w2: World, s2: State, listing: seq<ChatRef>, p: PlanResult, quiet: bool,
                   strict: bool)
    requires IsPlan(listing, w0.disk.chats, p) && AllListed(w0, listing) && Drifted(w0, w2)
    requires s1.chats.Keys == w0.disk.chats.Keys - SetOf(p.deletes) && s2.chats.Keys <= s1.chats.Keys + Ids(p.updates)
    requires quiet ==> SameChats(w0, w2)
    ensures AllListed(w2, p.adds) && WorkList(s2, p.adds, false)
    ensures quiet && Possible(w0, listing, p, strict) ==> Doable(w2, s2, Ids(p.adds), strict)
  {
    hide AllListed, IsPlan, Drifted, WorkList, Possible, Doable;
    AllListedSurvives(w0, w2, listing);
    PlannedAreListed(w2, listing, p, w0.disk.chats);
    AddsAreWork(w0, s1, w2, s2, listing, p);
    if quiet && Possible(w0, listing, p, strict) {
      PossibleSplit(w0, listing, p, strict);
      DoableNow(w2, s2, Ids(p.adds), strict);
    }
  }

  /** Carrying the plan out keeps the promise: it takes no chat for deleted while its entry
      is current, and it updates none twice, but one that nobody touches any more and that
      renders to nothing or has moved on. */
  ghost predicate Harmless(w: World, listing: seq<ChatRef>, p: PlanResult, quiet: bool) {
    NoneOverlooked(w, listing) && AgainHarmless(w, p.updates, quiet)
  }

  lemma HarmlessMeans(w: World, listing: seq<ChatRef>, p: PlanResult, quiet: bool)
    requires IsPlan(listing, w.disk.chats, p)
    ensures Harmless(w, listing, p, quiet) <==> NoneCurrent(w, p.deletes) && AgainHarmless(w, p.updates, quiet)
    ensures Harmless(w, listing, p, true) <==> NoneCurrent(w, p.deletes) && AgainHarmless(w, p.updates, true)
  {
    DeletesAreRecorded(w, listing, p);
  }

  /** The deletes of a plan made in `w0` are done. */
  ghost predicate DeletesDone(w0: World, w: World, s: State, p: PlanResult, quiet: bool, strict: bool) {
    && Drifted(w0, w) && SameCollection(w0, w) && Orphans(w) == Orphans(w0) && (quiet ==> SameChats(w0, w))
    && s == w0.disk.(chats := s.chats) && s.chats.Keys == w0.disk.chats.Keys - SetOf(p.deletes)
    && Spares(w0.kb, w0.disk, w.kb, s, SetOf(p.deletes))
    && (strict ==> AllPresent(w0, w0.disk, SetOf(p.deletes)) && StaysLost(w0, w))
  }

  lemma DeletesDoneMeans(w0: World, w: World, s: State, p: PlanResult, quiet: bool, strict: bool)
    requires DeletesDone(w0, w, s, p, quiet, strict)
    ensures Drifted(w0, w) && SameCollection(w0, w) && Orphans(w) == Orphans(w0) && (quiet ==> SameChats(w0, w))
    ensures s == w0.disk.(chats := s.chats) && s.chats.Keys == w0.disk.chats.Keys - SetOf(p.deletes)
    ensures Spares(w0.kb, w0.disk, w.kb, s, SetOf(p.deletes))
    ensures strict ==> AllPresent(w0, w0.disk, SetOf(p.deletes)) && StaysLost(w0, w)
  {
  }

  /** Updates, then adds; the first failure ends the run. */
  method IndexPlanned(h: Host, state: State, listing: seq<ChatRef>, p: PlanResult, now: nat, ghost quiet: bool,
                      ghost w0: World)
    returns (state': State, ok: bool, counts: Counts)
    requires OnRecord(h.w, state) && (quiet ==> h.Still()) && Sound(w0) && AllListed(w0, listing)
    requires IsPlan(listing, w0.disk.chats, p) && DeletesDone(w0, h.w, state, p, quiet, h.strict)
    modifies h
    ensures Sound(h.w) && Drifted(w0, h.w) && SameCollection(w0, h.w)
    ensures Onward(old(h.trace), h.trace, state.completedAt,
                   CrashConsistent(old(h.w)) && AgainHarmless(w0, p.updates, quiet))
    ensures !ok ==> |h.trace| > |old(h.trace)|
    ensures ok ==> OnRecord(h.w, state') && state' == state.(chats := state'.chats)
    ensures ok ==> counts.added + counts.updated + counts.skipped == |p.adds| + |p.updates| && counts.deleted == 0
    ensures quiet ==> h.Still() && SameChats(w0, h.w)
    ensures Worked(w0, h.w, w0.disk, listing, p, quiet, h.strict, ok)
    ensures CrashConsistent(old(h.w)) && AgainHarmless(w0, p.updates, quiet) ==> CrashConsistent(h.w)
    ensures ok && quiet && OneVersionEach(p.updates) && !AgainHarmless(w0, p.updates, true) ==>
      BrokenSince(h.trace, |old(h.trace)|)
    ensures h.steady && quiet && Possible(w0, listing, p, h.strict) ==> ok
  {
    hide Sound, CrashConsistent, Drifted, Evolves, Orphans, Spares, AllPresent, Listed, AllListed, OneVersionEach,
         IsPlan, Worked, DeletesDone,
         AllFinished, WorkList, Doable, CarriedOut, ListsExactly, OrphansGrow, Possible, HumanId,
         Lost, StaysLost, AgainOnlySkipped, AgainHarmless, BrokenSince, Onward;
    ghost var w1, s1, t1 := h.w, state, h.trace;
    ghost var kept := CrashConsistent(w1) && AgainHarmless(w0, p.updates, quiet);
    counts := Counts(0, 0, 0, 0);
    SoundLive(w0);
    DeletesDoneMeans(w0, w1, s1, p, quiet, h.strict);
    UpdatesAreDue(w0, w1, s1, listing, p, quiet, h.strict);
    var uploaded, skipped;
    state', ok, uploaded, skipped := IndexAll(h, state, p.updates, true, now, quiet);
    counts := counts.(updated := uploaded, skipped := skipped);
    ghost var w2, s2, t2 := h.w, state', h.trace;
    OnwardOn(t1, t1, t2, state.completedAt, AgainHarmless(w1, p.updates, quiet) && CrashConsistent(w1), kept);
    DriftedTwice(w0, w1, w2);
    if !ok {
      WorkStopped(w0, w1, w2, w0.disk, listing, p, quiet, h.strict);
      return;
    }
    GrewNothing(w1, w2);
    if h.strict { LostTwice(w0, w1, w2); }
    AddsAreDue(w0, s1, w2, s2, listing, p, quiet, h.strict);
    var more;
    state', ok, uploaded, more := IndexAll(h, state', p.adds, false, now, quiet);
    counts := counts.(added := uploaded, skipped := skipped + more);
    DriftedTwice(w0, w2, h.w);
    OnwardOn(t1, t2, h.trace, state.completedAt, CrashConsistent(w2), kept);
    BrokenFirst(t2, h.trace, h.trace, |t1|);
    PresentSplit(w0, w0.disk, SetOf(p.deletes), Ids(p.updates));
    WorkedThrough(w0, w1, s1, w2, s2, h.w, listing, p, quiet, h.strict, ok);
  }

  /** Deletes first, then updates, then adds; the first failure ends the run. */
  method Execute(h: Host, state: State, listing: seq<ChatRef>, p: PlanResult, now: nat, ghost quiet: bool)
    returns (state': State, ok: bool, counts: Counts)
    requires OnRecord(h.w, state) && AllListed(h.w, listing) && (quiet ==> h.Still())
    requires IsPlan(listing, state.chats, p)
    modifies h
    ensures Sound(h.w) && Drifted(old(h.w), h.w) && SameCollection(old(h.w), h.w)
    ensures Onward(old(h.trace), h.trace, state.completedAt,
                   CrashConsistent(old(h.w)) && Harmless(old(h.w), listing, p, quiet))
    ensures !ok ==> |h.trace| > |old(h.trace)|
    ensures ok ==> OnRecord(h.w, state') && state' == state.(chats := state'.chats)
    ensures ok ==>
      counts.added + counts.updated + counts.skipped == |p.adds| + |p.updates| && counts.deleted == |p.deletes|
    ensures quiet ==> h.Still() && SameChats(old(h.w), h.w)
    ensures Worked(old(h.w), h.w, state, listing, p, quiet, h.strict, ok)
    ensures CrashConsistent(old(h.w)) && Harmless(old(h.w), listing, p, quiet) ==> CrashConsistent(h.w)
    ensures ok && quiet && OneVersionEach(p.updates) && !Harmless(old(h.w), listing, p, true) ==>
      BrokenSince(h.trace, |old(h.trace)|)
    ensures h.steady && quiet && Possible(old(h.w), listing, p, h.strict) ==> ok
  {
    hide Sound, CrashConsistent, Drifted, Evolves, Orphans, Spares, AllPresent, Listed, AllListed, OneVersionEach,
         IsPlan, Worked, NoneOverlooked, Possible, Lost, StaysLost, Current, NoneCurrent,
         AgainHarmless, BrokenSince, Onward, Harmless;
    ghost var w0, t0 := h.w, h.trace;
    ghost var kept := CrashConsistent(w0) && Harmless(w0, listing, p, quiet);
    counts := Counts(0, 0, 0, 0);
    DeletesAreRecorded(w0, listing, p);
    HarmlessMeans(w0, listing, p, quiet);
    if Possible(w0, listing, p, h.strict) {
      PossibleSplit(w0, listing, p, h.strict);
    }
    var deleted;
    state', ok, deleted := DeleteAll(h, state, p.deletes, quiet);
    ghost var w1, t1 := h.w, h.trace;
    OnwardOn(t0, t0, t1, state.completedAt, NoneCurrent(w0, p.deletes) && CrashConsistent(w0), kept);
    if !ok {
      SameOrphansGrow(w1, w1, false);
      LostSelf(w1);
      WorkStopped(w0, w1, w1, state, listing, p, quiet, h.strict);
      return;
    }
    state', ok, counts := IndexPlanned(h, state', listing, p, now, quiet, w0);
    counts := counts.(deleted := deleted);
    OnwardOn(t0, t1, h.trace, state.completedAt, AgainHarmless(w0, p.updates, quiet) && CrashConsistent(w1), kept);
    BrokenLater(t1, h.trace, h.trace, |t0|);
    BrokenFirst(t1, h.trace, h.trace, |t0|);
  }

  lemma OnwardOn(t0: seq<World>, t1: seq<World>, t2: seq<World>, stamp: nat, since: bool, kept: bool)
    requires Onward(t1, t2, stamp, since) && (kept ==> since) && (t1 == t0 || Onward(t0, t1, stamp, kept))
    ensures Onward(t0, t2, stamp, kept) && |t0| <= |t1| <= |t2| && t1 == t2[..|t1|]
  {
  }

  lemma BrokenFirst(t1: seq<World>, t2: seq<World>, t3: seq<World>, n: nat)
    requires n <= |t1| <= |t2| <= |t3| && t2 == t3[..|t2|] && t1 == t2[..|t1|]
    ensures BrokenSince(t1, n) ==> BrokenSince(t3, n)
  {
    if BrokenSince(t1, n) {
      var t :| n <= t < |t1| && !CrashConsistent(t1[t]);
      assert t2[t] == t1[t] && t3[t] == t2[t];
    }
  }

  /** What was broken on the way stays on the record. */
  lemma BrokenLater(t1: seq<World>, t2: seq<World>, t3: seq<World>, n: nat)
    requires n <= |t1| <= |t2| <= |t3| && t2 == t3[..|t2|]
    ensures BrokenSince(t2, |t1|) ==> BrokenSince(t3, n)
  {
    if BrokenSince(t2, |t1|) {
      var t :| |t1| <= t < |t2| && !CrashConsistent(t2[t]);
      assert t3[t] == t2[t];
    }
  }

  // ------------------------------------------------------------------
  // The whole run
  // ------------------------------------------------------------------

  datatype Result = GateClosed | RunRefused | Blocked | IncompletePass | Passed(counts: Counts, indexed: nat)

  lemma StampKeeps(w: World, stamp: nat)
    requires Sound(w)
    ensures var w' := w.(disk := w.disk.(completedAt := stamp));
            Sound(w') && Orphans(w') == Orphans(w) && (CrashConsistent(w) ==> CrashConsistent(w'))
  {
    var w' := w.(disk := w.disk.(completedAt := stamp));
    forall id | id in w'.disk.chats ensures SoundEntry(w', id, w'.disk.chats[id]) {
      assert SoundEntry(w, id, w.disk.chats[id]);
    }
    if CrashConsistent(w) {
      forall id | id in w'.disk.chats && Current(w', id) ensures Backed(w', id) {
        assert Current(w, id);
      }
    }
  }

  /** Everything the three stores say about chats is the same. */
  predicate SameIndex(a: World, b: World) {
    b.kb == a.kb && b.disk.chats == a.disk.chats && b.nextFile == a.nextFile
  }

  /** A completion stamp on disk was written after retrieval was attached. */
  ghost predicate StampedAfterAttach(w0: World, w: World, now: nat) {
    w.disk.completedAt == NEVER || (w.disk.completedAt == now && w.attaches > w0.attaches)
  }

  datatype Ending = NotWiredOrStamped | Incomplete | Stamped

  /** Wires retrieval up, compares what was done with what was planned, and only then
      puts the completion stamp on record. */
  method Finish(h: Host, state: State, expected: nat, done: nat, now: nat, ghost quiet: bool) returns (ending: Ending)
    requires OnRecord(h.w, state) && state.completedAt == NEVER && (quiet ==> h.Still())
    modifies h
    ensures Sound(h.w) && Drifted(old(h.w), h.w) && SameIndex(old(h.w), h.w)
    ensures |h.trace| > |old(h.trace)| && old(h.trace) == h.trace[..|old(h.trace)|]
    ensures forall i :: |old(h.trace)| <= i < |h.trace| ==>
      StampedAfterAttach(old(h.w), h.trace[i], now) && SameIndex(old(h.w), h.trace[i])
    ensures done != expected ==> forall i :: |old(h.trace)| <= i < |h.trace| ==> h.trace[i].disk == state
    ensures Orphans(h.w) == Orphans(old(h.w))
    ensures CrashConsistent(old(h.w)) ==> CrashConsistent(h.w) && h.KeptThePromiseSince(|old(h.trace)|)
    ensures ending.Stamped? ==> h.w.disk == state.(completedAt := now) && h.w.attaches > old(h.w.attaches)
    ensures ending.Incomplete? ==> done != expected
    ensures quiet ==> h.Still() && SameChats(old(h.w), h.w)
    ensures h.steady ==> ending == if done == expected then Stamped else Incomplete
  {
    hide Sound, CrashConsistent, Drifted, Evolves, Orphans;
    ghost var w0 := h.w;
    SoundLive(w0);
    var ok := h.Ask();
    if !ok { return NotWiredOrStamped; }
    ghost var w1 := h.w;
    ok := h.AttachKnowledge();
    ghost var w2 := h.w;
    DriftedTwice(w0, w1, w2);
    if !ok { return NotWiredOrStamped; }
    if done != expected { return Incomplete; }
    StampKeeps(w2, now);
    ok := h.WriteState(state.(completedAt := now));
    DriftedTwice(w0, w2, h.w);
    OrphansFollowStores(w2.(disk := h.w.disk), h.w);
    ending := if ok then Stamped else NotWiredOrStamped;
  }

  /** A plan over this listing, made in the world `met`, has been carried out. */
  ghost predicate CarriedOutAsPlanned(met: World, w: World, listing: seq<ChatRef>) {
    exists p :: IsPlan(listing, met.disk.chats, p) && CarriedOut(met, w, p, false)
  }

  /** A new stamp on disk tells the truth: retrieval is attached, and every planned delete,
      update and add was carried out, if no chat was listed at two versions; with a record
      that kept the promise, nothing is missing. */
  ghost predicate HonestStamp(w0: World, met: World, w: World, listing: seq<ChatRef>, now: nat, premises: bool) {
    && StampedAfterAttach(w0, w, now)
    && (w.disk.completedAt != NEVER && OneVersionEach(listing) ==> CarriedOutAsPlanned(met, w, listing))
    && (w.disk.completedAt != NEVER && premises ==> Converged(w, listing))
  }

  /** Nothing has put a stamp on record, or an honest one. */
  ghost predicate HonestStamps(w0: World, met: Option<World>, trace: seq<World>, from: nat, listing: seq<ChatRef>,
                               now: nat, premises: bool) {
    forall i :: from <= i < |trace| ==>
      trace[i].disk.completedAt == NEVER
      || (met.Some? && HonestStamp(w0, met.value, trace[i], listing, now, premises))
  }

  lemma SameStoresStaysLost(a: World, b: World)
    requires Sound(a) && Drifted(a, b) && SameIndex(a, b)
    ensures StaysLost(a, b)
  {
    forall j | Lost(a, j) ensures Lost(b, j) {
      assert SoundEntry(a, j, a.disk.chats[j]) && j in a.born;
    }
  }

  lemma WedgedFollows(a: World, b: World)
    requires SameIndex(a, b) && SameChats(a, b)
    ensures Wedged(a) <==> Wedged(b)
  {
    assert forall id :: Lost(a, id) == Lost(b, id);
  }

  lemma ConvergedFollows(a: World, b: World, listing: seq<ChatRef>)
    requires SameIndex(a, b) && Converged(a, listing)
    ensures Converged(b, listing)
  {
  }

  lemma FullyIndexedFollows(a: World, b: World)
    requires SameIndex(a, b) && SameChats(a, b) && a.users == b.users
    ensures FullyIndexed(a) <==> FullyIndexed(b)
  {
    forall id | id in b.disk.chats ensures Current(b, id) == Current(a, id) && Backed(b, id) == Backed(a, id) {
    }
  }

  /** An entry that looks current and names a file that is gone, or holds something else. */
  ghost predicate Hollow(w: World, id: ChatId) {
    id in w.disk.chats && Current(w, id) && !Backed(w, id)
  }

  /** A hollow entry stays as it is while its chat does: no plan touches it. */
  lemma NotHealed(w0: World, w: World, listing: seq<ChatRef>, p: PlanResult, id: ChatId)
    requires Sound(w0) && ListsExactly(w0, listing) && IsPlan(listing, w0.disk.chats, p)
    requires CarriedOut(w0, w, p, true) && Hollow(w0, id)
    ensures Hollow(w, id) && w.disk.chats[id] == w0.disk.chats[id]
  {
    ExactListsAgree(w0, listing);
    assert SoundEntry(w0, id, w0.disk.chats[id]);
    var r :| r in listing && r.id == id;
    NotStaleIsUnplanned(w0, listing, p, r);
    UnplannedIsApart(w0, listing, p, r);
  }

  lemma NotStaleIsUnplanned(w0: World, listing: seq<ChatRef>, p: PlanResult, r: ChatRef)
    requires IsPlan(listing, w0.disk.chats, p) && r in listing
    requires r.id in w0.disk.chats && w0.disk.chats[r.id].updatedAt >= r.updatedAt
    ensures r !in p.adds && r !in p.updates
  {
    PlanMembers(listing, w0.disk.chats, p);
  }

  lemma PromiseFollows(a: World, b: World)
    requires SameIndex(a, b) && SameChats(a, b)
    ensures CrashConsistent(a) <==> CrashConsistent(b)
  {
    forall id | id in a.disk.chats ensures Current(a, id) == Current(b, id) && Backed(a, id) == Backed(b, id) {
    }
  }

  /** The world in which the plan was made: the one the last listing left, call `m` of the
      trace, if anything came after it. */
  function Met(trace: seq<World>, m: nat): Option<World> {
    if 0 < m < |trace| then Some(trace[m-1]) else None
  }

  /** The listing keeps the promise safe: it overlooks no chat with a current entry, and names
      none to be updated twice, but one nobody touches any more that has no text or has moved
      on. */
  ghost predicate Faultless(met: World, listing: seq<ChatRef>, rest: bool) {
    NoneOverlooked(met, listing) && WorkApart(met, met.disk.chats, listing, false, rest)
  }

  /** What is known of the listing when the plan is made. `from` and `to` are its calls. */
  ghost predicate Planned(h: Host, w0: World, met: World, listing: seq<ChatRef>, from: nat, to: nat, quiet: bool) {
    && Sound(met) && Drifted(w0, met) && SameStores(w0, met)
    && AllListed(met, listing) && OnlyMissed(h, met, listing, from, to)
    && (CrashConsistent(w0) ==> CrashConsistent(met) && EntriesAgree(met, listing))
    && (quiet ==>
          SameChats(w0, met) && ListsExactly(met, listing) && NoneOverlooked(met, listing) && ListsOnce(listing))
  }

  /** What a pass over the collection has done, finished or not: `met` is the world the plan
      was made in, `rest` says that nobody touched a chat from there on. */
  ghost predicate PassOutcome(w0: World, met: World, b: World, listing: seq<ChatRef>, rest: bool, strict: bool,
                              passed: bool) {
    && Sound(b) && Drifted(met, b)
    && (WorkApart(met, met.disk.chats, listing, true, rest) ==> OrphansGrow(met, b, passed))
    && (rest && passed && !WorkApart(met, met.disk.chats, listing, true, true) ==> Orphans(b) != Orphans(met))
    && (passed && OneVersionEach(listing) ==> CarriedOutAsPlanned(met, b, listing))
    && (passed && OneVersionEach(listing) && EntriesAgree(met, listing) ==> Converged(b, listing))
    && (passed && rest && ListsExactly(met, listing) && (CrashConsistent(met) ==> EntriesAgree(met, listing)) ==>
          (FullyIndexed(b) <==> CrashConsistent(met)))
    && (strict ==> StaysLost(w0, b) && (passed ==> !Wedged(w0)))
  }

  /** Whatever plan is made over this listing, the server stands in the way of none of it. */
  ghost predicate Reachable(met: World, listing: seq<ChatRef>, strict: bool) {
    forall p :: IsPlan(listing, met.disk.chats, p) ==> Possible(met, listing, p, strict)
  }

  /** The plan was carried out, or not, from the world `met`. */
  lemma PassWorked(w0: World, met: World, w2: World, listing: seq<ChatRef>, p: PlanResult, rest: bool, strict: bool,
                   ok: bool)
    requires Sound(w0) && Sound(met) && Sound(w2) && Drifted(w0, met) && Drifted(met, w2) && SameStores(w0, met)
    requires IsPlan(listing, met.disk.chats, p) && Worked(met, w2, met.disk, listing, p, rest, strict, ok)
    requires NoOlderThan(w0, listing)
    ensures PassOutcome(w0, met, w2, listing, rest, strict, ok)
  {
    SameStoresStaysLost(w0, met);
    LostIsPlanned(w0, met, listing, p);
    hide Sound, Drifted, Orphans, IsPlan, ListsExactly, CrashConsistent, EntriesAgree, StaysLost, Wedged,
         OneVersionEach, Converged, NoOlderThan, FullyIndexed, CarriedOut, AllPresent, WorkApart, OrphansGrow,
         AgainOnlySkipped, CarriedOutAsPlanned;
    PlanApart(met, listing, p, rest);
    if strict { LostTwice(w0, met, w2); }
    if ok && OneVersionEach(listing) {
      CarriedOutIsAsPlanned(met, w2, listing, p, rest);
      if EntriesAgree(met, listing) { CarriedOutConverges(met, w2, listing, p, rest); }
    }
    if ok && rest && ListsExactly(met, listing) {
      ExactListsAgree(met, listing);
      SameUsers(met, w2);
      if CrashConsistent(met) ==> EntriesAgree(met, listing) { IndexedIffConsistent(met, w2, listing, p); }
    }
  }

  lemma CarriedOutIsAsPlanned(met: World, w: World, listing: seq<ChatRef>, p: PlanResult, rest: bool)
    requires IsPlan(listing, met.disk.chats, p) && CarriedOut(met, w, p, rest)
    ensures CarriedOutAsPlanned(met, w, listing)
  {
    hide IsPlan;
    assert CarriedOut(met, w, p, false);
  }

  lemma CarriedOutFollows(met: World, a: World, b: World, listing: seq<ChatRef>)
    requires SameIndex(a, b) && CarriedOutAsPlanned(met, a, listing)
    ensures CarriedOutAsPlanned(met, b, listing)
  {
    hide IsPlan;
    var p :| IsPlan(listing, met.disk.chats, p) && CarriedOut(met, a, p, false);
    assert CarriedOut(met, b, p, false);
  }

  /** Attaching and stamping touch nothing the index says. */
  lemma PassFinished(w0: World, met: World, w2: World, w3: World, listing: seq<ChatRef>, rest: bool, strict: bool,
                     passed: bool)
    requires PassOutcome(w0, met, w2, listing, rest, strict, true) && met.live.Keys <= met.born
    requires Sound(w2) && Sound(w3) && Drifted(w2, w3) && SameIndex(w2, w3) && Orphans(w3) == Orphans(w2)
    requires (rest ==> SameChats(w2, w3))
    ensures PassOutcome(w0, met, w3, listing, rest, strict, passed)
  {
    SameStoresStaysLost(w2, w3);
    SameUsers(w2, w3);
    DriftedTwice(met, w2, w3);
    hide Sound, Drifted, Orphans, CrashConsistent, StaysLost, Wedged, OneVersionEach, Converged, FullyIndexed,
         WorkApart, OrphansGrow, CarriedOutAsPlanned, EntriesAgree, ListsExactly;
    if WorkApart(met, met.disk.chats, listing, true, rest) { GrewThenSame(met, w2, w3, passed); }
    if strict { LostTwice(w0, w2, w3); }
    if rest { FullyIndexedFollows(w2, w3); }
    if OneVersionEach(listing) {
      CarriedOutFollows(met, w2, w3, listing);
      if EntriesAgree(met, listing) { ConvergedFollows(w2, w3, listing); }
    }
  }

  /** The stamp that ends a pass is honest. */
  lemma StampedHonestly(w0: World, met: World, w2: World, trace: seq<World>, from: nat, n: nat, listing: seq<ChatRef>,
                        now: nat, premises: bool, rest: bool, strict: bool)
    requires PassOutcome(w0, met, w2, listing, rest, strict, true) && n <= from <= |trace|
    requires w2.attaches == w0.attaches
    requires forall i :: n <= i < from ==> trace[i].disk.completedAt == NEVER
    requires forall i :: from <= i < |trace| ==> StampedAfterAttach(w2, trace[i], now) && SameIndex(w2, trace[i])
    requires premises ==> OneVersionEach(listing) && EntriesAgree(met, listing)
    ensures HonestStamps(w0, Some(met), trace, n, listing, now, premises)
  {
    forall i | n <= i < |trace|
      ensures trace[i].disk.completedAt == NEVER || HonestStamp(w0, met, trace[i], listing, now, premises) {
      if from <= i && trace[i].disk.completedAt != NEVER {
        if OneVersionEach(listing) { CarriedOutFollows(met, w2, trace[i], listing); }
        if premises { ConvergedFollows(w2, trace[i], listing); }
      }
    }
  }

  /** What the plan made over a listing lets one expect of carrying it out. */
  lemma PlanMade(met: World, listing: seq<ChatRef>, p: PlanResult, rest: bool, strict: bool)
    requires Sound(met) && IsPlan(listing, met.disk.chats, p)
    ensures Faultless(met, listing, rest) ==> Harmless(met, listing, p, rest)
    ensures OneVersionEach(listing) ==> OneVersionEach(p.updates)
    ensures rest && OneVersionEach(listing) && !Faultless(met, listing, true) ==> !Harmless(met, listing, p, true)
    ensures Reachable(met, listing, strict) ==> Possible(met, listing, p, strict)
    ensures ListsExactly(met, listing) && !(strict && Wedged(met)) ==> Possible(met, listing, p, strict)
  {
    PlannedAgree(listing, met.disk.chats, p);
    hide Sound, IsPlan, AllPresent, Wedged, NoneOverlooked, WorkApart, OneVersionEach, AgainHarmless;
    PlanApart(met, listing, p, rest);
    if ListsExactly(met, listing) {
      NothingMissingIffNotWedged(met, listing, p);
    }
  }

  /** What the listing says about repeated work, said about the plan's own lists. */
  lemma PlanApart(met: World, listing: seq<ChatRef>, p: PlanResult, rest: bool)
    requires IsPlan(listing, met.disk.chats, p)
    ensures WorkApart(met, met.disk.chats, listing, true, rest) ==> AgainOnlySkipped(met, p.adds, rest)
    ensures WorkApart(met, met.disk.chats, listing, false, rest) ==> AgainHarmless(met, p.updates, rest)
    ensures !WorkApart(met, met.disk.chats, listing, true, true) ==> !AgainOnlySkipped(met, p.adds, true)
    ensures !WorkApart(met, met.disk.chats, listing, false, true) && OneVersionEach(listing) ==>
      !AgainHarmless(met, p.updates, true)
  {
    hide WorkApart, IsPlan, AgainOnlySkipped, AgainHarmless, OneVersionEach;
    var chats := met.disk.chats;
    if WorkApart(met, chats, listing, true, rest) { ApartMeansHarmless(met, listing, chats, p, true, rest); }
    if WorkApart(met, chats, listing, false, rest) { ApartMeansHarmless(met, listing, chats, p, false, rest); }
    if !WorkApart(met, chats, listing, true, true) { NotApartMeansAgain(met, listing, chats, p, true); }
    if !WorkApart(met, chats, listing, false, true) && OneVersionEach(listing) {
      NotApartMeansAgain(met, listing, chats, p, false);
    }
  }

  /** A plan carried out while nobody touched a chat indexes everything exactly when the
      record it started from kept the promise. */
  lemma IndexedIffConsistent(w1: World, w2: World, listing: seq<ChatRef>, p: PlanResult)
    requires Sound(w1) && Sound(w2) && w1.users == w2.users && ListsExactly(w1, listing)
    requires IsPlan(listing, w1.disk.chats, p)
    requires CarriedOut(w1, w2, p, true) && (CrashConsistent(w1) ==> EntriesAgree(w1, listing))
    ensures FullyIndexed(w2) <==> CrashConsistent(w1)
  {
    hide CarriedOut, ListsExactly, EntriesAgree, IsPlan, Sound;
    if CrashConsistent(w1) {
      CarriedOutIndexesAll(w1, w2, listing, p);
    } else {
      var id :| id in w1.disk.chats && Current(w1, id) && !Backed(w1, id);
      NotHealed(w1, w2, listing, p, id);
    }
  }

  lemma GrewThenSame(a: World, b: World, c: World, ok: bool)
    requires OrphansGrow(a, b, true) && Orphans(b) == Orphans(c)
    ensures OrphansGrow(a, c, ok)
  {
  }

  /** What a pass shows once it is over. It began in `w0`, with call `at`, after `n` recorded
      worlds, and took `k` calls to list the chats; `still` says that nobody touched a chat
      from its start. */
  ghost predicate PassSeen(h: Host, w0: World, w: World, trace: seq<World>, n: nat, at: nat, k: nat, still: bool,
                           listing: seq<ChatRef>, now: nat, passed: bool)
    requires n <= |trace|
  {
    var met, rest := Met(trace, n + k), h.stillFrom <= at + k;
    && HonestStamps(w0, met, trace, n, listing, now, OneVersionEach(listing) && CrashConsistent(w0))
    && (if met.Some? then
          Planned(h, w0, met.value, listing, at, at + k, still)
          && PassOutcome(w0, met.value, w, listing, rest, h.strict, passed)
        else SameStores(w0, w) && !passed)
    // the promise
    && (CrashConsistent(w0) && (met.Some? ==> Faultless(met.value, listing, rest)) ==>
          CrashConsistent(w) && forall i :: n <= i < |trace| ==> CrashConsistent(trace[i]))
    && (passed && rest && OneVersionEach(listing) && !Faultless(met.value, listing, true) ==> BrokenSince(trace, n))
    // which passes go through
    && (h.steady ==>
          met.Some? && (rest && Reachable(met.value, listing, h.strict) ==> passed)
          && (still && !(h.strict && Wedged(w0)) ==> passed))
  }

  /** Carries a plan out, attaches, and stamps. `w0` is where the pass began. */
  method CarryThrough(h: Host, state: State, listing: seq<ChatRef>, p: PlanResult, now: nat, ghost rest: bool,
                      ghost w0: World, ghost premises: bool)
    returns (passed: bool, counts: Counts, indexed: nat)
    requires OnRecord(h.w, state) && state.completedAt == NEVER && AllListed(h.w, listing) && (rest ==> h.Still())
    requires IsPlan(listing, state.chats, p) && NoOlderThan(w0, listing)
    requires Sound(w0) && Drifted(w0, h.w) && SameStores(w0, h.w)
    requires premises ==> OneVersionEach(listing) && EntriesAgree(h.w, listing)
    modifies h
    ensures Sound(h.w) && |h.trace| > |old(h.trace)| && old(h.trace) == h.trace[..|old(h.trace)|]
    ensures rest ==> SameChats(old(h.w), h.w)
    ensures PassOutcome(w0, old(h.w), h.w, listing, rest, h.strict, passed)
    ensures HonestStamps(w0, Some(old(h.w)), h.trace, |old(h.trace)|, listing, now, premises)
    ensures passed ==> h.w.disk.completedAt == now && h.w.attaches > w0.attaches
    ensures CrashConsistent(old(h.w)) && Harmless(old(h.w), listing, p, rest) ==>
      CrashConsistent(h.w) && h.KeptThePromiseSince(|old(h.trace)|)
    ensures passed && rest && OneVersionEach(p.updates) && !Harmless(old(h.w), listing, p, true) ==>
      BrokenSince(h.trace, |old(h.trace)|)
    ensures h.steady && rest && Possible(old(h.w), listing, p, h.strict) ==> passed
  {
    hide Sound, CrashConsistent, Drifted, Evolves, Orphans, AllListed, NoOlderThan, HonestStamps, EntriesAgree,
         OneVersionEach, IsPlan, Possible, BrokenSince, Worked, PassOutcome, Harmless;
    ghost var met, t1 := h.w, h.trace;
    var state', ok;
    state', ok, counts := Execute(h, state, listing, p, now, rest);
    ghost var w2, t2 := h.w, h.trace;
    SoundLive(met);
    PassWorked(w0, met, w2, listing, p, rest, h.strict, ok);
    indexed := 0;
    if !ok {
      UnstampedSoFar(w0, Some(met), h.trace, |t1|, listing, now);
      return false, counts, indexed;
    }
    var expected := |p.adds| + |p.updates|;
    var done := counts.added + counts.updated + counts.skipped;
    var ending := Finish(h, state', expected, done, now, rest);
    FirstAndThen(t1, t2, h.trace);
    passed, indexed := ending.Stamped?, |state'.chats|;
    PassFinished(w0, met, w2, h.w, listing, rest, h.strict, passed);
    StampedHonestly(w0, met, w2, h.trace, |t2|, |t1|, listing, now, premises, rest, h.strict);
  }

  lemma FirstAndThen(t1: seq<World>, t2: seq<World>, t3: seq<World>)
    requires |t1| <= |t2| <= |t3| && t1 == t2[..|t1|] && t2 == t3[..|t2|]
    ensures t1 == t3[..|t1|] && forall i :: 0 <= i < |t2| ==> t3[i] == t2[i]
    ensures BrokenSince(t2, |t1|) ==> BrokenSince(t3, |t1|)
  {
    forall i | 0 <= i < |t2| ensures t3[i] == t2[i] {
    }
    if BrokenSince(t2, |t1|) {
      var t :| |t1| <= t < |t2| && !CrashConsistent(t2[t]);
      assert t3[t] == t2[t];
    }
  }

  /** Lists, plans, carries the plan out, attaches and stamps. */
  method IndexCollection(h: Host, state: State, users: Users, now: nat) returns (r: Result, ghost listing: seq<ChatRef>)
    requires OnRecord(h.w, state) && state.completedAt == NEVER && users == h.w.users
    requires |h.trace| > 0 && h.trace[|h.trace| - 1] == h.w
    modifies h
    ensures Sound(h.w) && Drifted(old(h.w), h.w)
    ensures |h.trace| >= |old(h.trace)| && old(h.trace) == h.trace[..|old(h.trace)|]
    ensures (r.Blocked? || r.Passed?) && (old(h.Still()) ==> SameChats(old(h.w), h.w))
    ensures r.Passed? ==> h.w.disk.completedAt == now && h.w.attaches > old(h.w.attaches)
    ensures PassSeen(h, old(h.w), h.w, h.trace, |old(h.trace)|, old(h.calls), |Humans(users)|, old(h.Still()), listing,
                     now, r.Passed?)
  {
    hide Sound, CrashConsistent, Drifted, Evolves, Orphans, AllListed, NoneOverlooked, EntriesAgree, ListsExactly,
         NoOlderThan, OnlyMissed, ListsOnce, Reachable, Faultless, HonestStamps, Planned, Humans, PassSeen,
         OneVersionEach, IsPlan, Wedged, Possible, BrokenSince, PassOutcome, Harmless;
    ghost var w0, n, t0, at, k, quiet := h.w, |h.trace|, h.trace, h.calls, |Humans(users)|, h.Still();
    SoundLive(w0);
    var ok, live := ListChats(h, users);
    ghost var met, t1, rest := h.w, h.trace, h.Still();
    ghost var premises := OneVersionEach(live) && CrashConsistent(w0);
    listing := live;
    if !ok {
      PassNotListed(h, w0, h.w, h.trace, n, at, k, quiet, listing, now);
      return Blocked, listing;
    }
    ListingIsPlanned(h, w0, met, listing, at, h.calls, quiet);
    var plan := Plan(live, state.chats);
    PlanMade(met, listing, plan, rest, h.strict);
    WedgedMeanwhile(w0, met, quiet);
    var passed, counts, indexed := CarryThrough(h, state, live, plan, now, rest, w0, premises);
    ListedThenCarried(w0, met, t0, t1, h.trace, listing, now, premises, CrashConsistent(w0),
                      CrashConsistent(met) && Harmless(met, listing, plan, rest));
    OutcomeDrifted(w0, met, h.w, listing, rest, h.strict, passed);
    PassIsSeen(h, w0, met, h.w, h.trace, n, at, k, quiet, listing, now, plan, passed);
    r := if passed then Passed(counts, indexed) else Blocked;
  }

  lemma OutcomeDrifted(w0: World, met: World, w: World, listing: seq<ChatRef>, rest: bool, strict: bool, passed: bool)
    requires PassOutcome(w0, met, w, listing, rest, strict, passed) && w0.live.Keys <= w0.born && Drifted(w0, met)
    ensures Drifted(w0, w)
  {
    DriftedTwice(w0, met, w);
  }

  /** The worlds of the listing, and those of the work after it. */
  lemma ListedThenCarried(w0: World, met: World, t0: seq<World>, t1: seq<World>, t2: seq<World>, listing: seq<ChatRef>,
                          now: nat, premises: bool, listed: bool, kept: bool)
    requires |t0| <= |t1| <= |t2| && t0 == t1[..|t0|] && t1 == t2[..|t1|]
    requires forall i :: |t0| <= i < |t1| ==> t1[i].disk.completedAt == NEVER && (listed ==> CrashConsistent(t1[i]))
    requires HonestStamps(w0, Some(met), t2, |t1|, listing, now, premises)
    ensures t0 == t2[..|t0|] && (|t1| > 0 ==> t2[|t1| - 1] == t1[|t1| - 1])
    ensures HonestStamps(w0, Some(met), t2, |t0|, listing, now, premises)
    ensures listed && (kept ==> forall i :: |t1| <= i < |t2| ==> CrashConsistent(t2[i])) ==>
      (kept ==> forall i :: |t0| <= i < |t2| ==> CrashConsistent(t2[i]))
    ensures BrokenSince(t2, |t1|) ==> BrokenSince(t2, |t0|)
  {
    forall i | |t0| <= i < |t1| ensures t2[i] == t1[i] {
    }
  }

  lemma PassNotListed(h: Host, w0: World, w: World, trace: seq<World>, n: nat, at: nat, k: nat, still: bool,
                      listing: seq<ChatRef>, now: nat)
    requires n <= |trace| <= n + k && SameStores(w0, w) && !h.steady
    requires forall i :: n <= i < |trace| ==> trace[i].disk.completedAt == NEVER
    requires CrashConsistent(w0) ==> CrashConsistent(w) && forall i :: n <= i < |trace| ==> CrashConsistent(trace[i])
    ensures PassSeen(h, w0, w, trace, n, at, k, still, listing, now, false)
  {
  }

  lemma PassIsSeen(h: Host, w0: World, met: World, w: World, trace: seq<World>, n: nat, at: nat, k: nat, still: bool,
                   listing: seq<ChatRef>, now: nat, p: PlanResult, passed: bool)
    requires 0 < n + k < |trace| && trace[n + k - 1] == met
    requires HonestStamps(w0, Some(met), trace, n, listing, now, OneVersionEach(listing) && CrashConsistent(w0))
    requires Planned(h, w0, met, listing, at, at + k, still)
    requires var rest := h.stillFrom <= at + k;
      && PassOutcome(w0, met, w, listing, rest, h.strict, passed)
      && (Faultless(met, listing, rest) ==> Harmless(met, listing, p, rest))
      && (CrashConsistent(w0) && Harmless(met, listing, p, rest) ==>
            CrashConsistent(w) && forall i :: n <= i < |trace| ==> CrashConsistent(trace[i]))
      && (rest && OneVersionEach(listing) && !Faultless(met, listing, true) ==> !Harmless(met, listing, p, true))
      && (passed && rest && OneVersionEach(p.updates) && !Harmless(met, listing, p, true) ==> BrokenSince(trace, n))
      && (h.steady && rest && Possible(met, listing, p, h.strict) ==> passed)
    requires OneVersionEach(listing) ==> OneVersionEach(p.updates)
    requires Reachable(met, listing, h.strict) ==> Possible(met, listing, p, h.strict)
    requires still ==> h.stillFrom <= at
    requires still && !(h.strict && Wedged(w0)) ==> Possible(met, listing, p, h.strict)
    ensures PassSeen(h, w0, w, trace, n, at, k, still, listing, now, passed)
  {
  }

  /** No stamp was put on record. */
  lemma UnstampedSoFar(w0: World, met: Option<World>, trace: seq<World>, from: nat, listing: seq<ChatRef>, now: nat)
    requires forall i :: from <= i < |trace| ==> trace[i].disk.completedAt == NEVER
    ensures forall premises :: HonestStamps(w0, met, trace, from, listing, now, premises)
  {
  }

  lemma ListingIsPlanned(h: Host, w0: World, met: World, listing: seq<ChatRef>, from: nat, to: nat, quiet: bool)
    requires Sound(met) && Drifted(w0, met) && SameStores(w0, met) && AllListed(met, listing)
    requires OnlyMissed(h, met, listing, from, to)
    requires CrashConsistent(w0) ==> CrashConsistent(met) && EntriesAgree(met, listing)
    requires quiet ==>
      SameChats(w0, met) && ListsExactly(met, listing) && NoneOverlooked(met, listing) && ListsOnce(listing)
    ensures Planned(h, w0, met, listing, from, to, quiet)
  {
  }

  lemma WedgedMeanwhile(a: World, b: World, quiet: bool)
    requires SameStores(a, b) && (quiet ==> SameChats(a, b))
    ensures quiet ==> (Wedged(a) <==> Wedged(b))
  {
    if quiet { WedgedFollows(a, b); }
  }

  // ------------------------------------------------------------------
  // The run from end to end
  // ------------------------------------------------------------------

  /** At most one file is orphaned, and only by a run that did not pass; a rebuild that
      passes leaves none at all. */
  ghost predicate OrphanAccount(w0: World, w: World, rebuild: bool, passed: bool) {
    && (exists f: FileId :: Orphans(w) <= Orphans(w0) + {f})
    && (passed ==> Orphans(w) <= Orphans(w0))
    && (!rebuild ==> OrphansGrow(w0, w, passed))
    && (rebuild && passed && w0.disk.knowledgeId != 0 ==> Orphans(w) == {})
  }

  /** Every stamp on disk is the one found there, or none, or an honest new one. */
  ghost predicate StampsHonest(w0: World, trace: seq<World>, from: nat, run: Run, premises: bool) {
    forall i :: from <= i < |trace| ==>
      trace[i].disk == w0.disk || trace[i].disk.completedAt == NEVER
      || (run.met.Some? && HonestStamp(w0, run.met.value, trace[i], run.listing, run.input.now, premises))
  }

  lemma FewerOrphans(w0: World, w: World, rebuild: bool)
    requires Orphans(w) <= Orphans(w0) && (!rebuild ==> Orphans(w) == Orphans(w0))
    ensures OrphanAccount(w0, w, rebuild, false)
  {
    assert Orphans(w) <= Orphans(w0) + {NO_FILE};
  }

  lemma OrphansAcrossRun(w0: World, w1: World, w: World, state: State, input: RunInput, passed: bool)
    requires Opened(w0, w1, state, input) && OrphansGrow(w1, w, passed)
    requires Orphans(w1) <= Orphans(w0) && (!input.rebuild ==> Orphans(w1) == Orphans(w0))
    ensures OrphanAccount(w0, w, input.rebuild, passed)
  {
    var f: FileId :| Orphans(w) <= Orphans(w1) + {f};
    assert Orphans(w) <= Orphans(w0) + {f};
  }

  lemma OpeningKeepsWedge(w0: World, w1: World, state: State, input: RunInput)
    requires Opened(w0, w1, state, input) && SameChats(w0, w1)
    ensures if input.rebuild then !Wedged(w1) else Wedged(w1) <==> Wedged(w0)
  {
    if !input.rebuild {
      assert SameIndex(w0, w1);
      WedgedFollows(w0, w1);
    }
  }

  lemma OpeningKeepsPromise(w0: World, w1: World, state: State, input: RunInput)
    requires Opened(w0, w1, state, input) && SameChats(w0, w1)
    ensures !input.rebuild ==> (CrashConsistent(w1) <==> CrashConsistent(w0))
  {
    if !input.rebuild {
      assert SameIndex(w0, w1);
      PromiseFollows(w0, w1);
    }
  }

  /** One run as its history remembers it. `met` is the world its plan was made in, if it got
      that far; `quiet` says that nobody touched a chat while it went, `rested` that nobody did
      once the chats had been listed. */
  datatype Run = Run(input: RunInput, listing: seq<ChatRef>, met: Option<World>, passed: bool,
                     steady: bool, quiet: bool, rested: bool, strict: bool)

  /** The entries a run plans over: none on a rebuild. */
  function ChatsAtOpen(input: RunInput, disk: State): map<ChatId, ChatState> {
    if input.rebuild then map[] else disk.chats
  }

  /** No chat is taken for deleted while its entry is current, and none is updated twice, but
      one that nobody touches any more that has no text or has moved on. */
  ghost predicate Unmistaken(run: Run) {
    run.met.Some? ==> Faultless(run.met.value, run.listing, run.rested)
  }

  /** No chat is added twice, but one that nobody touches any more that has no text. */
  ghost predicate AddsApart(run: Run) {
    run.met.Some? ==> WorkApart(run.met.value, run.met.value.disk.chats, run.listing, true, run.rested)
  }

  /** What one run does to the world, from its first call to its last. */
  ghost predicate Outcome(a: World, b: World, run: Run) {
    && Sound(a) && Sound(b) && Drifted(a, b) && (run.passed ==> run.met.Some?)
    // the listing the plan is made over
    && (run.met.Some? ==>
          Sound(run.met.value) && Drifted(a, run.met.value) && AllListed(run.met.value, run.listing)
          && run.met.value.disk.chats == ChatsAtOpen(run.input, a.disk))
    && (run.quiet ==>
          run.rested && SameChats(a, b)
          && (run.met.Some? ==>
                SameChats(a, run.met.value) && ListsExactly(run.met.value, run.listing) && ListsOnce(run.listing)
                && NoneOverlooked(run.met.value, run.listing)))
    // the promise, and the orphans
    && (Unmistaken(run) && CrashConsistent(a) ==> ConsistentOrReset(a, b, run.input.rebuild))
    && (Unmistaken(run) && run.passed && (run.input.rebuild || CrashConsistent(a)) ==> CrashConsistent(b))
    && (AddsApart(run) ==> OrphanAccount(a, b, run.input.rebuild, run.passed))
    && (run.passed && run.rested && !run.input.rebuild ==> (Orphans(b) == Orphans(a) <==> AddsApart(run)))
    // convergence
    && (run.passed && OneVersionEach(run.listing) ==>
          CarriedOutAsPlanned(run.met.value, b, run.listing)
          && (run.input.rebuild || CrashConsistent(a) ==> CrashConsistent(b) && Converged(b, run.listing)))
    && (run.passed && run.quiet && (run.input.rebuild || CrashConsistent(a)) ==> FullyIndexed(b))
    && (run.passed && run.quiet && !run.input.rebuild ==> (FullyIndexed(b) <==> CrashConsistent(a)))
    // which runs pass
    && (run.steady && Admitted(a, run.input) ==>
          run.met.Some? && (run.rested && Reachable(run.met.value, run.listing, run.strict) ==> run.passed))
    && (run.steady && run.quiet ==>
          (run.passed <==> Admitted(a, run.input) && (run.input.rebuild || !(run.strict && Wedged(a)))))
    && (run.strict && !run.input.rebuild ==> StaysLost(a, b) && (Wedged(a) ==> !run.passed))
  }

  /** The calls a run makes before its plan: to open, and to list the chats of each person. */
  function CallsToPlan(input: RunInput, w: World): nat {
    OpeningCalls(input, w.disk) + |Humans(w.users)|
  }

  /** A run that began in `w0`, with call `at`, after `n` recorded worlds. */
  ghost function RunOf(h: Host, input: RunInput, listing: seq<ChatRef>, w0: World, trace: seq<World>, n: nat, at: nat,
                       passed: bool): Run {
    var k := CallsToPlan(input, w0);
    Run(input, listing, Met(trace, n + k), passed, h.steady, h.stillFrom <= at, h.stillFrom <= at + k, h.strict)
  }

  /** What is seen of a run on its trace: no point of it breaks the promise but inside the
      reset window of a rebuild, and whatever stamp it puts on record is honest. If nobody
      touches a chat once they are listed, a run that passes keeps the promise exactly when
      its listing was unmistaken. */
  ghost predicate SeenOnTrace(w0: World, trace: seq<World>, n: nat, run: Run) {
    && (CrashConsistent(w0) && Unmistaken(run) ==> AllConsistentOrReset(w0, trace, n, run.input.rebuild))
    && (CrashConsistent(w0) && run.rested && run.passed && !run.input.rebuild && OneVersionEach(run.listing) ==>
          ((forall i :: n <= i < |trace| ==> CrashConsistent(trace[i])) <==> Unmistaken(run)))
    && StampsHonest(w0, trace, n, run, OneVersionEach(run.listing) && (run.input.rebuild || CrashConsistent(w0)))
  }

  /** The index run, whatever fails on the way and whatever people do to their chats. */
  method RunIndex(h: Host, input: RunInput) returns (r: Result, ghost listing: seq<ChatRef>)
    requires Sound(h.w)
    modifies h
    ensures Sound(h.w) && Drifted(old(h.w), h.w)
    ensures |h.trace| >= |old(h.trace)| && old(h.trace) == h.trace[..|old(h.trace)|]
    // a refusal is free of side effects
    ensures r.GateClosed? ==> h.trace == old(h.trace)
    ensures r.GateClosed? || r.RunRefused? ==> SameStores(old(h.w), h.w)
    // the promise at every point, and the completion stamp
    ensures SeenOnTrace(old(h.w), h.trace, |old(h.trace)|,
                        RunOf(h, input, listing, old(h.w), h.trace, |old(h.trace)|, old(h.calls), r.Passed?))
    // orphans, convergence, and which runs pass
    ensures Outcome(old(h.w), h.w,
                    RunOf(h, input, listing, old(h.w), h.trace, |old(h.trace)|, old(h.calls), r.Passed?))
    // a current entry is missed only where a listing overlooked its chat
    ensures var met := Met(h.trace, |old(h.trace)| + CallsToPlan(input, old(h.w)));
      met.Some? ==>
      OnlyMissed(h, met.value, listing, old(h.calls), old(h.calls) + CallsToPlan(input, old(h.w)))
    ensures r.Passed? ==> h.w.disk.completedAt == input.now && h.w.attaches > old(h.w.attaches)
    ensures !r.IncompletePass?
  {
    hide Sound, CrashConsistent, Drifted, Orphans, Opened, Outcome, PassSeen, SeenOnTrace, AllConsistentOrReset,
         StampsHonestOrGone, OnlyMissed, Humans, SameIndex, ConsistentOrReset, Admitted, StaysLost;
    ghost var w0, n, at, t0 := h.w, |h.trace|, h.calls, h.trace;
    SoundLive(w0);
    listing := [];
    var opening, users := OpenRun(h, input);
    ghost var w1, t1 := h.w, h.trace;
    OpeningStaysLost(w0, w1, input);
    if !opening.Open? {
      r := match opening case Closed => GateClosed case Refused => RunRefused case _ => Blocked;
      NotOpened(w0, w1, h.trace, n, RunOf(h, input, listing, w0, h.trace, n, at, false));
      return;
    }
    var state := opening.state;
    OpenedIsOnRecord(w0, w1, state, input);
    ghost var at1, still := h.calls, h.Still();
    r, listing := IndexCollection(h, state, users, input.now);
    ghost var run := RunOf(h, input, listing, w0, h.trace, n, at, r.Passed?);
    DriftedTwice(w0, w1, h.w);
    assert h.trace[..|t1|] == t1;
    SameUsers(w0, w1);
    MissedInTheRun(h, w0, w1, h.w, h.trace, |t1|, at, at1, |Humans(users)|, still, listing, input.now, r.Passed?);
    RunOutcome(h, w0, w1, h.w, h.trace, |t1|, at1, |Humans(users)|, still, state, run);
    RunSeenOnTrace(h, w0, w1, h.w, h.trace, n, |t1|, at1, |Humans(users)|, still, state, run);
  }

  /** A run whose listings overlook no chat misses no current entry. */
  lemma OverlooksNothing(h: Host, met: World, listing: seq<ChatRef>, from: nat, to: nat)
    requires OnlyMissed(h, met, listing, from, to) && forall n :: from <= n < to ==> h.overlooked(n) == {}
    ensures NoneOverlooked(met, listing)
  {
    forall id | id in met.disk.chats && id !in Ids(listing) ensures !Current(met, id) {
      assert !Missed(h, id, from, to);
    }
  }

  /** A run that nobody disturbs is never mistaken, and adds nothing twice. */
  lemma QuietIsUnmistaken(a: World, b: World, run: Run)
    requires Outcome(a, b, run) && run.quiet
    ensures Unmistaken(run) && AddsApart(run) && (run.met.Some? ==> OneVersionEach(run.listing))
  {
    if run.met.Some? {
      OnceIsApart(run.met.value, run.met.value.disk.chats, run.listing, false, run.rested);
      OnceIsApart(run.met.value, run.met.value.disk.chats, run.listing, true, run.rested);
    }
  }

  lemma MissedInTheRun(h: Host, w0: World, w1: World, w: World, trace: seq<World>, n: nat, at: nat, at1: nat, k: nat,
                       still: bool, listing: seq<ChatRef>, now: nat, passed: bool)
    requires n <= |trace| && at <= at1 && PassSeen(h, w1, w, trace, n, at1, k, still, listing, now, passed)
    ensures var met := Met(trace, n + k); met.Some? ==> OnlyMissed(h, met.value, listing, at, at1 + k)
  {
    var met := Met(trace, n + k);
    if met.Some? {
      forall id | id in met.value.disk.chats && Current(met.value, id) && id !in Ids(listing)
        ensures Missed(h, id, at, at1 + k) {
        var m :| at1 <= m < at1 + k && id in h.overlooked(m);
        assert id in h.overlooked(m);
      }
    }
  }

  lemma NotOpened(w0: World, w1: World, trace: seq<World>, n: nat, run: Run)
    requires Sound(w0) && Sound(w1) && Drifted(w0, w1) && !run.passed && run.met.None?
    requires run.quiet ==> run.rested && SameChats(w0, w1)
    requires CrashConsistent(w0) ==>
      ConsistentOrReset(w0, w1, run.input.rebuild) && AllConsistentOrReset(w0, trace, n, run.input.rebuild)
    requires Orphans(w1) <= Orphans(w0) && (!run.input.rebuild ==> Orphans(w1) == Orphans(w0))
    requires (run.steady ==> !Admitted(w0, run.input)) && (!run.input.rebuild ==> StaysLost(w0, w1))
    requires StampsHonestOrGone(w0, trace, n)
    ensures Outcome(w0, w1, run) && SeenOnTrace(w0, trace, n, run)
  {
    FewerOrphans(w0, w1, run.input.rebuild);
  }

  /** What the trace shows, from its two halves: the opening, and the pass over the collection. */
  lemma RunSeenOnTrace(h: Host, w0: World, w1: World, w: World, trace: seq<World>, n: nat, mid: nat, at1: nat, k: nat,
                       still: bool, state: State, run: Run)
    requires n <= mid <= |trace| && Opened(w0, w1, state, run.input)
    requires CrashConsistent(w0) ==> AllConsistentOrReset(w0, trace[..mid], n, run.input.rebuild)
    requires run.input.rebuild || CrashConsistent(w0) ==> CrashConsistent(w1)
    requires StampsHonestOrGone(w0, trace[..mid], n)
    requires PassSeen(h, w1, w, trace, mid, at1, k, still, run.listing, run.input.now, run.passed)
    requires run.met == Met(trace, mid + k) && (run.rested <==> h.stillFrom <= at1 + k)
    ensures SeenOnTrace(w0, trace, n, run)
  {
    hide Sound, CrashConsistent, Drifted, Planned, PassOutcome, Converged, CarriedOutAsPlanned, OneVersionEach,
         InResetWindow;
    forall i | n <= i < mid ensures trace[i] == trace[..mid][i] {
    }
    if CrashConsistent(w0) && run.rested && run.passed && !run.input.rebuild && OneVersionEach(run.listing) {
      if !Unmistaken(run) {
        var t :| mid <= t < |trace| && !CrashConsistent(trace[t]);
        assert n <= t;
      }
    }
  }

  /** A run seen from its two halves. */
  lemma RunOutcome(h: Host, w0: World, w1: World, w: World, trace: seq<World>, mid: nat, at1: nat, k: nat, still: bool,
                   state: State, run: Run)
    requires mid <= |trace| && Opened(w0, w1, state, run.input) && Sound(w0) && Sound(w) && Drifted(w0, w1)
    requires Drifted(w0, w) && Sound(w1) && Drifted(w1, w) && Admitted(w0, run.input)
    requires PassSeen(h, w1, w, trace, mid, at1, k, still, run.listing, run.input.now, run.passed)
    requires run.met == Met(trace, mid + k) && (run.rested <==> h.stillFrom <= at1 + k)
    requires run.quiet ==> still && run.rested && SameChats(w0, w1) && SameChats(w1, w)
    requires h.steady == run.steady && h.strict == run.strict
    requires run.input.rebuild || CrashConsistent(w0) ==> CrashConsistent(w1)
    requires Orphans(w1) <= Orphans(w0) && (!run.input.rebuild ==> Orphans(w1) == Orphans(w0) && StaysLost(w0, w1))
    ensures Outcome(w0, w, run)
  {
    hide Sound, CrashConsistent, Drifted, Orphans, Converged, FullyIndexed, Wedged, StaysLost, OneVersionEach,
         Admitted, OrphanAccount, OrphansGrow, WorkApart, Faultless, HonestStamps, CarriedOutAsPlanned, ListsExactly,
         EntriesAgree, Reachable, ListsOnce, AllListed, OnlyMissed, NoneOverlooked;
    SoundLive(w0);
    if run.met.None? { SameStoresStaysLost(w1, w); }
    if run.strict && !run.input.rebuild {
      LostTwice(w0, w1, w);
      LostMeansWedged(w0, w1);
    }
    if run.quiet {
      OpeningKeepsWedge(w0, w1, state, run.input);
      OpeningKeepsPromise(w0, w1, state, run.input);
    }
    if run.met.Some? {
      var met := run.met.value;
      DriftedTwice(w0, w1, met);
      SameStoresSameOrphans(w1, met);
      if AddsApart(run) {
        GrewSinceStart(w1, met, w, run.passed);
        OrphansAcrossRun(w0, w1, w, state, run.input, run.passed);
      }
      if run.passed && OneVersionEach(run.listing) && (run.input.rebuild || CrashConsistent(w0)) {
        ConvergedIsConsistent(w, run.listing);
      }
      if run.passed && !run.input.rebuild && AddsApart(run) { GrewNothing(w1, w); }
      if run.quiet { ExactListsAgree(met, run.listing); PromiseFollows(w1, met); }
    } else {
      SameStoresSameOrphans(w1, w);
      FewerOrphans(w0, w, run.input.rebuild);
    }
    PassKeepsPromise(w0, w1, w, run);
  }

  lemma SameStoresSameOrphans(a: World, b: World)
    requires SameStores(a, b)
    ensures Orphans(a) == Orphans(b)
  {
  }

  lemma PassKeepsPromise(w0: World, w1: World, w: World, run: Run)
    requires run.input.rebuild || CrashConsistent(w0) ==> CrashConsistent(w1)
    requires CrashConsistent(w1) && Unmistaken(run) ==> CrashConsistent(w)
    ensures Unmistaken(run) && CrashConsistent(w0) ==> ConsistentOrReset(w0, w, run.input.rebuild)
    ensures Unmistaken(run) && run.passed && (run.input.rebuild || CrashConsistent(w0)) ==> CrashConsistent(w)
  {
  }

  lemma OpeningStaysLost(w0: World, w1: World, input: RunInput)
    requires Sound(w0) && Drifted(w0, w1) && (!input.rebuild ==> SameIndex(w0, w1))
    ensures !input.rebuild ==> StaysLost(w0, w1)
  {
    if !input.rebuild { SameStoresStaysLost(w0, w1); }
  }

  lemma LostMeansWedged(a: World, b: World)
    requires StaysLost(a, b)
    ensures Wedged(a) ==> Wedged(b)
  {
    if id :| Lost(a, id) {
      assert Lost(b, id);
    }
  }

  lemma OpenedIsOnRecord(w0: World, w: World, state: State, input: RunInput)
    requires Opened(w0, w, state, input)
    ensures OnRecord(w, state) && state.completedAt == NEVER && w.attaches == w0.attaches
  {
  }
}
