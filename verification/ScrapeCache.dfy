/** The dashboard's inference client, rebuilt from the config at most once a second. */
module ScrapeCache {
  /** One second, in nanoseconds. */
  const TTL: nat := 1_000_000_000

  /** Two neighbouring loads lie at least one TTL apart. */
  ghost predicate Spaced(loads: seq<int>) {
    forall i :: 0 < i < |loads| ==> loads[i] - loads[i-1] >= TTL
  }

  class ScrapeClient<C(0)> {
    var client: C
    var builtAt: int
    var built: bool
    /** When the config was loaded, load after load. */
    ghost var loads: seq<int>

    /** The client the config of a moment makes. */
    const build: int -> C

    constructor (build: int -> C)
      ensures Valid() && loads == [] && this.build == build
    {
      this.build, this.built, this.builtAt, this.client := build, false, 0, *;
      this.loads := [];
    }

    ghost predicate Valid()
      reads this
    {
      && Spaced(loads) && (built <==> loads != [])
      && (built ==> builtAt == loads[|loads| - 1] && client == build(builtAt))
    }

    /** The client for the config as of this scrape. */
    method Current(now: int) returns (c: C)
      requires Valid() && (built ==> builtAt <= now)
      modifies this
      ensures Valid() && built && builtAt <= now
      ensures c == build(builtAt) && now - builtAt < TTL
      ensures loads == if old(built) && now - old(builtAt) < TTL then old(loads) else old(loads) + [now]
    {
      if !built || now - builtAt >= TTL {
        client, builtAt, built := build(now), now, true;
        loads := loads + [now];
      }
      c := client;
    }
  }

  lemma {:induction false} SpacedApart(loads: seq<int>, i: nat, j: nat)
    requires Spaced(loads) && i <= j < |loads|
    ensures loads[j] - loads[i] >= (j - i) * TTL
    decreases j - i
  {
    if i == j {
    } else {
      SpacedApart(loads, i, j - 1);
    }
  }

  /** However often it is asked, any window sees at most one load per TTL, and one more. */
  lemma LoadsInWindow(loads: seq<int>, start: int, length: nat, i: nat, j: nat)
    requires Spaced(loads) && i <= j < |loads|
    requires start <= loads[i] && loads[j] <= start + length
    ensures j - i + 1 <= length / TTL + 1
  {
    SpacedApart(loads, i, j);
    DivideBy(j - i, length);
  }

  lemma DivideBy(n: nat, length: nat)
    requires n * TTL <= length
    ensures n <= length / TTL
  {
    var q := length / TTL;
    assert length < (q + 1) * TTL;
  }

  /** The bound is met: scrapes that come exactly one TTL apart load every time. */
  method LoadsCanFillWindow(build: int -> int, n: nat) returns (client: ScrapeClient<int>)
    ensures client.Valid() && client.loads == seq(n + 1, i => i * TTL)
    ensures client.loads[n] - client.loads[0] == n * TTL && |client.loads| == (n * TTL) / TTL + 1
  {
    client := new ScrapeClient(build);
    for i := 0 to n + 1
      invariant client.Valid() && fresh(client) && client.loads == seq(i, j => j * TTL)
    {
      assert client.built ==> client.builtAt == client.loads[i-1];
      var _ := client.Current(i * TTL);
    }
    assert client.loads[n] == n * TTL;
  }
}
