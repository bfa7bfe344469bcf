/** run_throughput as it runs: captured counters and a refill loop over a Client. */
module Throughput {
  import opened Common
  import opened EasyHandle
  import opened LifecycleSpec
  import opened LifecycleProofs
  import opened ThroughputSpec
  import Lifecycle

  class Runner {
    const client: Lifecycle.Client
    const url: string
    const total: int
    const concurrency: int
    const envs: seq<StartEnv>
    var failed: int
    var inFlight: int
    var launched: int
    var done: int

    constructor (client: Lifecycle.Client, url: string, total: int, concurrency: int, envs: seq<StartEnv>)
      requires client.Valid() && Inv(client.state)
      ensures Valid() && this.client == client
      ensures Model() == Bench(url, total, concurrency, envs, client.state, 0, 0, 0, 0)
    {
      this.client, this.url, this.total, this.concurrency, this.envs := client, url, total, concurrency, envs;
      failed, inFlight, launched, done := 0, 0, 0, 0;
    }

    ghost predicate Valid()
      reads this, client, client.repr
    {
      this !in client.repr && client.Valid() && Inv(client.state)
    }

    ghost function Model(): Bench
      reads this, client
    {
      Bench(url, total, concurrency, envs, client.state, failed, inFlight, launched, done)
    }

    method Refill()
      requires Valid()
      modifies this, client.repr
      ensures Valid() && Model() == ThroughputSpec.Refill(old(Model())) && fresh(client.repr - old(client.repr))
    {
      hide Inv, Start, client.Valid;
      while inFlight < concurrency && launched < total
        invariant Valid() && fresh(client.repr - old(client.repr))
        invariant ThroughputSpec.Refill(Model()) == ThroughputSpec.Refill(old(Model()))
        decreases total - launched
      {
        inFlight := inFlight + 1;
        var env := if 0 <= launched < |envs| then envs[launched] else Accepts;
        launched := launched + 1;
        StartKeeps(client.state, Get(url), [], env);
        client.Start(Get(url), [], env, |client.scripts|);
      }
    }

    /** The completion handler given to every async_get. */
    method OnComplete(c: Completion)
      requires Valid()
      modifies this, client.repr
      ensures Valid() && Model() == ThroughputSpec.OnComplete(old(Model()), c) && fresh(client.repr - old(client.repr))
    {
      hide Inv, ThroughputSpec.Refill, client.Valid;
      inFlight := inFlight - 1;
      done := done + 1;
      if c.ec != NoError || !IsOk(c.res) {
        failed := failed + 1;
      }
      Refill();
    }

    /** The event loop lets libcurl work, or one completion run. */
    method Take(t: Turn)
      requires Valid() && Counts(Model())
      modifies this, client.repr
      ensures Valid() && Model() == Advance(old(Model()), t) && fresh(client.repr - old(client.repr))
    {
      hide Inv, SocketAction, Complete, ThroughputSpec.OnComplete;
      match t {
        case Work(acts) =>
          client.SocketAction(acts);
        case Deliver =>
          Queues();
          if client.curl.msgs != [] {
            DeliverStep(client.state);
            var c := client.CompleteNext();
            OnComplete(c);
          }
        case Posted(i) =>
          Queues();
          if i < |client.loop.posted| {
            var c := client.RunPosted(i);
            OnComplete(c);
          }
      }
    }

    lemma Queues()
      requires client.Valid()
      ensures client.curl.msgs == client.state.msgs && client.loop.posted == client.state.posted
    {
    }

    /** refill(), then the event loop. */
    method Run(turns: seq<Turn>)
      requires Valid() && Counts(Model()) && inFlight == 0 && launched == 0
      modifies this, client.repr
      ensures Valid() && Model() == Turns(ThroughputSpec.Refill(old(Model())), turns) && Counts(Model()) && Full(Model())
    {
      hide Counts, Full, Inv, ThroughputSpec.Refill, Advance;
      ghost var b := Model();
      Ready(b);
      Refill();
      RefillFills(b);
      for i := 0 to |turns|
        invariant Valid() && Counts(Model()) && Full(Model()) && fresh(client.repr - old(client.repr))
        invariant Turns(Model(), turns[i..]) == Turns(ThroughputSpec.Refill(b), turns)
      {
        assert turns[i..][0] == turns[i] && turns[i..][1..] == turns[i + 1..];
        AdvanceKeeps(Model(), turns[i]);
        Take(turns[i]);
      }
    }

    lemma Ready(b: Bench)
      requires Counts(b) && b.inFlight == 0 && b.launched == 0
      ensures 0 <= b.inFlight <= Max(0, Min(b.concurrency, b.total - b.done)) && b.launched <= Max(0, b.total)
    {
    }
  }

  /** The share of loop t, as main computes it, for every loop. */
  method Split(total: int, loops: int) returns (shares: seq<int>, sum: int)
    requires loops > 0
    ensures |shares| == loops && forall t :: 0 <= t < loops ==> shares[t] == Share(total, loops, t)
    ensures sum == total <==> total >= 0 || Rem(total, loops) == 0
  {
    shares, sum := [], 0;
    for t := 0 to loops
      invariant |shares| == t && sum == Shares(total, loops, t)
      invariant forall u :: 0 <= u < t ==> shares[u] == Share(total, loops, u)
    {
      var share := Quot(total, loops) + if t < Rem(total, loops) then 1 else 0;
      shares, sum := shares + [share], sum + share;
    }
    SharesAddUp(total, loops);
  }
}
