/** Failover routing: providers are tried in priority order, ties in configuration order. */
module LlmRouter {

  datatype Provider = Provider(name: string, priority: nat)

  datatype Answer = Reply(text: string) | Failure(error: string)

  datatype Attempt = Attempt(provider: string, error: string)

  datatype Outcome = Answered(text: string) | AllProvidersFailed(attempts: seq<Attempt>)

  /** Provider `i` goes before provider `j`: a lower priority value, or an earlier position. */
  predicate Before(config: seq<Provider>, i: nat, j: nat)
    requires i < |config| && j < |config|
  {
    config[i].priority < config[j].priority || (config[i].priority == config[j].priority && i < j)
  }

  predicate InRange(config: seq<Provider>, order: seq<nat>) {
    forall a | 0 <= a < |order| :: order[a] < |config|
  }

  predicate Sorted(config: seq<Provider>, order: seq<nat>)
    requires InRange(config, order)
  {
    forall a, b | 0 <= a < b < |order| :: Before(config, order[a], order[b])
  }

  /** The positions of all providers, in the order of a stable sort by priority. */
  predicate StableOrder(config: seq<Provider>, order: seq<nat>) {
    && InRange(config, order)
    && Sorted(config, order)
    && forall i: nat | i < |config| :: i in order
  }

  lemma InsertSorted(config: seq<Provider>, order: seq<nat>, p: nat, k: nat)
    requires k < |config| && p <= |order| && InRange(config, order) && Sorted(config, order)
    requires forall a | 0 <= a < p :: Before(config, order[a], k)
    requires forall a | p <= a < |order| :: Before(config, k, order[a])
    ensures InRange(config, order[..p] + [k] + order[p..]) && Sorted(config, order[..p] + [k] + order[p..])
    ensures k in order[..p] + [k] + order[p..] && forall i | i in order :: i in order[..p] + [k] + order[p..]
  {
    var more := order[..p] + [k] + order[p..];
    forall a | 0 <= a < |more| ensures more[a] == if a < p then order[a] else if a == p then k else order[a - 1] {
    }
    assert more[p] == k;
    forall i | i in order ensures i in more {
      var a :| 0 <= a < |order| && order[a] == i;
      assert more[if a < p then a else a + 1] == i;
    }
  }

  /** Build the order by inserting each provider behind all that go before it. */
  method FromConfig(config: seq<Provider>) returns (order: seq<nat>)
    ensures StableOrder(config, order)
  {
    order := [];
    for k := 0 to |config|
      invariant InRange(config, order) && Sorted(config, order)
      invariant forall a | 0 <= a < |order| :: order[a] < k
      invariant forall i: nat | i < k :: i in order
    {
      var p := |order|;
      while p > 0 && config[order[p - 1]].priority > config[k].priority
        invariant 0 <= p <= |order|
        invariant forall a | p <= a < |order| :: config[order[a]].priority > config[k].priority
      {
        p := p - 1;
      }
      InsertSorted(config, order, p, k);
      order := order[..p] + [k] + order[p..];
    }
  }

  /** A stable sort by priority has only one possible result. */
  lemma {:induction false} OrderIsUnique(config: seq<Provider>, a: seq<nat>, b: seq<nat>)
    requires InRange(config, a) && Sorted(config, a) && InRange(config, b) && Sorted(config, b)
    requires forall i :: i in a <==> i in b
    ensures a == b
    decreases |a|
  {
    assert b != [] ==> b[0] in a;
    if a != [] {
      assert a[0] in b;
      var i :| 0 <= i < |b| && b[i] == a[0];
      var j :| 0 <= j < |a| && a[j] == b[0];
      assert a[0] == b[0];
      forall x ensures x in a[1..] <==> x in b[1..] {
        assert x in a[1..] ==> x in a && x != a[0];
        assert x in b[1..] ==> x in b && x != b[0];
        assert x in a <==> x == a[0] || x in a[1..];
        assert x in b <==> x == b[0] || x in b[1..];
      }
      OrderIsUnique(config, a[1..], b[1..]);
    }
  }

  function Attempts(config: seq<Provider>, answers: seq<Answer>, tried: seq<nat>): seq<Attempt>
    requires |answers| == |config| && InRange(config, tried)
    requires forall a | 0 <= a < |tried| :: answers[tried[a]].Failure?
  {
    seq(|tried|, a requires 0 <= a < |tried| => Attempt(config[tried[a]].name, answers[tried[a]].error))
  }

  /** Try the providers one after the other; `answers` tells how each one would answer. The reply is
      that of the first healthy provider by priority and position, exactly the providers before it
      and itself are tried, once each and in order, and the attempts list all failures. */
  method Complete(config: seq<Provider>, order: seq<nat>, answers: seq<Answer>) returns (r: Outcome, tried: seq<nat>)
    requires StableOrder(config, order) && |answers| == |config|
    ensures tried <= order
    ensures r.Answered? ==>
              exists w: nat | w < |config| ::
                && answers[w] == Reply(r.text)
                && (forall i: nat | i < |config| && answers[i].Reply? :: i == w || Before(config, w, i))
                && (forall i: nat | i < |config| :: i in tried <==> i == w || Before(config, i, w))
    ensures r.AllProvidersFailed? ==>
              && (forall i: nat | i < |config| :: answers[i].Failure?)
              && tried == order
              && r.attempts == Attempts(config, answers, order)
  {
    tried := [];
    var attempts: seq<Attempt> := [];
    for k := 0 to |order|
      invariant tried == order[..k]
      invariant forall a | 0 <= a < k :: answers[order[a]].Failure?
      invariant |attempts| == k
      invariant forall a | 0 <= a < k :: attempts[a] == Attempt(config[order[a]].name, answers[order[a]].error)
    {
      var i := order[k];
      tried := tried + [i];
      match answers[i] {
        case Reply(text) =>
          WinnerIsFirst(config, order, answers, k);
          return Answered(text), tried;
        case Failure(error) =>
          attempts := attempts + [Attempt(config[i].name, error)];
      }
    }
    r := AllProvidersFailed(attempts);
    forall i: nat | i < |config| ensures answers[i].Failure? {
      assert i in order;
    }
  }

  /** In the sorted order, what stands before the first healthy provider is what goes before it. */
  lemma WinnerIsFirst(config: seq<Provider>, order: seq<nat>, answers: seq<Answer>, k: nat)
    requires StableOrder(config, order) && |answers| == |config| && k < |order|
    requires forall a | 0 <= a < k :: answers[order[a]].Failure?
    ensures forall i: nat | i < |config| && answers[i].Reply? :: i == order[k] || Before(config, order[k], i)
    ensures forall i: nat | i < |config| ::
              i in order[..k] + [order[k]] <==> i == order[k] || Before(config, i, order[k])
  {
    var w := order[k];
    forall i: nat | i < |config|
      ensures i in order[..k] + [w] <==> i == w || Before(config, i, w)
      ensures answers[i].Reply? ==> i == w || Before(config, w, i)
    {
      assert i in order;
      var a :| 0 <= a < |order| && order[a] == i;
      if a <= k {
        assert (order[..k] + [w])[a] == i;
      } else {
        assert Before(config, w, i);
        assert i !in order[..k] + [w];
      }
    }
  }
}
