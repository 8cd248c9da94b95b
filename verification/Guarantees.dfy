/** What the results about protocol runs say of the scheduler's program state, which is always
    the end of such a run. */
module Guarantees {
  import opened Models
  import opened Protocol
  import opened Conservation
  import opened Duplication
  import opened Drain
  import opened Deployment

  /** Wherever the scheduler's methods stand: the messages on its queues and the unacknowledged
      deliveries are exactly the published tasks that were not acknowledged or lost, and no URL has been
      expanded by the consumers more often than there are consumers and ignored add failures. */
  lemma ClusterState(c: Cluster, u: Url)
    requires c.Valid()
    ensures var n, log := |c.Model().consumers|, c.Model().log;
      && log.published == c.queues[0] + c.queues[1] + c.queues[2] + c.unacked + log.acked + log.failed + log.lost
      && log.outputs == c.resultQueue + c.delivered + log.consumed + log.lostResults
      && PerUrl(log.expansions, u, n) <= n + PerUrl(log.failedAdds, u, n)
  {
    hide Step, Init;
    var n := |c.states[0].consumers|;
    ConsumersFixed(c.states, c.events, |c.events|);
    Accounted(c.states, c.events, n);
    BoundedDuplication(c.states, c.events, n, u);
  }

  /** Each queue holds exactly the ready tasks whose URLs are routed to it; so whatever a step adds to
      the ready tasks, it adds to the right queue. */
  lemma QueueHolds(c: Cluster, q: nat, t: Task)
    requires c.Valid() && q < 3
    ensures c.queues[q][t] == if c.route(t.url) % 3 == q then c.Model().ready[t] else 0
  {
    hide Step, Init;
    var at := c.route(t.url) % 3;
    assert forall p | 0 <= p < 3 && p != at :: t !in c.queues[p];
  }

  /** Without the max-depth key, no call of any of the scheduler's methods can publish more than
      what was under way, as long as no job is started. */
  twostate lemma CallsDrain(c: Cluster)
    requires old(c.Valid()) && c.Valid() && c.Continued()
    requires old(c.maxDepth.None?)
    requires forall e <- c.events[|old(c.events)|..] :: !e.StartJob?
    ensures c.maxDepth.None?
    ensures |c.Model().log.published| + ToCome(c.Model())
         <= |old(c.Model()).log.published| + ToCome(old(c.Model()))
  {
    hide ToCome, Init, Step;
    var j, k := |old(c.events)|, |c.events|;
    assert c.states[j] == old(c.states)[j];
    forall m | j <= m < k
      ensures !c.events[m].StartJob?
    {
      assert c.events[m] == c.events[j..][m - j];
      assert c.events[j..][m - j] in c.events[j..];
    }
    StopDrains(c.states, c.events, j, k);
  }
}
