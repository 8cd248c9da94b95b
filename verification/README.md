# Verification of the distributed web crawler

This project models the crawler's scheduler and workers in Dafny and proves what they guarantee.

* **The crawl protocol.** `Protocol.dfy` is the transition system of a crawl: task queues, workers,
  the result queue, the result consumers of the scheduler, the deduplication filter, the job keys and
  the request handlers. One event is one operation that is atomic in the deployed system: a Redis
  command on the filter, the read of a key, a delivery, publication or acknowledgement. So checking
  the filter, adding to it and publishing are three separate events of one consumer, and everybody
  else's events may come in between. The exceptions are the start of a job and the clearing of its
  keys, which write several keys and are one event here; `JobKeys.dfy` takes them apart. Losses,
  redelivery, failures, restarts, stops and expiry are events too. The web is an arbitrary link
  function (`Web.dfy`), defined independently of the crawl: link paths, frontiers and shortest
  distances. On top of it: conservation of messages (`Conservation.dfy`), bounds on
  duplication and on total work (`Duplication.dfy`, `WorkBound.dfy`), provenance of every task
  (`Provenance.dfy`), what a crawl has covered when it comes to rest (`Closure.dfy`), when it is a
  breadth-first search (`BreadthFirst.dfy`, `Fifo.dfy`, `Schedules.dfy`), termination
  (`Termination.dfy`), what a stop leaves (`Drain.dfy`) and whether the next job is free of it
  (`Isolation.dfy`).
* **The program text of the scheduler and of the worker's message loop.** `Deployment.dfy` has
  `processResult` with its loop, the crawl and stop handlers, queue purging and `processMessage` as
  methods of a class over the shared state. Every operation is recorded, and each method is proved to
  perform a run of the protocol, so that the results above hold of the program's state
  (`Guarantees.dfy`). Between two operations of a result consumer, of a request handler, of a robots
  caller or of a crawl, the method calls one whose contract allows whatever the others may do; callers
  rely on that contract alone.
* **The job keys and the watchdog** (`JobKeys.dfy`), with time to live, failures at each Redis
  command, rollback, and commands of different clients interleaved; and the watchdog beside a whole
  crawl (`Watchdog.dfy`), where it sees message counts but neither what workers and consumers hold nor
  the results that the broker has pushed to the consumers' clients ahead of time.
* **The politeness manager** (`Politeness.dfy`): slot reservation as an online schedule, and the
  sweeper that forgets old entries.
* **The robots.txt cache** (`Robots.dfy`) with callers that race between reading, fetching and writing.
* **Crawls** (`Fetching.dfy`): any number of concurrent crawls over one politeness manager and one
  robots checker, whose delays and verdicts are the answers of the transition system in `Robots.dfy`;
  and the program text of one crawl (`Crawling.dfy`), which records its steps and is proved to be part
  of such a run, so that the results hold of the crawler's state.
* **The batcher** (`Batcher.dfy`): two flush triggers and a reused backing array.

Where a promise of the documentation does not hold of the code, the project keeps the code and proves
exactly when the promise holds:

* Deduplication. `ARCHITECTURE.md:91-93` describes the filter as what keeps URLs from being crawled
  twice. With the five result consumers of `scheduler/internal/broker/broker.go:154` a URL can be
  published twice, even five times; with `n` consumers "at most m times" holds of all runs exactly if
  n <= m (`Schedules.AtMostIff`).
* Depth. A crawl that uses an exact filter and meets no fault is a breadth-first search under every
  schedule exactly if the depth limit is at most 1, or is 2 with one consumer
  (`Schedules.BreadthFirstForAllSchedulesIff`); if results are taken in nondecreasing order of
  depth, and with several consumers none is taken while another still holds a shallower one, it always
  is (`BreadthFirst.InOrderIsBreadthFirst`), as with first-in-first-out queues, one
  worker and one consumer (`Fifo.FifoCrawlIsBreadthFirst`).
* Stopping. `ARCHITECTURE.md:169-176` says that a stop halts the job and that everything after it is
  discarded. Expansions under way keep publishing when every queue is empty already
  (`Drain.StopCanBeOverrun` has such a run); `Drain.StopIsFinal` says exactly when nothing more is
  published, and `Drain.StopDrains` bounds it otherwise.
* One job at a time. `ARCHITECTURE.md:175` says that what workers and queues still hold after a stop is
  discarded. A result carries no mark of its job, so what is left of one is expanded under the keys of
  the next: `Isolation.JobIsolatedIff` says exactly when a new job publishes its own tasks only, and
  `Isolation.JobsCanMix` has a stop after which it does not.
* Inactivity. The watchdog ends a job whose tasks are all held by workers, or whose consumers are all
  busy, for longer than its timeout, even if further results wait in the consumers' clients, which
  acknowledge on delivery and take any number: `Watchdog.LookEndsIff` says exactly when a look ends a job, and
  `Watchdog.WorkCanBeEndedIff` that this can happen exactly if the keys outlive the timeout.
* Sweeping. `ARCHITECTURE.md:199-204` presents eviction after five minutes as a matter of memory only.
  A robots delay longer than that is forgotten before it is over: the sweeper goes unnoticed exactly
  with delays of at most `maxAge + 1` ticks (`Politeness.SweeperInvisibleIff`).
* Robots. The cache is keyed by host although robots.txt is requested by the scheme of the first URL;
  the answers agree with fetching exactly if the rules do not depend on the scheme
  (`Robots.CacheAgreesIff`).
* Job keys. `StartJob` and `ForceCleanupJob` are several commands; when those of different clients
  overlap, a new job can be left without max depth. `JobKeys.AgreeIff` says exactly when not, of any
  commands in any order, and `JobKeys.OverlapAgreesIff` of one start and one cleanup.
* Batching. `ARCHITECTURE.md:96` says that a goroutine is spawned for a full batch; the code inserts it
  in the loop itself, which is what is modelled.

## Model

| member | source | states |
|---|---|---|
| Protocol.ConsumersFixed | scheduler/internal/broker/broker.go:154-200 | The number of result consumers never changes. |
| Web.FrontierIsPathEnds | scheduler/internal/broker/broker.go:233-244 | "d hops from the seed" as computed level by level is the same as being the end of an explicit chain of d links. |
| Web.ShortestExists | scheduler/internal/broker/broker.go:233-244 | Every page within d hops has a shortest distance, which is at most d. |
| Conservation.Accounted | worker/internal/broker/broker.go:114-162 | In every reachable state each published task is in exactly one of ready, held, answered, acked, failed or lost; each result likewise; an acknowledged crawl has a result with its own URL and depth, and every result belongs to a crawled task. |
| Duplication.BoundedDuplication | scheduler/internal/broker/broker.go:239-249 | Over the scheduler's whole life, under every interleaving, redelivery and false positive, n consumers publish a URL at most n times, plus once per ignored error of adding it. |
| Duplication.OncePerConsumer | scheduler/internal/broker/broker.go:239-249 | If adds succeed, every URL is published at most as often as there are consumers, over all runs. |
| Duplication.SettledForever | scheduler/internal/handlers/crawl.go:92-98 | Once a URL is in the filter and no check of it is pending, consumers never publish it again. |
| Duplication.AddedFirstNeverRepublished | scheduler/internal/handlers/crawl.go:92-98 | A URL, such as the seed, whose addition precedes every check of it is never published by a consumer. |
| Schedules.AtMostIff | scheduler/internal/broker/broker.go:154-193 | "Each URL at most m times" holds of all runs with n consumers if and only if n <= m; the failing direction is a run in which every consumer publishes the same URL. |
| Provenance.PublishedProvenance | scheduler/internal/broker/broker.go:233-244 | Every task ever published ends a chain of exactly as many links as its depth from an accepted seed, and 0 <= depth <= max(0, maxDepth), across jobs, loss and redelivery. |
| WorkBound.TotalWork | scheduler/internal/broker/broker.go:205-252 | Crawling a seed to depth d with n consumers publishes at most one task per start, n per page within d hops - other than the seed, if its addition succeeded - and one per ignored add failure, however often tasks are redelivered. |
| WorkBound.TotalWorkOfJobs | scheduler/internal/broker/broker.go:205-252 | Any jobs from a set of seeds to depths up to a limit publish at most one task per start, n per page within the limit of some seed and one per ignored add failure. |
| Closure.ClosedAtRest | scheduler/internal/broker/broker.go:232-250 | When a fault-free crawl comes to rest, the filter has claimed every link of every page published above the depth limit. |
| Closure.ExactlyReachable | scheduler/internal/broker/broker.go:232-250 | With an exact filter and no page at the depth limit, the published pages are exactly those reachable from the seed, under every interleaving. |
| BreadthFirst.LevelByLevelIsBreadthFirst | scheduler/internal/broker/broker.go:233-250 | If a page is expanded only after everything shallower was, the crawl publishes exactly the pages within max(0, d) hops, each at its shortest distance. |
| BreadthFirst.InOrderIsBreadthFirst | scheduler/internal/broker/broker.go:233-250 | Taking results in nondecreasing order of depth is enough for that with one consumer; with several, if none takes a result while another still holds a shallower one. |
| BreadthFirst.TakenInOrderLeavesNothing | scheduler/internal/broker/broker.go:233-250 | In a crawl that comes to rest, that order alone rules out that anything shallower is left on any queue, with any worker or in any handler when a result is taken. |
| Fifo.FifoCrawlIsBreadthFirst | worker/internal/broker/broker.go:68-94 | One first-in-first-out task queue, one worker with one unacknowledged task and one consumer are enough for it, with no further assumption on order. |
| Fifo.FrontIsShallowest | worker/internal/broker/broker.go:68-94 | In such a pipeline nothing on its way is shallower than the result at the front. |
| Schedules.BreadthFirstForAllSchedulesIff | scheduler/internal/broker/broker.go:233-250 | Every schedule of every fault-free crawl to depth d with n consumers is a breadth-first search if and only if d <= 1, or d = 2 and n = 1. |
| Termination.RunWork | scheduler/internal/broker/broker.go:233-250 | Without redelivery and new jobs, every step - crawl, failure, loss, stop and purge included - uses up at least one unit of a work measure built from the links. |
| Termination.CrawlStops | scheduler/internal/broker/broker.go:205-252 | So a crawl to depth d takes at most 5 + PageCost(seed, max(0, d)) steps under every schedule. |
| Termination.RedeliveryNeverStops | worker/internal/broker/broker.go:68-112 | With redelivery there is no such bound: workers that go away before or after answering can have the one task of a fault-free crawl crawled any number of times. |
| Termination.GoesOnUntilQuiescent | scheduler/internal/broker/broker.go:205-252 | A crawl can go on without a fault if and only if it is not at rest: it never gets stuck half-way. |
| Drain.StopDrains | scheduler/internal/broker/broker.go:220-233 | Without the max-depth key and new jobs, at most the remaining links of the expansions under way and the accepted seeds are still published, whatever stale results arrive. |
| Drain.StopIsFinal | scheduler/internal/handlers/stop.go:33-53 | Clearing the keys ends all publication at once if and only if no accepted seed is unpublished and no expansion under way has a link left that the filter lacks. |
| Drain.StopCanBeOverrun | scheduler/internal/handlers/stop.go:33-53 | For any number of consumers, a run from deployment in which tasks are published after the stop and with every queue empty. |
| Isolation.JobIsolatedIff | scheduler/internal/broker/broker.go:220-233 | Until the next start a job publishes only tasks that descend from its own seed - whatever the job, the web, redelivery, failures and stops - if and only if, when it starts, no task of earlier jobs is queued or unacknowledged, no accepted seed is unpublished, and every result and expansion that is left has only links that are in the filter. |
| Isolation.JobsCanMix | scheduler/internal/handlers/stop.go:33-53 | For any number of consumers, a run from deployment that ends in a stop with every queue empty, after which the next job can publish tasks of the stopped one. |
| Lookups.LookupsInOrder | scheduler/internal/broker/broker.go:239-249 | However other steps come in between, a consumer looks up exactly the kept links of its result, once each and in order, or none if the key it read asks for no more depth. |
| Lookups.IdleMeansServed | scheduler/internal/broker/broker.go:205-252 | A consumer that is idle again has read max depth once and done so. |
| Deployment.Kept | scheduler/internal/broker/broker.go:238 | The number of links kept is the largest whole number not above the exact share and never more than there are; a drop rate of 0 keeps all, 1 none. |
| Deployment.Cluster.constructor | scheduler/cmd/scheduler/main.go:40-60 | A deployment starts in the protocol's initial state. |
| Deployment.Cluster.CheckUrlDuplicate | scheduler/internal/bloom/bloom.go:26-33 | Absent is answered if and only if Redis answers, the URL was never added and there is no false positive; the consumer's next stand follows. |
| Deployment.Cluster.AddToBloom | scheduler/internal/bloom/bloom.go:35-42 | The URL is added exactly if Redis does; the consumer goes on to publish either way. |
| Deployment.Cluster.InsertMessage | scheduler/internal/broker/broker.go:115-146 | A message is published exactly if the broker accepts it, and then put on the queue its URL is routed to. |
| Deployment.Cluster.ExpandLinks | scheduler/internal/broker/broker.go:239-249 | The loop over the kept links is a run of the protocol that ends with the consumer idle and in which every kept link was served: looked up, with the answer that filter, Redis and false positives determine, and if that was Absent added and, if the broker accepts it, published one level deeper. |
| Deployment.Cluster.ProcessResult | scheduler/internal/broker/broker.go:205-252 | Every body goes to the batcher and stamps the activity time, if Redis takes it; a malformed one does nothing else; otherwise the method is a run of the protocol, with others' steps in between: max depth is read once, and if it is deeper than the page exactly the kept links are looked up in order, each one that the filter does not know being added and published with that max depth; if not, none is looked up. |
| Deployment.Cluster.HandleCrawl | scheduler/internal/handlers/crawl.go:38-121 | A request that is turned down does nothing. One that gets the lock is accepted if and only if the broker is up and takes its seed; its own steps are then, whatever others do in between, start, addition and publication of the seed, on the right queue at depth 0, and it still has both keys unless somebody cleared them or they expired. Otherwise the seed is given up and no keys are left. |
| Deployment.Cluster.SeedJob | scheduler/internal/handlers/crawl.go:72-118 | After the lock the seed is added and then published if and only if broker and channel are up and take it, or else the job is given up with its keys cleared; nothing else is done. |
| Deployment.Cluster.PushResult | scheduler/internal/broker/broker.go:174-182 | A result pushed to a client leaves the result queue, but is not processed yet. |
| Deployment.Cluster.TakeResult | scheduler/internal/broker/broker.go:190-193 | A consumer takes a result that was pushed; purged or not, the result queue plays no part any more. |
| Deployment.Cluster.PurgeQueue | scheduler/internal/broker/broker.go:335-341 | A purge loses exactly the messages routed to that queue, and nothing else changes. |
| Deployment.Cluster.PurgeResults | scheduler/internal/broker/broker.go:343-347 | Exactly the results still on the queue are lost; those pushed to clients stay. |
| Deployment.Cluster.PurgeQueues | scheduler/internal/broker/broker.go:334-350 | Success if and only if all four purges work; every task queue up to the first failure was purged, and on success the result queue last, while others go on. |
| Deployment.Cluster.HandleStop | scheduler/internal/handlers/stop.go:15-63 | With an active job and whatever others do in between: the keys are cleared and stay so unless a job is started, after that the task queues are purged up to the first failure, and success with a broker means all four queues were; without a job nothing changes. The handler itself does nothing else. |
| Deployment.Cluster.ProcessMessage | worker/internal/broker/broker.go:114-162 | Every delivery is acknowledged, malformed ones included, and after its result with its own URL and depth if there is one. |
| Guarantees.ClusterState | scheduler/internal/broker/broker.go:205-252 | In every state the methods can reach, the queues, pushed results and unacknowledged deliveries account for all published tasks, and the duplication bound holds. |
| Guarantees.QueueHolds | scheduler/internal/broker/broker.go:53-64 | In every such state each task queue holds exactly the ready tasks whose URLs are routed to it. |
| Guarantees.CallsDrain | scheduler/internal/broker/broker.go:220-233 | Without the max-depth key, no call of any method publishes more than what was under way. |
| JobKeys.KeysAgree | scheduler/internal/db/redis.go:26-66 | With starts, stamps and cleanups as single steps, a live lock always comes with a live max depth and a live activity time. |
| JobKeys.AfterFields | scheduler/internal/db/redis.go:26-66 | The whole effect of each operation, rollback after a failed command included. |
| JobKeys.WatchdogFiresIff | scheduler/internal/broker/broker.go:312-331 | So the branch for a missing activity time is taken only when Redis fails to answer: the watchdog ends a job if and only if the queues are empty and the read fails or more than the timeout has passed since the last stamp. |
| JobKeys.JobSurvivesIff | scheduler/internal/broker/broker.go:266-331 | Within its time to live, a started job keeps the lock alone - every other start fails - and its max depth, if and only if no watchdog tick finds the queues empty longer than the timeout after the last stamp, or without being able to read it. |
| JobKeys.LockBalance | scheduler/internal/db/redis.go:26-66 | For every interleaving of single commands, successful SETNX minus effective releases is 1 while the lock lives and 0 otherwise. |
| JobKeys.LockIsExclusive | scheduler/internal/db/redis.go:28-34 | Two requests both get the lock only if it was deleted or expired in between. |
| JobKeys.AgreeIff | scheduler/internal/db/redis.go:26-66 | After any commands of any clients a held lock comes with max depth and activity time if and only if the last command that wrote each of the two set it and has not expired. |
| JobKeys.OverlapAgreesIff | scheduler/internal/db/redis.go:61-66 | When a start overlaps a cleanup that has just deleted the lock, the keys agree afterwards if and only if the cleanup deletes each of the two other keys before the start sets it. |
| JobKeys.OverlapCanBreak | scheduler/internal/db/redis.go:61-66 | An interleaving exists that leaves a live lock and no max depth. |
| JobKeys.JobStore.StartJob | scheduler/internal/db/redis.go:26-50 | The outcome and the commands issued, rollback included, for every state of the lock and every fault: success if and only if the lock was free and no command failed. |
| JobKeys.LockAnswer | scheduler/internal/db/redis.go:17-24 | The lock is held if and only if some SETNX took it, nobody deleted it since and less than the time to live has passed. |
| JobKeys.JobStore.IsJobActive | scheduler/internal/db/redis.go:17-24 | If Redis answers, it says so of the commands issued so far. |
| JobKeys.DepthAnswer | scheduler/internal/db/redis.go:52-59 | Max depth reads as d if and only if the last command that writes it set it to d and less than the time to live has passed since. |
| JobKeys.JobStore.GetMaxDepth | scheduler/internal/db/redis.go:52-59 | If Redis answers, it says so of the commands issued so far. |
| JobKeys.JobStore.ForceCleanupJob | scheduler/internal/db/redis.go:61-66 | The three keys are deleted, in this order: lock, max depth, activity time. |
| JobKeys.JobStore.StampActivity | scheduler/internal/broker/broker.go:209-212 | The activity time becomes the current second; nothing else changes. |
| JobKeys.JobStore.CheckJobStatus | scheduler/internal/broker/broker.go:266-331 | No command is issued unless Redis and the broker answer and every inspected queue is empty; then the three keys are deleted if and only if a job is active and its activity time is unreadable, missing or more than the timeout old. |
| Watchdog.CrawlIsProtocolRun | scheduler/internal/broker/broker.go:257-331 | A crawl beside timed keys and the watchdog only reaches states that the protocol reaches; lock and max depth expire together. |
| Watchdog.PushedWaits | scheduler/internal/broker/broker.go:174-193 | The results that wait in clients are among those no consumer has taken yet. |
| Watchdog.LookEndsIff | scheduler/internal/broker/broker.go:288-331 | A look of the watchdog ends the active job if and only if the broker counts no task and no result and the activity time cannot be read or the last start of a job or stamped taking of a result is more than the timeout ago, in whole seconds, whatever workers, consumers and their clients hold. |
| Watchdog.WorkCanBeEndedIff | scheduler/internal/broker/broker.go:288-331 | A run in which it ends a job while a worker holds a task, while a result waits in a client, or while a consumer is busy, exists - for each of the three - if and only if the keys outlive the timeout. |
| Politeness.PolitenessManager.Enforce | worker/internal/crawler/politeness.go:27-59 | The slot given extends the host's slots in the run so far; other hosts' entries stay. |
| Politeness.PolitenessManager.Clean | worker/internal/crawler/politeness.go:71-83 | Whatever the order of the hosts, exactly the entries older than maxAge go, and they are counted. |
| Politeness.Slot | worker/internal/crawler/politeness.go:30-45 | A slot is not before its request, keeps the delay to a remembered slot, and one of the two is tight. |
| Politeness.SweeperInvisible | worker/internal/crawler/politeness.go:71-83 | With delays of at most maxAge + 1 ticks, every interleaving with sweeps reserves the slots of a manager that never evicts. |
| Politeness.SweeperInvisibleIff | worker/internal/crawler/politeness.go:71-83 | That holds of all runs with delays up to d if and only if d <= maxAge + 1. |
| Politeness.SweepKeepsRecent | worker/internal/crawler/politeness.go:76-81 | After a sweep the map is the full history without the entries older than maxAge. |
| Politeness.GreedyIsOptimal | worker/internal/crawler/politeness.go:27-47 | Slot n is the maximum over k <= n of arrival k plus the delays since, and no schedule that keeps arrivals and delays in lock order has an earlier one. |
| Politeness.HostIndependence | worker/internal/crawler/politeness.go:27-47 | Leaving out the requests of other hosts changes neither the slots nor the entry of a host. |
| Politeness.RateBound | worker/internal/crawler/politeness.go:27-58 | With delays of at least d, any window of length l holds at most l / min(d, maxAge + 1) + 1 slots of a host, sweeper included. |
| Robots.Interpret | worker/internal/robots/robots.go:71-93 | A response yields rules if and only if its status is 200 or 4xx: those found in the body for 200, and otherwise none; other statuses are errors. |
| Robots.UncachedFollows | worker/internal/robots/robots.go:42-138 | Without a cache: a page may be fetched if and only if there are no rules or they allow its path, and the delay is the one they ask for or 0; an error if and only if the URL or its host is missing. |
| Robots.CacheAgreesIff | worker/internal/robots/robots.go:42-103 | With racing callers and fetches failing at any time, every answer that is no error equals the uncached one in all runs if and only if the rules do not depend on the scheme. |
| Robots.RunSound | worker/internal/robots/robots.go:42-137 | The invariant behind it: cache, callers under way and answers agree with the server. |
| Robots.EntriesStay | worker/internal/robots/robots.go:96-98 | An entry, once written, never goes and never answers differently. |
| Robots.FetchedRarely | worker/internal/robots/robots.go:42-98 | n racing callers fetch a host's robots.txt successfully at most n times in all; used sequentially, at most once. |
| Robots.RobotChecker.IsAllowed | worker/internal/robots/robots.go:31-104 | An error if and only if the URL is bad or an uncached fetch fails; otherwise, for rules that depend on the host only, what the server's rules say of the path, and yes without rules. |
| Robots.RobotChecker.GetCrawlDelay | worker/internal/robots/robots.go:107-138 | An error if and only if the URL is bad or this call had to request robots.txt and failed, which it has to only if the host was not cached; otherwise, for rules that depend on the host only, the delay that they ask for, and 0 without rules. |
| Fetching.FetchDiscipline | worker/internal/crawler/crawler.go:79-116 | In any concurrent run of crawls each page request comes after a true verdict that the robots checker gave this crawl once its wait was over, and no earlier than a slot reserved for the page's host with the delay the checker had answered, or the default if it answered none above 0; no two calls share a slot. |
| Fetching.FetchAllowed | worker/internal/crawler/crawler.go:79-116 | If rules depend on the host alone, every requested page is one whose path the server's rules allow, and the delay kept is the one they ask for or the default. |
| Fetching.RequestsBounded | worker/internal/crawler/politeness.go:27-58 | By time t a host has no more page requests, failed ones included, than returns of Enforce, no more of those than slots, and at most t / min(d, maxAge + 1) + 1 slots if neither rules nor default ask for less than d, whatever is cancelled. |
| Crawling.LinksComplete | worker/internal/crawler/crawler.go:138-159 | A URL is among the links of a page if and only if some anchor resolves to it. |
| Crawling.LinksInOrder | worker/internal/crawler/crawler.go:138-159 | The links are what the anchors that resolve resolve to, in the order of the anchors, none left out or repeated. |
| Crawling.Crawler.CollectLinks | worker/internal/crawler/crawler.go:138-159 | The accumulating loop computes exactly those links, in order. |
| Crawling.Crawler.SweepHosts | worker/internal/crawler/politeness.go:71-83 | A tick of the cleaner forgets exactly the hosts whose last slot is more than maxAge ago and is part of the recorded run. |
| Crawling.Crawler.CrawlUrl | worker/internal/crawler/crawler.go:57-168 | One crawl is one call of the recorded run, carried to its end: its slot is for the host of the URL as received, robots questions and the request are for the normalised URL. For rules that depend on the host only, the slot's delay is the one they ask for if they could be had, and the default if they ask for none; the page is requested only if they allow it, and always if they can be had and do; if they do not, that is reported. The result carries the page's links. |
| Crawling.CrawlerDisciplined | worker/internal/crawler/crawler.go:79-116 | The discipline of page requests, of every state of the crawler. |
| Crawling.CrawlerPaced | worker/internal/crawler/politeness.go:27-58 | The bound on page requests to a host, of every state of the crawler. |
| Batcher.NothingLost | scheduler/internal/db/db.go:43-88 | The batches in order followed by the buffer are the well-formed documents received, each once and in order, without their links. |
| Batcher.BufferBelowSize | scheduler/internal/db/db.go:70-79 | Between inputs the buffer holds fewer than 100 documents. |
| Batcher.FlushSizes | scheduler/internal/db/db.go:48-85 | A message that makes 100 documents flushes exactly these, a tick flushes the 1 to 99 there are, and nothing else is flushed. |
| Batcher.FewInserts | scheduler/internal/db/db.go:43-88 | All batches but those forced by ticks are full: 100 times the number of batches, plus the buffer, never exceeds the documents received plus 99 per tick. |
| Batcher.Batcher.OnTick | scheduler/internal/db/db.go:48-62 | A tick hands over a fresh array if and only if something is buffered. |
| Batcher.Batcher.OnMessage | scheduler/internal/db/db.go:63-85 | A message hands over a fresh array if and only if it is the 100th document buffered; reusing the backing array alters no batch handed over before. |
| Batcher.Batcher.BatchInsert | scheduler/internal/db/db.go:43-88 | The loop over any inputs keeps buffer and batches equal to the specification and every earlier batch unaltered. |

## Left out

- RabbitMQ, Redis and MongoDB clients, connection set-up and reconnection: only their effect appears, as events and as arguments that say which service answers.
- Which consumer's client a pushed result waits in: `Watchdog` and `Deployment` keep pushed results apart from the result queue, `Protocol` does not, as none of its steps depends on it.
- Redis commands that time out although Redis applied them: a failed command of an operation is taken to have had no effect. `JobKeys.AgreeIff`, `JobKeys.LockAnswer` and `JobKeys.DepthAnswer` speak of the commands that took effect and cover them.
- The prefetch limit and the fixed numbers of queues' workers: `Protocol` lets workers hold any number of tasks, which covers every limit; `Fifo` has one worker with one task.
- Which of the three queues holds a task: kept in `Deployment` through an arbitrary routing function, not in `Protocol`.
- Hashing and sizes inside the Bloom filter, and its set-up: the filter is a set with arbitrary false positives, never cleared.
- URL parsing, reference resolution, normalisation, HTML and robots.txt parsing: given functions. Page bodies, `raw_html` and `has_robots` are not part of the messages.
- Changing web pages and changing robots rules: results that speak of the web take its links as fixed, and the robots results take a server's rules as fixed.
- JSON: a body is a message or malformed.
- Deployment.Kept: does not model the float32 rounding of the drop rate, and covers rates from 0 to 1 only, because others make the source panic on the slice.
- Deployment.Cluster.HandleCrawl: the mode without Redis is left out.
- Deployment.Cluster.PurgeQueue: one purge is recorded as one loss per message.
- Deployment.Cluster.ProcessMessage: result and acknowledgement come without others in between in the method; `Protocol` interleaves them.
- Deployment.Cluster.StartJob: sets the keys in one step; the single commands, failures and expiry are in `JobKeys`.
- JobKeys.KeysAgree: takes each start, stamp, cleanup and watchdog tick as one step and deletions as successful; `JobKeys.OverlapAgreesIff` says what happens when a start and a cleanup overlap. In `Watchdog` the handlers' and the watchdog's steps are single steps likewise.
- An unparsable activity time: nothing writes one, so it is not a value of the key.
- Redirects that the HTTP client follows by itself: they can reach hosts for which no slot was reserved and no verdict was asked; a page request is the one request that the crawl sends.
- Crawling.Crawler.CrawlUrl: the slot is reserved for the host of the URL as received, the request goes to the normalised URL; the two hosts can differ in spelling. Spacing is stated for slots, not for when a woken goroutine gets to send.
- Politeness and time: the clock is read in whole ticks and does not go backwards.
- Errors of `InsertMany`: batches are those handed over; the code only logs a failed insertion.
- HTTP routing, metrics, logging, configuration, containers: no state to reason about.
