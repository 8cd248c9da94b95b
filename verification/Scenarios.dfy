/** Stretches of fault-free runs with an exact filter, from which concrete runs are put
    together. */
module Scenarios {
  import opened Models
  import opened Web
  import opened Protocol
  import opened Provenance
  import opened WorkBound
  import opened Closure

  lemma Go(web: Links, seed: Url, d: int, ss: seq<State>, es: seq<Event>, e: Event)
    returns (ss': seq<State>, es': seq<Event>)
    requires ExactRun(web, seed, d, ss, es)
    requires Enabled(Last(ss), e) && FromWeb(web, {seed}, e) && OneTarget(seed, d, e)
    requires Faultless(Last(ss), e) && Exact(Last(ss), e)
    ensures |ss'| > 0 && ExactRun(web, seed, d, ss', es')
    ensures ss'[0] == ss[0] && Last(ss') == Next(Last(ss), e)
  {
    ss', es' := ss + [Next(Last(ss), e)], es + [e];
    hide Next, Enabled, FromWeb, OneTarget, Faultless, Exact;
    forall k | 0 <= k < |es'|
      ensures Step(ss'[k], es'[k], ss'[k + 1]) && Faultless(ss'[k], es'[k]) && Exact(ss'[k], es'[k])
      ensures FromWeb(web, {seed}, es'[k]) && OneTarget(seed, d, es'[k])
    {
      if k < |es| {
        assert es[k] in es && Step(ss[k], es[k], ss[k + 1]);
      }
    }
  }

  /** A crawl request up to the addition of its seed to the filter. */
  lemma LockJob(web: Links, seed: Url, d: int, s0: State, n: nat)
    returns (ss: seq<State>, es: seq<Event>)
    requires Init(s0, n)
    ensures |ss| > 0 && ExactRun(web, seed, d, ss, es) && ss[0] == s0
    ensures Last(ss) == s0.(active := Some(seed), maxDepth := Some(d), filter := {seed},
                            handlers := multiset{Seeding(seed, d, true)}, log := NO_LOG.(starts := 1))
  {
    var h := Seeding(seed, d, false);
    ss, es := Go(web, seed, d, [s0], [], StartJob(seed, d));
    assert Last(ss).handlers == multiset{h};
    ss, es := Go(web, seed, d, ss, es, SeedAdd(h, true));
    assert Last(ss).handlers == multiset{h.(added := true)} && Last(ss).filter == {seed};
  }

  /** ... and up to its publication. */
  lemma StartCrawl(web: Links, seed: Url, d: int, s0: State, n: nat)
    returns (ss: seq<State>, es: seq<Event>)
    requires Init(s0, n)
    ensures |ss| > 0 && ExactRun(web, seed, d, ss, es) && ss[0] == s0
    ensures var s := Last(ss);
            && s.consumers == s0.consumers && s.filter == {seed} && s.maxDepth == Some(d)
            && s.ready == s.log.published == multiset{Task(seed, 0, d)}
            && s.held == s.done == multiset{} && s.results == multiset{} && s.handlers == multiset{}
            && s.log.expansions == multiset{} && s.log.emitted == multiset{} && s.log.starts == 1
  {
    ss, es := LockJob(web, seed, d, s0, n);
    ss, es := Go(web, seed, d, ss, es, SeedPublish(Seeding(seed, d, true)));
  }

  ghost predicate SameButTasks(s: State, s': State) {
    && s'.held == s.held && s'.done == s.done && s'.handlers == s.handlers
    && s'.maxDepth == s.maxDepth && s'.filter == s.filter
    && s'.log.expansions == s.log.expansions && s'.log.published == s.log.published
    && s'.log.starts == s.log.starts
  }

  lemma AnswerTask(web: Links, seed: Url, d: int, ss0: seq<State>, es0: seq<Event>, t: Task)
    returns (ss: seq<State>, es: seq<Event>)
    requires ExactRun(web, seed, d, ss0, es0) && t in Last(ss0).ready
    ensures |ss| > 0 && ExactRun(web, seed, d, ss, es) && ss[0] == ss0[0]
    ensures var s0, r := Last(ss0), UrlData(t.url, t.depth, web(t.url));
            Last(ss) == s0.(ready := s0.ready - multiset{t}, done := s0.done + multiset{t},
                            results := s0.results + multiset{r},
                            log := s0.log.(emitted := s0.log.emitted + multiset{t},
                            outputs := s0.log.outputs + multiset{r}))
  {
    ss, es := Go(web, seed, d, ss0, es0, Deliver(t));
    ss, es := Go(web, seed, d, ss, es, Emit(t, web(t.url)));
    hide ExactRun;
    assert Last(ss).held == Last(ss0).held;
  }

  lemma CrawlTask(web: Links, seed: Url, d: int, ss0: seq<State>, es0: seq<Event>, t: Task)
    returns (ss: seq<State>, es: seq<Event>)
    requires ExactRun(web, seed, d, ss0, es0) && t in Last(ss0).ready
    ensures |ss| > 0 && ExactRun(web, seed, d, ss, es) && ss[0] == ss0[0]
    ensures SameButTasks(Last(ss0), Last(ss)) && Last(ss).consumers == Last(ss0).consumers
    ensures Last(ss).ready == Last(ss0).ready - multiset{t}
    ensures Last(ss).results == Last(ss0).results + multiset{UrlData(t.url, t.depth, web(t.url))}
  {
    ss, es := AnswerTask(web, seed, d, ss0, es0, t);
    hide ExactRun;
    ss, es := Go(web, seed, d, ss, es, Ack(t));
    assert Last(ss).done == Last(ss0).done;
  }

  /** A ready task is crawled, and consumer `i` starts on its result. */
  lemma CrawlPage(web: Links, seed: Url, d: int, ss0: seq<State>, es0: seq<Event>, t: Task, i: nat)
    returns (ss: seq<State>, es: seq<Event>)
    requires ExactRun(web, seed, d, ss0, es0)
    requires t in Last(ss0).ready && Last(ss0).maxDepth == Some(d) && Last(ss0).results == multiset{}
    requires i < |Last(ss0).consumers| && Last(ss0).consumers[i].Idle?
    ensures |ss| > 0 && ExactRun(web, seed, d, ss, es) && ss[0] == ss0[0]
    ensures SameButTasks(Last(ss0), Last(ss))
    ensures Last(ss).ready == Last(ss0).ready - multiset{t} && Last(ss).results == multiset{}
    ensures var r := UrlData(t.url, t.depth, web(t.url));
            Last(ss).consumers == Last(ss0).consumers[i :=
              if t.depth < d then Expanding(r, d, r.nextUrls) else Idle]
  {
    var r := UrlData(t.url, t.depth, web(t.url));
    ss, es := CrawlTask(web, seed, d, ss0, es0, t);
    ss, es := TakeResult(web, seed, d, ss, es, r, i);
  }

  lemma TakeResult(web: Links, seed: Url, d: int, ss0: seq<State>, es0: seq<Event>, r: UrlData, i: nat)
    returns (ss: seq<State>, es: seq<Event>)
    requires ExactRun(web, seed, d, ss0, es0)
    requires Last(ss0).results == multiset{r} && Last(ss0).maxDepth == Some(d)
    requires i < |Last(ss0).consumers| && Last(ss0).consumers[i].Idle?
    ensures |ss| > 0 && ExactRun(web, seed, d, ss, es) && ss[0] == ss0[0]
    ensures SameButTasks(Last(ss0), Last(ss))
    ensures Last(ss).ready == Last(ss0).ready && Last(ss).results == multiset{}
    ensures Last(ss).consumers == Last(ss0).consumers[i :=
              if r.depth < d then Expanding(r, d, r.nextUrls) else Idle]
  {
    ss, es := Go(web, seed, d, ss0, es0, By(i, Consume(r)));
    ss, es := Go(web, seed, d, ss, es, By(i, ReadDepth(true, |r.nextUrls|)));
    assert r.nextUrls[..|r.nextUrls|] == r.nextUrls;
  }

  ghost predicate Untouched(s: State, s': State) {
    && s'.held == s.held && s'.done == s.done && s'.handlers == s.handlers
    && s'.maxDepth == s.maxDepth && s'.results == s.results && s'.log.starts == s.log.starts
  }

  /** Consumer `i` publishes its next link, which is not in the filter. */
  lemma ExpandLink(web: Links, seed: Url, d: int, ss0: seq<State>, es0: seq<Event>, i: nat)
    returns (ss: seq<State>, es: seq<Event>)
    requires ExactRun(web, seed, d, ss0, es0)
    requires i < |Last(ss0).consumers| && Last(ss0).consumers[i].Expanding?
    requires Last(ss0).consumers[i].rest != [] && Last(ss0).consumers[i].rest[0] !in Last(ss0).filter
    ensures |ss| > 0 && ExactRun(web, seed, d, ss, es) && ss[0] == ss0[0]
    ensures var s0 := Last(ss0); var s := Last(ss); var c := s0.consumers[i];
            var t := Task(c.rest[0], c.r.depth + 1, c.maxDepth);
            && Untouched(s0, s)
            && s.ready == s0.ready + multiset{t} && s.filter == s0.filter + {c.rest[0]}
            && s.consumers == s0.consumers[i := Expanding(c.r, c.maxDepth, c.rest[1..])]
            && s.log.expansions == s0.log.expansions + multiset{(i, c.rest[0])}
            && s.log.published == s0.log.published + multiset{t}
  {
    ss, es := Go(web, seed, d, ss0, es0, By(i, Check(Absent)));
    ss, es := Go(web, seed, d, ss, es, By(i, Add(true)));
    ss, es := Go(web, seed, d, ss, es, By(i, Publish(true)));
  }

  /** Consumer `i` skips its remaining links, which are all in the filter, and is idle. */
  lemma {:induction false} SkipRest(web: Links, seed: Url, d: int, ss0: seq<State>, es0: seq<Event>, i: nat)
    returns (ss: seq<State>, es: seq<Event>)
    requires ExactRun(web, seed, d, ss0, es0)
    requires i < |Last(ss0).consumers| && Last(ss0).consumers[i].Expanding?
    requires forall v <- Last(ss0).consumers[i].rest :: v in Last(ss0).filter
    ensures |ss| > 0 && ExactRun(web, seed, d, ss, es) && ss[0] == ss0[0]
    ensures var s0 := Last(ss0); var s := Last(ss);
            && Untouched(s0, s) && s.ready == s0.ready && s.filter == s0.filter
            && s.consumers == s0.consumers[i := Idle]
            && s.log.expansions == s0.log.expansions && s.log.published == s0.log.published
    decreases |Last(ss0).consumers[i].rest|
  {
    if Last(ss0).consumers[i].rest == [] {
      ss, es := Go(web, seed, d, ss0, es0, By(i, Finish));
    } else {
      ss, es := Go(web, seed, d, ss0, es0, By(i, Check(Present)));
      ss, es := SkipRest(web, seed, d, ss, es, i);
    }
  }
}
