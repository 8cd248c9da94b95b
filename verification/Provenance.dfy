/** Where messages come from: every URL in the system is the end of a link path from an
    accepted seed, and its depth is the length of that path. */
module Provenance {
  import opened Models
  import opened Web
  import opened Protocol
  import opened Conservation

  /** Pages have the links that `web` gives them, and jobs start at one of `seeds`. */
  ghost predicate FromWeb(web: Links, seeds: set<Url>, e: Event) {
    && (e.Emit? ==> e.next == web(e.t.url))
    && (e.StartJob? ==> e.seed in seeds)
  }

  ghost predicate RunOnWeb(web: Links, seeds: set<Url>, ss: seq<State>, es: seq<Event>) {
    IsRun(ss, es) && forall e <- es :: FromWeb(web, seeds, e)
  }

  /** Some path of exactly `d` links leads from a seed to `u`. */
  ghost predicate Sound(web: Links, seeds: set<Url>, u: Url, d: int) {
    d >= 0 && exists seed :: seed in seeds && u in Frontier(web, seed, d)
  }

  ghost predicate SoundTask(web: Links, seeds: set<Url>, t: Task) {
    Sound(web, seeds, t.url, t.depth) && t.depth <= Max(0, t.maxDepth)
  }

  ghost predicate SoundResult(web: Links, seeds: set<Url>, r: UrlData) {
    Sound(web, seeds, r.url, r.depth) && r.nextUrls == web(r.url)
  }

  ghost predicate SoundConsumer(web: Links, seeds: set<Url>, c: Consumer) {
    match c
    case Idle => true
    case Received(r) => SoundResult(web, seeds, r)
    case Expanding(r, d, rest) =>
      SoundResult(web, seeds, r) && r.depth < d && (forall v <- rest :: v in r.nextUrls)
    case Checked(r, d, rest, url) =>
      SoundResult(web, seeds, r) && r.depth < d && (forall v <- rest :: v in r.nextUrls) && url in r.nextUrls
    case Claimed(r, d, rest, url) =>
      SoundResult(web, seeds, r) && r.depth < d && (forall v <- rest :: v in r.nextUrls) && url in r.nextUrls
  }

  ghost predicate Provenanced(web: Links, seeds: set<Url>, s: State) {
    && (forall t <- s.log.published :: SoundTask(web, seeds, t))
    && (forall r <- s.log.outputs :: SoundResult(web, seeds, r))
    && (forall i | 0 <= i < |s.consumers| :: SoundConsumer(web, seeds, s.consumers[i]))
    && (forall h <- s.handlers :: h.url in seeds)
  }

  /** A link of a sound page is a sound page one deeper. */
  lemma NewTaskSound(web: Links, seeds: set<Url>, c: Consumer)
    requires c.Claimed? && SoundConsumer(web, seeds, c)
    ensures SoundTask(web, seeds, NewTask(c))
  {
    var seed :| seed in seeds && c.r.url in Frontier(web, seed, c.r.depth);
    assert c.url in Frontier(web, seed, c.r.depth + 1);
  }

  lemma MovedSound(web: Links, seeds: set<Url>, s: State, c: Consumer, act: Act)
    requires CanAct(s, c, act) && SoundConsumer(web, seeds, c)
    requires act.Consume? ==> SoundResult(web, seeds, act.r)
    ensures SoundConsumer(web, seeds, Moved(s, c, act))
  {
    match act
    case Check(reply) => assert c.rest[0] in c.rest;
    case _ =>
  }

  lemma ActProvenanced(web: Links, seeds: set<Url>, s: State, i: nat, act: Act, s': State)
    requires Acts(s, i, act, s') && Provenanced(web, seeds, s)
    requires act.Consume? ==> SoundResult(web, seeds, act.r)
    ensures Provenanced(web, seeds, s')
  {
    hide SoundResult, SoundTask, SoundConsumer;
    var c := s.consumers[i];
    assert SoundConsumer(web, seeds, c);
    MovedSound(web, seeds, s, c, act);
    if act.Publish? {
      NewTaskSound(web, seeds, c);
    }
    hide Moved;
    ActKeepsSound(web, seeds, s, i, act, s');
  }

  /** One changed consumer and at most one new task. */
  lemma ActKeepsSound(web: Links, seeds: set<Url>, s: State, i: nat, act: Act, s': State)
    requires Acts(s, i, act, s') && Provenanced(web, seeds, s)
    requires SoundConsumer(web, seeds, Moved(s, s.consumers[i], act))
    requires act.Publish? ==> SoundTask(web, seeds, NewTask(s.consumers[i]))
    ensures Provenanced(web, seeds, s')
  {
    hide SoundResult, SoundTask, SoundConsumer, Moved, CanAct;
  }

  lemma SourceProvenanced(web: Links, seeds: set<Url>, s: State, e: Event, s': State)
    requires SourceEffect(s, e, s') && FromWeb(web, seeds, e) && Provenanced(web, seeds, s)
    requires e.Emit? ==> SoundTask(web, seeds, e.t)
    ensures Provenanced(web, seeds, s')
  {
    if e.SeedPublish? {
      assert e.h.url in Frontier(web, e.h.url, 0);
      assert SoundTask(web, seeds, Task(e.h.url, 0, e.h.maxDepth));
    } else if e.Emit? {
      assert SoundResult(web, seeds, UrlData(e.t.url, e.t.depth, e.next));
    }
    hide SoundTask, SoundResult, SoundConsumer;
  }

  lemma QuietProvenanced(web: Links, seeds: set<Url>, s: State, s': State)
    requires QuietEffect(s, s') && Provenanced(web, seeds, s)
    ensures Provenanced(web, seeds, s')
  {
    hide SoundTask, SoundResult, SoundConsumer;
  }

  /** What was crawled or taken was sound. */
  lemma TakenSound(web: Links, seeds: set<Url>, s: State, e: Event)
    requires Enabled(s, e) && Provenanced(web, seeds, s) && Conserved(s)
    ensures e.Emit? ==> SoundTask(web, seeds, e.t)
    ensures e.By? && e.act.Consume? ==> SoundResult(web, seeds, e.act.r)
  {
    hide SoundTask, SoundResult, SoundConsumer;
    if e.Emit? {
      assert TaskAt(s, e.t);
    } else if e.By? && e.act.Consume? {
      assert ResultAt(s, e.act.r);
    }
  }

  lemma StepProvenanced(web: Links, seeds: set<Url>, s: State, e: Event, s': State)
    requires Step(s, e, s') && FromWeb(web, seeds, e) && Provenanced(web, seeds, s) && Conserved(s)
    ensures Provenanced(web, seeds, s')
  {
    hide Enabled, Next, FromWeb, Provenanced, Conserved, SoundTask, SoundResult;
    TakenSound(web, seeds, s, e);
    if e.By? {
      ByFields(s, e, s');
      ActProvenanced(web, seeds, s, e.i, e.act, s');
    } else if Source(e) {
      SourceFields(s, e, s');
      SourceProvenanced(web, seeds, s, e, s');
    } else {
      QuietFields(s, e, s');
      QuietProvenanced(web, seeds, s, s');
    }
  }

  lemma NothingToProve(web: Links, seeds: set<Url>, s: State, n: nat)
    requires Init(s, n)
    ensures Provenanced(web, seeds, s)
  {
  }

  lemma {:induction false} RunProvenanced(web: Links, seeds: set<Url>, ss: seq<State>,
                                          es: seq<Event>, n: nat, k: nat)
    requires RunOnWeb(web, seeds, ss, es) && Init(ss[0], n) && k < |ss|
    ensures Provenanced(web, seeds, ss[k])
  {
    if k > 0 {
      hide Next, Enabled, Provenanced, Conserved;
      RunProvenanced(web, seeds, ss, es, n, k - 1);
      RunConserved(ss, es, n, k - 1);
      assert Step(ss[k - 1], es[k - 1], ss[k]);
      assert es[k - 1] in es;
      StepProvenanced(web, seeds, ss[k - 1], es[k - 1], ss[k]);
    } else {
      hide *;
      NothingToProve(web, seeds, ss[0], n);
    }
  }

  /** Across jobs, losses, redelivery and interleavings, every task ever published lies at the
      end of an explicit chain of as many links as its depth says, starting at an accepted
      seed, and no deeper than its job allows. */
  lemma PublishedProvenance(web: Links, seeds: set<Url>, ss: seq<State>, es: seq<Event>, n: nat, t: Task)
    requires RunOnWeb(web, seeds, ss, es) && Init(ss[0], n)
    requires t in Last(ss).log.published
    ensures 0 <= t.depth <= Max(0, t.maxDepth)
    ensures exists p :: IsPath(web, p) && |p| == t.depth + 1 && p[0] in seeds && p[t.depth] == t.url
  {
    RunProvenanced(web, seeds, ss, es, n, |es|);
    assert SoundTask(web, seeds, t);
    var seed :| seed in seeds && t.url in Frontier(web, seed, t.depth);
    FrontierIsPathEnds(web, seed, t.url, t.depth);
  }
}
