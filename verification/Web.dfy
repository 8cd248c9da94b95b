/** The web as an arbitrary link function, and what "d hops away" means in it. */
module Web {
  import opened Models

  type Links = Url -> seq<Url>

  ghost function Successors(web: Links, us: set<Url>): set<Url> {
    set u, v | u in us && v in web(u) :: v
  }

  /** The pages at the end of some chain of exactly `d` links from `seed`. */
  ghost function Frontier(web: Links, seed: Url, d: nat): set<Url> {
    if d == 0 then {seed} else Successors(web, Frontier(web, seed, d - 1))
  }

  /** The pages at most `d` hops from `seed`. */
  ghost function Within(web: Links, seed: Url, d: nat): set<Url> {
    if d == 0 then {seed} else Within(web, seed, d - 1) + Frontier(web, seed, d)
  }

  ghost predicate IsPath(web: Links, p: seq<Url>) {
    && |p| > 0
    && forall k | 0 < k < |p| :: p[k] in web(p[k - 1])
  }

  ghost predicate Shortest(web: Links, seed: Url, u: Url, d: int) {
    && d >= 0
    && u in Frontier(web, seed, d)
    && forall k: nat | k < d :: u !in Frontier(web, seed, k)
  }

  ghost predicate Reachable(web: Links, seed: Url, u: Url) {
    exists d: nat :: u in Frontier(web, seed, d)
  }

  lemma PathMore(web: Links, p: seq<Url>, u: Url)
    requires IsPath(web, p) && u in web(p[|p| - 1])
    ensures IsPath(web, p + [u]) && (p + [u])[0] == p[0] && (p + [u])[|p|] == u
  {
  }

  lemma PathLess(web: Links, p: seq<Url>)
    requires IsPath(web, p) && |p| > 1
    ensures IsPath(web, p[..|p| - 1]) && p[..|p| - 1][0] == p[0] && p[..|p| - 1][|p| - 2] == p[|p| - 2]
    ensures p[|p| - 1] in web(p[|p| - 2])
  {
  }

  /** Frontiers are path ends: the set recursion and explicit link chains agree. */
  lemma {:induction false} FrontierIsPathEnds(web: Links, seed: Url, u: Url, d: nat)
    ensures u in Frontier(web, seed, d) <==>
            exists p :: IsPath(web, p) && |p| == d + 1 && p[0] == seed && p[d] == u
    decreases d
  {
    if d == 0 {
      if u == seed {
        assert IsPath(web, [seed]) && [seed][0] == seed;
      }
    } else {
      if u in Frontier(web, seed, d) {
        var w :| w in Frontier(web, seed, d - 1) && u in web(w);
        FrontierIsPathEnds(web, seed, w, d - 1);
        var p :| IsPath(web, p) && |p| == d && p[0] == seed && p[d - 1] == w;
        PathMore(web, p, u);
      }
      if p :| IsPath(web, p) && |p| == d + 1 && p[0] == seed && p[d] == u {
        FrontierIsPathEnds(web, seed, p[d - 1], d - 1);
        PathLess(web, p);
      }
    }
  }

  lemma FrontierLink(web: Links, seed: Url, u: Url, v: Url, d: nat)
    requires u in Frontier(web, seed, d) && v in web(u)
    ensures v in Frontier(web, seed, d + 1)
  {
  }

  lemma {:induction false} FrontierWithin(web: Links, seed: Url, u: Url, k: nat, d: nat)
    requires k <= d
    requires u in Frontier(web, seed, k)
    ensures u in Within(web, seed, d)
    decreases d
  {
    if k < d {
      FrontierWithin(web, seed, u, k, d - 1);
    }
  }

  lemma {:induction false} WithinGrows(web: Links, seed: Url, d: nat, e: nat)
    requires d <= e
    ensures Within(web, seed, d) <= Within(web, seed, e)
    decreases e
  {
    if d < e {
      WithinGrows(web, seed, d, e - 1);
    }
  }

  /** Every page within `d` hops has a shortest distance, which is at most `d`. */
  lemma {:induction false} ShortestExists(web: Links, seed: Url, u: Url, d: nat)
    requires u in Within(web, seed, d)
    ensures exists k: nat | k <= d :: Shortest(web, seed, u, k)
  {
    if d > 0 && u in Within(web, seed, d - 1) {
      ShortestExists(web, seed, u, d - 1);
    } else {
      assert u in Frontier(web, seed, d);
      forall k: nat | k < d
        ensures u !in Frontier(web, seed, k)
      {
        if u in Frontier(web, seed, k) {
          FrontierWithin(web, seed, u, k, d - 1);
        }
      }
      assert Shortest(web, seed, u, d);
    }
  }

  /** One more hop reaches every link of what was already within reach. */
  lemma {:induction false} LinkWithin(web: Links, seed: Url, u: Url, v: Url, d: nat)
    requires u in Within(web, seed, d)
    requires v in web(u)
    ensures v in Within(web, seed, d + 1)
  {
    if u in Frontier(web, seed, d) {
      assert v in Frontier(web, seed, d + 1);
    } else {
      LinkWithin(web, seed, u, v, d - 1);
    }
  }
}
