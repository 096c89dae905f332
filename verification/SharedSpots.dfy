/** Sub-agent spot sharing: the walk along cached parent ids of relay/clients.py. */
module SharedSpots {
  import opened QueueModel

  /** (client base URL, session id) to parent id; None or "" for a session that is no child. */
  type Parents = map<(string, string), Option<string>>

  predicate HasParent(parents: Parents, base: string, id: string, parent: string) {
    (base, id) in parents && parents[(base, id)] == Some(parent) && parent != ""
  }

  /** A walk along resolved parents that never comes back to an earlier session. */
  ghost predicate Chain(parents: Parents, base: string, path: seq<string>) {
    && |path| >= 1
    && (forall i :: 0 <= i < |path| - 1 ==> HasParent(parents, base, path[i], path[i + 1]))
    && NoDup(path)
  }

  /** The ancestor at the end is tracked and none in between is. */
  ghost predicate EndsAtNearest(sessions: map<Key, SessionState>, client: string, path: seq<string>) {
    && |path| >= 2
    && Key(client, path[|path| - 1]) in sessions
    && forall i :: 0 < i < |path| - 1 ==> Key(client, path[i]) !in sessions
  }

  ghost predicate Leads(parents: Parents, sessions: map<Key, SessionState>, base: string, client: string,
      id: string, path: seq<string>)
  {
    Chain(parents, base, path) && path[0] == id && EndsAtNearest(sessions, client, path)
  }

  /** The spot of a tracked ancestor: its own, else the live one it shares, else its key. */
  function SpotOf(sessions: map<Key, SessionState>, spots: set<Key>, k: Key): Key
    requires k in sessions
  {
    if k in spots then k
    else if sessions[k].shared.Some? && sessions[k].shared.value in spots then sessions[k].shared.value
    else k
  }

  /** The spot a child of the tracked session k runs on: the one k owns; else the live one it
      shares; else, with neither, k itself. */
  predicate RunsOn(sessions: map<Key, SessionState>, spots: set<Key>, k: Key, spot: Key)
    requires k in sessions
  {
    && (k in spots ==> spot == k)
    && (k !in spots ==>
          match sessions[k].shared
          case Some(shared) => spot == if shared in spots then shared else k
          case None => spot == k)
  }

  /** r is the spot of the nearest tracked ancestor within depth steps, None if there is none. */
  ghost predicate IsAnswer(parents: Parents, sessions: map<Key, SessionState>, spots: set<Key>, base: string,
      client: string, id: string, depth: int, r: Option<Key>)
  {
    && (forall path :: Leads(parents, sessions, base, client, id, path) && |path| - 1 <= depth ==>
          r.Some? && RunsOn(sessions, spots, Key(client, path[|path| - 1]), r.value))
    && (r.Some? ==> exists path :: Leads(parents, sessions, base, client, id, path) && |path| - 1 <= depth)
  }

  /** Parents are unique, so two walks from one session agree as far as both go. */
  lemma {:induction false} ChainsAgree(parents: Parents, base: string, a: seq<string>, b: seq<string>, n: nat)
    requires Chain(parents, base, a) && Chain(parents, base, b) && a[0] == b[0]
    requires n < |a| && n < |b|
    ensures a[n] == b[n]
  {
    if n > 0 {
      ChainsAgree(parents, base, a, b, n - 1);
      assert HasParent(parents, base, a[n - 1], a[n - 1 + 1]) && HasParent(parents, base, b[n - 1], b[n - 1 + 1]);
    }
  }

  /** A walk that leads to an ancestor goes beyond any walk that has met no tracked one. */
  lemma LeadsBeyond(parents: Parents, sessions: map<Key, SessionState>, base: string, client: string,
      walked: seq<string>, path: seq<string>)
    requires Chain(parents, base, walked)
    requires forall i :: 0 < i < |walked| ==> Key(client, walked[i]) !in sessions
    requires Leads(parents, sessions, base, client, walked[0], path)
    ensures |path| > |walked| && path[..|walked|] == walked
    ensures HasParent(parents, base, walked[|walked| - 1], path[|walked|]) && path[|walked|] !in walked
  {
    if |path| <= |walked| {
      ChainsAgree(parents, base, walked, path, |path| - 1);
      assert false;
    }
    forall i | 0 <= i < |walked|
      ensures path[i] == walked[i]
    {
      ChainsAgree(parents, base, walked, path, i);
    }
    var n := |walked|;
    assert HasParent(parents, base, path[n - 1], path[n - 1 + 1]);
  }

  method ResolveSharedSpot(base: string, id: string, parents: Parents, sessions: map<Key, SessionState>,
      spots: set<Key>, client: string, depth: int) returns (r: Option<Key>)
    ensures IsAnswer(parents, sessions, spots, base, client, id, depth, r)
  {
    var current := id;
    var seen := {current};
    ghost var walked := [id];
    var i := 0;
    while i < depth
      invariant 0 <= i && (i <= depth || i == 0)
      invariant Chain(parents, base, walked) && walked[0] == id && walked[|walked| - 1] == current
      invariant |walked| == i + 1
      invariant forall x :: x in seen <==> x in walked
      invariant forall j :: 0 < j < |walked| ==> Key(client, walked[j]) !in sessions
    {
      if (base, current) !in parents {
        NoLead(parents, sessions, base, client, walked);
        return None;
      }
      var parent := parents[(base, current)];
      if parent.None? || parent.value == "" || parent.value in seen {
        NoLead(parents, sessions, base, client, walked);
        return None;
      }
      seen := seen + {parent.value};
      walked := walked + [parent.value];
      assert HasParent(parents, base, current, parent.value);
      var k := Key(client, parent.value);
      if k in sessions {
        Found(parents, sessions, base, client, walked);
        return Some(SpotOf(sessions, spots, k));
      }
      current := parent.value;
      i := i + 1;
    }
    TooDeep(parents, sessions, base, client, walked);
    return None;
  }

  lemma NoLead(parents: Parents, sessions: map<Key, SessionState>, base: string, client: string, walked: seq<string>)
    requires Chain(parents, base, walked)
    requires forall i :: 0 < i < |walked| ==> Key(client, walked[i]) !in sessions
    requires forall next :: HasParent(parents, base, walked[|walked| - 1], next) ==> next in walked
    ensures forall path :: !Leads(parents, sessions, base, client, walked[0], path)
  {
    forall path | Leads(parents, sessions, base, client, walked[0], path)
      ensures false
    {
      LeadsBeyond(parents, sessions, base, client, walked, path);
    }
  }

  lemma TooDeep(parents: Parents, sessions: map<Key, SessionState>, base: string, client: string, walked: seq<string>)
    requires Chain(parents, base, walked)
    requires forall i :: 0 < i < |walked| ==> Key(client, walked[i]) !in sessions
    ensures forall path :: Leads(parents, sessions, base, client, walked[0], path) ==> |path| > |walked|
  {
    forall path | Leads(parents, sessions, base, client, walked[0], path)
      ensures |path| > |walked|
    {
      LeadsBeyond(parents, sessions, base, client, walked, path);
    }
  }

  lemma TrackedIsLast(sessions: map<Key, SessionState>, client: string, path: seq<string>, i: nat)
    requires EndsAtNearest(sessions, client, path) && 0 < i < |path| && Key(client, path[i]) in sessions
    ensures i == |path| - 1
  {
  }

  /** The walk that led to the nearest tracked ancestor is the only one. */
  lemma Found(parents: Parents, sessions: map<Key, SessionState>, base: string, client: string, found: seq<string>)
    requires |found| >= 1 && Leads(parents, sessions, base, client, found[0], found)
    ensures forall path :: Leads(parents, sessions, base, client, found[0], path) ==> path == found
  {
    var walked := found[..|found| - 1];
    assert Chain(parents, base, walked) by {
      assert forall i :: 0 <= i < |walked| ==> walked[i] == found[i];
    }
    forall path | Leads(parents, sessions, base, client, found[0], path)
      ensures path == found
    {
      LeadsBeyond(parents, sessions, base, client, walked, path);
      ChainsAgree(parents, base, found, path, |found| - 1);
      TrackedIsLast(sessions, client, path, |found| - 1);
    }
  }

  // ------------------------------------------------------------------- depth

  ghost function CachedIds(parents: Parents, base: string): set<string> {
    set k | k in parents && k.0 == base :: k.1
  }

  lemma {:induction false} DistinctInSet(s: seq<string>, ids: set<string>)
    requires NoDup(s) && forall x :: x in s ==> x in ids
    ensures |s| <= |ids|
    decreases |s|
  {
    if s != [] {
      assert forall x :: x in s[1..] ==> x in s && x != s[0];
      DistinctInSet(s[1..], ids - {s[0]});
    }
  }

  /** A walk visits each cached session at most once before it stops. */
  lemma ChainIsShort(parents: Parents, base: string, path: seq<string>)
    requires Chain(parents, base, path)
    ensures |path| - 1 <= |CachedIds(parents, base)|
  {
    var steps := path[..|path| - 1];
    forall x | x in steps
      ensures x in CachedIds(parents, base)
    {
      var i :| 0 <= i < |steps| && steps[i] == x;
      assert HasParent(parents, base, path[i], path[i + 1]);
      assert (base, x) in parents && (base, x).0 == base;
    }
    DistinctInSet(steps, CachedIds(parents, base));
  }

  /** Any depth from the number of cached sessions on gives the answer of an unbounded walk,
      on cyclic parent maps too. */
  lemma DepthDoesNotMatter(parents: Parents, sessions: map<Key, SessionState>, spots: set<Key>, base: string,
      client: string, id: string, depth: int, r: Option<Key>)
    requires depth >= |CachedIds(parents, base)|
    requires IsAnswer(parents, sessions, spots, base, client, id, depth, r)
    ensures forall path :: Leads(parents, sessions, base, client, id, path) ==>
              r.Some? && RunsOn(sessions, spots, Key(client, path[|path| - 1]), r.value)
    ensures r.Some? <==> exists path :: Leads(parents, sessions, base, client, id, path)
  {
    forall path | Leads(parents, sessions, base, client, id, path)
      ensures |path| - 1 <= depth
    {
      ChainIsShort(parents, base, path);
    }
  }

  /** The answer is determined. */
  lemma AnswerIsUnique(parents: Parents, sessions: map<Key, SessionState>, spots: set<Key>, base: string,
      client: string, id: string, depth: int, r1: Option<Key>, r2: Option<Key>)
    requires IsAnswer(parents, sessions, spots, base, client, id, depth, r1)
    requires IsAnswer(parents, sessions, spots, base, client, id, depth, r2)
    ensures r1 == r2
  {
  }
}
