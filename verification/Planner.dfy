/**
 The order of an explicit collaboration plan.  A step is named by its authored index; 0 stands
 for an id or a prompt that validation refuses.
 */
module Planner {
  import opened Wrappers

  datatype Step = Step(id: nat, agent: nat, prompt: nat, dependsOn: seq<nat>)

  datatype PlanError = StepCount | InvalidStep | UnknownAgent | InvalidPrompt | InvalidDependency | Cycle

  // ---- What a plan must look like -------------------------------------------------------

  predicate ValidSteps(members: set<nat>, raw: seq<Step>)
  {
    && 1 <= |raw| <= 16
    && (forall i :: 0 <= i < |raw| ==> raw[i].id != 0 && raw[i].agent in members && raw[i].prompt != 0)
    && (forall i, j :: 0 <= i < j < |raw| ==> raw[i].id != raw[j].id)
  }

  predicate Names(raw: seq<Step>, id: nat)
  {
    exists i :: 0 <= i < |raw| && raw[i].id == id
  }

  predicate ValidDependencies(raw: seq<Step>, s: Step)
  {
    && (forall k :: 0 <= k < |s.dependsOn| ==> s.dependsOn[k] != s.id && Names(raw, s.dependsOn[k]))
    && (forall k, l :: 0 <= k < l < |s.dependsOn| ==> s.dependsOn[k] != s.dependsOn[l])
  }

  predicate ValidPlan(members: set<nat>, raw: seq<Step>)
  {
    ValidSteps(members, raw) && forall i :: 0 <= i < |raw| ==> ValidDependencies(raw, raw[i])
  }

  predicate Needs(raw: seq<Step>, i: nat, j: nat)
  {
    i < |raw| && j < |raw| && raw[j].id in raw[i].dependsOn
  }

  /** A round trip along dependencies. */
  predicate IsCycle(raw: seq<Step>, c: seq<nat>)
  {
    && c != []
    && (forall k :: 0 <= k < |c| - 1 ==> Needs(raw, c[k], c[k + 1]))
    && Needs(raw, c[|c| - 1], c[0])
  }

  ghost predicate Cyclic(raw: seq<Step>)
  {
    exists c :: IsCycle(raw, c)
  }

  predicate Ready(raw: seq<Step>, i: nat, done: seq<nat>)
  {
    forall j :: 0 <= j < |raw| && Needs(raw, i, j) ==> j in done
  }

  /** Distinct steps, each after everything it needs. */
  predicate InOrder(raw: seq<Step>, order: seq<nat>)
  {
    && (forall k :: 0 <= k < |order| ==> order[k] < |raw| && Ready(raw, order[k], order[..k]))
    && (forall k, l :: 0 <= k < l < |order| ==> order[k] != order[l])
  }

  predicate Complete(raw: seq<Step>, order: seq<nat>)
  {
    InOrder(raw, order) && |order| == |raw|
  }

  /** Each choice was the first authored step that was ready. */
  predicate FirstReady(raw: seq<Step>, order: seq<nat>)
  {
    forall k, i :: 0 <= k < |order| && 0 <= i < order[k] && i !in order[..k] ==> i < |raw| ==> !Ready(raw, i, order[..k])
  }

  /** `a` comes no later than `b` in the dictionary order of authored indices. */
  predicate NotAfter(a: seq<nat>, b: seq<nat>)
  {
    a == b || exists k :: 0 <= k < |a| && k < |b| && a[..k] == b[..k] && a[k] < b[k]
  }

  // ---- Validation ------------------------------------------------------------------------

  method CheckSteps(members: set<nat>, raw: seq<Step>) returns (e: Option<PlanError>)
    ensures e.None? <==> ValidSteps(members, raw)
    ensures e != Some(Cycle) && e != Some(InvalidDependency)
  {
    if |raw| < 1 || |raw| > 16 {
      return Some(StepCount);
    }
    var seen: set<nat> := {};
    var i := 0;
    while i < |raw|
      invariant 0 <= i <= |raw|
      invariant forall id :: id in seen <==> Names(raw[..i], id)
      invariant forall k :: 0 <= k < i ==> raw[k].id != 0 && raw[k].agent in members && raw[k].prompt != 0
      invariant forall k, l :: 0 <= k < l < i ==> raw[k].id != raw[l].id
    {
      var s := raw[i];
      if s.id == 0 || s.id in seen {
        if s.id in seen {
          var k :| 0 <= k < |raw[..i]| && raw[..i][k].id == s.id;
          assert raw[k].id == raw[i].id;
        }
        return Some(InvalidStep);
      }
      if s.agent !in members {
        return Some(UnknownAgent);
      }
      if s.prompt == 0 {
        return Some(InvalidPrompt);
      }
      forall k | 0 <= k < i
        ensures raw[k].id != s.id
      {
        assert raw[..i][k].id == raw[k].id;
        assert Names(raw[..i], raw[k].id);
      }
      NamesNext(raw, i);
      seen := seen + {s.id};
      i := i + 1;
    }
    return None;
  }

  lemma NamesNext(raw: seq<Step>, i: nat)
    requires i < |raw|
    ensures forall id :: Names(raw[..i + 1], id) <==> Names(raw[..i], id) || id == raw[i].id
  {
    forall id
      ensures Names(raw[..i + 1], id) <==> Names(raw[..i], id) || id == raw[i].id
    {
      if Names(raw[..i + 1], id) {
        var k :| 0 <= k < i + 1 && raw[..i + 1][k].id == id;
        assert k < i ==> raw[..i][k].id == id;
      }
      if Names(raw[..i], id) {
        var k :| 0 <= k < i && raw[..i][k].id == id;
        assert raw[..i + 1][k].id == id;
      }
      assert raw[..i + 1][i] == raw[i];
    }
  }

  method CheckDependencies(raw: seq<Step>, s: Step) returns (ok: bool)
    ensures ok <==> ValidDependencies(raw, s)
  {
    var seen: set<nat> := {};
    var k := 0;
    while k < |s.dependsOn|
      invariant 0 <= k <= |s.dependsOn|
      invariant forall d :: d in seen <==> exists l :: 0 <= l < k && s.dependsOn[l] == d
      invariant forall l :: 0 <= l < k ==> s.dependsOn[l] != s.id && Names(raw, s.dependsOn[l])
      invariant forall l, m :: 0 <= l < m < k ==> s.dependsOn[l] != s.dependsOn[m]
    {
      var d := s.dependsOn[k];
      if d == s.id || !Names(raw, d) || d in seen {
        return false;
      }
      seen := seen + {d};
      k := k + 1;
    }
    return true;
  }

  // ---- The order ----------------------------------------------------------------------------

  /** Config.Plan on an explicit plan. */
  method Plan(members: set<nat>, raw: seq<Step>) returns (r: Result<seq<nat>, PlanError>)
    ensures r.Success? <==> ValidPlan(members, raw) && !Cyclic(raw)
    ensures r == Failure(Cycle) <==> ValidPlan(members, raw) && Cyclic(raw)
    ensures r.Success? ==> Complete(raw, r.value)
    ensures r.Success? ==> forall other :: Complete(raw, other) ==> NotAfter(r.value, other)
  {
    var e := CheckSteps(members, raw);
    if e.Some? {
      return Failure(e.value);
    }
    var i := 0;
    while i < |raw|
      invariant 0 <= i <= |raw|
      invariant forall k :: 0 <= k < i ==> ValidDependencies(raw, raw[k])
    {
      var ok := CheckDependencies(raw, raw[i]);
      if !ok {
        return Failure(InvalidDependency);
      }
      i := i + 1;
    }
    var order: seq<nat> := [];
    while |order| < |raw|
      invariant InOrder(raw, order) && FirstReady(raw, order) && |order| <= |raw|
      decreases |raw| - |order|
    {
      var next := FindReady(raw, order);
      if next == |raw| {
        StuckIsCyclic(raw, order);
        return Failure(Cycle);
      }
      OneMore(raw, order, next);
      order := order + [next];
    }
    OrderedIsAcyclic(raw, order);
    forall other | Complete(raw, other)
      ensures NotAfter(order, other)
    {
      FirstReadyIsLeast(raw, order, other);
    }
    return Success(order);
  }

  /** The inner loop: the first authored step that is not done and waits for nothing, or |raw|. */
  method FindReady(raw: seq<Step>, order: seq<nat>) returns (next: nat)
    requires InOrder(raw, order)
    requires forall i, j :: 0 <= i < j < |raw| ==> raw[i].id != raw[j].id
    requires forall i :: 0 <= i < |raw| ==> ValidDependencies(raw, raw[i])
    ensures next <= |raw|
    ensures next < |raw| ==> next !in order && Ready(raw, next, order)
    ensures forall i :: 0 <= i < next && i !in order ==> !Ready(raw, i, order)
  {
    next := 0;
    while next < |raw|
      invariant next <= |raw|
      invariant forall i :: 0 <= i < next && i !in order ==> !Ready(raw, i, order)
    {
      if next !in order {
        var s := raw[next];
        var ready := true;
        var k := 0;
        while k < |s.dependsOn|
          invariant 0 <= k <= |s.dependsOn| && ready
          invariant forall l :: 0 <= l < k ==> Done(raw, order, s.dependsOn[l])
        {
          if !Done(raw, order, s.dependsOn[k]) {
            ready := false;
            break;
          }
          k := k + 1;
        }
        if ready {
          DoneIsReady(raw, order, next);
          return;
        }
        UndoneIsNotReady(raw, order, next, k);
      }
      next := next + 1;
    }
  }

  /** done[id]. */
  predicate Done(raw: seq<Step>, order: seq<nat>, id: nat)
  {
    exists k :: 0 <= k < |order| && order[k] < |raw| && raw[order[k]].id == id
  }

  lemma DoneIsReady(raw: seq<Step>, order: seq<nat>, i: nat)
    requires i < |raw| && (forall a, b :: 0 <= a < b < |raw| ==> raw[a].id != raw[b].id)
    requires forall l :: 0 <= l < |raw[i].dependsOn| ==> Done(raw, order, raw[i].dependsOn[l])
    ensures Ready(raw, i, order)
  {
    forall j | 0 <= j < |raw| && Needs(raw, i, j)
      ensures j in order
    {
      var l :| 0 <= l < |raw[i].dependsOn| && raw[i].dependsOn[l] == raw[j].id;
      var k :| 0 <= k < |order| && order[k] < |raw| && raw[order[k]].id == raw[j].id;
      assert order[k] == j;
    }
  }

  lemma UndoneIsNotReady(raw: seq<Step>, order: seq<nat>, i: nat, l: nat)
    requires i < |raw| && l < |raw[i].dependsOn| && ValidDependencies(raw, raw[i])
    requires !Done(raw, order, raw[i].dependsOn[l])
    ensures !Ready(raw, i, order)
  {
    var j :| 0 <= j < |raw| && raw[j].id == raw[i].dependsOn[l];
    assert Needs(raw, i, j);
    assert j !in order;
  }

  lemma OneMore(raw: seq<Step>, order: seq<nat>, next: nat)
    requires InOrder(raw, order) && FirstReady(raw, order)
    requires next < |raw| && next !in order && Ready(raw, next, order)
    requires forall i :: 0 <= i < next && i !in order ==> !Ready(raw, i, order)
    ensures InOrder(raw, order + [next]) && FirstReady(raw, order + [next])
    ensures |order| + 1 <= |raw|
  {
    var more := order + [next];
    forall k | 0 <= k < |more|
      ensures more[..k] == order[..if k < |order| then k else |order|]
    {
    }
    assert order[..|order|] == order;
    DistinctFits(more, |raw|);
  }

  /** Distinct indices below a bound are no more than the bound. */
  lemma {:induction false} DistinctFits(s: seq<nat>, n: nat)
    requires forall k :: 0 <= k < |s| ==> s[k] < n
    requires forall k, l :: 0 <= k < l < |s| ==> s[k] != s[l]
    ensures |s| <= n
    decreases n
  {
    if s != [] {
      assert s[0] < n;
    }
    if n > 0 {
      if n - 1 in s {
        var p :| 0 <= p < |s| && s[p] == n - 1;
        DistinctFits(s[..p] + s[p + 1..], n - 1);
      } else {
        DistinctFits(s, n - 1);
      }
    }
  }

  // ---- Acceptance is acyclicity --------------------------------------------------------------

  lemma {:induction false} CoversAll(raw: seq<Step>, order: seq<nat>, i: nat)
    requires Complete(raw, order) && i < |raw|
    ensures i in order
  {
    if i !in order {
      DistinctFits(order + [i], |raw|);
    }
  }

  function Position(order: seq<nat>, i: nat): (p: nat)
    requires i in order
    ensures p < |order| && order[p] == i
  {
    if order[0] == i then 0 else 1 + Position(order[1..], i)
  }

  /** Along a dependency the position falls. */
  lemma NeedsIsEarlier(raw: seq<Step>, order: seq<nat>, i: nat, j: nat)
    requires Complete(raw, order) && Needs(raw, i, j) && i in order && j in order
    ensures Position(order, j) < Position(order, i)
  {
    var p := Position(order, i);
    assert j in order[..p];
    var q :| 0 <= q < p && order[..p][q] == j;
    var r := Position(order, j);
    assert r == q || r < q || q < r;
  }

  lemma {:induction false} FallsAlong(raw: seq<Step>, order: seq<nat>, c: seq<nat>, k: nat)
    requires Complete(raw, order) && IsCycle(raw, c) && k < |c|
    requires forall i :: 0 <= i < |c| ==> c[i] in order
    ensures Position(order, c[k]) <= Position(order, c[0])
    decreases k
  {
    if k > 0 {
      FallsAlong(raw, order, c, k - 1);
      NeedsIsEarlier(raw, order, c[k - 1], c[k]);
    }
  }

  lemma NeedsInRange(raw: seq<Step>, i: nat, j: nat)
    requires Needs(raw, i, j)
    ensures i < |raw|
  {
  }

  lemma OrderedIsAcyclic(raw: seq<Step>, order: seq<nat>)
    requires Complete(raw, order)
    ensures !Cyclic(raw)
  {
    hide Needs, Ready, InOrder, Position;
    forall c | IsCycle(raw, c)
      ensures false
    {
      forall i | 0 <= i < |c|
        ensures c[i] in order
      {
        assert i < |c| - 1 ==> Needs(raw, c[i], c[i + 1]);
        NeedsInRange(raw, c[i], if i < |c| - 1 then c[i + 1] else c[0]);
        CoversAll(raw, order, c[i]);
      }
      FallsAlong(raw, order, c, |c| - 1);
      NeedsIsEarlier(raw, order, c[|c| - 1], c[0]);
      assert false;
    }
  }

  /** A walk along unmet dependencies. */
  predicate Walk(raw: seq<Step>, order: seq<nat>, w: seq<nat>)
  {
    && w != []
    && (forall k :: 0 <= k < |w| ==> w[k] < |raw| && w[k] !in order)
    && (forall k :: 0 <= k < |w| - 1 ==> Needs(raw, w[k], w[k + 1]))
    && (forall k, l :: 0 <= k < l < |w| ==> w[k] != w[l])
  }

  lemma Unmet(raw: seq<Step>, order: seq<nat>, i: nat) returns (j: nat)
    requires !Ready(raw, i, order)
    ensures j < |raw| && Needs(raw, i, j) && j !in order
  {
    j :| 0 <= j < |raw| && Needs(raw, i, j) && j !in order;
  }

  lemma WalkTurnsBack(raw: seq<Step>, order: seq<nat>, w: seq<nat>, p: nat)
    requires Walk(raw, order, w) && p < |w| && Needs(raw, w[|w| - 1], w[p])
    ensures Cyclic(raw)
  {
    hide Needs;
    var c := w[p..];
    forall k | 0 <= k < |c| - 1
      ensures Needs(raw, c[k], c[k + 1])
    {
      assert Needs(raw, w[p + k], w[p + k + 1]);
    }
    assert IsCycle(raw, c);
  }

  lemma WalkGoesOn(raw: seq<Step>, order: seq<nat>, w: seq<nat>, j: nat)
    requires Walk(raw, order, w) && j < |raw| && j !in order && j !in w && Needs(raw, w[|w| - 1], j)
    ensures Walk(raw, order, w + [j]) && |w| < |raw|
  {
    hide Needs;
    DistinctFits(w + [j], |raw|);
  }

  lemma {:induction false} WalkCloses(raw: seq<Step>, order: seq<nat>, w: seq<nat>)
    requires Walk(raw, order, w)
    requires forall i :: 0 <= i < |raw| && i !in order ==> !Ready(raw, i, order)
    ensures Cyclic(raw)
    decreases |raw| - |w|
  {
    hide Needs, Ready, Cyclic;
    var j := Unmet(raw, order, w[|w| - 1]);
    if j in w {
      var p :| 0 <= p < |w| && w[p] == j;
      WalkTurnsBack(raw, order, w, p);
    } else {
      WalkGoesOn(raw, order, w, j);
      WalkCloses(raw, order, w + [j]);
    }
  }

  lemma StuckIsCyclic(raw: seq<Step>, order: seq<nat>)
    requires InOrder(raw, order) && |order| < |raw|
    requires forall i :: 0 <= i < |raw| && i !in order ==> !Ready(raw, i, order)
    ensures Cyclic(raw)
  {
    hide Needs, Ready, Cyclic;
    if i :| 0 <= i < |raw| && i !in order {
      WalkCloses(raw, order, [i]);
    } else {
      AllIndices(order, |raw|);
    }
  }

  /** A sequence that holds every index below `n` has at least `n` entries. */
  lemma {:induction false} AllIndices(s: seq<nat>, n: nat)
    requires forall i :: 0 <= i < n ==> i in s
    ensures |s| >= n
    decreases n
  {
    if n > 0 {
      assert n - 1 in s;
      var p :| 0 <= p < |s| && s[p] == n - 1;
      var rest := s[..p] + s[p + 1..];
      forall i | 0 <= i < n - 1
        ensures i in rest
      {
        assert i in s;
        var q :| 0 <= q < |s| && s[q] == i;
        assert q < p ==> rest[q] == i;
        assert q > p ==> rest[q - 1] == i;
      }
      AllIndices(rest, n - 1);
    }
  }

  // ---- The least order ---------------------------------------------------------------------------

  /** The first place where two orders differ. */
  lemma {:induction false} FirstDifference(a: seq<nat>, b: seq<nat>) returns (k: nat)
    requires |a| == |b| && a != b
    ensures k < |a| && a[..k] == b[..k] && a[k] != b[k]
    decreases |a|
  {
    if a[0] != b[0] {
      k := 0;
    } else {
      k := FirstDifference(a[1..], b[1..]);
      assert a[..k + 1] == [a[0]] + a[1..][..k] && b[..k + 1] == [b[0]] + b[1..][..k];
      k := k + 1;
    }
  }

  lemma FirstReadyIsLeast(raw: seq<Step>, order: seq<nat>, other: seq<nat>)
    requires Complete(raw, order) && FirstReady(raw, order) && Complete(raw, other)
    ensures NotAfter(order, other)
  {
    if order != other {
      var k := FirstDifference(order, other);
      assert Ready(raw, other[k], other[..k]);
      assert other[k] !in order[..k];
    }
  }
}
