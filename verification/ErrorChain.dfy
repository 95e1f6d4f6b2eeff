/** The walk of an exception's cause/context chain, which may be cyclic, in search of an invalid-auth code. */
module ErrorChain {
  import opened Types

  /** An exception: its explicit cause and its implicit context, and whether it is a cloud error with code 810. */
  datatype Node = Node(cause: Option<nat>, context: Option<nat>, isInvalidAuth: bool)

  /** A finite set of exceptions; every link stays inside it. */
  type Graph = map<nat, Node>

  ghost predicate Closed(g: Graph) {
    forall x | x in g ::
      (g[x].cause.Some? ==> g[x].cause.value in g) && (g[x].context.Some? ==> g[x].context.value in g)
  }

  /** The next exception on the chain: the cause, else the context. */
  function Follow(g: Graph, x: nat): Option<nat>
    requires x in g
  {
    if g[x].cause.Some? then g[x].cause else g[x].context
  }

  /** The exception n links along the chain from x, if the chain is that long. */
  ghost function Along(g: Graph, x: nat, n: nat): Option<nat>
    requires Closed(g) && x in g
    ensures Along(g, x, n).Some? ==> Along(g, x, n).value in g
  {
    if n == 0 then Some(x)
    else
      var before := Along(g, x, n - 1);
      if before.None? then None else Follow(g, before.value)
  }

  /** Some exception on the chain carries the code. */
  ghost predicate ChainHasInvalidAuth(g: Graph, x: nat)
    requires Closed(g) && x in g
  {
    exists n: nat :: Along(g, x, n).Some? && g[Along(g, x, n).value].isInvalidAuth
  }

  /** The chain met y in its first m places. */
  ghost predicate Met(g: Graph, x: nat, m: nat, y: nat)
    requires Closed(g) && x in g
  {
    exists i: nat :: i < m && Along(g, x, i) == Some(y)
  }

  /** A chain that ended stays ended. */
  lemma {:induction false} EndedStaysEnded(g: Graph, x: nat, m: nat, n: nat)
    requires Closed(g) && x in g && m <= n && Along(g, x, m).None?
    ensures Along(g, x, n).None?
    decreases n
  {
    if m < n {
      EndedStaysEnded(g, x, m, n - 1);
    }
  }

  /** A chain that comes back to an earlier exception meets nothing new from then on. */
  lemma {:induction false} LoopMeetsNothingNew(g: Graph, x: nat, seen: set<nat>, m: nat, n: nat)
    requires Closed(g) && x in g && m <= n
    requires forall i: nat :: i < m ==> Along(g, x, i).Some? && Along(g, x, i).value in seen
    requires forall y | y in seen :: Met(g, x, m, y)
    requires Along(g, x, m).Some? && Along(g, x, m).value in seen
    ensures Along(g, x, n).Some? && Along(g, x, n).value in seen
    decreases n
  {
    if m < n {
      LoopMeetsNothingNew(g, x, seen, m, n - 1);
      var y := Along(g, x, n - 1).value;
      assert Met(g, x, m, y);
      var i: nat :| i < m && Along(g, x, i) == Some(y);
      assert Along(g, x, n) == Follow(g, y) == Along(g, x, i + 1);
    }
  }

  method IsInvalidAuthError(g: Graph, err: nat) returns (found: bool)
    requires Closed(g) && err in g
    ensures found <==> ChainHasInvalidAuth(g, err)
  {
    var current: Option<nat> := Some(err);
    var seen: set<nat> := {};
    ghost var n: nat := 0;
    while current.Some? && current.value !in seen
      invariant current == Along(g, err, n)
      invariant seen <= g.Keys
      invariant forall i: nat :: i < n ==> Along(g, err, i).Some? && Along(g, err, i).value in seen
      invariant forall y | y in seen :: Met(g, err, n, y)
      invariant forall y | y in seen :: !g[y].isInvalidAuth
      decreases g.Keys - seen
    {
      var x := current.value;
      forall y | y in seen ensures Met(g, err, n + 1, y) {
        assert Met(g, err, n, y);
        var i: nat :| i < n && Along(g, err, i) == Some(y);
      }
      assert Met(g, err, n + 1, x);
      seen := seen + {x};
      if g[x].isInvalidAuth {
        return true;
      }
      current := Follow(g, x);
      n := n + 1;
    }
    found := false;
    forall k: nat | Along(g, err, k).Some? ensures !g[Along(g, err, k).value].isInvalidAuth {
      if k >= n {
        if current.None? {
          EndedStaysEnded(g, err, n, k);
        } else {
          LoopMeetsNothingNew(g, err, seen, n, k);
        }
      }
    }
  }
}
