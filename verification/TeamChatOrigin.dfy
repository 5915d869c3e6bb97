/** Which external message a delegated run goes back to: the chain of runs a delegation was
    answered from, its bounded walk, and the loop with its visited-set early exit. */
module TeamChatOrigin {
  import opened Wrappers
  import opened TeamChatRow

  const BOT_MESSAGE_MAX_HOPS: nat := 6

  type Message = nat
  type Run = nat

  /** Who answers to whom: the run a message replies to, the message a run was started by, and
      the external message a run is linked to. */
  datatype Delegations = Delegations(
    repliedRun: map<Message, Run>,
    source: map<Run, Message>,
    external: map<Run, nat>)
  {
    /** The run behind a delegating message. */
    function Parent(m: Option<Message>): Option<Run> {
      if m.Some? && m.value in repliedRun then Some(repliedRun[m.value]) else None
    }

    function SourceOf(r: Run): Option<Message> {
      if r in source then Some(source[r]) else None
    }

    /** The i-th delegation ancestor, counting the immediate one as 0. */
    function Ancestor(m: Option<Message>, i: nat): Option<Run>
      decreases i
    {
      var p := Parent(m);
      if p.None? || i == 0 then p else Ancestor(SourceOf(p.value), i - 1)
    }

    /** The plain walk over at most `hops` ancestors. */
    function Walk(m: Option<Message>, hops: nat): Option<nat>
      decreases hops
    {
      var p := Parent(m);
      if hops == 0 || p.None? then None
      else if p.value in external then Some(external[p.value])
      else Walk(SourceOf(p.value), hops - 1)
    }

    /** The answer is the nearest ancestor with an external message, within the bound. */
    predicate NearestIs(m: Option<Message>, hops: nat, i: nat) {
      && i < hops
      && Ancestor(m, i).Some? && Ancestor(m, i).value in external
      && forall j: nat :: j < i ==> Ancestor(m, j).Some? && Ancestor(m, j).value !in external
    }

    lemma {:induction false} WalkFindsNearest(m: Option<Message>, hops: nat)
      ensures Walk(m, hops).Some? ==>
                exists i: nat :: NearestIs(m, hops, i) && Walk(m, hops) == Some(external[Ancestor(m, i).value])
      ensures Walk(m, hops).None? ==>
                forall i: nat :: i < hops && Ancestor(m, i).Some? ==> Ancestor(m, i).value !in external
      decreases hops
    {
      var p := Parent(m);
      if hops > 0 && p.Some? {
        if p.value in external {
          assert NearestIs(m, hops, 0);
        } else {
          var next := SourceOf(p.value);
          WalkFindsNearest(next, hops - 1);
          if Walk(m, hops).Some? {
            var i: nat :| NearestIs(next, hops - 1, i) && Walk(next, hops - 1) == Some(external[Ancestor(next, i).value]);
            forall j: nat | j < i + 1 ensures Ancestor(m, j).Some? && Ancestor(m, j).value !in external {
              if j > 0 { assert Ancestor(m, j) == Ancestor(next, j - 1); }
            }
            assert Ancestor(m, i + 1) == Ancestor(next, i);
            assert NearestIs(m, hops, i + 1);
          } else {
            forall i: nat | i < hops && Ancestor(m, i).Some? ensures Ancestor(m, i).value !in external {
              if i > 0 { assert Ancestor(m, i) == Ancestor(next, i - 1); }
            }
          }
        }
      }
    }

    /** The runs of a chain of delegations: the first was replied to by `m`, each later one by the message
        that started the one before. */
    predicate Chain(m: Option<Message>, runs: seq<Run>)
      decreases |runs|
    {
      runs == [] ||
      (m.Some? && m.value in repliedRun && repliedRun[m.value] == runs[0]
       && Chain(if runs[0] in source then Some(source[runs[0]]) else None, runs[1..]))
    }

    /** A chain of at most `hops` runs, the last of which alone has an external message, leads to it. */
    lemma {:induction false} ChainIsWalked(m: Option<Message>, runs: seq<Run>, hops: nat)
      requires runs != [] && |runs| <= hops && Chain(m, runs)
      requires forall i :: 0 <= i < |runs| ==> (runs[i] in external <==> i == |runs| - 1)
      ensures Walk(m, hops) == Some(external[runs[|runs| - 1]])
      decreases |runs|
    {
      if |runs| > 1 {
        assert forall i :: 0 <= i < |runs[1..]| ==> runs[1..][i] == runs[i + 1];
        ChainIsWalked(SourceOf(runs[0]), runs[1..], hops - 1);
      } else {
        assert runs[0] in external;
      }
    }

    /** A set of runs that the walk can never leave and that holds no external message. */
    predicate Trap(runs: set<Run>) {
      forall r :: r in runs ==>
        r !in external && (Parent(SourceOf(r)).Some? ==> Parent(SourceOf(r)).value in runs)
    }

    /** A walk that meets a trap finds nothing, however many hops are left. */
    lemma {:induction false} TrappedWalk(m: Option<Message>, hops: nat, runs: set<Run>)
      requires Trap(runs) && Parent(m).Some? && Parent(m).value in runs
      ensures Walk(m, hops).None?
      decreases hops
    {
      if hops > 0 && Parent(SourceOf(Parent(m).value)).Some? {
        TrappedWalk(SourceOf(Parent(m).value), hops - 1, runs);
      }
    }

    /** The loop: the early exit on a repeated run never changes the bounded walk's answer. */
    method FindExternalOrigin(sourceMessage: Option<Message>) returns (origin: Option<nat>)
      ensures origin == Walk(sourceMessage, 7)
    {
      var current := sourceMessage;
      var visited: set<Run> := {};
      var depth := 0;
      while current.Some? && depth <= BOT_MESSAGE_MAX_HOPS
        invariant 0 <= depth <= BOT_MESSAGE_MAX_HOPS + 1
        invariant Walk(sourceMessage, BOT_MESSAGE_MAX_HOPS + 1) == Walk(current, BOT_MESSAGE_MAX_HOPS + 1 - depth)
        invariant forall r :: r in visited ==>
                    && r !in external
                    && (Parent(SourceOf(r)) == Parent(current)
                        || (Parent(SourceOf(r)).Some? && Parent(SourceOf(r)).value in visited))
        decreases BOT_MESSAGE_MAX_HOPS + 1 - depth
      {
        var parent := Parent(current);
        if parent.None? {
          return None;
        }
        if parent.value in visited {
          assert Trap(visited);
          TrappedWalk(current, BOT_MESSAGE_MAX_HOPS + 1 - depth, visited);
          return None;
        }
        visited := visited + {parent.value};
        if parent.value in external {
          return Some(external[parent.value]);
        }
        current := SourceOf(parent.value);
        depth := depth + 1;
      }
      return None;
    }
  }
}
