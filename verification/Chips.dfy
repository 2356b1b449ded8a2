/** Counting the chips on the table. */
module Chips {
  import opened Collections
  import opened Table

  function Stacks(players: map<PlayerId, Player>): map<PlayerId, int>
  {
    map p | p in players :: players[p].stack
  }

  function Commitments(players: map<PlayerId, Player>): map<PlayerId, int>
  {
    map p | p in players :: players[p].committed
  }

  ghost function StackTotal(players: map<PlayerId, Player>): int
  {
    Total(Stacks(players))
  }

  ghost function CommitTotal(players: map<PlayerId, Player>): int
  {
    Total(Commitments(players))
  }

  /** All chips at the table: stacks plus pot. */
  ghost function ChipCount(g: Game): int
  {
    StackTotal(g.players) + if g.hand.Some? then g.hand.value.pot else 0
  }

  function RakeIn(events: seq<Event>): int
  {
    if events == [] then 0 else
      RakeIn(events[..|events| - 1]) + if events[|events| - 1].RakeTaken? then events[|events| - 1].amount else 0
  }

  lemma {:induction false} RakeInConcat(a: seq<Event>, b: seq<Event>)
    ensures RakeIn(a + b) == RakeIn(a) + RakeIn(b)
  {
    if b == [] {
      assert a + b == a;
    } else {
      assert (a + b)[..|a + b| - 1] == a + b[..|b| - 1];
      RakeInConcat(a, b[..|b| - 1]);
    }
  }

  lemma TotalsAfterUpdate(players: map<PlayerId, Player>, pid: PlayerId, p: Player)
    requires pid in players
    ensures StackTotal(players[pid := p]) == StackTotal(players) - players[pid].stack + p.stack
    ensures CommitTotal(players[pid := p]) == CommitTotal(players) - players[pid].committed + p.committed
  {
    TotalUpdate(Stacks(players), pid, p.stack);
    TotalUpdate(Commitments(players), pid, p.committed);
    assert Stacks(players[pid := p]) == Stacks(players)[pid := p.stack];
    assert Commitments(players[pid := p]) == Commitments(players)[pid := p.committed];
  }

  lemma SameStacksSameTotal(a: map<PlayerId, Player>, b: map<PlayerId, Player>)
    requires a.Keys == b.Keys
    ensures (forall p | p in a :: a[p].stack == b[p].stack) ==> StackTotal(a) == StackTotal(b)
    ensures (forall p | p in a :: a[p].committed == b[p].committed) ==> CommitTotal(a) == CommitTotal(b)
  {
    if forall p | p in a :: a[p].stack == b[p].stack {
      assert Stacks(a) == Stacks(b);
    }
    if forall p | p in a :: a[p].committed == b[p].committed {
      assert Commitments(a) == Commitments(b);
    }
  }

  /** Chips that only move between each player's stack and commitment leave the sum alone. */
  lemma StacksAndCommitments(a: map<PlayerId, Player>, b: map<PlayerId, Player>)
    requires a.Keys == b.Keys
    requires forall p | p in a :: a[p].stack + a[p].committed == b[p].stack + b[p].committed
    ensures StackTotal(a) + CommitTotal(a) == StackTotal(b) + CommitTotal(b)
  {
    var both := map p | p in a :: a[p].stack + a[p].committed;
    TotalAdd(Stacks(a), Commitments(a), both);
    TotalAdd(Stacks(b), Commitments(b), both);
  }

  lemma NothingCommitted(players: map<PlayerId, Player>)
    requires forall p | p in players :: players[p].committed == 0
    ensures CommitTotal(players) == 0
  {
    TotalOfZeros(Commitments(players));
  }

  lemma CommitAtLeast(players: map<PlayerId, Player>, pid: PlayerId)
    requires forall p | p in players :: players[p].committed >= 0
    ensures CommitTotal(players) >= 0
    ensures pid in players ==> CommitTotal(players) >= players[pid].committed
  {
    TotalAtLeast(Commitments(players), pid);
  }
}
