/** The event store of one game: conditional inserts, paged reads, and the paged replay. */
module Storage {
  import opened Collections
  import opened Table
  import opened Journal
  import opened Seating
  import opened Reducer
  import opened Handler

  lemma {:induction false} InsertedKeys(rows: Rows, evts: seq<GameEvent>)
    ensures forall k :: k in Insert(rows, evts) <==> k in rows || exists i :: 0 <= i < |evts| && evts[i].sequence == k
  {
    if evts != [] {
      var rest := evts[..|evts| - 1];
      InsertedKeys(rows, rest);
      forall k ensures k in Insert(rows, evts) <==> k in rows || exists i :: 0 <= i < |evts| && evts[i].sequence == k {
        if i :| 0 <= i < |evts| && evts[i].sequence == k {
          assert i < |rest| ==> rest[i].sequence == k;
        }
        if j :| 0 <= j < |rest| && rest[j].sequence == k {
          assert evts[j].sequence == k;
        }
      }
    }
  }

  /** Whether one more row fits behind those already staged. */
  lemma FitsOneMore(rows: Rows, evts: seq<GameEvent>, i: nat)
    requires i < |evts| && Fits(rows, evts[..i])
    ensures Fits(rows, evts[..i + 1]) <==> evts[i].sequence > 0 && evts[i].sequence !in Insert(rows, evts[..i])
    ensures Insert(rows, evts[..i + 1]) == Insert(rows, evts[..i])[evts[i].sequence := evts[i]]
  {
    assert evts[..i + 1][..i] == evts[..i];
    InsertedKeys(rows, evts[..i]);
    if evts[i].sequence in Insert(rows, evts[..i]) && evts[i].sequence !in rows {
      var j :| 0 <= j < i && evts[..i][j].sequence == evts[i].sequence;
      assert evts[..i + 1][j].sequence == evts[..i + 1][i].sequence;
    }
    if evts[i].sequence !in Insert(rows, evts[..i]) {
      forall j | 0 <= j < i ensures evts[j].sequence != evts[i].sequence {
        assert evts[..i][j].sequence == evts[j].sequence;
      }
    }
  }

  lemma FitsPrefix(rows: Rows, evts: seq<GameEvent>, i: nat)
    requires i <= |evts| && Fits(rows, evts)
    ensures Fits(rows, evts[..i])
  {
  }

  class EventStore {
    const config: Config
    var rows: Rows

    /** A table starts with its creation event and a snapshot at sequence 1. */
    constructor (c: Config, at: Option<Time>, commandId: Option<nat>)
      ensures config == c && Gapless(rows) && |rows| == 1
      ensures LogOf(rows) == [CreationEvent(c, at, commandId)]
    {
      config := c;
      rows := map[1 := CreationEvent(c, at, commandId)];
    }

    /** Inserts all rows or none: a taken key rolls the batch back. */
    method AppendEvents(evts: seq<GameEvent>) returns (ok: bool)
      modifies this`rows
      ensures ok <==> Fits(old(rows), evts)
      ensures rows == if ok then Insert(old(rows), evts) else old(rows)
    {
      hide Insert, Fits;
      var staged := rows;
      NothingStaged(rows);
      assert evts[..0] == [];
      for i := 0 to |evts|
        invariant rows == old(rows) && staged == Insert(rows, evts[..i]) && Fits(rows, evts[..i])
      {
        FitsOneMore(rows, evts, i);
        if evts[i].sequence == 0 || evts[i].sequence in staged {
          if Fits(rows, evts) {
            FitsPrefix(rows, evts, i + 1);
          }
          return false;
        }
        staged := staged[evts[i].sequence := evts[i]];
      }
      assert evts[..|evts|] == evts;
      rows := staged;
      ok := true;
    }

    /** The largest sequence, 0 for an empty log. */
    method GetLatestSequence() returns (n: nat)
      requires Gapless(rows)
      ensures n == |rows|
    {
      n := 0;
      var rest := rows.Keys;
      while rest != {}
        invariant rest <= rows.Keys && n <= |rows|
        invariant forall k | k in rows && k !in rest :: k <= n
        decreases |rest|
      {
        var k :| k in rest;
        rest := rest - {k};
        if k > n {
          n := k;
        }
      }
      assert |rows| >= 1 ==> |rows| in rows;
    }

    /** Up to limit events from a sequence on, in order. */
    method GetEventsForGame(from: nat, limit: nat) returns (events: seq<GameEvent>)
      requires Gapless(rows) && 1 <= from <= |rows| + 1
      ensures events == LogOf(rows)[from - 1..if from - 1 + limit < |rows| then from - 1 + limit else |rows|]
    {
      events := [];
      var k := from;
      while k in rows && |events| < limit
        invariant from <= k <= |rows| + 1 && |events| == k - from <= limit
        invariant events == LogOf(rows)[from - 1..k - 1]
        decreases |rows| + 1 - k
      {
        events := events + [rows[k]];
        k := k + 1;
      }
    }

    /** The first event a command caused. */
    method FindEventByCommandID(id: nat) returns (found: Option<GameEvent>)
      requires Gapless(rows)
      ensures found.None? <==> forall k | k in rows :: rows[k].commandId != Some(id)
      ensures found.Some? ==>
        && found.value.sequence in rows && rows[found.value.sequence] == found.value
        && found.value.commandId == Some(id)
        && forall k | k in rows && k < found.value.sequence :: rows[k].commandId != Some(id)
    {
      var k := 1;
      while k in rows
        invariant 1 <= k <= |rows| + 1
        invariant forall l | l in rows && l < k :: rows[l].commandId != Some(id)
        decreases |rows| + 1 - k
      {
        if rows[k].commandId == Some(id) {
          return Some(rows[k]);
        }
        k := k + 1;
      }
      found := None;
    }

    /** The state after the whole log, replayed from the snapshot page by page: whatever the page
        size, the result is that of replaying all events at once. */
    method LoadState(limit: nat) returns (state: TableState, latestSeq: nat)
      requires Gapless(rows) && |rows| >= 1 && limit >= 1
      requires SeatedThroughout(Created(config), LogOf(rows)[1..])
      ensures fresh(state) && latestSeq == |rows|
      ensures state.Value() == Replay(config, LogOf(rows), |rows|)
      ensures DistinctSeats(state.players)
    {
      hide ReduceAll, Gapless, LogOf;
      state := new TableState(Created(config));
      latestSeq := 1;
      ghost var log := LogOf(rows);
      NothingReplayed(config, log);
      var more := true;
      while more
        invariant fresh(state) && 1 <= latestSeq <= |rows|
        invariant state.Value() == Replay(config, log, latestSeq) && DistinctSeats(state.players)
        invariant !more ==> latestSeq == |rows|
        decreases more, |rows| - latestSeq
      {
        var events := GetEventsForGame(latestSeq + 1, limit);
        if |events| == 0 {
          more := false;
        } else {
          PageSeated(config, log, latestSeq, latestSeq + |events|);
          PageSequences(rows, latestSeq, latestSeq + |events|);
          ReplayOn(config, log, latestSeq, latestSeq + |events|);
          state := ApplyAll(state, events);
          latestSeq := events[|events| - 1].sequence;
        }
      }
    }
  }

  lemma NothingStaged(rows: Rows)
    ensures Insert(rows, []) == rows && Fits(rows, [])
  {
  }

  lemma NothingReplayed(config: Config, log: seq<GameEvent>)
    requires |log| >= 1
    ensures Replay(config, log, 1) == Created(config)
  {
    assert log[1..1] == [];
  }

  lemma PageSequences(rows: Rows, from: nat, to: nat)
    requires Gapless(rows) && from < to <= |rows|
    ensures LogOf(rows)[from..to][to - from - 1].sequence == to
  {
  }

  lemma PageSeated(config: Config, log: seq<GameEvent>, from: nat, to: nat)
    requires 1 <= from <= to <= |log| && SeatedThroughout(Created(config), log[1..])
    ensures SeatedThroughout(Replay(config, log, from), log[from..to])
  {
    hide ReduceAll, DistinctSeats;
    forall i | 0 <= i <= to - from
      ensures DistinctSeats(ReduceAll(Replay(config, log, from), log[from..to][..i]).players)
    {
      assert log[from..to][..i] == log[from..from + i];
      ReplayOn(config, log, from, from + i);
      assert log[1..][..from + i - 1] == log[1..from + i];
    }
  }
}
