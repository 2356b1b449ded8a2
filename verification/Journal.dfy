/** The event log of one game: rows under a unique sequence number, appended in batches. */
module Journal {
  import opened Collections
  import opened Table
  import opened Seating

  /** The rows of one game, by their unique (game, sequence) key. */
  type Rows = map<nat, GameEvent>

  /** Rows can be inserted when no key is taken, none is used twice and all are positive. */
  predicate Fits(rows: Rows, evts: seq<GameEvent>)
  {
    && (forall i | 0 <= i < |evts| :: evts[i].sequence > 0 && evts[i].sequence !in rows)
    && (forall i, j | 0 <= i < j < |evts| :: evts[i].sequence != evts[j].sequence)
  }

  function Insert(rows: Rows, evts: seq<GameEvent>): Rows
  {
    if evts == [] then rows else Insert(rows, evts[..|evts| - 1])[evts[|evts| - 1].sequence := evts[|evts| - 1]]
  }

  /** The log is exactly the sequences 1..n, and every event carries its sequence as version. */
  ghost predicate Gapless(rows: Rows)
  {
    && (forall k: nat :: k in rows <==> 1 <= k <= |rows|)
    && (forall k | k in rows :: rows[k].sequence == k && rows[k].stateVersion == k)
  }

  /** The rows in order. */
  ghost function LogOf(rows: Rows): (log: seq<GameEvent>)
    requires Gapless(rows)
    ensures |log| == |rows|
    ensures forall i | 0 <= i < |log| :: log[i] == rows[i + 1]
  {
    seq(|rows|, i requires 0 <= i < |rows| => rows[i + 1])
  }

  /** evts carry the sequences, and versions, that follow from. */
  predicate Numbered(evts: seq<GameEvent>, from: nat)
  {
    forall i | 0 <= i < |evts| :: evts[i].sequence == from + i + 1 && evts[i].stateVersion == from + i + 1
  }

  lemma OneMore(rows: Rows, e: GameEvent)
    requires Gapless(rows) && e.sequence == |rows| + 1 && e.stateVersion == |rows| + 1
    ensures Gapless(rows[e.sequence := e]) && LogOf(rows[e.sequence := e]) == LogOf(rows) + [e]
  {
    var more := rows[e.sequence := e];
    OneMoreRow(rows, e);
    assert Gapless(more);
    LogByRows(more, LogOf(rows) + [e]);
  }

  lemma OneMoreRow(rows: Rows, e: GameEvent)
    requires e.sequence !in rows
    ensures |rows[e.sequence := e]| == |rows| + 1
  {
    var more := rows[e.sequence := e];
    assert more.Keys == rows.Keys + {e.sequence};
    assert |more.Keys| == |rows.Keys| + 1;
  }

  lemma LogByRows(rows: Rows, log: seq<GameEvent>)
    requires Gapless(rows) && |log| == |rows| && forall i | 0 <= i < |log| :: log[i] == rows[i + 1]
    ensures LogOf(rows) == log
  {
  }

  lemma {:induction false} InsertAtEnd(rows: Rows, evts: seq<GameEvent>)
    requires Gapless(rows) && Numbered(evts, |rows|)
    ensures Gapless(Insert(rows, evts)) && LogOf(Insert(rows, evts)) == LogOf(rows) + evts
  {
    if evts == [] {
      assert LogOf(rows) + evts == LogOf(rows);
    } else {
      var rest := evts[..|evts| - 1];
      InsertAtEnd(rows, rest);
      assert |LogOf(Insert(rows, rest))| == |rows| + |rest|;
      OneMore(Insert(rows, rest), evts[|evts| - 1]);
      assert LogOf(rows) + evts == LogOf(rows) + rest + [evts[|evts| - 1]];
    }
  }

  /** The arbitration between writers: a batch numbered from what its writer saw as the end of the
      log goes in exactly when that still is the end, and then continues the log without a gap. */
  lemma AppendsOnlyAtEnd(rows: Rows, evts: seq<GameEvent>, from: nat)
    requires Gapless(rows) && Numbered(evts, from) && from <= |rows| && evts != []
    ensures Fits(rows, evts) <==> from == |rows|
    ensures from == |rows| ==> Gapless(Insert(rows, evts)) && LogOf(Insert(rows, evts)) == LogOf(rows) + evts
  {
    hide Insert, LogOf;
    if from < |rows| {
      assert evts[0].sequence in rows;
    } else {
      InsertAtEnd(rows, evts);
    }
  }

  // ── Replay ────────────────────────────────────────────────────────────────

  /** The state and snapshot a table is created with, at sequence 1. */
  function Created(config: Config): Game
  {
    Game(1, Waiting, config, -1, 0, map[], map[], [], None)
  }

  function CreationEvent(config: Config, at: Option<Time>, commandId: Option<nat>): GameEvent
  {
    GameEvent(1, 1, at, commandId, TableCreated(config))
  }

  /** The state the first k events of the log lead to, from the snapshot on. */
  ghost function Replay(config: Config, log: seq<GameEvent>, k: nat): Game
    requires 1 <= k <= |log|
  {
    ReduceAll(Created(config), log[1..k])
  }

  /** Reading on from k to l replays exactly the events in between. */
  lemma ReplayOn(config: Config, log: seq<GameEvent>, k: nat, l: nat)
    requires 1 <= k <= l <= |log|
    ensures Replay(config, log, l) == ReduceAll(Replay(config, log, k), log[k..l])
  {
    ReduceConcat(Created(config), log[1..k], log[k..l]);
    assert log[1..k] + log[k..l] == log[1..l];
  }

  lemma ReplayPrefix(config: Config, log: seq<GameEvent>, more: seq<GameEvent>, k: nat)
    requires 1 <= k <= |log|
    ensures Replay(config, log + more, k) == Replay(config, log, k)
    ensures Replay(config, log + more, |log + more|) == ReduceAll(Replay(config, log, |log|), more)
  {
    assert (log + more)[1..k] == log[1..k];
    ReplayOn(config, log + more, |log|, |log + more|);
    assert (log + more)[1..|log|] == log[1..|log|];
    assert (log + more)[|log|..|log + more|] == more;
  }

  lemma VersionFollows(g: Game, e: GameEvent)
    ensures Reduce(g, e).version == if e.stateVersion > 0 then e.stateVersion else g.version + 1
  {
  }

  /** The version of a replayed state is the number of events behind it. */
  lemma {:induction false} VersionIsSequence(config: Config, log: seq<GameEvent>, k: nat)
    requires 1 <= k <= |log| && forall i | 0 <= i < |log| :: log[i].stateVersion == i + 1
    ensures Replay(config, log, k).version == k
  {
    if k > 1 {
      ReplayOn(config, log, k - 1, k);
      assert log[k - 1..k] == [log[k - 1]];
      assert [log[k - 1]][..0] == [];
      VersionFollows(Replay(config, log, k - 1), log[k - 1]);
    } else {
      assert log[1..1] == [];
    }
  }
}
