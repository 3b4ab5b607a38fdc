/**
 * The `players` table of the Beetles variant and the queries and updates the
 * DAO runs on it (beetles/data/PlayerDao.kt). The table is a map from the
 * primary key to the row. The two UPDATE statements change rows in place;
 * the three SELECT statements are functions of the table.
 */
module BeetlesData {
  import opened Wrappers
  import opened Numeric

  /** A row of `players` (beetles/data/Player.kt). Dates are epoch milliseconds. */
  datatype Player = Player(id: int, fullName: string, gender: string, course: string, difficulty: int,
                           birthDate: string, zodiacSign: string, bestScore: int, totalGames: int, createdAt: int)

  /** A row of `game_records` (beetles/data/GameRecord.kt); `id` 0 asks the database to assign one. */
  datatype GameRecord = GameRecord(id: int, playerId: int, score: int, difficulty: int, gameSpeed: real,
                                   maxBeetles: int, roundDuration: int, playedAt: int)

  /** The LIMIT of the top-players query. */
  const TopLimit: nat := 10

  // ---------------------------------------------------------------------
  // Ordering of rows, as the ORDER BY clauses ask for it
  // ---------------------------------------------------------------------

  lemma NonEmptyHasMember(keys: set<int>)
    requires keys != {}
    ensures exists k :: k in keys
  {
    if forall k :: k !in keys {
      assert false;
    }
  }

  /** Taking one member out of a set that has another leaves a non-empty set one smaller. */
  lemma RemoveOne(keys: set<int>, x: int)
    requires x in keys
    ensures |keys - {x}| == |keys| - 1
    ensures keys != {x} ==> keys - {x} != {}
  {
  }

  /** The largest key of a non-empty set. */
  ghost function MaxId(keys: set<int>): (m: int)
    requires keys != {}
    ensures m in keys && forall k :: k in keys ==> k <= m
    decreases |keys|
  {
    NonEmptyHasMember(keys);
    var x :| x in keys;
    RemoveOne(keys, x);
    if keys == {x} then x
    else
      var rest := MaxId(keys - {x});
      assert forall k :: k in keys ==> k == x || k in keys - {x};
      if x >= rest then x else rest
  }

  /** `ORDER BY id DESC` over a set of keys: each key exactly once, largest first. */
  ghost function IdsDescending(keys: set<int>): (r: seq<int>)
    ensures forall i :: 0 <= i < |r| ==> r[i] in keys
    ensures forall k :: k in keys ==> k in r
    ensures forall i, j :: 0 <= i < j < |r| ==> r[i] > r[j]
    decreases keys
  {
    if keys == {} then []
    else
      var m := MaxId(keys);
      RemoveOne(keys, m);
      var rest := IdsDescending(keys - {m});
      PrependMax(keys, m, rest);
      [m] + rest
  }

  /** Putting the largest key in front of a descending list of the others lists them all, descending. */
  lemma PrependMax(keys: set<int>, m: int, rest: seq<int>)
    requires m in keys && forall k :: k in keys ==> k <= m
    requires forall i :: 0 <= i < |rest| ==> rest[i] in keys - {m}
    requires forall k :: k in keys - {m} ==> k in rest
    requires forall i, j :: 0 <= i < j < |rest| ==> rest[i] > rest[j]
    ensures forall i :: 0 <= i < |[m] + rest| ==> ([m] + rest)[i] in keys
    ensures forall k :: k in keys ==> k in [m] + rest
    ensures forall i, j :: 0 <= i < j < |[m] + rest| ==> ([m] + rest)[i] > ([m] + rest)[j]
  {
    var r := [m] + rest;
    forall i | 0 <= i < |r| ensures r[i] in keys {
      if i > 0 { assert r[i] == rest[i - 1]; }
    }
    forall k | k in keys ensures k in r {
      if k != m { assert k in keys - {m}; }
    }
    forall i, j | 0 <= i < j < |r| ensures r[i] > r[j] {
      assert r[j] == rest[j - 1] && r[j] in keys - {m};
      if i > 0 { assert r[i] == rest[i - 1]; }
    }
  }

  /**
   * Row `a` comes before row `b` in `ORDER BY bestScore DESC`. SQL leaves the
   * order of equal scores open; the model puts the smaller id first.
   */
  predicate Ahead(rows: map<int, Player>, a: int, b: int)
    requires a in rows && b in rows
  {
    rows[a].bestScore > rows[b].bestScore || (rows[a].bestScore == rows[b].bestScore && a < b)
  }

  /** The key of a non-empty set of rows that comes first in `ORDER BY bestScore DESC`. */
  ghost function Leader(rows: map<int, Player>, keys: set<int>): (m: int)
    requires keys != {} && keys <= rows.Keys
    ensures m in keys && forall k :: k in keys ==> rows[k].bestScore <= rows[m].bestScore
    ensures forall k :: k in keys && k != m ==> Ahead(rows, m, k)
    decreases |keys|
  {
    NonEmptyHasMember(keys);
    var x :| x in keys;
    RemoveOne(keys, x);
    if keys == {x} then x
    else
      var rest := Leader(rows, keys - {x});
      assert forall k :: k in keys ==> k == x || k in keys - {x};
      if Ahead(rows, x, rest) then x else rest
  }

  /** `ORDER BY bestScore DESC LIMIT n` over a set of keys. */
  ghost function TopIds(rows: map<int, Player>, keys: set<int>, n: nat): (r: seq<int>)
    requires keys <= rows.Keys
    ensures |r| == Min(n, |keys|)
    ensures forall i :: 0 <= i < |r| ==> r[i] in keys
    ensures forall i, j :: 0 <= i < j < |r| ==> r[i] != r[j] && rows[r[j]].bestScore <= rows[r[i]].bestScore
    ensures forall k, i :: k in keys && k !in r && 0 <= i < |r| ==> rows[k].bestScore <= rows[r[i]].bestScore
    decreases n
  {
    if n == 0 || keys == {} then []
    else
      var m := Leader(rows, keys);
      RemoveOne(keys, m);
      var rest := TopIds(rows, keys - {m}, n - 1);
      PrependLeader(rows, keys, n, m, rest);
      [m] + rest
  }

  /** Putting the leader in front of the top `n - 1` of the others gives the top `n`. */
  lemma PrependLeader(rows: map<int, Player>, keys: set<int>, n: nat, m: int, rest: seq<int>)
    requires keys <= rows.Keys && n > 0 && m in keys && |keys - {m}| == |keys| - 1
    requires forall k :: k in keys ==> rows[k].bestScore <= rows[m].bestScore
    requires |rest| == Min(n - 1, |keys - {m}|)
    requires forall i :: 0 <= i < |rest| ==> rest[i] in keys - {m}
    requires forall i, j :: 0 <= i < j < |rest| ==> rest[i] != rest[j] && rows[rest[j]].bestScore <= rows[rest[i]].bestScore
    requires forall k, i :: k in keys - {m} && k !in rest && 0 <= i < |rest| ==> rows[k].bestScore <= rows[rest[i]].bestScore
    ensures var r := [m] + rest;
      |r| == Min(n, |keys|) &&
      (forall i :: 0 <= i < |r| ==> r[i] in keys) &&
      (forall i, j :: 0 <= i < j < |r| ==> r[i] != r[j] && rows[r[j]].bestScore <= rows[r[i]].bestScore) &&
      (forall k, i :: k in keys && k !in r && 0 <= i < |r| ==> rows[k].bestScore <= rows[r[i]].bestScore)
  {
    var r := [m] + rest;
    forall i | 0 <= i < |r| ensures r[i] in keys {
      if i > 0 { assert r[i] == rest[i - 1]; }
    }
    forall i, j | 0 <= i < j < |r| ensures r[i] != r[j] && rows[r[j]].bestScore <= rows[r[i]].bestScore {
      assert r[j] == rest[j - 1] && r[j] in keys - {m};
      if i > 0 { assert r[i] == rest[i - 1]; }
    }
    forall k, i | k in keys && k !in r && 0 <= i < |r| ensures rows[k].bestScore <= rows[r[i]].bestScore {
      assert k in keys - {m} && k !in rest;
      if i > 0 { assert r[i] == rest[i - 1]; }
    }
  }

  /** The rows filed under `ids`, in that order. */
  ghost function RowsOf(rows: map<int, Player>, ids: seq<int>): (r: seq<Player>)
    requires forall i :: 0 <= i < |ids| ==> ids[i] in rows
    ensures |r| == |ids|
    ensures forall i :: 0 <= i < |ids| ==> r[i] == rows[ids[i]]
  {
    seq(|ids|, i requires 0 <= i < |ids| => rows[ids[i]])
  }

  /** The players table. */
  class PlayerTable {
    var rows: map<int, Player>

    /** `id` is the primary key: each row is filed under its own id. */
    ghost predicate Valid()
      reads this
    {
      forall id :: id in rows ==> rows[id].id == id
    }

    constructor ()
      ensures Valid() && rows == map[]
    {
      rows := map[];
    }

    /** `SELECT * FROM players WHERE id = :playerId`: the row with that id, or none. */
    function GetPlayerById(playerId: int): (r: Option<Player>)
      reads this
      ensures r.Some? <==> playerId in rows
      ensures r.Some? ==> r.value == rows[playerId]
      ensures Valid() && r.Some? ==> r.value.id == playerId
    {
      if playerId in rows then Some(rows[playerId]) else None
    }

    /** `SELECT * FROM players ORDER BY id DESC`: every row exactly once, by descending id. */
    ghost function GetAllPlayers(): (r: seq<Player>)
      requires Valid()
      reads this
      ensures forall i :: 0 <= i < |r| ==> r[i].id in rows && rows[r[i].id] == r[i]
      ensures forall id :: id in rows ==> rows[id] in r
      ensures forall i, j :: 0 <= i < j < |r| ==> r[i].id > r[j].id
    {
      var ids := IdsDescending(rows.Keys);
      var r := RowsOf(rows, ids);
      assert forall id :: id in rows ==> rows[id] in r by {
        forall id | id in rows ensures rows[id] in r {
          var i :| 0 <= i < |ids| && ids[i] == id;
          assert r[i] == rows[id];
        }
      }
      r
    }

    /**
     * `SELECT * FROM players ORDER BY bestScore DESC LIMIT 10`: the ten best
     * (or all, if fewer) distinct rows, best first; every row left out scores
     * no more than any row listed.
     */
    ghost function GetTopPlayers(): (r: seq<Player>)
      requires Valid()
      reads this
      ensures |r| == Min(TopLimit, |rows|)
      ensures forall i :: 0 <= i < |r| ==> r[i].id in rows && rows[r[i].id] == r[i]
      ensures forall i, j :: 0 <= i < j < |r| ==> r[i].id != r[j].id && r[j].bestScore <= r[i].bestScore
      ensures forall id, i :: id in rows && rows[id] !in r && 0 <= i < |r| ==> rows[id].bestScore <= r[i].bestScore
    {
      var ids := TopIds(rows, rows.Keys, TopLimit);
      var r := RowsOf(rows, ids);
      assert forall i :: 0 <= i < |r| ==> r[i].id == ids[i];
      forall id | id in ids ensures rows[id] in r {
        var i :| 0 <= i < |ids| && ids[i] == id;
        assert r[i] == rows[id];
      }
      r
    }

    /**
     * `UPDATE players SET bestScore = :score, totalGames = totalGames + 1
     * WHERE id = :playerId AND bestScore < :score`, returning the number of
     * rows changed: one exactly when the player exists and the score beats
     * the stored best.
     */
    method UpdateBestScoreIfHigher(playerId: int, score: int) returns (changed: int)
      requires Valid()
      modifies this
      ensures Valid()
      ensures changed == (if playerId in old(rows) && old(rows)[playerId].bestScore < score then 1 else 0)
      ensures changed == 1 ==>
        rows == old(rows)[playerId := old(rows)[playerId].(bestScore := score, totalGames := old(rows)[playerId].totalGames + 1)]
      ensures changed == 0 ==> rows == old(rows)
    {
      if playerId in rows && rows[playerId].bestScore < score {
        var p := rows[playerId];
        rows := rows[playerId := p.(bestScore := score, totalGames := p.totalGames + 1)];
        changed := 1;
      } else {
        changed := 0;
      }
    }

    /** `UPDATE players SET totalGames = totalGames + 1 WHERE id = :playerId`. */
    method IncrementTotalGames(playerId: int)
      requires Valid()
      modifies this
      ensures Valid()
      ensures playerId in old(rows) ==>
        rows == old(rows)[playerId := old(rows)[playerId].(totalGames := old(rows)[playerId].totalGames + 1)]
      ensures playerId !in old(rows) ==> rows == old(rows)
    {
      if playerId in rows {
        var p := rows[playerId];
        rows := rows[playerId := p.(totalGames := p.totalGames + 1)];
      }
    }
  }
}
