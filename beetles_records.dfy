/**
 * The records screen's view model of the Beetles variant
 * (beetles/viewmodel/RecordsViewModel.kt): it joins the top game records with
 * the players table, dropping records whose player is gone, and passes the
 * top players through.
 */
module BeetlesRecords {
  import opened Wrappers
  import opened BeetlesData
  import opened BeetlesRepository

  /** One line of the records list. */
  datatype RecordWithPlayerInfo = RecordWithPlayerInfo(id: int, playerName: string, score: int, difficulty: int,
                                                       gameSpeed: real, playedAt: int)

  /** The line for `rec`, whose player row is `p`. */
  function Info(rec: GameRecord, p: Player): RecordWithPlayerInfo
  {
    RecordWithPlayerInfo(rec.id, p.fullName, rec.score, rec.difficulty, rec.gameSpeed, rec.playedAt)
  }

  /** The join as a value: records in order, each with its player's name, those without a player dropped. */
  function Joined(records: seq<GameRecord>, rows: map<int, Player>): (r: seq<RecordWithPlayerInfo>)
    ensures |r| <= |records|
    ensures (forall i :: 0 <= i < |records| ==> records[i].playerId in rows) ==> |r| == |records|
    ensures (forall i :: 0 <= i < |records| ==> records[i].playerId !in rows) ==> r == []
  {
    if |records| == 0 then []
    else
      var last := records[|records| - 1];
      Joined(records[..|records| - 1], rows) + (if last.playerId in rows then [Info(last, rows[last.playerId])] else [])
  }

  /** The positions of the records that survive the join, in increasing order. */
  function Kept(records: seq<GameRecord>, rows: map<int, Player>): (ks: seq<int>)
    ensures forall j :: 0 <= j < |ks| ==> 0 <= ks[j] < |records| && records[ks[j]].playerId in rows
    ensures forall j, l :: 0 <= j < l < |ks| ==> ks[j] < ks[l]
    ensures forall i :: 0 <= i < |records| && records[i].playerId in rows ==> i in ks
  {
    if |records| == 0 then []
    else
      var n := |records| - 1;
      Kept(records[..n], rows) + (if records[n].playerId in rows then [n] else [])
  }

  /** The join of a non-empty list is the join of all but the last record, then the last one if kept. */
  lemma JoinedLast(records: seq<GameRecord>, rows: map<int, Player>)
    requires |records| > 0
    ensures var n := |records| - 1;
      Joined(records, rows) == Joined(records[..n], rows) +
        (if records[n].playerId in rows then [Info(records[n], rows[records[n].playerId])] else [])
  {
  }

  /** The kept positions of a non-empty list hold the last position exactly when that record is kept. */
  lemma KeptLast(records: seq<GameRecord>, rows: map<int, Player>)
    requires |records| > 0
    ensures var n := |records| - 1;
      Kept(records, rows) == Kept(records[..n], rows) + (if records[n].playerId in rows then [n] else [])
  {
  }

  /**
   * The join keeps exactly the records whose player exists, in their input
   * order, and copies every field but the name from the record.
   */
  lemma {:induction false} JoinedIsKeptImage(records: seq<GameRecord>, rows: map<int, Player>)
    ensures |Joined(records, rows)| == |Kept(records, rows)|
    ensures forall j :: 0 <= j < |Kept(records, rows)| ==>
      Joined(records, rows)[j] == Info(records[Kept(records, rows)[j]], rows[records[Kept(records, rows)[j]].playerId])
  {
    if |records| > 0 {
      var n := |records| - 1;
      var front := records[..n];
      JoinedIsKeptImage(front, rows);
      var j0, k0 := Joined(front, rows), Kept(front, rows);
      var js, ks := Joined(records, rows), Kept(records, rows);
      JoinedLast(records, rows);
      KeptLast(records, rows);
      forall j | 0 <= j < |ks|
        ensures js[j] == Info(records[ks[j]], rows[records[ks[j]].playerId])
      {
        if j < |k0| {
          assert ks[j] == k0[j] && js[j] == j0[j];
          assert front[k0[j]] == records[k0[j]];
        }
      }
    }
  }

  class RecordsViewModel {
    const playerRepository: PlayerRepository
    var topRecords: seq<RecordWithPlayerInfo>
    var topPlayers: seq<Player>

    constructor (playerRepository: PlayerRepository)
      ensures this.playerRepository == playerRepository
      ensures topRecords == [] && topPlayers == []
    {
      this.playerRepository := playerRepository;
      topRecords := [];
      topPlayers := [];
    }

    /** A new list of top records arrives: look up each record's player and publish the join. */
    method OnTopRecords(records: seq<GameRecord>)
      modifies this`topRecords
      ensures topRecords == Joined(records, playerRepository.dao.rows)
    {
      var withInfo: seq<RecordWithPlayerInfo> := [];
      var i := 0;
      while i < |records|
        invariant 0 <= i <= |records|
        invariant withInfo == Joined(records[..i], playerRepository.dao.rows)
      {
        var record := records[i];
        var player := playerRepository.GetPlayerById(record.playerId);
        if player.Some? {
          withInfo := withInfo + [Info(record, player.value)];
        }
        assert records[..i + 1][..i] == records[..i];
        i := i + 1;
      }
      assert records[..|records|] == records;
      topRecords := withInfo;
    }

    /** A new list of top players arrives and is published unchanged. */
    method OnTopPlayers(players: seq<Player>)
      requires playerRepository.dao.Valid() && players == playerRepository.dao.GetTopPlayers()
      modifies this`topPlayers
      ensures topPlayers == players
      ensures |topPlayers| <= TopLimit
    {
      topPlayers := players;
    }
  }
}
