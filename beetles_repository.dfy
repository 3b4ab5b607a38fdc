/**
 * The players repository of the Beetles variant
 * (beetles/repository/PlayerRepository.kt): a thin layer over the players
 * table whose one rule of its own is how a finished game is booked.
 */
module BeetlesRepository {
  import opened Wrappers
  import opened BeetlesData

  /** What booking a finished game with `score` does to a player's row. */
  function AfterGame(p: Player, score: int): (q: Player)
    ensures q.totalGames == p.totalGames + 1
    ensures q.bestScore >= p.bestScore && q.bestScore >= score
    ensures q.bestScore == p.bestScore || q.bestScore == score
    ensures q.(bestScore := p.bestScore, totalGames := p.totalGames) == p
  {
    if p.bestScore < score then p.(bestScore := score, totalGames := p.totalGames + 1)
    else p.(totalGames := p.totalGames + 1)
  }

  /** A score that does not beat the stored best only counts the game. */
  lemma NoRecordOnlyCounts(p: Player, score: int)
    requires score <= p.bestScore
    ensures AfterGame(p, score) == p.(totalGames := p.totalGames + 1)
  {
  }

  class PlayerRepository {
    const dao: PlayerTable

    constructor (dao: PlayerTable)
      ensures this.dao == dao
    {
      this.dao := dao;
    }

    /** Exactly the table's lookup. */
    method GetPlayerById(playerId: int) returns (r: Option<Player>)
      ensures r == dao.GetPlayerById(playerId)
      ensures r.Some? <==> playerId in dao.rows
      ensures r.Some? ==> r.value == dao.rows[playerId]
    {
      r := dao.GetPlayerById(playerId);
    }

    /**
     * Books a finished game: the conditional best-score update first, and the
     * plain play count only when that changed no row. Every game is counted
     * exactly once and the best score becomes the larger of the two; an
     * unknown id changes nothing.
     */
    method UpdateGameResult(playerId: int, score: int)
      requires dao.Valid()
      modifies dao
      ensures dao.Valid()
      ensures playerId in old(dao.rows) ==> dao.rows == old(dao.rows)[playerId := AfterGame(old(dao.rows)[playerId], score)]
      ensures playerId !in old(dao.rows) ==> dao.rows == old(dao.rows)
    {
      var updated := dao.UpdateBestScoreIfHigher(playerId, score);
      if updated == 0 {
        dao.IncrementTotalGames(playerId);
      }
    }
  }
}
