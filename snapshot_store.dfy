/** The per-source snapshot file: what `save_games` writes and what
    `load_saved` reads back. JSON encoding and the file system are not
    modelled; a file is one of the outcomes `load_saved` distinguishes. */
module SnapshotStore {
  import opened Wrappers
  import opened Games

  /** The state of one snapshot file when it is read. `Unreadable` stands for
      a file that exists but cannot be opened or read (`IOError`) or whose
      text is not valid JSON (`JSONDecodeError`). A `Document` is a decoded
      top-level JSON object; `games` is `None` when it has no "games" key. */
  datatype StoredFile =
    | Missing
    | Unreadable
    | Document(updatedAt: string, count: int, games: Option<seq<Game>>)

  /** `load_saved`: the saved listing, or the empty listing when there is no
      file, the file cannot be read or decoded, or it holds no games. */
  function LoadSaved(file: StoredFile): (saved: seq<Game>)
    ensures file.Missing? || file.Unreadable? ==> saved == []
    ensures file.Document? && file.games.Some? ==> saved == file.games.value
    ensures file.Document? && file.games.None? ==> saved == []
    ensures saved != [] ==> file.Document? && file.games == Some(saved)
  {
    match file
    case Document(_, _, Some(games)) => games
    case _ => []
  }

  /** `save_games`: the record written for a listing. Its count is the
      number of games, it carries the time of writing, and reading it back
      yields the listing unchanged. */
  function SaveGames(updatedAt: string, games: seq<Game>): (file: StoredFile)
    ensures file.Document? && file.updatedAt == updatedAt
    ensures file.count == |games|
    ensures LoadSaved(file) == games
  {
    Document(updatedAt, |games|, Some(games))
  }
}
