/** The shapes shared by server and client: the `platforms` table row, its insert
    shape with the column defaults, and the connect request. */
module Schema {

  datatype Option<+T> = None | Some(value: T)

  datatype Result<+T, +E> = Ok(value: T) | Err(error: E)

  /** A point in time (milliseconds since the epoch), as read from the clock. */
  type Timestamp = int

  /** The `config` column: a JSON object of string values (it only ever holds `apiKey`). */
  type Config = map<string, string>

  datatype Solved = Solved(easy: int, medium: int, hard: int)

  /** The `stats` column: the cached snapshot of a platform's statistics. */
  datatype Stats =
    | Empty                                                   // `{}`, the column default
    | LeetCode(ranking: int, solved: Solved, contestRating: int)
    | GitHub(followers: int, publicRepos: int, totalCommits: int, streak: int)
    | Generic(status: string, lastCheck: Timestamp)

  /** One row of the `platforms` table. */
  datatype Platform = Platform(
    id: int,
    userId: string,
    name: string,
    username: string,
    config: Config,
    stats: Stats,
    lastUpdated: Timestamp)

  /** The insert shape: the table's columns without `id`, `lastUpdated` and `stats`,
      which only the store and the sync step may set. `config` may be left out. */
  datatype InsertPlatform = InsertPlatform(
    userId: string,
    name: string,
    username: string,
    config: Option<Config>)

  /** The body of a connect request once it has been validated. */
  datatype ConnectPlatformRequest = ConnectPlatformRequest(
    name: string,
    username: string,
    apiKey: Option<string>)

  const DefaultConfig: Config := map[]
  const DefaultStats: Stats := Empty

  /** The row the table holds after inserting `p` under the serial `id` at time `now`
      with the `stats` value the caller passed (if any): the columns left out take
      their defaults, and the generated columns are the store's, whatever `p` holds. */
  function NewRow(id: int, p: InsertPlatform, stats: Option<Stats>, now: Timestamp): (row: Platform)
    ensures row.id == id && row.lastUpdated == now
    ensures row.userId == p.userId && row.name == p.name && row.username == p.username
    ensures p.config.None? ==> row.config == map[]
    ensures p.config.Some? ==> row.config == p.config.value
    ensures stats.None? ==> row.stats == Empty
    ensures stats.Some? ==> row.stats == stats.value
  {
    Platform(
      id, p.userId, p.name, p.username,
      match p.config case Some(c) => c case None => DefaultConfig,
      match stats case Some(s) => s case None => DefaultStats,
      now)
  }
}
