/** The configuration constants the core reads (backend/config.py, class Config). */
module Config {
  const DefaultPageSize: int := 10
  const MaxPageSize: int := 100
  const MinPasswordLength: int := 6
  const MinUsernameLength: int := 3
  const MaxUsernameLength: int := 80

  /** The closed set of difficulty levels, in the order the configuration lists them. */
  const ValidDifficulties: seq<string> := ["Easy", "Medium", "Hard"]
}
