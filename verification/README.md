# cncli command dispatch and block validator, modelled in Dafny

cncli is a command-line client for a Cardano node. This project models the part of
it that is plain logic:

- **Ledger-set selector** (`LedgerSets`). The `--ledger-set` argument of the
  leader-log command is parsed into `Mark`, `Set` or `Go`. The parse never fails:
  any text other than `next`, `current` or `prev` silently selects `Set`.
- **Command dispatch** (`NodeClient`, with the session interface in `MuxProtocol`).
  `start` maps each command to what it starts. `NodeClient.Start` returns that as a
  `Plan`:
  - the protocol sessions it launches, each with its full argument list (operation,
    database path, host, port, network magic, api key, node version, pool name, pool id);
  - or the validator call, or the leader-log call, with their arguments;
  - or a panic, when the tip-reporting configuration cannot be opened or decoded.

  Ping and Sync each launch one session. Sendtip launches one session per
  configured pool, in configuration order, always with mainnet magic 764824073.
- **Block validator** (`Validate`, with `Decimal` and `FlatJson`). The validator
  builds the pattern `hash%` and runs one database lookup. A failed close of the
  database overrides the lookup's outcome. The outcome is printed in one of two
  fixed text shapes: status `ok` or `orphaned` with the six block fields, or status
  `error` with the error text.
  - `Decimal` models how Rust prints an `i64`.
  - `FlatJson` models the text template: one ` "key": "value"` line per field, and
    values inserted verbatim, without escaping.

  Each rendering has a reader beside it, and the round-trip lemmas prove that the
  printed report carries the whole lookup outcome. The round trip needs one
  condition: none of the free-text values may contain a double quote. Because
  nothing is escaped, a value with a quote in it produces text that no longer has
  the report's shape.

The database is an input to the model (`Validate.Database`): the outcome of opening
it, the row or error the `hash LIKE ?` query yields for each pattern, and the outcome
of closing it. The tip-reporting configuration arrives already decoded, as a
function from the configuration path to an optional `PooltoolConfig`.

## Model

| member | source | states |
|---|---|---|
| LedgerSets.FromStr | src/lib.rs:27-37 | Parsing always succeeds. It yields `Mark` exactly for `next`, `Go` exactly for `prev`, and `Set` for every other text, `current` included. |
| LedgerSets.Keyword | src/lib.rs:30-33 | Each ledger set has a keyword, and the keyword parses back to that same ledger set. |
| LedgerSets.FallbackIsCurrent | src/lib.rs:32-34 | Any text that is not one of the three keywords parses exactly like `current`, to `Ok(Set)`. |
| LedgerSets.KeywordOfParse | src/lib.rs:30-35 | Naming the parsed ledger set gives back the input text if and only if the input was one of the three keywords. |
| NodeClient.Start | src/lib.rs:87-122 | Ping launches one `Ping` session: empty db path, empty telemetry strings, and the command's host, port and magic. Sync launches one `Sync` session with the given db path, host, port and magic. Validate and Leaderlog pass their arguments through unchanged. Sendtip panics when the configuration is missing. Otherwise Sendtip launches one `SendTip` session per pool, in order, with that pool's identity, the shared api key and node version, and mainnet magic. |
| NodeClient.TipSession | src/lib.rs:106-113 | A tip session reports for exactly the given pool. It has the `SendTip` operation, no database, the shared credentials, and magic 764824073 whatever the configuration says. |
| NodeClient.SendtipSessions | src/lib.rs:106-115 | There is one session per configured pool, and the i-th session is the tip session of the i-th pool. |
| NodeClient.PingSyncSessionRecoversCommand | src/lib.rs:89-98 | Ping or Sync launches exactly one session, and that session's arguments determine the command: nothing the user gave is dropped or altered. |
| NodeClient.SendtipRecoversPools | src/lib.rs:102-115 | The pools read back from the launched sessions are exactly the configured pools, in order. |
| Validate.LikePattern | src/nodeclient/validate.rs:15 | The pattern is the user's hash followed by one `%`: one character longer, and the hash is recovered by dropping the last character. |
| Validate.QueryBlock | src/nodeclient/validate.rs:43-66 | An open error is returned at once. A close error replaces the query's outcome, even a found block. With open and close both succeeding, the query outcome is returned unchanged. The result is a block exactly when open, query and close all succeed. |
| Validate.Status | src/nodeclient/validate.rs:26 | The status is `orphaned` if and only if the block is orphaned, and `ok` if and only if it is not. |
| Validate.ReportFields | src/nodeclient/validate.rs:17-39 | A found block's report fields are, in this order: status, block_number, slot_number, hash, prev_hash, leader_vrf. Each number's text is exactly its `i64` decimal text (`Decimal.IntText`), which reads back as the value. The three hashes are copied verbatim. An error's report is exactly status `error` plus `errorMessage` with the error text, and no block fields. |
| Validate.ReportRoundTrip | src/nodeclient/validate.rs:14-41 | Reading the printed report gives back the exact lookup outcome, whenever no hash or error text contains a double quote. |
| Validate.ValidateBlock | src/nodeclient/validate.rs:14-41 | Whatever characters the values contain, the printed report opens with the brace line and the status line for the lookup of `hash%`: `ok`, `orphaned` or `error`. When no hash or error text contains a double quote, the report also carries the whole outcome: the row the database returns for `hash%` when open and close succeed, the open error when open fails, and the close error when only close fails. |
| Validate.ReportStartsWithStatus | src/nodeclient/validate.rs:17-38 | Every printed report, found block or error, begins with `{`, a line break and ` "status": "<word>"`, whatever the other values contain. |
| Validate.ErrorReportText | src/nodeclient/validate.rs:34-38 | An error report is exactly the fixed error template with the message inserted verbatim, for every message, quotes included. |
| Validate.NotFoundReportText | src/nodeclient/validate.rs:34-38 | The not-found error prints exactly the three lines `{` / ` "status": "error",` / ` "errorMessage": "Query returned no rows"` and the closing `}`, each with its line break. |
| Validate.ReadReportOnlyRendered | src/nodeclient/validate.rs:14-41 | The report reader accepts nothing but printed reports: any text it reads as an outcome is exactly the report printed for that outcome. |
| Validate.FieldsOutcomeOnlyReportFields | src/nodeclient/validate.rs:17-39 | Field lists that read as an outcome are exactly the field lists the report builds for it. No other key order, status word or number text is accepted. |
| Validate.SampleLiveReport | src/nodeclient/validate.rs:17-32 | A live block with number 5 and slot 100, found by the prefix `abc1`, prints status `ok` and the numbers as the texts `5` and `100`. |
| Validate.SampleOrphanedReport | src/nodeclient/validate.rs:17-32 | The same block, orphaned, prints status `orphaned` with the same fields. |
| Validate.SampleNotFoundReport | src/nodeclient/validate.rs:34-38 | A prefix that matches no row prints, as literal text, the brace line, ` "status": "error",`, ` "errorMessage": "Query returned no rows"` and the closing brace. |
| Decimal.NatText | src/nodeclient/validate.rs:27-28 | A natural number's text is non-empty and all digits. It starts with `0` only for zero. |
| Decimal.IntText | src/nodeclient/validate.rs:27-28 | Zero prints as `0`. A positive value prints as digits without a leading zero. A negative value prints as `-` followed by digits without a leading zero. No other character appears. |
| Decimal.ReadIntOnlyIntText | src/nodeclient/validate.rs:27-28 | The strict decimal reader accepts only text an `i64` prints as: any text it reads as `n`, for any integer `n`, has `n` inside the `i64` range and is exactly the text of `n`. |
| Decimal.ReadIntAtBounds | src/nodeclient/validate.rs:6-7 | The reader keeps to the `i64` range of the block fields: the texts of 2^63 - 1 and -2^63 read back, and those of 2^63 and -(2^63 + 1) are refused. |
| Decimal.IntTextRoundTrip | src/nodeclient/validate.rs:27-28 | Reading an `i64`'s decimal text gives back the value. |
| FlatJson.ReadRender | src/nodeclient/validate.rs:18-25 | Reading the report template gives back the same fields, in the same order, whenever no key or value contains a double quote. |
| FlatJson.RenderRead | src/nodeclient/validate.rs:18-25 | The template reader accepts only rendered text: any text it reads as a field list is exactly the rendering of that list. |

## Left out

- SQLite itself (`Connection::open`, `query_row`, `LIKE` matching, `close`) is a foreign library. Its three outcomes are an input (`Validate.Database`). Which row `LIKE` picks when several match, and what `%` or `_` inside the user's hash do, are therefore not modelled.
- The text of `rusqlite::Error` is that library's `Display`. It is modelled as the message carried by `Validate.DbError`.
- `println!` is modelled as the text it would write (`Validate.RenderReport`), not as output.
- Reading the tip-reporting configuration file and `serde_json` decoding are I/O and a foreign parser. They are the `decodeConfig` parameter of `NodeClient.Start`, and either failing is the `ConfigPanic` plan (the source unwraps both).
- Thread spawning and joining in Sendtip are concurrency. Only the list of planned sessions is modelled, not their execution, their failure isolation, or a panic on `join`.
- `protocols::mux_protocol::start` and `leaderlog::calculate_leader_logs` are not part of this model. Their calls are recorded as the arguments they receive (`MuxProtocol.Session`, `NodeClient.Plan.LeaderlogCall`).
- `structopt` argument parsing and its default values (port 3001, magic 764824073, `./cncli.db`, `./pooltool.json`, ledger set `current`) are command-line glue. A `Command` is taken as already parsed. The fixed widths of `u16` and `u32` are kept as subset types.
- Logging (`info!`) has no effect on the modelled results.
- The report looks like a JSON object, but the code inserts every value verbatim, without JSON escaping, and the model follows the code. JSON escaping is not modelled. For this reason the round-trip lemmas require quote-free values.
- Validate.ValidateBlock: beyond the opening status line, the printed report is described only when no hash or error text contains a double quote. Values are inserted without escaping, so a quote inside a value makes the text ambiguous, and no reader can recover the outcome from it. Error reports are pinned down exactly for every message by `Validate.ErrorReportText`.
