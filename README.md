# Pollen forecast cache and extractor, modelled in Dafny

The service scrapes a page of regional pollen forecasts and keeps the result in one
in-memory slot, `cache`. This model covers the two parts of `main.go` that hold logic:

- **Extraction** (`rebuildCache`). Each matched inner forecast table becomes a `forecast`
  record. The city name is the text of the table's first row. The forecast text is the
  text of its last row. Both are `""` for a table with no rows. Every row with exactly two
  `td` cells adds a `forecastValue`: the name is the first cell's text, and the value is 0
  for the placeholder `"-"`, or else Go's `strconv.Atoi` of the second cell. One value
  that does not parse makes the whole rebuild fail, and nothing is published.
- **The cache slot** (`cache`, `fetchCache`, the final assignment in `rebuildCache`). A
  read of a nil cache fails and asks for a rebuild. A read of a non-nil cache returns it.
  A rebuild replaces the slot only after both the fetch and the extraction succeed. A
  successful rebuild over zero tables stores an empty but non-nil list.

Files:

- `wrappers.dfy`: `Option` and `Result`.
- `strconv.dfy`: Go's `strconv.Atoi` for a 64-bit `int`. It is written as Go's own digit
  loop (sign, unsigned 64-bit accumulation with overflow failure, signed bound). `AtoiSpec`
  proves it equal to a reference grammar: an optional sign, one or more ASCII digits, a
  value in the int64 range.
- `extraction.dfy`: the `forecast` and `forecastValue` records and an abstract page. A page
  is a sequence of blocks (matched tables). A block is a sequence of rows. A row is its
  cell texts plus its own text. The spec functions `ValuesOf` and `Extract` define the
  result. `ExtractForecasts` is `rebuildCache`'s nested loop with its `err` and `outerErr`
  flags, proved equal to `Extract`.
  Worked examples (an "Aarhus" table, a table with the value `"abc"`) sit beside the
  lemmas.
- `cache.dfy`: class `Cache` with the slot as `Option<seq<Forecast>>`, and scenario
  members built on it.

Two behaviours of main.go worth stating outright:

- Measurement values may be negative: `strconv.Atoi` accepts `"-5"` and main.go rejects
  nothing, so the model keeps them.
- A failed periodic refresh ends the process (`log.Fatalln`, main.go:84); the refresh job
  is not modelled (see below).

## Model

| member | source | states |
|---|---|---|
| `Strconv.AtoiSpec` | main.go:128 | `Atoi` succeeds iff the text is an optional `+`/`-` followed by one or more ASCII digits (no spaces) and its value lies in the int64 range; the result is then that value, negative values included |
| `Strconv.ParseUintSpec` | main.go:128 | the unsigned digit loop accepts exactly the non-empty digit strings whose value fits in 64 unsigned bits, and returns that value |
| `Strconv.AccumulateSpec` | main.go:128 | the digit loop, from any checked prefix, fails on the first non-digit or on passing the uint64 maximum, and otherwise yields the decimal value of the whole text |
| `Strconv.AtoiAcceptsExamples` | main.go:128 | `"-5"` parses to -5, `"+12"` to 12, `"007"` to 7 |
| `Strconv.AtoiRejectsExamples` | main.go:128-131 | `"-"`, `""`, `" 5"` and `"5 "` are parse errors |
| `Extraction.ParseValue` | main.go:122-132 | the placeholder `"-"` gives 0 without a parse; any other text succeeds iff it is a decimal in the int64 range, with its decimal value; a failure names the offending text |
| `Extraction.ClassifyRow` | main.go:116-138 | a row is skipped iff it does not have exactly two cells; a two-cell row yields a value named by its first cell and valued by parsing its second, or the parse error; a `"-"` second cell yields value 0 |
| `Extraction.MeasurementRows` | main.go:118-120 | every kept row has exactly two cells, every two-cell row is kept, and nothing else is kept |
| `Extraction.MeasurementRowsAppend` | main.go:116-120 | filtering a concatenation is the concatenation of the filtered parts, so two-cell rows keep their order |
| `Extraction.ExtractForecasts` | main.go:100-154 | the nested loop with the `err`/`outerErr` flags returns exactly `Extract(blocks)`: the full record list or the first error |
| `Extraction.ValuesOfSpec` | main.go:116-139 | a block's values exist iff every two-cell row's value parses; then there is one value per two-cell row, in row order, each named by the row's first cell and valued by its second |
| `Extraction.ValuesOfFailure` | main.go:116-143 | a failing block fails with the parse error of its first two-cell row whose value does not parse |
| `Extraction.ExtractSpec` | main.go:103-151 | extraction succeeds iff every block's values do; then there is one record per block, in block order, with city name = first row text and forecast text = last row text (both `""` for a block with no rows) and that block's values |
| `Extraction.ExtractFailure` | main.go:102-154 | a failing extraction fails with the error of its first failing block; every earlier block succeeded |
| `Extraction.MalformedValueFailsAll` | main.go:125-154 | one two-cell row anywhere whose value is neither `"-"` nor an in-range decimal makes the whole extraction fail with a parse error |
| `ForecastCache.Cache.constructor` | main.go:31 | the cache starts nil |
| `ForecastCache.Cache.Fetch` | main.go:62-74 | a nil cache gives the cache-empty error and requests a rebuild; otherwise the cached list itself is returned, no rebuild is requested, and nothing changes |
| `ForecastCache.Cache.Rebuild` | main.go:91-158 | a failed fetch returns the fetch error; a failed extraction returns its error; in both cases the slot keeps its old value. Otherwise the slot becomes the extracted list. The slot only ever holds a complete successful extraction (`Valid`) |
| `ForecastCache.ReadTwice` | main.go:62-74 | two reads with no rebuild between them return the same outcome, and it is a failure iff the cache is nil |
| `ForecastCache.ReadBeforeRebuild` | main.go:67-71 | a read before any rebuild fails with cache-empty and requests a rebuild |
| `ForecastCache.EmptyPageThenRead` | main.go:100-157 | a successful rebuild over a page with no tables makes a later read succeed with an empty list |
| `Extraction.AarhusExtracted` | main.go:103-150 | a table with header "Aarhus", rows (Birk, 12), (El, -), (Græs, 1) and a footer row yields one record with those three values (El as 0) and the footer text |
| `Extraction.BrokenRejected` | main.go:125-143 | a table with the value `"abc"` makes extraction fail with a parse error, whatever tables come before it |
| `ForecastCache.FailedRebuildKeepsSnapshot` | main.go:141-157 | after a good rebuild, a rebuild whose page has a malformed value reports a parse error, and the next read still returns the earlier records |

## Left out

- HTTP serving with gin, the JSON response and the `LISTEN_ADDR` lookup (main.go:38-60): I/O and routing with no logic of their own. So the JSON round trip is not modelled.
- goquery's page fetch and CSS selection (`NewDocument`, `Find(...)`, `.Text()`): this is a foreign library. The fetch becomes a `Result` parameter of `Rebuild` (the blocks or the fetch error text). The selection becomes the block, row and cell structure. How a row's text is formed from its markup is not modelled.
- `sync.RWMutex` locking and the goroutine that `fetchCache` starts on a miss: concurrency is not modelled. The miss is returned as the `rebuildRequested` flag.
- `refreshCacheJob`: the ten-minute ticker, and `log.Fatalln` ending the process on a failed rebuild. This is timer-driven process control and logging.
- `init` and the logging setup.
- Error messages: errors carry their cause (`FetchError` with the fetch error text, `ParseError` with the offending value text) rather than Go's formatted strings. Go's `NumError` reason (syntax vs. range) is not kept: `Atoi` is modelled as success or failure.
- `Extraction.ExtractForecasts`: when `Atoi` fails, Go still appends a value (0, or a clamped value on overflow) before the block is dropped. The model appends 0. This difference is invisible, because the rebuild then fails as a whole.
- Go's `int` is 64-bit. Parsed values are bounded to the int64 range by `Atoi`, as in Go. The model uses unbounded `int` for them otherwise.
