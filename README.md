# zora-bb allocation lookup — Dafny model

zora-bb is a small batch tool. It reads a list of account addresses from
`data/addresses.txt` and validates every one. It then asks the
ZORA community-claim contract (`0x0000000002ba96C69b95E32CAAB8fc38bAB8B3F8`)
for each address's `allocations(address)` value, in one multicall. Each
address is paired with its allocation, formatted with 18 decimals. The rows
are written to `data/stats.csv` and printed as a table.

This project models the sequence pipeline around the network and file
plumbing, in four modules:

- `Wrappers`: the `Option` and `Result` types.
- `Strings`: Rust's `char::is_whitespace` (the Unicode White_Space property)
  and `str::trim`, with their properties.
- `Fs` (src/fs.rs): `read_lines`. A `LineReader` object stands for the line
  stream that `next_line` advances. `ReadLines` is the `while let` loop that
  trims lines and pushes the non-empty ones. `Clean` is the function it is
  proved against.
- `Stats` (src/stats.rs): the validation loop (`ParseAddresses`, against
  `Validate`) and the multicall-building loop (`BuildMulticall`, against
  `AllocationCalls`). Also `get_stats` (`GetStats`), the zip loop
  (`BuildTable`, against `Zip`), the csv writer (`CsvWriter`,
  `ExportStatsToCsv`, against `CsvRecords`) and the whole of `parse_stats`
  (`ParseStats`, against `Run`, whose properties are lemmas beside it).

Whatever the tool does not compute itself is an input of the model:

- the outcome of reading the address file, as the lines the async reader yields;
- the address parser `Address::from_str`;
- the outcome of reading the config file;
- URL parsing and the multicall round trip (`Network`);
- the decimal formatter `format_units`, applied with 18 decimals (`DECIMALS`);
- the outcome of creating the CSV file and of writing its records out, and how many records reached the file before a failed write (`Disk`).

A run returns its `Outcome` and the trace of side effects it performed, in
order: file reads, the RPC, creating the CSV file, writing its records, and
printing the table. The ordering properties are stated over that trace.

Three behaviours of the code are worth stating explicitly:

- The csv writer is built with headers on, and the `csv` crate writes the
  header when the first record is serialised. So an empty address list
  creates (and truncates) `data/stats.csv` but writes no header row, not a
  header-only file (`CsvRecords`, `CsvRecordsShape`).
- Addresses and allocations are paired with `zip`, with no length check. A
  length mismatch truncates silently rather than failing (`Zip`).
- The multicall results are not realigned: the code trusts that `aggregate`
  answers one value per sub-call, in submission order. The model names that
  promise `OnePerCall`: value `i` of a successful multicall is `answer` for
  sub-call `i`, where `Network.answer` is what the chain holds for one call on
  its own. It proves what follows: each printed row holds its own address's
  allocation.

## Model

| member | source | states |
|---|---|---|
| `Strings.TrimBounds` | src/fs.rs:10 | `trim` returns the slice `s[i..j]` left after removing a maximal whitespace prefix and a maximal whitespace suffix; a non-empty result begins and ends with non-whitespace |
| `Strings.TrimIsTrimmed` | src/fs.rs:10 | a trimmed line has no leading or trailing whitespace |
| `Strings.TrimEmptyIff` | src/fs.rs:10-11 | a line trims to the empty string exactly when it is blank or whitespace only |
| `Strings.TrimOfTrimmed` | src/fs.rs:10 | trimming a string with no whitespace at either end changes nothing |
| `Strings.TrimIdempotent` | src/fs.rs:10 | `trim(trim(s)) == trim(s)` |
| `Fs.LineReader.constructor` | src/fs.rs:6 | the line stream starts at the first line of the file that was read |
| `Fs.LineReader.NextLine` | src/fs.rs:9 | `next_line` yields the next decoded line and advances, an error for a line that is not UTF-8, and `None` at the end without moving |
| `Fs.ReadLines` | src/fs.rs:4-17 | a failed read gives `Io`; any undecodable line gives `InvalidData` and no lines; otherwise the result is `Clean` of the decoded lines |
| `Fs.CleanElements` | src/fs.rs:10-12 | every returned line is non-empty and has no whitespace at either end |
| `Fs.CleanLength` | src/fs.rs:9-14 | at most as many lines come out as went in |
| `Fs.CleanEmptyIff` | src/fs.rs:9-16 | the result is empty exactly when every input line is blank or whitespace only |
| `Fs.CleanAppend` | src/fs.rs:9-14 | cleaning treats each line on its own: `Clean(a + b) == Clean(a) + Clean(b)` |
| `Fs.CleanIdempotent` | src/fs.rs:10-12 | cleaning the returned list again returns the same list |
| `Fs.CleanIsOrderedFilter` | src/fs.rs:9-14 | the output is the subsequence of trimmed lines that are non-empty: output `k` is the trim of input line `KeptIndices[k]`; the kept positions strictly increase (order kept, duplicates kept in place); a position is kept iff its trimmed line is non-empty |
| `Stats.ValidateOk` | src/stats.rs:48-58 | validation succeeds iff every line parses, and then the address list has one entry per line with address `i` the parse of line `i` |
| `Stats.ValidateFirstFailure` | src/stats.rs:50-53 | a failed validation reports the first line, in input order, that does not parse, quoting the line and the parser's error; every earlier line parsed |
| `Stats.ValidateErrorSticks` | src/stats.rs:50-55 | once a prefix of the lines fails, the later lines cannot change the error (the `?` exits the loop) |
| `Stats.ParseAddresses` | src/stats.rs:48-58 | the validation loop returns exactly `Validate(lines, parse)`: all addresses or the first failure, never a partial list |
| `Stats.AllocationCalls` | src/stats.rs:34-40 | one sub-call per address, in input order, each `allocations(a_i)` on `ZORA_TOKEN_COMMUNITY_CLAIM_CA` |
| `Stats.BuildMulticall` | src/stats.rs:36-40 | the builder reassigned once per address ends holding exactly `AllocationCalls(addresses)` |
| `Stats.FetchedOnePerAddress` | src/stats.rs:42-43 | if the multicall answers each sub-call in submission order, a successful fetch has one value per address and value `i` is the answer to `allocations(address_i)` |
| `Stats.GetStats` | src/stats.rs:28-44 | a URL that does not parse fails with no network effect; otherwise exactly one RPC carrying `AllocationCalls(addresses)`, whose failure is returned whole and whose values are returned as they came |
| `Stats.FormatAll` | src/stats.rs:62-65 | one formatted string per fetched value, in order: entry `i` is `format_units(value_i, 18)` |
| `Stats.TableAligned` | src/stats.rs:61-76 | when every address got a value, the table has one row per address, row `i` being (address `i`, `format_units(value_i, 18)`) |
| `Stats.Zip` | src/stats.rs:69-76 | pairing gives as many rows as the shorter of the two lists, row `i` being (address `i`, allocation `i`) |
| `Stats.BuildTable` | src/stats.rs:67-76 | the zip loop builds exactly `Zip(addresses, allocations)` |
| `Stats.CsvRecordsShape` | src/stats.rs:87-108 | the exported records are the header ("Address", "Allocation") followed by one record per entry in entry order; an empty table yields no records |
| `Stats.CsvRecordsExtend` | src/stats.rs:106-108 | serialising one more entry appends its row, preceded by the header only when it is the first entry |
| `Stats.CsvRoundTrip` | src/stats.rs:102-108 | reading the exported records back, skipping the header, returns the table row for row |
| `Stats.CsvWriter.constructor` | src/stats.rs:102-104 | the writer built with `has_headers(true)` starts with the header still due and nothing written |
| `Stats.CsvWriter.Serialize` | src/stats.rs:107 | the header goes out before the first record only, then the record |
| `Stats.WrittenBeforeFailure` | src/stats.rs:106-110 | the whole records a failed write leaves in the truncated file are a prefix of the full export, no longer than it |
| `Stats.ExportStatsToCsv` | src/stats.rs:99-115 | a failed create leaves the old file untouched; an empty table writes nothing, so it succeeds with no records and a failing disk cannot fail it; a failed write or flush of a non-empty table leaves in the truncated file the whole records that the writer's buffer already pushed out, a prefix of `CsvRecords(entries)`; success writes exactly `CsvRecords(entries)` |
| `Stats.ParseStats` | src/stats.rs:46-83 | the stage-by-stage body (read, validate, config, fetch, format, zip, export, print, each `?` an early return) yields exactly the outcome and effect trace of `Run(env)` |
| `Stats.InvalidInputStopsEarly` | src/stats.rs:47-58 | an unreadable address file or an invalid address fails with that error after reading only the address file: no config read, no network, no export |
| `Stats.ConfigPanicBeforeNetwork` | src/stats.rs:60 | a config that cannot be read panics after the two file reads and before any network use |
| `Stats.FetchFailureSkipsExport` | src/stats.rs:61-62 | a failed fetch ends the run with its error and the CSV file is never created |
| `Stats.ExportAfterFetch` | src/stats.rs:78-80 | after a successful fetch, a failed create leaves the old CSV untouched; a failed write of a non-empty table leaves whole records from the start of the export and prints nothing; a completed export writes `CsvRecords(table)` and then prints the same `table` |
| `Stats.CsvOnlyAfterFetch` | src/stats.rs:61-78 | the CSV file is created (and truncated) only when the addresses are valid, the config was read and the multicall succeeded; with a transport that answers every sub-call, the fetch then holds one allocation per address |
| `Stats.CompletedRunRowsAnswer` | src/stats.rs:61-80 | with a transport that answers every sub-call in order, a completed run prints one row per address, in order, row `i` being (address `i`, `format_units` of the answer to `allocations(address_i)` with 18 decimals) |

## Left out

- The bytes-to-lines splitting of the async reader (`\n` terminators, a `\r` before them) and UTF-8 decoding belong to the I/O library. The model receives the file as the lines the reader yields, each decoded or not.
- The network: the HTTP provider, URL syntax, ABI encoding and the multicall contract. `Network` gives, for a URL, whether it parses and what the single `aggregate` round trip returns. Whether the library skips the round trip for an empty batch is not modelled; the model records one request per run.
- `Address::from_str` is a parameter. Hex and checksum rules are not modelled.
- `format_units(alloc, 18)` is a total parameter from `U256` to string. The `unwrap` cannot fail with 18 decimals, and the decimal rendering itself is not modelled.
- The config file (src/config.rs) is an input `Result<Config, string>`. TOML parsing is not modelled. The `expect` panic is the outcome `Panicked`.
- `Stats.ExportStatsToCsv`: the csv writer's 8 KiB buffering is not modelled. A failed `serialize` or `flush` (and the writer's flush when it is dropped) may already have put the header and the first rows into the truncated file. The file may end inside a record, so a cut-off allocation can read back as a wrong but well-formed row. The model rounds what was written down to whole records, a prefix of the records whose length is the input `Disk.reached`. It does not derive that length from the buffer size, and it treats the error of a `serialize` and of the final `flush` as one write outcome.
- CSV text rendering (quoting, the textual form of an address), the `tabled` rendering of the table and the `tracing` log line are not modelled. The table is the `PrintTable` effect with its rows.
- src/logger.rs and src/main.rs (log setup; `main` logs and swallows the error) are not part of this model.
- Async scheduling is not modelled. The pipeline is sequential and is modelled as such.
