/**
 * `parse_stats` and its helpers (src/stats.rs): validate the cleaned address
 * lines, build one `allocations(address)` sub-call per address against the
 * community-claim contract, send them as a single multicall, pair each
 * address with its formatted allocation, and export the rows as CSV before
 * printing them as a table.
 *
 * Everything the tool does not compute itself is a parameter: the address
 * parser, the URL parser, the multicall round trip, the decimal formatter,
 * the outcome of reading the config file and of creating and writing the
 * CSV file. Side effects are returned as a trace of `Effect`s, in order.
 */
module Stats {
  import opened Wrappers
  import Fs

  /** A 20-byte account address (alloy's `Address`). */
  type Address = b: seq<bv8> | |b| == 20
    witness [0, 0, 0, 0, 0, 0, 0, 0, 0, 0, 0, 0, 0, 0, 0, 0, 0, 0, 0, 0]

  const TWO_POW_256: nat := 0x1_0000000000000000_0000000000000000_0000000000000000_0000000000000000

  /** An on-chain `uint256`. */
  type U256 = x: nat | x < TWO_POW_256

  /** `0x0000000002ba96C69b95E32CAAB8fc38bAB8B3F8`, the community-claim contract. */
  const ZORA_TOKEN_COMMUNITY_CLAIM_CA: Address :=
    [0x00, 0x00, 0x00, 0x00, 0x02, 0xba, 0x96, 0xc6, 0x9b, 0x95,
     0xe3, 0x2c, 0xaa, 0xb8, 0xfc, 0x38, 0xba, 0xb8, 0xb3, 0xf8]

  const ADDRESSES_FP: string := "data/addresses.txt"
  const CONFIG_PATH: string := "data/config.toml"
  const EXPORT_FILE_PATH: string := "data/stats.csv"
  const CONFIG_PANIC: string := "default config to be valid"

  /** The number of decimals `format_units` is asked to place. */
  const DECIMALS: nat := 18

  datatype Config = Config(baseRpcUrl: string)

  /** The one contract method the tool calls: `allocations(address account) returns (uint256)`. */
  datatype ClaimCall = Allocations(account: Address)

  /** A read-only sub-call: which contract, which method and argument. */
  datatype Call = Call(target: Address, invocation: ClaimCall)

  /** The dynamic multicall builder; `add_dynamic` consumes it and returns it extended. */
  datatype MulticallBuilder = MulticallBuilder(calls: seq<Call>)
  {
    function AddDynamic(c: Call): MulticallBuilder
    {
      MulticallBuilder(calls + [c])
    }
  }

  /**
   * The RPC side: whether the configured URL parses, what the single
   * `aggregate` round trip to that URL returns for a list of sub-calls, and
   * `answer`, the value the chain behind that URL holds for one sub-call on
   * its own.
   */
  datatype Network = Network(
    urlValid: string -> bool,
    aggregate: (string, seq<Call>) -> Result<seq<U256>, string>,
    answer: (string, Call) -> U256)

  /**
   * The transport promise the tool relies on without checking it: a
   * successful multicall returns one value per sub-call, in submission order.
   */
  ghost predicate OnePerCall(net: Network)
  {
    forall url: string, calls: seq<Call> :: AnswersEach(net, url, calls)
  }

  /** One round trip to `url` fails as a whole, or its value `i` is the answer to sub-call `i`. */
  predicate AnswersEach(net: Network, url: string, calls: seq<Call>)
  {
    net.aggregate(url, calls).Ok? ==>
      && |net.aggregate(url, calls).value| == |calls|
      && forall i | 0 <= i < |calls| :: net.aggregate(url, calls).value[i] == net.answer(url, calls[i])
  }

  /**
   * What the file system does with the CSV export: the outcome of creating
   * the file, the outcome of writing the records out (the writes made while
   * serialising and the final flush), and, when writing fails, how many
   * leading records the writer's buffer had already pushed to the file.
   * With no records to write, the flush of an empty buffer always succeeds,
   * so `write` is only consulted for a non-empty table.
   */
  datatype Disk = Disk(create: Result<(), string>, write: Result<(), string>, reached: nat)

  datatype Error =
    | ReadFailed(reason: Fs.ReadError)
    | InvalidAddress(line: string, cause: string)
    | InvalidUrl(url: string)
    | RpcFailed(cause: string)
    | ExportFailed(cause: string)

  /** One output row: an address and its formatted allocation. */
  datatype WalletStats = WalletStats(address: Address, allocation: string)

  /** The CSV column names, from the serde renames of `WalletStats`' fields. */
  const COLUMNS: seq<string> := ["Address", "Allocation"]

  /** A CSV record as the writer serialises it. */
  datatype Record = Header(columns: seq<string>) | Row(address: Address, allocation: string)

  /** An observable side effect of a run, in the order the run performs them. */
  datatype Effect =
    | ReadFile(path: string)
    | Rpc(url: string, calls: seq<Call>)
    | CreateFile(path: string)
    | WriteRecords(path: string, records: seq<Record>)
    | PrintTable(rows: seq<WalletStats>)

  /** Everything a run of `parse_stats` consumes from outside. */
  datatype Env = Env(
    addressFile: Result<seq<Fs.RawLine>, string>,
    parse: string -> Result<Address, string>,
    config: Result<Config, string>,
    net: Network,
    formatUnits: (U256, nat) -> string,
    disk: Disk)

  /** How a run ends: normally, with an error `main` logs, or with the config panic. */
  datatype Outcome = Done | Failed(error: Error) | Panicked(message: string)

  function Min(a: nat, b: nat): nat
  {
    if a <= b then a else b
  }

  // ---------------------------------------------------------------------
  // Address validation

  /** Parsing the cleaned lines in order, stopping at the first that is not an address. */
  function Validate(lines: seq<string>, parse: string -> Result<Address, string>): Result<seq<Address>, Error>
  {
    if lines == [] then Ok([])
    else
      var n := |lines| - 1;
      match Validate(lines[..n], parse)
      case Err(e) => Err(e)
      case Ok(out) =>
        match parse(lines[n])
        case Err(e) => Err(InvalidAddress(lines[n], e))
        case Ok(a) => Ok(out + [a])
  }

  /** Validation succeeds exactly when every line parses, and then address `i` is the parse of line `i`. */
  lemma {:induction false} ValidateOk(lines: seq<string>, parse: string -> Result<Address, string>)
    ensures Validate(lines, parse).Ok? <==> forall i | 0 <= i < |lines| :: parse(lines[i]).Ok?
    ensures Validate(lines, parse).Ok? ==>
      |Validate(lines, parse).value| == |lines|
      && forall i | 0 <= i < |lines| :: Validate(lines, parse).value[i] == parse(lines[i]).value
  {
    if lines != [] {
      var n := |lines| - 1;
      ValidateOk(lines[..n], parse);
      assert forall i | 0 <= i < n :: lines[..n][i] == lines[i];
    }
  }

  /** A failed validation names the first line, in input order, that does not parse. */
  lemma {:induction false} ValidateFirstFailure(lines: seq<string>, parse: string -> Result<Address, string>) returns (k: nat)
    requires Validate(lines, parse).Err?
    ensures k < |lines| && parse(lines[k]).Err?
    ensures forall i | 0 <= i < k :: parse(lines[i]).Ok?
    ensures Validate(lines, parse).error == InvalidAddress(lines[k], parse(lines[k]).error)
  {
    var n := |lines| - 1;
    if Validate(lines[..n], parse).Err? {
      k := ValidateFirstFailure(lines[..n], parse);
      assert lines[..n][k] == lines[k];
      assert forall i | 0 <= i < k :: lines[..n][i] == lines[i];
    } else {
      k := n;
      ValidateOk(lines[..n], parse);
      assert forall i | 0 <= i < n :: lines[..n][i] == lines[i];
    }
  }

  /** Once a prefix fails to validate, the whole list fails with the same error. */
  lemma {:induction false} ValidateErrorSticks(lines: seq<string>, j: nat, parse: string -> Result<Address, string>)
    requires j <= |lines| && Validate(lines[..j], parse).Err?
    ensures Validate(lines, parse) == Validate(lines[..j], parse)
    decreases |lines| - j
  {
    if j < |lines| {
      var n := |lines| - 1;
      assert lines[..n][..j] == lines[..j];
      ValidateErrorSticks(lines[..n], j, parse);
    } else {
      assert lines[..j] == lines;
    }
  }

  /** The validation block of `parse_stats`: push each parsed address, bail out with `?` on the first failure. */
  method ParseAddresses(lines: seq<string>, parse: string -> Result<Address, string>) returns (r: Result<seq<Address>, Error>)
    ensures r == Validate(lines, parse)
  {
    var out: seq<Address> := [];
    for i := 0 to |lines|
      invariant Validate(lines[..i], parse) == Ok(out)
    {
      assert lines[..i + 1][..i] == lines[..i];
      var parsed := parse(lines[i]);
      if parsed.Err? {
        ValidateErrorSticks(lines, i + 1, parse);
        return Err(InvalidAddress(lines[i], parsed.error));
      }
      out := out + [parsed.value];
    }
    assert lines[..|lines|] == lines;
    r := Ok(out);
  }

  // ---------------------------------------------------------------------
  // The multicall

  /** The sub-calls `get_stats` submits: `allocations(a)` on the claim contract, one per address, in order. */
  function AllocationCalls(addresses: seq<Address>): (calls: seq<Call>)
    ensures |calls| == |addresses|
    ensures forall i | 0 <= i < |addresses| ::
      calls[i] == Call(ZORA_TOKEN_COMMUNITY_CLAIM_CA, Allocations(addresses[i]))
  {
    if addresses == [] then []
    else
      var n := |addresses| - 1;
      AllocationCalls(addresses[..n]) + [Call(ZORA_TOKEN_COMMUNITY_CLAIM_CA, Allocations(addresses[n]))]
  }

  /** The loop of `get_stats` that reassigns the builder once per address. */
  method BuildMulticall(addresses: seq<Address>) returns (builder: MulticallBuilder)
    ensures builder.calls == AllocationCalls(addresses)
  {
    builder := MulticallBuilder([]);
    for i := 0 to |addresses|
      invariant builder.calls == AllocationCalls(addresses[..i])
    {
      assert addresses[..i + 1][..i] == addresses[..i];
      builder := builder.AddDynamic(Call(ZORA_TOKEN_COMMUNITY_CLAIM_CA, Allocations(addresses[i])));
    }
    assert addresses[..|addresses|] == addresses;
  }

  /** What `get_stats` returns: a URL error, the multicall's error, or its values. */
  function Fetched(addresses: seq<Address>, config: Config, net: Network): Result<seq<U256>, Error>
  {
    var url := config.baseRpcUrl;
    if !net.urlValid(url) then Err(InvalidUrl(url))
    else
      match net.aggregate(url, AllocationCalls(addresses))
      case Err(e) => Err(RpcFailed(e))
      case Ok(values) => Ok(values)
  }

  /** Under the transport's promise, a successful fetch holds, in address order, each address's own allocation. */
  lemma FetchedOnePerAddress(addresses: seq<Address>, config: Config, net: Network)
    ensures OnePerCall(net) && Fetched(addresses, config, net).Ok? ==>
      && |Fetched(addresses, config, net).value| == |addresses|
      && forall i | 0 <= i < |addresses| :: Fetched(addresses, config, net).value[i]
           == net.answer(config.baseRpcUrl, Call(ZORA_TOKEN_COMMUNITY_CLAIM_CA, Allocations(addresses[i])))
  {
    if OnePerCall(net) {
      assert AnswersEach(net, config.baseRpcUrl, AllocationCalls(addresses));
    }
  }

  /**
   * `get_stats`: parse the URL, build the multicall and send it. The only
   * effect is the one round trip, and only once the URL has parsed.
   */
  method GetStats(addresses: seq<Address>, config: Config, net: Network)
    returns (r: Result<seq<U256>, Error>, effects: seq<Effect>)
    ensures r == Fetched(addresses, config, net)
    ensures effects == if net.urlValid(config.baseRpcUrl)
      then [Rpc(config.baseRpcUrl, AllocationCalls(addresses))] else []
  {
    var url := config.baseRpcUrl;
    if !net.urlValid(url) {
      return Err(InvalidUrl(url)), [];
    }
    var builder := BuildMulticall(addresses);
    effects := [Rpc(url, builder.calls)];
    var out := net.aggregate(url, builder.calls);
    match out
    case Err(e) => r := Err(RpcFailed(e));
    case Ok(values) => r := Ok(values);
  }

  // ---------------------------------------------------------------------
  // Pairing and export

  /** `format_units(alloc, 18)` applied to every fetched value; `formatUnits` is the library formatter. */
  function FormatAll(values: seq<U256>, formatUnits: (U256, nat) -> string): (allocations: seq<string>)
    ensures |allocations| == |values|
    ensures forall i | 0 <= i < |values| :: allocations[i] == formatUnits(values[i], DECIMALS)
  {
    if values == [] then []
    else [formatUnits(values[0], DECIMALS)] + FormatAll(values[1..], formatUnits)
  }

  /** Positional pairing; the shorter side decides the length, as `zip` does. */
  function Zip(addresses: seq<Address>, allocations: seq<string>): (rows: seq<WalletStats>)
    ensures |rows| == Min(|addresses|, |allocations|)
    ensures forall i | 0 <= i < |rows| :: rows[i] == WalletStats(addresses[i], allocations[i])
  {
    if addresses == [] || allocations == [] then []
    else [WalletStats(addresses[0], allocations[0])] + Zip(addresses[1..], allocations[1..])
  }

  /** When every address got a value, the table has one row per address, in address order. */
  lemma TableAligned(addresses: seq<Address>, values: seq<U256>, formatUnits: (U256, nat) -> string)
    requires |values| == |addresses|
    ensures var table := Zip(addresses, FormatAll(values, formatUnits));
      && |table| == |addresses|
      && forall i | 0 <= i < |addresses| :: table[i] == WalletStats(addresses[i], formatUnits(values[i], DECIMALS))
  {
  }

  /** The `for (addr, alloc) in addresses.into_iter().zip(allocations)` loop that fills `table`. */
  method BuildTable(addresses: seq<Address>, allocations: seq<string>) returns (table: seq<WalletStats>)
    ensures table == Zip(addresses, allocations)
  {
    table := [];
    var n := Min(|addresses|, |allocations|);
    for i := 0 to n
      invariant |table| == i
      invariant forall k | 0 <= k < i :: table[k] == WalletStats(addresses[k], allocations[k])
    {
      table := table + [WalletStats(addresses[i], allocations[i])];
    }
  }

  /**
   * The records the CSV writer emits for a table. With headers on, the csv
   * writer writes the header when the first entry is serialised, so an empty
   * table yields no records at all.
   */
  function CsvRecords(entries: seq<WalletStats>): seq<Record>
  {
    if entries == [] then []
    else [Header(COLUMNS)] + seq(|entries|, i requires 0 <= i < |entries| => Row(entries[i].address, entries[i].allocation))
  }

  /** The rows a CSV reader recovers from a record sequence, skipping headers. */
  function RowsOf(records: seq<Record>): seq<WalletStats>
  {
    if records == [] then []
    else
      (match records[0]
       case Header(_) => []
       case Row(a, s) => [WalletStats(a, s)])
      + RowsOf(records[1..])
  }

  lemma {:induction false} RowsOfAppend(a: seq<Record>, b: seq<Record>)
    ensures RowsOf(a + b) == RowsOf(a) + RowsOf(b)
  {
    if a != [] {
      assert (a + b)[1..] == a[1..] + b;
      RowsOfAppend(a[1..], b);
    } else {
      assert a + b == b;
    }
  }

  /** Reading the exported records back yields exactly the table, row for row. */
  lemma {:induction false} CsvRoundTrip(entries: seq<WalletStats>)
    ensures RowsOf(CsvRecords(entries)) == entries
    decreases |entries|
  {
    if entries != [] {
      var n := |entries| - 1;
      CsvRoundTrip(entries[..n]);
      var last := Row(entries[n].address, entries[n].allocation);
      CsvRecordsExtend(entries, n);
      assert entries[..n + 1] == entries;
      assert CsvRecords(entries) == (if n == 0 then [Header(COLUMNS)] else CsvRecords(entries[..n])) + [last];
      RowsOfAppend(if n == 0 then [Header(COLUMNS)] else CsvRecords(entries[..n]), [last]);
      assert RowsOf([last]) == [entries[n]] by { assert [last][1..] == []; }
      if n == 0 {
        assert RowsOf([Header(COLUMNS)]) == [] by { assert [Header(COLUMNS)][1..] == []; }
      }
      assert entries[..n] + [entries[n]] == entries;
    }
  }

  /** The header comes first and entry `k` is record `k + 1`; an empty table has no header. */
  lemma CsvRecordsShape(entries: seq<WalletStats>)
    ensures |CsvRecords(entries)| == if entries == [] then 0 else |entries| + 1
    ensures entries != [] ==> CsvRecords(entries)[0] == Header(["Address", "Allocation"])
    ensures forall k | 0 <= k < |entries| ::
      CsvRecords(entries)[k + 1] == Row(entries[k].address, entries[k].allocation)
  {
    assert COLUMNS == ["Address", "Allocation"];
    if entries != [] {
      var rows := seq(|entries|, i requires 0 <= i < |entries| => Row(entries[i].address, entries[i].allocation));
      assert CsvRecords(entries) == [Header(COLUMNS)] + rows;
      forall k | 0 <= k < |entries|
        ensures CsvRecords(entries)[k + 1] == Row(entries[k].address, entries[k].allocation)
      {
        assert ([Header(COLUMNS)] + rows)[k + 1] == rows[k];
      }
    }
  }

  /** Serialising one more entry appends its row, preceded by the header when it is the first. */
  lemma CsvRecordsExtend(entries: seq<WalletStats>, i: nat)
    requires i < |entries|
    ensures CsvRecords(entries[..i + 1]) == CsvRecords(entries[..i])
      + (if i == 0 then [Header(COLUMNS)] else []) + [Row(entries[i].address, entries[i].allocation)]
  {
    var longer := entries[..i + 1];
    var shorter := entries[..i];
    assert longer[..i] == shorter;
    var next := Row(entries[i].address, entries[i].allocation);
    var rows := seq(|longer|, k requires 0 <= k < |longer| => Row(longer[k].address, longer[k].allocation));
    assert CsvRecords(longer) == [Header(COLUMNS)] + rows;
    if i == 0 {
      assert rows == [next];
    } else {
      var before := seq(|shorter|, k requires 0 <= k < |shorter| => Row(shorter[k].address, shorter[k].allocation));
      assert CsvRecords(shorter) == [Header(COLUMNS)] + before;
      assert rows == before + [next];
    }
  }

  /**
   * The whole records a failed write leaves in the file: a prefix of the full
   * export, `disk.reached` long at most. The file may also end inside the next
   * record; that partial text is not part of the model.
   */
  function WrittenBeforeFailure(entries: seq<WalletStats>, disk: Disk): (written: seq<Record>)
    ensures |written| <= |CsvRecords(entries)| && written == CsvRecords(entries)[..|written|]
  {
    CsvRecords(entries)[..Min(disk.reached, |CsvRecords(entries)|)]
  }

  /** Whether the header record is still due; the tool only builds writers with headers on. */
  datatype HeaderState = WriteHeader | DidWriteHeader

  /** The csv crate's writer: records serialised so far and whether the header is still due. */
  class CsvWriter {
    var header: HeaderState
    var buffer: seq<Record>

    /** `WriterBuilder::new().has_headers(true)`: the header is due and nothing is written yet. */
    constructor ()
      ensures header == WriteHeader && buffer == []
    {
      header := WriteHeader;
      buffer := [];
    }

    /** `serialize`: the header before the first record, then the record. */
    method Serialize(entry: WalletStats)
      modifies this
      ensures header == DidWriteHeader
      ensures buffer == old(buffer)
        + (if old(header) == WriteHeader then [Header(COLUMNS)] else [])
        + [Row(entry.address, entry.allocation)]
    {
      if header == WriteHeader {
        buffer := buffer + [Header(COLUMNS)];
        header := DidWriteHeader;
      }
      buffer := buffer + [Row(entry.address, entry.allocation)];
    }
  }

  /**
   * `export_stats_to_csv`: create (and so truncate) the file, serialise every
   * entry, flush. A failed create leaves the old file alone. An empty table
   * writes nothing, so its flush cannot fail. A failed write of a non-empty
   * table leaves in the truncated file whatever the writer's buffer already pushed
   * out, which may end partway through a record; the trace keeps the whole
   * records among it, a prefix of the full export.
   */
  method ExportStatsToCsv(entries: seq<WalletStats>, disk: Disk) returns (r: Result<(), Error>, effects: seq<Effect>)
    ensures disk.create.Err? ==> r == Err(ExportFailed(disk.create.error)) && effects == []
    ensures disk.create.Ok? && disk.write.Err? && entries != [] ==>
      r == Err(ExportFailed(disk.write.error))
      && effects == [CreateFile(EXPORT_FILE_PATH), WriteRecords(EXPORT_FILE_PATH, WrittenBeforeFailure(entries, disk))]
    ensures disk.create.Ok? && (disk.write.Ok? || entries == []) ==>
      r == Ok(()) && effects == [CreateFile(EXPORT_FILE_PATH), WriteRecords(EXPORT_FILE_PATH, CsvRecords(entries))]
  {
    if disk.create.Err? {
      return Err(ExportFailed(disk.create.error)), [];
    }
    effects := [CreateFile(EXPORT_FILE_PATH)];
    var writer := new CsvWriter();
    for i := 0 to |entries|
      invariant writer.header == (if i == 0 then WriteHeader else DidWriteHeader)
      invariant writer.buffer == CsvRecords(entries[..i])
    {
      writer.Serialize(entries[i]);
      CsvRecordsExtend(entries, i);
    }
    assert entries[..|entries|] == entries;
    if disk.write.Err? && entries != [] {
      var reached := Min(disk.reached, |writer.buffer|);
      return Err(ExportFailed(disk.write.error)), effects + [WriteRecords(EXPORT_FILE_PATH, writer.buffer[..reached])];
    }
    effects := effects + [WriteRecords(EXPORT_FILE_PATH, writer.buffer)];
    r := Ok(());
  }

  // ---------------------------------------------------------------------
  // The pipeline

  /** The address list `parse_stats` works on: read and clean the file, then validate every line. */
  function LoadAddresses(file: Result<seq<Fs.RawLine>, string>, parse: string -> Result<Address, string>): Result<seq<Address>, Error>
  {
    match Fs.ReadLinesResult(file)
    case Err(e) => Err(ReadFailed(e))
    case Ok(lines) => Validate(lines, parse)
  }

  /** True of a trace that creates (and so truncates) the CSV file. */
  predicate TouchesCsv(effects: seq<Effect>)
  {
    exists k | 0 <= k < |effects| :: effects[k] == CreateFile(EXPORT_FILE_PATH)
  }

  /**
   * One row per address, in order, row `i` holding address `i` and the
   * formatted answer of the chain behind `config` to `allocations(address_i)`.
   */
  predicate RowsAnswer(rows: seq<WalletStats>, addresses: seq<Address>, config: Config, env: Env)
  {
    && |rows| == |addresses|
    && forall i | 0 <= i < |addresses| :: rows[i] == WalletStats(addresses[i],
         env.formatUnits(env.net.answer(config.baseRpcUrl,
                                        Call(ZORA_TOKEN_COMMUNITY_CLAIM_CA, Allocations(addresses[i]))), DECIMALS))
  }

  /** The effects of a run up to and including the multicall. */
  function FetchEffects(addresses: seq<Address>, config: Config, net: Network): seq<Effect>
  {
    [ReadFile(ADDRESSES_FP), ReadFile(CONFIG_PATH)]
    + if net.urlValid(config.baseRpcUrl) then [Rpc(config.baseRpcUrl, AllocationCalls(addresses))] else []
  }

  /**
   * What a run of `parse_stats` does, stage by stage: its outcome and the
   * effects it performs, in order. Each stage starts only after the previous
   * one succeeded; the first failure ends the run.
   */
  function Run(env: Env): (Outcome, seq<Effect>)
  {
    match LoadAddresses(env.addressFile, env.parse)
    case Err(e) => (Failed(e), [ReadFile(ADDRESSES_FP)])
    case Ok(addresses) =>
      match env.config
      case Err(_) => (Panicked(CONFIG_PANIC), [ReadFile(ADDRESSES_FP), ReadFile(CONFIG_PATH)])
      case Ok(config) =>
        var before := FetchEffects(addresses, config, env.net);
        match Fetched(addresses, config, env.net)
        case Err(e) => (Failed(e), before)
        case Ok(values) =>
          var table := Zip(addresses, FormatAll(values, env.formatUnits));
          if env.disk.create.Err? then (Failed(ExportFailed(env.disk.create.error)), before)
          else if env.disk.write.Err? && table != [] then
            (Failed(ExportFailed(env.disk.write.error)),
             before + [CreateFile(EXPORT_FILE_PATH), WriteRecords(EXPORT_FILE_PATH, WrittenBeforeFailure(table, env.disk))])
          else
            (Done, before + [CreateFile(EXPORT_FILE_PATH), WriteRecords(EXPORT_FILE_PATH, CsvRecords(table)), PrintTable(table)])
  }

  /** Bad input (an unreadable file, an undecodable line, an invalid address) stops the run after reading only the address file. */
  lemma InvalidInputStopsEarly(env: Env)
    ensures LoadAddresses(env.addressFile, env.parse).Err? ==>
      Run(env) == (Failed(LoadAddresses(env.addressFile, env.parse).error), [ReadFile(ADDRESSES_FP)])
  {
  }

  /** A bad config panics after the config read and before any network use. */
  lemma ConfigPanicBeforeNetwork(env: Env)
    ensures LoadAddresses(env.addressFile, env.parse).Ok? && env.config.Err? ==>
      Run(env) == (Panicked(CONFIG_PANIC), [ReadFile(ADDRESSES_FP), ReadFile(CONFIG_PATH)])
  {
  }

  /** A failed fetch ends the run with its error, and the CSV file is never touched. */
  lemma FetchFailureSkipsExport(env: Env)
    ensures LoadAddresses(env.addressFile, env.parse).Ok? && env.config.Ok? ==>
      var addresses := LoadAddresses(env.addressFile, env.parse).value;
      var fetched := Fetched(addresses, env.config.value, env.net);
      fetched.Err? ==>
        && Run(env) == (Failed(fetched.error), FetchEffects(addresses, env.config.value, env.net))
        && !TouchesCsv(Run(env).1)
  {
    if LoadAddresses(env.addressFile, env.parse).Ok? && env.config.Ok? {
      var addresses := LoadAddresses(env.addressFile, env.parse).value;
      var effects := FetchEffects(addresses, env.config.value, env.net);
      assert forall k | 0 <= k < |effects| :: !effects[k].CreateFile?;
    }
  }

  /** After a successful fetch, the export's three outcomes, with the table printed only after a complete export. */
  lemma ExportAfterFetch(env: Env)
    ensures LoadAddresses(env.addressFile, env.parse).Ok? && env.config.Ok? ==>
      var addresses := LoadAddresses(env.addressFile, env.parse).value;
      var fetched := Fetched(addresses, env.config.value, env.net);
      var before := FetchEffects(addresses, env.config.value, env.net);
      fetched.Ok? ==>
        var table := Zip(addresses, FormatAll(fetched.value, env.formatUnits));
        && (env.disk.create.Err? ==> Run(env) == (Failed(ExportFailed(env.disk.create.error)), before))
        && (env.disk.create.Ok? && env.disk.write.Err? && table != [] ==>
              Run(env) == (Failed(ExportFailed(env.disk.write.error)),
                           before + [CreateFile(EXPORT_FILE_PATH), WriteRecords(EXPORT_FILE_PATH, WrittenBeforeFailure(table, env.disk))]))
        && (env.disk.create.Ok? && (env.disk.write.Ok? || table == []) ==>
              Run(env) == (Done, before + [CreateFile(EXPORT_FILE_PATH),
                                           WriteRecords(EXPORT_FILE_PATH, CsvRecords(table)),
                                           PrintTable(table)]))
  {
  }

  /**
   * The CSV file is created (and so truncated) only after the multicall
   * succeeded; with a transport that answers every sub-call, that means one
   * allocation has arrived per address.
   */
  lemma CsvOnlyAfterFetch(env: Env)
    ensures TouchesCsv(Run(env).1) ==>
      && LoadAddresses(env.addressFile, env.parse).Ok? && env.config.Ok?
      && Fetched(LoadAddresses(env.addressFile, env.parse).value, env.config.value, env.net).Ok?
      && (OnePerCall(env.net) ==>
            |Fetched(LoadAddresses(env.addressFile, env.parse).value, env.config.value, env.net).value|
            == |LoadAddresses(env.addressFile, env.parse).value|)
  {
    FetchFailureSkipsExport(env);
    var effects := Run(env).1;
    if LoadAddresses(env.addressFile, env.parse).Err? || env.config.Err? {
      assert forall k | 0 <= k < |effects| :: !effects[k].CreateFile?;
    } else {
      FetchedOnePerAddress(LoadAddresses(env.addressFile, env.parse).value, env.config.value, env.net);
    }
  }

  /**
   * With a transport that answers every sub-call in order, a completed run
   * prints one row per address, in order, each holding that address's own
   * formatted allocation.
   */
  lemma CompletedRunRowsAnswer(env: Env)
    ensures Run(env).0 == Done && OnePerCall(env.net) ==>
      var effects := Run(env).1;
      && |effects| >= 1 && effects[|effects| - 1].PrintTable?
      && RowsAnswer(effects[|effects| - 1].rows, LoadAddresses(env.addressFile, env.parse).value, env.config.value, env)
  {
    if Run(env).0 == Done && OnePerCall(env.net) {
      assert LoadAddresses(env.addressFile, env.parse).Ok? && env.config.Ok?;
      var addresses := LoadAddresses(env.addressFile, env.parse).value;
      var config := env.config.value;
      assert Fetched(addresses, config, env.net).Ok?;
      var values := Fetched(addresses, config, env.net).value;
      FetchedOnePerAddress(addresses, config, env.net);
      TableAligned(addresses, values, env.formatUnits);
    }
  }

  /**
   * `parse_stats`: read and validate the addresses, read the config, fetch
   * the allocations, pair, export, print; exactly the run `Run` describes.
   */
  method ParseStats(env: Env) returns (outcome: Outcome, effects: seq<Effect>)
    ensures (outcome, effects) == Run(env)
  {
    effects := [ReadFile(ADDRESSES_FP)];
    var lines := Fs.ReadLines(env.addressFile);
    if lines.Err? {
      assert LoadAddresses(env.addressFile, env.parse) == Err(ReadFailed(lines.error));
      return Failed(ReadFailed(lines.error)), effects;
    }
    var parsed := ParseAddresses(lines.value, env.parse);
    assert LoadAddresses(env.addressFile, env.parse) == parsed;
    if parsed.Err? {
      return Failed(parsed.error), effects;
    }
    var addresses := parsed.value;
    assert LoadAddresses(env.addressFile, env.parse) == Ok(addresses);

    effects := effects + [ReadFile(CONFIG_PATH)];
    if env.config.Err? {
      assert effects == [ReadFile(ADDRESSES_FP), ReadFile(CONFIG_PATH)];
      return Panicked(CONFIG_PANIC), effects;
    }
    var config := env.config.value;

    var fetched, rpc := GetStats(addresses, config, env.net);
    effects := effects + rpc;
    assert effects == FetchEffects(addresses, config, env.net);
    if fetched.Err? {
      return Failed(fetched.error), effects;
    }
    var allocations := FormatAll(fetched.value, env.formatUnits);

    var table := BuildTable(addresses, allocations);
    var exported, written := ExportStatsToCsv(table, env.disk);
    ghost var before := effects;
    effects := effects + written;
    if exported.Err? {
      if env.disk.create.Err? {
        assert effects == before;
      }
      return Failed(exported.error), effects;
    }
    effects := effects + [PrintTable(table)];
    assert effects == before + [CreateFile(EXPORT_FILE_PATH), WriteRecords(EXPORT_FILE_PATH, CsvRecords(table)), PrintTable(table)];
    outcome := Done;
  }
}
