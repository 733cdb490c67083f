/** The hash-chained audit log: one record per line of a file, each record holding
    the hash of the record before it and a hash of its own fields. */
module AuditLog {
  import opened Wrappers

  const Genesis := "GENESIS"
  /** What `JSON.parse("")` throws when the file exists but holds no line. */
  const EmptyLogError := "Unexpected end of JSON input"

  datatype JsonValue = JStr(str: string) | JNum(num: int)

  /** The fields of a record, by name. */
  type Fields = map<string, JsonValue>

  /** One line of the log: the fields that were hashed, and the `hash` added after. */
  datatype AuditRecord = AuditRecord(body: Fields, hash: string)

  /** The log file: missing, or present with its records in line order. A file that
      exists but is empty or only whitespace is `Present([])`. */
  datatype LogFile = Absent | Present(records: seq<AuditRecord>)

  function Records(file: LogFile): seq<AuditRecord>
  {
    if file.Present? then file.records else []
  }

  /** The `prevHash` for the next record: GENESIS when there is no file, the hash of
      the last line otherwise; with no line to parse, the parse throws. */
  function PrevHash(file: LogFile): (r: Result<string>)
    ensures r.Err? <==> file == Present([])
    ensures file == Absent ==> r == Ok(Genesis)
    ensures file.Present? && file.records != [] ==> r == Ok(file.records[|file.records| - 1].hash)
  {
    match file
    case Absent => Ok(Genesis)
    case Present(records) =>
      if |records| == 0 then Err(EmptyLogError) else Ok(records[|records| - 1].hash)
  }

  /** `{timestamp, ...entry, prevHash}`: later keys win, so the entry may replace the
      timestamp and the computed `prevHash` replaces any the entry carries. */
  function RecordBody(timestamp: string, entry: Fields, prevHash: string): (body: Fields)
    ensures body.Keys == entry.Keys + {"timestamp", "prevHash"}
    ensures body["prevHash"] == JStr(prevHash)
    ensures forall k :: k in entry && k != "prevHash" ==> body[k] == entry[k]
    ensures "timestamp" !in entry ==> body["timestamp"] == JStr(timestamp)
  {
    map["timestamp" := JStr(timestamp)] + entry + map["prevHash" := JStr(prevHash)]
  }

  /** Record `i` links to record `i - 1` (or to GENESIS) and its hash recomputes. */
  ghost predicate LinkedAt(records: seq<AuditRecord>, i: int, digest: string -> string, json: Fields -> string)
    requires 0 <= i < |records|
  {
    && "prevHash" in records[i].body
    && records[i].body["prevHash"] == JStr(if i == 0 then Genesis else records[i - 1].hash)
    && records[i].hash == digest(json(records[i].body))
  }

  /** The chain is valid: every link matches and every hash recomputes. */
  ghost predicate ValidChain(records: seq<AuditRecord>, digest: string -> string, json: Fields -> string)
  {
    forall i :: 0 <= i < |records| ==> LinkedAt(records, i, digest, json)
  }

  /** `writeAudit(entry)` on a file: the file after the append, or the error thrown.
      `digest` is SHA-256 to hex, `json` is `JSON.stringify`. */
  function Append(file: LogFile, entry: Fields, timestamp: string,
                  digest: string -> string, json: Fields -> string): (r: Result<LogFile>)
    ensures r.Err? <==> file == Present([])
    ensures r.Err? ==> r.error == EmptyLogError
    ensures r.Ok? ==> r.value.Present? && |r.value.records| == |Records(file)| + 1
  {
    match PrevHash(file)
    case Err(e) => Err(e)
    case Ok(prevHash) =>
      var body := RecordBody(timestamp, entry, prevHash);
      Ok(Present(Records(file) + [AuditRecord(body, digest(json(body)))]))
  }

  /** Each append adds one record at the end, whose hash is the digest of its fields
      and whose fields are the entry's, timestamped and linked to the previous tail. */
  lemma AppendAddsOneRecord(file: LogFile, entry: Fields, timestamp: string,
                            digest: string -> string, json: Fields -> string)
    requires file != Present([])
    ensures var r := Append(file, entry, timestamp, digest, json);
      && r.Ok?
      && r.value.records[..|Records(file)|] == Records(file)
      && var last := r.value.records[|Records(file)|];
      && last.body == RecordBody(timestamp, entry, PrevHash(file).value)
      && last.hash == digest(json(last.body))
  {
  }

  /** The first record of a new log links to GENESIS. */
  lemma FirstRecordIsGenesis(entry: Fields, timestamp: string, digest: string -> string, json: Fields -> string)
    ensures var r := Append(Absent, entry, timestamp, digest, json);
      r.Ok? && |r.value.records| == 1 && r.value.records[0].body["prevHash"] == JStr("GENESIS")
  {
  }

  /** Every append keeps a valid chain valid. */
  lemma AppendPreservesChain(file: LogFile, entry: Fields, timestamp: string,
                             digest: string -> string, json: Fields -> string)
    requires ValidChain(Records(file), digest, json)
    requires file != Present([])
    ensures Append(file, entry, timestamp, digest, json).Ok?
    ensures ValidChain(Append(file, entry, timestamp, digest, json).value.records, digest, json)
  {
    var old_ := Records(file);
    var records := Append(file, entry, timestamp, digest, json).value.records;
    var n := |old_|;
    forall i | 0 <= i < |records|
      ensures LinkedAt(records, i, digest, json)
    {
      if i < n {
        assert records[i] == old_[i];
        assert LinkedAt(old_, i, digest, json);
        if i > 0 {
          assert records[i - 1] == old_[i - 1];
        }
      } else {
        assert i == n;
        if n > 0 {
          assert records[n - 1] == old_[n - 1];
        }
      }
    }
  }

  /** A file that exists with no record in it makes the append throw, rather than
      starting the chain at GENESIS. */
  lemma EmptyExistingLogThrows(entry: Fields, timestamp: string, digest: string -> string, json: Fields -> string)
    ensures Append(Present([]), entry, timestamp, digest, json) == Err("Unexpected end of JSON input")
  {
  }

  /** The log file `audit.log`, with the hash and serialisation it is written with. */
  class AuditLogFile {
    var file: LogFile
    const digest: string -> string
    const json: Fields -> string

    constructor (file: LogFile, digest: string -> string, json: Fields -> string)
      ensures this.file == file && this.digest == digest && this.json == json
    {
      this.file := file;
      this.digest := digest;
      this.json := json;
    }

    /** `writeAudit(entry)`, with `timestamp` the ISO time of the call. */
    method WriteAudit(entry: Fields, timestamp: string) returns (o: Outcome)
      modifies this
      ensures var r := Append(old(file), entry, timestamp, digest, json);
        && (r.Ok? ==> file == r.value && o == Pass)
        && (r.Err? ==> file == old(file) && o == Fail(r.error))
    {
      var prevHash := Genesis;
      if file.Present? {
        var lines := file.records;
        if |lines| == 0 {
          return Fail(EmptyLogError);
        }
        prevHash := lines[|lines| - 1].hash;
      }
      var body := map["timestamp" := JStr(timestamp)] + entry + map["prevHash" := JStr(prevHash)];
      var record := AuditRecord(body, digest(json(body)));
      file := Present(Records(file) + [record]);
      o := Pass;
    }
  }
}
