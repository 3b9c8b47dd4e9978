/** The record store: the ordered ledger, its append operation, and saving to
    and loading from the data file, with the file's contents abstracted to
    what the JSON reader hands back. */
module Ledger {
  import opened Wrappers
  import opened Transactions

  /** Appends one record; every earlier record keeps its place. */
  function AddTransaction(ts: seq<Transaction>, t: Transaction): (r: seq<Transaction>)
    ensures |r| == |ts| + 1
    ensures r[..|ts|] == ts
    ensures r[|ts|] == t
  {
    ts + [t]
  }

  /** True when every record has a non-empty date, as every record made by
      the constructor does. */
  predicate Dated(ts: seq<Transaction>) {
    forall i :: 0 <= i < |ts| ==> ts[i].date != ""
  }

  /** The list of dictionaries written to the data file. */
  function Encode(ts: seq<Transaction>): (rs: seq<Record>)
    ensures |rs| == |ts|
    ensures forall i :: 0 <= i < |ts| ==> rs[i] == ToDict(ts[i])
  {
    if |ts| == 0 then [] else [ToDict(ts[0])] + Encode(ts[1..])
  }

  /** Decodes every dictionary in order; the first one that fails stops the
      whole list, reporting its error. */
  function DecodeAll(rs: seq<Record>, now: Timestamp): (r: Result<seq<Transaction>, DecodeError>)
    ensures r.Success? <==> forall i :: 0 <= i < |rs| ==> FromDict(rs[i], now).Success?
    ensures r.Success? ==>
      |r.value| == |rs| &&
      forall i :: 0 <= i < |rs| ==> FromDict(rs[i], now) == Success(r.value[i])
    ensures r.Failure? ==>
      exists i :: 0 <= i < |rs| && FromDict(rs[i], now) == Failure(r.error) &&
        forall j :: 0 <= j < i ==> FromDict(rs[j], now).Success?
  {
    if |rs| == 0 then Success([])
    else
      match FromDict(rs[0], now)
      case Failure(e) => Failure(e)
      case Success(t) =>
        match DecodeAll(rs[1..], now)
        case Failure(e) =>
          ghost var i :| 0 <= i < |rs| - 1 && FromDict(rs[1..][i], now) == Failure(e) &&
            forall j :: 0 <= j < i ==> FromDict(rs[1..][j], now).Success?;
          assert FromDict(rs[i + 1], now) == Failure(e);
          Failure(e)
        case Success(ts) =>
          assert forall i :: 0 <= i < |rs| - 1 ==> rs[1..][i] == rs[i + 1];
          Success([t] + ts)
  }

  /** What the data file holds when the program starts: nothing, text the
      JSON reader rejects, or a decoded list of dictionaries. */
  datatype StoreFile = Absent | Undecodable | Stored(records: seq<Record>)

  /** The loaded ledger, and whether the corruption warning was shown. */
  datatype Loaded = Loaded(transactions: seq<Transaction>, warned: bool)

  /** Startup load. A missing file gives an empty ledger silently; undecodable
      text or any record with a missing key gives an empty ledger and the
      warning, since the ledger is assigned only after every record decoded. */
  function Load(file: StoreFile, now: Timestamp): (r: Loaded)
    ensures r.warned <==>
      file.Undecodable? ||
      (file.Stored? && exists i :: 0 <= i < |file.records| && FromDict(file.records[i], now).Failure?)
    ensures r.warned || file.Absent? ==> r.transactions == []
    ensures file.Stored? && !r.warned ==>
      |r.transactions| == |file.records| &&
      forall i :: 0 <= i < |file.records| ==> FromDict(file.records[i], now) == Success(r.transactions[i])
    ensures Dated(r.transactions)
  {
    match file
    case Absent => Loaded([], false)
    case Undecodable => Loaded([], true)
    case Stored(rs) =>
      match DecodeAll(rs, now)
      case Success(ts) => Loaded(ts, false)
      case Failure(_) => Loaded([], true)
  }

  /** Saving a ledger of dated records and loading it back gives the same
      records in the same order, without a warning. */
  lemma LoadAfterSave(ts: seq<Transaction>, now: Timestamp)
    requires Dated(ts)
    ensures Load(Stored(Encode(ts)), now) == Loaded(ts, false)
  {
  }

  /** A stored record lacking one of the five keys makes the whole load come
      back empty, with the warning. */
  lemma LoadWithMissingKey(rs: seq<Record>, k: nat, now: Timestamp)
    requires k < |rs| && !HasAllKeys(rs[k])
    ensures Load(Stored(rs), now) == Loaded([], true)
  {
  }

  /** The program's store: the in-memory ledger and the data file. */
  datatype Tracker = Tracker(transactions: seq<Transaction>, file: StoreFile)

  /** Construction: the ledger starts empty and is replaced only by a
      complete load, which gives the decoded records in file order; the file
      is left as found. */
  function Open(file: StoreFile, now: Timestamp): (tr: Tracker)
    ensures tr.file == file
    ensures Dated(tr.transactions)
    ensures !file.Stored? ==> tr.transactions == []
    ensures Load(file, now).warned ==> tr.transactions == []
    ensures file.Stored? && !Load(file, now).warned ==>
      |tr.transactions| == |file.records| &&
      forall i :: 0 <= i < |file.records| ==> FromDict(file.records[i], now) == Success(tr.transactions[i])
  {
    Tracker(Load(file, now).transactions, file)
  }

  /** True when the data file holds exactly the in-memory ledger. */
  predicate Saved(tr: Tracker) {
    tr.file == Stored(Encode(tr.transactions))
  }

  /** Appends a record and rewrites the whole file from the new ledger. */
  function Add(tr: Tracker, t: Transaction): (r: Tracker)
    ensures r.transactions == AddTransaction(tr.transactions, t)
    ensures Saved(r)
  {
    var ts := AddTransaction(tr.transactions, t);
    Tracker(ts, Stored(Encode(ts)))
  }

  /** After an add, restarting the program at any time reloads exactly the
      ledger that was in memory. */
  lemma ReloadAfterAdd(tr: Tracker, t: Transaction, now: Timestamp)
    requires Dated(tr.transactions) && t.date != ""
    ensures Load(Add(tr, t).file, now) == Loaded(Add(tr, t).transactions, false)
  {
  }
}
