/** One ledger record and its string-keyed dictionary form, as written to and
    read back from the data file. */
module Transactions {
  import opened Wrappers

  /** A clock reading, `YYYY-MM-DD HH:MM:SS` in the program; the model relies
      only on its being non-empty. */
  type Timestamp = s: string | |s| > 0 witness "1970-01-01 00:00:00"

  const Income: string := "income"
  const Expense: string := "expense"

  /** A transaction. `amount` is in cents; `tType` is free text, normally
      `income` or `expense`, but a loaded record may carry anything. */
  datatype Transaction = Transaction(
    amount: int,
    category: string,
    note: string,
    tType: string,
    date: string)

  /** A JSON value as it appears in a stored record. */
  datatype Value = Num(n: int) | Text(s: string)

  /** The dictionary form of a record. */
  type Record = map<string, Value>

  /** Why a dictionary could not be turned into a transaction. */
  datatype DecodeError = MissingKey(key: string) | WrongType(key: string)

  /** The keys of the dictionary form, in the order the decoder reads them. */
  const FieldKeys: seq<string> := ["amount", "category", "note", "t_type", "date"]

  /** The constructor: every field is kept, except that a missing or empty
      date is replaced by the clock reading `now`. */
  function NewTransaction(
    amount: int, category: string, note: string, tType: string,
    date: Option<string>, now: Timestamp): (t: Transaction)
    ensures t.amount == amount && t.category == category
    ensures t.note == note && t.tType == tType
    ensures date.Some? && date.value != "" ==> t.date == date.value
    ensures date.None? || date.value == "" ==> t.date == now
    ensures t.date != ""
  {
    var d := if date.Some? && date.value != "" then date.value else now;
    Transaction(amount, category, note, tType, d)
  }

  /** The dictionary form of a transaction. */
  function ToDict(t: Transaction): (m: Record)
    ensures m.Keys == {"amount", "category", "note", "t_type", "date"}
    ensures forall i :: 0 <= i < |FieldKeys| ==> FieldKeys[i] in m
    ensures m["amount"] == Num(t.amount)
    ensures m["category"] == Text(t.category) && m["note"] == Text(t.note)
    ensures m["t_type"] == Text(t.tType) && m["date"] == Text(t.date)
  {
    map["amount" := Num(t.amount),
        "category" := Text(t.category),
        "note" := Text(t.note),
        "t_type" := Text(t.tType),
        "date" := Text(t.date)]
  }

  /** The first of `keys` that `m` lacks, if any. */
  function FirstMissing(m: Record, keys: seq<string>): (r: Option<string>)
    ensures r.None? <==> forall i :: 0 <= i < |keys| ==> keys[i] in m
    ensures r.Some? ==>
      exists i :: 0 <= i < |keys| && keys[i] == r.value && r.value !in m &&
        forall j :: 0 <= j < i ==> keys[j] in m
  {
    if |keys| == 0 then None
    else if keys[0] !in m then Some(keys[0])
    else
      var r := FirstMissing(m, keys[1..]);
      if r.Some? then
        ghost var i :| 0 <= i < |keys| - 1 && keys[1..][i] == r.value && r.value !in m &&
          forall j :: 0 <= j < i ==> keys[1..][j] in m;
        assert keys[i + 1] == r.value;
        r
      else r
  }

  /** True when every key of the dictionary form is present. */
  predicate HasAllKeys(m: Record) {
    "amount" in m && "category" in m && "note" in m && "t_type" in m && "date" in m
  }

  /** `HasAllKeys` is the same as every entry of `FieldKeys` being present. */
  lemma HasAllKeysByIndex(m: Record)
    ensures HasAllKeys(m) <==> forall i :: 0 <= i < |FieldKeys| ==> FieldKeys[i] in m
  {
    assert FieldKeys[0] == "amount" && FieldKeys[1] == "category" && FieldKeys[2] == "note";
    assert FieldKeys[3] == "t_type" && FieldKeys[4] == "date";
  }

  /** True when every present key holds a value of the type its field needs. */
  predicate WellTyped(m: Record) {
    && ("amount" in m ==> m["amount"].Num?)
    && ("category" in m ==> m["category"].Text?)
    && ("note" in m ==> m["note"].Text?)
    && ("t_type" in m ==> m["t_type"].Text?)
    && ("date" in m ==> m["date"].Text?)
  }

  /** The text field at a present key, or `WrongType`. */
  function TextAt(m: Record, key: string): (r: Result<string, DecodeError>)
    requires key in m
    ensures r.Success? <==> m[key].Text?
    ensures r.Success? ==> m[key] == Text(r.value)
    ensures r.Failure? ==> r.error == WrongType(key)
  {
    match m[key]
    case Text(s) => Success(s)
    case Num(_) => Failure(WrongType(key))
  }

  /** Rebuilds a transaction from its dictionary form. The first absent key,
      in `FieldKeys` order, is reported as `MissingKey`; keys not in
      `FieldKeys` are ignored; an empty stored date takes the clock reading. */
  function FromDict(m: Record, now: Timestamp): (r: Result<Transaction, DecodeError>)
    ensures r.Success? <==> HasAllKeys(m) && WellTyped(m)
    ensures !HasAllKeys(m) ==>
      r.Failure? && r.error.MissingKey? &&
      exists i :: 0 <= i < |FieldKeys| && FieldKeys[i] == r.error.key &&
        r.error.key !in m && forall j :: 0 <= j < i ==> FieldKeys[j] in m
    ensures r.Success? ==>
      && m["amount"] == Num(r.value.amount)
      && m["category"] == Text(r.value.category)
      && m["note"] == Text(r.value.note)
      && m["t_type"] == Text(r.value.tType)
      && (m["date"] == Text(r.value.date) || (m["date"] == Text("") && r.value.date == now))
    ensures r.Success? ==> r.value.date != ""
  {
    var missing := FirstMissing(m, FieldKeys);
    HasAllKeysByIndex(m);
    if missing.Some? then Failure(MissingKey(missing.value))
    else
      var amount :- match m["amount"]
                    case Num(n) => Success(n)
                    case Text(_) => Failure(WrongType("amount"));
      var category :- TextAt(m, "category");
      var note :- TextAt(m, "note");
      var tType :- TextAt(m, "t_type");
      var date :- TextAt(m, "date");
      Success(NewTransaction(amount, category, note, tType, Some(date), now))
  }

  /** Decoding the dictionary form gives back the record, whatever the clock
      says, as long as its date is non-empty. */
  lemma CodecRoundTrip(t: Transaction, now: Timestamp)
    requires t.date != ""
    ensures FromDict(ToDict(t), now) == Success(t)
  {
  }

  /** With an empty date the round trip fails: the decoded record carries the
      clock reading instead. */
  lemma CodecRoundTripEmptyDate(t: Transaction, now: Timestamp)
    requires t.date == ""
    ensures FromDict(ToDict(t), now) == Success(t.(date := now))
    ensures FromDict(ToDict(t), now) != Success(t)
  {
  }

  /** Removing any one key of a record's dictionary form makes decoding fail
      with exactly that key reported missing. */
  lemma MissingKeyFails(t: Transaction, k: nat, now: Timestamp)
    requires k < |FieldKeys|
    ensures FromDict(ToDict(t) - {FieldKeys[k]}, now) == Failure(MissingKey(FieldKeys[k]))
  {
  }
}
