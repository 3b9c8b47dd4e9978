# Personal finance tracker — Dafny model

A model of a single-user income/expense ledger. A `Transaction` holds an
amount, a category, a note, a type (`income` or `expense`) and a date. The
`FinanceTracker` keeps the transactions in insertion order. It appends a
record and rewrites the data file after every add. At startup it loads the
file, and falls back to an empty ledger (with a corruption warning) when the
file cannot be decoded or a record lacks a key. The model also falls back
when a stored value has the wrong type, which the program does not check
(see "Left out"). It reports income, expense
and balance. A menu shell validates what the user types before anything is
added.

Modules, one per concern of `main.py`:

- `Wrappers` (`wrappers.dfy`): `Option` and `Result`.
- `Transactions` (`transactions.dfy`): the record, its constructor with the
  default date, and the dictionary codec (`to_dict` / `from_dict`).
- `Ledger` (`ledger.dfy`): append, the saved list of dictionaries, startup
  load and its error path, and the tracker (ledger plus data file).
- `Summary` (`summary.dfy`): the income, expense and balance totals.
- `Text` (`text.dfy`): `str.strip()` and `str.lower()` as the add prompt uses
  them.
- `Shell` (`shell.dfy`): add-prompt validation and the menu loop.

Modelling choices:

- Amounts are integers (cents).
- A dictionary value is `Num(int)` or `Text(string)`.
- The data file is what the JSON reader hands back: `Absent`, `Undecodable`,
  or `Stored(list of dictionaries)`.
- The clock is a parameter of type `Timestamp` (a non-empty string). It is
  read once per load and once per shell turn.
- Keyboard input is data: one `Turn` per pass of the menu loop. An amount
  that does not parse is `None`.
- Lower-casing covers ASCII letters only. In Unicode's case mappings, only
  two non-ASCII characters lower-case to something containing an ASCII
  letter. U+0130 becomes "i" followed by U+0307, so the result has an extra
  character. The Kelvin sign U+212A becomes "k", a letter in neither word.
  So no input is accepted as `income` or `expense` under full Unicode
  lower-casing that the model rejects, or the other way round.
- Stripping uses the exact set of characters for which Python's
  `str.isspace()` holds.
- The rejection message for a negative amount says it "must be positive".
  The check itself rejects only amounts below zero, so zero is accepted. The
  model follows the check.

## Model

| member | source | states |
|---|---|---|
| Transactions.NewTransaction | main.py:8-13 | every field is kept; a supplied non-empty date is kept verbatim; a missing or empty date becomes the clock reading; the date is never empty |
| Transactions.ToDict | main.py:15-22 | the dictionary has exactly the five keys amount, category, note, t_type, date, each holding the field of that name |
| Transactions.FirstMissing | main.py:26-31 | returns nothing iff every key is present; otherwise returns the first absent key, all keys before it being present |
| Transactions.FromDict | main.py:24-32 | succeeds iff all five keys are present and well typed; with any key absent it fails with the first absent key in keyword order; on success each field comes from its key and an empty stored date takes the clock reading |
| Transactions.CodecRoundTrip | main.py:13-32 | decoding the dictionary form of a record with a non-empty date gives back that record, whatever the clock reads |
| Transactions.CodecRoundTripEmptyDate | main.py:13 | for an empty date the round trip replaces the date with the clock reading, so it does not give back the record |
| Transactions.MissingKeyFails | main.py:25-32 | removing any one of the five keys from a record's dictionary makes decoding fail, reporting exactly that key |
| Ledger.AddTransaction | main.py:39-40 | the ledger grows by exactly one; all earlier records are unchanged and in order; the new record is last |
| Ledger.Encode | main.py:59-61 | the saved list has one dictionary per record, in ledger order, each the record's dictionary form |
| Ledger.DecodeAll | main.py:68 | succeeds iff every dictionary decodes, giving one record per dictionary in order; otherwise fails with the error of the first dictionary that does not decode |
| Ledger.Load | main.py:63-70 | the warning is shown iff the file is undecodable or some record fails to decode; a missing file or a warning leaves the ledger empty; otherwise the ledger is the decoded records in file order; every loaded record has a date |
| Ledger.LoadAfterSave | main.py:59-68 | saving a ledger of dated records and loading it back gives the same records in the same order, with no warning |
| Ledger.LoadWithMissingKey | main.py:63-70 | one stored record lacking a key makes the whole load come back empty, with the warning |
| Ledger.Open | main.py:35-37 | the file is left as found; the ledger is empty unless a complete load succeeded, and after a complete load it is the decoded records in file order; every record has a date |
| Ledger.Add | main.py:39-41 | the ledger is the old ledger with the record appended, and the file then holds exactly the new ledger |
| Ledger.ReloadAfterAdd | main.py:39-41 | after an add to a dated ledger, loading the file at any time gives back exactly the in-memory ledger |
| Summary.Select | main.py:51-52 | keeps exactly the records whose type equals the kind, each as many times as it occurs in the ledger, and no other record |
| Summary.SelectAppend | main.py:51-52 | selecting from two ledgers laid end to end gives the selection from the first followed by the selection from the second, so ledger order is kept |
| Summary.KindTotal | main.py:51-52 | records of other types add nothing; when every record has the kind, it is the sum of all amounts; with no negative amount it is not negative |
| Summary.KindTotalIsFilteredSum | main.py:51-52 | a kind's total is the sum of the amounts of exactly the records selected by that kind |
| Summary.KindTotalSnoc | main.py:51-52 | appending a record adds its amount to a kind's total exactly when its type is that kind |
| Summary.Summarize | main.py:50-53 | balance is income minus expense; with no negative amount in the ledger neither total is negative |
| Summary.KindTotalAppend | main.py:51-52 | a kind's total over two ledgers laid end to end is the sum of their totals |
| Summary.SummaryAfterAdd | main.py:50-53 | appending a record adds its amount to exactly the total its type names, and changes neither total for any other type |
| Summary.OtherKindsIgnored | main.py:51-52 | records whose type is neither income nor expense leave all three figures as if they were absent |
| Summary.SalaryAndLunch | main.py:50-53 | income 1000.00 and expense 200.00 give a balance of 800.00 |
| Summary.ComputeSummary | main.py:50-53 | the one-pass loop computes the same three figures as the filtered sums |
| Text.LeadingSpace | main.py:87 | counts the whitespace characters the text starts with: all of them are whitespace, and the next one is not |
| Text.TrimEnd | main.py:87 | gives a prefix of the text whose last character is not whitespace, everything cut off being whitespace |
| Text.Strip | main.py:87 | gives the slice after the leading whitespace, with only whitespace after it, neither starting nor ending with whitespace |
| Text.StripRemovesPadding | main.py:87 | whitespace around a word with non-whitespace ends is exactly what stripping removes |
| Text.Lower | main.py:87 | same length, each character lower-cased |
| Text.StripLowerSpells | main.py:87 | stripping then lower-casing gives a word with non-whitespace ends exactly when the text is that word in any ASCII case, with only whitespace before and after it |
| Shell.NormalizeKind | main.py:87 | the normalised kind is never longer than what was typed and neither starts nor ends with whitespace |
| Shell.KindSpelling | main.py:87-88 | the typed kind normalises to income (or expense) exactly when it is that word in any case, with any whitespace around it |
| Shell.ParseAdd | main.py:86-97 | accepts iff the stripped, lower-cased type is income or expense and the amount parses and is not negative; an invalid type is reported before the amount is looked at; an accepted record carries the normalised type, the amount, category and note as typed, and the clock reading |
| Shell.PaddedKindAccepted | main.py:87-88 | any case mix of income or expense, with any whitespace around it, normalises to that kind |
| Shell.CanonicalKindAccepted | main.py:87-88 | income and expense typed exactly are accepted as themselves |
| Shell.ValidAddTurn | main.py:85-99 | choice 1 with a type that normalises to income or expense and a non-negative amount appends the record, carrying the normalised type and the clock reading, and the loop continues |
| Shell.RunStopsAtQuit | main.py:106-108 | choice 4 ends the session with the store as it is |
| Shell.RunContinues | main.py:76-110 | any other choice applies its turn and the session goes on with the remaining turns |
| Shell.Step | main.py:83-110 | only choice 1 with a valid form changes the store, appending one checked record and saving; a rejected form leaves store and file unchanged; choice 4 ends the loop; every other choice continues |
| Shell.Run | main.py:76-110 | the ledger only grows, every record it gains passed the add checks, and the store is either unchanged or its file holds exactly the final ledger |
| Shell.RunKeepsTotalsNonNegative | main.py:87-98 | a session from a ledger with no negative amount never reports a negative income or expense total |
| Shell.RunThenReload | main.py:98 | after a session that added anything, loading the file gives back exactly the ledger the session ended with |
| Shell.SalaryAndLunchSession | main.py:85-105 | from a missing file, adding income 1000.00 and expense 200.00 (kinds typed in any case and padding) and then quitting leaves exactly those two records and a summary of 1000.00, 200.00 and 800.00 |

## Left out

- File I/O (`open`, `os.path.exists`, `json.dump`, `json.load`) is left out. The file is the abstract `StoreFile`, and saving replaces it with the encoded ledger.
- JSON text is not modelled: no serialisation, parsing or pretty-printing. `Undecodable` stands for any `JSONDecodeError`.
- The stored content is modelled only as a list of objects. Other top-level JSON is not modelled. An empty object or empty string loads silently as an empty ledger. A non-empty object or string, a number or `null` crashes the source with an uncaught `TypeError`. List elements that are not objects, and bytes that are not valid UTF-8, also crash the source uncaught. None of these crashes is modelled.
- A failing write in `save_data` ends the program. This is not modelled.
- Transactions.FromDict: a value of the wrong JSON type (a text amount, a number as category) is a `WrongType` failure here. The source stores such a value unchecked and may fail later in `summary`.
- Ledger.Load: a record with all five keys but a wrongly typed value makes the model warn and load an empty ledger. The source loads such a record without a warning. The model's next add then rewrites the file without that data, which the source would have kept.
- Stored values are only numbers and strings. JSON `null`, booleans, lists and objects cannot be stored values. In particular, the source replaces a `null` stored date with the clock reading, and the model does not represent that case.
- The clock (`datetime.now()`) is a `Timestamp` parameter. The model does not check its format. One reading serves a whole load, although the source reads the clock once per record that has an empty date.
- Floating point is not modelled. Amounts are integer cents, and sums are exact. `float()` parsing is left to the caller: an unparsable amount is `None`. `nan` and `inf` parse in the source, and `nan` gets past the negative-amount check. Neither case is modelled.
- Text.Lower: only ASCII letters are lower-cased. Python's `str.lower()` also maps other letters, and some of them to more than one character. This does not change which typed kinds are accepted.
- Console output is not modelled: the menu text, `view_all`'s listing and the summary's formatting. `view_all` and `summary` leave the store unchanged, and `Step` says so.
- The interactive loop is modelled as a finite script of turns. An endless session is not modelled.
