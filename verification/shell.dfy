/** The interactive shell: the add prompt's validation and the menu loop,
    with each turn's keyboard input and clock reading given as data. */
module Shell {
  import opened Wrappers
  import opened Transactions
  import opened Ledger
  import opened Summary
  import opened Text

  /** What the user typed at the add prompts. `amount` is `None` when the
      text does not parse as a number. */
  datatype AddForm = AddForm(rawType: string, amount: Option<int>, category: string, note: string)

  /** Why an add attempt was abandoned. */
  datatype Rejection = InvalidType | UnparsableAmount | NegativeAmount

  /** The typed kind after trimming and lower-casing: never longer than
      what was typed, and neither starting nor ending with whitespace. */
  function NormalizeKind(raw: string): (r: string)
    ensures |r| <= |raw|
    ensures |r| > 0 ==> !IsSpace(r[0]) && !IsSpace(r[|r| - 1])
  {
    Lower(Strip(raw))
  }

  /** The typed kind is accepted as `income` (or `expense`) exactly when the
      user typed that word in any case, with any whitespace around it. */
  lemma KindSpelling(raw: string)
    ensures NormalizeKind(raw) == Income <==> PaddedCaseVariant(raw, Income)
    ensures NormalizeKind(raw) == Expense <==> PaddedCaseVariant(raw, Expense)
  {
    StripLowerSpells(raw, Income);
    StripLowerSpells(raw, Expense);
  }

  predicate IsKind(k: string) {
    k == Income || k == Expense
  }

  /** The add prompt: the kind is checked first, then the amount; category
      and note are taken as typed; the date is the clock reading. */
  function ParseAdd(form: AddForm, now: Timestamp): (r: Result<Transaction, Rejection>)
    ensures r.Success? <==>
      IsKind(NormalizeKind(form.rawType)) && form.amount.Some? && form.amount.value >= 0
    ensures !IsKind(NormalizeKind(form.rawType)) ==> r == Failure(InvalidType)
    ensures IsKind(NormalizeKind(form.rawType)) && form.amount.None? ==>
      r == Failure(UnparsableAmount)
    ensures IsKind(NormalizeKind(form.rawType)) && form.amount.Some? && form.amount.value < 0 ==>
      r == Failure(NegativeAmount)
    ensures r.Success? ==>
      && r.value.amount == form.amount.value
      && r.value.tType == NormalizeKind(form.rawType)
      && r.value.category == form.category && r.value.note == form.note
      && r.value.date == now
  {
    var kind := NormalizeKind(form.rawType);
    if !IsKind(kind) then Failure(InvalidType)
    else if form.amount.None? then Failure(UnparsableAmount)
    else if form.amount.value < 0 then Failure(NegativeAmount)
    else Success(NewTransaction(form.amount.value, form.category, form.note, kind, None, now))
  }

  /** Any mix of case and surrounding whitespace around `income` or
      `expense` is accepted as that kind. */
  lemma PaddedKindAccepted(pre: string, word: string, post: string, kind: string)
    requires forall i :: 0 <= i < |pre| ==> IsSpace(pre[i])
    requires forall i :: 0 <= i < |post| ==> IsSpace(post[i])
    requires IsKind(kind) && |word| == |kind|
    requires forall i :: 0 <= i < |word| ==> LowerChar(word[i]) == kind[i]
    ensures NormalizeKind(pre + word + post) == kind
  {
    assert |word| > 0;
    assert !IsSpace(word[0]) by {
      assert LowerChar(word[0]) == kind[0];
    }
    assert !IsSpace(word[|word| - 1]) by {
      assert LowerChar(word[|word| - 1]) == kind[|kind| - 1];
    }
    StripRemovesPadding(pre, word, post);
  }

  /** A record as the add prompt makes it. */
  predicate ShellMade(t: Transaction) {
    t.amount >= 0 && IsKind(t.tType) && t.date != ""
  }

  /** `b` extends `a` only by records the add prompt could have made. */
  predicate GrownByShell(a: seq<Transaction>, b: seq<Transaction>) {
    && |a| <= |b| && b[..|a|] == a
    && forall i :: |a| <= i < |b| ==> ShellMade(b[i])
  }

  /** Growth by the shell composes. */
  lemma GrowthComposes(a: seq<Transaction>, b: seq<Transaction>, c: seq<Transaction>)
    requires GrownByShell(a, b) && GrownByShell(b, c)
    ensures GrownByShell(a, c)
  {
  }

  /** `income` and `expense` typed exactly are accepted as themselves. */
  lemma CanonicalKindAccepted(kind: string)
    requires IsKind(kind)
    ensures NormalizeKind(kind) == kind
  {
    assert forall i :: 0 <= i < |kind| ==> 'a' <= kind[i] <= 'z';
    assert "" + kind + "" == kind;
    PaddedKindAccepted("", kind, "", kind);
  }

  /** One line of keyboard input at the menu, the add form that follows a
      `1`, and the clock reading at that moment. */
  datatype Turn = Turn(choice: string, form: AddForm, now: Timestamp)

  /** One pass of the menu loop: the new store, and whether the loop goes
      on. Only `1` can change the store, and only when the form is valid;
      `4` ends the loop; the choice is compared exactly, untrimmed. */
  function Step(tr: Tracker, turn: Turn): (r: (Tracker, bool))
    ensures r.1 <==> turn.choice != "4"
    ensures turn.choice != "1" ==> r.0 == tr
    ensures turn.choice == "1" && ParseAdd(turn.form, turn.now).Failure? ==> r.0 == tr
    ensures turn.choice == "1" && ParseAdd(turn.form, turn.now).Success? ==>
      r.0 == Add(tr, ParseAdd(turn.form, turn.now).value)
    ensures GrownByShell(tr.transactions, r.0.transactions)
    ensures r.0 != tr ==> |r.0.transactions| == |tr.transactions| + 1 && Saved(r.0)
  {
    if turn.choice == "1" then
      match ParseAdd(turn.form, turn.now)
      case Success(t) => (Add(tr, t), true)
      case Failure(_) => (tr, true)
    else (tr, turn.choice != "4")
  }

  /** The menu loop over a script of turns, stopping at `4` or when the
      script runs out. The ledger only grows, every record it gains passed
      the add checks, and the file is either untouched or the latest save. */
  function Run(tr: Tracker, turns: seq<Turn>): (r: Tracker)
    ensures GrownByShell(tr.transactions, r.transactions)
    ensures r == tr || (|r.transactions| > |tr.transactions| && Saved(r))
    decreases |turns|
  {
    if |turns| == 0 then tr
    else
      var step := Step(tr, turns[0]);
      if step.1 then
        var r := Run(step.0, turns[1..]);
        GrowthComposes(tr.transactions, step.0.transactions, r.transactions);
        r
      else step.0
  }

  /** A session that starts from a ledger with no negative amount (an empty
      one, say) never shows a negative income or expense total. */
  lemma RunKeepsTotalsNonNegative(tr: Tracker, turns: seq<Turn>)
    requires AllNonNegative(tr.transactions)
    ensures Summarize(Run(tr, turns).transactions).income >= 0
    ensures Summarize(Run(tr, turns).transactions).expense >= 0
  {
    var r := Run(tr, turns);
    var n := |tr.transactions|;
    forall i | 0 <= i < |r.transactions|
      ensures r.transactions[i].amount >= 0
    {
      if i < n {
        assert r.transactions[i] == r.transactions[..n][i];
      }
    }
  }

  /** After any session from a store whose ledger is dated, restarting the
      program reloads the ledger the session ended with, unless nothing was
      added (then the file is as it was). */
  lemma RunThenReload(tr: Tracker, turns: seq<Turn>, now: Timestamp)
    requires Dated(tr.transactions)
    ensures Run(tr, turns).transactions != tr.transactions ==>
      Load(Run(tr, turns).file, now) == Loaded(Run(tr, turns).transactions, false)
  {
    var r := Run(tr, turns);
    var n := |tr.transactions|;
    if r.transactions != tr.transactions {
      forall i | 0 <= i < |r.transactions|
        ensures r.transactions[i].date != ""
      {
        if i < n {
          assert r.transactions[i] == r.transactions[..n][i];
        }
      }
      LoadAfterSave(r.transactions, now);
    }
  }

  /** A valid add turn appends its record and keeps the loop going. */
  lemma ValidAddTurn(tr: Tracker, raw: string, amount: nat, category: string, note: string, now: Timestamp)
    requires IsKind(NormalizeKind(raw))
    ensures Step(tr, Turn("1", AddForm(raw, Some(amount), category, note), now))
      == (Add(tr, Transaction(amount, category, note, NormalizeKind(raw), now)), true)
  {
  }

  /** Choice `4` ends the session with the store as it is. */
  lemma RunStopsAtQuit(tr: Tracker, turns: seq<Turn>)
    requires |turns| > 0 && turns[0].choice == "4"
    ensures Run(tr, turns) == tr
  {
  }

  /** Any other choice applies its turn and goes on with the rest. */
  lemma RunContinues(tr: Tracker, turns: seq<Turn>)
    requires |turns| > 0 && turns[0].choice != "4"
    ensures Run(tr, turns) == Run(Step(tr, turns[0]).0, turns[1..])
  {
  }

  /** Two turns that each keep the loop going, then a quit. */
  lemma RunTwoThenQuit(tr: Tracker, a: Turn, b: Turn, c: Turn)
    requires a.choice != "4" && b.choice != "4" && c.choice == "4"
    ensures Run(tr, [a, b, c]) == Step(Step(tr, a).0, b).0
  {
    var turns := [a, b, c];
    RunContinues(tr, turns);
    assert turns[1..] == [b, c];
    RunContinues(Step(tr, a).0, [b, c]);
    assert [b, c][1..] == [c];
    RunStopsAtQuit(Step(Step(tr, a).0, b).0, [c]);
  }

  /** From a missing data file: add income 1000.00 "Salary", add expense
      200.00 "Food" "lunch", quit, the two kinds typed in any case with any
      whitespace around them. The ledger then holds the two records and the
      summary reads 1000.00, 200.00 and 800.00 (amounts in cents). */
  lemma SalaryAndLunchSession(now: Timestamp, typedIncome: string, typedExpense: string)
    requires PaddedCaseVariant(typedIncome, Income)
    requires PaddedCaseVariant(typedExpense, Expense)
    ensures Run(Open(Absent, now), [
        Turn("1", AddForm(typedIncome, Some(100000), "Salary", ""), now),
        Turn("1", AddForm(typedExpense, Some(20000), "Food", "lunch"), now),
        Turn("4", AddForm("", None, "", ""), now)]).transactions
      == [Transaction(100000, "Salary", "", Income, now),
          Transaction(20000, "Food", "lunch", Expense, now)]
    ensures Summarize(Run(Open(Absent, now), [
        Turn("1", AddForm(typedIncome, Some(100000), "Salary", ""), now),
        Turn("1", AddForm(typedExpense, Some(20000), "Food", "lunch"), now),
        Turn("4", AddForm("", None, "", ""), now)]).transactions)
      == Totals(100000, 20000, 80000)
  {
    KindSpelling(typedIncome);
    KindSpelling(typedExpense);
    var salary := Transaction(100000, "Salary", "", Income, now);
    var lunch := Transaction(20000, "Food", "lunch", Expense, now);
    var t0 := Open(Absent, now);
    var t1 := Add(t0, salary);
    var t2 := Add(t1, lunch);
    var a := Turn("1", AddForm(typedIncome, Some(100000), "Salary", ""), now);
    var b := Turn("1", AddForm(typedExpense, Some(20000), "Food", "lunch"), now);
    var c := Turn("4", AddForm("", None, "", ""), now);
    ValidAddTurn(t0, typedIncome, 100000, "Salary", "", now);
    ValidAddTurn(t1, typedExpense, 20000, "Food", "lunch", now);
    RunTwoThenQuit(t0, a, b, c);
    assert Run(t0, [a, b, c]).transactions == [salary, lunch];
    SalaryAndLunch(now);
  }
}
