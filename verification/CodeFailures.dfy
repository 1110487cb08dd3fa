/** Wrong guesses at a code: each one is counted, and the fifth locks the code. */
module CodeFailures {
  import opened Common
  import opened Orders
  import opened Journal
  import opened Database
  import opened Invariants
  import opened Preservation
  import opened Runs
  import opened OrderTheorems

  /** What recording a failure does to the codes, case by case. */
  lemma FailureIsCounted(db: Db, code: Option<Id>, draftId: Option<Id>, requestId: Option<Id>, action: Action,
                         reason: FailureReason, attemptId: Id, now: int)
    ensures var codes := RecordFailure(db, code, draftId, requestId, action, reason, attemptId, now).0.codes;
            && codes.Keys == db.codes.Keys
            && (forall c <- db.codes :: code != Some(c) ==> codes[c] == db.codes[c])
            && (code.Some? && code.value in db.codes ==>
                  var c, c' := db.codes[code.value], codes[code.value];
                  && (reason == VerificationFailed && Usable(c) ==>
                        && c'.failedAttempts == c.failedAttempts + 1
                        && (Usable(c') <==> c.failedAttempts + 1 < 5)
                        && (c'.invalidation == Some(MaxAttempts) <==> c.failedAttempts + 1 >= 5))
                  && (!(reason == VerificationFailed && Usable(c)) ==> c'.failedAttempts == c.failedAttempts)
                  && (reason == AuthorizationExpired ==> c'.invalidation == Some(PastExpiry))
                  && (reason != AuthorizationExpired && !(reason == VerificationFailed && Usable(c)) ==> c' == c)
                  && c' == c.(failedAttempts := c'.failedAttempts, invalidation := c'.invalidation))
  {
  }

  /** A verification failure recorded against code c. */
  predicate IsWrongGuess(tx: Tx, c: Id) {
    tx.TxRecordFailure? && tx.failure == VerificationFailed && tx.code == Some(c)
  }

  /** The wrong guesses at c in steps i..j. */
  function Guesses(txs: seq<Tx>, i: nat, j: nat, c: Id): nat
    requires i <= j <= |txs|
    decreases j
  {
    if i == j then 0 else Guesses(txs, i, j - 1, c) + if IsWrongGuess(txs[j - 1], c) then 1 else 0
  }

  /** The wrong guesses made at c while it could still be used. */
  function CountedGuesses(h: seq<Db>, txs: seq<Tx>, j: nat, c: Id): nat
    requires |h| == |txs| + 1 && j <= |txs|
  {
    if j == 0 then 0
    else CountedGuesses(h, txs, j - 1, c)
         + if IsWrongGuess(txs[j - 1], c) && c in h[j - 1].codes && Usable(h[j - 1].codes[c]) then 1 else 0
  }

  /** One transaction adds to a code's count exactly for a wrong guess at it while it is usable. */
  lemma StepCounts(db: Db, tx: Tx, c: Id)
    requires Answerable(db, tx) && c in Apply(db, tx).codes
    ensures var after := Apply(db, tx).codes[c];
            && (c !in db.codes ==> after.failedAttempts == 0)
            && (c in db.codes ==>
                  after.failedAttempts
                  == db.codes[c].failedAttempts + if IsWrongGuess(tx, c) && Usable(db.codes[c]) then 1 else 0)
  {
    hide Answerable, Apply, Usable;
    if tx.TxRecordFailure? {
      FailureStepCounts(db, tx, c);
    } else if tx.TxConsumeCode? {
      ConsumptionKeepsCounts(db, tx, c);
    } else {
      MostTransactionsOnlyWithdraw(db, tx);
    }
  }

  lemma FailureStepCounts(db: Db, tx: Tx, c: Id)
    requires tx.TxRecordFailure? && c in Apply(db, tx).codes
    ensures c in db.codes
    ensures Apply(db, tx).codes[c].failedAttempts
            == db.codes[c].failedAttempts + if IsWrongGuess(tx, c) && Usable(db.codes[c]) then 1 else 0
  {
    hide RecordFailure, Usable;
    FailureIsCounted(db, tx.code, tx.forDraft, tx.forRequest, tx.action, tx.failure, tx.attemptId, tx.now);
  }

  lemma ConsumptionKeepsCounts(db: Db, tx: Tx, c: Id)
    requires tx.TxConsumeCode? && c in Apply(db, tx).codes
    ensures c in db.codes && Apply(db, tx).codes[c].failedAttempts == db.codes[c].failedAttempts
  {
    hide Usable;
  }

  /** In every run, a code's count is the number of wrong guesses made at it while it could be used. */
  lemma {:induction false} FailuresAreCounted(h: seq<Db>, txs: seq<Tx>, j: nat, c: Id)
    requires IsRun(h, txs) && j < |h| && c in h[j].codes
    ensures h[j].codes[c].failedAttempts == CountedGuesses(h, txs, j, c)
    decreases j
  {
    hide Answerable, Apply, Served, Usable, IsWrongGuess;
    if j > 0 {
      StepCounts(h[j - 1], txs[j - 1], c);
      if c in h[j - 1].codes {
        FailuresAreCounted(h, txs, j - 1, c);
      } else {
        NotYetGuessed(h, txs, j - 1, c);
      }
    }
  }

  lemma {:induction false} NotYetGuessed(h: seq<Db>, txs: seq<Tx>, j: nat, c: Id)
    requires IsRun(h, txs) && j < |h| && c !in h[j].codes
    ensures CountedGuesses(h, txs, j, c) == 0
    decreases j
  {
    hide Inv, Answerable, Apply, Served, Usable, Evolves;
    if j > 0 {
      if c in h[j - 1].codes {
        RunIsHealthy(h, txs);
        HistoryCodes(h, j - 1, j, c);
        assert false;
      }
      NotYetGuessed(h, txs, j - 1, c);
    }
  }

  /** While a code stays usable, every wrong guess at it is counted. */
  lemma {:induction false} UsableCountsAll(h: seq<Db>, txs: seq<Tx>, i: nat, j: nat, c: Id)
    requires IsRun(h, txs) && i <= j < |h| && c in h[i].codes && c in h[j].codes && Usable(h[j].codes[c])
    ensures h[j].codes[c].failedAttempts == h[i].codes[c].failedAttempts + Guesses(txs, i, j, c)
    decreases j
  {
    hide Inv, Answerable, Apply, Served, Evolves, Healthy, IsWrongGuess;
    if i < j {
      RunIsHealthy(h, txs);
      HistoryCodes(h, i, j - 1, c);
      HistoryCodes(h, j - 1, j, c);
      UsableCountsAll(h, txs, i, j - 1, c);
      StepCounts(h[j - 1], txs[j - 1], c);
    }
  }

  /** Five wrong guesses lock a code for good: whatever else happens, it is never accepted again. */
  lemma FiveGuessesLock(h: seq<Db>, txs: seq<Tx>, i: nat, j: nat, c: Id, now: int)
    requires IsRun(h, txs) && i <= j < |h| && c in h[i].codes && Guesses(txs, i, j, c) >= 5
    ensures c in h[j].codes && !Usable(h[j].codes[c])
    ensures ConsumeCode(h[j], c, now).1 == Answer(false)
  {
    hide IsRun, Healthy, Guesses, Inv, Evolves;
    RunIsHealthy(h, txs);
    HistoryCodes(h, i, j, c);
    HistoryCodes(h, j, j, c);
    CodesAreSpentOnce(h, txs, i, j, c);
    CodesAreSpentOnce(h, txs, i, i, c);
    CountIsNatural(h, txs, i, c);
    if Usable(h[j].codes[c]) {
      UsableCountsAll(h, txs, i, j, c);
      assert false;
    }
  }

  lemma CountIsNatural(h: seq<Db>, txs: seq<Tx>, i: nat, c: Id)
    requires IsRun(h, txs) && i < |h| && c in h[i].codes
    ensures h[i].codes[c].failedAttempts >= 0
  {
    FailuresAreCounted(h, txs, i, c);
  }

  /** Step n is a wrong guess at c or leaves c as it is. */
  ghost predicate GuessesOrKeeps(h: seq<Db>, txs: seq<Tx>, n: nat, c: Id)
    requires n < |txs| < |h|
  {
    IsWrongGuess(txs[n], c) || (c in h[n].codes && c in h[n + 1].codes && h[n + 1].codes[c] == h[n].codes[c])
  }

  /** Steps i..j do nothing to c but count wrong guesses at it. */
  ghost predicate OnlyGuessed(h: seq<Db>, txs: seq<Tx>, i: nat, j: nat, c: Id)
    requires i <= j <= |txs| < |h|
  {
    forall n :: i <= n < j ==> GuessesOrKeeps(h, txs, n, c)
  }

  /** And fewer do not: while nothing else happens to a usable code, it is accepted if and only if its wrong
      guesses stay below five. */
  lemma FewerGuessesDoNot(h: seq<Db>, txs: seq<Tx>, i: nat, j: nat, c: Id, now: int)
    requires IsRun(h, txs) && i <= j < |h| && c in h[i].codes && Usable(h[i].codes[c])
    requires OnlyGuessed(h, txs, i, j, c)
    ensures c in h[j].codes
    ensures Usable(h[j].codes[c]) <==> h[i].codes[c].failedAttempts + Guesses(txs, i, j, c) < 5
    ensures ConsumeCode(h[j], c, now).1 == Answer(true) <==>
            h[i].codes[c].failedAttempts + Guesses(txs, i, j, c) < 5
  {
    GuessedStep(h, txs, i, j, c);
    hide *;
    ConsumedExactlyWhenUsable(h[j], c, now);
  }

  /** A code is accepted exactly while usable, is then spent at that moment, and no other code changes. */
  lemma ConsumedExactlyWhenUsable(db: Db, c: Id, now: int)
    ensures var (db', reply) := ConsumeCode(db, c, now);
            && reply == Answer(c in db.codes && Usable(db.codes[c]))
            && db'.codes == (if c in db.codes && Usable(db.codes[c])
                             then db.codes[c := db.codes[c].(consumedAt := Some(now))] else db.codes)
  {
  }

  lemma GuessedSooner(h: seq<Db>, txs: seq<Tx>, i: nat, j: nat, c: Id)
    requires i < j <= |txs| < |h| && OnlyGuessed(h, txs, i, j, c)
    ensures OnlyGuessed(h, txs, i, j - 1, c)
    ensures IsWrongGuess(txs[j - 1], c)
            || (c in h[j - 1].codes && c in h[j].codes && h[j].codes[c] == h[j - 1].codes[c])
  {
    hide IsWrongGuess;
    assert GuessesOrKeeps(h, txs, j - 1, c);
  }

  lemma {:induction false} GuessedStep(h: seq<Db>, txs: seq<Tx>, i: nat, j: nat, c: Id)
    requires IsRun(h, txs) && i <= j < |h| && c in h[i].codes && Usable(h[i].codes[c])
    requires OnlyGuessed(h, txs, i, j, c)
    ensures c in h[j].codes
    ensures Usable(h[j].codes[c]) <==> h[i].codes[c].failedAttempts + Guesses(txs, i, j, c) < 5
    decreases j
  {
    hide Inv, Answerable, Served, Evolves, Healthy, Apply, IsWrongGuess, OnlyGuessed;
    RunIsHealthy(h, txs);
    HistoryCodes(h, i, j, c);
    CodesAreSpentOnce(h, txs, i, i, c);
    if i < j {
      GuessedSooner(h, txs, i, j, c);
      GuessedStep(h, txs, i, j - 1, c);
      HistoryCodes(h, j - 1, j, c);
      if Usable(h[j - 1].codes[c]) {
        UsableCountsAll(h, txs, i, j - 1, c);
        if IsWrongGuess(txs[j - 1], c) {
          GuessLocksAtFive(h[j - 1], txs[j - 1], c);
        }
      }
    }
  }

  lemma GuessLocksAtFive(db: Db, tx: Tx, c: Id)
    requires IsWrongGuess(tx, c) && c in db.codes && Usable(db.codes[c])
    ensures c in Apply(db, tx).codes && (Usable(Apply(db, tx).codes[c]) <==> db.codes[c].failedAttempts + 1 < 5)
  {
    FailureIsCounted(db, tx.code, tx.forDraft, tx.forRequest, tx.action, tx.failure, tx.attemptId, tx.now);
    hide RecordFailure;
  }
}
