/** How the screens' derivations relate to one another over the same attempts collection:
    an attempt the quiz saves is read back unchanged and counted on the home screen, and the
    progress screen, which fetches at most 50 attempts, agrees with the home screen's totals
    up to that limit. */
module Agreement {
  import opened Kotlin
  import opened Attempts
  import Quiz
  import Progress
  import Home
  import SignUp

  /** Saving an attempt for `uid` adds one to that user's count on the home screen and
      leaves every other user's count alone. */
  lemma SavedAttemptIsCounted(store: seq<AttemptDoc>, uid: KString, other: KString, doc: AttemptDoc,
                              score: Int32, total: Int32, now: Int64)
    requires Quiz.SaveResult(Some(uid), score, total, now) == Some(doc)
    requires other != uid
    ensures Home.AttemptCount(store + [doc], uid) == Home.AttemptCount(store, uid) + 1
    ensures Home.AttemptCount(store + [doc], other) == Home.AttemptCount(store, other)
  {
    FilterAppend(store, [doc], OwnedBy(uid));
    FilterAppend(store, [doc], OwnedBy(other));
  }

  /** After saving an attempt, the home screen's best score is at least the new score and
      at least the best before (a quiz score is never negative; were it negative, a first
      attempt would lower the best from the default 0). */
  lemma SavedAttemptRaisesBest(store: seq<AttemptDoc>, uid: KString, doc: AttemptDoc,
                               score: Int32, total: Int32, now: Int64)
    requires Quiz.SaveResult(Some(uid), score, total, now) == Some(doc)
    requires 0 <= score
    ensures Home.BestScore(store + [doc], uid) >= score
    ensures Home.BestScore(store + [doc], uid) >= Home.BestScore(store, uid)
  {
    FilterAppend(store, [doc], OwnedBy(uid));
    var before := WhereUid(store, uid);
    var after := WhereUid(store + [doc], uid);
    assert after == before + [doc];
    assert after[|after| - 1] == doc && Home.DocScore(doc) == score;
    if before != [] {
      MaxOfOrNullMonotone(before, after, Home.DocScore);
    }
  }

  /** What the quiz saves, the progress screen reads back with the same values. */
  lemma SavedAttemptReadsBack(uid: KString, doc: AttemptDoc, score: Int32, total: Int32, now: Int64)
    requires Quiz.SaveResult(Some(uid), score, total, now) == Some(doc)
    ensures Progress.ToAttemptRow(doc) == Progress.AttemptRow(uid, score, total, now)
  {
  }

  /** A finished quiz always has at least one question, so its saved total is used as the
      percentage divisor unchanged. */
  lemma FinishedTotalIsDivisor(uid: KString, doc: AttemptDoc, score: Int32, total: Int32, now: Int64)
    requires Quiz.SaveResult(Some(uid), score, total, now) == Some(doc)
    requires 0 <= score <= total && 1 <= total <= Quiz.QuestionLimit
    ensures Progress.PercentDivisor(Progress.ToAttemptRow(doc).total) == total
  {
  }

  /** The progress screen's count is the home screen's count capped at 50. */
  lemma ProgressCountAgreesWithHome(store: seq<AttemptDoc>, uid: KString)
    ensures |Progress.ProgressRows(store, uid)|
         == if Home.AttemptCount(store, uid) <= Progress.FetchLimit then Home.AttemptCount(store, uid)
            else Progress.FetchLimit
  {
    Progress.ProgressRowsSpec(store, uid);
  }

  /** A row's score on the progress screen is the score the home screen uses for its document. */
  lemma RowsKeepScores(docs: seq<AttemptDoc>)
    ensures forall i | 0 <= i < |docs| ::
      Progress.RowScore(Progress.ToAttemptRows(docs)[i]) == Home.DocScore(docs[i])
  {
  }

  /** The progress screen's best score never exceeds the home screen's, and the two agree
      whenever the user has at most 50 attempts (all of them are then fetched). */
  lemma ProgressBestAgreesWithHome(store: seq<AttemptDoc>, uid: KString)
    ensures Progress.BestScore(Progress.ProgressRows(store, uid)) <= Home.BestScore(store, uid)
    ensures Home.AttemptCount(store, uid) <= Progress.FetchLimit ==>
      Progress.BestScore(Progress.ProgressRows(store, uid)) == Home.BestScore(store, uid)
  {
    ProgressBestBounded(store, uid);
    if Home.AttemptCount(store, uid) <= Progress.FetchLimit {
      ProgressBestReached(store, uid);
    }
  }

  /** The best shown row is one of the fetched documents, and those are the user's. */
  lemma ProgressBestBounded(store: seq<AttemptDoc>, uid: KString)
    ensures Progress.BestScore(Progress.ProgressRows(store, uid)) <= Home.BestScore(store, uid)
  {
    var mine := WhereUid(store, uid);
    var fetched := Progress.Fetched(store, uid);
    var rows := Progress.ToAttemptRows(fetched);
    var shown := Progress.ProgressRows(store, uid);
    Progress.ProgressRowsSpec(store, uid);
    if shown != [] {
      var i :| 0 <= i < |shown| && Progress.BestScore(shown) == Progress.RowScore(shown[i]);
      assert shown[i] in multiset(rows);
      var j :| 0 <= j < |rows| && rows[j] == shown[i];
      RowsKeepScores(fetched);
      assert fetched[j] == mine[j];
      assert Home.DocScore(mine[j]) <= Home.BestScore(store, uid);
    }
  }

  /** With at most 50 attempts every document is fetched, so the home screen's best is shown. */
  lemma ProgressBestReached(store: seq<AttemptDoc>, uid: KString)
    requires Home.AttemptCount(store, uid) <= Progress.FetchLimit
    ensures Home.BestScore(store, uid) <= Progress.BestScore(Progress.ProgressRows(store, uid))
  {
    var mine := WhereUid(store, uid);
    var fetched := Progress.Fetched(store, uid);
    var rows := Progress.ToAttemptRows(fetched);
    var shown := Progress.ProgressRows(store, uid);
    Progress.ProgressRowsSpec(store, uid);
    if mine != [] {
      var k :| 0 <= k < |mine| && Home.BestScore(store, uid) == Home.DocScore(mine[k]);
      assert fetched == mine;
      RowsKeepScores(fetched);
      assert rows[k] in multiset(shown);
      var m :| 0 <= m < |shown| && shown[m] == rows[k];
      assert Progress.RowScore(shown[m]) <= Progress.BestScore(shown);
    }
  }

  /** The statistics a new profile starts with are those the home screen derives from an
      empty attempt history. */
  lemma InitialProfileMatchesNoAttempts(uid: KString, req: SignUp.SignupRequest, now: Int64)
    ensures SignUp.InitialProfile(uid, req, now).totalQuizzes == Home.AttemptCount([], uid)
    ensures SignUp.InitialProfile(uid, req, now).bestScore == Home.BestScore([], uid)
  {
  }
}
