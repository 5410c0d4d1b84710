/** The home screen's header: the profile name and the user's attempt count and best score,
    derived from all of the user's attempt documents. */
module Home {
  import opened Kotlin
  import opened Attempts

  /** Shown until the profile arrives, and when it has no name. */
  const DefaultName: KString := Utf16("Quizzy User")

  /** `doc.getString("name") ?: "Quizzy User"` */
  function DisplayName(profileName: Option<KString>): (name: KString)
    ensures profileName.None? ==> name == DefaultName
    ensures profileName.Some? ==> name == profileName.value
  {
    profileName.GetOr(DefaultName)
  }

  /** `(it.getLong("score") ?: 0L).toInt()`: a document without a score counts as 0. */
  function DocScore(d: AttemptDoc): (s: int)
    ensures d.score.None? ==> s == 0
    ensures d.score.Some? && -0x8000_0000 <= d.score.value < 0x8000_0000 ==> s == d.score.value
  {
    LongToInt(d.score.GetOr(0))
  }

  /** `qs.size()` for `whereEqualTo("uid", uid)` */
  function AttemptCount(store: seq<AttemptDoc>, uid: KString): (n: nat)
    ensures n <= |store|
  {
    |WhereUid(store, uid)|
  }

  /** `qs.documents.maxOfOrNull { ... } ?: 0` */
  function BestScore(store: seq<AttemptDoc>, uid: KString): (best: int)
    ensures WhereUid(store, uid) == [] ==> best == 0
    ensures forall i | 0 <= i < |WhereUid(store, uid)| :: DocScore(WhereUid(store, uid)[i]) <= best
    ensures WhereUid(store, uid) != [] ==>
      exists i | 0 <= i < |WhereUid(store, uid)| :: best == DocScore(WhereUid(store, uid)[i])
  {
    MaxOfOrNull(WhereUid(store, uid), DocScore).GetOr(0)
  }

  /** The attempt count is the number of stored documents whose uid is the user's. */
  lemma AttemptCountSpec(store: seq<AttemptDoc>, uid: KString)
    ensures AttemptCount(store, uid) == |set i: nat | i < |store| && store[i].uid == Some(uid)|
  {
    WhereUidSize(store, uid);
  }

  /** The best score is 0 without attempts; otherwise it is the score of one of the user's
      documents and no document of the user scores more. */
  lemma BestScoreSpec(store: seq<AttemptDoc>, uid: KString)
    ensures AttemptCount(store, uid) == 0 ==> BestScore(store, uid) == 0
    ensures forall i | 0 <= i < |store| && store[i].uid == Some(uid) :: DocScore(store[i]) <= BestScore(store, uid)
    ensures AttemptCount(store, uid) > 0 ==>
      exists i | 0 <= i < |store| :: store[i].uid == Some(uid) && BestScore(store, uid) == DocScore(store[i])
  {
    var mine := WhereUid(store, uid);
    forall i | 0 <= i < |store| && store[i].uid == Some(uid)
      ensures DocScore(store[i]) <= BestScore(store, uid)
    {
      WhereUidCounts(store, uid, store[i]);
      assert store[i] in multiset(mine);
      var j :| 0 <= j < |mine| && mine[j] == store[i];
    }
    if mine != [] {
      var j :| 0 <= j < |mine| && BestScore(store, uid) == DocScore(mine[j]);
      WhereUidCounts(store, uid, mine[j]);
      assert mine[j] in multiset(store);
      var i :| 0 <= i < |store| && store[i] == mine[j];
      assert store[i].uid == Some(uid);
    }
  }

  /** The home screen's state. */
  class HomeScreen {
    var name: KString
    var totalAttempts: int
    var bestScore: int

    /** Before any data arrives: the default name and zero attempts and best. */
    constructor ()
      ensures name == DefaultName && totalAttempts == 0 && bestScore == 0
    {
      name := DefaultName;
      totalAttempts := 0;
      bestScore := 0;
    }

    /** The success listener of the profile read; `profileName` is the document's name field. */
    method OnProfileLoaded(profileName: Option<KString>)
      modifies this`name
      ensures name == DisplayName(profileName)
    {
      name := DisplayName(profileName);
    }

    /** The success listener of the user's attempts query. */
    method OnAttemptsLoaded(store: seq<AttemptDoc>, uid: KString)
      modifies this`totalAttempts, this`bestScore
      ensures totalAttempts == AttemptCount(store, uid)
      ensures bestScore == BestScore(store, uid)
    {
      totalAttempts := AttemptCount(store, uid);
      bestScore := BestScore(store, uid);
    }
  }
}
