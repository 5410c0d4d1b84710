/** The leaderboard: the 20 highest-scoring attempts of all users, ranked 1, 2, 3, ...,
    each labelled with an abbreviated uid. */
module Leaderboard {
  import opened Kotlin
  import opened Attempts

  /** An attempt as the leaderboard deserialises it: absent fields take the defaults. */
  datatype LeaderboardRow = LeaderboardRow(uid: KString, score: Int64, total: Int64, createdAt: Int64)

  /** The query's `limit(20)`. */
  const RowLimit: nat := 20

  /** `toObject(LeaderboardRow::class.java)` */
  function ToLeaderboardRow(d: AttemptDoc): (r: LeaderboardRow)
    ensures d.uid.Some? ==> r.uid == d.uid.value
    ensures d.score.Some? ==> r.score == d.score.value
    ensures d.total.Some? ==> r.total == d.total.value
    ensures d.createdAt.Some? ==> r.createdAt == d.createdAt.value
    ensures d.uid.None? ==> r.uid == []
    ensures d.score.None? ==> r.score == 0
    ensures d.total.None? ==> r.total == 0
    ensures d.createdAt.None? ==> r.createdAt == 0
  {
    LeaderboardRow(d.uid.GetOr([]), d.score.GetOr(0), d.total.GetOr(0), d.createdAt.GetOr(0))
  }

  /** Ordering by a field only returns documents that have that field. */
  function HasScore(d: AttemptDoc): bool {
    d.score.Some?
  }

  /** The ordering key of `orderBy("score", DESCENDING)`. */
  function ScoreKey(d: AttemptDoc): int {
    if d.score.Some? then d.score.value else 0
  }

  /** `orderBy("score", DESCENDING).limit(20)`, computed over the whole store. The store's
      tie-break is not specified; this model keeps equal scores in store order. */
  function TopAttempts(store: seq<AttemptDoc>): (docs: seq<AttemptDoc>)
    ensures |docs| <= RowLimit && |docs| <= |store|
  {
    Take(SortedByDescending(Filter(store, HasScore), ScoreKey), RowLimit)
  }

  /** The `rows` the success listener stores. */
  function LeaderboardRows(store: seq<AttemptDoc>): (rows: seq<LeaderboardRow>)
    ensures |rows| == |TopAttempts(store)|
    ensures forall i | 0 <= i < |rows| :: rows[i] == ToLeaderboardRow(TopAttempts(store)[i])
  {
    var top := TopAttempts(store);
    seq(|top|, i requires 0 <= i < |top| => ToLeaderboardRow(top[i]))
  }

  /** The documents the query returns: min(20, number of scored attempts) of them, scores
      non-increasing, each a scored attempt of the store, and no scored attempt left out
      scores higher than any of them. */
  lemma TopAttemptsSpec(store: seq<AttemptDoc>)
    ensures |TopAttempts(store)| == if |Filter(store, HasScore)| <= RowLimit then |Filter(store, HasScore)| else RowLimit
    ensures NonIncreasing(TopAttempts(store), ScoreKey)
    ensures multiset(TopAttempts(store)) <= multiset(Filter(store, HasScore))
    ensures forall i | 0 <= i < |TopAttempts(store)| ::
      TopAttempts(store)[i] in store && TopAttempts(store)[i].score.Some?
    ensures forall d | d in store && d.score.Some? && d !in TopAttempts(store) ::
      forall i | 0 <= i < |TopAttempts(store)| :: ScoreKey(TopAttempts(store)[i]) >= ScoreKey(d)
  {
    SortedByDescendingOrdered(Filter(store, HasScore), ScoreKey);
    TopAttemptsAreScored(store);
    TopAttemptsOutrank(store);
  }

  /** The returned documents are scored documents of the store, none returned more often
      than it is stored. */
  lemma TopAttemptsAreScored(store: seq<AttemptDoc>)
    ensures multiset(TopAttempts(store)) <= multiset(Filter(store, HasScore))
    ensures forall i | 0 <= i < |TopAttempts(store)| ::
      TopAttempts(store)[i] in store && TopAttempts(store)[i].score.Some?
  {
    var scored := Filter(store, HasScore);
    var sorted := SortedByDescending(scored, ScoreKey);
    var top := TopAttempts(store);
    SortedByDescendingPermutes(scored, ScoreKey);
    TakeIsSubMultiset(sorted, RowLimit);
    forall i | 0 <= i < |top| ensures top[i] in store && top[i].score.Some? {
      assert top[i] in multiset(scored);
      FilterCounts(store, HasScore, top[i]);
    }
  }

  /** No scored document left out scores higher than a returned one. */
  lemma TopAttemptsOutrank(store: seq<AttemptDoc>)
    ensures forall d | d in store && d.score.Some? && d !in TopAttempts(store) ::
      forall i | 0 <= i < |TopAttempts(store)| :: ScoreKey(TopAttempts(store)[i]) >= ScoreKey(d)
  {
    var scored := Filter(store, HasScore);
    forall d | d in store && d.score.Some? && d !in TopAttempts(store)
      ensures forall i | 0 <= i < |TopAttempts(store)| :: ScoreKey(TopAttempts(store)[i]) >= ScoreKey(d)
    {
      FilterCounts(store, HasScore, d);
      assert d in multiset(scored);
      TakeOfSortedIsTop(scored, ScoreKey, RowLimit, d);
    }
  }

  /** The leaderboard shows min(20, number of scored attempts) rows, ordered by score from
      high to low, each taken from a scored attempt of the store; and no scored attempt left
      out has a higher score than any row shown. These hold whatever the tie-break. */
  lemma LeaderboardSpec(store: seq<AttemptDoc>)
    ensures |LeaderboardRows(store)| <= RowLimit
    ensures |LeaderboardRows(store)| == if |Filter(store, HasScore)| <= RowLimit then |Filter(store, HasScore)| else RowLimit
    ensures forall i, j | 0 <= i < j < |LeaderboardRows(store)| ::
      LeaderboardRows(store)[i].score >= LeaderboardRows(store)[j].score
    ensures forall i | 0 <= i < |TopAttempts(store)| ::
      TopAttempts(store)[i] in store && TopAttempts(store)[i].score.Some?
    ensures multiset(TopAttempts(store)) <= multiset(Filter(store, HasScore))
    ensures forall d | d in store && d.score.Some? && d !in TopAttempts(store) ::
      forall i | 0 <= i < |LeaderboardRows(store)| :: LeaderboardRows(store)[i].score >= d.score.value
  {
    TopAttemptsSpec(store);
    var top := TopAttempts(store);
    var rows := LeaderboardRows(store);
    forall i | 0 <= i < |rows| ensures rows[i].score == ScoreKey(top[i]) {
      assert top[i].score.Some?;
    }
  }

  /** A row with its position on the board. */
  datatype RankedRow = RankedRow(rank: int, row: LeaderboardRow)

  /** `itemsIndexed(rows) { index, row -> LeaderboardItem(rank = index + 1, row) }` */
  function Ranked(rows: seq<LeaderboardRow>): (ranked: seq<RankedRow>)
    ensures |ranked| == |rows|
    ensures forall i | 0 <= i < |rows| :: ranked[i].row == rows[i]
    ensures ranked != [] ==> ranked[0].rank == 1
    ensures forall i | 0 <= i < |ranked| - 1 :: ranked[i + 1].rank == ranked[i].rank + 1
    ensures forall i, j | 0 <= i < j < |ranked| :: ranked[i].rank < ranked[j].rank
  {
    seq(|rows|, i requires 0 <= i < |rows| => RankedRow(i + 1, rows[i]))
  }

  const Unknown: KString := Utf16("Unknown")
  const Ellipsis: KString := Utf16("...")

  /** `shortUid(uid)` */
  function ShortUid(uid: KString): (s: KString)
    ensures IsBlank(uid) ==> s == Unknown
    ensures !IsBlank(uid) && |uid| <= 8 ==> s == uid
    ensures !IsBlank(uid) && |uid| > 8 ==> |s| == 11 && s[..4] == uid[..4] && s[4..7] == Ellipsis && s[7..] == uid[|uid| - 4..]
  {
    if IsBlank(uid) then Unknown
    else if |uid| <= 8 then uid
    else Take(uid, 4) + Ellipsis + TakeLast(uid, 4)
  }

  /** The label is never blank and never longer than 11 code units. */
  lemma ShortUidShape(uid: KString)
    ensures !IsBlank(ShortUid(uid)) && |ShortUid(uid)| <= 11
  {
    var s := ShortUid(uid);
    if IsBlank(uid) {
      assert s[0] == 'U' as int;
    } else if |uid| > 8 {
      assert s[4] == Ellipsis[0] == '.' as int;
    }
  }

  /** Abbreviating an abbreviation changes nothing. */
  lemma ShortUidIdempotent(uid: KString)
    ensures ShortUid(ShortUid(uid)) == ShortUid(uid)
  {
    var s := ShortUid(uid);
    ShortUidShape(uid);
    if |s| > 8 {
      assert !IsBlank(uid) && |uid| > 8;
      assert s == s[..4] + s[4..7] + s[7..];
    }
  }
}
