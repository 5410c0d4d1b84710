/** The progress screen: the signed-in user's attempts (at most 50 fetched), newest first,
    with their count and the best score, and the per-row percentage guard and date text. */
module Progress {
  import opened Kotlin
  import opened Attempts

  /** An attempt as the progress screen deserialises it: absent fields take the defaults. */
  datatype AttemptRow = AttemptRow(uid: KString, score: Int64, total: Int64, createdAt: Int64)

  /** `toObject(AttemptRow::class.java)`: a missing field keeps its default, "" or 0. */
  function ToAttemptRow(d: AttemptDoc): (r: AttemptRow)
    ensures d.uid.Some? ==> r.uid == d.uid.value
    ensures d.score.Some? ==> r.score == d.score.value
    ensures d.total.Some? ==> r.total == d.total.value
    ensures d.createdAt.Some? ==> r.createdAt == d.createdAt.value
    ensures d.uid.None? ==> r.uid == []
    ensures d.score.None? ==> r.score == 0
    ensures d.total.None? ==> r.total == 0
    ensures d.createdAt.None? ==> r.createdAt == 0
  {
    AttemptRow(d.uid.GetOr([]), d.score.GetOr(0), d.total.GetOr(0), d.createdAt.GetOr(0))
  }

  /** `documents.mapNotNull { it.toObject(...) }`: every fetched document yields a row. */
  function ToAttemptRows(docs: seq<AttemptDoc>): (rows: seq<AttemptRow>)
    ensures |rows| == |docs|
    ensures forall i | 0 <= i < |docs| :: rows[i] == ToAttemptRow(docs[i])
  {
    seq(|docs|, i requires 0 <= i < |docs| => ToAttemptRow(docs[i]))
  }

  /** The query's `limit(50)`. */
  const FetchLimit: nat := 50

  /** The sort key of `sortedByDescending { it.createdAt }`. */
  function CreatedAt(r: AttemptRow): int {
    r.createdAt
  }

  /** The value behind `maxOfOrNull { it.score.toInt() }`. */
  function RowScore(r: AttemptRow): int {
    LongToInt(r.score)
  }

  /** What the store returns for `whereEqualTo("uid", uid).limit(50)`: the user's first 50
      attempts in store order, which need not be the 50 newest. */
  function Fetched(store: seq<AttemptDoc>, uid: KString): (docs: seq<AttemptDoc>)
    ensures |docs| <= FetchLimit
  {
    Take(WhereUid(store, uid), FetchLimit)
  }

  /** The `rows` the success listener stores. */
  function ProgressRows(store: seq<AttemptDoc>, uid: KString): (rows: seq<AttemptRow>)
    ensures |rows| == |Fetched(store, uid)| <= FetchLimit
  {
    SortedByDescending(ToAttemptRows(Fetched(store, uid)), CreatedAt)
  }

  /** `rows.maxOfOrNull { it.score.toInt() } ?: 0` */
  function BestScore(rows: seq<AttemptRow>): (best: int)
    ensures rows == [] ==> best == 0
    ensures rows != [] ==> exists i | 0 <= i < |rows| :: best == RowScore(rows[i])
    ensures forall i | 0 <= i < |rows| :: RowScore(rows[i]) <= best
  {
    MaxOfOrNull(rows, RowScore).GetOr(0)
  }

  /** The progress list: at most 50 rows, all of the user, newest first, exactly the fetched
      attempts, and attempts with equal timestamps in the order the store returned them. */
  lemma ProgressRowsSpec(store: seq<AttemptDoc>, uid: KString)
    ensures |ProgressRows(store, uid)| <= FetchLimit
    ensures |ProgressRows(store, uid)| == if |WhereUid(store, uid)| <= FetchLimit then |WhereUid(store, uid)| else FetchLimit
    ensures forall i | 0 <= i < |ProgressRows(store, uid)| :: ProgressRows(store, uid)[i].uid == uid
    ensures NonIncreasing(ProgressRows(store, uid), CreatedAt)
    ensures multiset(ProgressRows(store, uid)) == multiset(ToAttemptRows(Fetched(store, uid)))
    ensures forall t :: Filter(ProgressRows(store, uid), HasKey(CreatedAt, t))
                     == Filter(ToAttemptRows(Fetched(store, uid)), HasKey(CreatedAt, t))
  {
    var fetched := ToAttemptRows(Fetched(store, uid));
    var rows := ProgressRows(store, uid);
    SortedByDescendingPermutes(fetched, CreatedAt);
    SortedByDescendingOrdered(fetched, CreatedAt);
    forall t ensures Filter(rows, HasKey(CreatedAt, t)) == Filter(fetched, HasKey(CreatedAt, t)) {
      SortedByDescendingStable(fetched, CreatedAt, t);
    }
    forall i | 0 <= i < |rows| ensures rows[i].uid == uid {
      assert rows[i] in multiset(fetched);
      var j :| 0 <= j < |fetched| && fetched[j] == rows[i];
      assert Fetched(store, uid)[j] == WhereUid(store, uid)[j];
    }
  }

  /** `if (row.total <= 0) 1 else row.total`: the percentage divisor is never zero or negative. */
  function PercentDivisor(total: Int64): (d: Int64)
    ensures d >= 1
    ensures total >= 1 ==> d == total
  {
    if total <= 0 then 1 else total
  }

  /** The date text of an attempt row. Only the "N/A" branch is modelled; any other value is
      handed to the date formatter. */
  datatype DateText = NotAvailable | Formatted(millis: Int64)

  /** `formatDateTime(millis)` */
  function FormatDateTime(millis: Int64): (t: DateText)
    ensures t == NotAvailable <==> millis <= 0
    ensures t.Formatted? ==> t.millis == millis
  {
    if millis <= 0 then NotAvailable else Formatted(millis)
  }

  /** What the body of the progress screen shows, tested in this order. */
  datatype ProgressView = Spinner | ErrorText(message: string) | NoAttempts | AttemptList(rows: seq<AttemptRow>)

  /** The progress screen's state. */
  class ProgressScreen {
    var isLoading: bool
    var rows: seq<AttemptRow>
    var errorMsg: Option<string>
    var totalAttempts: int
    var bestScore: int

    constructor ()
      ensures isLoading && rows == [] && errorMsg == None && totalAttempts == 0 && bestScore == 0
    {
      isLoading := true;
      rows := [];
      errorMsg := None;
      totalAttempts := 0;
      bestScore := 0;
    }

    /** The `when` chain of the screen body. */
    function View(): (v: ProgressView)
      reads this
      ensures v == Spinner <==> isLoading
      ensures v.ErrorText? <==> !isLoading && errorMsg.Some?
      ensures v.ErrorText? ==> v.message == errorMsg.value
      ensures v == NoAttempts <==> !isLoading && errorMsg.None? && rows == []
      ensures v.AttemptList? ==> v.rows == rows && rows != []
    {
      if isLoading then Spinner
      else if errorMsg.Some? then ErrorText(errorMsg.value)
      else if rows == [] then NoAttempts
      else AttemptList(rows)
    }

    /** The success listener of the user's attempts query. */
    method OnAttemptsLoaded(store: seq<AttemptDoc>, uid: KString)
      modifies this
      ensures rows == ProgressRows(store, uid)
      ensures totalAttempts == |rows| && bestScore == BestScore(rows)
      ensures !isLoading && errorMsg == old(errorMsg)
    {
      rows := ProgressRows(store, uid);
      totalAttempts := |rows|;
      bestScore := BestScore(rows);
      isLoading := false;
    }

    /** The failure listener: the exception's message, or a fixed text when it has none. */
    method OnLoadFailed(message: Option<string>)
      modifies this
      ensures errorMsg == Some(message.GetOr("Failed to load progress"))
      ensures !isLoading && View().ErrorText?
      ensures rows == old(rows) && totalAttempts == old(totalAttempts) && bestScore == old(bestScore)
    {
      errorMsg := Some(message.GetOr("Failed to load progress"));
      isLoading := false;
    }
  }
}
