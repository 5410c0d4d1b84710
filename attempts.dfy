/** The "attempts" collection shared by the quiz (which writes to it) and by the home,
    progress and leaderboard screens (which read it). Store queries are modelled on a
    snapshot of the collection given in store order. */
module Attempts {
  import opened Kotlin

  /** One stored attempt document. The quiz writes all four fields, but a reader cannot
      rely on any of them being present. */
  datatype AttemptDoc = AttemptDoc(
    uid: Option<KString>,
    score: Option<Int64>,
    total: Option<Int64>,
    createdAt: Option<Int64>)

  /** The query filter `whereEqualTo("uid", uid)`. */
  function OwnedBy(uid: KString): AttemptDoc -> bool {
    (d: AttemptDoc) => d.uid == Some(uid)
  }

  /** `collection("attempts").whereEqualTo("uid", uid)`: one user's attempts, in store order. */
  function WhereUid(store: seq<AttemptDoc>, uid: KString): (r: seq<AttemptDoc>)
    ensures forall i | 0 <= i < |r| :: r[i].uid == Some(uid)
  {
    Filter(store, OwnedBy(uid))
  }

  /** The query returns every document of the user, as often as it is stored, and no other. */
  lemma WhereUidCounts(store: seq<AttemptDoc>, uid: KString, d: AttemptDoc)
    ensures multiset(WhereUid(store, uid))[d] == if d.uid == Some(uid) then multiset(store)[d] else 0
  {
    FilterCounts(store, OwnedBy(uid), d);
  }

  /** The positions of the user's documents in the store. */
  ghost function OwnedPositions(store: seq<AttemptDoc>, uid: KString): set<nat> {
    set i: nat | i < |store| && store[i].uid == Some(uid)
  }

  /** The query returns one document per stored document of the user. */
  lemma {:induction false} WhereUidSize(store: seq<AttemptDoc>, uid: KString)
    ensures |WhereUid(store, uid)| == |OwnedPositions(store, uid)|
  {
    if store != [] {
      var n := |store| - 1;
      var front := store[..n];
      WhereUidSize(front, uid);
      assert store == front + [store[n]];
      FilterAppend(front, [store[n]], OwnedBy(uid));
      OwnedPositionsSnoc(front, store[n], uid);
    } else {
      assert OwnedPositions(store, uid) == {};
    }
  }

  /** Appending a document adds its position exactly when it is the user's. */
  lemma OwnedPositionsSnoc(front: seq<AttemptDoc>, d: AttemptDoc, uid: KString)
    ensures d.uid == Some(uid) ==>
      OwnedPositions(front + [d], uid) == OwnedPositions(front, uid) + {|front|}
      && |front| !in OwnedPositions(front, uid)
    ensures d.uid != Some(uid) ==> OwnedPositions(front + [d], uid) == OwnedPositions(front, uid)
  {
    var s := front + [d];
    assert forall i | 0 <= i < |front| :: s[i] == front[i];
  }
}
