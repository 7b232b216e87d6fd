/**
 What the matcher's INSERT .. SELECT .. ON CONFLICT DO NOTHING computes.
 */
module Matcher {
  import opened Wrappers
  import opened RadarTables

  /** The topics whose row the join produces for finding x. */
  function JoinedTopics(sim: Similarity, db: Db, x: int): set<int> {
    set t | t in db.topics && Joins(sim, db, t, x)
  }

  function MatchedTopics(db: Db, x: int): set<int> {
    set k | k in db.matches && k.finding == x :: k.topic
  }

  /** RowsAffected of the statement. */
  function Inserted(sim: Similarity, db: Db, x: int): nat {
    |JoinedTopics(sim, db, x) - MatchedTopics(db, x)|
  }

  /** Exactly the joined topics without a row get one, in state new; every existing row is left as it was. */
  lemma MatcherRows(sim: Similarity, db: Db, x: int, k: MatchKey)
    ensures var after := MatchFinding(sim, db, x);
            && (k in db.matches ==> k in after.matches && after.matches[k] == db.matches[k])
            && (k !in db.matches ==>
                  (k in after.matches <==> k.finding == x && k.topic in JoinedTopics(sim, db, x)))
            && (k !in db.matches && k in after.matches ==>
                  && after.matches[k].state == New
                  && after.matches[k].similarity >= db.topics[k.topic].threshold)
  {
  }

  function KeysFor(topics: set<int>, x: int): set<MatchKey> {
    set t | t in topics :: MatchKey(t, x)
  }

  lemma {:induction false} KeysForSize(topics: set<int>, x: int)
    ensures |KeysFor(topics, x)| == |topics|
    decreases |topics|
  {
    if topics != {} {
      var t := Pick(topics);
      KeysForSize(topics - {t}, x);
      assert KeysFor(topics, x) == KeysFor(topics - {t}, x) + {MatchKey(t, x)};
    }
  }

  lemma NewKeys(sim: Similarity, db: Db, x: int)
    ensures var added := KeysFor(JoinedTopics(sim, db, x) - MatchedTopics(db, x), x);
            MatchFinding(sim, db, x).matches.Keys == db.matches.Keys + added && db.matches.Keys !! added
  {
    var topics := JoinedTopics(sim, db, x) - MatchedTopics(db, x);
    assert forall k :: k in db.matches && k.finding == x ==> k.topic in MatchedTopics(db, x);
    forall k ensures k in MatchFinding(sim, db, x).matches <==> k in db.matches || k in KeysFor(topics, x) {
      MatcherRows(sim, db, x, k);
      assert k in KeysFor(topics, x) <==> k.finding == x && k.topic in topics;
    }
  }

  /** The statement's row count is the growth of the table. */
  lemma MatcherCount(sim: Similarity, db: Db, x: int)
    ensures |MatchFinding(sim, db, x).matches| == |db.matches| + Inserted(sim, db, x)
  {
    var topics := JoinedTopics(sim, db, x) - MatchedTopics(db, x);
    NewKeys(sim, db, x);
    KeysForSize(topics, x);
    var before, after := db.matches.Keys, MatchFinding(sim, db, x).matches.Keys;
    assert |after| == |before| + |KeysFor(topics, x)|;
  }

  /** RowsAffected, read off the rows the join produced. */
  lemma RowsAffected(sim: Similarity, db: Db, x: int)
    ensures |JoinRows(sim, db, x).Keys - db.matches.Keys| == Inserted(sim, db, x)
  {
    var topics := JoinedTopics(sim, db, x) - MatchedTopics(db, x);
    NewKeys(sim, db, x);
    KeysForSize(topics, x);
    assert JoinRows(sim, db, x).Keys - db.matches.Keys == KeysFor(topics, x);
  }

  /** Running the matcher again at once changes nothing and reports zero rows. */
  lemma MatcherIdempotent(sim: Similarity, db: Db, x: int)
    ensures var once := MatchFinding(sim, db, x);
            MatchFinding(sim, once, x) == once && Inserted(sim, once, x) == 0
  {
    var once := MatchFinding(sim, db, x);
    assert forall t :: Joins(sim, once, t, x) <==> Joins(sim, db, t, x);
    forall t | t in JoinedTopics(sim, once, x) ensures t in MatchedTopics(once, x) {
      assert MatchKey(t, x) in once.matches;
    }
    assert JoinedTopics(sim, once, x) - MatchedTopics(once, x) == {};
    var twice := MatchFinding(sim, once, x);
    assert twice.matches == once.matches;
  }
}
