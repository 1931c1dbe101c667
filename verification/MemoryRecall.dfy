/** Semantic recall: the most similar memories of one user. */
module MemoryRecall {
  import opened Values
  import opened Text
  import opened Similarity

  datatype Row = Row(
    id: string, tenant: string, user: string, model: string, key: string, content: string,
    embedding: seq<real>, metadata: map<string, Value>, createdAt: int)

  datatype Scored = Scored(score: real, row: Row)

  datatype Record = Record(
    id: string, tenant: string, user: string, key: string, content: string, score: real,
    metadata: map<string, Value>, createdAt: int)

  datatype Query = Query(
    tenant: string, user: string, model: string, text: string, vector: seq<real>, topK: int, minScore: real)

  predicate Belongs(row: Row, q: Query) {
    row.tenant == q.tenant && row.user == q.user && row.model == q.model
  }

  ghost function Own(rows: seq<Row>, q: Query): seq<Row> {
    if rows == [] then []
    else Own(rows[..|rows| - 1], q) + (if Belongs(rows[|rows| - 1], q) then [rows[|rows| - 1]] else [])
  }

  ghost function ScoreAll(rows: seq<Row>, q: Query, root: real -> real): seq<Scored>
    requires IsSquareRoot(root)
  {
    if rows == [] then []
    else
      var row := rows[|rows| - 1];
      var score := Cosine(q.vector, row.embedding, root);
      ScoreAll(rows[..|rows| - 1], q, root) + (if score >= q.minScore then [Scored(score, row)] else [])
  }

  // ----- sorting by falling score, ties in the order of the input

  /** Puts `x` behind everything that scores at least as much. */
  function Insert(sorted: seq<Scored>, x: Scored): seq<Scored> {
    if sorted == [] || sorted[|sorted| - 1].score >= x.score then sorted + [x]
    else Insert(sorted[..|sorted| - 1], x) + [sorted[|sorted| - 1]]
  }

  function SortByScore(s: seq<Scored>): seq<Scored> {
    if s == [] then [] else Insert(SortByScore(s[..|s| - 1]), s[|s| - 1])
  }

  ghost predicate Falling(s: seq<Scored>) {
    forall i, j :: 0 <= i < j < |s| ==> s[i].score >= s[j].score
  }

  lemma {:induction false} InsertAdds(sorted: seq<Scored>, x: Scored)
    ensures multiset(Insert(sorted, x)) == multiset(sorted) + multiset{x}
  {
    if sorted != [] && sorted[|sorted| - 1].score < x.score {
      var n := |sorted| - 1;
      InsertAdds(sorted[..n], x);
      assert sorted == sorted[..n] + [sorted[n]];
    }
  }

  lemma MembersOf(s: seq<Scored>, t: seq<Scored>, x: Scored, i: nat)
    requires multiset(s) == multiset(t) + multiset{x} && i < |s|
    ensures s[i] == x || s[i] in t
  {
    assert s[i] in multiset(s);
  }

  lemma FallingThen(front: seq<Scored>, last: Scored)
    requires Falling(front) && forall i :: 0 <= i < |front| ==> front[i].score >= last.score
    ensures Falling(front + [last])
  {}

  lemma {:induction false} InsertFalls(sorted: seq<Scored>, x: Scored)
    requires Falling(sorted)
    ensures Falling(Insert(sorted, x))
  {
    if sorted != [] && sorted[|sorted| - 1].score < x.score {
      var n := |sorted| - 1;
      var front := Insert(sorted[..n], x);
      InsertFalls(sorted[..n], x);
      InsertAdds(sorted[..n], x);
      forall i | 0 <= i < |front| ensures front[i].score >= sorted[n].score {
        MembersOf(front, sorted[..n], x, i);
      }
      FallingThen(front, sorted[n]);
    }
  }

  lemma InsertKeepsFalling(sorted: seq<Scored>, x: Scored)
    requires Falling(sorted)
    ensures Falling(Insert(sorted, x)) && multiset(Insert(sorted, x)) == multiset(sorted) + multiset{x}
  {
    InsertFalls(sorted, x);
    InsertAdds(sorted, x);
  }

  lemma MultisetOfFront(s: seq<Scored>)
    requires s != []
    ensures multiset(s) == multiset(s[..|s| - 1]) + multiset{s[|s| - 1]}
  {
    assert s == s[..|s| - 1] + [s[|s| - 1]];
  }

  /** Sorting keeps every scored row and puts them in falling order. */
  lemma {:induction false} SortIsFalling(s: seq<Scored>)
    ensures Falling(SortByScore(s)) && multiset(SortByScore(s)) == multiset(s)
  {
    if s != [] {
      var front := s[..|s| - 1];
      var sorted := SortByScore(front);
      SortIsFalling(front);
      InsertKeepsFalling(sorted, s[|s| - 1]);
      MultisetOfFront(s);
    }
  }

  ghost function WithScore(s: seq<Scored>, score: real): seq<Scored> {
    if s == [] then []
    else WithScore(s[..|s| - 1], score) + (if s[|s| - 1].score == score then [s[|s| - 1]] else [])
  }

  lemma {:induction false} InsertIsStable(sorted: seq<Scored>, x: Scored, score: real)
    requires Falling(sorted)
    ensures WithScore(Insert(sorted, x), score) == WithScore(sorted, score) + (if x.score == score then [x] else [])
  {
    if sorted == [] || sorted[|sorted| - 1].score >= x.score {
      assert (sorted + [x])[..|sorted|] == sorted;
    } else {
      var n := |sorted| - 1;
      var front := Insert(sorted[..n], x);
      InsertIsStable(sorted[..n], x, score);
      assert (front + [sorted[n]])[..|front|] == front;
      if sorted[n].score == score {
        assert x.score != score;
      }
    }
  }

  /** Rows with equal scores keep the order in which they were found. */
  lemma {:induction false} SortIsStable(s: seq<Scored>, score: real)
    ensures WithScore(SortByScore(s), score) == WithScore(s, score)
  {
    if s != [] {
      SortIsStable(s[..|s| - 1], score);
      SortIsFalling(s[..|s| - 1]);
      InsertIsStable(SortByScore(s[..|s| - 1]), s[|s| - 1], score);
    }
  }

  // ----- recall

  function RecordOf(s: Scored): Record {
    Record(s.row.id, s.row.tenant, s.row.user, s.row.key, s.row.content, Round4(s.score), s.row.metadata,
           s.row.createdAt)
  }

  ghost function Eligible(rows: seq<Row>, q: Query, root: real -> real): seq<Scored>
    requires IsSquareRoot(root)
  {
    ScoreAll(Own(rows, q), q, root)
  }

  /** The scored rows that are returned, before they are turned into records. */
  ghost function Best(rows: seq<Row>, q: Query, root: real -> real): seq<Scored>
    requires IsSquareRoot(root)
  {
    var sorted := SortByScore(Eligible(rows, q, root));
    if q.topK <= 0 || Strip(q.text) == "" then []
    else if q.topK < |sorted| then sorted[..q.topK] else sorted
  }

  ghost function Records(best: seq<Scored>): seq<Record> {
    seq(|best|, i requires 0 <= i < |best| => RecordOf(best[i]))
  }

  /** `SqlSemanticMemoryStore.recall`; the `where` clause of its query is the filter of the first loop. */
  method Recall(rows: seq<Row>, q: Query, root: real -> real) returns (records: seq<Record>)
    requires IsSquareRoot(root)
    ensures records == Records(Best(rows, q, root))
  {
    if q.topK <= 0 || Strip(q.text) == "" {
      return [];
    }
    var own: seq<Row> := [];
    for i := 0 to |rows|
      invariant own == Own(rows[..i], q)
    {
      assert rows[..i + 1][..i] == rows[..i];
      if Belongs(rows[i], q) {
        own := own + [rows[i]];
      }
    }
    assert rows[..|rows|] == rows;
    var scored: seq<Scored> := [];
    for i := 0 to |own|
      invariant scored == ScoreAll(own[..i], q, root)
    {
      assert own[..i + 1][..i] == own[..i];
      var score := CosineByLoop(q.vector, own[i].embedding, root);
      if score >= q.minScore {
        scored := scored + [Scored(score, own[i])];
      }
    }
    assert own[..|own|] == own;
    scored := SortByScore(scored);
    var best := if q.topK < |scored| then scored[..q.topK] else scored;
    records := seq(|best|, i requires 0 <= i < |best| => RecordOf(best[i]));
  }

  lemma CutFalling(sorted: seq<Scored>, n: nat)
    requires Falling(sorted) && n <= |sorted|
    ensures Falling(sorted[..n])
    ensures forall i, j :: 0 <= i < n && 0 <= j < |sorted| - n ==> sorted[n..][j].score <= sorted[..n][i].score
    ensures multiset(sorted[..n]) + multiset(sorted[n..]) == multiset(sorted)
  {
    assert sorted == sorted[..n] + sorted[n..];
  }

  lemma SameSize(s: seq<Scored>, t: seq<Scored>)
    requires multiset(s) == multiset(t)
    ensures |s| == |t|
  {
    assert |multiset(s)| == |s| && |multiset(t)| == |t|;
  }

  /** What is returned and what is left out together are the eligible rows; there are min(k, eligible) of the
      former, in falling order, and none of the latter beats any of them. */
  lemma RecallReturnsTheBest(rows: seq<Row>, q: Query, root: real -> real) returns (leftOut: seq<Scored>)
    requires IsSquareRoot(root) && q.topK > 0 && Strip(q.text) != ""
    ensures var best, eligible := Best(rows, q, root), Eligible(rows, q, root);
            && |best| == (if q.topK < |eligible| then q.topK else |eligible|)
            && multiset(best) + multiset(leftOut) == multiset(eligible)
            && Falling(best)
            && forall i, j :: 0 <= i < |best| && 0 <= j < |leftOut| ==> leftOut[j].score <= best[i].score
  {
    var eligible := Eligible(rows, q, root);
    var sorted := SortByScore(eligible);
    SortIsFalling(eligible);
    SameSize(sorted, eligible);
    var n := if q.topK < |sorted| then q.topK else |sorted|;
    CutFalling(sorted, n);
    leftOut := sorted[n..];
    assert Best(rows, q, root) == sorted[..n];
  }

  /** Every returned row is the caller's own and scores at least the minimum. */
  lemma {:induction false} ScoredRowsAreOwn(rows: seq<Row>, q: Query, root: real -> real)
    requires IsSquareRoot(root) && forall i :: 0 <= i < |rows| ==> Belongs(rows[i], q)
    ensures forall i :: 0 <= i < |ScoreAll(rows, q, root)| ==>
              var s := ScoreAll(rows, q, root)[i];
              Belongs(s.row, q) && s.score >= q.minScore && s.score == Cosine(q.vector, s.row.embedding, root)
  {
    if rows != [] {
      ScoredRowsAreOwn(rows[..|rows| - 1], q, root);
    }
  }

  lemma {:induction false} OwnConcat(a: seq<Row>, b: seq<Row>, q: Query)
    ensures Own(a + b, q) == Own(a, q) + Own(b, q)
  {
    if b == [] {
      assert a + b == a;
    } else {
      assert (a + b)[..|a + b| - 1] == a + b[..|b| - 1];
      OwnConcat(a, b[..|b| - 1], q);
    }
  }

  /** A row of another tenant, user or embedder never changes the result, wherever it stands in the table. */
  lemma ForeignRowsDoNotMatter(before: seq<Row>, foreign: Row, after: seq<Row>, q: Query, root: real -> real)
    requires IsSquareRoot(root) && !Belongs(foreign, q)
    ensures Best(before + [foreign] + after, q, root) == Best(before + after, q, root)
  {
    OwnConcat(before + [foreign], after, q);
    OwnConcat(before, [foreign], q);
    OwnConcat(before, after, q);
    assert [foreign][..0] == [];
    assert Own(before, q) + [] == Own(before, q);
  }
}
