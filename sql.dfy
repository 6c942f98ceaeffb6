/**
 * What the SQLite queries of the stores compute, on tables held as values: `ORDER BY <score>
 * DESC LIMIT n` over a keyed table. Rows with equal scores may come in any order, so the query is
 * a relation between the table and its answers, and `SelectTop` picks one answer.
 */
module Sql {
  import opened Seqs

  /** How many rows `LIMIT n` lets through: all of them for a negative `n`, as in SQLite. */
  function LimitCount(rows: nat, limit: int): (r: nat)
    ensures r <= rows
    ensures limit >= 0 ==> r <= limit
    ensures limit < 0 || limit >= rows ==> r == rows
  {
    if 0 <= limit < rows then limit else rows
  }

  /**
   * `ks` is an answer of `ORDER BY score DESC LIMIT limit`: distinct keys of the table, scores
   * descending, as many as the limit allows, and no key left out scores above one taken.
   */
  ghost predicate IsTop<K>(score: map<K, int>, ks: seq<K>, limit: int) {
    && NoDup(ks)
    && (forall i :: 0 <= i < |ks| ==> ks[i] in score)
    && |ks| == LimitCount(|score|, limit)
    && (forall i, j :: 0 <= i < j < |ks| ==> score[ks[i]] >= score[ks[j]])
    && (forall k, i :: k in score && k !in ks && 0 <= i < |ks| ==> score[k] <= score[ks[i]])
  }

  /** A finite non-empty set of keys has one of highest score. */
  lemma {:induction false} MaxKeyExists<K>(score: map<K, int>, s: set<K>)
    requires s != {} && s <= score.Keys
    ensures exists m :: m in s && forall k :: k in s ==> score[k] <= score[m]
    decreases |s|
  {
    var x :| x in s;
    if s != {x} {
      MaxKeyExists(score, s - {x});
      var m' :| m' in s - {x} && forall k :: k in s - {x} ==> score[k] <= score[m'];
      if score[x] <= score[m'] {
        assert forall k :: k in s ==> score[k] <= score[m'];
      } else {
        assert forall k :: k in s ==> score[k] <= score[x];
      }
    } else {
      assert forall k :: k in s ==> score[k] <= score[x];
    }
  }

  /** The query, answered by taking a highest-scoring remaining key until the limit is reached. */
  method SelectTop<K>(score: map<K, int>, limit: int) returns (ks: seq<K>)
    ensures IsTop(score, ks, limit)
  {
    var n := LimitCount(|score|, limit);
    var remaining := score.Keys;
    ks := [];
    assert |score.Keys| == |score|;
    while |ks| < n
      invariant NoDup(ks) && |ks| <= n
      invariant forall k :: k in remaining <==> k in score && k !in ks
      invariant |remaining| + |ks| == |score|
      invariant forall i :: 0 <= i < |ks| ==> ks[i] in score
      invariant forall i, j :: 0 <= i < j < |ks| ==> score[ks[i]] >= score[ks[j]]
      invariant forall k, i :: k in remaining && 0 <= i < |ks| ==> score[k] <= score[ks[i]]
      decreases n - |ks|
    {
      MaxKeyExists(score, remaining);
      var m :| m in remaining && forall k :: k in remaining ==> score[k] <= score[m];
      remaining := remaining - {m};
      ks := ks + [m];
    }
  }
}
