/** The selection step of rank_sentences_by_tfidf:
    `[sentences[i] for i in scores.argsort()[-max_sentences:]]`, joined with one space.
    The TF-IDF scores are floating point values computed by a library; here they are
    only compared, so they are modelled as reals. The argsort is the library's too: any
    permutation of the indices that lists the scores in ascending order, since the order
    numpy picks among equal scores is not specified. */
module Ranking {
  import opened Builtins

  /** `order` is what an argsort of `scores` may return. */
  predicate IsArgSort(scores: seq<real>, order: seq<int>) {
    && |order| == |scores|
    && (forall a :: 0 <= a < |order| ==> 0 <= order[a] < |scores|)
    && (forall a, b :: 0 <= a < b < |order| ==> order[a] != order[b])
    && (forall j :: 0 <= j < |scores| ==> j in order)
    && (forall a, b :: 0 <= a < b < |order| ==> scores[order[a]] <= scores[order[b]])
  }

  /** order[-maxSentences:], the indices that are kept. */
  function Top(order: seq<int>, maxSentences: int): seq<int> {
    SliceFrom(order, -maxSentences)
  }

  /** The kept indices: as many as asked for (all of them when asked for 0, as the slice
      [-0:] is the whole list), no index twice, in ascending score order, and no index
      left out scores higher than one kept. */
  lemma {:induction false} TopKeepsHighest(scores: seq<real>, order: seq<int>, maxSentences: int)
    requires IsArgSort(scores, order)
    ensures var top := Top(order, maxSentences);
            && (maxSentences > 0 ==> |top| == Min(maxSentences, |scores|))
            && (maxSentences == 0 ==> |top| == |scores|)
            && (forall a :: 0 <= a < |top| ==> 0 <= top[a] < |scores|)
            && (forall a, b :: 0 <= a < b < |top| ==> top[a] != top[b])
            && (forall a, b :: 0 <= a < b < |top| ==> scores[top[a]] <= scores[top[b]])
            && (forall a, j :: 0 <= a < |top| && 0 <= j < |scores| && j !in top ==>
                  scores[j] <= scores[top[a]])
  {
    var top := Top(order, maxSentences);
    var s := |order| - |top|;
    assert top == order[s..];
    forall a, j | 0 <= a < |top| && 0 <= j < |scores| && j !in top
      ensures scores[j] <= scores[top[a]]
    {
      assert j in order;
      var p :| 0 <= p < |order| && order[p] == j;
      assert p < s;
      assert order[s + a] == top[a];
    }
  }

  /** `[sentences[i] for i in indices]`: the items are fetched in order, and the first
      index that is out of range raises. */
  function Pick(sentences: seq<string>, indices: seq<int>): Call<seq<string>>
    decreases |indices|
  {
    if indices == [] then Done([])
    else
      match Subscript(sentences, indices[0])
      case Raised(m) => Raised(m)
      case Done(first) =>
        match Pick(sentences, indices[1..])
        case Raised(m) => Raised(m)
        case Done(others) => Done([first] + others)
  }

  /** The sentences at the given indices, in that order. */
  function Picked(sentences: seq<string>, indices: seq<int>): (r: seq<string>)
    requires forall a :: 0 <= a < |indices| ==> 0 <= indices[a] < |sentences|
    ensures |r| == |indices|
  {
    seq(|indices|, a requires 0 <= a < |indices| => sentences[indices[a]])
  }

  /** With every index in range the comprehension succeeds and yields the sentences at
      those indices. */
  lemma {:induction false} PickInRange(sentences: seq<string>, indices: seq<int>)
    requires forall a :: 0 <= a < |indices| ==> 0 <= indices[a] < |sentences|
    ensures Pick(sentences, indices) == Done(Picked(sentences, indices))
    decreases |indices|
  {
    if indices != [] {
      PickInRange(sentences, indices[1..]);
      assert Picked(sentences, indices) == [sentences[indices[0]]] + Picked(sentences, indices[1..]);
    }
  }

  /** rank_sentences_by_tfidf once the sentences are scored and the scores argsorted. */
  function RankSentences(sentences: seq<string>, order: seq<int>, maxSentences: int): Call<string> {
    match Pick(sentences, Top(order, maxSentences))
    case Raised(m) => Raised(m)
    case Done(picked) => Done(Join(" ", picked))
  }

  /** With one score per sentence and a true argsort, ranking succeeds and returns the
      kept sentences (see TopKeepsHighest) joined by single spaces. */
  lemma RankSentencesPicksTop(sentences: seq<string>, scores: seq<real>, order: seq<int>,
                              maxSentences: int)
    requires |scores| == |sentences|
    requires IsArgSort(scores, order)
    ensures forall a :: 0 <= a < |Top(order, maxSentences)| ==>
              0 <= Top(order, maxSentences)[a] < |sentences|
    ensures RankSentences(sentences, order, maxSentences)
              == Done(Join(" ", Picked(sentences, Top(order, maxSentences))))
  {
    TopKeepsHighest(scores, order, maxSentences);
    PickInRange(sentences, Top(order, maxSentences));
  }
}
