/** event_clustering.py: the per-article number rewrite that builds the corpus,
    the vectoriser's refusal of a corpus whose pruned vocabulary is empty, and
    the grouping of the articles into events by the labels DBSCAN assigns.
    The vectoriser's analyser and DBSCAN are parameters; DBSCAN is a function
    from the corpus to one label per document, -1 meaning noise. */
module EventClustering {
  import opened Common
  import opened NumberRegex
  import opened Grouping
  import opened Tfidf

  /** An article's rewritten content. */
  function Rewritten(article: Article): string {
    Normalize(article.content)
  }

  /** The corpus handed to the vectoriser: the rewritten contents, in order. */
  function Corpus(articles: seq<Article>): seq<string> {
    Map(Rewritten, articles)
  }

  /** No position of the text starts a grouped number. */
  predicate NoGroupedNumber(t: string) {
    forall i :: 0 <= i < |t| ==> !StartsGroupedNumber(t, i)
  }

  /** The corpus loop: one entry per article, in input order, each the
      article's rewritten content; content without a grouped number is kept
      as it is. */
  method BuildCorpus(articles: seq<Article>) returns (corpus: seq<string>)
    ensures corpus == Corpus(articles)
    ensures |corpus| == |articles|
    ensures forall i :: 0 <= i < |articles| && NoGroupedNumber(articles[i].content) ==>
              corpus[i] == articles[i].content
  {
    corpus := [];
    for i := 0 to |articles|
      invariant corpus == Corpus(articles[..i])
    {
      MapStep(Rewritten, articles, i);
      corpus := corpus + [Normalize(articles[i].content)];
    }
    assert articles[..|articles|] == articles;
    forall i | 0 <= i < |articles| && NoGroupedNumber(articles[i].content)
      ensures corpus[i] == articles[i].content
    {
      MapAt(Rewritten, articles, i);
    }
  }

  /** `n_clusters_`: the number of distinct labels, not counting the noise label -1. */
  function EventCount(labels: seq<int>): (n: nat)
    ensures n <= |labels|
    ensures (exists i :: 0 <= i < |labels| && labels[i] != -1) ==> n >= 1
  {
    var distinct := set l | l in labels;
    DistinctAtMost(labels);
    RealLabelCounted(labels);
    if -1 in distinct then |distinct| - 1 else |distinct|
  }

  /** A label other than -1 leaves a distinct label besides the noise label. */
  lemma RealLabelCounted(labels: seq<int>)
    ensures (exists i :: 0 <= i < |labels| && labels[i] != -1) ==>
            |(set l | l in labels) - {-1}| >= 1
            && |set l | l in labels| == |(set l | l in labels) - {-1}| + (if -1 in labels then 1 else 0)
  {
    var distinct := set l | l in labels;
    if exists i :: 0 <= i < |labels| && labels[i] != -1 {
      var i :| 0 <= i < |labels| && labels[i] != -1;
      assert labels[i] in distinct - {-1};
      if -1 in labels {
        assert distinct == (distinct - {-1}) + {-1};
      } else {
        assert distinct == distinct - {-1};
      }
    }
  }

  /** A list has at most as many distinct labels as entries. */
  lemma {:induction false} DistinctAtMost(labels: seq<int>)
    ensures |set l | l in labels| <= |labels|
  {
    if labels != [] {
      var n := |labels| - 1;
      DistinctAtMost(labels[..n]);
      assert labels == labels[..n] + [labels[n]];
      assert (set l | l in labels) == (set l | l in labels[..n]) + {labels[n]};
    }
  }

  /** The event buckets: n_clusters_ empty lists, then article i appended to
      `events[labels[i]]` for each i in turn. Python's negative subscripts
      reach from the end (a noise label -1 lands in the last bucket); any
      other label out of range, or a missing label, raises IndexError. */
  method GroupEvents(articles: seq<Article>, labels: seq<int>) returns (r: Result<seq<seq<Article>>>)
    ensures r.Ok? <==> Resolves(|articles|, labels, EventCount(labels))
    ensures r.Ok? ==> r.value == Buckets(articles, labels, EventCount(labels))
    ensures r.Ok? ==> multiset(Flatten(r.value)) == multiset(articles)
    ensures r.Ok? ==> |Flatten(r.value)| == |articles|
    ensures r.Err? ==> r.error == IndexError
  {
    var n := EventCount(labels);
    var events: seq<seq<Article>> := [];
    for b := 0 to n
      invariant |events| == b && forall j :: 0 <= j < b ==> events[j] == []
    {
      events := events + [[]];
    }
    assert events == Buckets(articles[..0], labels, n);
    for i := 0 to |articles|
      invariant Resolves(i, labels, n)
      invariant events == Buckets(articles[..i], labels, n)
    {
      if i >= |labels| {
        return Err(IndexError);
      }
      var slot := PySlot(labels[i], n);
      if slot.None? {
        return Err(IndexError);
      }
      BucketsStep(articles, labels, n, i);
      events := events[slot.value := events[slot.value] + [articles[i]]];
    }
    assert articles[..|articles|] == articles;
    BucketsPartition(articles, labels, n);
    r := Ok(events);
  }

  /** `event_clustering(articles)`, with the labels DBSCAN gives the corpus.
      Fitting `TfidfVectorizer(max_df=0.3, min_df=0)` raises ValueError when
      no term survives the pruning, which is always the case for at most
      three articles. */
  method EventClusteringOf(articles: seq<Article>, analyse: string -> set<string>, dbscan: seq<string> -> seq<int>)
    returns (r: Result<seq<seq<Article>>>)
    ensures PrunedVocabulary(Corpus(articles), analyse) == {} ==> r == Err(ValueError)
    ensures |articles| <= 3 ==> r == Err(ValueError)
    ensures PrunedVocabulary(Corpus(articles), analyse) != {} ==>
            var labels := dbscan(Corpus(articles));
            && (r.Ok? <==> Resolves(|articles|, labels, EventCount(labels)))
            && (r.Ok? ==> r.value == Buckets(articles, labels, EventCount(labels)))
            && (r.Err? ==> r.error == IndexError)
  {
    var corpus := BuildCorpus(articles);
    if |articles| <= 3 {
      FewDocumentsPruneAll(corpus, analyse);
    }
    if PrunedVocabulary(corpus, analyse) == {} {
      return Err(ValueError);
    }
    var labels := dbscan(corpus);
    r := GroupEvents(articles, labels);
  }

  /** The labels 0, 1, ..., n-1. */
  function Range(n: nat): (r: set<int>)
    ensures forall x :: x in r <==> 0 <= x < n
    ensures |r| == n
  {
    if n == 0 then {} else Range(n - 1) + {n - 1}
  }

  /** When the labels are exactly 0..n-1 there are n events. */
  lemma ExactLabelsCount(labels: seq<int>, n: nat)
    requires forall i :: 0 <= i < |labels| ==> 0 <= labels[i] < n
    requires forall b :: 0 <= b < n ==> b in labels
    ensures EventCount(labels) == n
  {
    assert (set l | l in labels) == Range(n);
  }

  /** When the labels are exactly 0..n-1, article i is in event labels[i]
      and no event is empty. */
  lemma ExactLabels(articles: seq<Article>, labels: seq<int>, n: nat)
    requires |labels| == |articles|
    requires forall i :: 0 <= i < |labels| ==> 0 <= labels[i] < n
    requires forall b :: 0 <= b < n ==> b in labels
    ensures EventCount(labels) == n
    ensures Resolves(|articles|, labels, n)
    ensures forall i :: 0 <= i < |articles| ==> articles[i] in Buckets(articles, labels, n)[labels[i]]
    ensures forall b :: 0 <= b < n ==> Buckets(articles, labels, n)[b] != []
  {
    ExactLabelsCount(labels, n);
    var events := Buckets(articles, labels, n);
    forall i | 0 <= i < |articles|
      ensures articles[i] in events[labels[i]]
    {
      InMembers(articles, labels, n, i);
    }
    forall b | 0 <= b < n
      ensures events[b] != []
    {
      assert b in labels;
      var i :| 0 <= i < |labels| && labels[i] == b;
      assert articles[i] in events[labels[i]];
    }
  }
}
