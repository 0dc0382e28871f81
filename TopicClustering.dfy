/** topic_clustering.py: fitting the models (which raises ValueError for an
    empty vocabulary or a bad cluster count), picking three topic terms per
    KMeans cluster, and assigning feed items and knowledge-board contents to
    the clusters. A fitted TF-IDF vectoriser and KMeans are represented by what
    the code reads from them: the vocabulary, each centroid's term indices
    ranked by weight, and one predicted cluster per corpus document. */
module TopicClustering {
  import opened Common
  import opened NumberRegex
  import opened Grouping
  import opened Tfidf

  /** One entry of `clusters`: a dict whose 'articles', 'saved_articles' and
      'events' keys may be absent (None). */
  datatype TopicCluster = TopicCluster(
    topics: seq<string>,
    articles: Option<seq<Article>>,
    savedArticles: Option<seq<string>>,
    events: Option<seq<seq<Article>>>)

  /** What the code reads from the fitted models: `terms`, the rows of
      `order_centroids` and one `model.predict` result per corpus document. */
  datatype TopicModel = TopicModel(terms: seq<string>, ranking: seq<seq<nat>>, predictions: seq<int>)

  /** The model describes k clusters over a corpus of size docs: k ranking rows
      of term indices, and one prediction in [0, k) per document. */
  predicate WellFormed(m: TopicModel, k: nat, docs: nat) {
    && |m.ranking| == k
    && (forall c, j :: 0 <= c < k && 0 <= j < |m.ranking[c]| ==> m.ranking[c][j] < |m.terms|)
    && |m.predictions| == docs
    && (forall i :: 0 <= i < docs ==> 0 <= m.predictions[i] < k)
  }

  /** `str.isnumeric()`, restricted to ASCII digits. */
  predicate IsNumeric(s: string) {
    |s| > 0 && forall i :: 0 <= i < |s| ==> IsDigit(s[i])
  }

  /** The topic picking for one cluster succeeds: either the fifth-ranked term
      exists, or none of the top-ranked terms needs it. */
  predicate FallbackAvailable(terms: seq<string>, row: seq<nat>)
    requires forall j :: 0 <= j < |row| ==> row[j] < |terms|
  {
    |row| > 4 || forall j :: 0 <= j < Min(3, |row|) ==> !IsNumeric(terms[row[j]])
  }

  /** Topic j of a cluster: the j-th ranked term, or the fifth-ranked term
      in place of a numeric one (the replacement is not checked in turn). */
  function TopicAt(terms: seq<string>, row: seq<nat>, j: nat): string
    requires forall l :: 0 <= l < |row| ==> row[l] < |terms|
    requires FallbackAvailable(terms, row) && j < Min(3, |row|)
  {
    if IsNumeric(terms[row[j]]) then terms[row[4]] else terms[row[j]]
  }

  /** The topics of one cluster, for its (at most) three top-ranked indices. */
  function Topics(terms: seq<string>, row: seq<nat>): seq<string>
    requires forall l :: 0 <= l < |row| ==> row[l] < |terms|
    requires FallbackAvailable(terms, row)
  {
    seq(Min(3, |row|), j requires 0 <= j < Min(3, |row|) => TopicAt(terms, row, j))
  }

  /** The topic loop of one cluster. Without a fifth-ranked term a numeric
      term raises IndexError. */
  method PickTopics(terms: seq<string>, row: seq<nat>) returns (r: Result<seq<string>>)
    requires forall j :: 0 <= j < |row| ==> row[j] < |terms|
    ensures r.Ok? <==> FallbackAvailable(terms, row)
    ensures r.Err? ==> r.error == IndexError
    ensures r.Ok? ==> r.value == Topics(terms, row)
  {
    var topics := [];
    for j := 0 to Min(3, |row|)
      invariant |topics| == j
      invariant forall l :: 0 <= l < j ==> |row| > 4 || !IsNumeric(terms[row[l]])
      invariant forall l :: 0 <= l < j ==>
                  topics[l] == if IsNumeric(terms[row[l]]) then terms[row[4]] else terms[row[l]]
    {
      var ind := row[j];
      if IsNumeric(terms[ind]) {
        if |row| <= 4 {
          return Err(IndexError);
        }
        ind := row[4];
      }
      topics := topics + [terms[ind]];
    }
    r := Ok(topics);
  }

  /** A ranking of at least three terms gives exactly three topics; every
      topic is a vocabulary term, and a numeric topic arises only from a
      numeric fifth-ranked term. */
  lemma TopicsAreTerms(terms: seq<string>, row: seq<nat>)
    requires forall j :: 0 <= j < |row| ==> row[j] < |terms|
    requires FallbackAvailable(terms, row)
    ensures |row| >= 3 ==> |Topics(terms, row)| == 3
    ensures forall t :: t in Topics(terms, row) ==> t in terms
    ensures forall t :: t in Topics(terms, row) && IsNumeric(t) ==> IsNumeric(terms[row[4]])
  {
    var topics := Topics(terms, row);
    forall t | t in topics
      ensures t in terms && (IsNumeric(t) ==> IsNumeric(terms[row[4]]))
    {
      var j :| 0 <= j < |topics| && topics[j] == t;
      assert t == TopicAt(terms, row, j);
    }
  }

  /** Two numeric top-ranked terms both become the fifth-ranked term, so the
      topics of a cluster can repeat. */
  lemma SharedFallback(terms: seq<string>, row: seq<nat>, j1: nat, j2: nat)
    requires forall j :: 0 <= j < |row| ==> row[j] < |terms|
    requires FallbackAvailable(terms, row)
    requires j1 < Min(3, |row|) && j2 < Min(3, |row|)
    requires IsNumeric(terms[row[j1]]) && IsNumeric(terms[row[j2]])
    ensures Topics(terms, row)[j1] == Topics(terms, row)[j2] == terms[row[4]]
  {
  }

  /** A list in a cluster dict: absent until the first item is appended. */
  function Present<T>(s: seq<T>): (o: Option<seq<T>>)
    ensures o.None? <==> s == []
    ensures OrEmpty(o) == s
  {
    if s == [] then None else Some(s)
  }

  /** Every cluster's topics can be picked. */
  predicate AllTopicsAvailable(m: TopicModel, k: nat)
    requires WellFormed(m, k, |m.predictions|)
  {
    forall c :: 0 <= c < k ==> FallbackAvailable(m.terms, m.ranking[c])
  }

  /** The clusters `topic_clustering` returns: cluster c has its topics, the
      feed items predicted to be in c as 'articles', and the knowledge-board
      contents predicted to be in c as 'saved_articles'; a list that would be
      empty is an absent key, and there are no events yet. */
  function Clusters(k: nat, m: TopicModel, feed: seq<Article>, kbArticles: seq<string>): (cs: seq<TopicCluster>)
    requires WellFormed(m, k, |feed| + |kbArticles|) && AllTopicsAvailable(m, k)
    ensures |cs| == k
  {
    seq(k, c requires 0 <= c < k =>
      TopicCluster(Topics(m.terms, m.ranking[c]),
                   Present(Members(feed, m.predictions, k, c)),
                   Present(Members(kbArticles, m.predictions[|feed|..], k, c)),
                   None))
  }

  /** The first loop: one cluster per ranking row, with its topics. */
  method PickAllTopics(k: nat, m: TopicModel) returns (r: Result<seq<TopicCluster>>)
    requires WellFormed(m, k, |m.predictions|)
    ensures r.Ok? <==> AllTopicsAvailable(m, k)
    ensures r.Err? ==> r.error == IndexError
    ensures r.Ok? ==> |r.value| == k
    ensures r.Ok? ==> forall c :: 0 <= c < k ==>
              r.value[c] == TopicCluster(Topics(m.terms, m.ranking[c]), None, None, None)
  {
    var clusters: seq<TopicCluster> := [];
    for c := 0 to k
      invariant |clusters| == c
      invariant forall b :: 0 <= b < c ==> FallbackAvailable(m.terms, m.ranking[b])
      invariant forall b :: 0 <= b < c ==>
                  clusters[b] == TopicCluster(Topics(m.terms, m.ranking[b]), None, None, None)
    {
      var topics := PickTopics(m.terms, m.ranking[c]);
      if topics.Err? {
        return Err(topics.error);
      }
      clusters := clusters + [TopicCluster(topics.value, None, None, None)];
    }
    r := Ok(clusters);
  }

  /** The feed loop: item i is appended to 'articles' of cluster
      `predictions[i]`, created on first use; nothing else changes. */
  method AssignFeed(clusters: seq<TopicCluster>, feed: seq<Article>, predictions: seq<int>)
    returns (r: seq<TopicCluster>)
    requires |predictions| >= |feed|
    requires forall i :: 0 <= i < |feed| ==> 0 <= predictions[i] < |clusters|
    requires forall c :: 0 <= c < |clusters| ==> clusters[c].articles.None?
    ensures |r| == |clusters|
    ensures forall c :: 0 <= c < |r| ==>
              r[c] == clusters[c].(articles := Present(Members(feed, predictions, |clusters|, c)))
  {
    var k := |clusters|;
    r := clusters;
    for i := 0 to |feed|
      invariant |r| == k
      invariant forall c :: 0 <= c < k ==>
                  r[c] == clusters[c].(articles := Present(Members(feed[..i], predictions, k, c)))
    {
      var prediction := predictions[i];
      var articles := OrEmpty(r[prediction].articles);
      articles := articles + [feed[i]];
      FeedStep(clusters, r, feed, predictions, i);
      r := r[prediction := r[prediction].(articles := Some(articles))];
    }
    assert feed[..|feed|] == feed;
  }

  /** One step of the feed loop keeps its invariant. */
  lemma FeedStep(clusters: seq<TopicCluster>, r: seq<TopicCluster>, feed: seq<Article>, predictions: seq<int>, i: nat)
    requires |r| == |clusters| && i < |feed| && i < |predictions| && 0 <= predictions[i] < |r|
    requires forall c :: 0 <= c < |r| ==>
               r[c] == clusters[c].(articles := Present(Members(feed[..i], predictions, |r|, c)))
    ensures var p := predictions[i];
            var r' := r[p := r[p].(articles := Some(OrEmpty(r[p].articles) + [feed[i]]))];
            forall c :: 0 <= c < |r| ==>
              r'[c] == clusters[c].(articles := Present(Members(feed[..i + 1], predictions, |r|, c)))
  {
    var p := predictions[i];
    var r' := r[p := r[p].(articles := Some(OrEmpty(r[p].articles) + [feed[i]]))];
    forall c | 0 <= c < |r|
      ensures r'[c] == clusters[c].(articles := Present(Members(feed[..i + 1], predictions, |r|, c)))
    {
      MembersStep(feed, predictions, |r|, i, c);
      var before := Members(feed[..i], predictions, |r|, c);
      if c == p {
        assert OrEmpty(r[p].articles) == before;
        assert Members(feed[..i + 1], predictions, |r|, c) == before + [feed[i]];
      } else {
        assert Members(feed[..i + 1], predictions, |r|, c) == before;
      }
    }
  }

  /** One step of the knowledge-board loop keeps its invariant. */
  lemma SavedStep(clusters: seq<TopicCluster>, r: seq<TopicCluster>, kbArticles: seq<string>, saved: seq<int>, i: nat)
    requires |r| == |clusters| && i < |kbArticles| && i < |saved| && 0 <= saved[i] < |r|
    requires forall c :: 0 <= c < |r| ==>
               r[c] == clusters[c].(savedArticles := Present(Members(kbArticles[..i], saved, |r|, c)))
    ensures var p := saved[i];
            var r' := r[p := r[p].(savedArticles := Some(OrEmpty(r[p].savedArticles) + [kbArticles[i]]))];
            forall c :: 0 <= c < |r| ==>
              r'[c] == clusters[c].(savedArticles := Present(Members(kbArticles[..i + 1], saved, |r|, c)))
  {
    var p := saved[i];
    var r' := r[p := r[p].(savedArticles := Some(OrEmpty(r[p].savedArticles) + [kbArticles[i]]))];
    forall c | 0 <= c < |r|
      ensures r'[c] == clusters[c].(savedArticles := Present(Members(kbArticles[..i + 1], saved, |r|, c)))
    {
      MembersStep(kbArticles, saved, |r|, i, c);
      var before := Members(kbArticles[..i], saved, |r|, c);
      if c == p {
        assert OrEmpty(r[p].savedArticles) == before;
        assert Members(kbArticles[..i + 1], saved, |r|, c) == before + [kbArticles[i]];
      } else {
        assert Members(kbArticles[..i + 1], saved, |r|, c) == before;
      }
    }
  }

  /** The knowledge-board loop: content i is appended to 'saved_articles' of
      cluster `predictions[i + offset]`, created on first use; nothing else
      changes. */
  method AssignSaved(clusters: seq<TopicCluster>, kbArticles: seq<string>, predictions: seq<int>, offset: nat)
    returns (r: seq<TopicCluster>)
    requires |predictions| == offset + |kbArticles|
    requires forall i :: offset <= i < |predictions| ==> 0 <= predictions[i] < |clusters|
    requires forall c :: 0 <= c < |clusters| ==> clusters[c].savedArticles.None?
    ensures |r| == |clusters|
    ensures forall c :: 0 <= c < |r| ==>
              r[c] == clusters[c].(savedArticles := Present(Members(kbArticles, predictions[offset..], |clusters|, c)))
  {
    var k := |clusters|;
    var saved := predictions[offset..];
    r := clusters;
    for i := 0 to |kbArticles|
      invariant |r| == k
      invariant forall c :: 0 <= c < k ==>
                  r[c] == clusters[c].(savedArticles := Present(Members(kbArticles[..i], saved, k, c)))
    {
      var prediction := predictions[i + offset];
      assert saved[i] == prediction;
      var savedArticles := OrEmpty(r[prediction].savedArticles);
      savedArticles := savedArticles + [kbArticles[i]];
      SavedStep(clusters, r, kbArticles, saved, i);
      r := r[prediction := r[prediction].(savedArticles := Some(savedArticles))];
    }
    assert kbArticles[..|kbArticles|] == kbArticles;
  }

  /** Fitting the vectoriser and then KMeans succeeds: some term occurs in the
      corpus, and the number of clusters lies between one and the number of
      documents; otherwise scikit-learn raises ValueError. */
  predicate KMeansFits(k: nat, corpus: seq<string>, analyse: string -> set<string>) {
    Vocabulary(corpus, analyse) != {} && 1 <= k <= |corpus|
  }

  /** `topic_clustering(k, corpus, feed, kb_articles)`, where corpus is the
      feed contents followed by the knowledge-board contents and m is what
      the fitted models yield for it. */
  method TopicClusteringOf(k: nat, corpus: seq<string>, analyse: string -> set<string>, m: TopicModel,
                           feed: seq<Article>, kbArticles: seq<string>)
    returns (r: Result<seq<TopicCluster>>)
    requires |corpus| == |feed| + |kbArticles|
    requires KMeansFits(k, corpus, analyse) ==> WellFormed(m, k, |corpus|)
    ensures !KMeansFits(k, corpus, analyse) ==> r == Err(ValueError)
    ensures KMeansFits(k, corpus, analyse) ==>
            && (r.Ok? <==> AllTopicsAvailable(m, k))
            && (r.Err? ==> r.error == IndexError)
            && (r.Ok? ==> r.value == Clusters(k, m, feed, kbArticles))
  {
    if !KMeansFits(k, corpus, analyse) {
      return Err(ValueError);
    }
    var picked := PickAllTopics(k, m);
    if picked.Err? {
      return picked;
    }
    var clusters := AssignFeed(picked.value, feed, m.predictions);
    clusters := AssignSaved(clusters, kbArticles, m.predictions, |feed|);
    r := Ok(clusters);
  }

  /** The 'articles' lists of the clusters, a missing key read as empty. */
  function FeedLists(clusters: seq<TopicCluster>): seq<seq<Article>> {
    seq(|clusters|, c requires 0 <= c < |clusters| => OrEmpty(clusters[c].articles))
  }

  /** The 'saved_articles' lists of the clusters, a missing key read as empty. */
  function SavedLists(clusters: seq<TopicCluster>): seq<seq<string>> {
    seq(|clusters|, c requires 0 <= c < |clusters| => OrEmpty(clusters[c].savedArticles))
  }

  /** Nothing is dropped or duplicated: the 'articles' lists together hold the
      feed items, and the 'saved_articles' lists the knowledge-board contents,
      each exactly as often as the input does. */
  lemma ClustersPartition(k: nat, m: TopicModel, feed: seq<Article>, kbArticles: seq<string>)
    requires WellFormed(m, k, |feed| + |kbArticles|) && AllTopicsAvailable(m, k)
    ensures multiset(Flatten(FeedLists(Clusters(k, m, feed, kbArticles)))) == multiset(feed)
    ensures |Flatten(FeedLists(Clusters(k, m, feed, kbArticles)))| == |feed|
    ensures multiset(Flatten(SavedLists(Clusters(k, m, feed, kbArticles)))) == multiset(kbArticles)
    ensures |Flatten(SavedLists(Clusters(k, m, feed, kbArticles)))| == |kbArticles|
  {
    var cs := Clusters(k, m, feed, kbArticles);
    var saved := m.predictions[|feed|..];
    assert FeedLists(cs) == Buckets(feed, m.predictions, k);
    assert SavedLists(cs) == Buckets(kbArticles, saved, k);
    BucketsPartition(feed, m.predictions, k);
    BucketsPartition(kbArticles, saved, k);
  }
}
