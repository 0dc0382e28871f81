/** main.py: `create_new_feed` (corpus assembly, quota planning and the
    pipeline around the two clusterings) and `populate_new_feed`. JSON files
    are represented by their already loaded item lists. */
module NewFeed {
  import opened Common
  import opened Grouping
  import opened EventClustering
  import opened TopicClustering
  import opened Tfidf

  // ---------------------------------------------------------------------------
  // Corpus assembly (main.py:33-43).
  // ---------------------------------------------------------------------------

  /** The contents of a list of items, in order. */
  function Contents(items: seq<Article>): (cs: seq<string>)
    ensures |cs| == |items|
  {
    seq(|items|, i requires 0 <= i < |items| => items[i].content)
  }

  /** The contents of every knowledge board's items, board after board. */
  function KbContents(kbs: seq<seq<Article>>): seq<string> {
    if kbs == [] then [] else KbContents(kbs[..|kbs| - 1]) + Contents(kbs[|kbs| - 1])
  }

  /** The item counts of the knowledge boards, added up. */
  function ItemCount(kbs: seq<seq<Article>>): nat {
    if kbs == [] then 0 else ItemCount(kbs[..|kbs| - 1]) + |kbs[|kbs| - 1]|
  }

  lemma {:induction false} KbContentsLength(kbs: seq<seq<Article>>)
    ensures |KbContents(kbs)| == ItemCount(kbs)
    decreases |kbs|
  {
    if kbs != [] {
      KbContentsLength(kbs[..|kbs| - 1]);
    }
  }

  /** The corpus loops: feed contents in order, then each board's contents in
      order, which are also collected as `kb_articles`; `nb_kb_articles` adds
      up the boards' item counts. */
  method AssembleCorpus(feed: seq<Article>, kbs: seq<seq<Article>>)
    returns (corpus: seq<string>, kbArticles: seq<string>, nbKbArticles: nat)
    ensures kbArticles == KbContents(kbs)
    ensures corpus == Contents(feed) + kbArticles
    ensures nbKbArticles == |kbArticles|
    ensures |corpus| == |feed| + nbKbArticles
  {
    corpus := [];
    for i := 0 to |feed|
      invariant corpus == Contents(feed[..i])
    {
      corpus := corpus + [feed[i].content];
    }
    assert feed[..|feed|] == feed;
    kbArticles := [];
    nbKbArticles := 0;
    for j := 0 to |kbs|
      invariant kbArticles == KbContents(kbs[..j])
      invariant corpus == Contents(feed) + kbArticles
      invariant nbKbArticles == |kbArticles|
    {
      var kb := kbs[j];
      nbKbArticles := nbKbArticles + |kb|;
      ghost var before := kbArticles;
      for l := 0 to |kb|
        invariant kbArticles == before + Contents(kb[..l])
        invariant corpus == Contents(feed) + kbArticles
        invariant nbKbArticles == |before| + |kb|
      {
        kbArticles := kbArticles + [kb[l].content];
        corpus := corpus + [kb[l].content];
      }
      assert kb[..|kb|] == kb;
      assert kbs[..j + 1][..j] == kbs[..j];
    }
    assert kbs[..|kbs|] == kbs;
  }

  // ---------------------------------------------------------------------------
  // Quota planning (main.py:94-105).
  // ---------------------------------------------------------------------------

  /** The flat rule's quota for a cluster with saved articles. */
  const FlatQuota: nat := 5

  /** `len(cluster.get('saved_articles', []))`. */
  function SavedCount(c: TopicCluster): nat {
    |OrEmpty(c.savedArticles)|
  }

  /** The number of articles to draw from a cluster with `saved` saved
      articles: the floor of saved * maxLen / nb under the proportional rule,
      FlatQuota or 0 under the flat rule. */
  function Quota(saved: nat, maxLen: nat, nb: nat, proportional: bool): (q: nat)
    requires proportional ==> nb > 0
    ensures proportional ==> q * nb <= saved * maxLen < (q + 1) * nb
    ensures !proportional ==> (q == FlatQuota <==> saved > 0) && (q == 0 <==> saved == 0)
  {
    if proportional then saved * maxLen / nb
    else if saved > 0 then FlatQuota else 0
  }

  /** One quota per cluster, in cluster order. */
  function Quotas(clusters: seq<TopicCluster>, maxLen: nat, nb: nat, proportional: bool): (qs: seq<nat>)
    requires proportional ==> nb > 0
    ensures |qs| == |clusters|
  {
    seq(|clusters|, c requires 0 <= c < |clusters| => Quota(SavedCount(clusters[c]), maxLen, nb, proportional))
  }

  /** The quota loop: a zero `nb_kb_articles` under the proportional rule
      raises ZeroDivisionError at the first cluster. */
  method PlanQuotas(clusters: seq<TopicCluster>, maxLen: nat, nb: nat, proportional: bool)
    returns (r: Result<seq<nat>>)
    ensures r.Err? <==> proportional && nb == 0 && |clusters| > 0
    ensures r.Err? ==> r.error == ZeroDivisionError
    ensures r.Ok? ==> (proportional ==> nb > 0 || clusters == [])
    ensures r.Ok? && (proportional ==> nb > 0) ==> r.value == Quotas(clusters, maxLen, nb, proportional)
    ensures r.Ok? ==> |r.value| == |clusters|
  {
    var needed: seq<nat> := [];
    for c := 0 to |clusters|
      invariant |needed| == c
      invariant proportional ==> nb > 0 || c == 0
      invariant forall j :: 0 <= j < c ==> needed[j] == Quota(SavedCount(clusters[j]), maxLen, nb, proportional)
    {
      var numberOfArticles := |OrEmpty(clusters[c].savedArticles)|;
      var toAdd: nat;
      if proportional {
        if nb == 0 {
          return Err(ZeroDivisionError);
        }
        toAdd := numberOfArticles * maxLen / nb;
      } else {
        if numberOfArticles > 0 {
          toAdd := FlatQuota;
        } else {
          toAdd := 0;
        }
      }
      needed := needed + [toAdd];
    }
    r := Ok(needed);
  }

  /** The saved counts of the clusters, in order. */
  function SavedCounts(clusters: seq<TopicCluster>): seq<nat> {
    seq(|clusters|, c requires 0 <= c < |clusters| => SavedCount(clusters[c]))
  }

  /** Floors of quotients never add up to more than the floor of the sum. */
  lemma DivAddLe(a: nat, b: nat, n: nat)
    requires n > 0
    ensures a / n + b / n <= (a + b) / n
  {
    var q := a / n + b / n;
    assert q * n == (a / n) * n + (b / n) * n;
    DivLowerBound(q, a + b, n);
  }

  lemma {:induction false} MulLe(a: nat, b: nat, n: nat)
    requires a <= b
    ensures a * n <= b * n
    decreases b - a
  {
    if a < b {
      MulLe(a, b - 1, n);
      assert b * n == (b - 1) * n + n;
    }
  }

  lemma DivLowerBound(q: nat, x: nat, n: nat)
    requires n > 0 && q * n <= x
    ensures q <= x / n
  {
    var r := x / n;
    assert x == r * n + x % n;
    assert (r + 1) * n == r * n + n;
    if q > r {
      MulLe(r + 1, q, n);
      assert false;
    }
  }

  /** One more cluster's quota keeps the running bound. */
  lemma QuotaStep(acc: nat, before: nat, s: nat, maxLen: nat, nb: nat)
    requires nb > 0 && acc <= before * maxLen / nb
    ensures acc + s * maxLen / nb <= (before + s) * maxLen / nb
  {
    DivAddLe(before * maxLen, s * maxLen, nb);
    assert before * maxLen + s * maxLen == (before + s) * maxLen;
  }

  /** Under the proportional rule the quotas add up to at most
      sum(saved) * maxLen / nb. */
  lemma {:induction false} QuotaSumLe(clusters: seq<TopicCluster>, maxLen: nat, nb: nat)
    requires nb > 0
    ensures Sum(Quotas(clusters, maxLen, nb, true)) <= Sum(SavedCounts(clusters)) * maxLen / nb
    decreases |clusters|
  {
    if clusters != [] {
      var n := |clusters| - 1;
      var init := clusters[..n];
      var qs := Quotas(clusters, maxLen, nb, true);
      var saved := SavedCounts(clusters);
      assert qs[..n] == Quotas(init, maxLen, nb, true);
      assert saved[..n] == SavedCounts(init);
      QuotaSumLe(init, maxLen, nb);
      var s := SavedCount(clusters[n]);
      assert Sum(qs) == Sum(qs[..n]) + s * maxLen / nb;
      assert Sum(saved) == Sum(saved[..n]) + s;
      QuotaStep(Sum(qs[..n]), Sum(saved[..n]), s, maxLen, nb);
    }
  }

  lemma MulDivCancel(a: nat, n: nat)
    requires n > 0
    ensures n * a / n == a
  {
    var r := n * a / n;
    assert n * a == a * n;
    DivLowerBound(a, n * a, n);
    assert n * a == r * n + (n * a) % n;
    assert (a + 1) * n == a * n + n;
    if r > a {
      MulLe(a + 1, r, n);
      assert false;
    }
  }

  /** With the proportional rule, and saved counts that add up to
      `nb_kb_articles`, the quotas add up to at most `max_new_feed_length`:
      the bound the parameter's documentation promises (main.py:24). */
  lemma QuotaSumBound(clusters: seq<TopicCluster>, maxLen: nat, nb: nat)
    requires nb > 0 && Sum(SavedCounts(clusters)) == nb
    ensures Sum(Quotas(clusters, maxLen, nb, true)) <= maxLen
  {
    QuotaSumLe(clusters, maxLen, nb);
    MulDivCancel(maxLen, nb);
  }

  /** Under the flat rule each cluster adds at most FlatQuota articles. */
  lemma {:induction false} FlatQuotaSum(clusters: seq<TopicCluster>, maxLen: nat, nb: nat)
    ensures Sum(Quotas(clusters, maxLen, nb, false)) <= FlatQuota * |clusters|
    decreases |clusters|
  {
    if clusters != [] {
      var n := |clusters| - 1;
      assert Quotas(clusters, maxLen, nb, false)[..n] == Quotas(clusters[..n], maxLen, nb, false);
      FlatQuotaSum(clusters[..n], maxLen, nb);
    }
  }

  /** The lengths of a sequence of lists. */
  function Lengths<T>(ss: seq<seq<T>>): (ls: seq<nat>)
    ensures |ls| == |ss|
  {
    seq(|ss|, j requires 0 <= j < |ss| => |ss[j]|)
  }

  lemma {:induction false} FlattenLength<T>(ss: seq<seq<T>>)
    ensures |Flatten(ss)| == Sum(Lengths(ss))
    decreases |ss|
  {
    if ss != [] {
      var n := |ss| - 1;
      assert Lengths(ss)[..n] == Lengths(ss[..n]);
      FlattenLength(ss[..n]);
    }
  }

  // ---------------------------------------------------------------------------
  // Feed population (main.py:138-150).
  // ---------------------------------------------------------------------------

  /** `random()` returns u / 2^53 for a 53-bit integer u; a draw is that u. */
  const RandomScale: nat := 0x20_0000_0000_0000

  /** `int(floor(random() * len))` for the draw u, in exact arithmetic. */
  function DrawIndex(u: nat, len: nat): (idx: nat)
    ensures idx * RandomScale <= u * len < (idx + 1) * RandomScale
  {
    u * len / RandomScale
  }

  /** A drawn index is a valid subscript of a non-empty list (main.py:143). */
  lemma DrawIndexInRange(u: nat, len: nat)
    requires u < RandomScale && len > 0
    ensures DrawIndex(u, len) < len
  {
    var idx := DrawIndex(u, len);
    MulLe(u, RandomScale, len);
    assert u * len < RandomScale * len by {
      assert RandomScale * len == u * len + (RandomScale - u) * len;
      MulLe(1, RandomScale - u, len);
    }
    assert idx * RandomScale < len * RandomScale;
    if idx >= len {
      assert false;
    }
  }

  /** The first index holding the greatest `published` of a non-empty event:
      what the scan at main.py:145-148 settles on, the strict `>` keeping the
      first of several tied maxima. */
  function FirstLatest(event: seq<Article>): (i: nat)
    requires event != []
    ensures i < |event|
    ensures forall j :: 0 <= j < |event| ==> event[j].published <= event[i].published
    ensures forall j :: 0 <= j < i ==> event[j].published < event[i].published
  {
    if |event| == 1 then 0
    else
      var i := FirstLatest(event[..|event| - 1]);
      if event[|event| - 1].published > event[i].published then |event| - 1 else i
  }

  /** The scan over a drawn event: `last_article` ends as the first article
      with the greatest `published`, and the loop variable `article` ends as
      the event's last element. */
  method ScanEvent(event: seq<Article>) returns (lastArticle: Article, article: Article)
    requires event != []
    ensures lastArticle == event[FirstLatest(event)]
    ensures article == event[|event| - 1]
  {
    lastArticle := event[0];
    article := event[0];
    for l := 0 to |event|
      invariant l > 0 ==> article == event[l - 1]
      invariant lastArticle == event[FirstLatest(event[..if l == 0 then 1 else l])]
    {
      article := event[l];
      if article.published > lastArticle.published {
        lastArticle := article;
      }
      assert event[..l + 1][..l] == event[..l];
    }
    assert event[..|event|] == event;
  }

  /** Ties go to the first article: published times [100, 300, 300] select
      index 1. */
  lemma TieGoesToFirst(a: Article, b: Article, c: Article)
    requires a.published == 100 && b.published == 300 && c.published == 300
    ensures FirstLatest([a, b, c]) == 1
  {
    assert [a, b, c][..2] == [a, b];
    assert [a, b][..1] == [a];
  }

  /** One pass of the inner loop body for cluster i and draw u: the cluster,
      its 'events' (len(None) is a TypeError), the drawn event and its first
      element must all exist; the appended item is the event's last element. */
  function Pick(clusters: seq<TopicCluster>, i: nat, u: nat): (r: Result<Article>)
    ensures r.Ok? ==> i < |clusters| && clusters[i].events.Some? && clusters[i].events.value != []
  {
    if i >= |clusters| then Err(IndexError)
    else match clusters[i].events
      case None => Err(TypeError)
      case Some(es) =>
        var idx := DrawIndex(u, |es|);
        if idx >= |es| || es[idx] == [] then Err(IndexError)
        else Ok(es[idx][|es[idx]| - 1])
  }

  /** What one draw yields: a missing cluster or an empty events list is an
      IndexError, a missing 'events' key a TypeError, and when every event of
      the cluster is non-empty the draw succeeds (main.py:142-145). */
  lemma PickCases(clusters: seq<TopicCluster>, i: nat, u: nat)
    requires u < RandomScale
    ensures i >= |clusters| ==> Pick(clusters, i, u) == Err(IndexError)
    ensures i < |clusters| && clusters[i].events == None ==> Pick(clusters, i, u) == Err(TypeError)
    ensures i < |clusters| && clusters[i].events == Some([]) ==> Pick(clusters, i, u) == Err(IndexError)
    ensures i < |clusters| && clusters[i].events.Some? && clusters[i].events.value != []
            && (forall ev :: ev in clusters[i].events.value ==> ev != [])
            ==> Pick(clusters, i, u).Ok?
  {
    if i < |clusters| && clusters[i].events.Some? && clusters[i].events.value != [] {
      var es := clusters[i].events.value;
      DrawIndexInRange(u, |es|);
      assert es[DrawIndex(u, |es|)] in es;
    }
  }

  /** A successful draw is the last element of one of the cluster's events. */
  lemma PickFromEvent(clusters: seq<TopicCluster>, i: nat, u: nat)
    requires Pick(clusters, i, u).Ok?
    ensures exists ev :: ev in clusters[i].events.value && ev != [] && Pick(clusters, i, u).value == ev[|ev| - 1]
  {
    var es := clusters[i].events.value;
    assert es[DrawIndex(u, |es|)] in es;
  }

  /** The cluster index of every draw, in the order the nested loops make
      them: articlesNeeded[0] draws from cluster 0, then articlesNeeded[1]
      from cluster 1, and so on. */
  function Slots(quotas: seq<nat>): (r: seq<nat>)
    ensures |r| == Sum(quotas)
    ensures forall d :: 0 <= d < |r| ==> r[d] < |quotas|
  {
    if quotas == [] then []
    else
      var n := |quotas| - 1;
      Slots(quotas[..n]) + seq(quotas[n], _ => n)
  }

  /** Topic-major order: draw j of cluster i is draw number
      Sum(quotas[..i]) + j overall. */
  lemma {:induction false} SlotsAt(quotas: seq<nat>, i: nat, j: nat)
    requires i < |quotas| && j < quotas[i]
    ensures Sum(quotas[..i]) + j < |Slots(quotas)|
    ensures Slots(quotas)[Sum(quotas[..i]) + j] == i
    decreases |quotas|
  {
    var n := |quotas| - 1;
    assert quotas[..n + 1] == quotas;
    SumStep(quotas, n);
    if i < n {
      assert quotas[..n][..i] == quotas[..i];
      SlotsAt(quotas[..n], i, j);
      SumPrefixLe(quotas[..n], i);
      assert quotas[..n][i] == quotas[i];
    }
  }

  /** The first n draws, stopping at the first that fails. */
  function Drawn(clusters: seq<TopicCluster>, slots: seq<nat>, draws: nat -> nat, n: nat): (r: Result<seq<Article>>)
    requires n <= |slots|
    ensures r.Ok? ==> |r.value| == n
  {
    if n == 0 then Ok([])
    else match Drawn(clusters, slots, draws, n - 1)
      case Err(e) => Err(e)
      case Ok(f) =>
        match Pick(clusters, slots[n - 1], draws(n - 1))
        case Err(e) => Err(e)
        case Ok(a) => Ok(f + [a])
  }

  /** The first n draws succeed exactly when each of them does, and then
      item d is draw d. */
  lemma {:induction false} DrawnSucceeds(clusters: seq<TopicCluster>, slots: seq<nat>, draws: nat -> nat, n: nat)
    requires n <= |slots|
    ensures Drawn(clusters, slots, draws, n).Ok? <==>
            forall d :: 0 <= d < n ==> Pick(clusters, slots[d], draws(d)).Ok?
    ensures Drawn(clusters, slots, draws, n).Ok? ==>
            var f := Drawn(clusters, slots, draws, n).value;
            |f| == n && forall d :: 0 <= d < n ==> f[d] == Pick(clusters, slots[d], draws(d)).value
  {
    if n > 0 {
      DrawnSucceeds(clusters, slots, draws, n - 1);
    }
  }

  /** A failed run reports the error of its first failing draw. */
  lemma {:induction false} DrawnFirstError(clusters: seq<TopicCluster>, slots: seq<nat>, draws: nat -> nat, n: nat)
    requires n <= |slots|
    ensures Drawn(clusters, slots, draws, n).Err? ==>
            exists d :: 0 <= d < n && Pick(clusters, slots[d], draws(d)).Err?
              && Drawn(clusters, slots, draws, n).error == Pick(clusters, slots[d], draws(d)).error
              && forall e :: 0 <= e < d ==> Pick(clusters, slots[e], draws(e)).Ok?
  {
    if n > 0 {
      DrawnFirstError(clusters, slots, draws, n - 1);
      DrawnSucceeds(clusters, slots, draws, n - 1);
    }
  }

  /** A successful draw extends the run by its article. */
  lemma DrawnStep(clusters: seq<TopicCluster>, slots: seq<nat>, draws: nat -> nat, d: nat, f: seq<Article>, a: Article)
    requires d < |slots|
    requires Drawn(clusters, slots, draws, d) == Ok(f)
    requires Pick(clusters, slots[d], draws(d)) == Ok(a)
    ensures Drawn(clusters, slots, draws, d + 1) == Ok(f + [a])
  {
  }

  /** Once a draw fails, the result of the whole run is that failure. */
  lemma {:induction false} DrawnFails(clusters: seq<TopicCluster>, slots: seq<nat>, draws: nat -> nat, d: nat, total: nat)
    requires d < total <= |slots|
    requires Drawn(clusters, slots, draws, d).Ok?
    requires Pick(clusters, slots[d], draws(d)).Err?
    ensures Drawn(clusters, slots, draws, total) == Err(Pick(clusters, slots[d], draws(d)).error)
    decreases total
  {
    if total > d + 1 {
      DrawnFails(clusters, slots, draws, d, total - 1);
    }
  }

  /** One pass of the inner loop of `populate_new_feed` for cluster i, with
      `random()` returning u / 2^53: the latest article of the drawn event is
      computed, but the item returned is the event's last element. */
  method DrawArticle(clusters: seq<TopicCluster>, i: nat, u: nat) returns (r: Result<Article>)
    ensures r == Pick(clusters, i, u)
  {
    if i >= |clusters| {
      return Err(IndexError);
    }
    var events := clusters[i].events;
    if events.None? {
      return Err(TypeError);
    }
    var index := DrawIndex(u, |events.value|);
    if index >= |events.value| {
      return Err(IndexError);
    }
    var event := events.value[index];
    if event == [] {
      return Err(IndexError);
    }
    var lastArticle, article := ScanEvent(event);
    r := Ok(article);
  }

  /** `populate_new_feed(clusters, articles_needed)`, the k-th call of
      `random()` returning draws(k) / 2^53. */
  method PopulateNewFeed(clusters: seq<TopicCluster>, articlesNeeded: seq<nat>, draws: nat -> nat)
    returns (r: Result<seq<Article>>)
    requires forall j :: draws(j) < RandomScale
    ensures r == Drawn(clusters, Slots(articlesNeeded), draws, Sum(articlesNeeded))
  {
    ghost var slots := Slots(articlesNeeded);
    ghost var total := Sum(articlesNeeded);
    var newFeed: seq<Article> := [];
    var d: nat := 0;
    for i := 0 to |articlesNeeded|
      invariant d == Sum(articlesNeeded[..i]) && d <= total
      invariant Drawn(clusters, slots, draws, d) == Ok(newFeed)
    {
      SumPrefixLe(articlesNeeded, i);
      for nbArticles := 0 to articlesNeeded[i]
        invariant d == Sum(articlesNeeded[..i]) + nbArticles && d <= total
        invariant Drawn(clusters, slots, draws, d) == Ok(newFeed)
      {
        SlotsAt(articlesNeeded, i, nbArticles);
        SumStep(articlesNeeded, i);
        SumPrefixLe(articlesNeeded, i + 1);
        var drawn := DrawArticle(clusters, i, draws(d));
        if drawn.Err? {
          DrawnFails(clusters, slots, draws, d, total);
          return Err(drawn.error);
        }
        DrawnStep(clusters, slots, draws, d, newFeed, drawn.value);
        newFeed := newFeed + [drawn.value];
        d := d + 1;
      }
      SumStep(articlesNeeded, i);
    }
    assert articlesNeeded[..|articlesNeeded|] == articlesNeeded;
    r := Ok(newFeed);
  }

  /** The overall number of draw j of cluster i. */
  function DrawNumber(quotas: seq<nat>, i: nat, j: nat): nat
    requires i <= |quotas|
  {
    Sum(quotas[..i]) + j
  }

  /** Every draw number belongs to some cluster's block. */
  lemma {:induction false} SlotOf(quotas: seq<nat>, d: nat)
    requires d < Sum(quotas)
    ensures exists i, j :: 0 <= i < |quotas| && 0 <= j < quotas[i] && d == DrawNumber(quotas, i, j)
    decreases |quotas|
  {
    var n := |quotas| - 1;
    assert quotas[..n + 1] == quotas;
    SumStep(quotas, n);
    if d < Sum(quotas[..n]) {
      SlotOf(quotas[..n], d);
      var i, j :| 0 <= i < n && 0 <= j < quotas[..n][i] && d == DrawNumber(quotas[..n], i, j);
      assert quotas[..n][..i] == quotas[..i];
      assert d == DrawNumber(quotas, i, j);
    } else {
      assert d == DrawNumber(quotas, n, d - Sum(quotas[..n]));
    }
  }

  /** The populated feed succeeds exactly when each cluster's draws do. */
  lemma PopulateSucceeds(clusters: seq<TopicCluster>, articlesNeeded: seq<nat>, draws: nat -> nat)
    ensures Drawn(clusters, Slots(articlesNeeded), draws, Sum(articlesNeeded)).Ok? <==>
            forall i, j :: 0 <= i < |articlesNeeded| && 0 <= j < articlesNeeded[i] ==>
              Pick(clusters, i, draws(DrawNumber(articlesNeeded, i, j))).Ok?
  {
    var slots := Slots(articlesNeeded);
    var total := Sum(articlesNeeded);
    DrawnSucceeds(clusters, slots, draws, total);
    if Drawn(clusters, slots, draws, total).Ok? {
      forall i, j | 0 <= i < |articlesNeeded| && 0 <= j < articlesNeeded[i]
        ensures Pick(clusters, i, draws(DrawNumber(articlesNeeded, i, j))).Ok?
      {
        SlotsAt(articlesNeeded, i, j);
      }
    } else {
      var d :| 0 <= d < total && Pick(clusters, slots[d], draws(d)).Err?;
      SlotOf(articlesNeeded, d);
      var i, j :| 0 <= i < |articlesNeeded| && 0 <= j < articlesNeeded[i] && d == DrawNumber(articlesNeeded, i, j);
      SlotsAt(articlesNeeded, i, j);
    }
  }

  /** The populated feed has exactly sum(articles_needed) items, in
      topic-major draw order: item DrawNumber(articlesNeeded, i, j) is draw j
      of cluster i. */
  lemma PopulateOrder(clusters: seq<TopicCluster>, articlesNeeded: seq<nat>, draws: nat -> nat)
    requires Drawn(clusters, Slots(articlesNeeded), draws, Sum(articlesNeeded)).Ok?
    ensures var f := Drawn(clusters, Slots(articlesNeeded), draws, Sum(articlesNeeded)).value;
            |f| == Sum(articlesNeeded)
            && forall i, j :: 0 <= i < |articlesNeeded| && 0 <= j < articlesNeeded[i] ==>
                 DrawNumber(articlesNeeded, i, j) < |f|
                 && Pick(clusters, i, draws(DrawNumber(articlesNeeded, i, j))).Ok?
                 && f[DrawNumber(articlesNeeded, i, j)] == Pick(clusters, i, draws(DrawNumber(articlesNeeded, i, j))).value
  {
    var slots := Slots(articlesNeeded);
    var total := Sum(articlesNeeded);
    DrawnSucceeds(clusters, slots, draws, total);
    forall i, j | 0 <= i < |articlesNeeded| && 0 <= j < articlesNeeded[i]
      ensures DrawNumber(articlesNeeded, i, j) < total
      ensures slots[DrawNumber(articlesNeeded, i, j)] == i
    {
      SlotsAt(articlesNeeded, i, j);
    }
  }

  // ---------------------------------------------------------------------------
  // The pipeline (main.py:29-108).
  // ---------------------------------------------------------------------------

  /** The corpus of a feed and its knowledge boards. */
  function FeedCorpus(feed: seq<Article>, kbs: seq<seq<Article>>): seq<string> {
    Contents(feed) + KbContents(kbs)
  }

  /** Every event of every cluster holds only articles of the feed. */
  predicate EventsFromFeed(clusters: seq<TopicCluster>, feed: seq<Article>, upTo: nat)
    requires upTo <= |clusters|
  {
    forall c :: 0 <= c < upTo ==>
      clusters[c].events.Some? && forall ev, a :: ev in clusters[c].events.value && a in ev ==> a in feed
  }

  /** A cluster has a non-empty 'articles' list only if some feed item was
      predicted to be in it. */
  lemma ArticlesPresent(k: nat, m: TopicModel, feed: seq<Article>, kbArticles: seq<string>, c: nat)
    requires WellFormed(m, k, |feed| + |kbArticles|) && AllTopicsAvailable(m, k) && c < k
    requires Clusters(k, m, feed, kbArticles)[c].articles.Some?
    ensures exists i :: 0 <= i < |feed| && m.predictions[i] == c
    ensures forall a :: a in Clusters(k, m, feed, kbArticles)[c].articles.value ==> a in feed
  {
    var ms := Members(feed, m.predictions, k, c);
    assert ms != [];
    MembersInOrder(feed, m.predictions, k, c);
    var i := Positions(m.predictions, |feed|, k, c)[0];
    assert PySlot(m.predictions[i], k) == Some(c);
    forall a | a in ms
      ensures a in feed
    {
      MembersWithin(feed, m.predictions, k, c, a);
    }
  }

  /** The proportional quotas of the final clusters add up to at most
      max_new_feed_length: their saved counts add up to nb_kb_articles. */
  lemma PipelineQuotaBound(k: nat, m: TopicModel, feed: seq<Article>, kbArticles: seq<string>,
                           clusters: seq<TopicCluster>, maxLen: nat)
    requires WellFormed(m, k, |feed| + |kbArticles|) && AllTopicsAvailable(m, k)
    requires |kbArticles| > 0 && |clusters| == k
    requires forall c :: 0 <= c < k ==>
               clusters[c].savedArticles == Clusters(k, m, feed, kbArticles)[c].savedArticles
    ensures Sum(Quotas(clusters, maxLen, |kbArticles|, true)) <= maxLen
  {
    var initial := Clusters(k, m, feed, kbArticles);
    ClustersPartition(k, m, feed, kbArticles);
    FlattenLength(SavedLists(initial));
    assert SavedCounts(clusters) == Lengths(SavedLists(initial));
    QuotaSumBound(clusters, maxLen, |kbArticles|);
  }

  /** The labels DBSCAN gives a cluster's articles. */
  function EventLabels(cluster: TopicCluster, dbscan: seq<string> -> seq<int>): seq<int>
    requires cluster.articles.Some?
  {
    dbscan(Corpus(cluster.articles.value))
  }

  /** `event_clustering(cluster.get('articles'))` succeeds: the key is
      present, some term survives the vectoriser's pruning, and every label
      reaches an event bucket. */
  predicate EventsOk(cluster: TopicCluster, analyse: string -> set<string>, dbscan: seq<string> -> seq<int>) {
    && cluster.articles.Some?
    && PrunedVocabulary(Corpus(cluster.articles.value), analyse) != {}
    && var labels := EventLabels(cluster, dbscan);
       Resolves(|cluster.articles.value|, labels, EventCount(labels))
  }

  /** The exception `event_clustering` raises for a cluster where it fails:
      TypeError without 'articles', ValueError when the pruned vocabulary is
      empty, IndexError for a label outside the buckets. */
  function EventError(cluster: TopicCluster, analyse: string -> set<string>): Error {
    if cluster.articles.None? then TypeError
    else if PrunedVocabulary(Corpus(cluster.articles.value), analyse) == {} then ValueError
    else IndexError
  }

  /** The cluster with its 'events' key set to its event buckets. */
  function WithEvents(cluster: TopicCluster, analyse: string -> set<string>, dbscan: seq<string> -> seq<int>): TopicCluster
    requires EventsOk(cluster, analyse, dbscan)
  {
    var labels := EventLabels(cluster, dbscan);
    cluster.(events := Some(Buckets(cluster.articles.value, labels, EventCount(labels))))
  }

  /** One pass of the event loop: `event_clustering(cluster.get('articles'))`
      and the cluster with its 'events' set, or the exception raised. */
  method ClusterEventsOf(cluster: TopicCluster, analyse: string -> set<string>, dbscan: seq<string> -> seq<int>)
    returns (r: Result<TopicCluster>)
    ensures r.Ok? <==> EventsOk(cluster, analyse, dbscan)
    ensures r.Ok? ==> r.value == WithEvents(cluster, analyse, dbscan)
    ensures r.Err? ==> r.error == EventError(cluster, analyse)
  {
    if cluster.articles.None? {
      return Err(TypeError);
    }
    var events := EventClusteringOf(cluster.articles.value, analyse, dbscan);
    if events.Err? {
      return Err(events.error);
    }
    r := Ok(cluster.(events := Some(events.value)));
  }

  /** The event loop of `create_new_feed`: each cluster in turn gets its
      event buckets; the first cluster whose event clustering fails stops it
      with that cluster's EventError. */
  method ClusterEvents(clusters: seq<TopicCluster>, analyse: string -> set<string>, dbscan: seq<string> -> seq<int>)
    returns (r: Result<seq<TopicCluster>>)
    ensures r.Ok? <==> forall c :: 0 <= c < |clusters| ==> EventsOk(clusters[c], analyse, dbscan)
    ensures r.Ok? ==> |r.value| == |clusters|
                      && forall c :: 0 <= c < |clusters| ==> r.value[c] == WithEvents(clusters[c], analyse, dbscan)
    ensures r.Err? ==> exists c :: 0 <= c < |clusters| && !EventsOk(clusters[c], analyse, dbscan)
                        && (forall e :: 0 <= e < c ==> EventsOk(clusters[e], analyse, dbscan))
                        && r.error == EventError(clusters[c], analyse)
  {
    var result := clusters;
    for index := 0 to |clusters|
      invariant |result| == |clusters|
      invariant forall c :: 0 <= c < index ==>
                  EventsOk(clusters[c], analyse, dbscan) && result[c] == WithEvents(clusters[c], analyse, dbscan)
    {
      var current := ClusterEventsOf(clusters[index], analyse, dbscan);
      if current.Err? {
        assert !EventsOk(clusters[index], analyse, dbscan) && current.error == EventError(clusters[index], analyse);
        return Err(current.error);
      }
      EventsStep(clusters, result, index, current.value, analyse, dbscan);
      result := result[index := current.value];
    }
    r := Ok(result);
  }

  /** One pass of the event loop keeps its invariant. */
  lemma EventsStep(clusters: seq<TopicCluster>, result: seq<TopicCluster>, index: nat, current: TopicCluster,
                   analyse: string -> set<string>, dbscan: seq<string> -> seq<int>)
    requires index < |clusters| == |result|
    requires forall c :: 0 <= c < index ==>
               EventsOk(clusters[c], analyse, dbscan) && result[c] == WithEvents(clusters[c], analyse, dbscan)
    requires EventsOk(clusters[index], analyse, dbscan) && current == WithEvents(clusters[index], analyse, dbscan)
    ensures forall c :: 0 <= c < index + 1 ==>
              EventsOk(clusters[c], analyse, dbscan)
              && result[index := current][c] == WithEvents(clusters[c], analyse, dbscan)
  {
  }

  /** A cluster's events hold only its articles, and a cluster whose events
      were built has at least four articles. */
  lemma WithEventsWithin(cluster: TopicCluster, analyse: string -> set<string>, dbscan: seq<string> -> seq<int>)
    requires EventsOk(cluster, analyse, dbscan)
    ensures forall ev, a :: ev in WithEvents(cluster, analyse, dbscan).events.value && a in ev ==> a in cluster.articles.value
    ensures |cluster.articles.value| >= 4
  {
    var labels := EventLabels(cluster, dbscan);
    BucketsWithin(cluster.articles.value, labels, EventCount(labels));
    if |cluster.articles.value| <= 3 {
      FewDocumentsPruneAll(Corpus(cluster.articles.value), analyse);
      assert false;
    }
  }

  /** `create_new_feed(k, feed_json, kbs, max_new_feed_length,
      content_of_feed_proportional_kb)` with the feed and boards already
      loaded, the vectorisers' analyser, the fitted KMeans model as a function
      of the corpus, DBSCAN as a function of each cluster's rewritten corpus,
      and the `random()` draws, each below 2^53. */
  method CreateNewFeed(k: nat, feed: seq<Article>, kbs: seq<seq<Article>>, maxLen: nat, proportional: bool,
                       analyse: string -> set<string>, kmeans: seq<string> -> TopicModel,
                       dbscan: seq<string> -> seq<int>, draws: nat -> nat)
    returns (r: Result<seq<Article>>)
    requires KMeansFits(k, FeedCorpus(feed, kbs), analyse) ==>
             WellFormed(kmeans(FeedCorpus(feed, kbs)), k, |FeedCorpus(feed, kbs)|)
    requires forall j :: draws(j) < RandomScale
    ensures !KMeansFits(k, FeedCorpus(feed, kbs), analyse) ==> r == Err(ValueError)
    ensures var m := kmeans(FeedCorpus(feed, kbs));
            KMeansFits(k, FeedCorpus(feed, kbs), analyse) && !AllTopicsAvailable(m, k) ==> r == Err(IndexError)
    ensures proportional && ItemCount(kbs) == 0 && k > 0 ==> r.Err?
    ensures r.Ok? ==> forall a :: a in r.value ==> a in feed
    ensures r.Ok? && proportional ==> |r.value| <= maxLen
    ensures r.Ok? && !proportional ==> |r.value| <= FlatQuota * k
    ensures r.Ok? ==> KMeansFits(k, FeedCorpus(feed, kbs), analyse)
    ensures r.Ok? ==> var m := kmeans(FeedCorpus(feed, kbs));
            forall c :: 0 <= c < k ==> c in m.predictions[..|feed|]
    ensures r.Ok? ==> var m := kmeans(FeedCorpus(feed, kbs));
            forall c :: 0 <= c < k ==> |Members(feed, m.predictions, k, c)| >= 4
  {
    var corpus, kbArticles, nbKbArticles := AssembleCorpus(feed, kbs);
    KbContentsLength(kbs);
    var m := kmeans(corpus);
    var topics := TopicClusteringOf(k, corpus, analyse, m, feed, kbArticles);
    if topics.Err? {
      return Err(topics.error);
    }
    var withEvents := ClusterEvents(topics.value, analyse, dbscan);
    if withEvents.Err? {
      return Err(withEvents.error);
    }
    var clusters := withEvents.value;
    var needed := PlanQuotas(clusters, maxLen, nbKbArticles, proportional);
    if needed.Err? {
      return Err(needed.error);
    }
    r := PopulateNewFeed(clusters, needed.value, draws);
    if r.Ok? {
      PipelineFacts(k, m, feed, kbArticles, clusters, analyse, dbscan);
      FeedFacts(clusters, needed.value, draws, feed);
      if proportional && k > 0 {
        PipelineQuotaBound(k, m, feed, kbArticles, clusters, maxLen);
      } else if !proportional {
        FlatQuotaSum(clusters, maxLen, nbKbArticles);
      }
    }
  }

  /** After the event loop, every cluster had at least four feed articles,
      its events hold only feed articles, and its saved articles are
      untouched. */
  lemma PipelineFacts(k: nat, m: TopicModel, feed: seq<Article>, kbArticles: seq<string>,
                      clusters: seq<TopicCluster>, analyse: string -> set<string>, dbscan: seq<string> -> seq<int>)
    requires WellFormed(m, k, |feed| + |kbArticles|) && AllTopicsAvailable(m, k)
    requires |clusters| == k
    requires forall c :: 0 <= c < k ==> EventsOk(Clusters(k, m, feed, kbArticles)[c], analyse, dbscan)
    requires forall c :: 0 <= c < k ==> clusters[c] == WithEvents(Clusters(k, m, feed, kbArticles)[c], analyse, dbscan)
    ensures forall c :: 0 <= c < k ==> c in m.predictions[..|feed|]
    ensures forall c :: 0 <= c < k ==> |Members(feed, m.predictions, k, c)| >= 4
    ensures EventsFromFeed(clusters, feed, k)
    ensures forall c :: 0 <= c < k ==> clusters[c].savedArticles == Clusters(k, m, feed, kbArticles)[c].savedArticles
  {
    var initial := Clusters(k, m, feed, kbArticles);
    forall c | 0 <= c < k
      ensures c in m.predictions[..|feed|]
      ensures |Members(feed, m.predictions, k, c)| >= 4
      ensures clusters[c].events.Some?
      ensures forall ev, a :: ev in clusters[c].events.value && a in ev ==> a in feed
    {
      ArticlesPresent(k, m, feed, kbArticles, c);
      WithEventsWithin(initial[c], analyse, dbscan);
      assert initial[c].articles.value == Members(feed, m.predictions, k, c);
      var i :| 0 <= i < |feed| && m.predictions[i] == c;
      assert m.predictions[..|feed|][i] == c;
    }
  }

  /** A populated feed has sum(articles_needed) items, each taken from an
      event of the clusters. */
  lemma FeedFacts(clusters: seq<TopicCluster>, articlesNeeded: seq<nat>, draws: nat -> nat, feed: seq<Article>)
    requires EventsFromFeed(clusters, feed, |clusters|)
    ensures var r := Drawn(clusters, Slots(articlesNeeded), draws, Sum(articlesNeeded));
            r.Ok? ==> |r.value| == Sum(articlesNeeded) && forall a :: a in r.value ==> a in feed
  {
    var slots := Slots(articlesNeeded);
    var total := Sum(articlesNeeded);
    DrawnSucceeds(clusters, slots, draws, total);
    var r := Drawn(clusters, slots, draws, total);
    if r.Ok? {
      forall d | 0 <= d < total
        ensures r.value[d] in feed
      {
        DrawInFeed(clusters, slots[d], draws(d), feed);
      }
    }
  }

  /** A successful draw from clusters whose events hold feed articles is a
      feed article. */
  lemma DrawInFeed(clusters: seq<TopicCluster>, i: nat, u: nat, feed: seq<Article>)
    requires EventsFromFeed(clusters, feed, |clusters|) && Pick(clusters, i, u).Ok?
    ensures Pick(clusters, i, u).value in feed
  {
    PickFromEvent(clusters, i, u);
    var ev :| ev in clusters[i].events.value && ev != [] && Pick(clusters, i, u).value == ev[|ev| - 1];
    assert ev[|ev| - 1] in ev;
  }
}
