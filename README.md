# ArticlesClustering: the feed-building core in Dafny

ArticlesClustering builds a new news feed from an existing feed and a set of
knowledge boards, which are lists of articles a user saved. `create_new_feed`
runs in four steps:

1. It clusters the feed articles and the board contents together by topic
   with KMeans, and gives each topic up to three topic terms, the top-ranked
   ones (a numeric term is replaced by the fifth-ranked term, and IndexError is
   raised when that term is missing).
2. For each topic it clusters the topic's feed articles into events with
   DBSCAN. Before vectorising, each of these articles has its content
   rewritten: the text of the leftmost grouped number (`12,345`) is replaced,
   wherever it occurs, by the same text without spaces and commas. Other
   grouped numbers keep their separators unless they contain the matched
   text, which `str.replace` rewrites wherever it occurs (`"1,2 x 1,234"`
   becomes `"12 x 1234"`). Board contents and the topic corpus are never
   rewritten.
3. It works out how many articles to draw from each topic, its quota.
4. It draws that many random events from each topic and appends one article
   from each drawn event.

This project models the list and string logic around the scikit-learn calls
and proves properties of it:

- `NumberRegex` models the rewrite in `event_clustering.py`. `re.search` with the pattern
  `\d{1,3}([' ',',']\d{1,3})+` is a backtracking matcher that tries
  alternatives in the order Python's engine does. It is proved equal to a
  direct description of where a match starts and ends. `str.replace` is a
  left-to-right rewrite of every non-overlapping occurrence, and removing a
  character is proved equal to filtering it out.
- `NumberExamples` holds the rewrite's worked examples.
- `Grouping` models Python's `lst[label].append(x)`: the grouping of a list into
  numbered buckets, negative subscripts included. Event buckets and topic
  assignment both use it.
- `Tfidf` models when fitting scikit-learn's `TfidfVectorizer` raises
  ValueError: no vocabulary term is left after the `max_df` pruning.
- `EventClustering` models `event_clustering`: the corpus loop, the
  vectoriser's refusal of a corpus without terms, and the bucketing by DBSCAN
  label.
- `TopicClustering` models `topic_clustering`: the refusal of a bad cluster
  count or an empty vocabulary, topic-term picking from the centroid ranking,
  and the assignment of feed items and board contents by predicted cluster.
- `NewFeed` models `main.py`: corpus assembly, the per-topic event loop, quota
  planning, `populate_new_feed` and the `create_new_feed` pipeline.
- `Common` holds shared values: articles, the Python exceptions (`IndexError`,
  `TypeError`, `ZeroDivisionError`, `ValueError`) as `Result` errors, sums and
  flattening.

The foreign calls are inputs to the model:
- **The analyser.** The vectorisers' analyser, which tokenises and drops English stop words, is a
  function from a document to its set of terms.
- **KMeans.** When fitting succeeds, KMeans with its TF-IDF vectoriser yields a `TopicModel`: the
  vocabulary, the per-cluster term ranking and one prediction per document, taken as
  the integer label inside the one-element array `predict` returns.
  The pipeline obtains it as a function of the corpus.
- **DBSCAN** is a function from a cluster's rewritten corpus to labels.
- **`random()`** is a stream of integers `u` below 2^53, each standing for
  `u / 2^53`.

Dict entries that may be absent (`'articles'`, `'saved_articles'`,
`'events'`) are `Option` fields. A list that would be empty is an absent key,
as in the source.

Facts about the code that the proofs make explicit:
- **Apostrophes are separators.** The separator class contains the apostrophe as well as the space and the comma.
  Only spaces and commas are removed from the matched text, so apostrophes stay
  (`NumberRegex.StripSeparators`).
- **Every occurrence is rewritten.** `str.replace` rewrites every occurrence of the leftmost match's text, not
  only the match itself (`NumberRegex.NormalizeRewritesLeftmostMatch`). A later number that contains
  the matched text loses those separators too: `NumberExamples.ContainedNormalized` shows
  `"1,2 x 1,234"` → `"12 x 1234"`.
- **The rewrite is not idempotent.** A second grouped number may be left for a later pass:
  `NumberExamples.NormalizeNotIdempotent` shows `"1,2 x 3,4"` → `"12 x 3,4"` → `"12 x 34"`.
- **A match can start inside a longer digit run**: in `"in 2020 15"` the match is `"020 15"`.
- **The appended article is the event's last one.** `populate_new_feed` computes the first article with the greatest
  `published`, but appends `article`, the loop variable left over from the
  scan. That is the event's last element (`NewFeed.DrawArticle`,
  `NewFeed.ScanEvent`).
- **Every topic needs at least four feed articles.**
  - A topic that receives no feed article has no `'articles'` key, and
    `event_clustering(None)` raises TypeError.
  - With `max_df=0.3`, a term is kept only if it occurs in at most 0.3 of the
    documents. A topic with one to three feed articles therefore leaves no term,
    and the vectoriser raises ValueError.
  - A successful run thus implies that every topic received at least four feed
    articles (`NewFeed.CreateNewFeed`).
- **The noise label is a negative subscript.** DBSCAN's noise label `-1` is not a separate case: `events[-1]` is
  Python's last bucket (`Grouping.PySlot`).
- **Errors are Python exceptions:**
  - ZeroDivisionError for a zero knowledge-board count;
  - IndexError for a bad subscript;
  - TypeError for a missing dict entry;
  - ValueError from scikit-learn.

## Model

| member | source | states |
|---|---|---|
| Grouping.PySlot | event_clustering.py:49-50 | a list subscript reaches a slot exactly when -n <= l < n; a negative one counts from the end |
| Grouping.MembersStep | topic_clustering.py:53-55 | appending element i to the list its label reaches extends that one list only |
| Grouping.BucketsStep | event_clustering.py:48-50 | appending article i to `events[labels[i]]` extends exactly that bucket by that article |
| Grouping.BucketsPartition | event_clustering.py:45-50 | when every label reaches a bucket, the buckets together hold every article exactly as often as the input, and their sizes add up to the number of articles |
| Grouping.InMembers | event_clustering.py:48-50 | article i lands in the bucket its label reaches |
| Grouping.MembersInOrder | event_clustering.py:48-50 | within a bucket input order is kept: its k-th element is the article at the k-th position whose label reaches it |
| Grouping.MembersWithin | event_clustering.py:48-50 | a bucket holds only elements of the grouped list |
| Grouping.BucketsWithin | event_clustering.py:48-50 | the buckets hold only elements of the grouped list |
| Tfidf.DocFreq | event_clustering.py:37-38 | a term occurs in at most as many documents as there are |
| Tfidf.InVocabulary | event_clustering.py:37-38 | a term is in the vocabulary exactly when some document contains it, exactly when its document frequency is at least one |
| Tfidf.FewDocumentsPruneAll | event_clustering.py:37-38 | with at most three documents `max_df=0.3` prunes every term |
| Tfidf.RareTermKept | event_clustering.py:37-38 | from four documents on, a term found in a single document survives the pruning |
| NumberRegex.GroupAtCharacterized | event_clustering.py:30 | one `[' ',',']\d{1,3}` iteration matches exactly when a separator and a digit follow, and takes as many digits as there are, up to three |
| NumberRegex.MoreGroupsIsGreedy | event_clustering.py:30 | the `+` repetition, tried in backtracking order, ends where the greedy extension over separator-plus-digits groups ends |
| NumberRegex.LeadAtCharacterized | event_clustering.py:30 | backtracking over the leading `\d{1,3}`: only the whole digit run, when 1 to 3 long, can be followed by a group |
| NumberRegex.MatchAtCharacterized | event_clustering.py:30-32 | a match starts at s exactly when the digit run there has 1 to 3 digits and is followed by a separator and a digit; it ends at the greedy extension (so it may start inside a longer run) |
| NumberRegex.GroupAt | event_clustering.py:30 | an iteration of the group, tried with up to m digits, ends the match at least two characters on and within the text |
| NumberRegex.MoreGroups | event_clustering.py:30 | the `+` repetition ends the match no earlier than where it started and within the text |
| NumberRegex.LeadAt | event_clustering.py:30 | a match from s, with the leading `\d{1,3}` tried from m digits down, covers at least three characters and stays within the text |
| NumberRegex.MatchAt | event_clustering.py:30-31 | a match of the whole pattern at s covers at least three characters and stays within the text |
| NumberRegex.SearchFrom | event_clustering.py:31-32 | `re.search` finds nothing exactly when no position starts a match; otherwise it reports the leftmost start and the end of its match |
| NumberRegex.LeftmostStart | event_clustering.py:31-32 | a position that starts a match with no earlier start is what the search returns |
| NumberRegex.ReplaceAll | event_clustering.py:33-35 | replacing by a text no longer than the pattern never lengthens the text |
| NumberRegex.ReplaceAllWithoutOccurrence | event_clustering.py:35 | `str.replace` leaves text without an occurrence of the pattern unchanged |
| NumberRegex.ReplaceAllFirstOccurrence | event_clustering.py:35 | `str.replace` keeps the text before the first occurrence, writes the replacement, and continues after the occurrence |
| NumberRegex.Without | event_clustering.py:33-34 | the filtered text holds exactly the characters of the input other than c, each as often as before, and is not longer |
| NumberRegex.RemoveCharacter | event_clustering.py:33-34 | `replace(c, '')` is the input with c filtered out, the other characters kept in order |
| NumberRegex.StripSeparators | event_clustering.py:33-34 | the new number is the matched text with spaces, then commas, filtered out and every other character (apostrophes included) kept in order; it holds no space or comma and is not longer |
| NumberRegex.Normalize | event_clustering.py:29-35 | content in which no match starts is returned unchanged; the rewrite never lengthens the content |
| NumberRegex.NoEarlierOccurrence | event_clustering.py:32-35 | the matched text does not occur before the leftmost match, since an earlier occurrence would start a match |
| NumberRegex.NormalizeRewritesLeftmostMatch | event_clustering.py:31-35 | the rewrite keeps the content before the leftmost match, strips the match's separators, and rewrites every later occurrence of the matched text |
| NumberRegex.NormalizeSingle | event_clustering.py:31-35 | when the match's first character does not recur after it, only the match itself changes |
| NumberRegex.ReplaceAllOnce | event_clustering.py:35 | a pattern that occurs once and whose first character does not recur is replaced at that place only |
| NumberExamples.SalesNormalized | event_clustering.py:30-35 | "Sales rose 12,345 units" becomes "Sales rose 12345 units" |
| NumberExamples.OnlyUnchanged | event_clustering.py:30-31 | "only 42 units" has no match and is unchanged |
| NumberExamples.YearSearch | event_clustering.py:31-32 | in "in 2020 15" the leftmost match is "020 15", starting inside the digit run "2020" |
| NumberExamples.YearNormalized | event_clustering.py:30-35 | "in 2020 15" becomes "in 202015" |
| NumberExamples.NormalizeNotIdempotent | event_clustering.py:31-35 | rewriting "1,2 x 3,4" twice differs from rewriting it once |
| NumberExamples.ContainedSearch | event_clustering.py:31-32 | in "1,2 x 1,234" the leftmost match is "1,2", at 0 to 3 |
| NumberExamples.ContainedNormalized | event_clustering.py:30-35 | "1,2 x 1,234" becomes "12 x 1234": the occurrence of "1,2" inside the later number "1,234" is rewritten in the same pass |
| EventClustering.BuildCorpus | event_clustering.py:27-36 | the corpus has one entry per article, in order, each the article's rewritten content; content without a match enters unchanged |
| EventClustering.GroupEvents | event_clustering.py:44-50 | succeeds exactly when every label reaches one of the `n_clusters_` buckets (else IndexError); the buckets are then the label groups and partition the articles |
| EventClustering.EventCount | event_clustering.py:44 | `n_clusters_` is at most the number of labels, and at least one when some label is not -1 |
| EventClustering.EventClusteringOf | event_clustering.py:26-51 | ValueError when no term of the rewritten corpus survives `max_df=0.3`, which always holds for at most three articles; otherwise the grouping of the articles by the labels DBSCAN gives the rewritten corpus, or IndexError exactly when a label reaches no bucket |
| EventClustering.ExactLabelsCount | event_clustering.py:44 | labels that are exactly 0..n-1 give `n_clusters_` == n |
| EventClustering.ExactLabels | event_clustering.py:44-50 | with labels exactly 0..n-1 there are n buckets, article i is in bucket labels[i], and no bucket is empty |
| TopicClustering.PickTopics | topic_clustering.py:37-46 | the topics are the top three ranked terms, a numeric one replaced by the fifth-ranked term; it fails with IndexError exactly when a fallback is needed and the ranking has no fifth entry |
| TopicClustering.TopicsAreTerms | topic_clustering.py:40-45 | three topics when the ranking has three entries; every topic is a vocabulary term; a numeric topic can only be an unchecked numeric fallback |
| TopicClustering.SharedFallback | topic_clustering.py:41-42 | two numeric top terms both become the fifth-ranked term, so topics can repeat |
| TopicClustering.Present | topic_clustering.py:53-55 | a cluster's list is absent exactly when nothing was appended to it, and reads back as the appended items |
| TopicClustering.Clusters | topic_clustering.py:34-61 | exactly k clusters are produced |
| TopicClustering.PickAllTopics | topic_clustering.py:34-47 | k clusters, cluster c with the topics of ranking row c and no articles yet; IndexError exactly when some row needs an absent fallback |
| TopicClustering.FeedStep | topic_clustering.py:53-55 | one get-append-write-back step adds feed item i to cluster pred[i] only |
| TopicClustering.AssignFeed | topic_clustering.py:50-55 | cluster c's `articles` are the feed items predicted to be in c, in feed order, absent when there are none |
| TopicClustering.SavedStep | topic_clustering.py:59-61 | one step adds knowledge-board content i to cluster pred[i + len_feed] only |
| TopicClustering.AssignSaved | topic_clustering.py:57-61 | cluster c's `saved_articles` are the knowledge-board contents whose prediction (offset by the feed length) is c, in order |
| TopicClustering.TopicClusteringOf | topic_clustering.py:24-62 | ValueError when the corpus has no term or k is not between 1 and the number of documents; otherwise IndexError exactly when some topic needs an absent fallback, and Clusters when none does |
| TopicClustering.ClustersPartition | topic_clustering.py:50-61 | nothing is dropped or duplicated: the `articles` lists hold the feed items, and the `saved_articles` lists the knowledge-board contents, each exactly as often as the input |
| NewFeed.AssembleCorpus | main.py:33-43 | the corpus is the feed contents then each board's contents in order; `kb_articles` is the boards' part; `nb_kb_articles` is its length; the corpus size is their sum |
| NewFeed.KbContentsLength | main.py:38-42 | the collected board contents are as many as the boards' items |
| NewFeed.Quota | main.py:96-104 | a proportional quota is the floor of saved * max / nb_kb; a flat quota is 5 when the cluster has saved articles and 0 otherwise |
| NewFeed.PlanQuotas | main.py:94-105 | one quota per cluster in cluster order; ZeroDivisionError exactly when the rule is proportional, nb_kb_articles is 0 and there is a cluster |
| NewFeed.QuotaSumLe | main.py:98-99 | proportional quotas add up to at most floor(sum(saved) * max / nb_kb) |
| NewFeed.QuotaSumBound | main.py:98-99 | when the saved counts add up to nb_kb_articles, proportional quotas add up to at most max_new_feed_length |
| NewFeed.FlatQuotaSum | main.py:100-104 | flat quotas add up to at most 5 per cluster |
| NewFeed.DrawIndex | main.py:143 | the drawn index is the floor of u * len / 2^53 |
| NewFeed.DrawIndexInRange | main.py:143-144 | for a non-empty list every draw is a valid subscript |
| NewFeed.FirstLatest | main.py:145-148 | the index holds the greatest `published`, and every earlier article is strictly older (first of tied maxima) |
| NewFeed.ScanEvent | main.py:145-148 | the scan leaves `last_article` at the first latest article and `article` at the event's last element |
| NewFeed.TieGoesToFirst | main.py:147 | published times [100, 300, 300] select index 1 |
| NewFeed.Pick | main.py:142-149 | a successful draw comes from an existing cluster with a non-empty 'events' list |
| NewFeed.PickCases | main.py:142-145 | a missing cluster or an empty events list is IndexError, a missing `events` key TypeError; with non-empty events the draw succeeds |
| NewFeed.PickFromEvent | main.py:144-149 | a successful draw is the last element of one of the cluster's events |
| NewFeed.DrawArticle | main.py:142-149 | one inner-loop pass yields Pick: the drawn event's last element, or the error the subscripts raise |
| NewFeed.Slots | main.py:140-141 | there are sum(articles_needed) draws, each from a cluster index below len(articles_needed) |
| NewFeed.SlotsAt | main.py:140-141 | draw j of cluster i is draw number sum(articles_needed[..i]) + j |
| NewFeed.SlotOf | main.py:140-141 | every draw number is draw j of some cluster i |
| NewFeed.Drawn | main.py:139-150 | when the first n draws succeed they yield n articles |
| NewFeed.DrawnSucceeds | main.py:139-150 | the first n draws succeed exactly when each does, and item d is draw d |
| NewFeed.DrawnFirstError | main.py:139-150 | a failed run reports the error of its first failing draw |
| NewFeed.DrawnFails | main.py:139-150 | once a draw fails, no later draw changes the outcome |
| NewFeed.PopulateNewFeed | main.py:138-150 | with every `random()` draw below 2^53, `populate_new_feed` is the sequence of draws in topic-major order, stopping at the first failure |
| NewFeed.PopulateSucceeds | main.py:140-149 | the feed is produced exactly when every cluster's draws succeed |
| NewFeed.PopulateOrder | main.py:140-149 | the feed has sum(articles_needed) items, and item sum(articles_needed[..i]) + j is draw j of cluster i |
| NewFeed.FeedFacts | main.py:138-150 | when the events hold feed articles, a populated feed has sum(articles_needed) items, all feed articles |
| NewFeed.ArticlesPresent | topic_clustering.py:53-55 | a cluster has an `articles` key only if some feed item was predicted to be in it, and then holds only feed items |
| NewFeed.ClusterEventsOf | main.py:56-58 | one pass succeeds exactly when the cluster has articles, a term survives the pruning and every label reaches a bucket; it then sets the cluster's events, and otherwise raises TypeError, ValueError or IndexError in that order of checks |
| NewFeed.ClusterEvents | main.py:55-58 | every cluster gets its event buckets; the first failing cluster stops the loop with its error: TypeError (no `articles`), ValueError (no term left) or IndexError (a bad label) |
| NewFeed.WithEventsWithin | event_clustering.py:37-50 | a cluster's events hold only its articles, and a cluster whose events were built has at least four articles |
| NewFeed.PipelineFacts | main.py:49-58 | after the event loop every topic had at least four feed articles, its events hold only feed articles, and its saved articles are untouched |
| NewFeed.PipelineQuotaBound | main.py:94-105 | in the pipeline the saved counts add up to nb_kb_articles, so proportional quotas add up to at most max_new_feed_length |
| NewFeed.CreateNewFeed | main.py:29-108 | with every draw below 2^53: ValueError when KMeans cannot be fitted; IndexError when a topic needs an absent fallback; an error when the rule is proportional with no board items; a produced feed holds only feed articles, at most max_new_feed_length of them (proportional) or 5 per topic (flat), and every topic received at least four feed articles |

## Left out

- **The numeric parts of scikit-learn.** TF-IDF weighting, KMeans fit/predict with the centroid `argsort`, and DBSCAN `fit_predict` are foreign floating-point numerics. Their results are inputs: a `TopicModel` value, and a function from a cluster's corpus to labels.
- **The analyser.** The vectorisers' tokenisation and English stop-word list form the analyser parameter.
- **Failure cases of the library calls.**
  - Modelled: the vectoriser raising ValueError when no term remains, and KMeans raising ValueError for k outside 1..len(corpus).
  - Assumed: apart from these, the calls are taken to return normally.
  - Version: the code calls `get_feature_names`, which scikit-learn removed in 1.2, so an earlier release is assumed. That release accepts `min_df=0`.
  - NumPy: `model.predict` returns a one-element array, which topic_clustering.py:53-55 and :59-61 use as a list subscript. A NumPy release that accepts such an array as an index is assumed; later releases raise TypeError there at the first feed item. Each prediction is modelled as the plain integer label it holds, and the success cases of `TopicClustering.TopicClusteringOf`, `NewFeed.ClusterEvents` and `NewFeed.CreateNewFeed` rest on that assumption.
- **The `max_df` comparison.** It is modelled exactly as `10 * df <= 3 * n`. Float rounding of `0.3 * n` is not modelled.
- **`core_samples_mask`.** The unused mask (event_clustering.py:41-42) has no effect on the result.
- **`random()`.** It is a supplied stream of integers below 2^53. The index `floor(random() * len)` is computed in exact arithmetic. Floating-point rounding of the product is not modelled.
- **The quota division.** The division at main.py:99 is modelled as integer floor division on naturals. Float rounding of `number * max / nb` is not modelled.
- **Unicode digits.** `\d` and `str.isnumeric` are narrowed to ASCII digits.
- **JSON input.** Reading JSON files (main.py:32, 39) is I/O. The feed and the boards are inputs as already loaded item lists.
- **Missing fields.** An item without a `'content'` key (`get` returning None) is not modelled. Articles always carry content and a `published` time.
- **Other I/O.** Timing, console output, the commented-out diagnostics, `print_feed` and the hard-coded entry points are I/O and not part of the core.
- **Negative inputs.** Negative `max_new_feed_length` and negative `articles_needed` entries are not modelled. Both are naturals here.
- **In-place updates.** Lists and dicts that the source updates in place are modelled as values that the loops reassign. This applies to `clusters`, each cluster's lists, `events` and `new_feed`. Aliasing between them is not modelled; no aliasing is observable in the source.
- NewFeed.CreateNewFeed: states the error only for a KMeans that cannot be fitted, an absent topic fallback and a proportional run with no board items. Which error any other failing run raises is stated by the contracts of TopicClusteringOf, ClusterEvents, PlanQuotas and PopulateNewFeed, which it calls in order.
