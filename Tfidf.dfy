/** When scikit-learn's TfidfVectorizer fitting raises ValueError: it builds the
    vocabulary from the terms its analyser (tokenisation with the English
    stop-word list) finds in each document, drops the terms that occur in more
    than `max_df` of the documents, and raises when no term remains. The
    analyser is a parameter; the weights it computes are not represented. */
module Tfidf {

  /** The terms found in any of the documents. */
  function Vocabulary(docs: seq<string>, analyse: string -> set<string>): set<string> {
    if docs == [] then {} else Vocabulary(docs[..|docs| - 1], analyse) + analyse(docs[|docs| - 1])
  }

  /** The number of documents in which term t occurs. */
  function DocFreq(docs: seq<string>, analyse: string -> set<string>, t: string): (n: nat)
    ensures n <= |docs|
  {
    if docs == [] then 0
    else DocFreq(docs[..|docs| - 1], analyse, t) + (if t in analyse(docs[|docs| - 1]) then 1 else 0)
  }

  /** `max_df=0.3`: a term is kept when it occurs in at most 0.3 * len(docs)
      documents (`min_df=0` removes nothing). */
  predicate WithinMaxDf(docs: seq<string>, analyse: string -> set<string>, t: string) {
    10 * DocFreq(docs, analyse, t) <= 3 * |docs|
  }

  /** The vocabulary of event clustering's vectoriser after the `max_df` pruning. */
  function PrunedVocabulary(docs: seq<string>, analyse: string -> set<string>): set<string> {
    set t | t in Vocabulary(docs, analyse) && WithinMaxDf(docs, analyse, t)
  }

  /** A term is in the vocabulary exactly when some document contains it. */
  lemma {:induction false} InVocabulary(docs: seq<string>, analyse: string -> set<string>, t: string)
    ensures t in Vocabulary(docs, analyse) <==> DocFreq(docs, analyse, t) >= 1
    ensures t in Vocabulary(docs, analyse) <==> exists i :: 0 <= i < |docs| && t in analyse(docs[i])
  {
    if docs != [] {
      var n := |docs| - 1;
      InVocabulary(docs[..n], analyse, t);
      if t in Vocabulary(docs[..n], analyse) {
        var i :| 0 <= i < n && t in analyse(docs[..n][i]);
        assert t in analyse(docs[i]);
      }
      if exists i :: 0 <= i < |docs| && t in analyse(docs[i]) {
        var i :| 0 <= i < |docs| && t in analyse(docs[i]);
        if i < n {
          assert t in analyse(docs[..n][i]);
        }
      }
    }
  }

  /** With at most three documents, 0.3 * len(docs) is below one, so every
      term is dropped and fitting raises ValueError. */
  lemma FewDocumentsPruneAll(docs: seq<string>, analyse: string -> set<string>)
    requires |docs| <= 3
    ensures PrunedVocabulary(docs, analyse) == {}
  {
    forall t | t in Vocabulary(docs, analyse)
      ensures !WithinMaxDf(docs, analyse, t)
    {
      InVocabulary(docs, analyse, t);
    }
  }

  /** From four documents on, a term found in one document only is kept. */
  lemma RareTermKept(docs: seq<string>, analyse: string -> set<string>, t: string)
    requires |docs| >= 4 && DocFreq(docs, analyse, t) == 1
    ensures t in PrunedVocabulary(docs, analyse)
  {
    InVocabulary(docs, analyse, t);
  }
}
