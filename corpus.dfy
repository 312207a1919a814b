/**
 * The corpus kept in `_books_content`: every loaded document's text joined
 * with a blank line (`"\n\n".join(...)`) and cut to its first 10,000
 * characters (`[:10000]`).
 */
module Corpus {
  import opened Text

  const Separator: string := "\n\n"

  /** The character budget of the stored corpus. */
  const MaxCorpusChars: nat := 10000

  /** Python's `"\n\n".join(docs)`. */
  function Join(docs: seq<string>): (r: string)
    ensures |docs| > 0 ==> docs[0] <= r
  {
    if |docs| == 0 then ""
    else if |docs| == 1 then docs[0]
    else docs[0] + Separator + Join(docs[1..])
  }

  /** Python's `s[:n]` for a non-negative `n`. */
  function Prefix(s: string, n: nat): (r: string)
    ensures r <= s
    ensures |r| == if |s| < n then |s| else n
  {
    if |s| <= n then s else s[..n]
  }

  /** The stored corpus for a non-empty list of loaded documents. */
  function LoadCorpus(docs: seq<string>): (r: string)
    ensures r <= Join(docs)
    ensures |r| <= MaxCorpusChars
    ensures |r| == MaxCorpusChars || r == Join(docs)
  {
    Prefix(Join(docs), MaxCorpusChars)
  }

  /** Sum of the document lengths. */
  function TotalLength(docs: seq<string>): nat
  {
    if |docs| == 0 then 0 else |docs[0]| + TotalLength(docs[1..])
  }

  /** The join adds exactly one two-character separator between neighbours. */
  lemma {:induction false} JoinLength(docs: seq<string>)
    requires |docs| > 0
    ensures |Join(docs)| == TotalLength(docs) + |Separator| * (|docs| - 1)
  {
    if |docs| > 1 {
      JoinLength(docs[1..]);
    }
  }

  /** Every document's text appears verbatim in the join. */
  lemma {:induction false} JoinContainsEach(docs: seq<string>, i: nat)
    requires i < |docs|
    ensures Contains(Join(docs), docs[i])
  {
    if |docs| == 1 {
      ContainsMiddle("", docs[0], "");
      assert "" + docs[0] + "" == Join(docs);
    } else if i == 0 {
      ContainsMiddle("", docs[0], Separator + Join(docs[1..]));
      assert "" + docs[0] + (Separator + Join(docs[1..])) == Join(docs);
    } else {
      JoinContainsEach(docs[1..], i - 1);
      ContainsWithin(Join(docs[1..]), docs[i], docs[0] + Separator, "");
      assert (docs[0] + Separator) + Join(docs[1..]) + "" == Join(docs);
    }
  }

  /** The corpus begins with the first document, up to the budget. */
  lemma {:induction false} CorpusStartsWithFirstDocument(docs: seq<string>)
    requires |docs| > 0
    ensures Prefix(docs[0], MaxCorpusChars) <= LoadCorpus(docs)
  {
    var j := Join(docs);
    assert docs[0] <= j;
    var n := |Prefix(docs[0], MaxCorpusChars)|;
    assert n <= |LoadCorpus(docs)|;
    forall k | 0 <= k < n
      ensures Prefix(docs[0], MaxCorpusChars)[k] == LoadCorpus(docs)[k]
    {
      assert Prefix(docs[0], MaxCorpusChars)[k] == docs[0][k] == j[k];
    }
  }

  /** A single 20,000-character file is cut to exactly 10,000 characters. */
  lemma LongSingleFileIsCut()
    ensures |LoadCorpus([seq(20000, _ => 'x')])| == 10000
  {
    var doc := seq(20000, _ => 'x');
    assert Join([doc]) == doc;
  }
}
