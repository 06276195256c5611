/**
 * The word corpus filter and shuffle of server/utils/wordUtils.ts. The corpus
 * itself (a static list of word records) is an input sequence.
 */
module Words {
  import Random

  /** A corpus entry: the word, its category and its difficulty. */
  datatype Word = Word(text: string, category: string, difficulty: string)

  /** The predicate `getWords` filters by: both memberships hold. */
  predicate Selected(w: Word, categories: seq<string>, difficulties: seq<string>) {
    w.category in categories && w.difficulty in difficulties
  }

  /**
   * `getWords`: the corpus entries whose category is among `categories` and
   * whose difficulty is among `difficulties`, in corpus order.
   */
  function GetWords(corpus: seq<Word>, categories: seq<string>, difficulties: seq<string>): (r: seq<Word>)
    ensures |r| <= |corpus|
    ensures forall w :: w in r ==> w in corpus && Selected(w, categories, difficulties)
    ensures forall w :: w in corpus && Selected(w, categories, difficulties) ==> w in r
    ensures categories == [] || difficulties == [] ==> r == []
  {
    if corpus == [] then []
    else if Selected(corpus[0], categories, difficulties) then
      [corpus[0]] + GetWords(corpus[1..], categories, difficulties)
    else
      GetWords(corpus[1..], categories, difficulties)
  }

  /** Filtering distributes over concatenation: the result keeps corpus order. */
  lemma {:induction false} GetWordsAppend(a: seq<Word>, b: seq<Word>, categories: seq<string>, difficulties: seq<string>)
    ensures GetWords(a + b, categories, difficulties)
         == GetWords(a, categories, difficulties) + GetWords(b, categories, difficulties)
  {
    if a == [] {
      assert a + b == b;
    } else {
      assert (a + b)[0] == a[0];
      assert (a + b)[1..] == a[1..] + b;
      GetWordsAppend(a[1..], b, categories, difficulties);
    }
  }

  /** When every entry passes the filter, `getWords` returns the corpus unchanged. */
  lemma {:induction false} GetWordsKeepsAll(corpus: seq<Word>, categories: seq<string>, difficulties: seq<string>)
    requires forall i :: 0 <= i < |corpus| ==> Selected(corpus[i], categories, difficulties)
    ensures GetWords(corpus, categories, difficulties) == corpus
  {
    if corpus != [] {
      GetWordsKeepsAll(corpus[1..], categories, difficulties);
    }
  }

  /**
   * `shuffleWords`: sorts a copy of the words with a comparator that answers
   * at random. The order a random comparator produces inside the engine's sort is not modelled;
   * instead each draw picks which remaining element comes next. The input is a
   * value, so, as in the source, which sorts a fresh copy, it is left as it was.
   */
  function ShuffleWords(words: seq<Word>, draws: seq<real>): (r: seq<Word>)
    requires |draws| >= |words| && Random.AllDraws(draws)
    ensures |r| == |words|
    ensures multiset(r) == multiset(words)
    decreases |words|
  {
    if words == [] then []
    else
      var k := Random.PickIndex(draws[0], |words|);
      var rest := words[..k] + words[k + 1..];
      assert words == words[..k] + [words[k]] + words[k + 1..];
      [words[k]] + ShuffleWords(rest, draws[1..])
  }
}
