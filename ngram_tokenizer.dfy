/**
 * The character n-gram tokenizer of MyCountVectorizer.
 *
 * After white space is normalised, the tokenizer emits, for every size n
 * from min_n up to min(max_n, length of the text), every contiguous
 * substring of that size, by increasing start offset.  The specification
 * below describes that output completely: which substrings (SizesAt and
 * SizesAreNGrams), how many (SizesLength and CountClosedForm) and in which
 * order (PositionOrder).
 */
module NGramTokenizer {

  function Min(a: int, b: int): int
  {
    if a <= b then a else b
  }

  /** `s` is the n-gram of `text` of size `n` that starts at offset `i`. */
  predicate IsNGramAt(text: string, s: string, n: int, i: int)
  {
    0 <= n && 0 <= i && i + n <= |text| && s == text[i..i + n]
  }

  /** The n-grams of size `n` of `text`, by increasing start offset. */
  function OfSize(text: string, n: nat): seq<string>
  {
    if n <= |text| then
      seq(|text| - n + 1, i requires 0 <= i <= |text| - n => text[i..i + n])
    else
      []
  }

  /** The n-grams of every size from `lo` up to `hi`, smaller sizes first. */
  function Sizes(text: string, lo: nat, hi: int): seq<string>
    decreases hi - lo
  {
    if hi < lo then [] else Sizes(text, lo, hi - 1) + OfSize(text, hi)
  }

  /** What the tokenizer emits for an already normalised text. */
  function NGrams(text: string, minN: nat, maxN: int): seq<string>
  {
    Sizes(text, minN, Min(maxN, |text|))
  }

  /** The sum, over sizes n from `lo` to `hi`, of `len - n + 1`. */
  function Count(len: int, lo: int, hi: int): int
    decreases hi - lo
  {
    if hi < lo then 0 else Count(len, lo, hi - 1) + (len - hi + 1)
  }

  /** The index at which the n-gram of size `n` at offset `i` is emitted. */
  function Position(len: int, lo: int, n: int, i: int): int
  {
    Count(len, lo, n - 1) + i
  }

  /**
   * The tokenizer itself (vectorize.py, MyCountVectorizer._char_ngrams).
   * `whiteSpaces` stands for the library's white-space normalisation, which
   * rewrites the document before it is cut into n-grams.
   */
  method CharNGrams(doc: string, minN: nat, maxN: int, whiteSpaces: string -> string)
    returns (ngrams: seq<string>)
    ensures ngrams == NGrams(whiteSpaces(doc), minN, maxN)
  {
    var text := whiteSpaces(doc);
    var textLen := |text|;
    ngrams := [];
    var stop := Min(maxN + 1, textLen + 1);
    var n := minN;
    while n < stop
      invariant minN <= n
      invariant n == minN || n <= stop
      invariant ngrams == Sizes(text, minN, n - 1)
    {
      var i := 0;
      while i < textLen - n + 1
        invariant 0 <= i <= textLen - n + 1
        invariant ngrams == Sizes(text, minN, n - 1) + OfSize(text, n)[..i]
      {
        assert OfSize(text, n)[..i + 1] == OfSize(text, n)[..i] + [text[i..i + n]];
        ngrams := ngrams + [text[i..i + n]];
        i := i + 1;
      }
      assert OfSize(text, n)[..i] == OfSize(text, n);
      n := n + 1;
    }
  }

  /** The output holds as many n-grams as Count says. */
  lemma {:induction false} SizesLength(text: string, lo: nat, hi: int)
    requires hi <= |text|
    ensures |Sizes(text, lo, hi)| == Count(|text|, lo, hi)
    decreases hi - lo
  {
    if lo <= hi {
      SizesLength(text, lo, hi - 1);
    }
  }

  /** Count in closed form: an arithmetic series. */
  lemma {:induction false} CountClosedForm(len: int, lo: int, hi: int)
    requires lo <= hi + 1
    ensures 2 * Count(len, lo, hi) == (hi - lo + 1) * (2 * len - lo - hi + 2)
    decreases hi - lo
  {
    if lo <= hi {
      CountClosedForm(len, lo, hi - 1);
      calc {
        2 * Count(len, lo, hi);
        2 * Count(len, lo, hi - 1) + 2 * (len - hi + 1);
        (hi - lo) * (2 * len - lo - hi + 3) + 2 * (len - hi + 1);
        { assert (hi - lo) * (2 * len - lo - hi + 3)
            == (hi - lo) * (2 * len - lo - hi + 2) + (hi - lo); }
        (hi - lo + 1) * (2 * len - lo - hi + 2);
      }
    }
  }

  /**
   * The number of n-grams emitted: the sum over n from min_n to
   * min(max_n, len) of len - n + 1; none at all for a text shorter than min_n.
   */
  lemma NGramsLength(text: string, minN: nat, maxN: int)
    ensures |NGrams(text, minN, maxN)| == Count(|text|, minN, Min(maxN, |text|))
    ensures |text| < minN ==> NGrams(text, minN, maxN) == []
  {
    SizesLength(text, minN, Min(maxN, |text|));
  }

  /** Count grows with its upper bound while the sizes stay within the text. */
  lemma {:induction false} CountMonotone(len: int, lo: int, a: int, b: int)
    requires lo - 1 <= a <= b <= len + 1
    ensures Count(len, lo, a) <= Count(len, lo, b)
    decreases b - a
  {
    if a < b {
      CountMonotone(len, lo, a, b - 1);
    }
  }

  /**
   * Completeness and content: the n-gram of every admissible size and offset
   * is emitted, at its Position.
   */
  lemma {:induction false} SizesAt(text: string, lo: nat, hi: int, n: int, i: int)
    requires hi <= |text|
    requires lo <= n <= hi && 0 <= i <= |text| - n
    ensures && 0 <= Position(|text|, lo, n, i) < |Sizes(text, lo, hi)|
            && Sizes(text, lo, hi)[Position(|text|, lo, n, i)] == text[i..i + n]
    decreases hi - lo
  {
    var prev := Sizes(text, lo, hi - 1);
    assert Sizes(text, lo, hi) == prev + OfSize(text, hi);
    SizesLength(text, lo, hi - 1);
    if n < hi {
      SizesAt(text, lo, hi - 1, n, i);
      CountMonotone(|text|, lo, n, hi - 1);
    } else {
      CountMonotone(|text|, lo, lo - 1, n - 1);
      assert Position(|text|, lo, n, i) == |prev| + i;
    }
  }

  /**
   * Soundness: every emitted string is the n-gram of some admissible size and
   * offset, and it stands exactly at that pair's Position.
   */
  lemma {:induction false} SizesAreNGrams(text: string, lo: nat, hi: int, k: int)
    requires hi <= |text|
    requires 0 <= k < |Sizes(text, lo, hi)|
    ensures exists n, i :: lo <= n <= hi && k == Position(|text|, lo, n, i)
                           && IsNGramAt(text, Sizes(text, lo, hi)[k], n, i)
    decreases hi - lo
  {
    var prev := Sizes(text, lo, hi - 1);
    SizesLength(text, lo, hi - 1);
    if k < |prev| {
      SizesAreNGrams(text, lo, hi - 1, k);
      var n, i :| lo <= n <= hi - 1 && k == Position(|text|, lo, n, i) && IsNGramAt(text, prev[k], n, i);
      assert Sizes(text, lo, hi)[k] == prev[k];
    } else {
      var i := k - |prev|;
      assert Sizes(text, lo, hi)[k] == OfSize(text, hi)[i];
      assert IsNGramAt(text, Sizes(text, lo, hi)[k], hi, i);
    }
  }

  /**
   * Order: all n-grams of one size come before those of a larger size, and
   * within one size they follow increasing start offset.
   */
  lemma PositionOrder(len: int, lo: int, n1: int, i1: int, n2: int, i2: int)
    requires lo <= n1 && 0 <= i1 <= len - n1
    requires lo <= n2 && 0 <= i2 <= len - n2
    requires n1 < n2 || (n1 == n2 && i1 < i2)
    ensures Position(len, lo, n1, i1) < Position(len, lo, n2, i2)
  {
    if n1 < n2 {
      CountMonotone(len, lo, n1, n2 - 1);
    }
  }

  /** The tokenizer's output, element by element, for sizes from min_n up. */
  lemma NGramsAt(text: string, minN: nat, maxN: int, n: int, i: int)
    requires minN <= n <= maxN && 0 <= i <= |text| - n
    ensures && 0 <= Position(|text|, minN, n, i) < |NGrams(text, minN, maxN)|
            && NGrams(text, minN, maxN)[Position(|text|, minN, n, i)] == text[i..i + n]
  {
    SizesAt(text, minN, Min(maxN, |text|), n, i);
  }

  /** Every string the tokenizer emits is an n-gram of an admissible size. */
  lemma NGramsAreSubstrings(text: string, minN: nat, maxN: int, k: int)
    requires 0 <= k < |NGrams(text, minN, maxN)|
    ensures exists n, i :: minN <= n <= Min(maxN, |text|) && k == Position(|text|, minN, n, i)
                           && IsNGramAt(text, NGrams(text, minN, maxN)[k], n, i)
  {
    SizesAreNGrams(text, minN, Min(maxN, |text|), k);
  }
}
