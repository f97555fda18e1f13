/** Sequence helpers shared by the pagination models. */
module Seqs {

  /** All pages concatenated in order. */
  function Concat<T>(pages: seq<seq<T>>): seq<T> {
    if pages == [] then [] else pages[0] + Concat(pages[1..])
  }

  /** Appending a run of pages is appending its first page, then the rest. */
  lemma ConcatCons<T>(prefix: seq<T>, pages: seq<seq<T>>)
    requires pages != []
    ensures prefix + Concat(pages) == (prefix + pages[0]) + Concat(pages[1..])
  {
    assert Concat(pages) == pages[0] + Concat(pages[1..]);
  }
}
