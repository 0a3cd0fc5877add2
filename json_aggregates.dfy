/**
 * The `make_list` aggregate of the JSON function library: it collects the values of a column
 * into one list, skipping the rows whose value is None.
 */
module JsonAggregates {
  import opened PyValues

  /** The inputs that are not None, in the order they arrived. */
  function NonNone(xs: seq<PyValue>): (r: seq<PyValue>)
    ensures |r| <= |xs|
    ensures forall i :: 0 <= i < |r| ==> !r[i].PNone?
  {
    if xs == [] then []
    else (if xs[0].PNone? then [] else [xs[0]]) + NonNone(xs[1..])
  }

  /** Filtering a concatenation filters each part. */
  lemma {:induction false} NonNoneAppend(xs: seq<PyValue>, ys: seq<PyValue>)
    ensures NonNone(xs + ys) == NonNone(xs) + NonNone(ys)
  {
    if xs == [] {
      assert xs + ys == ys;
    } else {
      assert (xs + ys)[1..] == xs[1..] + ys;
      NonNoneAppend(xs[1..], ys);
    }
  }

  /** Every value that is not None is kept as often as it arrived; None is never kept. */
  lemma {:induction false} NonNoneCounts(xs: seq<PyValue>, x: PyValue)
    ensures multiset(NonNone(xs))[x] == if x.PNone? then 0 else multiset(xs)[x]
  {
    if xs != [] {
      NonNoneCounts(xs[1..], x);
      assert xs == [xs[0]] + xs[1..];
      assert multiset(xs) == multiset([xs[0]]) + multiset(xs[1..]);
    }
  }

  /** Filtering twice is filtering once. */
  lemma {:induction false} NonNoneIdempotent(xs: seq<PyValue>)
    ensures NonNone(NonNone(xs)) == NonNone(xs)
  {
    if xs != [] {
      NonNoneIdempotent(xs[1..]);
      var head := if xs[0].PNone? then [] else [xs[0]];
      NonNoneAppend(head, NonNone(xs[1..]));
      assert NonNone(head) == head by {
        if head != [] {
          assert head[1..] == [];
        }
      }
    }
  }

  /** The aggregator's state: the list collected so far, and (for the proof) every input seen. */
  class MakeList {
    var output: seq<PyValue>
    ghost var inputs: seq<PyValue>

    /** The collected list is exactly the non-None inputs, in arrival order. */
    ghost predicate Valid()
      reads this
    {
      output == NonNone(inputs)
    }

    /** A fresh aggregator has collected nothing. */
    constructor()
      ensures Valid()
      ensures output == [] && inputs == []
    {
      output := [];
      inputs := [];
    }

    /** A None input is skipped; any other input goes at the end of the list. */
    method Update(obj: PyValue)
      requires Valid()
      modifies this
      ensures Valid()
      ensures inputs == old(inputs) + [obj]
      ensures output == if obj.PNone? then old(output) else old(output) + [obj]
    {
      NonNoneAppend(inputs, [obj]);
      assert NonNone([obj]) == if obj.PNone? then [] else [obj];
      inputs := inputs + [obj];
      if obj.PNone? {
        return;
      }
      output := output + [obj];
    }

    /** The list collected so far: the non-None inputs, in arrival order. */
    method Value() returns (r: seq<PyValue>)
      requires Valid()
      ensures r == NonNone(inputs)
      ensures forall i :: 0 <= i < |r| ==> !r[i].PNone?
    {
      r := output;
    }
  }
}
