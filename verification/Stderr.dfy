/** The bounded record of what a worker has written to its standard error. */
module Stderr {
  import opened Common

  const CAP: nat := 65536
  const KEEP: nat := 32768
  const CHUNK: nat := 4096

  predicate Suffix(a: Bytes, b: Bytes)
  {
    |a| <= |b| && b[|b| - |a|..] == a
  }

  lemma SuffixGrows(a: Bytes, b: Bytes, c: Bytes)
    requires Suffix(a, b)
    ensures Suffix(a + c, b + c)
  {
    assert (b + c)[|b + c| - |a + c|..] == a + c;
  }

  lemma SuffixOfSuffix(a: Bytes, b: Bytes, k: nat)
    requires Suffix(a, b) && k <= |a|
    ensures Suffix(a[|a| - k..], b)
  {
    assert b[|b| - k..] == a[|a| - k..];
  }

  class Capture {
    var text: Bytes
    /** Everything written so far. */
    ghost var all: Bytes

    /** The record is the end of the output, never too long, and all of it while that is short. */
    ghost predicate Valid()
      reads this
    {
      Suffix(text, all) && |text| <= 65536 && (|text| < 32768 ==> text == all)
    }

    constructor ()
      ensures Valid() && text == [] && all == []
    {
      text, all := [], [];
    }

    method Append(chunk: Bytes)
      requires Valid() && |chunk| <= CHUNK
      modifies this
      ensures Valid() && all == old(all) + chunk
      ensures Suffix(chunk, text)
      ensures |text| >= 32768 || text == all
    {
      if |chunk| > 0 {
        if |text| + |chunk| > CAP {
          var kept := text;
          if |kept| > KEEP {
            SuffixOfSuffix(text, all, KEEP);
            kept := kept[|kept| - KEEP..];
          }
          text := kept;
        }
        SuffixGrows(text, all, chunk);
        text, all := text + chunk, all + chunk;
      } else {
        assert all == all + chunk;
      }
    }

    /** Reads chunk after chunk until the pipe closes. */
    method Drain(chunks: seq<Bytes>)
      requires Valid() && forall i :: 0 <= i < |chunks| ==> |chunks[i]| <= CHUNK
      modifies this
      ensures Valid() && all == old(all) + Flatten(chunks)
    {
      hide Suffix;
      var i := 0;
      assert old(all) + [] == old(all);
      while i < |chunks|
        invariant i <= |chunks| && Valid() && all == old(all) + Flatten(chunks[..i])
      {
        Append(chunks[i]);
        assert chunks[..i + 1][..i] == chunks[..i];
        ConcatAssoc(old(all), Flatten(chunks[..i]), chunks[i]);
        i := i + 1;
      }
      assert chunks[..i] == chunks;
    }
  }

  function Flatten(chunks: seq<Bytes>): Bytes
  {
    if chunks == [] then [] else Flatten(chunks[..|chunks| - 1]) + chunks[|chunks| - 1]
  }
}
