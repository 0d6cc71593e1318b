/**
 * Identifier generation. The stores of the system key their entries by a
 * random version-4 UUID; the model keeps the one property the stores rely
 * on: the new identifier is not yet a key.
 */
module Uuid {

  /** A string of `n` copies of 'x'. */
  function Filler(n: nat): (s: string)
    ensures |s| == n
  {
    seq(n, _ => 'x')
  }

  /** An identifier that is not a key of `m`: one longer than every key. */
  method FreshId<V>(m: map<string, V>) returns (id: string)
    ensures id !in m
  {
    var longest: nat := 0;
    var pending := m.Keys;
    while pending != {}
      invariant pending <= m.Keys
      invariant forall k :: k in m && k !in pending ==> |k| <= longest
      decreases |pending|
    {
      var k :| k in pending;
      if |k| > longest {
        longest := |k|;
      }
      pending := pending - {k};
    }
    id := Filler(longest + 1);
  }
}
