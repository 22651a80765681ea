/** Ranges of frame sequence numbers, and lists of them that tile 1..n. */
module Ranges {

  datatype Range = Range(oldest: nat, newest: nat)

  predicate WellFormed(r: Range) { 1 <= r.oldest <= r.newest }

  /** `rs` covers 1..upTo in order, without gap or overlap. */
  predicate Tiles(rs: seq<Range>, upTo: nat)
    decreases |rs|
  {
    if rs == [] then upTo == 0
    else
      var r := rs[|rs| - 1];
      WellFormed(r) && r.newest == upTo && Tiles(rs[..|rs| - 1], r.oldest - 1)
  }

  lemma TilesSnoc(rs: seq<Range>, upTo: nat, r: Range)
    requires Tiles(rs, upTo) && r.oldest == upTo + 1 && r.oldest <= r.newest
    ensures Tiles(rs + [r], r.newest)
  {
    assert (rs + [r])[..|rs|] == rs;
  }

  /** Every prefix of a tiling tiles. */
  lemma {:induction false} TilesPrefix(rs: seq<Range>, upTo: nat, n: nat) returns (m: nat)
    requires Tiles(rs, upTo) && n <= |rs|
    ensures Tiles(rs[..n], m) && m <= upTo
    decreases |rs|
  {
    if n == |rs| {
      assert rs[..n] == rs;
      m := upTo;
    } else {
      var init := rs[..|rs| - 1];
      m := TilesPrefix(init, rs[|rs| - 1].oldest - 1, n);
      assert init[..n] == rs[..n];
    }
  }
}
