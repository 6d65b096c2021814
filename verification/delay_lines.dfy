/**
 * Circular delay lines, the storage behind the delay, chorus and reverb
 * effects: a buffer of cells and a write cursor. Each sample reads the
 * cell under the cursor (or a cell behind it), overwrites the cell under
 * the cursor and moves the cursor one step forward, wrapping at the end.
 */
module DelayLines {

  /** A line of `n` silent cells. */
  function Zeros(n: nat): (z: seq<real>)
    ensures |z| == n
    ensures forall k :: 0 <= k < n ==> z[k] == 0.0
  {
    seq(n, _ => 0.0)
  }

  predicate AllZero(s: seq<real>)
  {
    forall k :: 0 <= k < |s| ==> s[k] == 0.0
  }

  /** A silent sample ahead of silence is silence. */
  lemma SilenceAhead(x: real, s: seq<real>)
    requires x == 0.0 && AllZero(s)
    ensures AllZero([x] + s)
  {
    forall k | 0 <= k < |[x] + s|
      ensures ([x] + s)[k] == 0.0
    {
      if k > 0 {
        assert ([x] + s)[k] == s[k - 1];
      }
    }
  }

  /** `(position + 1) % length`: the cursor after one sample. */
  function Advance(position: nat, length: nat): (p: nat)
    requires position < length
    ensures p < length
    ensures position + 1 < length ==> p == position + 1
    ensures position + 1 == length ==> p == 0
  {
    (position + 1) % length
  }

  /** `after` is `before` with at most the cell at `position` replaced. */
  predicate OneCellWritten(before: seq<real>, after: seq<real>, position: nat)
  {
    && |after| == |before|
    && forall k :: 0 <= k < |before| && k != position ==> after[k] == before[k]
  }

  /**
   * The cells in the order they will come back out: the cell under the
   * cursor is the oldest sample, the one just before the cursor the newest.
   */
  function Pending(buffer: seq<real>, position: nat): (q: seq<real>)
    requires position < |buffer|
    ensures |q| == |buffer|
    ensures q[0] == buffer[position]
  {
    buffer[position..] + buffer[..position]
  }

  /** Reading `k` cells ahead of the cursor, wrapping around. */
  lemma PendingAt(buffer: seq<real>, position: nat, k: nat)
    requires position < |buffer| && k < |buffer|
    ensures Pending(buffer, position)[k] == buffer[(position + k) % |buffer|]
  {
    var n := |buffer|;
    if position + k < n {
      assert (position + k) % n == position + k;
    } else {
      assert (position + k) % n == position + k - n;
    }
  }

  /**
   * Overwriting the cell under the cursor and advancing the cursor is a
   * first-in first-out step: the oldest pending sample leaves and the
   * written value joins at the back.
   */
  lemma WriteShiftsPending(buffer: seq<real>, position: nat, v: real)
    requires position < |buffer|
    ensures Pending(buffer[position := v], Advance(position, |buffer|))
            == Pending(buffer, position)[1..] + [v]
  {
    var n := |buffer|;
    var written := buffer[position := v];
    var q := Pending(buffer, position);
    assert q[1..] == buffer[position + 1..] + buffer[..position];
    if position + 1 < n {
      assert written[position + 1..] == buffer[position + 1..];
      assert written[..position + 1] == buffer[..position] + [v];
    } else {
      assert buffer[position + 1..] == [];
      assert written == buffer[..position] + [v];
    }
  }

  /** A line whose cells are all zero has only zeros pending. */
  lemma PendingOfZeros(buffer: seq<real>, position: nat)
    requires position < |buffer| && AllZero(buffer)
    ensures AllZero(Pending(buffer, position))
  {
    var q := Pending(buffer, position);
    forall k | 0 <= k < |q|
      ensures q[k] == 0.0
    {
      PendingAt(buffer, position, k);
    }
  }

  /** Writing zero into a silent line keeps it silent. */
  lemma WriteZeroKeepsSilence(buffer: seq<real>, position: nat)
    requires position < |buffer| && AllZero(buffer)
    ensures AllZero(buffer[position := 0.0])
  {}
}
