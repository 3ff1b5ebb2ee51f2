/** Fixed-width windows taken at a fixed step over a sequence, the shape shared
    by the text chunker (width `max_chunk_len`, step three quarters of it) and by
    the embedding batcher (width and step both 20). Everything here mirrors
    Python's `for i in range(0, len(xs), step): xs[i:i+width]`. */
module Windows {

  function Min(a: int, b: int): int
  {
    if a <= b then a else b
  }

  /** Python's `xs[start:start+width]` for a start inside the sequence: the
      slice is clipped at the end of `xs`. */
  function Window<T>(xs: seq<T>, width: nat, start: nat): seq<T>
    requires start <= |xs|
  {
    xs[start..Min(start + width, |xs|)]
  }

  /** The windows at offsets start, start + step, start + 2*step, ... that lie
      before the end of `xs`. */
  function WindowsFrom<T>(xs: seq<T>, width: nat, step: nat, start: nat): seq<seq<T>>
    requires step >= 1
    decreases |xs| - start
  {
    if start >= |xs| then []
    else [Window(xs, width, start)] + WindowsFrom(xs, width, step, start + step)
  }

  function AllWindows<T>(xs: seq<T>, width: nat, step: nat): seq<seq<T>>
    requires step >= 1
  {
    WindowsFrom(xs, width, step, 0)
  }

  /** `c` is the ceiling of n / step: the fewest steps that reach or pass n. */
  predicate IsCeilDiv(c: nat, n: nat, step: nat)
  {
    c * step >= n && (c == 0 || (c - 1) * step < n)
  }

  function CeilDiv(n: nat, d: nat): nat
    requires d >= 1
  {
    (n + d - 1) / d
  }

  /** The ceiling is unique, and `CeilDiv` computes it. */
  lemma CeilDivUnique(c: nat, n: nat, d: nat)
    requires d >= 1
    ensures IsCeilDiv(c, n, d) <==> c == CeilDiv(n, d)
  {
    var q := CeilDiv(n, d);
    var r := (n + d - 1) % d;
    assert n + d - 1 == q * d + r;
    assert IsCeilDiv(q, n, d) by {
      if q > 0 {
        assert (q - 1) * d == q * d - d;
      }
    }
    if IsCeilDiv(c, n, d) {
      if q > 0 {
        assert (c - q + 1) * d == c * d - (q - 1) * d;
        MulPositive(c - q + 1, d);
      }
      if c > 0 {
        assert (q - c + 1) * d == q * d - (c - 1) * d;
        MulPositive(q - c + 1, d);
      }
    }
  }

  lemma MulPositive(a: int, d: nat)
    requires a * d > 0
    ensures a > 0
  {
  }

  /** What is left of `xs` from `start` on. */
  function Remaining(n: nat, start: nat): nat
  {
    if start < n then n - start else 0
  }

  /** The number of windows is the ceiling of the remaining length over the step. */
  lemma {:induction false} WindowsCount<T>(xs: seq<T>, width: nat, step: nat, start: nat)
    requires step >= 1
    ensures IsCeilDiv(|WindowsFrom(xs, width, step, start)|, Remaining(|xs|, start), step)
    decreases |xs| - start
  {
    if start < |xs| {
      var c' := |WindowsFrom(xs, width, step, start + step)|;
      WindowsCount(xs, width, step, start + step);
      if c' > 0 {
        assert (c' - 1) * step == c' * step - step;
        assert Remaining(|xs|, start + step) > 0;
      }
      assert (c' + 1) * step == c' * step + step;
    }
  }

  /** Window k starts at start + k*step, inside the sequence, and is exactly the
      clipped slice there. */
  lemma {:induction false} WindowsAt<T>(xs: seq<T>, width: nat, step: nat, start: nat, k: nat)
    requires step >= 1
    requires k < |WindowsFrom(xs, width, step, start)|
    ensures start + k * step < |xs|
    ensures WindowsFrom(xs, width, step, start)[k] == Window(xs, width, start + k * step)
    decreases k
  {
    if k > 0 {
      WindowsAt(xs, width, step, start + step, k - 1);
      assert start + step + (k - 1) * step == start + k * step;
    }
  }

  /** Every window is non-empty and at most `width` long. */
  lemma WindowLengths<T>(xs: seq<T>, width: nat, step: nat, start: nat, k: nat)
    requires step >= 1 && width >= 1
    requires k < |WindowsFrom(xs, width, step, start)|
    ensures 1 <= |WindowsFrom(xs, width, step, start)[k]| <= width
  {
    WindowsAt(xs, width, step, start, k);
  }

  /** When windows are at least a step wide, the last one ends exactly at the
      end of `xs`. */
  lemma LastWindowEnds<T>(xs: seq<T>, width: nat, step: nat)
    requires 1 <= step <= width
    requires |xs| > 0
    ensures var ws := AllWindows(xs, width, step);
            |ws| > 0 && (|ws| - 1) * step + |ws[|ws| - 1]| == |xs|
  {
    var ws := AllWindows(xs, width, step);
    WindowsCount(xs, width, step, 0);
    var c := |ws|;
    WindowsAt(xs, width, step, 0, c - 1);
    assert (c - 1) * step + step == c * step;
  }

  /** Reassembles overlapping windows: the first `step` items of every window
      but the last, then the whole last window. */
  function Stitch<T>(ws: seq<seq<T>>, step: nat): seq<T>
  {
    if |ws| == 0 then []
    else if |ws| == 1 then ws[0]
    else ws[0][..Min(step, |ws[0]|)] + Stitch(ws[1..], step)
  }

  function Flatten<T>(ws: seq<seq<T>>): seq<T>
  {
    if |ws| == 0 then [] else ws[0] + Flatten(ws[1..])
  }

  /** Stitching the windows back together gives the sequence they were cut
      from, provided no item falls between two windows (step <= width). */
  lemma {:induction false} StitchWindows<T>(xs: seq<T>, width: nat, step: nat, start: nat)
    requires 1 <= step <= width
    requires start <= |xs|
    ensures Stitch(WindowsFrom(xs, width, step, start), step) == xs[start..]
    decreases |xs| - start
  {
    var ws := WindowsFrom(xs, width, step, start);
    if start < |xs| {
      var rest := WindowsFrom(xs, width, step, start + step);
      assert ws[1..] == rest;
      if start + step >= |xs| {
        assert rest == [];
      } else {
        StitchWindows(xs, width, step, start + step);
        var e := Min(start + width, |xs|);
        assert start + step <= e;
        assert ws[0] == xs[start..e];
        assert Min(step, |ws[0]|) == step;
        assert ws[0][..step] == xs[start..start + step];
        assert xs[start..] == xs[start..start + step] + xs[start + step..];
      }
    }
  }

  /** With step equal to width the windows tile `xs`: they concatenate back to it. */
  lemma {:induction false} FlattenWindows<T>(xs: seq<T>, step: nat, start: nat)
    requires step >= 1
    requires start <= |xs|
    ensures Flatten(WindowsFrom(xs, step, step, start)) == xs[start..]
    decreases |xs| - start
  {
    var ws := WindowsFrom(xs, step, step, start);
    if start < |xs| {
      assert ws[1..] == WindowsFrom(xs, step, step, start + step);
      if start + step >= |xs| {
        assert Window(xs, step, start) == xs[start..];
      } else {
        FlattenWindows(xs, step, start + step);
        assert xs[start..] == xs[start..start + step] + xs[start + step..];
      }
    }
  }

  /** Consecutive windows overlap: what window k holds past its first `step`
      items is the start of window k+1, and that overlap is width - step long
      unless the end of `xs` cuts it short. */
  lemma WindowsOverlap<T>(xs: seq<T>, width: nat, step: nat, k: nat)
    requires 1 <= step <= width
    requires k + 1 < |AllWindows(xs, width, step)|
    ensures var ws := AllWindows(xs, width, step);
            && step <= |ws[k]| <= step + |ws[k + 1]|
            && |ws[k]| - step == Min(width - step, |xs| - (k + 1) * step)
            && ws[k][step..] == ws[k + 1][..|ws[k]| - step]
  {
    var ws := AllWindows(xs, width, step);
    WindowsAt(xs, width, step, 0, k);
    WindowsAt(xs, width, step, 0, k + 1);
    var a := k * step;
    var b := (k + 1) * step;
    assert b == a + step;
    var e := Min(a + width, |xs|);
    assert ws[k] == xs[a..e];
    assert ws[k + 1] == xs[b..Min(b + width, |xs|)];
    assert ws[k][step..] == xs[b..e];
    assert ws[k + 1][..e - b] == xs[b..e];
  }
}
