/**
  The request windows of the browser's analysis loop: the selection is cut
  into consecutive slices `files.slice(i, i + size)` for i = 0, size, 2 * size, ...
 */
module Batching {

  function Min(a: int, b: int): int {
    if a < b then a else b
  }

  /** The windows that start at `from`, `from + size`, ... and lie before the end of `s`. */
  function WindowsFrom<T>(s: seq<T>, size: nat, from: nat): seq<seq<T>>
    requires size > 0
    decreases |s| - from
  {
    if from >= |s| then [] else [s[from..Min(from + size, |s|)]] + WindowsFrom(s, size, from + size)
  }

  function Windows<T>(s: seq<T>, size: nat): seq<seq<T>>
    requires size > 0
  {
    WindowsFrom(s, size, 0)
  }

  function Flatten<T>(ws: seq<seq<T>>): seq<T> {
    if ws == [] then [] else ws[0] + Flatten(ws[1..])
  }

  /** Every window holds between one and `size` elements. */
  lemma {:induction false} WindowsFromSizes<T>(s: seq<T>, size: nat, from: nat)
    requires size > 0
    ensures forall w | w in WindowsFrom(s, size, from) :: 1 <= |w| <= size
    decreases |s| - from
  {
    if from < |s| {
      WindowsFromSizes(s, size, from + size);
    }
  }

  /** Concatenating the windows gives back the part of `s` they cover. */
  lemma {:induction false} WindowsFromFlatten<T>(s: seq<T>, size: nat, from: nat)
    requires size > 0 && from <= |s|
    ensures Flatten(WindowsFrom(s, size, from)) == s[from..]
    decreases |s| - from
  {
    if from < |s| {
      var ws := WindowsFrom(s, size, from);
      if from + size <= |s| {
        WindowsFromFlatten(s, size, from + size);
        assert ws[1..] == WindowsFrom(s, size, from + size);
        assert s[from..] == s[from..from + size] + s[from + size..];
      } else {
        assert WindowsFrom(s, size, from + size) == [];
        assert ws[1..] == [];
      }
    }
  }

  /** There are ceil((|s| - from) / size) windows. */
  lemma {:induction false} WindowsFromCount<T>(s: seq<T>, size: nat, from: nat)
    requires size > 0 && from <= |s|
    ensures |WindowsFrom(s, size, from)| == (|s| - from + size - 1) / size
    decreases |s| - from
  {
    var m := |s| - from;
    if from == |s| {
      DivUnique(size - 1, size, 0, size - 1);
    } else if from + size <= |s| {
      WindowsFromCount(s, size, from + size);
      assert |WindowsFrom(s, size, from)| == 1 + |WindowsFrom(s, size, from + size)|;
      assert |s| - (from + size) + size - 1 == m - 1;
      DivShift(m + size - 1, size);
    } else {
      assert WindowsFrom(s, size, from + size) == [];
      DivOne(m + size - 1, size);
    }
  }

  lemma DivShift(x: int, size: nat)
    requires size > 0 && x >= size
    ensures x / size == (x - size) / size + 1
  {
    var q, r := (x - size) / size, (x - size) % size;
    assert x == (q + 1) * size + r;
    DivUnique(x, size, q + 1, r);
  }

  lemma DivOne(x: int, size: nat)
    requires size > 0 && size <= x < 2 * size
    ensures x / size == 1
  {
    DivUnique(x, size, 1, x - size);
  }

  /** Euclidean division has one quotient. */
  lemma DivUnique(x: int, size: nat, q: int, r: int)
    requires size > 0 && x == q * size + r && 0 <= r < size
    ensures x / size == q
  {
    var d := x / size - q;
    assert d * size == r - x % size;
  }

  /** The j-th window is the slice [j * size, min(j * size + size, |s|)). */
  lemma {:induction false} WindowsFromAt<T>(s: seq<T>, size: nat, from: nat, j: nat)
    requires size > 0 && j < |WindowsFrom(s, size, from)|
    ensures from + j * size < |s|
    ensures WindowsFrom(s, size, from)[j] == s[from + j * size..Min(from + j * size + size, |s|)]
    decreases j
  {
    if j == 0 {
      assert j * size == 0;
    } else {
      WindowsFromAt(s, size, from + size, j - 1);
      MulPred(j, size);
      assert WindowsFrom(s, size, from)[j] == WindowsFrom(s, size, from + size)[j - 1];
    }
  }

  lemma MulPred(j: int, size: int)
    ensures (j - 1) * size + size == j * size
  {
  }

  /** The windows of `s` partition it into consecutive slices of at most `size` elements. */
  lemma WindowsPartition<T>(s: seq<T>, size: nat)
    requires size > 0
    ensures Flatten(Windows(s, size)) == s
    ensures forall w | w in Windows(s, size) :: 1 <= |w| <= size
    ensures |Windows(s, size)| == (|s| + size - 1) / size
    ensures forall j | 0 <= j < |Windows(s, size)| ::
              j * size < |s| && Windows(s, size)[j] == s[j * size..Min(j * size + size, |s|)]
  {
    WindowsFromFlatten(s, size, 0);
    WindowsFromSizes(s, size, 0);
    WindowsFromCount(s, size, 0);
    forall j | 0 <= j < |Windows(s, size)|
      ensures j * size < |s| && Windows(s, size)[j] == s[j * size..Min(j * size + size, |s|)]
    {
      WindowAt(s, size, j);
    }
  }

  lemma WindowAt<T>(s: seq<T>, size: nat, j: nat)
    requires size > 0 && j < |Windows(s, size)|
    ensures j * size < |s| && Windows(s, size)[j] == s[j * size..Min(j * size + size, |s|)]
  {
    WindowsFromAt(s, size, 0, j);
  }

  /** Flattening distributes over concatenation. */
  lemma {:induction false} FlattenConcat<T>(a: seq<seq<T>>, b: seq<seq<T>>)
    ensures Flatten(a + b) == Flatten(a) + Flatten(b)
    decreases |a|
  {
    if a == [] {
      assert a + b == b;
    } else {
      assert (a + b)[1..] == a[1..] + b;
      FlattenConcat(a[1..], b);
    }
  }

  /** A prefix of the windows flattens to a prefix of what they cover. */
  lemma FlattenPrefix<T>(a: seq<seq<T>>, b: seq<seq<T>>)
    requires a <= b
    ensures Flatten(a) <= Flatten(b)
  {
    assert b == a + b[|a|..];
    FlattenConcat(a, b[|a|..]);
  }

  /**
    Sending the window at `from` moves it from the windows still to send to
    the windows sent, which then cover `s` up to the end of that window.
   */
  lemma SendsNextWindow<T>(s: seq<T>, size: nat, from: nat, sent: seq<seq<T>>)
    requires size > 0 && from < |s| && sent + WindowsFrom(s, size, from) == Windows(s, size)
    requires Flatten(sent) == s[..from]
    ensures (sent + [s[from..Min(from + size, |s|)]]) + WindowsFrom(s, size, from + size) == Windows(s, size)
    ensures sent + [s[from..Min(from + size, |s|)]] <= Windows(s, size)
    ensures Flatten(sent + [s[from..Min(from + size, |s|)]]) == s[..Min(from + size, |s|)]
  {
    var window, rest := s[from..Min(from + size, |s|)], WindowsFrom(s, size, from + size);
    assert WindowsFrom(s, size, from) == [window] + rest;
    assert (sent + [window]) + rest == sent + ([window] + rest);
    FlattenConcat(sent, [window]);
    assert Flatten([window]) == window + Flatten([]);
    assert s[..from] + window == s[..Min(from + size, |s|)];
  }

  /** Seven files in windows of five: one window of five, then one of two. */
  lemma SevenInWindowsOfFive<T>(s: seq<T>)
    requires |s| == 7
    ensures Windows(s, 5) == [s[..5], s[5..]]
  {
    assert WindowsFrom(s, 5, 10) == [];
    assert Min(5 + 5, |s|) == |s|;
    assert WindowsFrom(s, 5, 5) == [s[5..|s|]] + WindowsFrom(s, 5, 10);
    assert s[5..|s|] == s[5..];
    assert Windows(s, 5) == [s[..5]] + WindowsFrom(s, 5, 5);
    assert [s[..5]] + [s[5..]] == [s[..5], s[5..]];
  }
}
