/**
 * Bounded append-and-trim windows: `array.slice(-n)` and the
 * `push(x); if (array.length > n) array = array.slice(-n)` idiom that keeps
 * the growth history, the health history and the voice event log bounded.
 */
module Windows {

  /** `s.slice(-n)` for n > 0: the last n elements of s, or all of s when it has fewer. */
  function Last<T>(s: seq<T>, n: nat): (r: seq<T>)
    requires n > 0
    ensures |r| == if |s| < n then |s| else n
    ensures forall i :: 0 <= i < |r| ==> r[i] == s[|s| - |r| + i]
  {
    if |s| <= n then s else s[|s| - n..]
  }

  /** `s.push(x)` followed by `if (s.length > n) s = s.slice(-n)`. */
  function AppendTrim<T>(s: seq<T>, x: T, n: nat): (r: seq<T>)
    requires n > 0
    ensures |r| == if |s| < n then |s| + 1 else n
    ensures r[|r| - 1] == x
    ensures |s| < n ==> r == s + [x]
    ensures forall i :: 0 <= i < |r| - 1 ==> r[i] == s[|s| - |r| + 1 + i]
  {
    var t := s + [x];
    if |t| > n then t[|t| - n..] else t
  }

  /** A sequence of appends, each followed by the trim, applied in arrival order. */
  function AppendAll<T>(s: seq<T>, xs: seq<T>, n: nat): seq<T>
    requires n > 0
    decreases |xs|
  {
    if xs == [] then s else AppendAll(AppendTrim(s, xs[0], n), xs[1..], n)
  }

  /**
   * Appending to the window of a history gives the window of the extended
   * history: the window always holds the n most recent elements in order.
   */
  lemma AppendTrimSlides<T>(history: seq<T>, x: T, n: nat)
    requires n > 0
    ensures AppendTrim(Last(history, n), x, n) == Last(history + [x], n)
  {
    var l, r := AppendTrim(Last(history, n), x, n), Last(history + [x], n);
    assert |l| == |r|;
    forall i | 0 <= i < |l| ensures l[i] == r[i] {
      if i < |l| - 1 {
        assert l[i] == (history + [x])[|history| + 1 - |l| + i];
      }
    }
  }

  /** Any sequence of appends keeps exactly the window of the whole history. */
  lemma {:induction false} AppendAllIsWindow<T>(history: seq<T>, xs: seq<T>, n: nat)
    requires n > 0
    ensures AppendAll(Last(history, n), xs, n) == Last(history + xs, n)
    decreases |xs|
  {
    if xs == [] {
      assert history + xs == history;
    } else {
      var h := history + [xs[0]];
      calc {
        AppendAll(Last(history, n), xs, n);
        AppendAll(AppendTrim(Last(history, n), xs[0], n), xs[1..], n);
        { AppendTrimSlides(history, xs[0], n); }
        AppendAll(Last(h, n), xs[1..], n);
        { AppendAllIsWindow(h, xs[1..], n); }
        Last(h + xs[1..], n);
        { assert h + xs[1..] == history + xs; }
        Last(history + xs, n);
      }
    }
  }

  /**
   * Starting from an empty log, 101 appends to a window of 100 leave the 100
   * most recent elements, in arrival order.
   */
  lemma HundredAndOneAppends<T>(xs: seq<T>)
    requires |xs| == 101
    ensures AppendAll([], xs, 100) == xs[1..]
  {
    AppendAllIsWindow([], xs, 100);
    assert [] + xs == xs;
  }
}
