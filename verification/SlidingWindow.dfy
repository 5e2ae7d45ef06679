/** A ring that replaces a sliding window: filled up once, then overwritten at a moving head. */
module SlidingWindow {

  /** The last n elements. */
  function LastN<T>(history: seq<T>, n: nat): (w: seq<T>)
    ensures |w| == if |history| < n then |history| else n
  {
    if |history| <= n then history else LastN(history[1..], n)
  }

  lemma {:induction false} LastNIsSuffix<T>(history: seq<T>, n: nat)
    ensures LastN(history, n) == if |history| <= n then history else history[|history| - n..]
  {
    if |history| > n {
      LastNIsSuffix(history[1..], n);
      assert history[1..][|history| - 1 - n..] == history[|history| - n..];
    }
  }

  /** What a ring holds, oldest first: the filled part, or from the head all the way round. */
  function Contents<T>(slots: seq<T>, head: nat, filled: nat): seq<T>
    requires filled <= |slots| && head <= |slots|
  {
    if filled < |slots| then slots[..filled] else slots[head..] + slots[..head]
  }

  /** The ring of `size` places holds the window of the history. */
  ghost predicate IsWindow<T>(slots: seq<T>, head: nat, filled: nat, size: nat, history: seq<T>) {
    && filled <= size == |slots| && head < size
    && filled == |LastN(history, size)|
    && Contents(slots, head, filled) == LastN(history, size)
  }

  lemma WindowMoves<T>(history: seq<T>, x: T, n: nat)
    requires n > 0
    ensures LastN(history + [x], n) ==
              if |history| < n then LastN(history, n) + [x] else LastN(history, n)[1..] + [x]
  {
    LastNIsSuffix(history, n);
    LastNIsSuffix(history + [x], n);
  }

  lemma NextHead(head: nat, size: nat)
    requires head < size
    ensures (head + 1) % size == if head + 1 == size then 0 else head + 1
  {
  }

  /** Writing while the ring fills up; the head is where the write goes, or still at the start. */
  lemma FillKeepsWindow<T>(slots: seq<T>, head: nat, head': nat, filled: nat, size: nat, history: seq<T>, x: T)
    requires IsWindow(slots, head, filled, size, history) && filled < size
    requires head' < size && (filled + 1 == size ==> head' == 0)
    ensures IsWindow(slots[filled := x], head', filled + 1, size, history + [x])
  {
    WindowMoves(history, x, size);
    var after := slots[filled := x];
    assert after[..filled + 1] == slots[..filled] + [x];
    if filled + 1 == size {
      assert after[0..] + after[..0] == after == after[..filled + 1];
    }
  }

  /** Overwriting the oldest element and moving the head on. */
  lemma OverwriteKeepsWindow<T>(slots: seq<T>, head: nat, size: nat, history: seq<T>, x: T)
    requires IsWindow(slots, head, size, size, history)
    ensures IsWindow(slots[head := x], (head + 1) % size, size, size, history + [x])
    ensures LastN(history, size)[0] == slots[head]
  {
    WindowMoves(history, x, size);
    Overwritten(slots, head, x);
    var w := slots[head..] + slots[..head];
    assert LastN(history + [x], size) == w[1..] + [x];
  }

  lemma Overwritten<T>(slots: seq<T>, head: nat, x: T)
    requires head < |slots|
    ensures var after, head' := slots[head := x], (head + 1) % |slots|;
            head' < |slots| && after[head'..] + after[..head'] == (slots[head..] + slots[..head])[1..] + [x]
  {
    WithoutOldest(slots, head);
    NextHead(head, |slots|);
    if head + 1 < |slots| {
      HeadMoves(slots, head, x);
    } else {
      HeadWraps(slots, head, x);
    }
  }

  lemma WithoutOldest<T>(slots: seq<T>, head: nat)
    requires head < |slots|
    ensures (slots[head..] + slots[..head])[1..] == slots[head + 1..] + slots[..head]
  {
  }

  lemma HeadMoves<T>(slots: seq<T>, head: nat, x: T)
    requires head + 1 < |slots|
    ensures slots[head := x][head + 1..] + slots[head := x][..head + 1] == slots[head + 1..] + slots[..head] + [x]
  {
    var after := slots[head := x];
    assert after[head + 1..] == slots[head + 1..] && after[..head + 1] == slots[..head] + [x];
  }

  lemma HeadWraps<T>(slots: seq<T>, head: nat, x: T)
    requires head + 1 == |slots|
    ensures slots[head := x][0..] + slots[head := x][..0] == slots[head + 1..] + slots[..head] + [x]
  {
    assert slots[head := x] == slots[..head] + [x];
  }
}
