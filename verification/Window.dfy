/** The truncating windows of recent items: before an append, a window longer than 200 loses
    its first 100 items.  Headers, pending transactions and signals are kept this way. */
module Window {

  const LIMIT: nat := 200
  const BATCH: nat := 100

  function Push<T>(w: seq<T>, x: T): seq<T> {
    (if |w| > LIMIT then w[BATCH..] else w) + [x]
  }

  /** What the window holds after the items of `history` have been pushed one by one. */
  function PushAll<T>(history: seq<T>): seq<T> {
    if history == [] then [] else Push(PushAll(history[..|history|-1]), history[|history|-1])
  }

  /** How many of `h` items have been dropped. */
  function Dropped(h: nat): (d: nat)
    ensures d <= h
  {
    if h < 102 then 0 else BATCH * ((h - 102) / BATCH)
  }

  function Recent<T>(history: seq<T>): seq<T> {
    history[Dropped(|history|)..]
  }

  lemma DroppedNext(h: nat)
    ensures Dropped(h + 1) == Dropped(h) + if h - Dropped(h) > LIMIT then BATCH else 0
  {
  }

  /** One more push. */
  lemma PushRecent<T>(history: seq<T>, x: T)
    ensures Push(Recent(history), x) == Recent(history + [x])
  {
    DroppedNext(|history|);
  }

  lemma {:induction false} PushAllIsRecent<T>(history: seq<T>)
    ensures PushAll(history) == Recent(history)
  {
    if history != [] {
      var init := history[..|history|-1];
      PushAllIsRecent(init);
      PushRecent(init, history[|history|-1]);
      assert init + [history[|history|-1]] == history;
    }
  }

  lemma DroppedIs(h: nat)
    ensures Dropped(h) == if h < 102 then 0 else 100 * ((h - 102) / 100)
    ensures h - Dropped(h) <= 201 && (if h < 102 then h else 102) <= h - Dropped(h)
  {
  }

  /** The window is always the suffix of the history that is left when, from the 102nd item on,
      a hundred items are dropped for every further hundred; so it never holds more than 201
      items, and never fewer than the last 102 or all of them. */
  lemma WindowIsSuffix<T>(history: seq<T>)
    ensures PushAll(history) == history[if |history| < 102 then 0 else 100 * ((|history| - 102) / 100)..]
    ensures PushAll(history) == Recent(history)
    ensures |Recent(history)| <= 201
    ensures |Recent(history)| >= if |history| < 102 then |history| else 102
  {
    PushAllIsRecent(history);
    DroppedIs(|history|);
  }

  /** The last 102 items are always there. */
  lemma LastItemsAreKept<T>(history: seq<T>, i: nat)
    requires i < |history| && |history| - i <= 102
    ensures Dropped(|history|) <= i && Recent(history)[i - Dropped(|history|)] == history[i]
  {
  }
}
