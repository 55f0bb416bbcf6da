/** The order of play (app/src/player/store.ts): what follows the current track, and shuffling. */
module PlayOrder {
  import opened Rows
  import D = Deck

  type Track = D.Item

  datatype Repeat = Off | All | One

  // ---- what comes next ----

  /** `nextIndexFor` for a queue of `n` tracks. */
  function NextIndexFor(n: nat, index: int, repeat: Repeat): int {
    if index < 0 || n == 0 then -1
    else if repeat.One? then index
    else if index + 1 < n then index + 1
    else if repeat.All? then 0 else -1
  }

  /** What an action does to playback. */
  datatype Effect = Nothing | Stop | Restart | Load(index: nat)

  const RESTART_SEC := 3.0

  /** `loadAndPlay`: an index without a track loads nothing. */
  function LoadAt(n: nat, index: int): Effect {
    if 0 <= index < n then Load(index) else Nothing
  }

  /** `advance`. */
  function Advance(n: nat, index: int, repeat: Repeat): Effect {
    if n == 0 then Nothing
    else if repeat.One? then LoadAt(n, index)
    else if index + 1 < n then LoadAt(n, index + 1)
    else if repeat.All? then LoadAt(n, 0) else Stop
  }

  /** `prev` at `positionSec` of the bound element, if there is one: past three seconds the track
      starts over. */
  function Previous(n: nat, index: int, repeat: Repeat, positionSec: Option<real>): Effect {
    if n == 0 then Nothing
    else if positionSec.Some? && positionSec.value > RESTART_SEC then Restart
    else if index - 1 >= 0 then LoadAt(n, index - 1)
    else LoadAt(n, if repeat.All? then n - 1 else 0)
  }

  /** Skipping back, in full: nothing in an empty queue; past three seconds the track starts over; else
      the track before it, or at the start the last one under repeat-all and the first one again
      otherwise. */
  lemma PreviousIs(n: nat, index: nat, repeat: Repeat, positionSec: Option<real>)
    requires index < n || n == 0
    ensures var effect := Previous(n, index, repeat, positionSec);
            if n == 0 then effect == Nothing
            else match positionSec
                 case Some(sec) => if sec > 3.0 then effect == Restart else effect == Load(Before(n, index, repeat))
                 case None => effect == Load(Before(n, index, repeat))
  {
  }

  function Before(n: nat, index: nat, repeat: Repeat): nat
    requires index < n
  {
    if index != 0 then index - 1 else match repeat case All => n - 1 case _ => 0
  }

  /** Advancing, in full: nothing in an empty queue; the same track under repeat-one; else the next one,
      or at the end the first one under repeat-all and a stop otherwise. */
  lemma AdvanceIs(n: nat, index: nat, repeat: Repeat)
    requires index < n || n == 0
    ensures var effect := Advance(n, index, repeat);
            if n == 0 then effect == Nothing
            else match repeat
                 case One => effect == Load(index)
                 case All => effect == Load((index + 1) % n)
                 case Off => if index == n - 1 then effect == Stop else effect == Load(index + 1)
  {
    if n > 0 && index + 1 < n { assert (index + 1) % n == index + 1; }
  }

  /** What is looked ahead to: nothing without a current position or tracks, or at the end of the queue
      without repeat. */
  lemma NextIndexIs(n: nat, index: int, repeat: Repeat)
    ensures var next := NextIndexFor(n, index, repeat);
            if index < 0 || n == 0 then next == -1
            else match repeat
                 case One => next == index
                 case All => next == if index + 1 < n then index + 1 else 0
                 case Off => next == if index + 1 < n then index + 1 else -1
  {
  }

  /** The look-ahead foretells an advance. */
  predicate Foretold(n: nat, index: int, repeat: Repeat) {
    var next := NextIndexFor(n, index, repeat);
    Advance(n, index, repeat) == if next < 0 then Stop else Load(next)
  }

  /** Exactly when the look-ahead and the advance agree: there is a current position, and under
      repeat-one it holds a track. */
  lemma AdvanceIsForetold(n: nat, index: int, repeat: Repeat)
    ensures Foretold(n, index, repeat) <==> n > 0 && index >= 0 && (repeat.One? ==> index < n)
  {
  }

  /** Skipping back undoes skipping ahead exactly within the first three seconds, except under
      repeat-one away from the start. */
  lemma PreviousUndoesAdvance(n: nat, index: nat, repeat: Repeat, positionSec: Option<real>)
    requires index < n && Advance(n, index, repeat).Load?
    ensures Previous(n, Advance(n, index, repeat).index, repeat, positionSec) == Load(index)
            <==> (positionSec.None? || positionSec.value <= RESTART_SEC) && (!repeat.One? || index == 0)
  {
  }

  /** The positions `k` natural advances visit, until playback stops. */
  function Visits(n: nat, index: nat, repeat: Repeat, k: nat): (v: seq<nat>)
    requires index < n
    ensures |v| <= k && forall i | 0 <= i < |v| :: v[i] < n
    decreases k
  {
    if k == 0 then []
    else
      match Advance(n, index, repeat)
      case Load(next) => [next] + Visits(n, next, repeat, k - 1)
      case _ => []
  }

  /** Without repeat a run plays the rest of the queue in order and then stops, however many more
      times it is advanced. */
  lemma {:induction false} RepeatOffPlaysTheRest(n: nat, index: nat, k: nat)
    requires index < n && k >= n - 1 - index
    ensures var v := Visits(n, index, Off, k);
            && |v| == n - 1 - index
            && (forall i | 0 <= i < |v| :: v[i] == index + 1 + i)
            && (var last := if v == [] then index else v[|v| - 1]; Advance(n, last, Off) == Stop)
    decreases k
  {
    if index + 1 >= n {
    } else {
      RepeatOffPlaysTheRest(n, index + 1, k - 1);
    }
  }

  /** The position after `i`, round the end of the queue. */
  function Around(n: nat, i: nat): nat
    requires i < n
  {
    if i + 1 < n then i + 1 else 0
  }

  /** With repeat-all playback never stops, and each track follows the one before it. */
  lemma {:induction false} RepeatAllGoesRound(n: nat, index: nat, k: nat)
    requires index < n
    ensures var v := Visits(n, index, All, k);
            && |v| == k
            && forall i | 0 <= i < k :: v[i] == Around(n, if i == 0 then index else v[i - 1])
    decreases k
  {
    if k == 0 {
    } else {
      var v, rest := Visits(n, index, All, k), Visits(n, Around(n, index), All, k - 1);
      RepeatAllGoesRound(n, Around(n, index), k - 1);
      assert v == [Around(n, index)] + rest;
      forall i | 0 <= i < k ensures v[i] == Around(n, if i == 0 then index else v[i - 1]) {
        if i > 0 { assert v[i] == rest[i - 1]; }
      }
    }
  }

  lemma {:induction false} VisitedAt(n: nat, index: nat, i: nat)
    requires index < n && i < n
    ensures |Visits(n, index, All, n)| == n
    ensures Visits(n, index, All, n)[i] == if index + 1 + i < n then index + 1 + i else index + 1 + i - n
    decreases i
  {
    RepeatAllGoesRound(n, index, n);
    if i == 0 {
    } else {
      VisitedAt(n, index, i - 1);
    }
  }

  /** With repeat-all, `n` advances visit every position exactly once and end where they began. */
  lemma {:induction false} RepeatAllVisitsEach(n: nat, index: nat)
    requires index < n
    ensures var v := Visits(n, index, All, n);
            && |v| == n && v[n - 1] == index
            && (forall i, j | 0 <= i < j < n :: v[i] != v[j])
            && (forall p: nat | p < n :: p in v)
  {
    var v := Visits(n, index, All, n);
    forall i | 0 <= i < n ensures |v| == n && v[i] == if index + 1 + i < n then index + 1 + i else index + 1 + i - n {
      VisitedAt(n, index, i);
    }
    assert |v| == n && v[n - 1] == index by { VisitedAt(n, index, n - 1); }
    forall p: nat | p < n ensures p in v {
      var i := if p > index then p - index - 1 else p - index - 1 + n;
      assert v[i] == p;
    }
  }

  // ---- shuffling ----

  function Swap<T>(s: seq<T>, i: nat, j: nat): (r: seq<T>)
    requires i < |s| && j < |s|
    ensures |r| == |s|
  {
    s[i := s[j]][j := s[i]]
  }

  /** One outcome `floor(random * (i + 1))` for each position `i`. */
  predicate Picks(picks: seq<nat>, n: nat) {
    |picks| == n && forall i | 0 <= i < n :: picks[i] <= i
  }

  /** The loop from position `n - 1` down to 1: swap each position with the one picked for it. */
  function FisherYates<T>(s: seq<T>, n: nat, picks: seq<nat>): (r: seq<T>)
    requires n <= |s| && Picks(picks, |s|)
    ensures |r| == |s| && forall k | n <= k < |s| :: r[k] == s[k]
    decreases n
  {
    if n <= 1 then s else FisherYates(Swap(s, n - 1, picks[n - 1]), n - 1, picks)
  }

  lemma {:induction false} FisherYatesCounts<T>(s: seq<T>, n: nat, picks: seq<nat>)
    requires n <= |s| && Picks(picks, |s|)
    ensures multiset(FisherYates(s, n, picks)) == multiset(s)
    decreases n
  {
    if n <= 1 {
    } else {
      FisherYatesCounts(Swap(s, n - 1, picks[n - 1]), n - 1, picks);
    }
  }

  lemma OneLeft<T>(s: seq<T>, n: nat, t: seq<T>)
    requires n <= 1 && n <= |s| == |t| && multiset(s[..n]) == multiset(t[..n])
    requires forall k | n <= k < |s| :: s[k] == t[k]
    ensures s == t
  {
    if n == 1 {
      assert s[..1] == [s[0]] && t[..1] == [t[0]];
      assert s[0] in multiset(t[..1]);
    }
  }

  /** Every order of the tracks is the outcome of some picks. */
  lemma {:induction false} EveryOrderIsReachable<T>(s: seq<T>, n: nat, t: seq<T>) returns (picks: seq<nat>)
    requires n <= |s| == |t| && multiset(s[..n]) == multiset(t[..n])
    requires forall k | n <= k < |s| :: s[k] == t[k]
    ensures Picks(picks, |s|) && FisherYates(s, n, picks) == t
    decreases n
  {
    if n <= 1 {
      picks := seq(|s|, i => 0);
      OneLeft(s, n, t);
    } else {
      var j := PlaceOf(s, n, t);
      var h := Swap(s, n - 1, j);
      PrefixCounts(s, h, t, n, j);
      forall k | n - 1 <= k < |h| ensures h[k] == t[k] {}
      var rest := EveryOrderIsReachable(h, n - 1, t);
      picks := rest[n - 1 := j];
      SamePicks(h, n - 1, rest, picks);
    }
  }

  lemma PlaceOf<T>(s: seq<T>, n: nat, t: seq<T>) returns (j: nat)
    requires 0 < n <= |s| == |t| && multiset(s[..n]) == multiset(t[..n])
    ensures j < n && s[j] == t[n - 1]
  {
    assert t[..n][n - 1] in multiset(s[..n]);
    j :| 0 <= j < n && s[..n][j] == t[n - 1];
  }

  lemma TakeLast<T>(s: seq<T>, n: nat)
    requires 0 < n <= |s|
    ensures multiset(s[..n]) == multiset(s[..n - 1]) + multiset{s[n - 1]}
  {
    assert s[..n] == s[..n - 1] + [s[n - 1]];
  }

  lemma PrefixCounts<T>(s: seq<T>, h: seq<T>, t: seq<T>, n: nat, j: nat)
    requires 1 < n <= |s| == |t| && j < n && s[j] == t[n - 1] && h == Swap(s, n - 1, j)
    requires multiset(s[..n]) == multiset(t[..n])
    ensures multiset(h[..n - 1]) == multiset(t[..n - 1])
  {
    assert h[..n] == Swap(s[..n], n - 1, j);
    assert multiset(h[..n]) == multiset(s[..n]);
    TakeLast(h, n);
    TakeLast(t, n);
    Cancel(multiset(h[..n - 1]), multiset(t[..n - 1]), multiset{t[n - 1]});
  }

  lemma {:induction false} SamePicks<T>(s: seq<T>, n: nat, a: seq<nat>, b: seq<nat>)
    requires n <= |s| && Picks(a, |s|) && Picks(b, |s|) && forall i | 0 <= i < n :: a[i] == b[i]
    ensures FisherYates(s, n, a) == FisherYates(s, n, b)
    decreases n
  {
    if n <= 1 {
    } else {
      SamePicks(Swap(s, n - 1, a[n - 1]), n - 1, a, b);
    }
  }

  ghost predicate AllDistinct<T(!new)>(s: seq<T>) {
    forall i, j | 0 <= i < j < |s| :: s[i] != s[j]
  }

  lemma SwapDistinct<T(!new)>(s: seq<T>, i: nat, j: nat)
    requires i < |s| && j < |s| && AllDistinct(s)
    ensures AllDistinct(Swap(s, i, j))
  {
  }

  /** The loop's first step settles position `n - 1`. */
  lemma {:induction false} LastIsPicked<T>(s: seq<T>, n: nat, a: seq<nat>)
    requires 1 < n <= |s| && Picks(a, |s|)
    ensures FisherYates(s, n, a)[n - 1] == s[a[n - 1]]
  {
    var x := Swap(s, n - 1, a[n - 1]);
    assert FisherYates(s, n, a) == FisherYates(x, n - 1, a);
    assert x[n - 1] == s[a[n - 1]];
  }

  lemma SamePlace<T(!new)>(s: seq<T>, i: nat, j: nat)
    requires i < |s| && j < |s| && AllDistinct(s) && s[i] == s[j]
    ensures i == j
  {
  }

  /** Different picks give different orders of distinct tracks: no order is favoured. */
  lemma {:induction false} PicksAreDetermined<T(!new)>(s: seq<T>, n: nat, a: seq<nat>, b: seq<nat>)
    requires n <= |s| && Picks(a, |s|) && Picks(b, |s|) && AllDistinct(s)
    requires FisherYates(s, n, a) == FisherYates(s, n, b)
    ensures forall i | 1 <= i < n :: a[i] == b[i]
    decreases n
  {
    if n <= 1 {
    } else {
      LastIsPicked(s, n, a);
      LastIsPicked(s, n, b);
      SamePlace(s, a[n - 1], b[n - 1]);
      SwapDistinct(s, n - 1, a[n - 1]);
      PicksAreDetermined(Swap(s, n - 1, a[n - 1]), n - 1, a, b);
    }
  }

  /** `rest`: every track but the one at `start`. */
  function Others<T>(tracks: seq<T>, start: int): (rest: seq<T>)
    ensures |rest| == |tracks| - if 0 <= start < |tracks| then 1 else 0
  {
    if 0 <= start < |tracks| then tracks[..start] + tracks[start + 1..] else tracks
  }

  /** `tracks.filter((_, i) => i !== startIndex)`. */
  method FilterOthers<T>(tracks: seq<T>, start: int) returns (rest: seq<T>)
    ensures rest == Others(tracks, start)
  {
    rest := [];
    for i := 0 to |tracks|
      invariant rest == Others(tracks[..i], start)
    {
      assert tracks[..i + 1] == tracks[..i] + [tracks[i]];
      if i != start { rest := rest + [tracks[i]]; }
    }
    assert tracks[..|tracks|] == tracks;
  }

  /** What `applyShuffle` returns for these picks. */
  function Shuffled<T>(tracks: seq<T>, shuffle: bool, start: int, picks: seq<nat>): (r: seq<T>)
    requires shuffle && tracks != [] ==> Picks(picks, |Others(tracks, start)|)
  {
    if tracks == [] || !shuffle then tracks
    else
      var rest := Others(tracks, start);
      (if 0 <= start < |tracks| then [tracks[start]] else []) + FisherYates(rest, |rest|, picks)
  }

  /** The shuffle in place, by descending position. */
  method ShuffleInPlace<T>(rest: array<T>, picks: seq<nat>)
    requires Picks(picks, rest.Length)
    modifies rest
    ensures rest[..] == FisherYates(old(rest[..]), rest.Length, picks)
  {
    var i := rest.Length - 1;
    while i > 0
      invariant -1 <= i < rest.Length
      invariant FisherYates(rest[..], i + 1, picks) == FisherYates(old(rest[..]), rest.Length, picks)
    {
      var j := picks[i];
      ghost var before := rest[..];
      rest[i], rest[j] := rest[j], rest[i];
      assert rest[..] == Swap(before, i, j);
      i := i - 1;
    }
  }

  /** `applyShuffle`. */
  method ApplyShuffle<T>(tracks: seq<T>, shuffle: bool, start: int, picks: seq<nat>) returns (r: seq<T>)
    requires shuffle && tracks != [] ==> Picks(picks, |Others(tracks, start)|)
    ensures r == Shuffled(tracks, shuffle, start, picks)
  {
    if |tracks| == 0 || !shuffle { return tracks; }
    var others := FilterOthers(tracks, start);
    var rest := new T[|others|](i requires 0 <= i < |others| => others[i]);
    assert rest[..] == others;
    ShuffleInPlace(rest, picks);
    r := if 0 <= start < |tracks| then [tracks[start]] + rest[..] else rest[..];
  }

  /** Whatever the random outcomes, shuffling returns the same tracks, with the start track, when
      there is one, in front. */
  lemma ShuffleKeepsTracks<T>(tracks: seq<T>, shuffle: bool, start: int, picks: seq<nat>)
    requires shuffle && tracks != [] ==> Picks(picks, |Others(tracks, start)|)
    ensures var r := Shuffled(tracks, shuffle, start, picks);
            && multiset(r) == multiset(tracks)
            && (shuffle && 0 <= start < |tracks| ==> r[0] == tracks[start])
  {
    if tracks != [] && shuffle {
      var rest := Others(tracks, start);
      FisherYatesCounts(rest, |rest|, picks);
      if 0 <= start < |tracks| { Without(tracks, start); }
    }
  }

  /** Behind the start track, every order of the others can come out. */
  lemma EveryShuffleIsReachable<T>(tracks: seq<T>, start: nat, tail: seq<T>) returns (picks: seq<nat>)
    requires start < |tracks| && multiset([tracks[start]] + tail) == multiset(tracks)
    ensures Picks(picks, |Others(tracks, start)|)
    ensures Shuffled(tracks, true, start, picks) == [tracks[start]] + tail
  {
    var rest := Others(tracks, start);
    Without(tracks, start);
    Cancel(multiset(tail), multiset(rest), multiset{tracks[start]});
    assert |multiset(tail)| == |tail| && |multiset(rest)| == |rest|;
    assert rest[..|rest|] == rest && tail[..|tail|] == tail;
    picks := EveryOrderIsReachable(rest, |rest|, tail);
  }

  // ---- the store ----

  /** The index `playQueue` starts at, for a queue of `n` tracks. */
  function PlayIndex(shuffle: bool, start: int, n: nat): nat {
    if shuffle then 0 else
      var last := if start < n - 1 then start else n - 1;
      if last > 0 then last else 0
  }

  /** The queue and index after `toggleShuffle`. */
  function Toggled(queue: seq<Track>, index: int, shuffle: bool, picks: seq<nat>): (seq<Track>, int)
    requires !shuffle && queue != [] ==> Picks(picks, |Others(queue, index)|)
  {
    if !shuffle && 0 < index < |queue| then (Shuffled(queue, true, index, picks), 0) else (queue, index)
  }

  function TrackAt(queue: seq<Track>, i: int): Option<Track> {
    if 0 <= i < |queue| then Some(queue[i]) else None
  }

  /** The queue fields of the player store and the actions that change them. An action's result is
      what it tells the deck. */
  class PlayerQueue {
    var queue: seq<Track>
    var currentIndex: int
    var shuffle: bool
    var repeat: Repeat
    var isPlaying: bool

    constructor ()
      ensures queue == [] && currentIndex == -1 && !shuffle && repeat == Off && !isPlaying
    {
      queue, currentIndex, shuffle, repeat, isPlaying := [], -1, false, Off, false;
    }

    /** `loadAndPlay`. */
    method LoadAndPlay(index: int) returns (effect: Effect)
      modifies this`currentIndex
      ensures effect == LoadAt(|queue|, index)
      ensures currentIndex == if effect.Load? then index else old(currentIndex)
    {
      if index < 0 || index >= |queue| { return Nothing; }
      currentIndex := index;
      effect := Load(index);
    }

    /** `advance`. */
    method AdvanceQueue() returns (effect: Effect)
      modifies this`currentIndex, this`isPlaying
      ensures effect == Advance(|queue|, old(currentIndex), repeat)
      ensures currentIndex == if effect.Load? then effect.index else old(currentIndex)
      ensures isPlaying == (!effect.Stop? && old(isPlaying))
    {
      if |queue| == 0 { return Nothing; }
      if repeat == One {
        effect := LoadAndPlay(currentIndex);
        return;
      }
      var nextIdx := currentIndex + 1;
      if nextIdx >= |queue| {
        if repeat == All {
          nextIdx := 0;
        } else {
          isPlaying := false;
          return Stop;
        }
      }
      effect := LoadAndPlay(nextIdx);
    }

    /** `prev`. A restart only rewinds the element. */
    method SkipBack(positionSec: Option<real>) returns (effect: Effect)
      modifies this`currentIndex
      ensures effect == Previous(|queue|, old(currentIndex), repeat, positionSec)
      ensures currentIndex == if effect.Load? then effect.index else old(currentIndex)
    {
      if |queue| == 0 { return Nothing; }
      if positionSec.Some? && positionSec.value > RESTART_SEC { return Restart; }
      var prevIdx := currentIndex - 1;
      if prevIdx < 0 { prevIdx := if repeat == All then |queue| - 1 else 0; }
      effect := LoadAndPlay(prevIdx);
    }

    /** `toggleShuffle`: the same tracks, the same current track, and a new order only when shuffling
        is turned on away from the start of the queue. */
    method ToggleShuffle(picks: seq<nat>)
      requires !shuffle && queue != [] ==> Picks(picks, |Others(queue, currentIndex)|)
      modifies this`queue, this`currentIndex, this`shuffle
      ensures shuffle == !old(shuffle)
      ensures multiset(queue) == multiset(old(queue))
      ensures TrackAt(queue, currentIndex) == TrackAt(old(queue), old(currentIndex))
      ensures (queue, currentIndex) == Toggled(old(queue), old(currentIndex), old(shuffle), picks)
    {
      var nowShuffling := !shuffle;
      var newQueue := ApplyShuffle(queue, nowShuffling, currentIndex, picks);
      ShuffleKeepsTracks(queue, nowShuffling, currentIndex, picks);
      if 0 <= currentIndex < |queue| && nowShuffling {
        var i := IndexOfId(newQueue, queue[currentIndex].id);
        if i >= 0 && i != currentIndex {
          shuffle, queue, currentIndex := nowShuffling, newQueue, i;
          return;
        }
      }
      shuffle := nowShuffling;
    }

    /** `playQueue`: plays the chosen track, shuffled to the front or where it is. */
    method PlayQueue(tracks: seq<Track>, startIndex: int, picks: seq<nat>) returns (effect: Effect)
      requires shuffle && tracks != [] ==> Picks(picks, |Others(tracks, startIndex)|)
      modifies this`queue, this`currentIndex
      ensures queue == Shuffled(tracks, shuffle, startIndex, picks)
      ensures multiset(queue) == multiset(tracks)
      ensures effect.Load? <==> tracks != []
      ensures effect.Load? ==> currentIndex == effect.index
      ensures 0 <= startIndex < |tracks| ==> TrackAt(queue, currentIndex) == Some(tracks[startIndex])
      ensures effect == LoadAt(|queue|, PlayIndex(shuffle, startIndex, |tracks|))
    {
      var q := ApplyShuffle(tracks, shuffle, startIndex, picks);
      ShuffleKeepsTracks(tracks, shuffle, startIndex, picks);
      assert |multiset(q)| == |q| && |multiset(tracks)| == |tracks|;
      queue := q;
      effect := LoadAndPlay(PlayIndex(shuffle, startIndex, |q|));
    }
  }

  /** `findIndex((t) => t.id === id)`. */
  function IndexOfId(queue: seq<Track>, id: string): (i: int)
    ensures -1 <= i < |queue|
    ensures i >= 0 ==> queue[i].id == id && forall j | 0 <= j < i :: queue[j].id != id
    ensures i == -1 ==> forall j | 0 <= j < |queue| :: queue[j].id != id
  {
    if queue == [] then -1
    else if queue[0].id == id then 0
    else var i := IndexOfId(queue[1..], id); if i < 0 then -1 else i + 1
  }
}
