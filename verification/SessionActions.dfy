/** What each step of the player does to queue, index, guards and deck (app/src/player/store.ts). */
module SessionActions {
  import opened Rows
  import D = Deck
  import P = PlayOrder
  import R = PlayRecords
  import opened PlayerSession

  /** A launch shows what is restored, with no play submitted and nothing under way. */
  lemma LaunchIs(queue: seq<D.Item>, index: int, shuffle: bool, repeat: P.Repeat, el: D.El)
    ensures var s := Launch(queue, index, shuffle, repeat, el);
            && s.world == D.Initial(el) && (s.queue, s.index, s.shuffle, s.repeat) == (queue, index, shuffle, repeat)
            && s.rec.playId == None && s.rec.retiringId == None && s.rec.plays == [] && s.lookups == multiset{}
            && s.restored == s.Shown()
  {
  }

  /** The shown track: the one at the index, if there is one. */
  lemma ShownIs(s: Session)
    ensures match s.Shown()
            case Some(t) => 0 <= s.index < |s.queue| && t == s.queue[s.index]
            case None => s.index < 0 || s.index >= |s.queue|
  {
  }

  /** A swap moves the index to the swapped-in item: to its armed place if it still stands there, else to
      its first place in the queue, else to the armed place after all. */
  lemma SwapMoves(s: Session, n: D.Note, bearer: bool)
    requires n.Swapped?
    ensures var h := Hear(s, n, bearer);
            var k, id := n.slot.index, n.slot.item.id;
            && h == s.(rec := h.rec, index := h.index)
            && if 0 <= k < |s.queue| && s.queue[k].id == id then h.index == k
               else if exists i :: 0 <= i < |s.queue| && s.queue[i].id == id then
                 && 0 <= h.index < |s.queue| && s.queue[h.index].id == id
                 && forall i | 0 <= i < h.index :: s.queue[i].id != id
               else h.index == k
  {
  }

  /** Callbacks are heard in the order they were made, each with what the store shows by then. */
  lemma {:induction false} HeardInOrder(s: Session, a: D.Note, b: D.Note, bearer: bool)
    ensures HearAll(s, [], bearer) == s
    ensures HearAll(s, [a, b], bearer) == Hear(Hear(s, a, bearer), b, bearer)
    ensures Hear(s, a, bearer).rec == R.Handle(s.rec, a, R.View(s.Shown(), bearer))
  {
    var s1 := Hear(s, a, bearer);
    assert [a, b][1..] == [b];
    assert HearAll(s1, [b], bearer) == HearAll(Hear(s1, b, bearer), [], bearer);
  }

  /** The callbacks of a step are what it added to the log. */
  lemma NewsIs(w: D.World, h: D.World, more: seq<D.Note>)
    requires h.log == w.log + more
    ensures News(w, h) == more
  {
  }

  /** Selecting moves the index and opens the guard, and only if there is a track there and a deck. */
  lemma SelectIs(s: Session, index: int, fadeSec: real)
    ensures var h := BeginLoad(s, index, fadeSec);
            if 0 <= index < |s.queue| && !s.world.deck.destroyed then
              && h == s.(index := index, rec := s.rec.(playId := None), lookups := h.lookups)
              && h.lookups == s.lookups + multiset{Lookup(s.queue[index], index, fadeSec)}
            else h == s
  {
  }

  /** Loading at once selects and plays: the deck plays the selected track from its source, and nothing
      else in the store changes but what the callbacks do. */
  lemma LoadIs(s: Session, i: Input, index: int, url: string, fadeSec: real)
    ensures var h := Load(s, i, index, url, fadeSec);
            if 0 <= index < |s.queue| && !s.world.deck.destroyed then
              h == Act(s.(index := index, rec := s.rec.(playId := None)), i,
                       D.DoPlayNow(s.queue[index], index, url, fadeSec))
            else h == s
  {
  }

  /** A lookup that succeeds late plays its track if that is the one shown, and is gone in any case. */
  lemma ArriveIs(s: Session, i: Input, l: Lookup, url: string)
    ensures var h := Arrive(s, i, l, url);
            var s0 := s.(lookups := s.lookups - multiset{l});
            match s.Shown()
            case Some(t) =>
              h == if t.id == l.item.id then Act(s0, i, D.DoPlayNow(l.item, l.index, url, l.fadeSec)) else s0
            case None => h == s0
  {
  }

  /** Where a new queue starts: at its front when shuffled, else at the chosen place, or at the nearest one
      there is. */
  predicate StartsAt(k: nat, shuffle: bool, start: int, n: nat) {
    if shuffle || n == 0 || start <= 0 then k == 0 else k == if start >= n then n - 1 else start
  }

  /** The steps of the player. What is armed is dropped at once with gapless off or nothing next, when
      shuffle or repeat change; arming needs the track that is next. */
  lemma StepIs(s: Session, i: Input, step: Step)
    requires Enabled(s, step)
    ensures var h := Next(s, i, step);
            match step
            case Happens(e) => h == Act(s, i, e)
            case LoadNow(k, url, sec) => h == Load(s, i, k, url, sec)
            case LoadLater(k, sec) => h == BeginLoad(s, k, sec)
            case LookupDone(l, url) => h == Arrive(s, i, l, url)
            case PlayQueue(tracks, start, picks, url) =>
              exists k: nat :: StartsAt(k, s.shuffle, start, |tracks|)
                          && h == Load(s.(queue := P.Shuffled(tracks, s.shuffle, start, picks)), i, k, url, 0.0)
            case PlayQueueLater(tracks, start, picks) =>
              exists k: nat :: StartsAt(k, s.shuffle, start, |tracks|)
                          && h == BeginLoad(s.(queue := P.Shuffled(tracks, s.shuffle, start, picks)), k, 0.0)
            case ToggleShuffle(picks) =>
              if !s.shuffle && 0 < s.index < |s.queue| then
                h == Rearmed(s.(queue := P.Shuffled(s.queue, true, s.index, picks), index := 0, shuffle := true), i)
              else h == Rearmed(s.(shuffle := !s.shuffle), i)
            case CycleRepeat =>
              h == Rearmed(s.(repeat := match s.repeat case Off => P.All case All => P.One case One => P.Off), i)
            case ClearQueue =>
              && h.queue == [] && h.index == -1 && (h.shuffle, h.repeat) == (s.shuffle, s.repeat)
              && h.world == (if s.world.deck.destroyed then s.world else D.Reset(s.world)) && h.rec == s.rec
              && h.lookups == s.lookups
            case Arm(item, k, url) =>
              && h == Act(s, i, D.DoSyncPreload(Some(item), k, Some(url)))
              && 0 <= k < |s.queue| && s.queue[k].id == item.id && k == P.NextIndexFor(|s.queue|, s.index, s.repeat)
            case Disarm => h == Act(s, i, D.DoSyncPreload(None, -1, None))
  {
    match step
    case PlayQueue(tracks, start, picks, url) =>
      assert StartsAt(P.PlayIndex(s.shuffle, start, |tracks|), s.shuffle, start, |tracks|);
    case PlayQueueLater(tracks, start, picks) =>
      assert StartsAt(P.PlayIndex(s.shuffle, start, |tracks|), s.shuffle, start, |tracks|);
    case ClearQueue => if !s.world.deck.destroyed { ResetIsHeard(s, i); }
    case _ =>
  }

  lemma ResetIsHeard(s: Session, i: Input)
    requires !s.world.deck.destroyed
    ensures Act(s, i, D.DoReset) == s.(world := D.Reset(s.world))
  {
    var h := D.Reset(s.world);
    NewsIs(s.world, h, [D.Dropped]);
    assert [D.Dropped][1..] == [];
    var s0 := s.(world := h);
    assert HearAll(s0, [D.Dropped], i.bearer) == HearAll(Hear(s0, D.Dropped, i.bearer), [], i.bearer);
  }

  /** What is armed is dropped, unless gapless is on and some track is next. */
  function Rearmed(s: Session, i: Input): Session {
    var k := P.NextIndexFor(|s.queue|, s.index, s.repeat);
    if !i.env.prefs.gapless || k < 0 || k >= |s.queue| then Act(s, i, D.DoSyncPreload(None, -1, None)) else s
  }

  /** Which steps may be taken: those of the deck that are its own, the end of a lookup begun, and what the
      user does, with random outcomes that fit. */
  lemma StepsReach(s: Session, e: D.Step, l: Lookup, url: string, item: D.Item, k: int)
    ensures Enabled(s, LookupDone(l, url)) <==> s.lookups[l] > 0
    ensures !(e.DoPlayNow? || e.DoSyncPreload? || e.DoReset?) ==> (Enabled(s, Happens(e)) <==> D.Enabled(s.world, e))
    ensures Enabled(s, Arm(item, k, url))
            <==> P.NextIndexFor(|s.queue|, s.index, s.repeat) == k && match P.TrackAt(s.queue, k)
                                                                     case Some(t) => t.id == item.id
                                                                     case None => false
    ensures Enabled(s, Disarm) && Enabled(s, ClearQueue) && Enabled(s, CycleRepeat)
  {
  }
}
