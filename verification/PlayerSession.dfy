/** The player store together with its deck (app/src/player/store.ts): queue, index, shuffle,
    repeat and the play guards, as they change with every action, callback and source lookup. */
module PlayerSession {
  import opened Rows
  import D = Deck
  import P = PlayOrder
  import R = PlayRecords

  /** A source lookup that `loadAndPlay` has begun and whose `playNow` has not come. */
  datatype Lookup = Lookup(item: D.Item, index: nat, fadeSec: real)

  datatype Session = Session(world: D.World, queue: seq<D.Item>, index: int, shuffle: bool, repeat: P.Repeat,
                             rec: R.Recorder, lookups: multiset<Lookup>, restored: Option<D.Item>)
  {
    function Shown(): Option<D.Item> { P.TrackAt(queue, index) }
  }

  /** A launch: what an earlier session left, with the first element bound and nothing played yet. */
  function Launch(queue: seq<D.Item>, index: int, shuffle: bool, repeat: P.Repeat, el: D.El): Session {
    Session(D.Initial(el), queue, index, shuffle, repeat, R.START, multiset{}, P.TrackAt(queue, index))
  }

  /** What the environment shows at a step: the elements, and whether plays may be recorded. */
  datatype Input = Input(env: D.Env, bearer: bool)

  // ---- callbacks ----

  /** The store's reaction to one callback: the guards, and the index after a swap. */
  function Hear(s: Session, n: D.Note, bearer: bool): Session {
    s.(rec := R.Handle(s.rec, n, R.View(s.Shown(), bearer)),
       index := if n.Swapped? then R.SwappedIndex(s.queue, n.slot.index, n.slot.item) else s.index)
  }

  function HearAll(s: Session, notes: seq<D.Note>, bearer: bool): Session
    decreases |notes|
  {
    if notes == [] then s else HearAll(Hear(s, notes[0], bearer), notes[1..], bearer)
  }

  /** The callbacks made between two states of the deck. */
  function News(before: D.World, after: D.World): seq<D.Note> {
    if |before.log| <= |after.log| then after.log[|before.log|..] else []
  }

  /** One step of the deck, with the store's reactions to its callbacks. */
  function Act(s: Session, i: Input, step: D.Step): Session
    requires D.Enabled(s.world, step)
  {
    var h := D.Next(s.world, i.env, step);
    HearAll(s.(world := h), News(s.world, h), i.bearer)
  }

  // ---- loading ----

  /** `loadAndPlay` goes ahead: there is a track at the index and a deck to play it. */
  predicate CanLoad(s: Session, index: int) {
    P.TrackAt(s.queue, index).Some? && !s.world.deck.destroyed
  }

  /** `loadAndPlay` up to its source lookup: the index moves and the guard opens. */
  function Select(s: Session, index: int): Session {
    s.(index := index, rec := R.OnSelected(s.rec))
  }

  /** `loadAndPlay` whose lookup succeeds at once. */
  function Load(s: Session, i: Input, index: int, url: string, fadeSec: real): Session {
    if !CanLoad(s, index) then s
    else Act(Select(s, index), i, D.DoPlayNow(s.queue[index], index, url, fadeSec))
  }

  /** `loadAndPlay` whose `playNow` comes later, or never: the lookup is slow, refused or overtaken. */
  function BeginLoad(s: Session, index: int, fadeSec: real): Session {
    if !CanLoad(s, index) then s
    else Select(s, index).(lookups := s.lookups + multiset{Lookup(s.queue[index], index, fadeSec)})
  }

  /** A lookup succeeds: `playNow`, if its track is still the shown one. */
  function Arrive(s: Session, i: Input, l: Lookup, url: string): Session {
    var s0 := s.(lookups := s.lookups - multiset{l});
    if s.Shown().Some? && s.Shown().value.id == l.item.id then
      Act(s0, i, D.DoPlayNow(l.item, l.index, url, l.fadeSec))
    else s0
  }

  function Replace(s: Session, tracks: seq<D.Item>, start: int, picks: seq<nat>): Session
    requires s.shuffle && tracks != [] ==> P.Picks(picks, |P.Others(tracks, start)|)
  {
    s.(queue := P.Shuffled(tracks, s.shuffle, start, picks))
  }

  // ---- arming ----

  /** What `armPreload` does at once: with gapless off or nothing next, nothing stays armed. */
  function Rearm(s: Session, i: Input): Session {
    if i.env.prefs.gapless && P.TrackAt(s.queue, P.NextIndexFor(|s.queue|, s.index, s.repeat)).Some? then s
    else Act(s, i, D.DoSyncPreload(None, -1, None))
  }

  // ---- steps and runs ----

  datatype Step =
    | Happens(step: D.Step)                             // the deck's events, timers, promises; pause, resume, destroy
    | LoadNow(index: int, url: string, fadeSec: real)   // playAt, next, prev, the fallback's advance, recovery
    | LoadLater(index: int, fadeSec: real)
    | LookupDone(lookup: Lookup, url: string)
    | PlayQueue(tracks: seq<D.Item>, start: int, picks: seq<nat>, url: string)
    | PlayQueueLater(tracks: seq<D.Item>, start: int, picks: seq<nat>)
    | ToggleShuffle(picks: seq<nat>)
    | CycleRepeat
    | ClearQueue
    | Arm(item: D.Item, index: int, url: string)        // armPreload, its lookup done
    | Disarm                                            // armPreload with gapless off or nothing next

  /** The steps that select a track without playing it. */
  predicate Separates(step: Step) { step.LoadLater? || step.PlayQueueLater? }

  predicate Enabled(s: Session, step: Step) {
    match step
    case Happens(e) => !e.DoPlayNow? && !e.DoSyncPreload? && !e.DoReset? && D.Enabled(s.world, e)
    case LookupDone(l, _) => l in s.lookups
    case PlayQueue(tracks, start, picks, _) =>
      s.shuffle && tracks != [] ==> P.Picks(picks, |P.Others(tracks, start)|)
    case PlayQueueLater(tracks, start, picks) =>
      s.shuffle && tracks != [] ==> P.Picks(picks, |P.Others(tracks, start)|)
    case ToggleShuffle(picks) => !s.shuffle && s.queue != [] ==> P.Picks(picks, |P.Others(s.queue, s.index)|)
    case Arm(item, n, _) =>
      0 <= n < |s.queue| && n == P.NextIndexFor(|s.queue|, s.index, s.repeat) && s.queue[n].id == item.id
    case _ => true
  }

  function Cycled(repeat: P.Repeat): P.Repeat {
    match repeat case Off => P.All case All => P.One case One => P.Off
  }

  function Next(s: Session, i: Input, step: Step): Session
    requires Enabled(s, step)
  {
    match step
    case Happens(e) => Act(s, i, e)
    case LoadNow(index, url, fadeSec) => Load(s, i, index, url, fadeSec)
    case LoadLater(index, fadeSec) => BeginLoad(s, index, fadeSec)
    case LookupDone(l, url) => Arrive(s, i, l, url)
    case PlayQueue(tracks, start, picks, url) =>
      Load(Replace(s, tracks, start, picks), i, P.PlayIndex(s.shuffle, start, |tracks|), url, 0.0)
    case PlayQueueLater(tracks, start, picks) =>
      BeginLoad(Replace(s, tracks, start, picks), P.PlayIndex(s.shuffle, start, |tracks|), 0.0)
    case ToggleShuffle(picks) =>
      var (queue, index) := P.Toggled(s.queue, s.index, s.shuffle, picks);
      Rearm(s.(queue := queue, index := index, shuffle := !s.shuffle), i)
    case CycleRepeat => Rearm(s.(repeat := Cycled(s.repeat)), i)
    case ClearQueue =>
      var s1 := if s.world.deck.destroyed then s else Act(s, i, D.DoReset);
      s1.(queue := [], index := -1)
    case Arm(item, n, url) => Act(s, i, D.DoSyncPreload(Some(item), n, Some(url)))
    case Disarm => Act(s, i, D.DoSyncPreload(None, -1, None))
  }

  ghost predicate Run(states: seq<Session>, inputs: seq<Input>, steps: seq<Step>) {
    && |states| == |steps| + 1 && |inputs| == |steps|
    && forall k | 0 <= k < |steps| ::
         Enabled(states[k], steps[k]) && states[k + 1] == Next(states[k], inputs[k], steps[k])
  }
}
