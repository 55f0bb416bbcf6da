/** The two-element playback deck (app/src/player/deck.ts) as a step machine: store calls,
    element events, fade ticks and play-promise resolutions, in any order. */
module Deck {
  import opened Rows

  datatype Item = Item(id: string, albumId: string, trackNo: Option<int>, discNo: Option<int>, episode: bool)

  datatype El = A | B

  function Other(el: El): El {
    if el == A then B else A
  }

  datatype Pair<T> = Pair(a: T, b: T) {
    function Get(el: El): T { if el == A then a else b }
    function Set(el: El, x: T): Pair<T> { if el == A then Pair(x, b) else Pair(a, x) }
  }

  /** A slot object; `serial` is its identity. */
  datatype Slot = Slot(item: Item, index: int, serial: nat)

  datatype Retiring = Retiring(el: El, item: Item, notify: bool)

  datatype PendingPreload = PendingPreload(item: Item, index: int, url: string)

  /** Fade envelope; the trigonometric gains stay symbolic in their ramp position. */
  datatype Fade = Silent | Full | Rising(t: real) | Falling(t: real)

  /** What the deck last told an element: its source, whose loudness gain it carries, its fade,
      and whether to play. */
  datatype Media = Media(source: Option<string>, tuned: Option<Item>, fade: Fade, playing: bool)

  /** An interval timer driving a fade; a falling ramp retires its element when done. */
  datatype Ramp = Ramp(rising: bool)

  /** A pending `play()` call and what its resolution will do. */
  datatype Promise =
    | CutPlay(el: El)
    | FadePlay(el: El, fadeSec: real)
    | SwapPlay(el: El)
    | CrossfadePlay(cur: Slot, pre: Slot, outEl: El, fadeSec: real)

  /** Callbacks, in order; `Loaded` marks a `playNow` and `Dropped` a reset or destroy. */
  datatype Note =
    | Loaded(item: Item)
    | Swapped(from: Item, slot: Slot)
    | Retired(item: Item, posSec: real, reachedEnd: bool)
    | TimeAt(posSec: real, durSec: real)
    | Fallback(posSec: real)
    | Recover
    | ActiveError
    | PlayRejected
    | Dropped

  datatype Deck = Deck(active: El, current: Option<Slot>, preloaded: Option<Slot>, standbyReady: bool,
                       handoffArmed: bool, retiring: Option<Retiring>, pendingPreload: Option<PendingPreload>,
                       destroyed: bool, nextSerial: nat)

  datatype World = World(deck: Deck, media: Pair<Media>, ramps: Pair<Option<Ramp>>,
                         promises: multiset<Promise>, log: seq<Note>)

  // ---- what the environment shows at a step ----

  /** An element as the deck reads it; an unknown duration is None. */
  datatype Clock = Clock(time: real, duration: Option<real>, ended: bool, paused: bool, buffered: bool) {
    function Seconds(): real { if duration.Some? then duration.value else 0.0 }
    /** Played to within a second of the end. */
    predicate ReachedEnd() { ended || (Seconds() > 0.0 && time >= Seconds() - 1.0) }
  }

  datatype Prefs = Prefs(gapless: bool, crossfadeSec: real, smartAlbum: bool)

  datatype Env = Env(clocks: Pair<Clock>, prefs: Prefs, ios: bool)

  const MANUAL_FADE_MAX_SEC := 1.5
  const MIN_TRACK_SEC_FOR_FADE := 10.0

  function Min(x: real, y: real): real { if x <= y then x else y }

  predicate SmartAlbumPair(out: Item, inc: Item) {
    && out.albumId != "" && out.albumId == inc.albumId
    && out.trackNo.Some? && inc.trackNo.Some? && inc.trackNo.value == out.trackNo.value + 1
    && out.discNo == inc.discNo
  }

  // ---- fades and loudness ----

  function SetFade(w: World, el: El, f: Fade): World {
    w.(media := w.media.Set(el, w.media.Get(el).(fade := f)))
  }

  function Tune(w: World, el: El, item: Option<Item>): World {
    w.(media := w.media.Set(el, w.media.Get(el).(tuned := item)))
  }

  function CancelRamp(w: World, el: El): World {
    w.(ramps := w.ramps.Set(el, None))
  }

  function StartRamp(w: World, el: El, rising: bool): World {
    SetFade(w, el, if rising then Rising(0.0) else Falling(0.0)).(ramps := w.ramps.Set(el, Some(Ramp(rising))))
  }

  function Load(w: World, el: El, url: string, playing: bool): World {
    w.(media := w.media.Set(el, w.media.Get(el).(source := Some(url), playing := playing)))
  }

  function Playing(w: World, el: El, playing: bool): World {
    w.(media := w.media.Set(el, w.media.Get(el).(playing := playing)))
  }

  function Say(w: World, n: Note): World {
    w.(log := w.log + [n])
  }

  function Await(w: World, p: Promise): World {
    w.(promises := w.promises + multiset{p})
  }

  // ---- preloading and retiring ----

  /** `syncPreload`: None clears; the armed item is left alone; mid-fade the request parks. */
  function SyncPreload(w: World, item: Option<Item>, index: int, url: Option<string>): World {
    if w.deck.destroyed then w
    else if item.None? || url.None? then
      w.(deck := w.deck.(preloaded := None, standbyReady := false, pendingPreload := None))
    else if w.deck.preloaded.Some? && w.deck.preloaded.value.item.id == item.value.id then w
    else if w.deck.retiring.Some? then
      w.(deck := w.deck.(pendingPreload := Some(PendingPreload(item.value, index, url.value))))
    else ArmStandby(w, item.value, index, url.value)
  }

  function ArmStandby(w: World, item: Item, index: int, url: string): World {
    var standby := Other(w.deck.active);
    var w1 := CancelRamp(w, standby);
    var w2 := w1.(deck := w1.deck.(preloaded := Some(Slot(item, index, w.deck.nextSerial)), standbyReady := false,
                                   nextSerial := w.deck.nextSerial + 1));
    Load(SetFade(Tune(w2, standby, Some(item)), standby, Silent), standby, url, false)
  }

  /** `finalizeRetiring`: silence and stop the fading-out element, report a natural handoff, and
      apply a parked preload. */
  function Finalize(w: World, env: Env, el: El): World {
    if w.deck.retiring.None? || w.deck.retiring.value.el != el then w
    else
      var r := w.deck.retiring.value;
      var w1 := CancelRamp(w.(deck := w.deck.(retiring := None)), el);
      var w2 := SetFade(Playing(w1, el, false), el, Silent);
      var c := env.clocks.Get(el);
      var w3 := if r.notify then Say(w2, Retired(r.item, c.time, c.ReachedEnd())) else w2;
      ApplyParked(w3)
  }

  function ApplyParked(w: World): World {
    if w.deck.pendingPreload.None? then w
    else
      var p := w.deck.pendingPreload.value;
      SyncPreload(w.(deck := w.deck.(pendingPreload := None)), Some(p.item), p.index, Some(p.url))
  }

  function FinalizeNow(w: World, env: Env): World {
    if w.deck.retiring.Some? then Finalize(w, env, w.deck.retiring.value.el) else w
  }

  // ---- transport ----

  predicate CanFade(w: World, env: Env, item: Item, fadeSec: real) {
    var c := env.clocks.Get(w.deck.active);
    && Min(fadeSec, MANUAL_FADE_MAX_SEC) > 0.0 && !env.ios && !c.paused && !c.ended
    && w.deck.current.Some? && !w.deck.current.value.item.episode && !item.episode
  }

  /** Both ways of `playNow` first drop the standby's preload state. */
  function Unarm(w: World): World {
    w.(deck := w.deck.(handoffArmed := false, preloaded := None, standbyReady := false, pendingPreload := None))
  }

  function TakeOver(w: World, item: Item, index: int, el: El): World {
    w.(deck := w.deck.(current := Some(Slot(item, index, w.deck.nextSerial)), active := el,
                       nextSerial := w.deck.nextSerial + 1))
  }

  function CutTo(w: World, env: Env, item: Item, index: int, url: string): World {
    var el := w.deck.active;
    var w1 := TakeOver(CancelRamp(FinalizeNow(w, env), el), item, index, el);
    Await(Load(SetFade(Tune(w1, el, Some(item)), el, Full), el, url, true), CutPlay(el))
  }

  function FadeTo(w: World, env: Env, item: Item, index: int, url: string, fadeSec: real): World
    requires w.deck.current.Some?
  {
    var outEl := w.deck.active;
    var inEl := Other(outEl);
    var outgoing := w.deck.current.value.item;
    var w1 := TakeOver(CancelRamp(FinalizeNow(w, env), inEl), item, index, inEl);
    var w2 := w1.(deck := w1.deck.(retiring := Some(Retiring(outEl, outgoing, false))));
    var w3 := Load(SetFade(Tune(w2, inEl, Some(item)), inEl, Silent), inEl, url, true);
    StartRamp(Await(w3, FadePlay(inEl, fadeSec)), outEl, false)
  }

  function PlayNow(w: World, env: Env, item: Item, index: int, url: string, fadeSec: real): World {
    if w.deck.destroyed then w
    else
      var w1 := Unarm(Say(w, Loaded(item)));
      if CanFade(w, env, item, fadeSec) then FadeTo(w1, env, item, index, url, Min(fadeSec, MANUAL_FADE_MAX_SEC))
      else CutTo(w1, env, item, index, url)
  }

  function PauseDeck(w: World, env: Env): World {
    var w1 := FinalizeNow(w, env);
    Playing(w1, w1.deck.active, false)
  }

  /** `resume`: the caller deals with the promise of `play()`. */
  function Resume(w: World): World {
    Playing(w, w.deck.active, true)
  }

  function EmptyElement(w: World, el: El): World {
    var w1 := CancelRamp(w, el);
    w1.(media := w1.media.Set(el, Media(None, None, if el == w.deck.active then Full else Silent, false)))
  }

  function Reset(w: World): World {
    var w1 := w.(deck := Unarm(w).deck.(retiring := None));
    Say(EmptyElement(EmptyElement(w1, A), B), Dropped)
  }

  function Destroy(w: World): World {
    var w1 := CancelRamp(CancelRamp(w.(deck := w.deck.(destroyed := true)), A), B);
    Say(w1.(deck := w1.deck.(retiring := None, preloaded := None, pendingPreload := None)), Dropped)
  }

  // ---- handoffs ----

  predicate StandbyReady(w: World, env: Env) {
    w.deck.preloaded.Some? && (w.deck.standbyReady || env.clocks.Get(Other(w.deck.active)).buffered)
  }

  /** The standby starts, fully audible. */
  function StartStandby(w: World, inEl: El): World {
    Await(Playing(SetFade(CancelRamp(w, inEl), inEl, Full), inEl, true), SwapPlay(inEl))
  }

  /** Bookkeeping of a swap: `pre` is current on `inEl`; any retirement is forgotten unreported. */
  function Promote(w: World, pre: Slot, inEl: El, retiring: Option<Retiring>): World {
    w.(deck := w.deck.(preloaded := None, standbyReady := false, handoffArmed := false,
                       retiring := retiring, current := Some(pre), active := inEl))
  }

  function GaplessSwap(w: World, env: Env, cur: Slot, pre: Slot): World {
    var outEl := w.deck.active;
    var inEl := Other(outEl);
    var c := env.clocks.Get(outEl);
    var w1 := Promote(StartStandby(w, inEl), pre, inEl, None);
    Say(Say(w1, Swapped(cur.item, pre)), Retired(cur.item, if c.Seconds() != 0.0 then c.Seconds() else c.time, true))
  }

  /** `crossfadeFor`: seconds of crossfade for this boundary, or 0 for a gapless cut. */
  function CrossfadeFor(env: Env, out: Item, inc: Item, c: Clock): real {
    if env.ios then 0.0
    else if !env.prefs.gapless || !(env.prefs.crossfadeSec > 0.0) then 0.0
    else if out.episode || inc.episode then 0.0
    else if env.prefs.smartAlbum && SmartAlbumPair(out, inc) then 0.0
    else if c.duration.None? || c.duration.value < MIN_TRACK_SEC_FOR_FADE then 0.0
    else Min(env.prefs.crossfadeSec, c.duration.value / 2.0)
  }

  function StartCrossfade(w: World, cur: Slot, pre: Slot, fadeSec: real): World {
    var outEl := w.deck.active;
    var inEl := Other(outEl);
    var w1 := CancelRamp(w.(deck := w.deck.(handoffArmed := true)), inEl);
    Await(Playing(SetFade(w1, inEl, Silent), inEl, true), CrossfadePlay(cur, pre, outEl, fadeSec))
  }

  /** Whether, and how long, a crossfade starts now. */
  function CrossfadeNow(w: World, env: Env): Option<real> {
    var c := env.clocks.Get(w.deck.active);
    if w.deck.handoffArmed || c.paused then None
    else if w.deck.current.None? || w.deck.preloaded.None? || !StandbyReady(w, env) then None
    else
      var fadeSec := CrossfadeFor(env, w.deck.current.value.item, w.deck.preloaded.value.item, c);
      var remaining := c.Seconds() - c.time;
      if fadeSec <= 0.0 || remaining > fadeSec || remaining <= 0.1 then None
      else Some(Min(fadeSec, remaining))
  }

  /** The preloaded side becomes active and rises; the outgoing side retires audibly. */
  function SwapRoles(w: World, p: Promise): World
    requires p.CrossfadePlay?
  {
    var inEl := Other(p.outEl);
    var w1 := Promote(w, p.pre, inEl, Some(Retiring(p.outEl, p.cur.item, true)));
    StartRamp(StartRamp(Say(w1, Swapped(p.cur.item, p.pre)), inEl, true), p.outEl, false)
  }

  /** The crossfade's play promise resolves: swap roles, unless the boundary is superseded. */
  function CrossfadeStarted(w: World, env: Env, p: Promise): World
    requires p.CrossfadePlay?
  {
    var inEl := Other(p.outEl);
    if w.deck.destroyed then w
    else if w.deck.preloaded != Some(p.pre) || w.deck.active != p.outEl then
      if w.deck.active != inEl then Playing(w, inEl, false) else w
    else SwapRoles(FinalizeNow(w, env), p)
  }

  // ---- element events, timers, promises ----

  function OnTime(w: World, env: Env, el: El): World {
    if el != w.deck.active then w
    else
      var c := env.clocks.Get(el);
      var w1 := Say(w, TimeAt(c.time, c.Seconds()));
      var fade := CrossfadeNow(w1, env);
      if fade.Some? then StartCrossfade(w1, w1.deck.current.value, w1.deck.preloaded.value, fade.value) else w1
  }

  function OnEnded(w: World, env: Env, el: El): World {
    if el != w.deck.active then Finalize(w, env, el)
    else if w.deck.current.Some? && w.deck.preloaded.Some? && StandbyReady(w, env) && env.prefs.gapless then
      GaplessSwap(w, env, w.deck.current.value, w.deck.preloaded.value)
    else Say(w, Fallback(env.clocks.Get(el).time))
  }

  function OnError(w: World, env: Env, el: El): World {
    if el == w.deck.active then Say(w, ActiveError)
    else if w.deck.retiring.Some? && w.deck.retiring.value.el == el then Finalize(w, env, el)
    else if w.deck.preloaded.Some? then w.(deck := w.deck.(preloaded := None, standbyReady := false))
    else w
  }

  function OnCanPlay(w: World, el: El): World {
    if el != w.deck.active && w.deck.preloaded.Some? then w.(deck := w.deck.(standbyReady := true)) else w
  }

  function OnTick(w: World, env: Env, el: El, t: real): World
    requires w.ramps.Get(el).Some?
  {
    var rising := w.ramps.Get(el).value.rising;
    var w1 := SetFade(w, el, if rising then Rising(t) else Falling(t));
    if t < 1.0 then w1
    else if rising then CancelRamp(w1, el)
    else Finalize(CancelRamp(w1, el), env, el)
  }

  function OnPromise(w: World, env: Env, p: Promise, ok: bool): World {
    match p
    case CutPlay(_) => if ok then w else Say(w, PlayRejected)
    case FadePlay(el, _) =>
      if !ok then Say(w, PlayRejected)
      else if w.deck.destroyed || w.deck.active != el then w
      else StartRamp(w, el, true)
    case SwapPlay(el) =>
      if ok || w.deck.destroyed || w.deck.active != el then w else Say(w, Recover)
    case CrossfadePlay(_, _, _, _) =>
      if ok then CrossfadeStarted(w, env, p)
      else w.(deck := w.deck.(handoffArmed := false, standbyReady := false))
  }

  // ---- steps and runs ----

  datatype Step =
    | DoPlayNow(item: Item, index: int, url: string, fadeSec: real)
    | DoSyncPreload(wanted: Option<Item>, index: int, source: Option<string>)
    | DoPause
    | DoResume
    | DoReset
    | DoDestroy
    | TimeUpdate(el: El)
    | Ended(el: El)
    | Failed(el: El)
    | CanPlay(el: El)
    | Tick(el: El, t: real)
    | Settled(promise: Promise, ok: bool)

  predicate Enabled(w: World, s: Step) {
    match s
    case TimeUpdate(_) => !w.deck.destroyed
    case Ended(_) => !w.deck.destroyed
    case Failed(_) => !w.deck.destroyed
    case CanPlay(_) => !w.deck.destroyed
    case Tick(el, t) => w.ramps.Get(el).Some? && t >= 0.0
    case Settled(p, _) => p in w.promises
    case _ => true
  }

  function Next(w: World, env: Env, s: Step): World
    requires Enabled(w, s)
  {
    match s
    case DoPlayNow(item, index, url, fadeSec) => PlayNow(w, env, item, index, url, fadeSec)
    case DoSyncPreload(item, index, url) => SyncPreload(w, item, index, url)
    case DoPause => PauseDeck(w, env)
    case DoResume => Resume(w)
    case DoReset => Reset(w)
    case DoDestroy => Destroy(w)
    case TimeUpdate(el) => OnTime(w, env, el)
    case Ended(el) => OnEnded(w, env, el)
    case Failed(el) => OnError(w, env, el)
    case CanPlay(el) => OnCanPlay(w, el)
    case Tick(el, t) => OnTick(w, env, el, t)
    case Settled(p, ok) => OnPromise(w.(promises := w.promises - multiset{p}), env, p, ok)
  }

  const IDLE := Media(None, None, Silent, false)

  /** A fresh deck: nothing current, the active element at full fade. */
  function Initial(active: El): World {
    World(Deck(active, None, None, false, false, None, None, false, 0),
          Pair(IDLE, IDLE).Set(active, IDLE.(fade := Full)), Pair(None, None), multiset{}, [])
  }

  ghost predicate Run(states: seq<World>, envs: seq<Env>, steps: seq<Step>) {
    && |states| == |steps| + 1 && |envs| == |steps|
    && forall i | 0 <= i < |steps| ::
         Enabled(states[i], steps[i]) && states[i + 1] == Next(states[i], envs[i], steps[i])
  }
}
