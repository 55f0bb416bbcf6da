/** Play-history recording (app/src/player/store.ts): the two guards that keep a listen from
    being counted twice, driven by the deck's callbacks. */
module PlayRecords {
  import opened Rows
  import D = Deck
  import P = PlayOrder

  const PLAY_COUNT_MIN_SEC := 30.0
  const PLAY_COUNT_MIN_FRACTION := 0.5

  /** One submitted play. `listen` numbers the listens: each load or swap begins the next one. */
  datatype Play = Play(listen: nat, id: string, msPlayed: nat, completed: bool)

  datatype Recorder = Recorder(playId: Option<string>, retiringId: Option<string>,
                               listen: nat, owed: nat, plays: seq<Play>)

  /** What the store shows when a callback arrives, and whether the session may record plays. */
  datatype View = View(shown: Option<D.Item>, bearer: bool)

  function Millis(posSec: real): nat {
    if posSec <= 0.0 then 0 else (posSec * 1000.0 + 0.5).Floor
  }

  /** `submitPlay`: episodes and non-user sessions submit nothing. */
  function Submit(r: Recorder, listen: nat, item: D.Item, posSec: real, completed: bool, bearer: bool): Recorder {
    if item.episode || !bearer then r
    else r.(plays := r.plays + [Play(listen, item.id, Millis(posSec), completed)])
  }

  /** `recordPlay`. */
  function RecordPlay(r: Recorder, shown: Option<D.Item>, posSec: real, completed: bool, bearer: bool): Recorder {
    if shown.None? || shown.value.episode || r.playId == Some(shown.value.id) || !bearer then r
    else Submit(r.(playId := Some(shown.value.id)), r.listen, shown.value, posSec, completed, bearer)
  }

  predicate Crossed(posSec: real, durSec: real) {
    posSec >= PLAY_COUNT_MIN_SEC || (durSec > 0.0 && posSec / durSec >= PLAY_COUNT_MIN_FRACTION)
  }

  /** `maybeRecordPlay`. */
  function MaybeRecordPlay(r: Recorder, shown: Option<D.Item>, posSec: real, durSec: real, bearer: bool): Recorder {
    if Crossed(posSec, durSec) then RecordPlay(r, shown, posSec, false, bearer) else r
  }

  /** `loadAndPlay` opens the guard when it selects a track. */
  function OnSelected(r: Recorder): Recorder {
    r.(playId := None)
  }

  function OnSwapped(r: Recorder): Recorder {
    r.(retiringId := r.playId, playId := None, owed := r.listen, listen := r.listen + 1)
  }

  function OnRetired(r: Recorder, item: D.Item, posSec: real, reachedEnd: bool, bearer: bool): Recorder {
    var counted := r.retiringId == Some(item.id) || r.playId == Some(item.id);
    var r1 := r.(retiringId := None);
    if counted then r1 else Submit(r1, r.owed, item, posSec, reachedEnd, bearer)
  }

  /** The recorder's reaction to one deck callback. `Loaded` is a `playNow`: a listen begins, and the
      guard is left as its selection, or anything since, has left it. */
  function Handle(r: Recorder, n: D.Note, v: View): Recorder {
    match n
    case Loaded(_) => r.(listen := r.listen + 1)
    case Swapped(_, _) => OnSwapped(r)
    case Retired(item, posSec, reachedEnd) => OnRetired(r, item, posSec, reachedEnd, v.bearer)
    case TimeAt(posSec, durSec) => MaybeRecordPlay(r, v.shown, posSec, durSec, v.bearer)
    case Fallback(posSec) => RecordPlay(r, v.shown, posSec, true, v.bearer)
    case _ => r
  }

  const START := Recorder(None, None, 0, 0, [])

  // ---- what one callback submits ----

  /** Seconds in milliseconds, to the nearest one, halves up; none below zero. */
  predicate InMillis(ms: nat, sec: real) {
    if sec < 0.0 then ms == 0 else ms as real - 0.5 <= 1000.0 * sec < ms as real + 0.5
  }

  /** One play is added, with these values. */
  predicate Adds(r: Recorder, h: Recorder, listen: nat, id: string, posSec: real, completed: bool) {
    && |h.plays| == |r.plays| + 1 && h.plays[..|r.plays|] == r.plays
    && var p := h.plays[|r.plays|];
       p.listen == listen && p.id == id && p.completed == completed && InMillis(p.msPlayed, posSec)
  }

  /** The shown track may be recorded: there is one, it is no episode, a user listens, and the guard
      does not name it. */
  predicate MayRecord(r: Recorder, v: View) {
    && v.bearer && v.shown != None && !v.shown.value.episode
    && (r.playId == None || r.playId.value != v.shown.value.id)
  }

  /** A position counts from half a minute on, or from half of a track of known length. */
  predicate FarEnough(posSec: real, durSec: real) {
    posSec >= 30.0 || (durSec > 0.0 && 2.0 * posSec >= durSec)
  }

  lemma MillisIs(posSec: real)
    ensures InMillis(Millis(posSec), posSec)
  {
  }

  lemma CrossedIs(posSec: real, durSec: real)
    ensures Crossed(posSec, durSec) <==> FarEnough(posSec, durSec)
  {
    if durSec > 0.0 {
      var q := posSec / durSec;
      assert q * durSec == posSec;
      assert q >= 0.5 ==> q * durSec >= 0.5 * durSec;
      assert q < 0.5 ==> q * durSec < 0.5 * durSec;
    }
  }

  /** What each callback does. A position past the threshold, and the end without a standby, submit the
      shown track's listen and set the guard, the end as completed; a retirement submits the listen it
      is owed, completed if it reached the end, unless a guard names its item; a swap passes the guard
      on; a `playNow` and a swap begin a listen; and nothing else happens. */
  lemma CallbackIs(r: Recorder, n: D.Note, v: View)
    ensures var h := Handle(r, n, v);
            match n
            case Loaded(_) => h == r.(listen := r.listen + 1)
            case Swapped(_, _) =>
              h == r.(retiringId := r.playId, playId := None, owed := r.listen, listen := r.listen + 1)
            case TimeAt(posSec, durSec) =>
              if MayRecord(r, v) && FarEnough(posSec, durSec) then
                && h == r.(playId := Some(v.shown.value.id), plays := h.plays)
                && Adds(r, h, r.listen, v.shown.value.id, posSec, false)
              else h == r
            case Fallback(posSec) =>
              if MayRecord(r, v) then
                && h == r.(playId := Some(v.shown.value.id), plays := h.plays)
                && Adds(r, h, r.listen, v.shown.value.id, posSec, true)
              else h == r
            case Retired(item, posSec, reachedEnd) =>
              && h == r.(retiringId := None, plays := h.plays)
              && if v.bearer && !item.episode && !(Some(item.id) in {r.retiringId, r.playId}) then
                   Adds(r, h, r.owed, item.id, posSec, reachedEnd)
                 else h.plays == r.plays
            case _ => h == r
  {
    match n
    case TimeAt(posSec, durSec) =>
      MillisIs(posSec);
      CrossedIs(posSec, durSec);
    case Fallback(posSec) => MillisIs(posSec);
    case Retired(_, posSec, _) => MillisIs(posSec);
    case _ =>
  }

  // ---- where a swap leads ----

  predicate Queued(queue: seq<D.Item>, id: string) {
    exists i :: 0 <= i < |queue| && queue[i].id == id
  }

  /** The index `onSwapped` moves to: the armed one, the item's first place, or, the item having
      left the queue, the armed one after all. */
  function SwappedIndex(queue: seq<D.Item>, index: int, item: D.Item): int {
    if P.TrackAt(queue, index).Some? && queue[index].id == item.id then index
    else if P.IndexOfId(queue, item.id) >= 0 then P.IndexOfId(queue, item.id)
    else index
  }

  /** After a swap the store shows the swapped-in item exactly when it is still in the queue, and
      otherwise whatever stands at the armed index. */
  lemma SwapShowsItemIffQueued(queue: seq<D.Item>, index: int, item: D.Item)
    ensures var shown := P.TrackAt(queue, SwappedIndex(queue, index, item));
            && ((shown.Some? && shown.value.id == item.id) <==> Queued(queue, item.id))
            && (!Queued(queue, item.id) ==> shown == P.TrackAt(queue, index))
  {
    var i := P.IndexOfId(queue, item.id);
    if i >= 0 { assert queue[i].id == item.id; }
  }

  // ---- what one listen comes to ----

  ghost predicate Submitted(r: Recorder, listen: nat) {
    exists i :: 0 <= i < |r.plays| && r.plays[i].listen == listen
  }

  /** A position update of the active element, and the kind of session it meets. */
  datatype Update = Update(posSec: real, durSec: real, bearer: bool)

  function Hear(r: Recorder, shown: Option<D.Item>, updates: seq<Update>): Recorder {
    if updates == [] then r
    else
      var u := updates[|updates| - 1];
      MaybeRecordPlay(Hear(r, shown, updates[..|updates| - 1]), shown, u.posSec, u.durSec, u.bearer)
  }

  /** Some update is past the threshold while plays may be recorded. */
  ghost predicate Crosses(updates: seq<Update>) {
    exists i :: 0 <= i < |updates| && updates[i].bearer && Crossed(updates[i].posSec, updates[i].durSec)
  }

  /** The threshold counts the shown track: there is one, it is no episode, and it gets that far. */
  ghost predicate ThresholdCounts(shown: Option<D.Item>, updates: seq<Update>) {
    shown.Some? && !shown.value.episode && Crosses(updates)
  }

  /** However many updates, an open guard lets through exactly one play, of the shown track, and
      none unless the threshold counts it. */
  lemma {:induction false} UpdatesCountOnce(r: Recorder, shown: Option<D.Item>, updates: seq<Update>)
    requires r.playId.None?
    ensures var h := Hear(r, shown, updates);
            if ThresholdCounts(shown, updates) then
              && h.playId == Some(shown.value.id) && |h.plays| == |r.plays| + 1 && h.plays[..|r.plays|] == r.plays
              && h.plays[|r.plays|].listen == r.listen && h.plays[|r.plays|].id == shown.value.id
              && h == r.(playId := h.playId, plays := h.plays)
            else h == r
  {
    if updates == [] {
    } else {
      var front, u := updates[..|updates| - 1], updates[|updates| - 1];
      UpdatesCountOnce(r, shown, front);
      assert updates == front + [u];
      assert Crosses(updates) <==> Crosses(front) || (u.bearer && Crossed(u.posSec, u.durSec)) by {
        if Crosses(front) {
          var i :| 0 <= i < |front| && front[i].bearer && Crossed(front[i].posSec, front[i].durSec);
          assert updates[i] == front[i];
        }
        if Crosses(updates) {
          var i :| 0 <= i < |updates| && updates[i].bearer && Crossed(updates[i].posSec, updates[i].durSec);
          if i < |front| { assert front[i] == updates[i]; }
        }
      }
    }
  }

  /** The guards once a swapped-in listen of `x` has met its updates, has been swapped out, the next
      listen has met updates of its own, and the retirement of `x` is reported. */
  function SwappedOut(r: Recorder, shown: Option<D.Item>, updates: seq<Update>, next: Option<D.Item>,
                      after: seq<Update>, x: D.Item, posSec: real, reachedEnd: bool, bearer: bool): Recorder {
    OnRetired(Hear(OnSwapped(Hear(r, shown, updates)), next, after), x, posSec, reachedEnd, bearer)
  }

  function Count(r: Recorder, listen: nat): nat {
    CountIn(r.plays, listen)
  }

  function CountIn(plays: seq<Play>, listen: nat): nat {
    if plays == [] then 0
    else CountIn(plays[..|plays| - 1], listen) + if plays[|plays| - 1].listen == listen then 1 else 0
  }

  /** Exactly how often a swapped-in listen is submitted, for any updates during it and after it,
      any retirement position and either kind of session: by the threshold, on behalf of the track
      the store shows, and by the retirement, unless a guard names `x`. */
  lemma SwappedListenCounts(r: Recorder, shown: Option<D.Item>, updates: seq<Update>, next: Option<D.Item>,
                            after: seq<Update>, x: D.Item, posSec: real, reachedEnd: bool, bearer: bool)
    requires r.playId.None?
    ensures var h := SwappedOut(r, shown, updates, next, after, x, posSec, reachedEnd, bearer);
            var early := ThresholdCounts(shown, updates);
            var named := (early && shown.value.id == x.id) || (ThresholdCounts(next, after) && next.value.id == x.id);
            var late := !x.episode && bearer && !named;
            Count(h, r.listen) == Count(r, r.listen) + (if early then 1 else 0) + (if late then 1 else 0)
  {
    var r1 := Hear(r, shown, updates);
    UpdatesCountOnce(r, shown, updates);
    var r2 := OnSwapped(r1);
    var r3 := Hear(r2, next, after);
    UpdatesCountOnce(r2, next, after);
    if ThresholdCounts(shown, updates) { OneMore(r.plays, r1.plays, r.listen); }
    if ThresholdCounts(next, after) { OneMore(r2.plays, r3.plays, r.listen); }
    var h := OnRetired(r3, x, posSec, reachedEnd, bearer);
    if h.plays != r3.plays { OneMore(r3.plays, h.plays, r.listen); }
  }

  lemma {:induction false} OneMore(a: seq<Play>, b: seq<Play>, listen: nat)
    requires |b| == |a| + 1 && b[..|a|] == a
    ensures CountIn(b, listen) == CountIn(a, listen) + if b[|a|].listen == listen then 1 else 0
  {
  }

  /** A swapped-in listen is submitted at most once exactly when its track is still queued at the
      swap, or nothing countable at the armed index crosses the threshold, or its own retirement
      may not count or is taken for one already counted. */
  lemma CountedOnceIffQueued(r: Recorder, queue: seq<D.Item>, index: int, updates: seq<Update>, next: Option<D.Item>,
                             after: seq<Update>, x: D.Item, posSec: real, reachedEnd: bool, bearer: bool)
    requires r.playId.None? && Count(r, r.listen) == 0
    ensures var shown := P.TrackAt(queue, SwappedIndex(queue, index, x));
            var h := SwappedOut(r, shown, updates, next, after, x, posSec, reachedEnd, bearer);
            Count(h, r.listen) <= 1
            <==> || Queued(queue, x.id)
                 || !ThresholdCounts(P.TrackAt(queue, index), updates)
                 || x.episode || !bearer
                 || (ThresholdCounts(next, after) && next.value.id == x.id)
  {
    var shown := P.TrackAt(queue, SwappedIndex(queue, index, x));
    SwapShowsItemIffQueued(queue, index, x);
    SwappedListenCounts(r, shown, updates, next, after, x, posSec, reachedEnd, bearer);
  }

  // ---- the module's guards ----

  /** The two guards of the store module. `plays` is what has gone to the play history; the listens
      are numbered for the specification only. */
  class PlayRecorder {
    var playRecordedId: Option<string>
    var retiringPlayRecordedId: Option<string>
    ghost var listen: nat
    ghost var owed: nat
    ghost var plays: seq<Play>

    ghost function Model(): Recorder
      reads this
    {
      Recorder(playRecordedId, retiringPlayRecordedId, listen, owed, plays)
    }

    constructor ()
      ensures Model() == START
    {
      playRecordedId, retiringPlayRecordedId := None, None;
      listen, owed, plays := 0, 0, [];
    }

    method SubmitPlay(ghost of: nat, item: D.Item, posSec: real, completed: bool, bearer: bool)
      modifies this
      ensures Model() == Submit(old(Model()), of, item, posSec, completed, bearer)
      ensures if item.episode || !bearer then Model() == old(Model())
              else Adds(old(Model()), Model(), of, item.id, posSec, completed)
    {
      MillisIs(posSec);
      if item.episode { return; }
      if !bearer { return; }
      plays := plays + [Play(of, item.id, Millis(posSec), completed)];
    }

    method RecordPlayOf(item: Option<D.Item>, posSec: real, completed: bool, bearer: bool)
      modifies this
      ensures Model() == RecordPlay(old(Model()), item, posSec, completed, bearer)
    {
      if item.None? || item.value.episode { return; }
      if playRecordedId == Some(item.value.id) { return; }
      if !bearer { return; }
      playRecordedId := Some(item.value.id);
      SubmitPlay(listen, item.value, posSec, completed, bearer);
    }

    method MaybeRecordPlayOf(item: Option<D.Item>, posSec: real, durSec: real, bearer: bool)
      modifies this
      ensures Model() == MaybeRecordPlay(old(Model()), item, posSec, durSec, bearer)
    {
      if item.None? || item.value.episode { return; }
      if playRecordedId == Some(item.value.id) { return; }
      if Crossed(posSec, durSec) {
        RecordPlayOf(item, posSec, false, bearer);
      }
    }

    method Swapped()
      modifies this
      ensures Model() == OnSwapped(old(Model()))
    {
      retiringPlayRecordedId := playRecordedId;
      playRecordedId := None;
      owed, listen := listen, listen + 1;
    }

    method Retired(item: D.Item, posSec: real, reachedEnd: bool, bearer: bool)
      modifies this
      ensures Model() == OnRetired(old(Model()), item, posSec, reachedEnd, bearer)
    {
      var counted := retiringPlayRecordedId == Some(item.id) || playRecordedId == Some(item.id);
      retiringPlayRecordedId := None;
      if !counted {
        SubmitPlay(owed, item, posSec, reachedEnd, bearer);
      }
    }

    /** What `loadAndPlay` does to the guards before its source lookup. */
    method Selected()
      modifies this
      ensures Model() == OnSelected(old(Model()))
    {
      playRecordedId := None;
    }

    /** One deck callback, or a `playNow`. */
    method On(n: D.Note, v: View)
      modifies this
      ensures Model() == Handle(old(Model()), n, v)
    {
      match n {
        case Loaded(_) => listen := listen + 1;
        case Swapped(_, _) => Swapped();
        case Retired(item, posSec, reachedEnd) => Retired(item, posSec, reachedEnd, v.bearer);
        case TimeAt(posSec, durSec) => MaybeRecordPlayOf(v.shown, posSec, durSec, v.bearer);
        case Fallback(posSec) => RecordPlayOf(v.shown, posSec, true, v.bearer);
        case _ =>
      }
    }
  }
}
