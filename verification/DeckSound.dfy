/** What is heard of the deck: which element sounds, how loud and from where, after each call, event,
    timer and promise, and on every run. */
module DeckSound {
  import opened Rows
  import opened Deck
  import opened DeckLaws

  // ---- calls ----

  /** The outgoing element is heard and may fade out: a fade is wanted, it is possible, it plays, and
      neither side is an episode. */
  predicate MayFade(w: World, env: Env, item: Item, fadeSec: real) {
    var c := env.clocks.Get(w.deck.active);
    && fadeSec > 0.0 && !env.ios && !(c.paused || c.ended)
    && w.deck.current != None && !(w.deck.current.value.item.episode || item.episode)
  }

  /** Without a fade the requested track plays at once and at full fade, on the same element. */
  lemma PlayNowCuts(w: World, env: Env, item: Item, index: int, url: string, fadeSec: real)
    requires Inv(w) && !w.deck.destroyed && !MayFade(w, env, item, fadeSec)
    ensures var el := w.deck.active;
            var h := PlayNow(w, env, item, index, url, fadeSec);
            && h.deck.active == el && h.deck.current == Some(Slot(item, index, w.deck.nextSerial))
            && h.media.Get(el) == Media(Some(url), Some(item), Full, true) && h.ramps.Get(el) == None
            && h.promises == w.promises + multiset{CutPlay(el)}
            && h.deck.retiring.None? && !h.deck.handoffArmed && !h.deck.standbyReady
            && (w.deck.retiring.Some? ==> h.media.Get(Other(el)).fade == Silent && !h.media.Get(Other(el)).playing)
  {
    var w1 := Unarm(Say(w, Loaded(item)));
    if w1.deck.retiring.Some? { assert FinalizeNow(w1, env) == Retire(w1, env); }
  }

  /** With a fade the requested track starts silently on the other element, which fades in once it
      plays, for at most a second and a half; the outgoing track plays on and fades out, to be dropped
      unreported. */
  lemma PlayNowFades(w: World, env: Env, item: Item, index: int, url: string, fadeSec: real)
    requires Inv(w) && !w.deck.destroyed && MayFade(w, env, item, fadeSec)
    ensures var (out, inc) := (w.deck.active, Other(w.deck.active));
            var h := PlayNow(w, env, item, index, url, fadeSec);
            && h.deck.active == inc && h.deck.current == Some(Slot(item, index, w.deck.nextSerial))
            && h.media.Get(inc) == Media(Some(url), Some(item), Silent, true) && h.ramps.Get(inc) == None
            && h.media.Get(out) == w.media.Get(out).(fade := Falling(0.0)) && h.ramps.Get(out) == Some(Ramp(false))
            && h.deck.retiring == Some(Retiring(out, w.deck.current.value.item, false))
            && !h.deck.handoffArmed && !h.deck.standbyReady
            && h.promises == w.promises + multiset{FadePlay(inc, if fadeSec < 1.5 then fadeSec else 1.5)}
  {
    var w1 := Unarm(Say(w, Loaded(item)));
    if w1.deck.retiring.Some? { assert FinalizeNow(w1, env) == Retire(w1, env); }
  }

  /** Nothing changes in what is heard, nor in what the elements hold. */
  predicate Unheard(w: World, h: World) {
    h.media == w.media && h.ramps == w.ramps && h.promises == w.promises
  }

  /** Preloading: nothing on a destroyed deck; cleared without an item or a source; left alone when the
      item is armed; parked during a fade-out; and otherwise loaded, silent and stopped, on the element
      that is not active. The log and the active element stay as they are. */
  lemma PreloadIs(w: World, item: Option<Item>, index: int, url: Option<string>)
    requires Inv(w)
    ensures var h := SyncPreload(w, item, index, url);
            var standby := Other(w.deck.active);
            && h.log == w.log && h.promises == w.promises
            && h.media.Get(w.deck.active) == w.media.Get(w.deck.active)
            && h.ramps.Get(w.deck.active) == w.ramps.Get(w.deck.active)
            && if w.deck.destroyed then h == w
               else if item == None || url == None then
                 Unheard(w, h) && h.deck == w.deck.(preloaded := None, pendingPreload := None, standbyReady := false)
               else if w.deck.preloaded.Some? && w.deck.preloaded.value.item.id == item.value.id then h == w
               else if w.deck.retiring != None then
                 Unheard(w, h)
                 && h.deck == w.deck.(pendingPreload := Some(PendingPreload(item.value, index, url.value)))
               else
                 && h.media.Get(standby) == Media(url, item, Silent, false) && h.ramps.Get(standby) == None
                 && h.deck.preloaded == Some(Slot(item.value, index, w.deck.nextSerial))
                 && h.deck == w.deck.(preloaded := h.deck.preloaded, standbyReady := false,
                                      nextSerial := w.deck.nextSerial + 1)
  {
  }

  /** Pausing stops the active element, where it is and as loud as it is, and ends a fade-out. */
  lemma PauseStops(w: World, env: Env)
    requires Inv(w)
    ensures var el := w.deck.active;
            var h := PauseDeck(w, env);
            && h.media.Get(el) == w.media.Get(el).(playing := false) && h.ramps.Get(el) == w.ramps.Get(el)
            && SameTrack(w, h) && h.deck.retiring == None
            && (w.deck.retiring.Some? ==> h.media.Get(Other(el)).fade == Silent && !h.media.Get(Other(el)).playing)
  {
    if w.deck.retiring.Some? {
      FinalizeSpares(w, env, w.deck.retiring.value.el);
      ParkedStaysSilent(Retire(w, env), w.deck.retiring.value.el);
    }
  }

  lemma ResumeStarts(w: World)
    ensures var el := w.deck.active;
            var h := Resume(w);
            && h == w.(media := h.media) && h.media.Get(el) == w.media.Get(el).(playing := true)
            && h.media.Get(Other(el)) == w.media.Get(Other(el))
  {
  }

  /** A reset empties and stops both elements, ends every fade and forgets every preload; the active
      element is ready at full fade. */
  lemma ResetEmpties(w: World)
    ensures var el := w.deck.active;
            var h := Reset(w);
            && h.media.Get(el) == Media(None, None, Full, false)
            && h.media.Get(Other(el)) == Media(None, None, Silent, false)
            && h.ramps == Pair(None, None) && h.promises == w.promises && h.log == w.log + [Dropped]
            && h.deck == w.deck.(retiring := None, preloaded := None, pendingPreload := None, standbyReady := false,
                                 handoffArmed := false)
  {
  }

  /** Destroying the deck stops its timers and forgets its preloads, and leaves the elements alone. */
  lemma DestroyLetsGo(w: World)
    ensures var h := Destroy(w);
            && h.media == w.media && h.ramps == Pair(None, None) && h.promises == w.promises
            && h.log == w.log + [Dropped]
            && h.deck == w.deck.(destroyed := true, retiring := None, preloaded := None, pendingPreload := None)
  {
  }

  // ---- events ----

  /** The standby can take over at once: it is armed, and known or seen to be buffered. */
  predicate CanTakeOver(w: World, env: Env) {
    && w.deck.current != None && w.deck.preloaded != None
    && (w.deck.standbyReady || env.clocks.Get(Other(w.deck.active)).buffered)
  }

  /** The end of the active element: with gapless on and a standby that can take over, that plays at
      once, at full fade, and is the current track; otherwise the end is only announced. */
  lemma EndSwapsOrFallsBack(w: World, env: Env)
    requires Inv(w)
    ensures var (out, inc) := (w.deck.active, Other(w.deck.active));
            var (c, h) := (env.clocks.Get(out), OnEnded(w, env, out));
            if env.prefs.gapless && CanTakeOver(w, env) then
              var (cur, pre) := (w.deck.current.value, w.deck.preloaded.value);
              && h.media.Get(inc) == w.media.Get(inc).(fade := Full, playing := true) && h.ramps.Get(inc) == None
              && h.media.Get(out) == w.media.Get(out) && h.ramps.Get(out) == w.ramps.Get(out)
              && h.promises == w.promises + multiset{SwapPlay(inc)}
              && h.deck == w.deck.(active := inc, current := Some(pre), preloaded := None, standbyReady := false,
                                   handoffArmed := false)
              && h.log == w.log + [Swapped(cur.item, pre)]
                          + [Retired(cur.item, if c.duration.Some? && c.duration.value != 0.0 then c.duration.value
                                               else c.time, true)]
            else h == w.(log := w.log + [Fallback(c.time)])
  {
  }

  /** The end of the other element only ends its fade-out; an error of the active one is announced, of
      a retiring one ends its fade-out, and of a standby drops what it has preloaded. */
  lemma OtherEvents(w: World, env: Env, el: El)
    requires Inv(w)
    ensures el != w.deck.active ==> OnEnded(w, env, el) == Finalize(w, env, el)
    ensures el == w.deck.active ==> OnError(w, env, el) == w.(log := w.log + [ActiveError])
    ensures el != w.deck.active && w.deck.retiring.Some? ==> OnError(w, env, el) == Finalize(w, env, el)
    ensures el != w.deck.active && w.deck.retiring == None ==>
      OnError(w, env, el) == w.(deck := w.deck.(preloaded := None, standbyReady := w.deck.standbyReady
                                                                                  && w.deck.preloaded == None))
    ensures el == w.deck.active ==> OnCanPlay(w, el) == w
    ensures el != w.deck.active ==>
      OnCanPlay(w, el) == w.(deck := w.deck.(standbyReady := w.deck.preloaded != None || w.deck.standbyReady))
  {
  }

  /** Two tracks that follow each other on one disc of one album. */
  predicate Consecutive(a: Item, b: Item) {
    && a.albumId == b.albumId && a.albumId != "" && a.discNo == b.discNo
    && match (a.trackNo, b.trackNo)
       case (Some(x), Some(y)) => y - x == 1
       case _ => false
  }

  /** This boundary may be crossfaded, and `remaining` seconds are short enough to start now. */
  predicate FadesAcross(env: Env, out: Item, inc: Item, c: Clock, remaining: real) {
    && env.prefs.gapless && !env.ios && !(out.episode || inc.episode)
    && !(env.prefs.smartAlbum && Consecutive(out, inc))
    && c.duration != None && c.duration.value >= 10.0
    && 0.1 < remaining <= env.prefs.crossfadeSec && 2.0 * remaining <= c.duration.value
  }

  /** A position update is announced. It starts a crossfade exactly once per boundary, while the element
      plays and a standby can take over, as soon as all that remains, but more than a tenth of a second,
      fits the preferred length and half of a track of ten seconds or more: the standby then plays
      silently. Nothing else happens. */
  lemma TimeStartsCrossfade(w: World, env: Env)
    requires Inv(w)
    ensures var (out, inc) := (w.deck.active, Other(w.deck.active));
            var c := env.clocks.Get(out);
            var seconds := if c.duration == None then 0.0 else c.duration.value;
            var h := OnTime(w, env, out);
            && h.log == w.log + [TimeAt(c.time, seconds)]
            && if && !w.deck.handoffArmed && !c.paused && CanTakeOver(w, env)
                  && FadesAcross(env, w.deck.current.value.item, w.deck.preloaded.value.item, c, seconds - c.time)
               then
                 var (cur, pre) := (w.deck.current.value, w.deck.preloaded.value);
                 && h.deck == w.deck.(handoffArmed := true) && h.ramps.Get(inc) == None
                 && h.media.Get(inc) == w.media.Get(inc).(fade := Silent, playing := true)
                 && h.media.Get(out) == w.media.Get(out) && h.ramps.Get(out) == w.ramps.Get(out)
                 && h.promises == w.promises + multiset{CrossfadePlay(cur, pre, out, seconds - c.time)}
               else h == w.(log := h.log)
    ensures OnTime(w, env, Other(w.deck.active)) == w
  {
    var w1 := Say(w, TimeAt(env.clocks.Get(w.deck.active).time, env.clocks.Get(w.deck.active).Seconds()));
    CrossfadeWindow(w1, env);
  }

  // ---- promises and timers ----

  /** The crossfade whose standby has started in time: it is the current track and fades in, while the
      outgoing one fades out and is due to be reported; too late, it is stopped unless it is active by
      now; refused, the boundary is open again. */
  lemma CrossfadeSettles(w: World, env: Env, p: Promise)
    requires Inv(w) && Inv(w.(promises := w.promises + multiset{p})) && p.CrossfadePlay?
    ensures var inc := Other(p.outEl);
            var h := OnPromise(w, env, p, true);
            if w.deck.destroyed then h == w
            else if w.deck.preloaded == Some(p.pre) then
              && h.deck == w.deck.(active := inc, current := Some(p.pre), preloaded := None, standbyReady := false,
                                   handoffArmed := false, retiring := Some(Retiring(p.outEl, p.cur.item, true)))
              && h.media.Get(inc) == w.media.Get(inc).(fade := Rising(0.0))
              && h.media.Get(p.outEl) == w.media.Get(p.outEl).(fade := Falling(0.0))
              && h.ramps.Get(inc) == Some(Ramp(true)) && h.ramps.Get(p.outEl) == Some(Ramp(false))
              && h.log == w.log + [Swapped(p.cur.item, p.pre)] && h.promises == w.promises
            else if w.deck.active == inc then h == w
            else
              && h == w.(media := h.media) && h.media.Get(p.outEl) == w.media.Get(p.outEl)
              && h.media.Get(inc) == w.media.Get(inc).(playing := false)
    ensures OnPromise(w, env, p, false) == w.(deck := w.deck.(handoffArmed := false, standbyReady := false))
  {
    if !w.deck.destroyed && w.deck.preloaded == Some(p.pre) {
      assert p in w.promises + multiset{p};
      assert FinalizeNow(w, env) == w;
    }
  }

  /** The other promises: a refused start is announced, and a refused gapless start asks for recovery if
      it still matters; a fade-in begins only on the element that is still active. */
  lemma StartSettles(w: World, env: Env, el: El, sec: real, ok: bool)
    ensures OnPromise(w, env, CutPlay(el), ok) == w.(log := if ok then w.log else w.log + [PlayRejected])
    ensures OnPromise(w, env, SwapPlay(el), ok)
            == w.(log := if ok || w.deck.destroyed || w.deck.active != el then w.log else w.log + [Recover])
    ensures !ok ==> OnPromise(w, env, FadePlay(el, sec), ok) == w.(log := w.log + [PlayRejected])
    ensures ok && (w.deck.destroyed || el != w.deck.active) ==> OnPromise(w, env, FadePlay(el, sec), ok) == w
    ensures ok && !w.deck.destroyed && el == w.deck.active ==>
      var h := OnPromise(w, env, FadePlay(el, sec), ok);
      && h == w.(media := h.media, ramps := h.ramps)
      && h.media.Get(el) == w.media.Get(el).(fade := Rising(0.0)) && h.ramps.Get(el) == Some(Ramp(true))
      && h.media.Get(Other(el)) == w.media.Get(Other(el)) && h.ramps.Get(Other(el)) == w.ramps.Get(Other(el))
  {
  }

  /** A tick puts the fade where it belongs and, when the fade is over, ends it. */
  lemma TickMoves(w: World, env: Env, el: El, t: real)
    requires Inv(w) && w.ramps.Get(el).Some? && (w.ramps.Get(el).value.rising || t < 1.0)
    ensures var rising := w.ramps.Get(el).value.rising;
            var h := OnTick(w, env, el, t);
            && h == w.(media := h.media, ramps := h.ramps) && h.media.Get(Other(el)) == w.media.Get(Other(el))
            && h.media.Get(el) == w.media.Get(el).(fade := if rising then Rising(t) else Falling(t))
            && h.ramps.Get(el) == (if t < 1.0 then Some(Ramp(rising)) else None)
            && h.ramps.Get(Other(el)) == w.ramps.Get(Other(el))
  {
  }

  /** A natural handoff is reported where it is, as complete if the element says so or is within a second
      of a known end; a silent one is not reported. */
  lemma RetirementSays(w: World, env: Env)
    requires w.deck.retiring.Some?
    ensures var r := w.deck.retiring.value;
            var c := env.clocks.Get(r.el);
            var complete := c.ended || (c.duration.Some? && c.duration.value > 0.0 && c.duration.value - c.time <= 1.0);
            Finalize(w, env, r.el).log == w.log + if r.notify then [Retired(r.item, c.time, complete)] else []
  {
    var w1 := Retire(w, env);
    assert Finalize(w, env, w.deck.retiring.value.el) == ApplyParked(w1) && ApplyParked(w1).log == w1.log;
  }

  /** A fresh deck: nothing loaded, armed or fading, and the element it adopts ready at full fade. */
  lemma StartsIdle(el: El)
    ensures var w := Initial(el);
            && w.deck == Deck(el, None, None, false, false, None, None, false, w.deck.nextSerial)
            && w.media.Get(el) == Media(None, None, Full, false)
            && w.media.Get(Other(el)) == Media(None, None, Silent, false)
            && w.ramps == Pair(None, None) && w.promises == multiset{} && w.log == []
  {
  }

  /** Until it is destroyed a deck hears every event of its elements, and a timer or a promise outlives
      even that. */
  lemma EventsReach(w: World, el: El, t: real, p: Promise, ok: bool)
    ensures w.deck.destroyed || (forall s | s in {TimeUpdate(el), Ended(el), Failed(el), CanPlay(el)} :: Enabled(w, s))
    ensures w.ramps.Get(el).Some? && t >= 0.0 ==> Enabled(w, Tick(el, t))
    ensures p in w.promises ==> Enabled(w, Settled(p, ok))
  {
  }

  // ---- the two elements, over whole runs ----

  /** At full fade, or at the end of a fade-in. */
  predicate Loud(f: Fade) { f == Full || (f.Rising? && f.t >= 1.0) }

  /** The active element is at full fade, fading in, or about to fade in once it plays. */
  ghost predicate Heard(w: World) {
    var el := w.deck.active;
    || w.deck.destroyed || Loud(w.media.Get(el).fade) || w.ramps.Get(el) == Some(Ramp(true))
    || exists p :: p in w.promises && p.FadePlay? && p.el == el
  }

  /** The other element is silent or on its way there. */
  predicate Hushed(w: World) {
    var el := Other(w.deck.active);
    || w.deck.destroyed || (w.media.Get(el).fade == Silent && w.ramps.Get(el) == None)
    || (w.deck.retiring.Some? && w.deck.retiring.value.el == el && w.ramps.Get(el) == Some(Ramp(false)))
  }

  /** The active element that was to fade in refuses to play. */
  predicate Refuses(w: World, s: Step) {
    s.Settled? && s.promise.FadePlay? && s.promise.el == w.deck.active && !s.ok
  }

  /** The active element has played to its end and the standby takes over. */
  predicate Outplayed(w: World, env: Env, s: Step) {
    s == Ended(w.deck.active) && env.prefs.gapless && CanTakeOver(w, env)
  }

  predicate SameTrack(w: World, h: World) {
    h.deck.active == w.deck.active && h.deck.current == w.deck.current
  }

  /** The active element is as it was. */
  ghost predicate SameSound(w: World, h: World) {
    var el := w.deck.active;
    && SameTrack(w, h) && h.media.Get(el).fade == w.media.Get(el).fade && h.ramps.Get(el) == w.ramps.Get(el)
    && (w.deck.destroyed ==> h.deck.destroyed)
    && forall p | p in w.promises && p.FadePlay? && p.el == el :: p in h.promises
  }

  /** The active element is left alone, and the other one no louder than before. */
  ghost predicate Spares(w: World, h: World) {
    && SameSound(w, h) && h.media.Get(w.deck.active) == w.media.Get(w.deck.active)
    && h.deck.destroyed == w.deck.destroyed && (Hushed(w) ==> Hushed(h))
  }

  lemma RetireSpares(w: World, env: Env)
    requires Inv(w) && w.deck.retiring.Some?
    ensures var h := Retire(w, env); Spares(w, h) && h.deck.pendingPreload == w.deck.pendingPreload
  {
  }

  lemma ParkedSpares(w: World)
    requires w.deck.retiring.None?
    ensures Spares(w, ApplyParked(w))
  {
  }

  lemma SparesTwice(w: World, m: World, h: World)
    requires Spares(w, m) && Spares(m, h)
    ensures Spares(w, h)
  {
  }

  lemma FinalizeSpares(w: World, env: Env, el: El)
    requires Inv(w)
    ensures Spares(w, Finalize(w, env, el))
  {
    if w.deck.retiring.Some? && w.deck.retiring.value.el == el {
      var m := Retire(w, env);
      RetireSpares(w, env);
      ParkedSpares(m);
      assert Finalize(w, env, el) == ApplyParked(m);
      SparesTwice(w, m, ApplyParked(m));
    }
  }

  /** What a step does to the active and to the other element. */
  ghost predicate Moves(w: World, env: Env, s: Step, h: World) {
    && (Heard(w) ==> Heard(h) || (Refuses(w, s) && SameTrack(w, h)))
    && (!Heard(w) ==> Heard(h) || SameTrack(w, h))
    && (|| Hushed(h) || (Outplayed(w, env, s) && h.deck.active == Other(w.deck.active))
        || (!Hushed(w) && h.deck.active == w.deck.active))
  }

  lemma SameSoundMoves(w: World, env: Env, s: Step, h: World)
    requires SameSound(w, h) && (Hushed(w) ==> Hushed(h))
    ensures Moves(w, env, s, h)
  {
  }

  predicate Wins(w: World, p: Promise, ok: bool)
    requires p.CrossfadePlay?
  {
    ok && !w.deck.destroyed && w.deck.preloaded == Some(p.pre)
  }

  lemma CrossfadeWins(w: World, env: Env, p: Promise)
    requires Inv(w) && p in w.promises && p.CrossfadePlay? && Wins(w, p, true)
    ensures var h := Next(w, env, Settled(p, true)); Heard(h) && Hushed(h)
  {
    var w0 := w.(promises := w.promises - multiset{p});
    assert w0.promises + multiset{p} == w.promises;
    CrossfadeSettles(w0, env, p);
  }

  lemma CrossfadeLoses(w: World, env: Env, p: Promise, ok: bool)
    requires Inv(w) && p in w.promises && p.CrossfadePlay? && !Wins(w, p, ok)
    ensures var h := Next(w, env, Settled(p, ok)); SameSound(w, h) && (Hushed(w) ==> Hushed(h))
  {
    var w0 := w.(promises := w.promises - multiset{p});
    assert w0.promises + multiset{p} == w.promises;
    CrossfadeSettles(w0, env, p);
  }

  lemma CrossfadeMoves(w: World, env: Env, p: Promise, ok: bool)
    requires Inv(w) && p in w.promises && p.CrossfadePlay?
    ensures Moves(w, env, Settled(p, ok), Next(w, env, Settled(p, ok)))
  {
    if Wins(w, p, ok) {
      CrossfadeWins(w, env, p);
    } else {
      CrossfadeLoses(w, env, p, ok);
      SameSoundMoves(w, env, Settled(p, ok), Next(w, env, Settled(p, ok)));
    }
  }

  lemma StartMoves(w: World, env: Env, p: Promise, ok: bool)
    requires Inv(w) && p in w.promises && !p.CrossfadePlay?
    ensures Moves(w, env, Settled(p, ok), Next(w, env, Settled(p, ok)))
  {
    var w0 := w.(promises := w.promises - multiset{p});
    StartSettles(w0, env, p.el, if p.FadePlay? then p.fadeSec else 0.0, ok);
  }

  lemma PlayMoves(w: World, env: Env, s: Step)
    requires Inv(w) && s.DoPlayNow?
    ensures Moves(w, env, s, Next(w, env, s))
  {
    var h := Next(w, env, s);
    if w.deck.destroyed {
    } else if MayFade(w, env, s.item, s.fadeSec) {
      PlayNowFades(w, env, s.item, s.index, s.url, s.fadeSec);
      var p := FadePlay(h.deck.active, if s.fadeSec < 1.5 then s.fadeSec else 1.5);
      assert p in h.promises;
    } else {
      PlayNowCuts(w, env, s.item, s.index, s.url, s.fadeSec);
      CutHushes(w, env, s.item, s.index, s.url, s.fadeSec);
    }
  }

  lemma CutHushes(w: World, env: Env, item: Item, index: int, url: string, fadeSec: real)
    requires Inv(w) && !w.deck.destroyed && !MayFade(w, env, item, fadeSec)
    ensures var h := PlayNow(w, env, item, index, url, fadeSec); Hushed(w) ==> Hushed(h)
  {
    PlayNowCuts(w, env, item, index, url, fadeSec);
    var w1 := Unarm(Say(w, Loaded(item)));
    if w1.deck.retiring.Some? { assert FinalizeNow(w1, env) == Retire(w1, env); }
  }

  lemma LastTickMoves(w: World, env: Env, el: El, t: real)
    requires Inv(w) && w.ramps.Get(el) == Some(Ramp(false)) && t >= 1.0
    ensures Spares(w, OnTick(w, env, el, t))
  {
    var w1 := SetFade(w, el, Falling(t));
    assert Inv(w1);
    FinalizeSpares(w1, env, el);
    assert Finalize(CancelRamp(w1, el), env, el) == Finalize(w1, env, el);
    SparesTwice(w, w1, Finalize(w1, env, el));
  }

  lemma TickMovesOn(w: World, env: Env, el: El, t: real)
    requires Inv(w) && w.ramps.Get(el).Some?
    ensures Moves(w, env, Tick(el, t), OnTick(w, env, el, t))
  {
    if w.ramps.Get(el).value.rising || t < 1.0 {
      TickMoves(w, env, el, t);
    } else {
      LastTickMoves(w, env, el, t);
      SameSoundMoves(w, env, Tick(el, t), OnTick(w, env, el, t));
    }
  }

  lemma CallMoves(w: World, env: Env, s: Step)
    requires Inv(w) && (s.DoSyncPreload? || s.DoPause? || s.DoResume? || s.DoReset? || s.DoDestroy?)
    ensures Moves(w, env, s, Next(w, env, s))
  {
    var h := Next(w, env, s);
    match s
    case DoSyncPreload(item, index, url) => PreloadIs(w, item, index, url);
    case DoPause =>
      if w.deck.retiring.Some? { FinalizeSpares(w, env, w.deck.retiring.value.el); }
      SameSoundMoves(w, env, s, h);
    case DoResume => ResumeStarts(w);
    case DoReset => ResetEmpties(w);
    case DoDestroy => DestroyLetsGo(w);
  }

  lemma EventMoves(w: World, env: Env, s: Step)
    requires Inv(w) && Enabled(w, s) && (s.TimeUpdate? || s.Ended? || s.Failed? || s.CanPlay?)
    ensures Moves(w, env, s, Next(w, env, s))
  {
    var h := Next(w, env, s);
    match s
    case TimeUpdate(el) =>
      TimeStartsCrossfade(w, env);
    case Ended(el) =>
      if el == w.deck.active { EndSwapsOrFallsBack(w, env); }
      else {
        FinalizeSpares(w, env, el);
        SameSoundMoves(w, env, s, h);
      }
    case Failed(el) =>
      OtherEvents(w, env, el);
      FinalizeSpares(w, env, el);
      SameSoundMoves(w, env, s, h);
    case CanPlay(el) => OtherEvents(w, env, el);
  }

  lemma StepMoves(w: World, env: Env, s: Step)
    requires Inv(w) && Enabled(w, s)
    ensures Moves(w, env, s, Next(w, env, s))
  {
    match s
    case DoPlayNow(_, _, _, _) => PlayMoves(w, env, s);
    case Tick(el, t) => TickMovesOn(w, env, el, t);
    case Settled(p, ok) => if p.CrossfadePlay? { CrossfadeMoves(w, env, p, ok); } else { StartMoves(w, env, p, ok); }
    case TimeUpdate(_) => EventMoves(w, env, s);
    case Ended(_) => EventMoves(w, env, s);
    case Failed(_) => EventMoves(w, env, s);
    case CanPlay(_) => EventMoves(w, env, s);
    case _ => CallMoves(w, env, s);
  }

  /** On every run the active element is heard, or is about to be, unless it has refused to play since
      it became active; and the other one is silent, or fading out, or has played to its end. */
  lemma {:induction false} OneIsHeard(states: seq<World>, envs: seq<Env>, steps: seq<Step>, el: El, n: nat)
    requires Run(states, envs, steps) && states[0] == Initial(el) && n <= |steps|
    ensures Heard(states[n])
            || exists k :: 0 <= k < n && Refuses(states[k], steps[k])
                           && forall j | k < j <= n :: SameTrack(states[k], states[j])
    ensures Hushed(states[n])
            || exists k :: 0 <= k < n && Outplayed(states[k], envs[k], steps[k])
                           && forall j | k < j <= n :: states[j].deck.active == Other(states[k].deck.active)
    decreases n
  {
    if n == 0 {
    } else {
      OneIsHeard(states, envs, steps, el, n - 1);
      RunKeepsInv(states[..n], envs[..n - 1], steps[..n - 1], el);
      StepMoves(states[n - 1], envs[n - 1], steps[n - 1]);
      HeardExtends(states, envs, steps, n);
      HushedExtends(states, envs, steps, n);
    }
  }

  lemma HeardExtends(states: seq<World>, envs: seq<Env>, steps: seq<Step>, n: nat)
    requires 0 < n <= |steps| && Run(states, envs, steps)
    requires Moves(states[n - 1], envs[n - 1], steps[n - 1], states[n])
    requires Heard(states[n - 1])
             || exists k :: 0 <= k < n - 1 && Refuses(states[k], steps[k])
                            && forall j | k < j <= n - 1 :: SameTrack(states[k], states[j])
    ensures Heard(states[n])
            || exists k :: 0 <= k < n && Refuses(states[k], steps[k])
                           && forall j | k < j <= n :: SameTrack(states[k], states[j])
  {
    if !Heard(states[n]) && !Heard(states[n - 1]) {
      var k :| 0 <= k < n - 1 && Refuses(states[k], steps[k])
               && forall j | k < j <= n - 1 :: SameTrack(states[k], states[j]);
      assert forall j | k < j <= n :: SameTrack(states[k], states[j]);
    }
  }

  lemma HushedExtends(states: seq<World>, envs: seq<Env>, steps: seq<Step>, n: nat)
    requires 0 < n <= |steps| && Run(states, envs, steps)
    requires Moves(states[n - 1], envs[n - 1], steps[n - 1], states[n])
    requires Hushed(states[n - 1])
             || exists k :: 0 <= k < n - 1 && Outplayed(states[k], envs[k], steps[k])
                            && forall j | k < j <= n - 1 :: states[j].deck.active == Other(states[k].deck.active)
    ensures Hushed(states[n])
            || exists k :: 0 <= k < n && Outplayed(states[k], envs[k], steps[k])
                           && forall j | k < j <= n :: states[j].deck.active == Other(states[k].deck.active)
  {
    if !Hushed(states[n]) && states[n].deck.active == states[n - 1].deck.active {
      var k :| 0 <= k < n - 1 && Outplayed(states[k], envs[k], steps[k])
               && forall j | k < j <= n - 1 :: states[j].deck.active == Other(states[k].deck.active);
      assert forall j | k < j <= n :: states[j].deck.active == Other(states[k].deck.active);
    }
  }
}
