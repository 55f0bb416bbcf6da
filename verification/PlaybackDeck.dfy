/** The `Deck` class of app/src/player/deck.ts: its fields and methods, each method tied to the
    step function of the same operation. */
module PlaybackDeck {
  import opened Rows
  import D = Deck
  import opened DeckLaws

  class PlaybackDeck {
    var activeEl: D.El
    var current: Option<D.Slot>
    var preloaded: Option<D.Slot>
    var standbyReady: bool
    var handoffArmed: bool
    var retiring: Option<D.Retiring>
    var pendingPreload: Option<D.PendingPreload>
    var destroyed: bool
    var nextSerial: nat
    var media: D.Pair<D.Media>
    var ramps: D.Pair<Option<D.Ramp>>
    var promises: multiset<D.Promise>
    var log: seq<D.Note>

    function View(): D.World
      reads this
    {
      D.World(D.Deck(activeEl, current, preloaded, standbyReady, handoffArmed, retiring, pendingPreload,
                     destroyed, nextSerial),
              media, ramps, promises, log)
    }

    ghost predicate Valid()
      reads this
    {
      Inv(View())
    }

    /** Adopts the second element if it is already sounding, and the first otherwise. */
    constructor (bPaused: bool)
      ensures View() == D.Initial(if bPaused then D.A else D.B) && Valid()
    {
      var active := if !bPaused then D.B else D.A;
      activeEl, current, preloaded, standbyReady, handoffArmed := active, None, None, false, false;
      retiring, pendingPreload, destroyed, nextSerial := None, None, false, 0;
      media := D.Pair(D.IDLE, D.IDLE).Set(active, D.IDLE.(fade := D.Full));
      ramps, promises, log := D.Pair(None, None), multiset{}, [];
    }

    method SetFade(el: D.El, f: D.Fade)
      modifies this`media
      ensures View() == D.SetFade(old(View()), el, f)
    {
      media := media.Set(el, media.Get(el).(fade := f));
    }

    method SetTrackGain(el: D.El, item: Option<D.Item>)
      modifies this`media
      ensures View() == D.Tune(old(View()), el, item)
    {
      media := media.Set(el, media.Get(el).(tuned := item));
    }

    method LoadSource(el: D.El, url: string, playing: bool)
      modifies this`media
      ensures View() == D.Load(old(View()), el, url, playing)
    {
      media := media.Set(el, media.Get(el).(source := Some(url), playing := playing));
    }

    method SetPlaying(el: D.El, playing: bool)
      modifies this`media
      ensures View() == D.Playing(old(View()), el, playing)
    {
      media := media.Set(el, media.Get(el).(playing := playing));
    }

    method CancelRamp(el: D.El)
      modifies this`ramps
      ensures View() == D.CancelRamp(old(View()), el)
    {
      ramps := ramps.Set(el, None);
    }

    method StartRamp(el: D.El, rising: bool)
      modifies this`ramps, this`media
      ensures View() == D.StartRamp(old(View()), el, rising)
    {
      CancelRamp(el);
      SetFade(el, if rising then D.Rising(0.0) else D.Falling(0.0));
      ramps := ramps.Set(el, Some(D.Ramp(rising)));
    }

    method Call(n: D.Note)
      modifies this`log
      ensures View() == D.Say(old(View()), n)
    {
      log := log + [n];
    }

    method StartPlay(p: D.Promise)
      modifies this`promises
      ensures View() == D.Await(old(View()), p)
    {
      promises := promises + multiset{p};
    }

    method ArmStandby(item: D.Item, index: int, url: string)
      modifies this
      ensures View() == D.ArmStandby(old(View()), item, index, url)
    {
      var standby := D.Other(activeEl);
      CancelRamp(standby);
      ghost var w1 := D.CancelRamp(old(View()), standby);
      preloaded := Some(D.Slot(item, index, nextSerial));
      nextSerial := nextSerial + 1;
      standbyReady := false;
      ghost var w2 := w1.(deck := w1.deck.(preloaded := preloaded, standbyReady := false, nextSerial := nextSerial));
      assert View() == w2;
      SetTrackGain(standby, Some(item));
      assert View() == D.Tune(w2, standby, Some(item));
      SetFade(standby, D.Silent);
      assert View() == D.SetFade(D.Tune(w2, standby, Some(item)), standby, D.Silent);
      LoadSource(standby, url, false);
    }

    method SyncPreload(item: Option<D.Item>, index: int, url: Option<string>)
      modifies this
      ensures View() == D.SyncPreload(old(View()), item, index, url)
    {
      if destroyed { return; }
      if item.None? || url.None? {
        preloaded, standbyReady, pendingPreload := None, false, None;
        return;
      }
      if preloaded.Some? && preloaded.value.item.id == item.value.id { return; }
      if retiring.Some? {
        pendingPreload := Some(D.PendingPreload(item.value, index, url.value));
        return;
      }
      ArmStandby(item.value, index, url.value);
    }

    method ApplyParked()
      modifies this
      ensures View() == D.ApplyParked(old(View()))
    {
      if pendingPreload.Some? {
        var p := pendingPreload.value;
        pendingPreload := None;
        SyncPreload(Some(p.item), p.index, Some(p.url));
      }
    }

    method FinalizeRetiring(env: D.Env, el: D.El)
      modifies this
      ensures View() == D.Finalize(old(View()), env, el)
    {
      if retiring.None? || retiring.value.el != el { return; }
      var r := retiring.value;
      retiring := None;
      CancelRamp(el);
      SetPlaying(el, false);
      SetFade(el, D.Silent);
      if r.notify {
        var c := env.clocks.Get(el);
        Call(D.Retired(r.item, c.time, c.ReachedEnd()));
      }
      ApplyParked();
    }

    method FinalizeRetiringNow(env: D.Env)
      modifies this
      ensures View() == D.FinalizeNow(old(View()), env)
    {
      if retiring.Some? { FinalizeRetiring(env, retiring.value.el); }
    }

    method CutTo(env: D.Env, item: D.Item, index: int, url: string)
      modifies this
      ensures View() == D.CutTo(old(View()), env, item, index, url)
    {
      var el := activeEl;
      FinalizeRetiringNow(env);
      CancelRamp(el);
      TakeOver(item, index, el);
      SetTrackGain(el, Some(item));
      SetFade(el, D.Full);
      LoadSource(el, url, true);
      StartPlay(D.CutPlay(el));
    }

    method TakeOver(item: D.Item, index: int, el: D.El)
      modifies this`current, this`activeEl, this`nextSerial
      ensures View() == D.TakeOver(old(View()), item, index, el)
    {
      current := Some(D.Slot(item, index, nextSerial));
      activeEl := el;
      nextSerial := nextSerial + 1;
    }

    method FadeTo(env: D.Env, item: D.Item, index: int, url: string, fadeSec: real)
      requires current.Some?
      modifies this
      ensures View() == D.FadeTo(old(View()), env, item, index, url, fadeSec)
    {
      var outEl := activeEl;
      var inEl := D.Other(outEl);
      var outgoing := current.value.item;
      FinalizeRetiringNow(env);
      CancelRamp(inEl);
      TakeOver(item, index, inEl);
      retiring := Some(D.Retiring(outEl, outgoing, false));
      SetTrackGain(inEl, Some(item));
      SetFade(inEl, D.Silent);
      LoadSource(inEl, url, true);
      StartPlay(D.FadePlay(inEl, fadeSec));
      StartRamp(outEl, false);
    }

    method Unarm()
      modifies this`handoffArmed, this`preloaded, this`standbyReady, this`pendingPreload
      ensures View() == D.Unarm(old(View()))
    {
      handoffArmed, preloaded, standbyReady, pendingPreload := false, None, false, None;
    }

    method PlayNow(env: D.Env, item: D.Item, index: int, url: string, fadeSec: real)
      modifies this
      ensures View() == D.PlayNow(old(View()), env, item, index, url, fadeSec)
    {
      if destroyed { return; }
      var canFade := D.CanFade(View(), env, item, fadeSec);
      Call(D.Loaded(item));
      Unarm();
      if canFade {
        FadeTo(env, item, index, url, D.Min(fadeSec, D.MANUAL_FADE_MAX_SEC));
      } else {
        CutTo(env, item, index, url);
      }
    }

    method Pause(env: D.Env)
      modifies this
      ensures View() == D.PauseDeck(old(View()), env)
    {
      FinalizeRetiringNow(env);
      SetPlaying(activeEl, false);
    }

    method Resume()
      modifies this`media
      ensures View() == D.Resume(old(View()))
    {
      SetPlaying(activeEl, true);
    }

    method EmptyElement(el: D.El)
      modifies this`ramps, this`media
      ensures View() == D.EmptyElement(old(View()), el)
    {
      CancelRamp(el);
      media := media.Set(el, D.Media(None, None, if el == activeEl then D.Full else D.Silent, false));
    }

    method Reset()
      modifies this
      ensures View() == D.Reset(old(View()))
    {
      Unarm();
      retiring := None;
      EmptyElement(D.A);
      EmptyElement(D.B);
      Call(D.Dropped);
    }

    method Destroy()
      modifies this
      ensures View() == D.Destroy(old(View()))
    {
      destroyed := true;
      ghost var w := old(View());
      assert View() == w.(deck := w.deck.(destroyed := true));
      CancelRamp(D.A);
      CancelRamp(D.B);
      retiring, preloaded, pendingPreload := None, None, None;
      Call(D.Dropped);
    }

    method StartStandby(inEl: D.El)
      modifies this`ramps, this`media, this`promises
      ensures View() == D.StartStandby(old(View()), inEl)
    {
      CancelRamp(inEl);
      SetFade(inEl, D.Full);
      SetPlaying(inEl, true);
      StartPlay(D.SwapPlay(inEl));
    }

    method Promote(pre: D.Slot, inEl: D.El, outgoing: Option<D.Retiring>)
      modifies this`preloaded, this`standbyReady, this`handoffArmed, this`retiring, this`current, this`activeEl
      ensures View() == D.Promote(old(View()), pre, inEl, outgoing)
    {
      preloaded, standbyReady, handoffArmed, retiring := None, false, false, outgoing;
      current := Some(pre);
      activeEl := inEl;
    }

    method GaplessSwap(env: D.Env, cur: D.Slot, pre: D.Slot)
      modifies this
      ensures View() == D.GaplessSwap(old(View()), env, cur, pre)
    {
      var outEl := activeEl;
      var inEl := D.Other(outEl);
      StartStandby(inEl);
      Promote(pre, inEl, None);
      Call(D.Swapped(cur.item, pre));
      var c := env.clocks.Get(outEl);
      Call(D.Retired(cur.item, if c.Seconds() != 0.0 then c.Seconds() else c.time, true));
    }

    method StartCrossfade(cur: D.Slot, pre: D.Slot, fadeSec: real)
      modifies this
      ensures View() == D.StartCrossfade(old(View()), cur, pre, fadeSec)
    {
      var outEl := activeEl;
      var inEl := D.Other(outEl);
      handoffArmed := true;
      CancelRamp(inEl);
      SetFade(inEl, D.Silent);
      SetPlaying(inEl, true);
      StartPlay(D.CrossfadePlay(cur, pre, outEl, fadeSec));
    }

    method SwapRoles(p: D.Promise)
      requires p.CrossfadePlay?
      modifies this
      ensures View() == D.SwapRoles(old(View()), p)
    {
      var inEl := D.Other(p.outEl);
      Promote(p.pre, inEl, Some(D.Retiring(p.outEl, p.cur.item, true)));
      Call(D.Swapped(p.cur.item, p.pre));
      StartRamp(inEl, true);
      StartRamp(p.outEl, false);
    }

    method OnCrossfadeStarted(env: D.Env, p: D.Promise)
      requires p.CrossfadePlay?
      modifies this
      ensures View() == D.CrossfadeStarted(old(View()), env, p)
    {
      var inEl := D.Other(p.outEl);
      if destroyed { return; }
      if preloaded != Some(p.pre) || activeEl != p.outEl {
        if activeEl != inEl { SetPlaying(inEl, false); }
        return;
      }
      FinalizeRetiringNow(env);
      SwapRoles(p);
    }

    method HandleTime(env: D.Env, el: D.El)
      modifies this
      ensures View() == D.OnTime(old(View()), env, el)
    {
      if el != activeEl { return; }
      var c := env.clocks.Get(el);
      Call(D.TimeAt(c.time, c.Seconds()));
      var fade := D.CrossfadeNow(View(), env);
      if fade.Some? { StartCrossfade(current.value, preloaded.value, fade.value); }
    }

    method HandleEnded(env: D.Env, el: D.El)
      modifies this
      ensures View() == D.OnEnded(old(View()), env, el)
    {
      if el != activeEl {
        FinalizeRetiring(env, el);
        return;
      }
      if current.Some? && preloaded.Some? && D.StandbyReady(View(), env) && env.prefs.gapless {
        GaplessSwap(env, current.value, preloaded.value);
      } else {
        Call(D.Fallback(env.clocks.Get(el).time));
      }
    }

    method HandleError(env: D.Env, el: D.El)
      modifies this
      ensures View() == D.OnError(old(View()), env, el)
    {
      if el == activeEl {
        Call(D.ActiveError);
        return;
      }
      if retiring.Some? && retiring.value.el == el {
        FinalizeRetiring(env, el);
        return;
      }
      if preloaded.Some? { preloaded, standbyReady := None, false; }
    }

    method HandleCanPlay(el: D.El)
      modifies this`standbyReady
      ensures View() == D.OnCanPlay(old(View()), el)
    {
      if el != activeEl && preloaded.Some? { standbyReady := true; }
    }

    method OnRampTick(env: D.Env, el: D.El, t: real)
      requires ramps.Get(el).Some?
      modifies this
      ensures View() == D.OnTick(old(View()), env, el, t)
    {
      var rising := ramps.Get(el).value.rising;
      SetFade(el, if rising then D.Rising(t) else D.Falling(t));
      if t >= 1.0 {
        CancelRamp(el);
        if !rising { FinalizeRetiring(env, el); }
      }
    }

    method OnPromise(env: D.Env, p: D.Promise, ok: bool)
      modifies this
      ensures View() == D.OnPromise(old(View()), env, p, ok)
    {
      match p {
        case CutPlay(_) => if !ok { Call(D.PlayRejected); }
        case FadePlay(el, _) =>
          if !ok { Call(D.PlayRejected); }
          else if !destroyed && activeEl == el { StartRamp(el, true); }
        case SwapPlay(el) => if !ok && !destroyed && activeEl == el { Call(D.Recover); }
        case CrossfadePlay(_, _, _, _) =>
          if ok { OnCrossfadeStarted(env, p); }
          else { handoffArmed, standbyReady := false, false; }
      }
    }

    /** One turn of the event loop is one step of the state machine, and keeps the invariant. */
    method Dispatch(env: D.Env, s: D.Step)
      requires Valid() && D.Enabled(View(), s)
      modifies this
      ensures View() == D.Next(old(View()), env, s) && Valid()
    {
      Perform(env, s);
      NextKeeps(old(View()), env, s);
    }

    method Perform(env: D.Env, s: D.Step)
      requires D.Enabled(View(), s)
      modifies this
      ensures View() == D.Next(old(View()), env, s)
    {
      match s {
        case DoPlayNow(item, index, url, fadeSec) => PlayNow(env, item, index, url, fadeSec);
        case DoSyncPreload(item, index, url) => SyncPreload(item, index, url);
        case DoPause => Pause(env);
        case DoResume => Resume();
        case DoReset => Reset();
        case DoDestroy => Destroy();
        case TimeUpdate(el) => HandleTime(env, el);
        case Ended(el) => HandleEnded(env, el);
        case Failed(el) => HandleError(env, el);
        case CanPlay(el) => HandleCanPlay(el);
        case Tick(el, t) => OnRampTick(env, el, t);
        case Settled(p, ok) =>
          promises := promises - multiset{p};
          OnPromise(env, p, ok);
      }
    }
  }
}
