/**
 * One playback voice (`Sound`): three linear volume factors and the volume
 * they compose to, the playing state of the engine's player, the looping
 * flag and the tag fixed at construction.
 *
 * The engine player is abstracted to its `Playing` flag. Whether the
 * replay-on-finish lambda is subscribed to the player's `Finished` event is
 * `replaySubscribed`. The lambda captures only the sound, so every `+=`
 * builds an equal callable, and the engine refuses to connect an equal
 * callable twice: at most one replay handler is ever subscribed. The `-=`
 * passes a different lambda, which matches nothing, so once subscribed the
 * handler stays.
 */
module Voice {

  import opened Catalog

  /** Everything a `Sound` can change, as one value. */
  datatype VoiceState = VoiceState(
    masterVolume: real,
    selfVolume: real,
    tagVolume: real,
    linearVolume: real,
    playing: bool,
    looping: bool,
    replaySubscribed: bool)

  /** The state of a freshly constructed sound. */
  const Initial := VoiceState(1.0, 1.0, 1.0, 1.0, false, false, false)

  /** The effective volume is the product of the three factors. */
  predicate Composed(s: VoiceState) {
    s.linearVolume == s.selfVolume * s.tagVolume * s.masterVolume
  }

  function WithMaster(s: VoiceState, v: real): VoiceState {
    s.(masterVolume := v, linearVolume := s.selfVolume * s.tagVolume * v)
  }

  function WithSelf(s: VoiceState, v: real): VoiceState {
    s.(selfVolume := v, linearVolume := v * s.tagVolume * s.masterVolume)
  }

  function WithTag(s: VoiceState, v: real): VoiceState {
    s.(tagVolume := v, linearVolume := s.selfVolume * v * s.masterVolume)
  }

  function Toggled(s: VoiceState): VoiceState {
    if s.playing then s.(playing := false) else s.(playing := true)
  }

  function Started(s: VoiceState): VoiceState {
    s.(playing := true)
  }

  function Stopped(s: VoiceState): VoiceState {
    s.(playing := false)
  }

  /** Flips the flag; turning it on subscribes the replay handler, turning it off removes nothing. */
  function LoopingToggled(s: VoiceState): VoiceState {
    var on := !s.looping;
    s.(looping := on, replaySubscribed := if on then true else s.replaySubscribed)
  }

  /** The state after `n` calls to `ToggleLooping`. */
  function LoopingToggles(s: VoiceState, n: nat): VoiceState
    decreases n
  {
    if n == 0 then s else LoopingToggled(LoopingToggles(s, n - 1))
  }

  /** The three volume factors of a sound. */
  datatype Factor = MasterFactor | SelfFactor | TagFactor

  function FactorOf(s: VoiceState, f: Factor): real {
    match f
    case MasterFactor => s.masterVolume
    case SelfFactor => s.selfVolume
    case TagFactor => s.tagVolume
  }

  /** A call to the setter of one factor. */
  datatype VolumeCall = VolumeCall(factor: Factor, v: real)

  function ApplyCall(s: VoiceState, c: VolumeCall): VoiceState {
    match c.factor
    case MasterFactor => WithMaster(s, c.v)
    case SelfFactor => WithSelf(s, c.v)
    case TagFactor => WithTag(s, c.v)
  }

  /** The state after a sequence of setter calls, first call first. */
  function ApplyCalls(s: VoiceState, calls: seq<VolumeCall>): VoiceState
    decreases |calls|
  {
    if calls == [] then s else ApplyCalls(ApplyCall(s, calls[0]), calls[1..])
  }

  /** The value of the most recent call to the setter of `f`, or `dflt` if there is none. */
  function LastSet(calls: seq<VolumeCall>, f: Factor, dflt: real): real
    decreases |calls|
  {
    if calls == [] then dflt
    else if calls[|calls| - 1].factor == f then calls[|calls| - 1].v
    else LastSet(calls[..|calls| - 1], f, dflt)
  }

  /**
   * After any sequence of setter calls, in any order, each factor is the last
   * value set for it (or what it was before), the effective volume is their
   * product, and nothing besides the volumes has changed.
   */
  lemma {:induction false} SetterCallsCompose(s: VoiceState, calls: seq<VolumeCall>)
    ensures var t := ApplyCalls(s, calls);
      && (forall f :: FactorOf(t, f) == LastSet(calls, f, FactorOf(s, f)))
      && (Composed(s) || calls != [] ==> Composed(t))
      && t.playing == s.playing && t.looping == s.looping && t.replaySubscribed == s.replaySubscribed
    decreases |calls|
  {
    if calls != [] {
      var front, c := calls[..|calls| - 1], calls[|calls| - 1];
      SetterCallsCompose(s, front);
      assert calls == front + [c];
      ApplyCallsSnoc(s, front, c);
      var u := ApplyCalls(s, front);
      ApplyCallSetsOneFactor(u, c);
      forall f
        ensures FactorOf(ApplyCalls(s, calls), f) == LastSet(calls, f, FactorOf(s, f))
      {
        assert FactorOf(u, f) == LastSet(front, f, FactorOf(s, f));
      }
    }
  }

  /** One setter call overwrites its own factor only and recomposes the volume. */
  lemma ApplyCallSetsOneFactor(s: VoiceState, c: VolumeCall)
    ensures forall f :: FactorOf(ApplyCall(s, c), f) == if f == c.factor then c.v else FactorOf(s, f)
    ensures Composed(ApplyCall(s, c))
    ensures ApplyCall(s, c).playing == s.playing && ApplyCall(s, c).looping == s.looping
    ensures ApplyCall(s, c).replaySubscribed == s.replaySubscribed
  {
  }

  /**
   * From a freshly constructed sound, each factor is the last value set for
   * it, or 1.0 when its setter was never called.
   */
  lemma FreshSoundAfterCalls(calls: seq<VolumeCall>)
    ensures forall f :: FactorOf(ApplyCalls(Initial, calls), f) == LastSet(calls, f, 1.0)
  {
    assert forall f :: FactorOf(Initial, f) == 1.0;
    SetterCallsCompose(Initial, calls);
  }

  lemma {:induction false} ApplyCallsSnoc(s: VoiceState, calls: seq<VolumeCall>, c: VolumeCall)
    ensures ApplyCalls(s, calls + [c]) == ApplyCall(ApplyCalls(s, calls), c)
    decreases |calls|
  {
    if calls == [] {
      assert [c][1..] == [];
    } else {
      assert (calls + [c])[1..] == calls[1..] + [c];
      ApplyCallsSnoc(ApplyCall(s, calls[0]), calls[1..], c);
    }
  }

  /** Toggling twice restores the playing state and everything else. */
  lemma ToggleTwice(s: VoiceState)
    ensures Toggled(Toggled(s)) == s
    ensures Toggled(s).playing != s.playing
  {
  }

  /** Stopping is idempotent and keeps the looping flag; so does starting. */
  lemma StopIdempotent(s: VoiceState)
    ensures Stopped(Stopped(s)) == Stopped(s) && !Stopped(s).playing
    ensures Stopped(s).looping == s.looping && Started(s).looping == s.looping
  {
  }

  /**
   * Toggling looping twice restores the flag, but the replay handler stays
   * subscribed: a sound switched on and off again keeps replaying although
   * it is not looping.
   */
  lemma LoopingRoundTripLeaksHandler(s: VoiceState)
    ensures LoopingToggled(LoopingToggled(s)).looping == s.looping
    ensures LoopingToggled(LoopingToggled(s)).replaySubscribed
    ensures !s.looping ==> var t := LoopingToggled(LoopingToggled(s)); !t.looping && t.replaySubscribed
  {
  }

  /**
   * After `n` calls to `ToggleLooping` the flag has flipped `n` times, and
   * the replay handler is subscribed exactly when it already was or looping
   * was switched on at least once; no call subscribes a second one, and
   * nothing else changes.
   */
  lemma {:induction false} LoopingTogglesSubscribeOnce(s: VoiceState, n: nat)
    ensures LoopingToggles(s, n).looping == (if n % 2 == 0 then s.looping else !s.looping)
    ensures LoopingToggles(s, n).replaySubscribed == (s.replaySubscribed || (n >= 1 && !s.looping) || n >= 2)
    ensures LoopingToggles(s, n) == s.(looping := LoopingToggles(s, n).looping,
                                       replaySubscribed := LoopingToggles(s, n).replaySubscribed)
    decreases n
  {
    if n > 0 {
      LoopingTogglesSubscribeOnce(s, n - 1);
    }
  }

  class Sound {
    /** The readonly tag. */
    const tag: SoundTag
    /** The engine player's stream and polyphony, as given at construction. */
    const resourceLocation: string
    const polyphony: int

    var masterLinearVolume: real
    var selfLinearVolume: real
    var tagLinearVolume: real
    var linearVolume: real
    /** `player.Playing` */
    var playing: bool
    var looping: bool
    /** Whether the replay lambda is subscribed to `player.Finished`. */
    var replaySubscribed: bool

    ghost function State(): VoiceState
      reads this
    {
      VoiceState(masterLinearVolume, selfLinearVolume, tagLinearVolume, linearVolume,
                 playing, looping, replaySubscribed)
    }

    /** The effective volume is the product of the three factors. */
    ghost predicate Valid()
      reads this
    {
      Composed(State())
    }

    constructor (resourceLocation: string, polyphony: int, tag: SoundTag)
      ensures Valid()
      ensures masterLinearVolume == 1.0 && selfLinearVolume == 1.0 && tagLinearVolume == 1.0 && linearVolume == 1.0
      ensures !playing && !looping && !replaySubscribed
      ensures this.tag == tag && this.resourceLocation == resourceLocation && this.polyphony == polyphony
      ensures forall t :: Is(t) <==> t == tag
    {
      this.tag := tag;
      this.resourceLocation := resourceLocation;
      this.polyphony := polyphony;
      masterLinearVolume, selfLinearVolume, tagLinearVolume, linearVolume := 1.0, 1.0, 1.0, 1.0;
      playing, looping, replaySubscribed := false, false, false;
      new;
      assert State() == Initial;
    }

    /** Whether the sound carries the given tag. */
    predicate Is(t: SoundTag) {
      t == tag
    }

    /**
     * Flips the flag; switching it on subscribes the replay handler (a no-op
     * when it is already subscribed), switching it off removes nothing.
     */
    method ToggleLooping()
      modifies this`looping, this`replaySubscribed
      ensures looping == !old(looping)
      ensures replaySubscribed == (old(replaySubscribed) || looping)
      ensures State() == LoopingToggled(old(State()))
    {
      looping := !looping;
      if looping {
        // connecting a callable equal to a connected one adds nothing
        replaySubscribed := true;
      } else {
        // `-=` passes a different lambda, which matches no subscription
      }
    }

    /** Stops a playing sound, starts a stopped one. */
    method Toggle()
      modifies this`playing
      ensures playing == !old(playing)
      ensures State() == Toggled(old(State()))
    {
      if playing {
        Stop();
      } else {
        Play(0.0);
      }
    }

    /** Starts playback; the offset goes to the engine and is not kept. */
    method Play(fromPosition: real)
      modifies this`playing
      ensures playing
      ensures State() == Started(old(State()))
    {
      playing := true;
    }

    method Stop()
      modifies this`playing
      ensures !playing
      ensures State() == Stopped(old(State()))
    {
      playing := false;
    }

    method RecomputeVolume()
      modifies this`linearVolume
      ensures Valid()
    {
      linearVolume := selfLinearVolume * tagLinearVolume * masterLinearVolume;
    }

    method SetMasterLinearVolume(v: real)
      modifies this`masterLinearVolume, this`linearVolume
      ensures masterLinearVolume == v && Valid()
      ensures State() == WithMaster(old(State()), v)
    {
      masterLinearVolume := v;
      RecomputeVolume();
    }

    method SetSelfLinearVolume(v: real)
      modifies this`selfLinearVolume, this`linearVolume
      ensures selfLinearVolume == v && Valid()
      ensures State() == WithSelf(old(State()), v)
    {
      selfLinearVolume := v;
      RecomputeVolume();
    }

    method SetTagLinearVolume(v: real)
      modifies this`tagLinearVolume, this`linearVolume
      ensures tagLinearVolume == v && Valid()
      ensures State() == WithTag(old(State()), v)
    {
      tagLinearVolume := v;
      RecomputeVolume();
    }
  }
}
