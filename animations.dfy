/**
 * The one-slot animation controller: at most one action is active; playing a
 * clip cross-fades from the active action, stopping fades it out and empties
 * the slot, pausing and resuming flip the active action's `paused` flag.
 *
 * A three.js `AnimationAction` is abstracted to its `paused` flag and the log
 * of the stateful calls made on it; the mixer to the log of its time advances.
 */
module Animations {
  import opened JsMaps

  datatype LoopStyle = LoopOnce | LoopRepeat | LoopPingPong

  /** A call on an action. `SetLoopForeverCall` is `setLoop(mode, Infinity)`. */
  datatype ActionCall =
    | ResetCall
    | SetLoopForeverCall(mode: LoopStyle)
    | FadeInCall(duration: real)
    | FadeOutCall(duration: real)
    | PlayCall

  /** Default duration of a fade, in seconds. */
  const DefaultFadeTime: real := 0.5

  class Action {
    var paused: bool
    var calls: seq<ActionCall>

    constructor ()
      ensures !paused && calls == []
    {
      paused := false;
      calls := [];
    }

    /** `reset()` also clears `paused`, as three.js does. */
    method Reset()
      modifies this
      ensures !paused && calls == old(calls) + [ResetCall]
    {
      paused := false;
      calls := calls + [ResetCall];
    }

    method SetLoopForever(mode: LoopStyle)
      modifies this`calls
      ensures calls == old(calls) + [SetLoopForeverCall(mode)]
    {
      calls := calls + [SetLoopForeverCall(mode)];
    }

    method FadeIn(duration: real)
      modifies this`calls
      ensures calls == old(calls) + [FadeInCall(duration)]
    {
      calls := calls + [FadeInCall(duration)];
    }

    method FadeOut(duration: real)
      modifies this`calls
      ensures calls == old(calls) + [FadeOutCall(duration)]
    {
      calls := calls + [FadeOutCall(duration)];
    }

    method Play()
      modifies this`calls
      ensures calls == old(calls) + [PlayCall]
    {
      calls := calls + [PlayCall];
    }
  }

  class Mixer {
    var advanced: seq<real>

    constructor ()
      ensures advanced == []
    {
      advanced := [];
    }

    /** `mixer.update(deltaTime)`. */
    method Update(deltaTime: real)
      modifies this
      ensures advanced == old(advanced) + [deltaTime]
    {
      advanced := advanced + [deltaTime];
    }
  }

  /** `AnimationContext`: the mixer, the clip-name to action map and the active slot. */
  class AnimationContext {
    const mixer: Mixer
    const actions: OrderedMap<string, Action>
    var activeAction: Action?

    /** The active action as a frame: empty when the slot is empty. */
    ghost function Active(): set<Action>
      reads this
    {
      if activeAction == null then {} else {activeAction}
    }

    /** The action registered under `name` as a frame: empty when there is none. */
    ghost function Named(name: string): set<Action>
    {
      if name in actions.entries then {actions.entries[name]} else {}
    }

    /** `initializeAnimations`: the slot starts empty. */
    constructor (mixer: Mixer, actions: OrderedMap<string, Action>)
      requires actions.Valid()
      ensures this.mixer == mixer && this.actions == actions
      ensures activeAction == null
    {
      this.mixer := mixer;
      this.actions := actions;
      activeAction := null;
    }

    /**
     * `playAnimation`. An unknown name changes nothing (the source only warns;
     * `found` is false). Otherwise the previous action is faded out when it is
     * a different action, and the requested one is reset, looped forever,
     * faded in, played and put in the slot.
     */
    method PlayAnimation(name: string, loopMode: LoopStyle := LoopRepeat, fadeInTime: real := DefaultFadeTime)
      returns (found: bool)
      modifies this, Active(), Named(name)
      ensures found <==> name in actions.entries
      ensures !found ==> activeAction == old(activeAction)
                         && (old(activeAction) != null ==> unchanged(old(activeAction)))
      ensures found ==> activeAction == actions.entries[name]
      ensures found ==> !activeAction.paused
      ensures found ==> activeAction.calls
                        == old(actions.entries[name].calls) + [ResetCall, SetLoopForeverCall(loopMode), FadeInCall(fadeInTime), PlayCall]
      ensures found && old(activeAction) != null && old(activeAction) != activeAction ==>
                old(activeAction).calls == old(activeAction.calls) + [FadeOutCall(fadeInTime)]
                && old(activeAction).paused == old(activeAction.paused)
    {
      if name !in actions.entries {
        return false;
      }
      var action := actions.entries[name];
      if activeAction != null && activeAction != action {
        activeAction.FadeOut(fadeInTime);
      }
      action.Reset();
      action.SetLoopForever(loopMode);
      action.FadeIn(fadeInTime);
      action.Play();
      activeAction := action;
      return true;
    }

    /** `stopAnimation`: fade out the active action and empty the slot; nothing when it is empty. */
    method StopAnimation(fadeOutTime: real := DefaultFadeTime)
      modifies this, Active()
      ensures activeAction == null
      ensures old(activeAction) != null ==>
                old(activeAction).calls == old(activeAction.calls) + [FadeOutCall(fadeOutTime)]
                && old(activeAction).paused == old(activeAction.paused)
    {
      if activeAction != null {
        activeAction.FadeOut(fadeOutTime);
        activeAction := null;
      }
    }

    /** `pauseAnimation`: only the active action's `paused` flag changes. */
    method PauseAnimation()
      modifies Active()
      ensures activeAction != null ==> activeAction.paused && activeAction.calls == old(activeAction.calls)
    {
      if activeAction != null {
        activeAction.paused := true;
      }
    }

    /** `resumeAnimation`: clears `paused` without resetting the action. */
    method ResumeAnimation()
      modifies Active()
      ensures activeAction != null ==> !activeAction.paused && activeAction.calls == old(activeAction.calls)
    {
      if activeAction != null {
        activeAction.paused := false;
      }
    }

    /** `updateAnimations`: the mixer advances whether or not an action is active. */
    method UpdateAnimations(deltaTime: real)
      modifies mixer
      ensures mixer.advanced == old(mixer.advanced) + [deltaTime]
    {
      mixer.Update(deltaTime);
    }

    /** `listAnimations`: every registered clip name once, in insertion order. */
    function ListAnimations(): (names: seq<string>)
      requires actions.Valid()
      ensures forall n :: n in names <==> n in actions.entries
      ensures forall i, j :: 0 <= i < j < |names| ==> names[i] != names[j]
      ensures names == actions.keys
    {
      actions.keys
    }
  }

  /**
   * Playing "walk" and then "run" leaves "run" alone in the slot, with "walk"
   * fading out; pausing and resuming then leaves "run" playing without a reset.
   */
  method CrossFadeScenario(walk: Action, run: Action)
    requires walk != run
    modifies walk, run
    ensures walk.calls == old(walk.calls) + [ResetCall, SetLoopForeverCall(LoopRepeat), FadeInCall(DefaultFadeTime),
                                             PlayCall, FadeOutCall(DefaultFadeTime)]
    ensures run.calls == old(run.calls) + [ResetCall, SetLoopForeverCall(LoopRepeat), FadeInCall(DefaultFadeTime), PlayCall]
    ensures !walk.paused && !run.paused
  {
    var mixer := new Mixer();
    var actions := Set(Set(EmptyMap(), "walk", walk), "run", run);
    var context := new AnimationContext(mixer, actions);
    var found := context.PlayAnimation("walk");
    assert found && context.activeAction == walk;
    found := context.PlayAnimation("run");
    assert found && context.activeAction == run;
    assert walk.calls[|walk.calls| - 1] == FadeOutCall(DefaultFadeTime);
    var before := run.calls;
    context.PauseAnimation();
    assert run.paused;
    context.ResumeAnimation();
    assert !run.paused && run.calls == before;
    assert context.ListAnimations() == ["walk", "run"];
    found := context.PlayAnimation("idle");
    assert !found && context.activeAction == run;
  }
}
