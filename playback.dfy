/**
 The playback controller: a single optional sound handle and the id of the call that
 handle plays, toggled by taps on call rows and cleared by the finish callback. The
 audio library is abstract: it hands out numbered handles, and every create, stop and
 unload it performs is recorded in a ghost log.
 */
module Playback {
  import opened Wrappers
  import opened Records
  import Labels

  type Handle = nat

  /** What the audio library did to which handle. */
  datatype Event = Create(h: Handle, url: string) | Stop(h: Handle) | Unload(h: Handle)

  /** Which awaited audio call of one tap throws, if that call is reached at all. */
  datatype Fault = NoFault | StopFails | UnloadFails | CreateFails

  /** A playback status report: whether the sound is loaded and whether it just finished. */
  datatype Status = Status(isLoaded: bool, didJustFinish: bool)

  /** The handles the library holds loaded after `log`: created and not yet unloaded. */
  function Live(log: seq<Event>): set<Handle>
  {
    if log == [] then {}
    else
      Step(Live(log[..|log| - 1]), log[|log| - 1])
  }

  /** The loaded handles after one more event. */
  function Step(live: set<Handle>, e: Event): set<Handle>
  {
    if e.Create? then live + {e.h}
    else if e.Unload? then live - {e.h}
    else live
  }

  lemma LiveSnoc(log: seq<Event>, e: Event)
    ensures Live(log + [e]) == Step(Live(log), e)
  {
  }

  /** The events of `stopAsync` then `unloadAsync` on `h` when one of them may throw;
      a thrown call records nothing and skips what follows it. */
  function Release(h: Handle, fault: Fault): seq<Event>
  {
    match fault
    case StopFails => []
    case UnloadFails => [Stop(h)]
    case _ => [Stop(h), Unload(h)]
  }

  /** Whether stop-then-unload runs to completion under `fault`. */
  predicate Releases(fault: Fault)
  {
    fault != StopFails && fault != UnloadFails
  }

  class Player {
    var sound: Option<Handle>
    var playingCallId: Option<string>
    /** The library's next fresh handle. */
    var nextHandle: nat
    ghost var log: seq<Event>
    /** The handles the library holds loaded, kept equal to `Live(log)`. */
    ghost var loaded: set<Handle>
    /** Handles the player stopped referring to without unloading them. */
    ghost var abandoned: set<Handle>

    function Held(): set<Handle>
      reads this`sound
    {
      if sound.Some? then {sound.value} else {}
    }

    /** At most one handle that the player still refers to is loaded. */
    lemma AtMostOneLoaded()
      requires Valid()
      ensures |loaded - abandoned| <= 1
    {
    }

    /** The sound and the playing id are set or cleared together, handles are fresh
        when created, and every loaded handle is either the held one or an abandoned one;
        hence at most one handle the player still refers to is loaded. */
    ghost predicate Valid()
      reads this
      ensures Valid() ==> loaded - abandoned == Held()
    {
      && (sound.Some? <==> playingCallId.Some?)
      && loaded == Live(log)
      && (forall h :: h in loaded ==> h < nextHandle)
      && loaded == Held() + abandoned
      && Held() !! abandoned
    }

    /** Both state fields start out `null`. */
    constructor ()
      ensures Valid()
      ensures sound == None && playingCallId == None
      ensures log == [] && loaded == {} && abandoned == {} && nextHandle == 0
    {
      sound, playingCallId, nextHandle := None, None, 0;
      log, loaded, abandoned := [], {}, {};
    }

    /** `await sound.stopAsync()`. */
    method StopAsync(h: Handle, fault: Fault) returns (thrown: bool)
      requires loaded == Live(log)
      modifies this`log
      ensures thrown <==> fault == StopFails
      ensures log == if thrown then old(log) else old(log) + [Stop(h)]
      ensures loaded == Live(log)
    {
      thrown := fault == StopFails;
      if !thrown {
        LiveSnoc(log, Stop(h));
        log := log + [Stop(h)];
      }
    }

    /** `await sound.unloadAsync()`. */
    method UnloadAsync(h: Handle, fault: Fault) returns (thrown: bool)
      requires loaded == Live(log)
      modifies this`log, this`loaded
      ensures thrown <==> fault == UnloadFails
      ensures log == if thrown then old(log) else old(log) + [Unload(h)]
      ensures loaded == Live(log) && loaded == if thrown then old(loaded) else old(loaded) - {h}
    {
      thrown := fault == UnloadFails;
      if !thrown {
        LiveSnoc(log, Unload(h));
        log := log + [Unload(h)];
        loaded := loaded - {h};
      }
    }

    /** `await Audio.Sound.createAsync({ uri: url }, { shouldPlay: true })`: a fresh
        handle, already playing. */
    method CreateAsync(url: string, fault: Fault) returns (created: Option<Handle>)
      requires loaded == Live(log)
      modifies this`log, this`nextHandle, this`loaded
      ensures loaded == Live(log)
      ensures fault == CreateFails ==>
                created == None && log == old(log) && loaded == old(loaded) && nextHandle == old(nextHandle)
      ensures fault != CreateFails ==>
                && created == Some(old(nextHandle))
                && log == old(log) + [Create(old(nextHandle), url)]
                && loaded == old(loaded) + {old(nextHandle)}
                && nextHandle == old(nextHandle) + 1
    {
      if fault == CreateFails {
        created := None;
      } else {
        created := Some(nextHandle);
        LiveSnoc(log, Create(nextHandle, url));
        log := log + [Create(nextHandle, url)];
        loaded := loaded + {nextHandle};
        nextHandle := nextHandle + 1;
      }
    }

    /** `await sound.stopAsync(); await sound.unloadAsync();` on the held sound. */
    method ReleaseHeld(fault: Fault) returns (thrown: bool)
      requires sound.Some? && loaded == Live(log)
      modifies this`log, this`loaded
      ensures thrown <==> !Releases(fault)
      ensures log == old(log) + Release(sound.value, fault)
      ensures loaded == Live(log) && loaded == if thrown then old(loaded) else old(loaded) - {sound.value}
    {
      var h := sound.value;
      ghost var log0 := log;
      thrown := StopAsync(h, fault);
      if !thrown {
        thrown := UnloadAsync(h, fault);
        if !thrown {
          assert log == log0 + [Stop(h), Unload(h)];
        }
      }
    }

    /** The `catch` of a tap: both fields cleared; a held handle that is still loaded
        is dropped without being unloaded. */
    method Catch()
      modifies this`sound, this`playingCallId, this`abandoned
      ensures sound == None && playingCallId == None
      ensures abandoned == old(abandoned) + (old(Held()) * loaded)
    {
      abandoned := abandoned + (Held() * loaded);
      playingCallId := None;
      sound := None;
    }

    /** A tap on `call`'s button. Tapping the playing call stops and unloads its sound
        and clears the session; tapping any other call stops and unloads the held sound
        (if any) before creating the new one, which then becomes the session. A throw
        anywhere clears the session. */
    method PlayAudio(call: Call, fault: Fault)
      requires Valid()
      modifies this
      ensures Valid()
      ensures old(playingCallId) == Some(call.id) && old(sound).Some? ==>
                && sound == None && playingCallId == None
                && log == old(log) + Release(old(sound).value, fault) && nextHandle == old(nextHandle)
                && abandoned == old(abandoned) + (if Releases(fault) then {} else {old(sound).value})
      ensures !(old(playingCallId) == Some(call.id) && old(sound).Some?) ==>
                var released := if old(sound).Some? then Release(old(sound).value, fault) else [];
                var ok := fault == NoFault || (old(sound).None? && fault != CreateFails);
                && (ok ==>
                      && log == old(log) + released + [Create(old(nextHandle), call.url)]
                      && sound == Some(old(nextHandle)) && playingCallId == Some(call.id)
                      && nextHandle == old(nextHandle) + 1 && abandoned == old(abandoned))
                && (!ok ==>
                      && log == old(log) + released
                      && sound == None && playingCallId == None && nextHandle == old(nextHandle)
                      && abandoned == old(abandoned)
                           + (if old(sound).Some? && !Releases(fault) then {old(sound).value} else {}))
    {
      if playingCallId == Some(call.id) && sound.Some? {
        ToggleOff(fault);
      } else {
        Switch(call, fault);
      }
    }

    /** The first branch of a tap: the playing call was tapped again. */
    method ToggleOff(fault: Fault)
      requires Valid() && sound.Some?
      modifies this
      ensures Valid()
      ensures sound == None && playingCallId == None && nextHandle == old(nextHandle)
      ensures log == old(log) + Release(old(sound).value, fault)
      ensures abandoned == old(abandoned) + (if Releases(fault) then {} else {old(sound).value})
    {
      var thrown := ReleaseHeld(fault);
      if thrown {
        Catch();
      } else {
        sound := None;
        playingCallId := None;
      }
    }

    /** The rest of a tap: release the held sound, if any, then create the tapped one. */
    method Switch(call: Call, fault: Fault)
      requires Valid()
      modifies this
      ensures Valid()
      ensures var released := if old(sound).Some? then Release(old(sound).value, fault) else [];
              var ok := fault == NoFault || (old(sound).None? && fault != CreateFails);
              && (ok ==>
                    && log == old(log) + released + [Create(old(nextHandle), call.url)]
                    && sound == Some(old(nextHandle)) && playingCallId == Some(call.id)
                    && nextHandle == old(nextHandle) + 1 && abandoned == old(abandoned))
              && (!ok ==>
                    && log == old(log) + released
                    && sound == None && playingCallId == None && nextHandle == old(nextHandle)
                    && abandoned == old(abandoned)
                         + (if old(sound).Some? && !Releases(fault) then {old(sound).value} else {}))
    {
      if sound.Some? {
        var thrown := ReleaseHeld(fault);
        if thrown {
          Catch();
          return;
        }
      }
      Load(call, fault);
    }

    /** The creation step of a tap, once no sound the player refers to is loaded: the
        created sound and the tapped call become the session. */
    method Load(call: Call, fault: Fault)
      requires sound.Some? <==> playingCallId.Some?
      requires loaded == Live(log) && forall h :: h in loaded ==> h < nextHandle
      requires loaded == abandoned && Held() !! abandoned
      modifies this
      ensures Valid()
      ensures fault != CreateFails ==>
                && log == old(log) + [Create(old(nextHandle), call.url)]
                && sound == Some(old(nextHandle)) && playingCallId == Some(call.id)
                && nextHandle == old(nextHandle) + 1
      ensures fault == CreateFails ==>
                log == old(log) && sound == None && playingCallId == None && nextHandle == old(nextHandle)
      ensures abandoned == old(abandoned)
    {
      var newSound := CreateAsync(call.url, fault);
      if newSound.None? {
        Catch();
        return;
      }
      sound := newSound;
      playingCallId := Some(call.id);
    }

    /** The status callback every created sound carries. It does not look at which sound
        reports: a finish report from any of them clears the session, and the held sound
        is dropped without being unloaded. */
    method OnPlaybackStatus(h: Handle, status: Status)
      requires Valid()
      requires h < nextHandle
      modifies this
      ensures Valid()
      ensures log == old(log) && nextHandle == old(nextHandle)
      ensures status.isLoaded && status.didJustFinish ==>
                sound == None && playingCallId == None && abandoned == old(abandoned) + old(Held())
      ensures !(status.isLoaded && status.didJustFinish) ==>
                sound == old(sound) && playingCallId == old(playingCallId) && abandoned == old(abandoned)
    {
      if status.isLoaded && status.didJustFinish {
        abandoned := abandoned + Held();
        playingCallId := None;
        sound := None;
      }
    }

    /** The caption of `call`'s row: Stop exactly when it is the playing call, and then
        its sound is held and loaded. */
    function ButtonFor(call: Call): (r: string)
      reads this
      requires Valid()
      ensures r == Labels.StopLabel || r == Labels.PlayLabel
      ensures r == Labels.StopLabel <==> playingCallId == Some(call.id)
      ensures r == Labels.StopLabel ==> sound.Some? && sound.value in loaded - abandoned
    {
      Labels.ButtonLabel(playingCallId, call.id)
    }
  }

  /** Tap one call, then another, then the other again: the first sound is stopped and
      unloaded before the second is created, and the last tap toggles playback off. */
  method SwitchThenToggleOff(a: Call, b: Call)
    requires a.id != b.id
  {
    var p := new Player();
    p.PlayAudio(a, NoFault);
    assert p.log == [Create(0, a.url)];
    p.PlayAudio(b, NoFault);
    assert Release(0, NoFault) == [Stop(0), Unload(0)];
    assert p.log == [Create(0, a.url), Stop(0), Unload(0), Create(1, b.url)];
    assert p.playingCallId == Some(b.id);
    p.PlayAudio(b, NoFault);
    assert Release(1, NoFault) == [Stop(1), Unload(1)];
    assert p.sound == None && p.playingCallId == None;
    assert p.log == [Create(0, a.url), Stop(0), Unload(0), Create(1, b.url), Stop(1), Unload(1)];
    assert Live(p.log) == {};
  }
}
