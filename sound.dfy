/**
 * engine/sound.go: the bookkeeping around the audio library. `soundBank`
 * holds each decoded sound by name, `looped` the sounds currently set up to
 * loop with the control whose `Paused` flag the loop calls flip, and
 * `isInitialised` records that the maps and the speaker have been set up.
 *
 * Opening and decoding the mp3 file is a parameter (`None` when either
 * fails, which Go answers with `log.Fatal`). What the speaker is handed is
 * recorded in `played`; the mixing, streaming and locking themselves, and
 * the log lines, are not modelled.
 */
module Sound {
  import opened GoInt

  /** A decoded sound held in memory: its sample rate and its samples. */
  datatype Buffer = Buffer(sampleRate: nat, samples: seq<real>)

  /** beep.Ctrl: the pause switch of one playing stream, shared with the speaker. */
  class Ctrl {
    var paused: bool

    constructor (paused: bool)
      ensures this.paused == paused
    {
      this.paused := paused;
    }
  }

  /** gameSound: the control of a looping stream and the volume it was started with. */
  datatype GameSound = GameSound(ctrl: Ctrl, volume: real)

  /** A stream handed to speaker.Play: a one-shot sound, or a loop behind its control; `base` is the volume curve's base. */
  datatype Voice =
    | Once(sound: Buffer, base: real, volume: real)
    | Loop(sound: Buffer, ctrl: Ctrl, base: real, volume: real)

  /** The volume bases PlaySound and LoopSound use. */
  const OneShotBase: real := 2.0
  const LoopBase: real := 10.0

  /** Where a name stands: not loaded, loaded and not looping, looping, or looping but paused. */
  datatype Status = Unloaded | Loaded | Looping | Paused

  class Mixer {
    var soundBank: map<string, Buffer>
    var looped: map<string, GameSound>
    var isInitialised: bool
    /** The sample rate speaker.Init was called with, once it has been. */
    var speakerRate: Option<nat>
    var played: seq<Voice>

    /** The controls of the current loops. */
    ghost function Controls(): set<Ctrl>
      reads this
    {
      set n | n in looped :: looped[n].ctrl
    }

    /**
     * Before the first load nothing is set up; afterwards the speaker has its
     * rate, every loop belongs to a loaded sound and no two loops share a control.
     */
    ghost predicate Valid()
      reads this
    {
      (!isInitialised ==> soundBank == map[] && looped == map[] && speakerRate == None) &&
      (isInitialised ==> speakerRate.Some?) &&
      looped.Keys <= soundBank.Keys &&
      (forall a, b :: a in looped && b in looped && a != b ==> looped[a].ctrl != looped[b].ctrl)
    }

    ghost function StatusOf(name: string): Status
      reads this, Controls()
    {
      if name !in soundBank then Unloaded
      else if name !in looped then Loaded
      else if looped[name].ctrl.paused then Paused
      else Looping
    }

    /** The zero state: nil maps (which read as empty), not initialised, nothing played. */
    constructor ()
      ensures soundBank == map[] && looped == map[] && !isInitialised && speakerRate == None && played == []
      ensures Valid()
    {
      soundBank := map[];
      looped := map[];
      isInitialised := false;
      speakerRate := None;
      played := [];
    }

    /**
     * LoadSound: a name already in the bank changes nothing. Otherwise the file
     * must open and decode (or the program exits); the first such load makes
     * the maps and starts the speaker at the sound's rate, and the buffer is
     * stored under the name.
     */
    method LoadSound(name: string, decoded: Option<Buffer>) returns (r: Outcome<()>)
      requires Valid()
      modifies this
      ensures name in old(soundBank) ==> r == Ok(()) && unchanged(this)
      ensures name !in old(soundBank) && decoded.None? ==> r == Panic(FatalExit) && unchanged(this)
      ensures name !in old(soundBank) && decoded.Some? ==>
        r == Ok(()) && isInitialised &&
        soundBank == (if old(isInitialised) then old(soundBank) else map[])[name := decoded.value] &&
        looped == (if old(isInitialised) then old(looped) else map[]) &&
        speakerRate == (if old(isInitialised) then old(speakerRate) else Some(decoded.value.sampleRate)) &&
        played == old(played)
      ensures Valid()
      ensures r.Ok? ==> StatusOf(name) != Unloaded && forall n :: n != name ==> StatusOf(n) == old(StatusOf(n))
    {
      if name in soundBank {
        return Ok(());
      }
      if decoded.None? {
        return Panic(FatalExit);
      }
      if !isInitialised {
        soundBank := map[];
        looped := map[];
        speakerRate := Some(decoded.value.sampleRate);
        isInitialised := true;
      }
      soundBank := soundBank[name := decoded.value];
      r := Ok(());
    }

    /** PlaySound: a loaded sound is handed to the speaker once at the given volume; an unknown name changes nothing. */
    method PlaySound(name: string, volume: real)
      modifies this
      ensures name !in old(soundBank) ==> unchanged(this)
      ensures name in old(soundBank) ==>
        played == old(played) + [Once(old(soundBank)[name], OneShotBase, volume)] &&
        soundBank == old(soundBank) && looped == old(looped) &&
        isInitialised == old(isInitialised) && speakerRate == old(speakerRate)
      ensures old(Valid()) ==> Valid()
      ensures forall n :: StatusOf(n) == old(StatusOf(n))
    {
      if name !in soundBank {
        return;
      }
      played := played + [Once(soundBank[name], OneShotBase, volume)];
    }

    /**
     * LoopSound: an unknown name changes nothing. A loaded sound that is not
     * looping gets exactly one new, unpaused loop entry, which is handed to the
     * speaker; an existing loop is unpaused and nothing is added.
     */
    method LoopSound(name: string, volume: real)
      requires Valid()
      modifies this, if name in looped then {looped[name].ctrl} else {}
      ensures name !in old(soundBank) ==> unchanged(this)
      ensures name in old(soundBank) && name !in old(looped) ==>
        name in looped && fresh(looped[name].ctrl) && !looped[name].ctrl.paused &&
        looped == old(looped)[name := GameSound(looped[name].ctrl, volume)] &&
        played == old(played) + [Loop(old(soundBank)[name], looped[name].ctrl, LoopBase, volume)]
      ensures name in old(looped) ==> looped == old(looped) && !looped[name].ctrl.paused && played == old(played)
      ensures soundBank == old(soundBank) && isInitialised == old(isInitialised) && speakerRate == old(speakerRate)
      ensures Valid()
      ensures StatusOf(name) == if old(StatusOf(name)) == Unloaded then Unloaded else Looping
      ensures forall n :: n != name ==> StatusOf(n) == old(StatusOf(n))
    {
      if name !in soundBank {
        return;
      }
      if name !in looped {
        var ctrl := new Ctrl(false);
        looped := looped[name := GameSound(ctrl, volume)];
        played := played + [Loop(soundBank[name], ctrl, LoopBase, volume)];
      } else {
        looped[name].ctrl.paused := false;
      }
    }

    /** PauseLoop: a looping name is paused and keeps its entry; any other name changes nothing. */
    method PauseLoop(name: string)
      requires Valid()
      modifies if name in looped then {looped[name].ctrl} else {}
      ensures name in looped ==> looped[name].ctrl.paused
      ensures Valid()
      ensures StatusOf(name) == if old(StatusOf(name)) in {Looping, Paused} then Paused else old(StatusOf(name))
      ensures forall n :: n != name ==> StatusOf(n) == old(StatusOf(n))
    {
      if name !in looped {
        return;
      }
      looped[name].ctrl.paused := true;
    }

    /** StopLoop: a looping name is paused and then removed from the loops; any other name changes nothing. */
    method StopLoop(name: string)
      requires Valid()
      modifies this, if name in looped then {looped[name].ctrl} else {}
      ensures name !in old(looped) ==> unchanged(this)
      ensures name in old(looped) ==> old(looped)[name].ctrl.paused && looped == old(looped) - {name}
      ensures soundBank == old(soundBank) && played == old(played)
      ensures isInitialised == old(isInitialised) && speakerRate == old(speakerRate)
      ensures Valid()
      ensures StatusOf(name) == if old(StatusOf(name)) == Unloaded then Unloaded else Loaded
      ensures forall n :: n != name ==> StatusOf(n) == old(StatusOf(n))
    {
      if name !in looped {
        return;
      }
      looped[name].ctrl.paused := true;
      looped := looped - {name};
    }
  }
}
