/**
 * The software volume control: a volume element inside a bin, created by
 * setup and dropped by teardown. The volume and mute settings are stored in
 * the control itself, so they survive teardown and are pushed to the element
 * on the next setup. Volume values are stored and passed on, never computed with.
 */
module SoftVolumeControl {

  /** An engine element without state the control looks at (the bin, the converter). */
  class Element {
    constructor()
    {
    }
  }

  /** The engine's volume element, with the two properties the control sets. */
  class VolumeElement {
    var volume: real
    var mute: bool

    constructor()
    {
    }
  }

  class Control {
    var bin: Element?
    var volumeElement: VolumeElement?
    var volume: real
    var mute: bool

    /** A new control has volume 1.0, is not muted and has no elements. */
    constructor()
      ensures bin == null && volumeElement == null
      ensures volume == 1.0 && !mute
    {
      bin := null;
      volumeElement := null;
      volume := 1.0;
      mute := false;
    }

    /**
     * Creates the bin, a converter and the volume element; whether the engine
     * manages to create each is not known in advance. On success the stored
     * volume and mute are pushed to the new element. On failure the guard
     * releases what was created, and both pointers are null again.
     */
    method Setup() returns (ok: bool)
      requires bin == null && volumeElement == null
      modifies this
      ensures volume == old(volume) && mute == old(mute)
      ensures ok ==> bin != null && fresh(bin) && volumeElement != null && fresh(volumeElement)
      ensures ok ==> volumeElement.volume == volume && volumeElement.mute == mute
      ensures !ok ==> bin == null && volumeElement == null
    {
      var converter: Element? := null;
      var guarded := true;
      ok := false;
      var binCreated: bool := *;
      if binCreated {
        bin := new Element();
      }
      if bin != null {
        var converterCreated: bool := *;
        if converterCreated {
          converter := new Element();
        }
        if converter != null {
          var volumeCreated: bool := *;
          if volumeCreated {
            volumeElement := new VolumeElement();
          }
          if volumeElement != null {
            guarded := false;
            volumeElement.volume, volumeElement.mute := volume, mute;
            ok := true;
          }
        }
      }
      if guarded {
        // The guard's rollback: each created element is released and its pointer nulled.
        bin, converter, volumeElement := null, null, null;
      }
    }

    /** Drops the bin and the element; the stored settings stay. */
    method Teardown()
      modifies this
      ensures bin == null && volumeElement == null
      ensures volume == old(volume) && mute == old(mute)
    {
      bin := null;
      volumeElement := null;
    }

    /** Stores the volume and, while the element exists, passes it on. */
    method SetVolume(newVolume: real)
      modifies this, volumeElement
      ensures volume == newVolume && mute == old(mute)
      ensures bin == old(bin) && volumeElement == old(volumeElement)
      ensures volumeElement != null ==> volumeElement.volume == newVolume && volumeElement.mute == old(volumeElement.mute)
    {
      volume := newVolume;
      if volumeElement != null {
        volumeElement.volume := newVolume;
      }
    }

    function GetVolume(): real
      reads this
    {
      volume
    }

    /** Stores the mute flag and, while the element exists, passes it on. */
    method SetMuted(newMute: bool)
      modifies this, volumeElement
      ensures mute == newMute && volume == old(volume)
      ensures bin == old(bin) && volumeElement == old(volumeElement)
      ensures volumeElement != null ==> volumeElement.mute == newMute && volumeElement.volume == old(volumeElement.volume)
    {
      mute := newMute;
      if volumeElement != null {
        volumeElement.mute := newMute;
      }
    }

    function IsMuted(): bool
      reads this
    {
      mute
    }
  }

  /**
   * Settings made while no element exists, or that outlive a teardown, reach
   * the element of the next successful setup.
   */
  method SettingsSurviveTeardown(control: Control, v: real, m: bool) returns (ok: bool)
    requires control.bin == null && control.volumeElement == null
    modifies control
    ensures control.GetVolume() == v && control.IsMuted() == m
    ensures ok ==> control.volumeElement != null &&
                   control.volumeElement.volume == v && control.volumeElement.mute == m
  {
    control.SetVolume(v);
    control.SetMuted(m);
    var first := control.Setup();
    control.Teardown();
    ok := control.Setup();
  }
}
