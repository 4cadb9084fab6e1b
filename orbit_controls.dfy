/**
 * The orbit camera controller, seen from outside: an `enabled` flag and an
 * `update` call. What update does to the camera is not part of this model;
 * each call records the value of `enabled` it reconciled with.
 */
module OrbitControls {

  class OrbitControls {
    /** Index of the camera node the controller drives. */
    const camera: nat
    var enabled: bool
    /** The value of `enabled` seen by each call of update, oldest first. */
    var updates: seq<bool>

    constructor (camera: nat)
      ensures this.camera == camera && enabled && updates == []
    {
      this.camera := camera;
      enabled := true;
      updates := [];
    }

    method Update()
      modifies this`updates
      ensures updates == old(updates) + [enabled]
    {
      updates := updates + [enabled];
    }
  }
}
