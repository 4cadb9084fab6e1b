/** A shaded material; meshes hold it by reference, so one instance may be shared. */
module Materials {

  class Material {
    /** The wireframe flag of the material, false when it is created. */
    var wireframe: bool

    constructor ()
      ensures !wireframe
    {
      wireframe := false;
    }
  }
}
