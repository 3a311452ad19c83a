/**
 * The content zoom and rotation (scaling_handler.py). Neither setter checks
 * its argument.
 */
module Scaling {

  class ScalingHandler {
    var scaleFactor: real
    var rotationAngle: int

    constructor ()
      ensures scaleFactor == 1.0 && rotationAngle == 0
    {
      scaleFactor := 1.0;
      rotationAngle := 0;
    }

    method SetScaleFactor(factor: real)
      modifies this
      ensures scaleFactor == factor && rotationAngle == old(rotationAngle)
    {
      scaleFactor := factor;
    }

    method SetRotationAngle(angle: int)
      modifies this
      ensures rotationAngle == angle && scaleFactor == old(scaleFactor)
    {
      rotationAngle := angle;
    }
  }
}
