/** `Spring`: the suspension spring record the wheel controller updates each step. */
module Springs {

  /** Where the spring is: within its travel, past full extension, or fully compressed. */
  datatype ExtensionState = Normal | OverExtended | BottomedOut

  const DefaultMaxForce: real := 16000.0
  /** Relaxed length, in inches. */
  const DefaultMaxLength: real := 12.0

  class Spring {
    var state: ExtensionState
    /** 0 fully relaxed, 1 fully compressed. */
    var compression: real
    var force: real
    var maxForce: real
    var maxLength: real
    var length: real
    var prevLength: real
    var compressionVelocity: real
    var prevVelocity: real

    /** A new spring: 16000 N at most, 12 long, Normal, everything else 0. */
    constructor()
      ensures maxForce == DefaultMaxForce && maxLength == DefaultMaxLength && state == Normal
      ensures compression == 0.0 && force == 0.0 && length == 0.0 && prevLength == 0.0
      ensures compressionVelocity == 0.0 && prevVelocity == 0.0
    {
      maxForce := DefaultMaxForce;
      maxLength := DefaultMaxLength;
      state := Normal;
      compression := 0.0;
      force := 0.0;
      length := 0.0;
      prevLength := 0.0;
      compressionVelocity := 0.0;
      prevVelocity := 0.0;
    }
  }
}
