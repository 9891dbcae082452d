/**
 * The rover's configuration values, as set in src/constants.py, plus the two
 * speed limits that the motor driver imports but that file does not define.
 */
module Config {

  // Motor constants.
  const DEFAULT_SPEED: real := 0.55
  const MIN_APPROACH_SPEED: real := 0.25
  const STALL_THRESHOLD: real := 0.25

  // Speed limits of a motor command. They are not defined in src/constants.py;
  // the driver documents the range as -1.0 (full back) to 1.0 (full forward).
  const MIN_SPEED: real := -1.0
  const MAX_SPEED: real := 1.0

  // Distance constants, in centimetres.
  const MAX_VALID_DIST_CM: real := 250.0
  const SLOWDOWN_DIST_CM: real := 55.0
  const SIDE_CUSHION_DIST_CM: real := 35.0

  // Lidar wire format.
  const HEADER_BYTE_1: int := 0x54
  const HEADER_BYTE_2: int := 0x2C
  const PACKET_SIZE: nat := 47
  const PAYLOAD_SIZE: nat := 45
  const POINTS_PER_PACKET: nat := 12
  const ANGLE_DIVISOR: real := 100.0
  const MM_TO_CM: real := 10.0
  const LIDAR_OFFSET_DEG: real := 90.0

  // Sector boundaries, in degrees of corrected heading.
  const FRONT_START: real := 340.0
  const FRONT_END: real := 20.0
  const LEFT_START: real := 270.0
  const LEFT_END: real := 340.0
  const RIGHT_START: real := 20.0
  const RIGHT_END: real := 90.0
}
