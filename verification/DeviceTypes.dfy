/** What a device says about itself, and which protocol versions this SDK can talk to. */
module DeviceTypes {
  datatype Version = Version(major: nat, minor: nat, patch: nat)
  datatype FirmwareType = StandardArm | MobileArm | CobotArm | UnknownFirmware
  datatype DeviceInfo = DeviceInfo(
    protocol: Version, firmware: Version, board: string, custom: string,
    firmwareType: FirmwareType, serial: string, capabilities: nat)

  const SUPPORTED := Version(0, 0, 1)

  /** Before the first major version a minor one may break compatibility. */
  predicate Compatible(v: Version) {
    if SUPPORTED.major == 0 then v.major == SUPPORTED.major && v.minor == SUPPORTED.minor
    else v.major == SUPPORTED.major
  }
}
