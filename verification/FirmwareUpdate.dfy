/** Results and errors of firmware updates, as callers see them. */
module FirmwareUpdate {
  datatype Error =
    | NoError | NotConnected | Busy | InvalidArgument | Timeout | DeviceRejected
    | ProtocolError | TransportError | Cancelled | IdentityMismatch | ProtocolMismatch

  datatype BootStatus = BootStatus(
    error: Error, deviceStatus: int, protocol: nat, bootState: int, activeTransfer: nat,
    activeSlot: int, confirmedSlot: int, pendingSlot: int, slot0Size: nat, slot1Size: nat)

  function BootFailure(error: Error): BootStatus { BootStatus(error, 0, 0, 0, 0, 0, 0, 0, 0, 0) }

  const BOOT_IDLE := 0
  const SLOT_NONE := 0
  const SLOT_PRIMARY := 1

  /** Idle, running from the primary slot, which is confirmed, with nothing pending. */
  predicate PrimaryConfirmed(b: BootStatus) {
    && b.error.NoError? && b.protocol == 1 && b.bootState == BOOT_IDLE && b.activeTransfer == 0
    && b.activeSlot == SLOT_PRIMARY && b.confirmedSlot == SLOT_PRIMARY && b.pendingSlot == SLOT_NONE
    && b.slot0Size != 0 && b.slot1Size != 0
  }
}
