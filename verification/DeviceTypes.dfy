/** Error and result types shared by the device layers (src/device.rs,
    src/data.rs). */
module DeviceTypes {

  datatype DeviceError =
    | Rpu
    | DeviceProtocol
    | NotInitialized
    | InvalidQueueMap
    | CommandQueueEmpty
    | CommandNeedsWait
    | CommandQueueTimeout
    | CommandDeliveryUncertain
    | RecoveryRequired
    | EventBufferChanged
    | EventTooLarge

  datatype DataError =
    | DataDevice(error: DeviceError)
    | DataRpu
    | DataMalformed
    | QueueOwnershipUncertain
    | NoTransmitToken
    | ReceiveDescriptorBusy
    | OutputTooSmall

  datatype ReceivedFrame = ReceivedFrame(len: nat, etherType: nat)
}
