/**
 * Return codes of the device-settings HAL (dsError_t), as the front-panel,
 * video-port and audio conformance tests use them.
 */
module DeviceSettings {

  datatype DsError =
    | NoError
    | General
    | InvalidParam
    | InvalidState
    | AlreadyInitialized
    | NotInitialized
    | OperationNotSupported
}
