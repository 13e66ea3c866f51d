/** The Python exceptions that the modelled code lets escape to its callers. */
module Exceptions {

  datatype Raise =
    | AssertionError(detail: string)
    | ValueError(detail: string)
    | IndexError
    | KeyError(key: string)
    | AttributeError(name: string)
    /** `usb_exceptions.AdbCommandFailureException`: the device refused the command. */
    | AdbCommandFailure(detail: string)
    /** One of `LowDevice._ERRORS`: a USB device or bus I/O failure. */
    | UsbError(detail: string)
    /** `UnicodeDecodeError` of the ASCII codec: the first byte outside ASCII is at `position`. */
    | UnicodeDecodeError(position: nat)
    /** `TypeError`: an operand of the wrong type, such as `dict.update(None)`. */
    | TypeError(detail: string)
    /** Any exception raised by a call to the Swarming server. */
    | RemoteFailure(detail: string)
}
