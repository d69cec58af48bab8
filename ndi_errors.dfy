/**
  The single error-code register of the interpreter and its texts
  (igstkNDICommandInterpreter.h:52-135, 1297-1300). Codes up to 0xFF are
  reported by the device in an ERROR reply; codes above 0xFF are raised by
  the host while talking to the device.
*/
module NDIErrors {
  import opened NDIWrappers

  const NDI_OKAY: int := 0x00
  const NDI_BAD_CRC: int := 0x0100
  const NDI_OPEN_ERROR: int := 0x0200
  const NDI_BAD_COMM: int := 0x0300
  const NDI_TIMEOUT: int := 0x0400
  const NDI_WRITE_ERROR: int := 0x0500
  const NDI_READ_ERROR: int := 0x0600
  const NDI_RESET_FAIL: int := 0x0700
  const NDI_PROBE_FAIL: int := 0x0800

  /** The text of every code of ErrorCodeType; None for any other number. */
  function ErrorText(errnum: int): Option<string>
  {
    match errnum
      case 0x00 => Some("No error")
      case 0x01 => Some("Invalid command")
      case 0x02 => Some("Command too long")
      case 0x03 => Some("Command too short")
      case 0x04 => Some("Bad CRC calculated for command")
      case 0x05 => Some("Timeout on command execution")
      case 0x06 => Some("New communication parameters failed")
      case 0x07 => Some("Incorrect number of command parameters")
      case 0x08 => Some("Invalid port selected")
      case 0x09 => Some("Invalid mode selected")
      case 0x0A => Some("Invalid LED selected")
      case 0x0B => Some("Invalid LED state selected")
      case 0x0C => Some("Command invalid for current mode")
      case 0x0D => Some("No tool plugged in selected port")
      case 0x0E => Some("Selected port not initialized")
      case 0x0F => Some("Selected port not enabled")
      case 0x10 => Some("System not initialized")
      case 0x11 => Some("Failure to stop tracking")
      case 0x12 => Some("Failure to start tracking")
      case 0x13 => Some("Failure to initialize tool in port")
      case 0x14 => Some("Invalid camera parameters")
      case 0x15 => Some("Failure to initialize")
      case 0x16 => Some("Failure to start diagnostic mode")
      case 0x17 => Some("Failure to stop diagnostic mode")
      case 0x18 => Some("Failure to determine environmental IR")
      case 0x19 => Some("Failure to read firmware version")
      case 0x1A => Some("Internal device error")
      case 0x1B => Some("Failure to initialize for IR diagnostics")
      case 0x1C => Some("Failure to set marker firing signature")
      case 0x1D => Some("Failure to search for SROM IDs")
      case 0x1E => Some("Failure to read SROM data")
      case 0x1F => Some("Failure to write SROM data")
      case 0x20 => Some("Failure to select SROM")
      case 0x21 => Some("Failure to perform tool current test")
      case 0x22 => Some("No camera parameters for this wavelength")
      case 0x23 => Some("Command parameter out of range")
      case 0x24 => Some("No camera parameters for this volume")
      case 0x25 => Some("Failure to determine supported features")
      case 0x26 => Some("Reserved error code")
      case 0x27 => Some("Reserved error code")
      case 0x28 => Some("SCU has changed state")
      case 0x29 => Some("Main processor firmware corrupt")
      case 0x2A => Some("Memory is full")
      case 0x2B => Some("Requested handle has not been allocated")
      case 0x2C => Some("Requested handle has become unoccupied")
      case 0x2D => Some("All handles have been allocated")
      case 0x2E => Some("Incompatible firmware versions")
      case 0x2F => Some("Invalid port description")
      case 0x30 => Some("Requested port is already assigned")
      case 0x31 => Some("Invalid input or output state")
      case 0x32 => Some("Invalid operation for tool")
      case 0x33 => Some("Feature not available")
      case 0xF1 => Some("Too much environmental infrared")
      case 0xF4 => Some("Failure to erase Flash EPROM")
      case 0xF5 => Some("Failure to write Flash EPROM")
      case 0xF6 => Some("Failure to read Flash EPROM")
      case 0x0100 => Some("Bad CRC received from device")
      case 0x0200 => Some("Error opening serial device")
      case 0x0300 => Some("Bad communication parameters for host")
      case 0x0400 => Some("device took >5 secs to reply")
      case 0x0500 => Some("Device write error")
      case 0x0600 => Some("Device read error")
      case 0x0700 => Some("device failed to reset on break")
      case 0x0800 => Some("device not found on specified port")
      case _ => None
  }

  const UnrecognizedText: string := "Unrecognized error code"

  /** ErrorString: the text of a defined code, a fixed text otherwise. */
  function ErrorString(errnum: int): (s: string)
    ensures ErrorText(errnum).Some? ==> s == ErrorText(errnum).value
    ensures ErrorText(errnum).None? ==> s == UnrecognizedText
  {
    match ErrorText(errnum)
    case Some(text) => text
    case None => UnrecognizedText
  }

  predicate IsErrorCode(e: int)
  {
    ErrorText(e).Some?
  }

  /** A code the device itself reports. */
  predicate IsDeviceCode(e: int)
  {
    IsErrorCode(e) && e <= 0xFF
  }

  /** A code the host raises. */
  predicate IsHostCode(e: int)
  {
    IsErrorCode(e) && e > 0xFF
  }

  /** The device codes are 0x00-0x33, 0xF1 and 0xF4-0xF6. */
  lemma DeviceCodes(e: int)
    ensures IsDeviceCode(e) <==> (0x00 <= e <= 0x33 || e == 0xF1 || 0xF4 <= e <= 0xF6)
  {
    if 0x00 <= e <= 0x33 || e == 0xF1 || 0xF4 <= e <= 0xF6 {
      assert ErrorText(e).Some?;
    } else if e <= 0xFF {
      assert ErrorText(e).None?;
    }
  }

  /** The host codes are exactly the multiples of 0x100 from 0x100 to 0x800. */
  lemma HostCodes(e: int)
    ensures IsHostCode(e) <==> (0x100 <= e <= 0x800 && e % 0x100 == 0)
  {
  }

  /** No defined code shares the fallback text, so the fallback identifies
      the undefined codes exactly. */
  lemma ErrorStringFallback(e: int)
    ensures ErrorString(e) == UnrecognizedText <==> !IsErrorCode(e)
  {
  }
}
