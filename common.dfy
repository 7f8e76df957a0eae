/** Types shared by every part of the audio model: optional values, results,
    the device exception, and the Windows integer widths the source uses. */
module Common {

  datatype Option<+T> = None | Some(value: T) {
    function GetOr(default: T): T {
      match this
      case Some(v) => v
      case None => default
    }
  }

  /** The reasons `sAudioDeviceException` is thrown in the core. */
  datatype DeviceError =
    | NullDevice            // "IMMDevice is null."
    | NoDeviceId            // "Could not get device id."
    | NoDeviceName          // "Could not get device name."
    | ConnectWhileRunning   // "Cannot connect to running audio_device."
    | SampleTypeMismatch    // process with a sub-format other than IEEE float
    | TooManyChannels       // a mix format wider than the buffer view's channel table

  /** A call that either returns normally or throws a device exception. */
  datatype Outcome = Pass | Fail(error: DeviceError)

  /** A value, or the device exception a constructor threw instead. */
  datatype Result<+T> = Ok(value: T) | Err(error: DeviceError)

  const WordLimit: nat := 0x1_0000
  const DWordLimit: nat := 0x1_0000_0000

  /** WORD: unsigned 16 bits. */
  type Word = x: nat | x < 0x1_0000

  /** DWORD and UINT32: unsigned 32 bits. */
  type DWord = x: nat | x < 0x1_0000_0000

  /** The identity of an application callback (a std::function the model cannot look into). */
  type CallbackId = nat
}
