/** The application error type, its display strings and its translation
    into the serialisable error that crosses the IPC boundary. */
module Error {

  datatype XenotesterError =
    | CaptureError(msg: string)
    | InputError(msg: string)
    | PermissionError(msg: string)
    | ConfigError(msg: string)
    | ImageError(msg: string)
    | Cancelled

  /** The `#[error("…")]` prefix of each variant that carries a payload. */
  function Prefix(e: XenotesterError): string
    requires !e.Cancelled?
  {
    match e
    case CaptureError(_) => "Screenshot capture failed: "
    case InputError(_) => "Input operation failed: "
    case PermissionError(_) => "Permission denied: "
    case ConfigError(_) => "Configuration error: "
    case ImageError(_) => "Image processing error: "
  }

  /** The `Display` string of an error. */
  function Display(e: XenotesterError): (s: string)
    ensures e.Cancelled? ==> s == "Operation cancelled"
    ensures !e.Cancelled? ==> |s| > |e.msg| && s[|s| - |e.msg|..] == e.msg
  {
    if e.Cancelled? then "Operation cancelled" else Prefix(e) + e.msg
  }

  /** Different errors never display alike: the string names both the
      variant and its payload. */
  lemma {:induction false} DisplayInjective(a: XenotesterError, b: XenotesterError)
    requires Display(a) == Display(b)
    ensures a == b
  {
    // The first two characters already tell the variants apart.
    DisplayLead(a);
    DisplayLead(b);
    assert SameVariant(a, b);
    if !a.Cancelled? {
      var n := |Prefix(a)|;
      assert Display(a)[n..] == a.msg;
      assert Display(b)[n..] == b.msg;
    }
  }

  /** The first two characters of each display string. */
  function Lead(e: XenotesterError): string
  {
    match e
    case CaptureError(_) => "Sc"
    case InputError(_) => "In"
    case PermissionError(_) => "Pe"
    case ConfigError(_) => "Co"
    case ImageError(_) => "Im"
    case Cancelled => "Op"
  }

  lemma DisplayLead(e: XenotesterError)
    ensures |Display(e)| >= 2 && Display(e)[..2] == Lead(e)
  {
    if !e.Cancelled? {
      assert Display(e)[..2] == Prefix(e)[..2];
    }
  }

  /** The stable code the front end matches on. */
  function IpcCode(e: XenotesterError): (code: string)
    ensures |code| >= 5
  {
    match e
    case CaptureError(_) => "CAPTURE_ERROR"
    case InputError(_) => "INPUT_ERROR"
    case PermissionError(_) => "PERMISSION_ERROR"
    case ConfigError(_) => "CONFIG_ERROR"
    case ImageError(_) => "IMAGE_ERROR"
    case Cancelled => "CANCELLED"
  }

  /** Two errors share a code exactly when they are the same variant. */
  lemma IpcCodeDistinct(a: XenotesterError, b: XenotesterError)
    ensures IpcCode(a) == IpcCode(b) <==> SameVariant(a, b)
  {
  }

  predicate SameVariant(a: XenotesterError, b: XenotesterError)
  {
    match (a, b)
    case (CaptureError(_), CaptureError(_)) => true
    case (InputError(_), InputError(_)) => true
    case (PermissionError(_), PermissionError(_)) => true
    case (ConfigError(_), ConfigError(_)) => true
    case (ImageError(_), ImageError(_)) => true
    case (Cancelled, Cancelled) => true
    case _ => false
  }

  datatype IpcError = IpcError(code: string, message: string)

  /** `From<XenotesterError> for IpcError`. */
  function ToIpcError(e: XenotesterError): (ipc: IpcError)
    ensures ipc.message == Display(e)
    ensures ipc.code == IpcCode(e)
  {
    IpcError(IpcCode(e), Display(e))
  }

  /** The IPC error loses nothing: its message alone identifies the error,
      and its code agrees with the variant the message names. */
  lemma {:induction false} IpcErrorFaithful(a: XenotesterError, b: XenotesterError)
    requires ToIpcError(a).message == ToIpcError(b).message
    ensures a == b && ToIpcError(a) == ToIpcError(b)
  {
    DisplayInjective(a, b);
  }

  /** `From<XenotesterError> for String`. */
  function ToString(e: XenotesterError): (s: string)
    ensures s == Display(e)
  {
    Display(e)
  }

  /** `From<std::io::Error>`: an I/O failure is a capture failure. */
  function FromIoError(ioMessage: string): (e: XenotesterError)
    ensures e.CaptureError? && e.msg == ioMessage
    ensures Display(e) == "Screenshot capture failed: " + ioMessage
  {
    CaptureError(ioMessage)
  }

  /** `From<image::ImageError>`: an image library failure is an image error. */
  function FromImageError(imageMessage: string): (e: XenotesterError)
    ensures e.ImageError? && e.msg == imageMessage
    ensures Display(e) == "Image processing error: " + imageMessage
  {
    ImageError(imageMessage)
  }
}
