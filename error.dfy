/**
  The error taxonomy of slkrd (`SlkrdError`) and the text its `Display`
  implementation produces for each variant.
 */
module Errors {
  import opened Wrappers

  /** Whatever an I/O error holds besides its text (its kind, an OS code); never inspected. */
  type IoErrorSource(==)

  /** Whatever a WebRTC library error holds besides its text; never inspected. */
  type WebRtcErrorSource(==)

  /** An I/O error: an opaque source and the text it displays. */
  datatype IoError = IoError(source: IoErrorSource, text: string)

  /** A WebRTC library error: an opaque source and the text it displays. */
  datatype WebRtcError = WebRtcError(source: WebRtcErrorSource, text: string)

  datatype SlkrdError =
    | Io(ioError: IoError)
    | WebRtc(webRtcError: WebRtcError)
    | Network(msg: string)
    | InvalidPasscode
    | TransferFailed(msg: string)

  /** The variant of an error, without its payload. */
  datatype ErrorKind = IoKind | WebRtcKind | NetworkKind | InvalidPasscodeKind | TransferFailedKind

  function Kind(e: SlkrdError): ErrorKind
  {
    match e
    case Io(_) => IoKind
    case WebRtc(_) => WebRtcKind
    case Network(_) => NetworkKind
    case InvalidPasscode => InvalidPasscodeKind
    case TransferFailed(_) => TransferFailedKind
  }

  /** The fixed text every message of a kind starts with. */
  function Prefix(k: ErrorKind): string
  {
    match k
    case IoKind => "IO error: "
    case WebRtcKind => "WebRTC error: "
    case NetworkKind => "Network error: "
    case InvalidPasscodeKind => "Invalid passcode format"
    case TransferFailedKind => "Transfer failed: "
  }

  /** Two different kinds disagree within the first two characters of their prefixes. */
  lemma PrefixesDisagreeEarly(k1: ErrorKind, k2: ErrorKind)
    requires k1 != k2
    ensures |Prefix(k1)| >= 2 && |Prefix(k2)| >= 2
    ensures Prefix(k1)[0] != Prefix(k2)[0] || Prefix(k1)[1] != Prefix(k2)[1]
  {
  }

  /** No kind's prefix is a prefix of another kind's prefix, nor of any text starting with it. */
  lemma PrefixesExclusive(k1: ErrorKind, k2: ErrorKind, s: string)
    requires k1 != k2
    requires Prefix(k1) <= s
    ensures !(Prefix(k2) <= s)
  {
    PrefixesDisagreeEarly(k1, k2);
    assert s[0] == Prefix(k1)[0] && s[1] == Prefix(k1)[1];
  }

  /** The user-visible text of an error. */
  function Display(e: SlkrdError): (s: string)
    ensures Prefix(Kind(e)) <= s
    ensures forall k :: k != Kind(e) ==> !(Prefix(k) <= s)
  {
    var s := match e
      case Io(err) => "IO error: " + err.text
      case WebRtc(err) => "WebRTC error: " + err.text
      case Network(msg) => "Network error: " + msg
      case InvalidPasscode => "Invalid passcode format"
      case TransferFailed(msg) => "Transfer failed: " + msg;
    assert Prefix(Kind(e)) <= s;
    forall k | k != Kind(e) ensures !(Prefix(k) <= s) {
      PrefixesExclusive(Kind(e), k, s);
    }
    s
  }

  /** The text after an error's prefix: its payload's text, or nothing for InvalidPasscode. */
  function Detail(e: SlkrdError): string
  {
    match e
    case Io(err) => err.text
    case WebRtc(err) => err.text
    case Network(msg) => msg
    case InvalidPasscode => ""
    case TransferFailed(msg) => msg
  }

  /** What a reader of an error message can know about the error: its kind and its payload's text. */
  datatype ShownError = ShownError(kind: ErrorKind, detail: string)

  function Shown(e: SlkrdError): ShownError
  {
    ShownError(Kind(e), Detail(e))
  }

  /** Reads the kind and the payload text back from a message, when it is one Display can produce. */
  function Parse(s: string): (r: Option<ShownError>)
  {
    if s == Prefix(InvalidPasscodeKind) then Some(ShownError(InvalidPasscodeKind, ""))
    else if Prefix(IoKind) <= s then Some(ShownError(IoKind, s[|Prefix(IoKind)|..]))
    else if Prefix(WebRtcKind) <= s then Some(ShownError(WebRtcKind, s[|Prefix(WebRtcKind)|..]))
    else if Prefix(NetworkKind) <= s then Some(ShownError(NetworkKind, s[|Prefix(NetworkKind)|..]))
    else if Prefix(TransferFailedKind) <= s then Some(ShownError(TransferFailedKind, s[|Prefix(TransferFailedKind)|..]))
    else None
  }

  /** The kind and the payload text of an error can be read back from its message. */
  lemma ParseDisplay(e: SlkrdError)
    ensures Parse(Display(e)) == Some(Shown(e))
  {
  }

  /** Every message Parse accepts is the prefix of the kind it reports followed by the text it reports. */
  lemma DisplayParse(s: string)
    requires Parse(s).Some?
    ensures s == Prefix(Parse(s).value.kind) + Parse(s).value.detail
    ensures Parse(s).value.kind == InvalidPasscodeKind ==> Parse(s).value.detail == ""
  {
    var v := Parse(s).value;
    assert s == Prefix(v.kind) + s[|Prefix(v.kind)|..];
  }

  /** Two errors with the same message agree on kind and payload text. */
  lemma DisplayDeterminesShown(e1: SlkrdError, e2: SlkrdError)
    requires Display(e1) == Display(e2)
    ensures Kind(e1) == Kind(e2) && Detail(e1) == Detail(e2)
  {
    ParseDisplay(e1);
    ParseDisplay(e2);
  }

  /** Display is not injective: I/O errors that differ only in what lies behind their text show the same message. */
  lemma IoSourceNotShown(a: IoErrorSource, b: IoErrorSource, text: string)
    ensures Display(Io(IoError(a, text))) == Display(Io(IoError(b, text)))
    ensures a != b ==> Io(IoError(a, text)) != Io(IoError(b, text))
  {
  }

  /** The text of each variant, as the formatter writes it. */
  lemma DisplayText(e: SlkrdError)
    ensures e.Io? ==> Display(e) == "IO error: " + e.ioError.text
    ensures e.WebRtc? ==> Display(e) == "WebRTC error: " + e.webRtcError.text
    ensures e.Network? ==> Display(e) == "Network error: " + e.msg
    ensures e.InvalidPasscode? ==> Display(e) == "Invalid passcode format"
    ensures e.TransferFailed? ==> Display(e) == "Transfer failed: " + e.msg
  {
  }
}
