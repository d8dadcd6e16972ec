/** The exceptions raised by the message codec and its dispatch tables, one constructor
    per raise site, and the Python exception class each one belongs to. */
module Exceptions {
  import opened Wrappers

  datatype PyError =
      /** `from_lk` of an enum met a wire value outside its table. */
    | UnknownEnumValue(enumName: string, wire: int)
      /** `to_lk` of an enum was asked to convert a member without a wire counterpart. */
    | UnmappedEnumMember(enumName: string)
      /** The protobuf constructor rejected an integer outside the field's range. */
    | OutOfRange(field: string, value: int)
      /** The protobuf constructor was given a keyword that names no field. */
    | NoSuchField(messageName: string, field: string)
      /** The protobuf constructor was given a value of the wrong type for a field. */
    | WrongFieldType(field: string)
      /** A list was used as a keyword name (a dictionary key), which Python refuses. */
    | UnhashableTag
      /** `to_signal_request`/`from_signal_*` on a class without the tag attribute. */
    | CannotConvert(className: string)
      /** The envelope's active field is not the class's tag (a tag list is never equal to a field name). */
    | WrongMessage(expected: seq<string>)
      /** `SessionDescription.from_signal_*` on an envelope holding neither offer nor answer. */
    | NotOfferOrAnswer
      /** Module-level dispatch met a tag that neither table registers. */
    | UnknownSignalMessage(tag: Option<string>)
      /** An attribute (method or field) that the object does not have. */
    | MissingAttribute(name: string)
      /** A dictionary lookup with an absent key. */
    | MissingKey(key: string)
      /** The websocket transport failed (connection refused or closed). */
    | TransportFailure
      /** An unsupported case the code refuses explicitly. */
    | NotImplemented(what: string)
      /** aiortc's error for a media track that cannot be used. */
    | MediaStreamFailure(message: string)
      /** Opening or writing a recording file failed. */
    | IoFailure

  /** The Python exception class raised at each site. */
  function ExceptionClass(e: PyError): string
  {
    match e
    case UnknownEnumValue(_, _) => "ValueError"
    case UnmappedEnumMember(_) => "ValueError"
    case OutOfRange(_, _) => "ValueError"
    case NoSuchField(_, _) => "ValueError"
    case WrongFieldType(_) => "TypeError"
    case UnhashableTag => "TypeError"
    case CannotConvert(_) => "Exception"
    case WrongMessage(_) => "Exception"
    case NotOfferOrAnswer => "ValueError"
    case UnknownSignalMessage(_) => "ValueError"
    case MissingAttribute(_) => "AttributeError"
    case MissingKey(_) => "KeyError"
    case TransportFailure => "ConnectionClosed"
    case NotImplemented(_) => "NotImplementedError"
    case MediaStreamFailure(_) => "MediaStreamError"
    case IoFailure => "OSError"
  }
}
