/** Error values of the libraries the clients call: the XML and JSON decoders and `std::io`. */
module Errors {
  import Ureq

  /** A failure of the XML decoder (`serde_xml_rs::Error`). */
  datatype XmlError = XmlError(message: string)

  /** A failure of the JSON encoder or decoder (`serde_json::Error`). */
  datatype JsonError = JsonError(message: string)

  datatype IoErrorKind = NotFound | InvalidInput | Other

  /** The message of an `io::Error`: literal text, or the displayed form of a client error. */
  datatype IoMessage = Text(text: string) | Shown(error: Ureq.UreqError)

  datatype IoError = IoError(kind: IoErrorKind, message: IoMessage)
}
