/** Types shared by the wallet library's managers. */
module Common {

  /** Swift's optional values. */
  datatype Option<+T> = None | Some(value: T)

  /** The script types of an output, as the library's `ScriptType` enumeration names them. */
  datatype ScriptType = Unknown | P2PKH | P2PK | P2Multi | P2SH | P2WSH | P2WPKH | P2WPKHSH | NullData

  /** A header hash: raw bytes, compared byte for byte. */
  type Hash = seq<bv8>
}
