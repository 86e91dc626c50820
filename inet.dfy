/** Network addresses as the Android code sees them. The address library it
    calls (`InetAddressValidator.isValid`, `InetAddress.getByName` and
    `InetAddress.toString`) is not part of this model: its three operations
    are given to the model as function values. */
module Inet {

  /** A host name (empty for an address made from a literal) and the bytes. */
  datatype InetAddress = InetAddress(hostName: string, bytes: seq<int>)

  datatype AddressLibrary = AddressLibrary(
    isValid: string -> bool,
    getByName: string -> InetAddress,
    /** May put a '/' in front of the literal, as `InetAddress.toString`
        does for an address without a host name. */
    toString: InetAddress -> string)
}
