/** What the parsers ask the standard library, whose answers are not part of this model. */
module Libraries {
  import opened Records

  datatype HostPort = HostPort(host: string, port: string)

  /** `parseKey` reads a WireGuard key in hexadecimal, `isAddr` is the stricter address parser. */
  datatype Library = Library(
    parseBool: string -> Option<bool>,
    parseIP: string -> Option<Name>,
    isAddr: string -> bool,
    parseKey: string -> Option<Key>,
    splitHostPort: string -> Option<HostPort>)
}
