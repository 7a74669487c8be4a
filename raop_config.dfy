/**
 * Selection of the RAOP transport when the sink is created: the protocol,
 * encryption and codec module arguments are mapped to the client's enums,
 * and any other spelling makes the construction fail.
 */
module RaopConfig {

  datatype Option<T> = None | Some(value: T)

  datatype Result<T, E> = Ok(value: T) | Err(error: E)

  datatype Protocol = TCP | UDP

  datatype Encryption = NoEncryption | RSA

  datatype Codec = PCM | ALAC

  /** The three choices the sink hands to the RAOP client. */
  datatype Transport = Transport(protocol: Protocol, encryption: Encryption, codec: Codec)

  /** The module arguments as given; an argument that was not given is None. */
  datatype TransportArgs = TransportArgs(protocol: Option<string>, encryption: Option<string>, codec: Option<string>)

  /** Why the sink could not be created. */
  datatype ConfigError =
    | MissingProtocol
    | UnsupportedProtocol(protocol: string)
    | UnsupportedEncryption(encryption: string)
    | UnsupportedCodec(codec: string)

  /** The argument spelling of each protocol. */
  function ProtocolName(p: Protocol): (s: string)
    ensures ParseProtocol(s) == Some(p)
  {
    match p
    case TCP => "TCP"
    case UDP => "UDP"
  }

  /** The protocol argument: exactly "TCP" or "UDP", case-sensitive. */
  function ParseProtocol(s: string): (r: Option<Protocol>)
    ensures r == Some(TCP) <==> s == "TCP"
    ensures r == Some(UDP) <==> s == "UDP"
    ensures r == None <==> s != "TCP" && s != "UDP"
  {
    if s == "TCP" then Some(TCP)
    else if s == "UDP" then Some(UDP)
    else None
  }

  /** The spelling that selects each encryption mode ("none" for no encryption). */
  function EncryptionName(e: Encryption): (s: string)
    ensures ParseEncryption(Some(s)) == Some(e)
  {
    match e
    case NoEncryption => "none"
    case RSA => "RSA"
  }

  /** The encryption argument: absent or "none" is no encryption, "RSA" is RSA. */
  function ParseEncryption(arg: Option<string>): (r: Option<Encryption>)
    ensures r == Some(NoEncryption) <==> arg == None || arg == Some("none")
    ensures r == Some(RSA) <==> arg == Some("RSA")
    ensures r == None <==> arg.Some? && arg.value != "none" && arg.value != "RSA"
  {
    match arg
    case None => Some(NoEncryption)
    case Some(s) =>
      if s == "none" then Some(NoEncryption)
      else if s == "RSA" then Some(RSA)
      else None
  }

  /** The spelling that selects each codec. */
  function CodecName(c: Codec): (s: string)
    ensures ParseCodec(Some(s)) == Some(c)
  {
    match c
    case PCM => "PCM"
    case ALAC => "ALAC"
  }

  /** The codec argument: absent or "PCM" is PCM, "ALAC" is ALAC. */
  function ParseCodec(arg: Option<string>): (r: Option<Codec>)
    ensures r == Some(PCM) <==> arg == None || arg == Some("PCM")
    ensures r == Some(ALAC) <==> arg == Some("ALAC")
    ensures r == None <==> arg.Some? && arg.value != "PCM" && arg.value != "ALAC"
  {
    match arg
    case None => Some(PCM)
    case Some(s) =>
      if s == "PCM" then Some(PCM)
      else if s == "ALAC" then Some(ALAC)
      else None
  }

  /**
   * The transport part of sink creation: the protocol is required and is
   * checked first, then the encryption, then the codec; the first argument
   * that does not parse is the one reported.
   */
  function ParseTransport(args: TransportArgs): (r: Result<Transport, ConfigError>)
    ensures args.protocol.None? ==> r == Err(MissingProtocol)
    ensures args.protocol.Some? && ParseProtocol(args.protocol.value).None? ==>
              r == Err(UnsupportedProtocol(args.protocol.value))
    ensures args.protocol.Some? && ParseProtocol(args.protocol.value).Some? && ParseEncryption(args.encryption).None? ==>
              r == Err(UnsupportedEncryption(args.encryption.value))
    ensures args.protocol.Some? && ParseProtocol(args.protocol.value).Some? && ParseEncryption(args.encryption).Some?
            && ParseCodec(args.codec).None? ==>
              r == Err(UnsupportedCodec(args.codec.value))
    ensures r.Ok? <==> args.protocol.Some? && ParseProtocol(args.protocol.value).Some?
                       && ParseEncryption(args.encryption).Some? && ParseCodec(args.codec).Some?
    ensures r.Ok? ==> r.value == Transport(ParseProtocol(args.protocol.value).value,
                                           ParseEncryption(args.encryption).value,
                                           ParseCodec(args.codec).value)
  {
    match args.protocol
    case None => Err(MissingProtocol)
    case Some(p) =>
      match ParseProtocol(p)
      case None => Err(UnsupportedProtocol(p))
      case Some(protocol) =>
        match ParseEncryption(args.encryption)
        case None => Err(UnsupportedEncryption(args.encryption.value))
        case Some(encryption) =>
          match ParseCodec(args.codec)
          case None => Err(UnsupportedCodec(args.codec.value))
          case Some(codec) => Ok(Transport(protocol, encryption, codec))
  }

  /** Module arguments that spell out every choice of a transport. */
  function ArgsFor(t: Transport): (args: TransportArgs)
    ensures ParseTransport(args) == Ok(t)
    ensures args.protocol.Some? && args.encryption.Some? && args.codec.Some?
  {
    TransportArgs(Some(ProtocolName(t.protocol)), Some(EncryptionName(t.encryption)), Some(CodecName(t.codec)))
  }

  /** Parsing is exact: the only arguments that yield a transport are its own spellings, or absent encryption and codec for the defaults. */
  lemma ParseTransportExact(args: TransportArgs, t: Transport)
    requires ParseTransport(args) == Ok(t)
    ensures args.protocol == Some(ProtocolName(t.protocol))
    ensures args.encryption == Some(EncryptionName(t.encryption)) || (args.encryption == None && t.encryption == NoEncryption)
    ensures args.codec == Some(CodecName(t.codec)) || (args.codec == None && t.codec == PCM)
  {
  }
}
