/** Values shared by the command-line scan and the discovery loop of the
    STUN binding-discovery client: address families, socket addresses, the
    answers of the two external collaborators (the name resolver and the
    STUN protocol engine) and the lines the program writes. */
module StunTypes {

  datatype Option<+T> = None | Some(value: T)

  /** The address-family hint: AF_UNSPEC, AF_INET or AF_INET6. */
  datatype Family = Unspec | Inet | Inet6

  /** The socket type asked of the resolver; the client always asks for
      datagram sockets. */
  datatype SockType = Stream | Dgram

  /** The `struct addrinfo` hints handed to the resolver. */
  datatype Hints = Hints(family: Family, sockType: SockType, flags: bv32)

  /** An opaque socket address: its family, raw host bytes and port. */
  datatype SockAddr = SockAddr(family: Family, host: seq<bv8>, port: nat)

  /** What `getaddrinfo` hands back: its return code (zero on success) and,
      on success, the `ai_next` list of resolved addresses, in order. */
  datatype GaiResult = GaiResult(ret: int, res: seq<SockAddr>)

  /** What `stun_usage_bind_run` hands back: a status (zero on success) and
      the mapped-address output buffer, meaningful only when the status is
      zero. */
  datatype BindReply = BindReply(status: int, mapped: SockAddr)

  /** The name resolver, as a function of host (NULL is `None`), service and
      hints. */
  type Resolver = (Option<string>, string, Hints) -> GaiResult

  /** The STUN protocol engine, as a function of the attempt number (the
      position of the candidate in the resolved list) and the server address;
      any scripted behaviour of the engine is such a function. */
  type Binder = (nat, SockAddr) -> BindReply

  /** One line written to standard output or standard error. */
  datatype Event =
    | ServerAddr(server: SockAddr)                                // "Server address: ..."
    | Mapped(mapped: SockAddr)                                    // "Mapped address: ..."
    | Diag(status: int)                                           // the engine's non-zero status
    | ResolveError(host: Option<string>, service: string, code: int) // resolver diagnostic
    | UsageText(program: string)                                  // --help banner
    | VersionText                                                 // --version banner
    | UnexpectedArgument(arg: string)                             // unknown dash argument
    | ExtraParameter(program: string, arg: string)                // third positional
}
