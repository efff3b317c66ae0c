/** The crate: three tagged unions over the IP and the Unix-domain transport,
    and the resolver (`bind_any` / `connect_any`) that decides from an address,
    structured or textual, which transport to use and with what argument.

    A resolver impl is modelled by the call it makes: `XBindCall` and
    `XConnectCall` say which std primitive would be called with what argument,
    or which error the crate raises itself without calling anything.
    `PerformBind` and `PerformConnect` then run a call against the primitives
    of an `Os` and wrap the handle through `Into`, so `x.bind_any()` is
    `PerformBind(os, XBindCall(x))`. */
module AnySocket {
  import opened RustStr
  import opened StdNet

  /** The build configuration: `unix` says whether `#[cfg(unix)]` items are
      compiled in. */
  datatype Platform = Platform(unix: bool)

  /** `AbstractAddr`. */
  datatype AbstractAddr = Ip(ipAddr: IpSocketAddr) | Unix(unixAddr: UnixSocketAddr)

  /** `AbstractListener`. */
  datatype AbstractListener = Tcp(tcpListener: TcpListener) | Unix(unixListener: UnixListener)

  /** `AbstractStream`. */
  datatype AbstractStream = Tcp(tcpStream: TcpStream) | Unix(unixStream: UnixStream)

  /** The `Unix` variants exist only in builds with `#[cfg(unix)]`. */
  predicate AddrBuilt(p: Platform, a: AbstractAddr) {
    a.Unix? ==> p.unix
  }

  predicate ListenerBuilt(p: Platform, l: AbstractListener) {
    l.Unix? ==> p.unix
  }

  predicate StreamBuilt(p: Platform, s: AbstractStream) {
    s.Unix? ==> p.unix
  }

  /** What a `bind_any` does: call `TcpListener::bind`, call
      `UnixListener::bind`, or fail without calling anything. */
  datatype BindCall =
    | TcpListenerBind(target: SocketTarget)
    | UnixListenerBind(path: Path)
    | BindFails(error: IoError)

  /** What a `connect_any` does: call `TcpStream::connect`, call
      `UnixStream::connect`, or fail without calling anything. */
  datatype ConnectCall =
    | TcpStreamConnect(target: SocketTarget)
    | UnixStreamConnect(path: Path)
    | ConnectFails(error: IoError)

  /** The bytes of `"unix:"`. */
  const UnixPrefix: seq<byte> := [0x75, 0x6E, 0x69, 0x78, 0x3A]

  /** The error `bind_any` raises for a `UnixSocketAddr`. */
  const CannotBindExisting: IoError := Custom(AlreadyExists, "cannot bind to an existing address")

  /** The error `connect_any` raises for a `UnixSocketAddr` without a path. */
  const CannotConnectUnnamed: IoError := Custom(NotFound, "cannot connect to unnamed address")

  /** `&self["unix:".len()..]` on a string that starts with `"unix:"`: the
      prefix is ASCII, so its end is a character boundary and the slice cannot
      panic; exactly the prefix is removed. */
  function StripUnixPrefix(s: Str): (rest: Str)
    requires StartsWith(s, UnixPrefix)
    ensures |rest| == |s| - 5
    ensures UnixPrefix + rest == s
  {
    AsciiPrefixBoundary(UnixPrefix, s);
    SliceFrom(s, |UnixPrefix|)
  }

  // ----- impl AbstractToSocketAddrs for IpSocketAddr -----

  /** An IP socket address is bound over TCP, as given. */
  function IpBindCall(a: IpSocketAddr): (c: BindCall)
    ensures c.TcpListenerBind? && c.target.SockAddr? && c.target.addr == a
  {
    TcpListenerBind(SockAddr(a))
  }

  /** An IP socket address is connected over TCP, as given. */
  function IpConnectCall(a: IpSocketAddr): (c: ConnectCall)
    ensures c.TcpStreamConnect? && c.target.SockAddr? && c.target.addr == a
  {
    TcpStreamConnect(SockAddr(a))
  }

  // ----- impl AbstractToSocketAddrs for (&str, u16) -----

  /** A host-and-port pair is bound over TCP with host text and port as given;
      the host text is not looked at. */
  function HostPortBindCall(host: Str, port: u16): (c: BindCall)
    ensures c.TcpListenerBind? && c.target.HostPort? && c.target.host == host && c.target.port == port
  {
    TcpListenerBind(HostPort(host, port))
  }

  /** A host-and-port pair is connected over TCP with host text and port as
      given. */
  function HostPortConnectCall(host: Str, port: u16): (c: ConnectCall)
    ensures c.TcpStreamConnect? && c.target.HostPort? && c.target.host == host && c.target.port == port
  {
    TcpStreamConnect(HostPort(host, port))
  }

  // ----- impl AbstractToSocketAddrs for UnixSocketAddr (unix builds) -----

  /** A Unix socket address names an existing endpoint: binding to it is
      refused by the crate itself. */
  function UnixAddrBindCall(a: UnixSocketAddr): (c: BindCall)
    ensures c.BindFails? && c.error.Custom? && c.error.kind == AlreadyExists
  {
    BindFails(CannotBindExisting)
  }

  /** Connecting goes to the address's path; an address without one (unnamed,
      or in the abstract namespace) is refused by the crate itself. */
  function UnixAddrConnectCall(a: UnixSocketAddr): (c: ConnectCall)
    ensures a.Pathname? ==> c == UnixStreamConnect(a.path)
    ensures !a.Pathname? ==> c.ConnectFails? && c.error.Custom? && c.error.kind == NotFound
    ensures !c.TcpStreamConnect?
  {
    match AsPathname(a)
    case Some(p) => UnixStreamConnect(p)
    case None => ConnectFails(CannotConnectUnnamed)
  }

  // ----- impl AbstractToSocketAddrs for str -----

  /** A text goes to the Unix transport exactly when Unix is built in and the
      text starts with `"unix:"`; the path is the rest after those 5 bytes,
      verbatim. Any other text goes unchanged to `TcpListener::bind`. */
  function StrBindCall(p: Platform, s: Str): (c: BindCall)
    ensures c.UnixListenerBind? <==> p.unix && StartsWith(s, UnixPrefix)
    ensures c.UnixListenerBind? ==> UnixPrefix + c.path == s
    ensures !c.UnixListenerBind? ==> c == TcpListenerBind(Text(s))
  {
    if p.unix && StartsWith(s, UnixPrefix) then
      UnixListenerBind(PathOf(StripUnixPrefix(s)))
    else
      TcpListenerBind(Text(s))
  }

  function StrConnectCall(p: Platform, s: Str): (c: ConnectCall)
    ensures c.UnixStreamConnect? <==> p.unix && StartsWith(s, UnixPrefix)
    ensures c.UnixStreamConnect? ==> UnixPrefix + c.path == s
    ensures !c.UnixStreamConnect? ==> c == TcpStreamConnect(Text(s))
  {
    if p.unix && StartsWith(s, UnixPrefix) then
      UnixStreamConnect(PathOf(StripUnixPrefix(s)))
    else
      TcpStreamConnect(Text(s))
  }

  // ----- impl AbstractToSocketAddrs for &str (written out again in the crate) -----

  function RefStrBindCall(p: Platform, s: Str): (c: BindCall)
    ensures c.UnixListenerBind? <==> p.unix && StartsWith(s, UnixPrefix)
    ensures c.UnixListenerBind? ==> UnixPrefix + c.path == s
    ensures !c.UnixListenerBind? ==> c == TcpListenerBind(Text(s))
  {
    if p.unix && StartsWith(s, UnixPrefix) then
      UnixListenerBind(PathOf(StripUnixPrefix(s)))
    else
      TcpListenerBind(Text(s))
  }

  function RefStrConnectCall(p: Platform, s: Str): (c: ConnectCall)
    ensures c.UnixStreamConnect? <==> p.unix && StartsWith(s, UnixPrefix)
    ensures c.UnixStreamConnect? ==> UnixPrefix + c.path == s
    ensures !c.UnixStreamConnect? ==> c == TcpStreamConnect(Text(s))
  {
    if p.unix && StartsWith(s, UnixPrefix) then
      UnixStreamConnect(PathOf(StripUnixPrefix(s)))
    else
      TcpStreamConnect(Text(s))
  }

  // ----- impl AbstractToSocketAddrs for dyn AsRef<Path> (unix builds) -----

  /** A path is bound over Unix, as given: no prefix is looked for or removed. */
  function PathBindCall(path: Path): (c: BindCall)
    ensures c.UnixListenerBind? && c.path == path
  {
    UnixListenerBind(path)
  }

  /** A path is connected over Unix, as given. */
  function PathConnectCall(path: Path): (c: ConnectCall)
    ensures c.UnixStreamConnect? && c.path == path
  {
    UnixStreamConnect(path)
  }

  // ----- impl AbstractToSocketAddrs for AbstractAddr -----

  /** Re-dispatch on the variant (the final `.map(Into::into)` is the identity
      on `AbstractListener`). */
  function AddrBindCall(a: AbstractAddr): (c: BindCall)
    ensures a.Ip? ==> c == TcpListenerBind(SockAddr(a.ipAddr))
    ensures a.Unix? ==> c == BindFails(CannotBindExisting)
  {
    match a
    case Ip(x) => IpBindCall(x)
    case Unix(u) => UnixAddrBindCall(u)
  }

  function AddrConnectCall(a: AbstractAddr): (c: ConnectCall)
    ensures a.Ip? ==> c == TcpStreamConnect(SockAddr(a.ipAddr))
    ensures a.Unix? && a.unixAddr.Pathname? ==> c == UnixStreamConnect(a.unixAddr.path)
    ensures a.Unix? && !a.unixAddr.Pathname? ==> c == ConnectFails(CannotConnectUnnamed)
  {
    match a
    case Ip(x) => IpConnectCall(x)
    case Unix(u) => UnixAddrConnectCall(u)
  }

  // ----- running a call -----

  /** `r` is what `call.map(wrap)` gives: the success wrapped, or the error of
      the call unchanged. */
  predicate Forwards<T, U(==)>(call: Result<T>, r: Result<U>, wrap: T -> U) {
    match call
    case Ok(v) => r == Ok(wrap(v))
    case Err(e) => r == Err(e)
  }

  /** The result of a bind: the listener of the transport that was called,
      wrapping the handle the primitive returned (`Into<AbstractListener>`), or
      the primitive's error unchanged, or the crate's own error. */
  function PerformBind(os: Os, c: BindCall): (r: Result<AbstractListener>)
    ensures r.Ok? ==> (r.value.Tcp? <==> c.TcpListenerBind?) && (r.value.Unix? <==> c.UnixListenerBind?)
    ensures c.TcpListenerBind? ==> Forwards(os.tcpBind(c.target), r, (h: TcpListener) => AbstractListener.Tcp(h))
    ensures c.UnixListenerBind? ==> Forwards(os.unixBind(c.path), r, (h: UnixListener) => AbstractListener.Unix(h))
    ensures c.BindFails? ==> r == Err(c.error)
  {
    match c
    case TcpListenerBind(t) => MapOk(os.tcpBind(t), (h: TcpListener) => AbstractListener.Tcp(h))
    case UnixListenerBind(path) => MapOk(os.unixBind(path), (h: UnixListener) => AbstractListener.Unix(h))
    case BindFails(e) => Err(e)
  }

  /** The result of a connect, in the same way (`Into<AbstractStream>`). */
  function PerformConnect(os: Os, c: ConnectCall): (r: Result<AbstractStream>)
    ensures r.Ok? ==> (r.value.Tcp? <==> c.TcpStreamConnect?) && (r.value.Unix? <==> c.UnixStreamConnect?)
    ensures c.TcpStreamConnect? ==> Forwards(os.tcpConnect(c.target), r, (h: TcpStream) => AbstractStream.Tcp(h))
    ensures c.UnixStreamConnect? ==> Forwards(os.unixConnect(c.path), r, (h: UnixStream) => AbstractStream.Unix(h))
    ensures c.ConnectFails? ==> r == Err(c.error)
  {
    match c
    case TcpStreamConnect(t) => MapOk(os.tcpConnect(t), (h: TcpStream) => AbstractStream.Tcp(h))
    case UnixStreamConnect(path) => MapOk(os.unixConnect(path), (h: UnixStream) => AbstractStream.Unix(h))
    case ConnectFails(e) => Err(e)
  }

  // ----- AbstractAddr -----

  /** `AbstractAddr::port`: a port for every IP address, none for every Unix
      address. */
  function Port(a: AbstractAddr): (r: Option<u16>)
    ensures r.Some? <==> a.Ip?
    ensures a.Ip? ==> r.value == a.ipAddr.port
  {
    match a
    case Ip(x) => Some(x.port)
    case Unix(_) => None
  }

  // ----- AbstractListener -----

  /** `AbstractListener::local_addr`: an address of the listener's own
      transport, or the primitive's error. */
  function LocalAddr(os: Os, l: AbstractListener): (r: Result<AbstractAddr>)
    ensures r.Ok? ==> (r.value.Ip? <==> l.Tcp?)
    ensures l.Tcp? ==> Forwards(os.tcpListenerLocalAddr(l.tcpListener), r, (a: IpSocketAddr) => AbstractAddr.Ip(a))
    ensures l.Unix? ==> Forwards(os.unixListenerLocalAddr(l.unixListener), r, (a: UnixSocketAddr) => AbstractAddr.Unix(a))
  {
    match l
    case Tcp(h) => MapOk(os.tcpListenerLocalAddr(h), (a: IpSocketAddr) => AbstractAddr.Ip(a))
    case Unix(h) => MapOk(os.unixListenerLocalAddr(h), (a: UnixSocketAddr) => AbstractAddr.Unix(a))
  }

  /** `AbstractListener::accept`: a stream and a peer address, both of the
      listener's own transport, or the primitive's error. */
  function Accept(os: Os, l: AbstractListener): (r: Result<(AbstractStream, AbstractAddr)>)
    ensures r.Ok? ==> (r.value.0.Tcp? <==> l.Tcp?) && (r.value.1.Ip? <==> l.Tcp?)
    ensures l.Tcp? ==> Forwards(os.tcpAccept(l.tcpListener), r,
      (p: (TcpStream, IpSocketAddr)) => (AbstractStream.Tcp(p.0), AbstractAddr.Ip(p.1)))
    ensures l.Unix? ==> Forwards(os.unixAccept(l.unixListener), r,
      (p: (UnixStream, UnixSocketAddr)) => (AbstractStream.Unix(p.0), AbstractAddr.Unix(p.1)))
  {
    match l
    case Tcp(h) =>
      MapOk(os.tcpAccept(h), (p: (TcpStream, IpSocketAddr)) => (AbstractStream.Tcp(p.0), AbstractAddr.Ip(p.1)))
    case Unix(h) =>
      MapOk(os.unixAccept(h), (p: (UnixStream, UnixSocketAddr)) => (AbstractStream.Unix(p.0), AbstractAddr.Unix(p.1)))
  }

  // ----- AbstractStream -----

  /** `AbstractStream::try_clone`: a stream of the same transport, or the
      primitive's error. */
  function TryClone(os: Os, s: AbstractStream): (r: Result<AbstractStream>)
    ensures r.Ok? ==> (r.value.Tcp? <==> s.Tcp?)
    ensures s.Tcp? ==> Forwards(os.tcpTryClone(s.tcpStream), r, (h: TcpStream) => AbstractStream.Tcp(h))
    ensures s.Unix? ==> Forwards(os.unixTryClone(s.unixStream), r, (h: UnixStream) => AbstractStream.Unix(h))
  {
    match s
    case Tcp(h) => MapOk(os.tcpTryClone(h), (h': TcpStream) => AbstractStream.Tcp(h'))
    case Unix(h) => MapOk(os.unixTryClone(h), (h': UnixStream) => AbstractStream.Unix(h'))
  }

  /** `AbstractStream::peer_addr`: an address of the stream's transport, or the
      primitive's error. */
  function PeerAddr(os: Os, s: AbstractStream): (r: Result<AbstractAddr>)
    ensures r.Ok? ==> (r.value.Ip? <==> s.Tcp?)
    ensures s.Tcp? ==> Forwards(os.tcpPeerAddr(s.tcpStream), r, (a: IpSocketAddr) => AbstractAddr.Ip(a))
    ensures s.Unix? ==> Forwards(os.unixPeerAddr(s.unixStream), r, (a: UnixSocketAddr) => AbstractAddr.Unix(a))
  {
    match s
    case Tcp(h) => MapOk(os.tcpPeerAddr(h), (a: IpSocketAddr) => AbstractAddr.Ip(a))
    case Unix(h) => MapOk(os.unixPeerAddr(h), (a: UnixSocketAddr) => AbstractAddr.Unix(a))
  }
}
