/** The standard-library types the crate builds on, as far as the crate looks
    at them, and the operating-system primitives it forwards to. The primitives
    (`TcpListener::bind`, `UnixStream::connect`, `accept`, ...) are std's, not the
    crate's: here they are the function-valued fields of an `Os` record, so that
    every property of the crate is proved for every possible behaviour of them.
    Each primitive yields either an error or a handle of its own transport, which
    the types enforce. */
module StdNet {
  import opened RustStr

  newtype u16 = x: int | 0 <= x < 0x1_0000
  newtype u32 = x: int | 0 <= x < 0x1_0000_0000
  newtype u128 = x: int | 0 <= x < 0x1_0000_0000_0000_0000_0000_0000_0000_0000

  datatype Option<T> = None | Some(value: T)

  /** `std::io::ErrorKind`, reduced to the kinds the crate raises itself. */
  datatype ErrorKind = NotFound | AlreadyExists | Other

  /** `std::io::Error`: one reported by the operating system, or one built with
      `Error::new(kind, message)`. */
  datatype IoError = OsError(code: int) | Custom(kind: ErrorKind, message: string)

  /** `std::io::Result<T>`. */
  datatype Result<T> = Ok(value: T) | Err(error: IoError)

  /** `Result::map`: a success is transformed, an error passes unchanged. */
  function MapOk<T, U>(r: Result<T>, f: T -> U): (m: Result<U>)
    ensures m.Ok? <==> r.Ok?
    ensures r.Ok? ==> m.value == f(r.value)
    ensures r.Err? ==> m == Err(r.error)
  {
    match r
    case Ok(v) => Ok(f(v))
    case Err(e) => Err(e)
  }

  /** `std::net::SocketAddr`. */
  datatype IpSocketAddr =
    | V4(ipv4: u32, port: u16)
    | V6(ipv6: u128, port: u16, flowinfo: u32, scopeId: u32)

  /** `std::path::Path` on a Unix build: an uninterpreted byte string. */
  type Path = seq<byte>

  /** The bytes of a `str` seen as a `Path` (`impl AsRef<Path> for str`). */
  function PathOf(s: Str): Path {
    s
  }

  /** `std::os::unix::net::SocketAddr`: a filesystem path, an unnamed socket, or
      (on Linux) a name in the abstract namespace. */
  datatype UnixSocketAddr = Pathname(path: Path) | Unnamed | AbstractName(name: seq<byte>)

  /** `UnixSocketAddr::as_pathname`: the path of a pathname address, and none for
      unnamed and abstract addresses. */
  function AsPathname(a: UnixSocketAddr): (r: Option<Path>)
    ensures r.Some? <==> a.Pathname?
    ensures r.Some? ==> r.value == a.path
  {
    match a
    case Pathname(p) => Some(p)
    case _ => None
  }

  /** What `TcpListener::bind` and `TcpStream::connect` accept (`ToSocketAddrs`):
      a structured address, a host-and-port pair, or a `host:port` text. How they
      are resolved is std's. */
  datatype SocketTarget = SockAddr(addr: IpSocketAddr) | HostPort(host: Str, port: u16) | Text(text: Str)

  /** Handles of the four std socket types, by their file descriptor. */
  datatype TcpListener = TcpListener(fd: int)
  datatype TcpStream = TcpStream(fd: int)
  datatype UnixListener = UnixListener(fd: int)
  datatype UnixStream = UnixStream(fd: int)

  /** The std primitives the crate forwards to, one field per call. */
  datatype Os = Os(
    tcpBind: SocketTarget -> Result<TcpListener>,
    tcpConnect: SocketTarget -> Result<TcpStream>,
    unixBind: Path -> Result<UnixListener>,
    unixConnect: Path -> Result<UnixStream>,
    tcpListenerLocalAddr: TcpListener -> Result<IpSocketAddr>,
    unixListenerLocalAddr: UnixListener -> Result<UnixSocketAddr>,
    tcpAccept: TcpListener -> Result<(TcpStream, IpSocketAddr)>,
    unixAccept: UnixListener -> Result<(UnixStream, UnixSocketAddr)>,
    tcpTryClone: TcpStream -> Result<TcpStream>,
    unixTryClone: UnixStream -> Result<UnixStream>,
    tcpPeerAddr: TcpStream -> Result<IpSocketAddr>,
    unixPeerAddr: UnixStream -> Result<UnixSocketAddr>
  )
}
