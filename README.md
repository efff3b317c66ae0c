# anysocket in Dafny

A model of the `anysocket` Rust crate: one API over two stream-socket transports.
One is TCP (`std::net`). The other is Unix-domain sockets (`std::os::unix::net`).
The crate has three tagged unions, `AbstractAddr`, `AbstractListener` and
`AbstractStream`, each with an IP/TCP variant and a Unix variant. It also has the
resolver trait `AbstractToSocketAddrs`, whose `bind_any` and `connect_any` pick a
transport from an address.

The only decision the crate makes is which std primitive a resolver impl calls,
and with what argument:

- A text (`str` or `&str`) that starts with exactly `"unix:"` goes to the Unix
  transport. Its path is the text after those 5 bytes, unchanged. This holds only
  in a build with `#[cfg(unix)]`. Any other text goes unchanged to TCP.
- An IP socket address and a `(&str, u16)` pair always go to TCP. A `Path` always
  goes to Unix. None of them is checked for the prefix.
- A Unix socket address is never bound: the crate itself returns `AlreadyExists`.
  A connect goes to its path. If it has no path, the crate returns `NotFound`.
- `AbstractAddr` dispatches again on its own variant.

Everything else forwards to std and maps the handle into the variant of its own
transport.

Files:

- `rust_str.dfy` (module `RustStr`): the Rust `str` operations the dispatch uses,
  over bytes. A `str` is well-formed UTF-8, by the syntax in section 4 of
  RFC 3629. The module has `starts_with`, `is_char_boundary` and the slice
  `&s[i..]`. Its lemmas show why `&self["unix:".len()..]` cannot panic and still
  gives a `str`.
- `std_net.dfy` (module `StdNet`): the std types the crate uses (`SocketAddr`,
  `UnixSocketAddr` with `as_pathname`, `io::Error`, `io::Result`, the four socket
  handles). It also has `Os`, a record with one function per std primitive the
  crate calls.
- `anysocket.dfy` (module `AnySocket`): the crate. Each resolver impl is a
  function that returns a `BindCall` or `ConnectCall`: the primitive it calls and
  its argument, or the crate's own error. `PerformBind` and `PerformConnect` run
  that call against an `Os`. So `x.bind_any()` is `PerformBind(os, XBindCall(x))`.
- `properties.dfy` (module `AnySocketProperties`): lemmas that relate several
  operations, or that hold for every `Os`.

The operating system is a parameter. Every property holds for every behaviour of
the primitives. "The crate calls no primitive" is stated as "the result is the same
for any two `Os` values". `#[cfg(unix)]` is `Platform(unix: bool)`: the textual
impls look at it, and `AddrBuilt`, `ListenerBuilt` and `StreamBuilt` say which
values exist in a build.

Two behaviours of the code are worth stating exactly:

- `bind_any` on a `UnixSocketAddr` is refused for every address, pathname ones
  included (src/lib.rs:42-47).
- `connect_any` on a `UnixSocketAddr` is refused whenever `as_pathname()` is
  `None`, which on Linux covers abstract-namespace addresses as well as unnamed
  ones (src/lib.rs:49-58).

## Model

| member | source | states |
|---|---|---|
| `RustStr.StartsWith` | src/lib.rs:64 | `starts_with` compares bytes: it holds exactly when the needle is no longer than the text and each of its bytes equals the text's byte at the same index |
| `RustStr.IsCharBoundary` | src/lib.rs:65 | the condition under which `&s[i..]` does not panic: `i` is at most the length and is 0, the length, or the index of a byte that is not a continuation byte |
| `StdNet.AsPathname` | src/lib.rs:50 | `as_pathname` gives a path exactly for a pathname address, and that path is the address's own |
| `StdNet.MapOk` | src/lib.rs:22 | `Result::map` keeps success and failure: a success is transformed by the function, an error passes unchanged |
| `RustStr.SliceFrom` | src/lib.rs:65 | `&s[i..]` at a character boundary keeps exactly the bytes from index `i` on and is again a `str` |
| `RustStr.SuffixAtBoundary` | src/lib.rs:65 | cutting well-formed UTF-8 at a character boundary leaves well-formed UTF-8 |
| `RustStr.AsciiPrefixSuffix` | src/lib.rs:64-65 | removing an ASCII prefix from well-formed UTF-8 leaves well-formed UTF-8 |
| `RustStr.AsciiPrefixBoundary` | src/lib.rs:64-65 | the end of an ASCII prefix of a `str` is a character boundary, so the slice after `"unix:"` cannot panic |
| `RustStr.AsciiConcat` | src/lib.rs:64 | an ASCII prefix followed by a `str` is a `str`, so every path text can be written as a `"unix:"` address |
| `RustStr.ValidStartsWithLead` | src/lib.rs:65 | a non-empty `str` never starts with a UTF-8 continuation byte |
| `AnySocket.StripUnixPrefix` | src/lib.rs:65 | for a text that starts with `"unix:"`, exactly 5 bytes are removed and prefix plus remainder is the original text |
| `AnySocket.StrBindCall` | src/lib.rs:62-68 | Unix bind if and only if Unix is built in and the text starts with `"unix:"`; the path is then the text minus the prefix; otherwise a TCP bind of the whole text |
| `AnySocket.StrConnectCall` | src/lib.rs:69-75 | the same dispatch for connect |
| `AnySocket.RefStrBindCall` | src/lib.rs:79-85 | the same dispatch for `&str` bind |
| `AnySocket.RefStrConnectCall` | src/lib.rs:86-92 | the same dispatch for `&str` connect |
| `AnySocket.IpBindCall` | src/lib.rs:21-23 | an IP socket address is bound over TCP, as given |
| `AnySocket.IpConnectCall` | src/lib.rs:25-27 | an IP socket address is connected over TCP, as given |
| `AnySocket.HostPortBindCall` | src/lib.rs:31-33 | a host-and-port pair is bound over TCP with host text and port unchanged |
| `AnySocket.HostPortConnectCall` | src/lib.rs:35-37 | a host-and-port pair is connected over TCP with host text and port unchanged |
| `AnySocket.PathBindCall` | src/lib.rs:96-98 | a path is bound over Unix, as given |
| `AnySocket.PathConnectCall` | src/lib.rs:99-101 | a path is connected over Unix, as given |
| `AnySocket.UnixAddrBindCall` | src/lib.rs:42-47 | binding a Unix socket address always fails with kind `AlreadyExists` |
| `AnySocket.UnixAddrConnectCall` | src/lib.rs:49-58 | connect to the address's path when it has one; otherwise fail with kind `NotFound`; never TCP |
| `AnySocket.AddrBindCall` | src/lib.rs:106-112 | `Ip` binds that address over TCP; `Unix` always fails with `AlreadyExists` |
| `AnySocket.AddrConnectCall` | src/lib.rs:113-119 | `Ip` connects over TCP; `Unix` connects to its path, or fails with `NotFound` when it has none |
| `AnySocket.PerformBind` | src/lib.rs:134-145 | a successful bind yields the listener variant of the transport that was called, wrapping the primitive's handle; a primitive's error is returned unchanged; the crate's own error is returned as is |
| `AnySocket.PerformConnect` | src/lib.rs:200-210 | the same for connect and the stream variants |
| `AnySocket.Port` | src/lib.rs:158-165 | a port exactly for `Ip` addresses, and it is that address's port; none for every Unix address |
| `AnySocket.LocalAddr` | src/lib.rs:339-345 | the address has the listener's transport; success and error are forwarded from that transport's primitive |
| `AnySocket.Accept` | src/lib.rs:347-357 | a TCP listener yields a TCP stream and an IP address; a Unix listener yields a Unix stream and a Unix address; errors are forwarded |
| `AnySocket.TryClone` | src/lib.rs:220-226 | the clone has the input stream's transport; errors are forwarded |
| `AnySocket.PeerAddr` | src/lib.rs:227-233 | the peer address has the stream's transport; errors are forwarded |
| `AnySocketProperties.UnixPrefixSpellsUnix` | src/lib.rs:64 | the prefix constant holds the bytes of `"unix:"` |
| `AnySocketProperties.UnixPrefixDispatch` | src/lib.rs:61-93 | with Unix built in, `"unix:" + rest` is bound and connected over Unix with path `rest` verbatim, by both string impls |
| `AnySocketProperties.UnixAddressRoundTrip` | src/lib.rs:62-75 | with Unix built in, for every `str` path, `"unix:" + path` is a `str` and dispatching it gives back exactly `path` |
| `AnySocketProperties.TcpFallback` | src/lib.rs:61-93 | a text without the prefix, or any text in a build without Unix, goes unmodified to the TCP primitive |
| `AnySocketProperties.StrImplsAgree` | src/lib.rs:61-93 | the `str` and `&str` impls make the same call for every text |
| `AnySocketProperties.CaseSensitiveExample` | src/lib.rs:64 | `"Unix:x"` binds and connects over TCP: the check is case-sensitive |
| `AnySocketProperties.AnchoredExample` | src/lib.rs:64 | `"a unix:x"` binds and connects over TCP: the prefix is matched only at the start |
| `AnySocketProperties.EmptyPathExample` | src/lib.rs:64-65 | with Unix built in, `"unix:"` alone binds, and connects to, the empty path |
| `AnySocketProperties.RepeatedPrefixKept` | src/lib.rs:64-65 | with Unix built in, only the first `"unix:"` is removed: `"unix:unix:" + rest` binds and connects the path `"unix:" + rest` |
| `AnySocketProperties.Parse1Dispatch` | src/lib.rs:363-366 | `"unix:abc"` binds TCP host text `"unix:abc"` without Unix, and the path `"abc"` with Unix |
| `AnySocketProperties.StructuralInputsSkipPrefix` | src/lib.rs:20-38 | IP addresses and host-port pairs always go to TCP unchanged; a host text starting with `"unix:"` goes to TCP whole, although the same text on its own would go to Unix |
| `AnySocketProperties.PathSkipsPrefix` | src/lib.rs:95-103 | a `Path` starting with `"unix:"`, including `"unix:"` itself, goes to Unix unchanged, while the same bytes as a text lose the prefix, so the two calls differ |
| `AnySocketProperties.UnixAddrBindNeverBinds` | src/lib.rs:105-112 | binding a Unix address, directly or as `AbstractAddr::Unix`, is `AlreadyExists`, and the result is the same for any two `Os` values |
| `AnySocketProperties.UnixAddrConnectOutcome` | src/lib.rs:49-58 | a pathname address connects to exactly that path; one without a path is `NotFound` for every `Os`; `AbstractAddr::Unix` behaves as the `UnixSocketAddr` impl |
| `AnySocketProperties.AcceptedPeerPort` | src/lib.rs:347-357 | an accepted peer address has a port exactly when the listener is TCP, and it is the port the primitive reported |
| `AnySocketProperties.LocalAddrPort` | src/lib.rs:339-345 | a listener's local address has a port exactly when the listener is TCP |
| `AnySocketProperties.BuildIsClosed` | src/lib.rs:128-132 | in a build without Unix, none of `local_addr`, `accept`, `try_clone`, `peer_addr`, or `bind_any` / `connect_any` on a text, an `AbstractAddr`, an IP address or a host-port pair, yields a Unix variant from a value of that build |

## Left out

- Socket semantics: binding, connecting, accepting and address queries are std and OS calls, so they are the uninterpreted fields of `Os`. One `Os` value stands for the operating system at one moment: the same call on the same `Os` gives the same result, whereas a real second bind of the same path fails. No property relates two calls, and OS state (a bound path, a pending connection) is not tracked.
- Host-name resolution: how `TcpListener::bind` and `TcpStream::connect` read a `host:port` text, a host-port pair or a socket address belongs to std's `ToSocketAddrs`. `SocketTarget` records only which form was passed.
- `Read` and `Write` for `AbstractStream` (src/lib.rs:256-332) and the two `AsRef<dyn Read/Write>` impls (src/lib.rs:236-254): they only forward to the matching std stream and make no decision of their own.
- `AbstractStream::shutdown` (src/lib.rs:213-219): it only forwards to the matching std stream, and its result is not mapped into a variant.
- `Display` for `AbstractAddr` (src/lib.rs:168-176): it uses std's formatting and the `Debug` form of a Unix address, and neither has a fixed format.
- `try_clone`: the duplicated OS handle and concurrent use of the clones are not modelled. Neither is the blocking of `accept`.
- `#[cfg(unix)]`: items that only exist in Unix builds (the `Unix` variants, the `UnixSocketAddr` and `Path` impls) are always present in the model. The `Built` predicates say which values a build can hold. Only the textual impls read the `Platform` flag, because only there does the cfg change what is called.
- `.map(Into::into)` from `AbstractListener` or `AbstractStream` to itself (src/lib.rs:108-117) is the identity, so it is not written out.
- `std::io::ErrorKind` keeps only `NotFound`, `AlreadyExists` and `Other`. An OS error is an opaque code.
- `std::net::SocketAddr` stores an IPv4 address as a 32-bit number, not as four octets, because the crate never looks at it.
- The outcome of the `parse1` test depends on the filesystem and the resolver. `Parse1Dispatch` states only which call it makes.
