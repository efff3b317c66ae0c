/** Properties of the crate that relate several of its operations, or that hold
    for every behaviour of the operating-system primitives. */
module AnySocketProperties {
  import opened RustStr
  import opened StdNet
  import opened AnySocket

  /** The prefix constant is the text `"unix:"`. */
  lemma UnixPrefixSpellsUnix()
    ensures UnixPrefix == Ascii("unix:")
  {
  }

  // ----- textual dispatch -----

  /** With Unix built in, `"unix:" + rest` is bound and connected over the Unix
      transport with `rest` verbatim as the path, whatever `rest` contains
      (further colons, slashes, another `"unix:"`), by both string impls. */
  lemma UnixPrefixDispatch(p: Platform, s: Str, rest: seq<byte>)
    requires p.unix && s == UnixPrefix + rest
    ensures StrBindCall(p, s) == UnixListenerBind(rest)
    ensures StrConnectCall(p, s) == UnixStreamConnect(rest)
    ensures RefStrBindCall(p, s) == UnixListenerBind(rest)
    ensures RefStrConnectCall(p, s) == UnixStreamConnect(rest)
  {
  }

  /** Every `str` path can be written as a textual address: `"unix:" + rest` is
      again a `str`, and dispatching it gives back exactly `rest`. */
  lemma {:induction false} UnixAddressRoundTrip(p: Platform, rest: Str)
    requires p.unix
    ensures ValidUtf8(UnixPrefix + rest)
    ensures StrBindCall(p, UnixPrefix + rest) == UnixListenerBind(rest)
    ensures StrConnectCall(p, UnixPrefix + rest) == UnixStreamConnect(rest)
  {
    AsciiConcat(UnixPrefix, rest);
    UnixPrefixDispatch(p, UnixPrefix + rest, rest);
  }

  /** A text that does not start with `"unix:"`, or any text in a build without
      Unix, goes unmodified to the TCP primitive, by both string impls. */
  lemma TcpFallback(p: Platform, s: Str)
    requires !p.unix || !StartsWith(s, UnixPrefix)
    ensures StrBindCall(p, s) == TcpListenerBind(Text(s)) == RefStrBindCall(p, s)
    ensures StrConnectCall(p, s) == TcpStreamConnect(Text(s)) == RefStrConnectCall(p, s)
  {
  }

  /** The impls for `str` and `&str` make the same call for every text. */
  lemma StrImplsAgree(p: Platform, s: Str)
    ensures StrBindCall(p, s) == RefStrBindCall(p, s)
    ensures StrConnectCall(p, s) == RefStrConnectCall(p, s)
  {
  }

  /** The prefix check is case-sensitive, for bind and connect alike. */
  lemma CaseSensitiveExample()
    ensures StrBindCall(Platform(true), Ascii("Unix:x")) == TcpListenerBind(Text(Ascii("Unix:x")))
    ensures StrConnectCall(Platform(true), Ascii("Unix:x")) == TcpStreamConnect(Text(Ascii("Unix:x")))
  {
  }

  /** The prefix is matched only at the start, for bind and connect alike. */
  lemma AnchoredExample()
    ensures StrBindCall(Platform(true), Ascii("a unix:x")) == TcpListenerBind(Text(Ascii("a unix:x")))
    ensures StrConnectCall(Platform(true), Ascii("a unix:x")) == TcpStreamConnect(Text(Ascii("a unix:x")))
  {
  }

  /** `"unix:"` alone binds, or connects to, the empty path. */
  lemma EmptyPathExample()
    ensures StrBindCall(Platform(true), Ascii("unix:")) == UnixListenerBind([])
    ensures StrConnectCall(Platform(true), Ascii("unix:")) == UnixStreamConnect([])
  {
  }

  /** The bytes of two concatenated ASCII literals are the concatenated bytes. */
  lemma AsciiAppend(a: string, b: string)
    requires forall i :: 0 <= i < |a| ==> a[i] as int < 0x80
    requires forall i :: 0 <= i < |b| ==> b[i] as int < 0x80
    ensures forall i :: 0 <= i < |a + b| ==> (a + b)[i] as int < 0x80
    ensures Ascii(a + b) == Ascii(a) + Ascii(b)
  {
    assert forall i :: 0 <= i < |a + b| ==> (a + b)[i] == if i < |a| then a[i] else b[i - |a|];
  }

  /** Only the first `"unix:"` is removed: a path that itself starts with
      `"unix:"` is passed on with that second prefix kept. */
  lemma RepeatedPrefixKept(p: Platform, s: Str, rest: seq<byte>)
    requires p.unix && s == UnixPrefix + UnixPrefix + rest
    ensures StrBindCall(p, s) == UnixListenerBind(UnixPrefix + rest)
    ensures StrConnectCall(p, s) == UnixStreamConnect(UnixPrefix + rest)
  {
  }

  /** In a build without Unix, `"unix:abc"` is handed to the TCP primitive as a
      host name; in a Unix build it binds the path `"abc"`. */
  lemma Parse1Dispatch()
    ensures StrBindCall(Platform(false), Ascii("unix:abc")) == TcpListenerBind(Text(Ascii("unix:abc")))
    ensures StrBindCall(Platform(true), Ascii("unix:abc")) == UnixListenerBind(Ascii("abc"))
  {
    // Not needed in principle; these steps keep the proof stable across
    // solver seeds.
    UnixPrefixSpellsUnix();
    AsciiAppend("unix:", "abc");
    assert "unix:abc" == "unix:" + "abc";
    UnixPrefixDispatch(Platform(true), Ascii("unix:abc"), Ascii("abc"));
  }

  // ----- structural inputs -----

  /** An IP address and a host-and-port pair always go to TCP, unchanged, and
      are never inspected for the prefix: a host text that starts with
      `"unix:"`, which as a plain text would go to Unix, still goes to TCP
      whole. */
  lemma StructuralInputsSkipPrefix(p: Platform, a: IpSocketAddr, host: Str, port: u16)
    ensures IpBindCall(a) == TcpListenerBind(SockAddr(a)) && IpConnectCall(a) == TcpStreamConnect(SockAddr(a))
    ensures HostPortBindCall(host, port) == TcpListenerBind(HostPort(host, port))
    ensures HostPortConnectCall(host, port) == TcpStreamConnect(HostPort(host, port))
    ensures p.unix && StartsWith(host, UnixPrefix) ==>
              StrBindCall(p, host).UnixListenerBind? && StrConnectCall(p, host).UnixStreamConnect?
  {
  }

  /** A `Path` always goes to Unix, unchanged, even when it starts with
      `"unix:"`: nothing is stripped, unlike for the same bytes given as a
      text, which lose their first 5 bytes. */
  lemma {:induction false} PathSkipsPrefix(p: Platform, r: Str)
    requires p.unix
    ensures ValidUtf8(UnixPrefix + r)
    ensures PathBindCall(UnixPrefix + r) == UnixListenerBind(UnixPrefix + r)
    ensures PathConnectCall(UnixPrefix + r) == UnixStreamConnect(UnixPrefix + r)
    ensures PathBindCall(UnixPrefix + r) != StrBindCall(p, UnixPrefix + r)
    ensures PathConnectCall(UnixPrefix + r) != StrConnectCall(p, UnixPrefix + r)
  {
    UnixAddressRoundTrip(p, r);
    assert |UnixPrefix + r| != |r|;
  }

  // ----- the errors the crate raises itself -----

  /** Binding a `UnixSocketAddr` fails with `AlreadyExists` whatever the
      operating system would do: two systems that differ in every primitive
      give the same result, so no primitive is called. */
  lemma UnixAddrBindNeverBinds(os1: Os, os2: Os, a: UnixSocketAddr)
    ensures PerformBind(os1, UnixAddrBindCall(a)) == Err(CannotBindExisting)
    ensures PerformBind(os1, UnixAddrBindCall(a)) == PerformBind(os2, UnixAddrBindCall(a))
    ensures PerformBind(os1, AddrBindCall(AbstractAddr.Unix(a))) == Err(CannotBindExisting)
  {
  }

  /** Connecting a `UnixSocketAddr` with a path connects to exactly that path;
      one without a path fails with `NotFound` whatever the operating system
      would do. */
  lemma UnixAddrConnectOutcome(os1: Os, os2: Os, a: UnixSocketAddr)
    ensures a.Pathname? ==> PerformConnect(os1, UnixAddrConnectCall(a)) == MapOk(os1.unixConnect(a.path), (h: UnixStream) => AbstractStream.Unix(h))
    ensures !a.Pathname? ==> PerformConnect(os1, UnixAddrConnectCall(a)) == Err(CannotConnectUnnamed)
    ensures !a.Pathname? ==> PerformConnect(os1, UnixAddrConnectCall(a)) == PerformConnect(os2, UnixAddrConnectCall(a))
    ensures PerformConnect(os1, AddrConnectCall(AbstractAddr.Unix(a))) == PerformConnect(os1, UnixAddrConnectCall(a))
  {
  }

  // ----- variants -----

  /** An accepted peer has a port exactly when the listener is TCP. */
  lemma AcceptedPeerPort(os: Os, l: AbstractListener)
    requires Accept(os, l).Ok?
    ensures Port(Accept(os, l).value.1).Some? <==> l.Tcp?
    ensures l.Tcp? ==> Port(Accept(os, l).value.1) == Some(os.tcpAccept(l.tcpListener).value.1.port)
  {
  }

  /** A local address has a port exactly when the listener is TCP. */
  lemma LocalAddrPort(os: Os, l: AbstractListener)
    requires LocalAddr(os, l).Ok?
    ensures Port(LocalAddr(os, l).value).Some? <==> l.Tcp?
  {
  }

  /** Every value a build can hold leads only to values that build can hold:
      in a build without Unix, no operation ever yields a Unix variant. */
  lemma BuildIsClosed(p: Platform, os: Os, l: AbstractListener, s: AbstractStream, a: AbstractAddr,
                      t: Str, ip: IpSocketAddr, host: Str, port: u16)
    requires ListenerBuilt(p, l) && StreamBuilt(p, s) && AddrBuilt(p, a)
    ensures LocalAddr(os, l).Ok? ==> AddrBuilt(p, LocalAddr(os, l).value)
    ensures Accept(os, l).Ok? ==> StreamBuilt(p, Accept(os, l).value.0) && AddrBuilt(p, Accept(os, l).value.1)
    ensures TryClone(os, s).Ok? ==> StreamBuilt(p, TryClone(os, s).value)
    ensures PeerAddr(os, s).Ok? ==> AddrBuilt(p, PeerAddr(os, s).value)
    ensures PerformBind(os, StrBindCall(p, t)).Ok? ==> ListenerBuilt(p, PerformBind(os, StrBindCall(p, t)).value)
    ensures PerformConnect(os, StrConnectCall(p, t)).Ok? ==> StreamBuilt(p, PerformConnect(os, StrConnectCall(p, t)).value)
    ensures PerformBind(os, RefStrBindCall(p, t)).Ok? ==> ListenerBuilt(p, PerformBind(os, RefStrBindCall(p, t)).value)
    ensures PerformConnect(os, RefStrConnectCall(p, t)).Ok? ==> StreamBuilt(p, PerformConnect(os, RefStrConnectCall(p, t)).value)
    ensures PerformBind(os, AddrBindCall(a)).Ok? ==> ListenerBuilt(p, PerformBind(os, AddrBindCall(a)).value)
    ensures PerformConnect(os, AddrConnectCall(a)).Ok? ==> StreamBuilt(p, PerformConnect(os, AddrConnectCall(a)).value)
    ensures PerformBind(os, IpBindCall(ip)).Ok? ==> PerformBind(os, IpBindCall(ip)).value.Tcp?
    ensures PerformConnect(os, IpConnectCall(ip)).Ok? ==> PerformConnect(os, IpConnectCall(ip)).value.Tcp?
    ensures PerformBind(os, HostPortBindCall(host, port)).Ok? ==> PerformBind(os, HostPortBindCall(host, port)).value.Tcp?
    ensures PerformConnect(os, HostPortConnectCall(host, port)).Ok? ==> PerformConnect(os, HostPortConnectCall(host, port)).value.Tcp?
  {
  }
}
