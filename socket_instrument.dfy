// Socket_Instrument: a text line protocol over one TCP connection, shared
// by the oscilloscope and the signal generator.
//
// The network is a script: `sendOk` lists the outcome of each coming send
// (a send past its end goes through), `replies` lists what each coming recv
// returns (past its end nothing arrives), and `reachable` lists the
// address/port pairs that accept a connection.

module SocketInstrument {
  import opened Numbers
  import opened Text

  /** Size of the buffer one recv fills (RECV_BUFLEN). */
  const RecvBufLen: nat := 256

  // ---------------------------------------------------------------------
  // Line shaping

  /** Position of the last occurrence of c in s, as string::find_last_of. */
  function LastIndexOf(s: string, c: char): (r: Option<nat>)
    ensures r.Some? ==> r.value < |s| && s[r.value] == c
    ensures r.Some? ==> forall k :: r.value < k < |s| ==> s[k] != c
    ensures r.None? ==> forall k :: 0 <= k < |s| ==> s[k] != c
  {
    if |s| == 0 then None
    else if s[|s| - 1] == c then Some(|s| - 1)
    else LastIndexOf(s[..|s| - 1], c)
  }

  /** EndsWithNewline: the last newline of the text is its last character. */
  predicate EndsWithNewline(s: string)
  {
    match LastIndexOf(s, '\n')
    case None => false
    case Some(p) => p + 1 == |s|
  }

  /** The text's last character is a newline. */
  predicate NewlineTerminated(s: string)
  {
    |s| > 0 && s[|s| - 1] == '\n'
  }

  /** EndsWithNewline holds exactly for newline-terminated text. */
  lemma EndsWithNewlineMeans(s: string)
    ensures EndsWithNewline(s) <==> NewlineTerminated(s)
  {
  }

  /** What Write puts on the wire for a command: a newline is appended
    * exactly when the command does not already end with one. */
  function Line(command: string): (r: string)
    ensures NewlineTerminated(r)
    ensures |command| <= |r| <= |command| + 1 && r[..|command|] == command
    ensures r == command <==> NewlineTerminated(command)
  {
    if NewlineTerminated(command) then command else command + "\n"
  }

  /** The lines a sequence of Write calls puts on the wire. */
  function Lines(commands: seq<string>): (r: seq<string>)
    ensures |r| == |commands|
  {
    seq(|commands|, i requires 0 <= i < |commands| => Line(commands[i]))
  }

  // ---------------------------------------------------------------------
  // Resource strings "[scheme://]a.b.c.d:port[/]"

  /** Four octets of one to three digits each. */
  datatype Quad = Quad(a: string, b: string, c: string, d: string)

  predicate Octet(o: string) { 1 <= |o| <= 3 && AllDigits(o) }
  predicate ValidQuad(q: Quad) { Octet(q.a) && Octet(q.b) && Octet(q.c) && Octet(q.d) }
  function QuadText(q: Quad): string { q.a + ("." + (q.b + ("." + (q.c + ("." + q.d))))) }
  predicate PortText(p: string) { 1 <= |p| <= 5 && AllDigits(p) }
  predicate SchemeText(s: string)
  {
    s == [] || (|s| > 3 && AllLetters(s[..|s| - 3]) && s[|s| - 3..] == "://")
  }

  /** End of "ddd." at i, when an octet and a dot stand there. */
  function OctetDot(s: string, i: nat): (r: Option<nat>)
    requires i <= |s|
    ensures r.Some? ==> i < r.value <= |s|
  {
    var n := Digits(s, i);
    if 1 <= n <= 3 && i + n < |s| && s[i + n] == '.' then Some(i + n + 1) else None
  }

  /** End of a dotted quad starting at i, when one stands there. */
  function QuadEnd(s: string, i: nat): (r: Option<nat>)
    requires i <= |s|
    ensures r.Some? ==> i < r.value <= |s|
  {
    match OctetDot(s, i)
    case None => None
    case Some(j) =>
      match OctetDot(s, j)
      case None => None
      case Some(k) =>
        match OctetDot(s, k)
        case None => None
        case Some(l) =>
          var n := Digits(s, l);
          if 1 <= n <= 3 then Some(l + n) else None
  }

  /** Where the address starts: after a leading "letters://", or at 0 when
    * the text does not start with a letter. */
  function AddressStart(s: string): (r: Option<nat>)
    ensures r.Some? ==> r.value <= |s|
  {
    if |s| > 0 && IsLetter(s[0]) then
      var n := Letters(s, 0);
      if HasAt(s, n, "://") then Some(n + 3) else None
    else Some(0)
  }

  /** Where address and port stand in a resource string: the address is
    * resource[i..e], a ':' follows, then p port digits and at most a '/'. */
  function AddrPortSpan(resource: string): (r: Option<(nat, nat, nat)>)
    ensures r.Some? ==> r.value.0 <= r.value.1 < |resource| && r.value.1 + 1 + r.value.2 <= |resource|
  {
    match AddressStart(resource)
    case None => None
    case Some(i) =>
      match QuadEnd(resource, i)
      case None => None
      case Some(e) =>
        if e < |resource| && resource[e] == ':' then
          var p := Digits(resource, e + 1);
          var end := e + 1 + p;
          if 1 <= p <= 5 && (end == |resource| || (end + 1 == |resource| && resource[end] == '/')) then
            Some((i, e, p))
          else None
        else None
  }

  /** Extract_Addr_Port: the dotted-quad address and the port of a resource
    * string, or None when it does not have that form. */
  function ExtractAddrPort(resource: string): Option<(string, string)>
  {
    var span := AddrPortSpan(resource);
    if span.None? then None
    else
      var (i, e, p) := span.value;
      Some((resource[i..e], resource[e + 1..e + 1 + p]))
  }

  /** x stands in s at position i. */
  predicate At(s: string, i: nat, x: string)
  {
    i + |x| <= |s| && forall k :: 0 <= k < |x| ==> s[i + k] == x[k]
  }

  lemma AtOfSlice(s: string, i: nat, x: string)
    requires i + |x| <= |s| && s[i..i + |x|] == x
    ensures At(s, i, x)
  {
    forall k | 0 <= k < |x|
      ensures s[i + k] == x[k]
    {
      assert s[i..i + |x|][k] == s[i + k];
    }
  }

  lemma SliceOfAt(s: string, i: nat, x: string)
    requires At(s, i, x)
    ensures s[i..i + |x|] == x
  {
    assert forall k :: 0 <= k < |x| ==> s[i..i + |x|][k] == x[k];
  }

  lemma AtSplit(s: string, i: nat, x: string, y: string)
    requires At(s, i, x + y)
    ensures At(s, i, x) && At(s, i + |x|, y)
  {
    assert forall k :: 0 <= k < |x| ==> (x + y)[k] == x[k];
    assert forall k :: 0 <= k < |y| ==> (x + y)[|x| + k] == y[k];
  }

  lemma DigitsOfAt(s: string, i: nat, x: string)
    requires At(s, i, x) && AllDigits(x)
    requires i + |x| == |s| || !IsDigit(s[i + |x|])
    ensures Digits(s, i) == |x|
  {
    assert forall k :: i <= k < i + |x| ==> s[k] == x[k - i];
    DigitsIs(s, i, |x|);
  }

  lemma LettersOfAt(s: string, i: nat, x: string)
    requires At(s, i, x) && AllLetters(x)
    requires i + |x| == |s| || !IsLetter(s[i + |x|])
    ensures Letters(s, i) == |x|
  {
    assert forall k :: i <= k < i + |x| ==> s[k] == x[k - i];
    LettersIs(s, i, |x|);
  }

  /** An octet followed by a dot stands at i. */
  lemma OctetDotOf(s: string, i: nat, o: string)
    requires At(s, i, o) && Octet(o) && i + |o| < |s| && s[i + |o|] == '.'
    ensures OctetDot(s, i) == Some(i + |o| + 1)
  {
    DigitsOfAt(s, i, o);
  }

  /** The four octets of q stand at i, separated by dots. */
  predicate QuadAt(s: string, i: nat, q: Quad)
  {
    var j := i + |q.a| + 1;
    var k := j + |q.b| + 1;
    var l := k + |q.c| + 1;
    && At(s, i, q.a) && j - 1 < |s| && s[j - 1] == '.'
    && At(s, j, q.b) && k - 1 < |s| && s[k - 1] == '.'
    && At(s, k, q.c) && l - 1 < |s| && s[l - 1] == '.'
    && At(s, l, q.d)
  }

  function QuadLength(q: Quad): nat { |q.a| + |q.b| + |q.c| + |q.d| + 3 }

  lemma QuadTextLength(q: Quad)
    ensures |QuadText(q)| == QuadLength(q)
  {
  }

  lemma OctetDotSplit(s: string, i: nat, o: string, rest: string)
    requires At(s, i, o + ("." + rest))
    ensures At(s, i, o) && i + |o| < |s| && s[i + |o|] == '.' && At(s, i + |o| + 1, rest)
  {
    AtSplit(s, i, o, "." + rest);
    AtSplit(s, i + |o|, ".", rest);
    assert s[i + |o| + 0] == "."[0];
  }

  lemma QuadAtOf(s: string, i: nat, q: Quad)
    requires At(s, i, QuadText(q))
    ensures QuadAt(s, i, q)
  {
    var j := i + |q.a| + 1;
    var k := j + |q.b| + 1;
    OctetDotSplit(s, i, q.a, q.b + ("." + (q.c + ("." + q.d))));
    OctetDotSplit(s, j, q.b, q.c + ("." + q.d));
    OctetDotSplit(s, k, q.c, q.d);
  }

  lemma QuadEndOf(s: string, i: nat, q: Quad)
    requires QuadAt(s, i, q) && ValidQuad(q)
    requires i + QuadLength(q) < |s| && s[i + QuadLength(q)] == ':'
    ensures QuadEnd(s, i) == Some(i + QuadLength(q))
  {
    var j := i + |q.a| + 1;
    var k := j + |q.b| + 1;
    var l := k + |q.c| + 1;
    OctetDotOf(s, i, q.a);
    OctetDotOf(s, j, q.b);
    OctetDotOf(s, k, q.c);
    DigitsOfAt(s, l, q.d);
  }

  lemma AddressStartOf(s: string, scheme: string)
    requires SchemeText(scheme) && At(s, 0, scheme)
    requires |scheme| < |s| && IsDigit(s[|scheme|])
    ensures AddressStart(s) == Some(|scheme|)
  {
    if scheme != [] {
      var n := |scheme| - 3;
      assert scheme == scheme[..n] + "://";
      AtSplit(s, 0, scheme[..n], "://");
      assert s[n + 0] == "://"[0];
      LettersOfAt(s, 0, scheme[..n]);
      SliceOfAt(s, n, "://");
    }
  }

  lemma AddrPortSpanFrom(s: string, i: nat, e: nat, p: nat)
    requires AddressStart(s) == Some(i) && QuadEnd(s, i) == Some(e)
    requires e < |s| && s[e] == ':' && Digits(s, e + 1) == p && 1 <= p <= 5
    requires e + 1 + p == |s| || (e + 2 + p == |s| && s[e + 1 + p] == '/')
    ensures AddrPortSpan(s) == Some((i, e, p))
  {
  }

  /** The index-level picture of a resource: scheme, quad, ':', port, and
    * at most a trailing '/'. */
  predicate ResourceAt(s: string, scheme: string, q: Quad, port: string)
  {
    var e := |scheme| + QuadLength(q);
    && At(s, 0, scheme) && QuadAt(s, |scheme|, q)
    && e < |s| && s[e] == ':' && At(s, e + 1, port)
    && (e + 1 + |port| == |s| || (e + 2 + |port| == |s| && s[e + 1 + |port|] == '/'))
  }

  lemma SpanAt(s: string, scheme: string, q: Quad, port: string)
    requires SchemeText(scheme) && ValidQuad(q) && PortText(port)
    requires ResourceAt(s, scheme, q, port)
    ensures AddrPortSpan(s) == Some((|scheme|, |scheme| + QuadLength(q), |port|))
  {
    var e := |scheme| + QuadLength(q);
    QuadSpanAt(s, scheme, q, port);
    DigitsOfAt(s, e + 1, port);
    AddrPortSpanFrom(s, |scheme|, e, |port|);
  }

  lemma QuadSpanAt(s: string, scheme: string, q: Quad, port: string)
    requires SchemeText(scheme) && ValidQuad(q)
    requires ResourceAt(s, scheme, q, port)
    ensures AddressStart(s) == Some(|scheme|)
    ensures QuadEnd(s, |scheme|) == Some(|scheme| + QuadLength(q))
  {
    assert s[|scheme|] == q.a[0];
    AddressStartOf(s, scheme);
    QuadEndOf(s, |scheme|, q);
  }

  lemma ResourceLayout(scheme: string, addr: string, port: string, tail: string)
    requires tail == [] || tail == "/"
    ensures var s := scheme + addr + ":" + port + tail;
      var e := |scheme| + |addr|;
      && At(s, 0, scheme) && At(s, |scheme|, addr)
      && e < |s| && s[e] == ':' && At(s, e + 1, port)
      && (e + 1 + |port| == |s| || (e + 2 + |port| == |s| && s[e + 1 + |port|] == '/'))
  {
    var s := scheme + addr + ":" + port + tail;
    var e := |scheme| + |addr|;
    assert s[0..|scheme|] == scheme;
    assert s[|scheme|..e] == addr;
    assert s[e + 1..e + 1 + |port|] == port;
    AtOfSlice(s, 0, scheme);
    AtOfSlice(s, |scheme|, addr);
    AtOfSlice(s, e + 1, port);
  }

  lemma ResourceOf(scheme: string, q: Quad, port: string, tail: string)
    requires tail == [] || tail == "/"
    ensures ResourceAt(scheme + QuadText(q) + ":" + port + tail, scheme, q, port)
  {
    var s := scheme + QuadText(q) + ":" + port + tail;
    ResourceLayout(scheme, QuadText(q), port, tail);
    QuadTextLength(q);
    QuadAtOf(s, |scheme|, q);
  }

  lemma ExtractAddrPortOfSpan(s: string, i: nat, e: nat, p: nat)
    requires AddrPortSpan(s) == Some((i, e, p))
    ensures ExtractAddrPort(s).Some?
    ensures ExtractAddrPort(s).value.0 == s[i..e]
    ensures ExtractAddrPort(s).value.1 == s[e + 1..e + 1 + p]
  {
  }

  /** Every resource of the documented form yields its address and port. */
  lemma ExtractAddrPortOf(scheme: string, q: Quad, port: string, tail: string)
    requires SchemeText(scheme) && ValidQuad(q) && PortText(port)
    requires tail == [] || tail == "/"
    ensures ExtractAddrPort(scheme + QuadText(q) + ":" + port + tail) == Some((QuadText(q), port))
  {
    var s := scheme + QuadText(q) + ":" + port + tail;
    ResourceOf(scheme, q, port, tail);
    ResourceLayout(scheme, QuadText(q), port, tail);
    ExtractAddrPortAt(s, scheme, q, port);
  }

  lemma ExtractAddrPortAt(s: string, scheme: string, q: Quad, port: string)
    requires SchemeText(scheme) && ValidQuad(q) && PortText(port)
    requires ResourceAt(s, scheme, q, port) && At(s, |scheme|, QuadText(q))
    ensures ExtractAddrPort(s) == Some((QuadText(q), port))
  {
    var e := |scheme| + QuadLength(q);
    SpanAt(s, scheme, q, port);
    ExtractAddrPortOfSpan(s, |scheme|, e, |port|);
    QuadTextLength(q);
    SliceOfAt(s, |scheme|, QuadText(q));
    SliceOfAt(s, e + 1, port);
    PairIs(ExtractAddrPort(s), QuadText(q), port);
  }

  lemma PairIs(r: Option<(string, string)>, a: string, b: string)
    requires r.Some? && r.value.0 == a && r.value.1 == b
    ensures r == Some((a, b))
  {
  }

  lemma DigitsSlice(s: string, i: nat)
    requires i <= |s|
    ensures AllDigits(s[i..i + Digits(s, i)])
  {
    DigitsSpec(s, i);
    var n := Digits(s, i);
    assert forall k :: i <= k < i + n ==> s[i..i + n][k - i] == s[k];
  }

  lemma OctetDotSound(s: string, i: nat)
    requires i <= |s| && OctetDot(s, i).Some?
    ensures var j := OctetDot(s, i).value; Octet(s[i..j - 1]) && s[j - 1] == '.'
  {
    DigitsSlice(s, i);
  }

  /** A piece of text is what stands before a dot followed by the rest. */
  lemma SliceAroundDot(s: string, a: nat, b: nat, c: nat)
    requires a <= b < c <= |s| && s[b] == '.'
    ensures s[a..c] == s[a..b] + ("." + s[b + 1..c])
  {
    assert s[a..c] == s[a..b] + s[b..c];
    assert s[b..c] == [s[b]] + s[b + 1..c];
  }

  lemma QuadEndSound(s: string, i: nat)
    requires i <= |s| && QuadEnd(s, i).Some?
    ensures exists q :: ValidQuad(q) && s[i..QuadEnd(s, i).value] == QuadText(q)
  {
    var j := OctetDot(s, i).value;
    var k := OctetDot(s, j).value;
    var l := OctetDot(s, k).value;
    var e := QuadEnd(s, i).value;
    OctetDotSound(s, i);
    OctetDotSound(s, j);
    OctetDotSound(s, k);
    var q := Quad(s[i..j - 1], s[j..k - 1], s[k..l - 1], s[l..e]);
    DigitsSlice(s, l);
    assert Octet(q.d);
    QuadSlices(s, i, j, k, l, e);
  }

  /** Text with dots before j, k and l reads as the quad of its pieces. */
  lemma QuadSlices(s: string, i: nat, j: nat, k: nat, l: nat, e: nat)
    requires i < j < k < l <= e <= |s|
    requires s[j - 1] == '.' && s[k - 1] == '.' && s[l - 1] == '.'
    ensures s[i..e] == QuadText(Quad(s[i..j - 1], s[j..k - 1], s[k..l - 1], s[l..e]))
  {
    calc {
      s[i..e];
      { SliceAroundDot(s, i, j - 1, e); }
      s[i..j - 1] + ("." + s[j..e]);
      { SliceAroundDot(s, j, k - 1, e); }
      s[i..j - 1] + ("." + (s[j..k - 1] + ("." + s[k..e])));
      { SliceAroundDot(s, k, l - 1, e); }
      s[i..j - 1] + ("." + (s[j..k - 1] + ("." + (s[k..l - 1] + ("." + s[l..e])))));
    }
  }

  /** Whatever the recogniser returns has the documented form. */
  lemma ExtractAddrPortSound(resource: string)
    requires ExtractAddrPort(resource).Some?
    ensures PortText(ExtractAddrPort(resource).value.1)
    ensures exists q :: ValidQuad(q) && ExtractAddrPort(resource).value.0 == QuadText(q)
  {
    var (i, e, p) := AddrPortSpan(resource).value;
    ExtractAddrPortOfSpan(resource, i, e, p);
    DigitsSlice(resource, e + 1);
    QuadEndSound(resource, i);
  }

  // ---------------------------------------------------------------------
  // The connection, as a value

  /** The state of one connection: whether it is attached, the lines
    * delivered so far, and what the network will do next. */
  datatype Link = Link(attached: bool, written: seq<string>, sendOk: seq<bool>, replies: seq<string>)

  /** The link after an exchange, and what the exchange returned. */
  datatype Step<T> = Step(link: Link, val: T)

  function Tail<T>(s: seq<T>): seq<T> { if s == [] then [] else s[1..] }

  /** The next send goes through: the socket is connected and the network
    * does not refuse it. */
  predicate Accepts(s: Link) { s.attached && (s.sendOk == [] || s.sendOk[0]) }

  /** One send(): delivered when accepted; the send outcome is used up
    * either way. */
  function SendOn(s: Link, text: string): (r: Step<bool>)
    ensures r.val == Accepts(s)
    ensures r.link.written == if r.val then s.written + [text] else s.written
    ensures r.link.attached == s.attached && r.link.replies == s.replies
    ensures r.link.sendOk == Tail(s.sendOk)
  {
    var ok := Accepts(s);
    Step(Link(s.attached, if ok then s.written + [text] else s.written, Tail(s.sendOk), s.replies), ok)
  }

  /** Write: one newline-terminated line. */
  function WriteOn(s: Link, command: string): Step<bool>
  {
    SendOn(s, Line(command))
  }

  /** WriteEx: the text exactly as given. */
  function WriteExOn(s: Link, command: string): Step<bool>
  {
    SendOn(s, command)
  }

  /** Query: write the command, then one recv of at most RecvBufLen bytes;
    * a reply arrives only when the write went through and the recv got
    * at least one byte. */
  function QueryOn(s: Link, command: string): (r: Step<Option<string>>)
    ensures r.val.Some? ==> s.replies != [] && 0 < |r.val.value| <= RecvBufLen && |r.val.value| <= |s.replies[0]|
    ensures r.val.Some? ==> r.val.value == s.replies[0][..|r.val.value|]
    ensures r.val.Some? ==> |r.link.replies| < |s.replies|
    ensures |r.link.replies| <= |s.replies|
    ensures r.link.attached == s.attached
    ensures r.link.written == WriteOn(s, command).link.written
  {
    var w := WriteOn(s, command);
    if !w.val then Step(w.link, None)
    else
      var reply := if w.link.replies == [] then "" else w.link.replies[0];
      var chunk := if |reply| <= RecvBufLen then reply else reply[..RecvBufLen];
      var l := w.link.(replies := Tail(w.link.replies));
      if |chunk| > 0 then Step(l, Some(chunk)) else Step(l, None)
  }

  /** A chain of writes in the source's style
    * `ok = Write(a); if (ok) ok = Write(b); ...`. */
  function WriteChain(s: Link, commands: seq<string>): Step<bool>
    decreases |commands|
  {
    if commands == [] then Step(s, true)
    else
      var w := WriteOn(s, commands[0]);
      if !w.val then Step(w.link, false) else WriteChain(w.link, commands[1..])
  }

  /** How many of n consecutive sends go through before the first refusal;
    * it depends only on the connection and the send script. */
  function Delivered(attached: bool, sendOk: seq<bool>, n: nat): (k: nat)
    ensures k <= n
    decreases n
  {
    if n == 0 || !attached || !(sendOk == [] || sendOk[0]) then 0
    else 1 + Delivered(attached, Tail(sendOk), n - 1)
  }

  /** A chain of writes delivers exactly the commands before the first
    * refusal, in order, and succeeds exactly when it delivers them all. */
  lemma {:induction false} WritesDeliversPrefix(s: Link, commands: seq<string>)
    ensures var k := Delivered(s.attached, s.sendOk, |commands|);
      && WriteChain(s, commands).link.written == s.written + Lines(commands[..k])
      && (WriteChain(s, commands).val <==> k == |commands|)
      && WriteChain(s, commands).link.attached == s.attached
      && WriteChain(s, commands).link.replies == s.replies
    decreases |commands|
  {
    var n := |commands|;
    var k := Delivered(s.attached, s.sendOk, n);
    if n == 0 {
      assert commands[..k] == [];
    } else if !Accepts(s) {
      assert k == 0 && commands[..k] == [];
    } else {
      var l := WriteChainStep(s, commands);
      var rest := commands[1..];
      WritesDeliversPrefix(l, rest);
      var k' := Delivered(l.attached, l.sendOk, n - 1);
      LinesOfPrefix(commands, k);
      calc {
        WriteChain(s, commands).link.written;
        l.written + Lines(rest[..k']);
        s.written + [Line(commands[0])] + Lines(rest[..k']);
        s.written + Lines(commands[..k]);
      }
    }
  }

  /** One accepted write: the chain continues from the link it leaves. */
  lemma WriteChainStep(s: Link, commands: seq<string>) returns (l: Link)
    requires commands != [] && Accepts(s)
    ensures l == Link(s.attached, s.written + [Line(commands[0])], Tail(s.sendOk), s.replies)
    ensures WriteChain(s, commands) == WriteChain(l, commands[1..])
    ensures Delivered(s.attached, s.sendOk, |commands|) == 1 + Delivered(l.attached, l.sendOk, |commands| - 1)
  {
    l := WriteOn(s, commands[0]).link;
  }

  /** A chain grown by one command: the new command is written exactly when
    * every earlier one went through. */
  lemma {:induction false} WriteChainSnoc(s: Link, commands: seq<string>, c: string)
    ensures var r := WriteChain(s, commands);
      WriteChain(s, commands + [c]) == if r.val then WriteOn(r.link, c) else r
    decreases |commands|
  {
    if commands == [] {
      assert [] + [c] == [c];
      assert [c][1..] == [];
    } else {
      assert (commands + [c])[0] == commands[0];
      assert (commands + [c])[1..] == commands[1..] + [c];
      var w := WriteOn(s, commands[0]);
      if w.val {
        WriteChainSnoc(w.link, commands[1..], c);
      }
    }
  }

  lemma LinesOfPrefix(commands: seq<string>, k: nat)
    requires 0 < k <= |commands|
    ensures Lines(commands[..k]) == [Line(commands[0])] + Lines(commands[1..][..k - 1])
  {
    assert commands[..k] == [commands[0]] + commands[1..][..k - 1];
    LinesCons(commands[0], commands[1..][..k - 1]);
  }

  lemma LinesCons(c: string, rest: seq<string>)
    ensures Lines([c] + rest) == [Line(c)] + Lines(rest)
  {
    var a := Lines([c] + rest);
    var b := [Line(c)] + Lines(rest);
    assert forall i | 0 <= i < |a| :: a[i] == b[i];
  }

  // ---------------------------------------------------------------------
  // The objects

  /** Process-wide Winsock state: whether WSAStartup succeeded, and how many
    * instruments are attached (nInstrAttached). */
  class SocketLibrary {
    var started: bool
    var attachedCount: int

    constructor(started: bool)
      ensures this.started == started && attachedCount == 0
    {
      this.started := started;
      attachedCount := 0;
    }
  }

  class Transport {
    const lib: SocketLibrary
    /** Address/port pairs for which getaddrinfo, socket and connect succeed. */
    const reachable: set<(string, string)>
    var attached: bool
    var written: seq<string>
    var sendOk: seq<bool>
    var replies: seq<string>

    function State(): Link
      reads this
    {
      Link(attached, written, sendOk, replies)
    }

    constructor(lib: SocketLibrary, reachable: set<(string, string)>, sendOk: seq<bool>, replies: seq<string>)
      ensures this.lib == lib && this.reachable == reachable
      ensures State() == Link(false, [], sendOk, replies)
    {
      this.lib := lib;
      this.reachable := reachable;
      attached := false;
      written := [];
      this.sendOk := sendOk;
      this.replies := replies;
    }

    /** Attach: drop any current connection, then connect to the resource
      * when the sockets library is up and the resource names a reachable
      * address and port. The attached count follows the attached flag. */
    method Attach(resource: string) returns (ok: bool)
      modifies this, lib
      ensures ok == (lib.started && ExtractAddrPort(resource).Some?
                     && ExtractAddrPort(resource).value in reachable)
      ensures attached == ok
      ensures State() == old(State()).(attached := ok)
      ensures lib.started == old(lib.started)
      ensures lib.attachedCount == old(lib.attachedCount) - (if old(attached) then 1 else 0) + (if ok then 1 else 0)
    {
      if attached {
        var _ := Detach();
      }
      ok := false;
      if lib.started {
        var target := ExtractAddrPort(resource);
        if target.Some? && target.value in reachable {
          attached := true;
          lib.attachedCount := lib.attachedCount + 1;
          ok := true;
        }
      }
    }

    /** Detach always succeeds; the count drops only if it was attached. */
    method Detach() returns (ok: bool)
      modifies this, lib
      ensures ok && !attached
      ensures State() == old(State()).(attached := false)
      ensures lib.started == old(lib.started)
      ensures lib.attachedCount == old(lib.attachedCount) - (if old(attached) then 1 else 0)
    {
      if attached {
        attached := false;
        lib.attachedCount := lib.attachedCount - 1;
      }
      ok := true;
    }

    method Write(command: string) returns (ok: bool)
      modifies this
      ensures State() == WriteOn(old(State()), command).link
      ensures ok == WriteOn(old(State()), command).val
    {
      EndsWithNewlineMeans(command);
      var text := if EndsWithNewline(command) then command else command + "\n";
      ok := Accepts(State());
      if ok {
        written := written + [text];
      }
      sendOk := Tail(sendOk);
    }

    method WriteEx(command: string) returns (ok: bool)
      modifies this
      ensures State() == WriteExOn(old(State()), command).link
      ensures ok == WriteExOn(old(State()), command).val
    {
      ok := Accepts(State());
      if ok {
        written := written + [command];
      }
      sendOk := Tail(sendOk);
    }

    /** Query: the response is replaced only when a reply arrives. */
    method Query(command: string, prior: string) returns (ok: bool, response: string)
      modifies this
      ensures State() == QueryOn(old(State()), command).link
      ensures ok == QueryOn(old(State()), command).val.Some?
      ensures response == if ok then QueryOn(old(State()), command).val.value else prior
    {
      response := prior;
      ok := Write(command);
      if ok {
        var reply := if replies == [] then "" else replies[0];
        replies := Tail(replies);
        var chunk := if |reply| <= RecvBufLen then reply else reply[..RecvBufLen];
        if |chunk| > 0 {
          response := chunk;
        } else {
          ok := false;
        }
      }
    }
  }
}
