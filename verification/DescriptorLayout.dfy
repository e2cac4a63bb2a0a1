// The parser is the inverse of laying a configuration out in bytes: it accepts exactly the layout
// of a well-formed configuration tree as that tree with nothing left over.
module DescriptorLayout {
  import opened Descriptor

  // ----- layout

  function WordBytes(w: word, bigEndian: bool): (r: seq<byte>)
    ensures |r| == 2
  {
    if bigEndian then [w / 256, w % 256] else [w % 256, w / 256]
  }

  function EndpointBytes(e: Endpoint, bigEndian: bool): seq<byte> {
    [e.bLength, e.bDescriptorType, e.bEndpointAddress, e.bmAttributes] + WordBytes(e.wMaxPacketSize, bigEndian) +
    [e.bInterval] + (if e.bLength >= 9 then [e.bRefresh, e.bSynchAddress] else [])
  }

  function LayEndpoint(e: Endpoint, bigEndian: bool): seq<byte> {
    EndpointBytes(e, bigEndian) + e.extra
  }

  function LayEndpoints(es: seq<Endpoint>, bigEndian: bool): seq<byte> {
    if es == [] then [] else LayEndpoint(es[0], bigEndian) + LayEndpoints(es[1..], bigEndian)
  }

  function AltBytes(a: AltSetting): seq<byte> {
    [a.bLength, a.bDescriptorType, a.bInterfaceNumber, a.bAlternateSetting, a.bNumEndpoints, a.bInterfaceClass,
     a.bInterfaceSubClass, a.bInterfaceProtocol, a.iInterface]
  }

  function LayAlt(a: AltSetting, bigEndian: bool): seq<byte> {
    AltBytes(a) + a.extra + LayEndpoints(a.endpoints, bigEndian)
  }

  function LayInterface(alts: seq<AltSetting>, bigEndian: bool): seq<byte> {
    if alts == [] then [] else LayAlt(alts[0], bigEndian) + LayInterface(alts[1..], bigEndian)
  }

  function LayInterfaces(ifs: seq<seq<AltSetting>>, bigEndian: bool): seq<byte> {
    if ifs == [] then [] else LayInterface(ifs[0], bigEndian) + LayInterfaces(ifs[1..], bigEndian)
  }

  function ConfigBytes(c: Config, bigEndian: bool): seq<byte> {
    [c.bLength, c.bDescriptorType] + WordBytes(c.wTotalLength, bigEndian) +
    [c.bNumInterfaces, c.bConfigurationValue, c.iConfiguration, c.bmAttributes, c.maxPower]
  }

  function Lay(c: Config, bigEndian: bool): seq<byte> {
    ConfigBytes(c, bigEndian) + c.extra + LayInterfaces(c.interfaces, bigEndian)
  }

  // ----- well-formed trees

  // Class-specific and vendor-specific descriptors, one after the other.
  predicate GoodExtra(x: seq<byte>) {
    x == [] ||
    (|x| >= 2 && 2 <= x[0] <= |x| && x[1] !in {1, 2, 4, 5} && GoodExtra(x[x[0]..]))
  }

  predicate GoodEndpoint(e: Endpoint) {
    && (e.bLength == 9 || (e.bLength == 7 && e.bRefresh == 0 && e.bSynchAddress == 0))
    && e.bDescriptorType == 5
    && GoodExtra(e.extra)
  }

  predicate GoodEndpoints(es: seq<Endpoint>) {
    forall e :: e in es ==> GoodEndpoint(e)
  }

  predicate GoodAlt(a: AltSetting) {
    && a.bLength == 9 && a.bDescriptorType == 4
    && |a.endpoints| == a.bNumEndpoints <= 32
    && GoodEndpoints(a.endpoints)
    && GoodExtra(a.extra)
  }

  predicate GoodAlts(alts: seq<AltSetting>) {
    forall a :: a in alts ==> GoodAlt(a)
  }

  predicate LaterAltsNonZero(alts: seq<AltSetting>) {
    forall j :: 1 <= j < |alts| ==> alts[j].bAlternateSetting != 0
  }

  // An interface has at least one alternate setting, and all but the first are non-zero.
  predicate GoodInterface(alts: seq<AltSetting>) {
    alts != [] && GoodAlts(alts) && LaterAltsNonZero(alts)
  }

  predicate GoodInterfaces(ifs: seq<seq<AltSetting>>) {
    forall i :: i in ifs ==> GoodInterface(i)
  }

  // Each interface after the first starts with alternate setting 0; that is how the parser tells
  // where one ends and the next begins.
  predicate Separated(ifs: seq<seq<AltSetting>>)
    requires GoodInterfaces(ifs)
  {
    forall i {:trigger ifs[i]} :: 1 <= i < |ifs| ==> ifs[i] in ifs && ifs[i][0].bAlternateSetting == 0
  }

  predicate WellFormed(c: Config, bigEndian: bool) {
    && c.bLength == 9
    && |c.interfaces| == c.bNumInterfaces <= 32
    && GoodInterfaces(c.interfaces) && Separated(c.interfaces)
    && GoodExtra(c.extra) && (c.extra != [] ==> c.interfaces != [])
    && |Lay(c, bigEndian)| == c.wTotalLength
  }

  // ----- memory that holds given bytes

  ghost predicate Holds(m: Memory, pos: nat, b: seq<byte>) {
    forall k :: 0 <= k < |b| ==> m(pos + k) == b[k]
  }

  lemma HoldsParts(m: Memory, pos: nat, x: seq<byte>, y: seq<byte>)
    ensures Holds(m, pos, x + y) <==> Holds(m, pos, x) && Holds(m, pos + |x|, y)
  {
    if Holds(m, pos, x + y) {
      forall k | 0 <= k < |x|
        ensures m(pos + k) == x[k]
      {
        assert m(pos + k) == (x + y)[k];
      }
      forall k | 0 <= k < |y|
        ensures m(pos + |x| + k) == y[k]
      {
        assert m(pos + (|x| + k)) == (x + y)[|x| + k];
      }
    }
    if Holds(m, pos, x) && Holds(m, pos + |x|, y) {
      forall k | 0 <= k < |x + y|
        ensures m(pos + k) == (x + y)[k]
      {
        if k >= |x| {
          assert m(pos + |x| + (k - |x|)) == y[k - |x|];
        }
      }
    }
  }

  lemma HoldsBytes(m: Memory, pos: nat, b: seq<byte>)
    ensures Holds(m, pos, b) <==> Bytes(m, pos, |b|) == b
  {
  }

  // ----- a skip loop passes over exactly the extras that are there

  lemma {:induction false} SkipExtra(m: Memory, pos: nat, size: int, x: seq<byte>, strict: bool)
    requires GoodExtra(x) && Holds(m, pos, x) && size >= |x|
    requires AtStop(m, pos + |x|, size - |x|)
    requires strict && size - |x| >= 2 ==> m(pos + |x|) <= size - |x|
    ensures SkipUnknown(m, pos, size, strict) == Parsed((), |x|)
    decreases size
  {
    hide GoodExtra, Holds, Proper, AtStop, SkipUnknown;
    if x == [] {
      StopsAtOnce(m, pos, size, strict);
    } else {
      var len, rest := ExtraStep(m, pos, x);
      OneSkip(m, pos, size, strict);
      SkipExtra(m, pos + len, size - len, rest, strict);
    }
  }

  lemma OneSkip(m: Memory, pos: nat, size: int, strict: bool)
    requires size >= 2 && 2 <= m(pos) <= size && !Proper(m(pos + 1))
    ensures var rest := SkipUnknown(m, pos + m(pos), size - m(pos), strict);
            SkipUnknown(m, pos, size, strict) == if rest.Failed? then Failed else Parsed((), m(pos) + rest.consumed)
  {
  }

  lemma StopsAtOnce(m: Memory, pos: nat, size: int, strict: bool)
    requires AtStop(m, pos, size) && (strict && size >= 2 ==> m(pos) <= size)
    ensures SkipUnknown(m, pos, size, strict) == Parsed((), 0)
  {
  }

  // The first of these descriptors, and the others
  lemma ExtraStep(m: Memory, pos: nat, x: seq<byte>) returns (len: nat, rest: seq<byte>)
    requires GoodExtra(x) && Holds(m, pos, x) && x != []
    ensures 2 <= len == m(pos) && |x| == len + |rest| && GoodExtra(rest) && Holds(m, pos + len, rest)
    ensures !Proper(m(pos + 1))
  {
    assert m(pos + 0) == x[0] && m(pos + 1) == x[1];
    len, rest := x[0], x[x[0]..];
    assert x == x[..len] + rest;
    HoldsParts(m, pos, x[..len], rest);
  }

  lemma WordRoundTrip(m: Memory, pos: nat, w: word, bigEndian: bool)
    ensures Holds(m, pos, WordBytes(w, bigEndian)) <==> Word(m, pos, bigEndian) == w
  {
    assert Holds(m, pos, WordBytes(w, bigEndian)) <==>
        m(pos + 0) == WordBytes(w, bigEndian)[0] && m(pos + 1) == WordBytes(w, bigEndian)[1];
  }

  // What memory holds, byte by byte, where it holds the fixed part of an endpoint descriptor
  lemma EndpointBytesHeld(m: Memory, pos: nat, e: Endpoint, bigEndian: bool)
    ensures Holds(m, pos, EndpointBytes(e, bigEndian)) <==>
            && m(pos) == e.bLength && m(pos + 1) == e.bDescriptorType && m(pos + 2) == e.bEndpointAddress
            && m(pos + 3) == e.bmAttributes && Word(m, pos + 4, bigEndian) == e.wMaxPacketSize
            && m(pos + 6) == e.bInterval
            && (e.bLength >= 9 ==> m(pos + 7) == e.bRefresh && m(pos + 8) == e.bSynchAddress)
    ensures |EndpointBytes(e, bigEndian)| == if e.bLength >= 9 then 9 else 7
  {
    hide WordBytes, Word, Holds;
    var head := [e.bLength, e.bDescriptorType, e.bEndpointAddress, e.bmAttributes];
    var word := WordBytes(e.wMaxPacketSize, bigEndian);
    var tail := if e.bLength >= 9 then [e.bRefresh, e.bSynchAddress] else [];
    HoldsParts(m, pos, head + word + [e.bInterval], tail);
    HoldsParts(m, pos, head + word, [e.bInterval]);
    HoldsParts(m, pos, head, word);
    WordRoundTrip(m, pos + 4, e.wMaxPacketSize, bigEndian);
    HoldsFour(m, pos, head);
    HoldsUpToTwo(m, pos + 6, [e.bInterval]);
    HoldsUpToTwo(m, pos + 7, tail);
  }

  lemma HoldsFour(m: Memory, pos: nat, b: seq<byte>)
    requires |b| == 4
    ensures Holds(m, pos, b) <==> m(pos) == b[0] && m(pos + 1) == b[1] && m(pos + 2) == b[2] && m(pos + 3) == b[3]
  {
    assert Holds(m, pos, b) ==> m(pos + 0) == b[0] && m(pos + 1) == b[1] && m(pos + 2) == b[2] && m(pos + 3) == b[3];
  }

  lemma HoldsUpToTwo(m: Memory, pos: nat, b: seq<byte>)
    requires |b| <= 2
    ensures Holds(m, pos, b) <==> (|b| > 0 ==> m(pos) == b[0]) && (|b| > 1 ==> m(pos + 1) == b[1])
  {
    assert Holds(m, pos, b) ==> (|b| > 0 ==> m(pos + 0) == b[0]) && (|b| > 1 ==> m(pos + 1) == b[1]);
  }

  // The fixed part of an endpoint descriptor is read back as it was laid out, and only then.
  lemma EndpointFieldsRoundTrip(m: Memory, pos: nat, e: Endpoint, bigEndian: bool)
    requires GoodEndpoint(e)
    ensures Holds(m, pos, EndpointBytes(e, bigEndian)) <==> EndpointFields(m, pos, bigEndian) == e.(extra := [])
    ensures |EndpointBytes(e, bigEndian)| == e.bLength
  {
    hide GoodExtra, Holds, EndpointBytes, Word;
    EndpointBytesHeld(m, pos, e, bigEndian);
  }

  lemma AltFieldsRoundTrip(m: Memory, pos: nat, a: AltSetting)
    ensures Holds(m, pos, AltBytes(a)) <==> AltFields(m, pos) == a.(extra := [], endpoints := [])
  {
    var b := AltBytes(a);
    assert Holds(m, pos, b) <==>
        && m(pos + 0) == b[0] && m(pos + 1) == b[1] && m(pos + 2) == b[2] && m(pos + 3) == b[3] && m(pos + 4) == b[4]
        && m(pos + 5) == b[5] && m(pos + 6) == b[6] && m(pos + 7) == b[7] && m(pos + 8) == b[8];
  }

  lemma ConfigFieldsRoundTrip(m: Memory, c: Config, bigEndian: bool)
    ensures Holds(m, 0, ConfigBytes(c, bigEndian)) <==> ConfigFields(m, bigEndian) == c.(extra := [], interfaces := [])
    ensures |ConfigBytes(c, bigEndian)| == 9
  {
    var head := [c.bLength, c.bDescriptorType];
    var word := WordBytes(c.wTotalLength, bigEndian);
    var tail := [c.bNumInterfaces, c.bConfigurationValue, c.iConfiguration, c.bmAttributes, c.maxPower];
    HoldsParts(m, 0, head + word, tail);
    HoldsParts(m, 0, head, word);
    WordRoundTrip(m, 2, c.wTotalLength, bigEndian);
    assert Holds(m, 0, head) <==> m(0 + 0) == head[0] && m(0 + 1) == head[1];
    assert Holds(m, 4, tail) <==>
        && m(4 + 0) == tail[0] && m(4 + 1) == tail[1] && m(4 + 2) == tail[2] && m(4 + 3) == tail[3]
        && m(4 + 4) == tail[4];
  }

  // ----- laying out, then parsing

  lemma EndpointParsesBack(m: Memory, pos: nat, size: int, e: Endpoint, bigEndian: bool)
    requires GoodEndpoint(e) && Holds(m, pos, LayEndpoint(e, bigEndian))
    requires var n := |LayEndpoint(e, bigEndian)|; size >= n && AtStop(m, pos + n, size - n)
    ensures ParseEndpoint(m, pos, size, bigEndian) == Parsed(e, |LayEndpoint(e, bigEndian)|)
  {
    hide EndpointBytes, EndpointFields, GoodExtra, Holds, SkipUnknown, AtStop;
    assert m(pos) == e.bLength && m(pos + 1) == 5 by { EndpointHeader(m, pos, e, bigEndian); }
    HoldsParts(m, pos, EndpointBytes(e, bigEndian), e.extra);
    EndpointFieldsRoundTrip(m, pos, e, bigEndian);
    SkipExtra(m, pos + e.bLength, size - e.bLength, e.extra, false);
    HoldsBytes(m, pos + e.bLength, e.extra);
  }

  lemma EndpointHeader(m: Memory, pos: nat, e: Endpoint, bigEndian: bool)
    requires GoodEndpoint(e) && Holds(m, pos, LayEndpoint(e, bigEndian))
    ensures m(pos) == e.bLength && m(pos + 1) == 5
  {
    HoldsParts(m, pos, EndpointBytes(e, bigEndian), e.extra);
    EndpointBytesHeld(m, pos, e, bigEndian);
  }

  lemma HoldsHead(m: Memory, pos: nat, b: seq<byte>)
    requires |b| >= 2 && Holds(m, pos, b)
    ensures m(pos) == b[0] && m(pos + 1) == b[1]
  {
    assert m(pos + 0) == b[0];
  }

  // A descriptor laid out in front of something is where a skip loop stops.
  lemma EndpointsStart(m: Memory, pos: nat, size: int, es: seq<Endpoint>, bigEndian: bool)
    requires GoodEndpoints(es)
    requires Holds(m, pos, LayEndpoints(es, bigEndian))
    requires es == [] ==> AtStop(m, pos, size)
    ensures AtStop(m, pos, size)
    ensures es != [] ==> m(pos + 1) == 5
  {
    if es != [] {
      assert es[0] in es;
      HoldsParts(m, pos, LayEndpoint(es[0], bigEndian), LayEndpoints(es[1..], bigEndian));
      HoldsHead(m, pos, LayEndpoint(es[0], bigEndian));
    }
  }

  lemma {:induction false} EndpointsParseBack(m: Memory, pos: nat, size: int, es: seq<Endpoint>, bigEndian: bool)
    requires GoodEndpoints(es)
    requires Holds(m, pos, LayEndpoints(es, bigEndian))
    requires var n := |LayEndpoints(es, bigEndian)|; size >= n && AtStop(m, pos + n, size - n)
    ensures ParseEndpoints(m, pos, size, |es|, bigEndian) == Parsed(es, |LayEndpoints(es, bigEndian)|)
    decreases |es|
  {
    hide ParseEndpoint, ParseEndpoints, LayEndpoint, LayEndpoints, GoodEndpoint, GoodEndpoints, AtStop, Holds;
    NoEndpoints(m, pos, size, bigEndian);
    if es != [] {
      var first, rest := LayEndpoint(es[0], bigEndian), es[1..];
      LayOneEndpoint(es[0], rest, bigEndian);
      assert [es[0]] + rest == es;
      HoldsParts(m, pos, first, LayEndpoints(rest, bigEndian));
      EndpointsStart(m, pos + |first|, size - |first|, rest, bigEndian);
      EndpointParsesBack(m, pos, size, es[0], bigEndian);
      EndpointsParseBack(m, pos + |first|, size - |first|, rest, bigEndian);
      OneEndpoint(m, pos, size, |es|, bigEndian);
    }
  }

  lemma NoEndpoints(m: Memory, pos: nat, size: int, bigEndian: bool)
    ensures ParseEndpoints(m, pos, size, 0, bigEndian) == Parsed([], 0)
    ensures LayEndpoints([], bigEndian) == [] && Holds(m, pos, [])
  {
  }

  lemma LayOneEndpoint(e: Endpoint, es: seq<Endpoint>, bigEndian: bool)
    ensures LayEndpoints([e] + es, bigEndian) == LayEndpoint(e, bigEndian) + LayEndpoints(es, bigEndian)
    ensures GoodEndpoints([e] + es) <==> GoodEndpoint(e) && GoodEndpoints(es)
  {
    hide LayEndpoint, GoodEndpoint;
    assert ([e] + es)[1..] == es;
    assert forall x :: x in [e] + es <==> x == e || x in es;
  }

  // What may follow a whole alternate setting: the end, or the next interface descriptor.
  predicate InterfaceNext(m: Memory, pos: nat, size: int) {
    size < 2 || (m(pos) >= 2 && m(pos + 1) == 4)
  }

  lemma AltParsesBack(m: Memory, pos: nat, size: int, a: AltSetting, bigEndian: bool)
    requires GoodAlt(a) && Holds(m, pos, LayAlt(a, bigEndian))
    requires var n := |LayAlt(a, bigEndian)|; size >= n && InterfaceNext(m, pos + n, size - n)
    ensures ParseAlt(m, pos, size, bigEndian) == Parsed(AltPass(a, false), |LayAlt(a, bigEndian)|)
  {
    hide ParseEndpoints, SkipUnknown, LayEndpoints, GoodEndpoints, GoodExtra, Holds;
    var eps := LayEndpoints(a.endpoints, bigEndian);
    HoldsParts(m, pos, AltBytes(a) + a.extra, eps);
    HoldsParts(m, pos, AltBytes(a), a.extra);
    AltFieldsRoundTrip(m, pos, a);
    var pos', size' := pos + 9 + |a.extra|, size - 9 - |a.extra|;
    LayNoEndpoints(a.endpoints, bigEndian);
    EndpointsStart(m, pos', size', a.endpoints, bigEndian);
    SkipExtra(m, pos + 9, size - 9, a.extra, false);
    HoldsBytes(m, pos + 9, a.extra);
    EndpointsParseBack(m, pos', size', a.endpoints, bigEndian);
  }

  lemma LayNoEndpoints(es: seq<Endpoint>, bigEndian: bool)
    ensures es == [] ==> LayEndpoints(es, bigEndian) == []
  {
  }

  // What may follow a whole interface: the end, or alternate setting 0 of the next one.
  predicate InterfaceEnds(m: Memory, pos: nat, size: int) {
    size < 2 || (m(pos) >= 2 && m(pos + 1) == 4 && m(pos + 3) == 0)
  }

  lemma LayInterfaceStart(m: Memory, pos: nat, alts: seq<AltSetting>, bigEndian: bool)
    requires GoodAlts(alts) && alts != [] && Holds(m, pos, LayInterface(alts, bigEndian))
    ensures m(pos) == 9 && m(pos + 1) == 4 && m(pos + 3) == alts[0].bAlternateSetting
    ensures |LayInterface(alts, bigEndian)| >= 9
  {
    var a := alts[0];
    assert a in alts;
    HoldsParts(m, pos, LayAlt(a, bigEndian), LayInterface(alts[1..], bigEndian));
    HoldsParts(m, pos, AltBytes(a) + a.extra, LayEndpoints(a.endpoints, bigEndian));
    HoldsParts(m, pos, AltBytes(a), a.extra);
    AltFieldsRoundTrip(m, pos, a);
  }

  lemma {:induction false} InterfaceParsesBack(m: Memory, pos: nat, size: int, alts: seq<AltSetting>, bigEndian: bool)
    requires GoodAlts(alts) && alts != [] && LaterAltsNonZero(alts)
    requires Holds(m, pos, LayInterface(alts, bigEndian))
    requires var n := |LayInterface(alts, bigEndian)|; size >= n && InterfaceEnds(m, pos + n, size - n)
    requires AtStop(m, pos, size)
    ensures ParseInterface(m, pos, size, bigEndian) == Parsed(alts, |LayInterface(alts, bigEndian)|)
    decreases |alts|
  {
    hide ParseAlt, ParseInterface, LayAlt, LayInterface, GoodAlt, GoodAlts, Holds, AtStop;
    var first, rest := LayAlt(alts[0], bigEndian), alts[1..];
    LayOneAlt(alts[0], rest, bigEndian);
    assert [alts[0]] + rest == alts;
    HoldsParts(m, pos, first, LayInterface(rest, bigEndian));
    LayInterfaceStart(m, pos, alts, bigEndian);
    if rest != [] {
      LayInterfaceStart(m, pos + |first|, rest, bigEndian);
      assert rest[0] == alts[1];
      HeaderStops(m, pos + |first|, size - |first|);
      InterfaceParsesBack(m, pos + |first|, size - |first|, rest, bigEndian);
    }
    AltParsesBack(m, pos, size, alts[0], bigEndian);
    OneAlt(m, pos, size, bigEndian);
    assert rest == [] ==> [alts[0]] == alts;
  }

  lemma HeaderStops(m: Memory, pos: nat, size: int)
    requires m(pos) >= 2 && m(pos + 1) == 4
    ensures AtStop(m, pos, size)
  {
  }

  lemma LayOneAlt(a: AltSetting, alts: seq<AltSetting>, bigEndian: bool)
    ensures LayInterface([a] + alts, bigEndian) == LayAlt(a, bigEndian) + LayInterface(alts, bigEndian)
    ensures LayInterface([], bigEndian) == []
    ensures GoodAlts([a] + alts) <==> GoodAlt(a) && GoodAlts(alts)
  {
    hide LayAlt, GoodAlt;
    assert ([a] + alts)[1..] == alts;
    assert forall x :: x in [a] + alts <==> x == a || x in alts;
  }

  lemma PassParsesBack(m: Memory, pos: nat, size: int, x: seq<byte>, alts: seq<AltSetting>, bigEndian: bool)
    requires GoodExtra(x) && GoodInterface(alts)
    requires Holds(m, pos, x) && Holds(m, pos + |x|, LayInterface(alts, bigEndian))
    requires var n := |x| + |LayInterface(alts, bigEndian)|; size >= n && InterfaceEnds(m, pos + n, size - n)
    ensures ParseInterfacePass(m, pos, size, bigEndian) ==
            Parsed(InterfacePass(x, alts), |x| + |LayInterface(alts, bigEndian)|)
  {
    hide ParseInterface, SkipUnknown, LayInterface, GoodAlts, GoodExtra, Holds;
    LayInterfaceStart(m, pos + |x|, alts, bigEndian);
    SkipExtra(m, pos, size, x, true);
    HoldsBytes(m, pos, x);
    SkipStops(m, pos, size, true);
    InterfaceParsesBack(m, pos + |x|, size - |x|, alts, bigEndian);
  }

  lemma InterfacesStart(m: Memory, pos: nat, ifs: seq<seq<AltSetting>>, bigEndian: bool)
    requires GoodInterfaces(ifs) && Holds(m, pos, LayInterfaces(ifs, bigEndian))
    requires ifs != [] ==> ifs[0] in ifs && ifs[0][0].bAlternateSetting == 0
    ensures InterfaceEnds(m, pos, |LayInterfaces(ifs, bigEndian)|)
  {
    if ifs != [] {
      HoldsParts(m, pos, LayInterface(ifs[0], bigEndian), LayInterfaces(ifs[1..], bigEndian));
      LayInterfaceStart(m, pos, ifs[0], bigEndian);
    }
  }

  lemma GoodRest(ifs: seq<seq<AltSetting>>)
    requires GoodInterfaces(ifs) && Separated(ifs) && ifs != []
    ensures var rest := ifs[1..];
            && GoodInterface(ifs[0]) && GoodInterfaces(rest) && Separated(rest)
            && (rest != [] ==> rest[0] in rest && rest[0][0].bAlternateSetting == 0)
  {
    var rest := ifs[1..];
    assert ifs[0] in ifs;
    assert forall i {:trigger rest[i]} :: 0 <= i < |rest| ==> rest[i] == ifs[i + 1] && rest[i] in rest;
  }

  // One step of parse_configuration's loop on laid-out bytes
  lemma InterfacesStep(
    m: Memory, pos: nat, x: seq<byte>, ifs: seq<seq<AltSetting>>, bigEndian: bool)
    requires GoodInterfaces(ifs) && Separated(ifs) && ifs != [] && GoodExtra(x)
    requires Holds(m, pos, x) && Holds(m, pos + |x|, LayInterfaces(ifs, bigEndian))
    ensures var first := |x| + |LayInterface(ifs[0], bigEndian)|;
            var n := |LayInterfaces(ifs[1..], bigEndian)|;
            && |x| + |LayInterfaces(ifs, bigEndian)| == first + n
            && ParseInterfacePass(m, pos, first + n, bigEndian) == Parsed(InterfacePass(x, ifs[0]), first)
            && Holds(m, pos + first, LayInterfaces(ifs[1..], bigEndian))
    ensures GoodInterfaces(ifs[1..]) && Separated(ifs[1..])
  {
    hide ParseInterfacePass, LayInterface, GoodInterface, GoodInterfaces, Separated, InterfaceEnds, GoodExtra, Holds;
    var first, rest := LayInterface(ifs[0], bigEndian), ifs[1..];
    GoodRest(ifs);
    HoldsParts(m, pos + |x|, first, LayInterfaces(rest, bigEndian));
    InterfacesStart(m, pos + |x| + |first|, rest, bigEndian);
    PassParsesBack(m, pos, |x| + |LayInterfaces(ifs, bigEndian)|, x, ifs[0], bigEndian);
  }

  lemma {:induction false} InterfacesParseBack(
    m: Memory, pos: nat, ifs: seq<seq<AltSetting>>, extra: seq<byte>, bigEndian: bool)
    requires GoodInterfaces(ifs) && Separated(ifs)
    requires Holds(m, pos, LayInterfaces(ifs, bigEndian))
    ensures var n := |LayInterfaces(ifs, bigEndian)|;
            ParseInterfaces(m, pos, n, |ifs|, extra, bigEndian) == Parsed(Interfaces(extra, ifs), n)
    decreases |ifs|
  {
    hide ParseInterfacePass, LayInterface, LayInterfaces, GoodInterfaces, Separated, GoodExtra, Holds;
    if ifs == [] {
      LayNoInterfaces(bigEndian);
    } else {
      var first, n := |LayInterface(ifs[0], bigEndian)|, |LayInterfaces(ifs[1..], bigEndian)|;
      NoExtra(m, pos);
      InterfacesStep(m, pos, [], ifs, bigEndian);
      InterfacesParseBack(m, pos + first, ifs[1..], extra, bigEndian);
      var extra' := if extra == [] then [] else extra;
      assert extra' == extra;
      assert ParseInterfaces(m, pos + first, n, |ifs| - 1, extra', bigEndian) == Parsed(Interfaces(extra, ifs[1..]), n);
      assert [ifs[0]] + ifs[1..] == ifs;
    }
  }

  lemma LayNoInterfaces(bigEndian: bool)
    ensures LayInterfaces([], bigEndian) == []
  {
  }

  lemma NoExtra(m: Memory, pos: nat)
    ensures GoodExtra([]) && Holds(m, pos, [])
  {
  }

  // Round trip: whatever memory holds the layout of a well-formed tree parses as that tree.
  lemma LaidOutParsesBack(m: Memory, c: Config, bigEndian: bool)
    requires WellFormed(c, bigEndian) && Holds(m, 0, Lay(c, bigEndian))
    ensures ParseConfiguration(m, bigEndian) == Leftover(c, 0)
  {
    hide ParseInterfaces, ParseInterfacePass, LayInterface, LayInterfaces, GoodInterfaces, Separated, GoodExtra, Holds;
    hide ConfigFields, ConfigBytes;
    var head, ifs := ConfigBytes(c, bigEndian), c.interfaces;
    HoldsParts(m, 0, head + c.extra, LayInterfaces(ifs, bigEndian));
    HoldsParts(m, 0, head, c.extra);
    ConfigFieldsRoundTrip(m, c, bigEndian);
    if ifs == [] {
      InterfacesParseBack(m, 9, [], [], bigEndian);
    } else {
      InterfacesStep(m, 9, c.extra, ifs, bigEndian);
      OnePass(m, 9, c.wTotalLength - 9, |ifs|, [], bigEndian);
      assert (if [] == c.extra then [] else c.extra) == c.extra;
      InterfacesParseBack(m, 9 + |c.extra| + |LayInterface(ifs[0], bigEndian)|, ifs[1..], c.extra, bigEndian);
      assert [ifs[0]] + ifs[1..] == ifs;
    }
  }

  // ----- parsing, then laying out

  lemma EndpointLaysBack(m: Memory, pos: nat, size: int, bigEndian: bool)
    requires var r := ParseEndpoint(m, pos, size, bigEndian); r.Parsed? && GoodEndpoint(r.value)
    ensures var r := ParseEndpoint(m, pos, size, bigEndian);
            Holds(m, pos, LayEndpoint(r.value, bigEndian)) && r.consumed == |LayEndpoint(r.value, bigEndian)|
  {
    var e := ParseEndpoint(m, pos, size, bigEndian).value;
    hide GoodExtra, SkipUnknown;
    HoldsParts(m, pos, EndpointBytes(e, bigEndian), e.extra);
    EndpointFieldsRoundTrip(m, pos, e, bigEndian);
    HoldsBytes(m, pos + e.bLength, e.extra);
  }

  lemma {:induction false} EndpointsLayBack(m: Memory, pos: nat, size: int, count: nat, bigEndian: bool)
    requires var r := ParseEndpoints(m, pos, size, count, bigEndian); r.Parsed? && GoodEndpoints(r.value)
    ensures var r := ParseEndpoints(m, pos, size, count, bigEndian);
            Holds(m, pos, LayEndpoints(r.value, bigEndian)) && r.consumed == |LayEndpoints(r.value, bigEndian)|
    decreases count
  {
    hide ParseEndpoint, ParseEndpoints, GoodEndpoint, GoodEndpoints, LayEndpoint, LayEndpoints, Holds;
    if count == 0 {
      NoEndpoints(m, pos, size, bigEndian);
    } else {
      OneEndpoint(m, pos, size, count, bigEndian);
      var first := ParseEndpoint(m, pos, size, bigEndian);
      var rest := ParseEndpoints(m, pos + first.consumed, size - first.consumed, count - 1, bigEndian);
      LayOneEndpoint(first.value, rest.value, bigEndian);
      EndpointLaysBack(m, pos, size, bigEndian);
      EndpointsLayBack(m, pos + first.consumed, size - first.consumed, count - 1, bigEndian);
      HoldsParts(m, pos, LayEndpoint(first.value, bigEndian), LayEndpoints(rest.value, bigEndian));
    }
  }

  lemma AltLaysBack(m: Memory, pos: nat, size: int, bigEndian: bool)
    requires var r := ParseAlt(m, pos, size, bigEndian); r.Parsed? && GoodAlt(r.value.alt)
    ensures var r := ParseAlt(m, pos, size, bigEndian);
            && Holds(m, pos, LayAlt(r.value.alt, bigEndian)) && r.consumed == |LayAlt(r.value.alt, bigEndian)|
  {
    hide GoodExtra, SkipUnknown, GoodEndpoints, ParseEndpoints, LayEndpoints, Holds;
    var r := ParseAlt(m, pos, size, bigEndian);
    var a := r.value.alt;
    var pos', size' := pos + 9 + |a.extra|, size - 9 - |a.extra|;
    HoldsParts(m, pos, AltBytes(a) + a.extra, LayEndpoints(a.endpoints, bigEndian));
    HoldsParts(m, pos, AltBytes(a), a.extra);
    AltFieldsRoundTrip(m, pos, a);
    HoldsBytes(m, pos + 9, a.extra);
    if r.value.ended {
      LayNoEndpoints(a.endpoints, bigEndian);
      NoExtra(m, pos');
    } else {
      EndpointsLayBack(m, pos', size', a.bNumEndpoints, bigEndian);
    }
  }

  lemma {:induction false} InterfaceLaysBack(m: Memory, pos: nat, size: int, bigEndian: bool)
    requires AtStop(m, pos, size)
    requires var r := ParseInterface(m, pos, size, bigEndian); r.Parsed? && GoodAlts(r.value)
    ensures var r := ParseInterface(m, pos, size, bigEndian);
            Holds(m, pos, LayInterface(r.value, bigEndian)) && r.consumed == |LayInterface(r.value, bigEndian)|
    decreases size
  {
    hide ParseAlt, GoodAlt, LayAlt, Holds, AtStop, MoreAlts;
    var r := ParseInterface(m, pos, size, bigEndian);
    NoExtra(m, pos);
    if size >= 9 {
      var first := ParseAlt(m, pos, size, bigEndian);
      ParseAltStops(m, pos, size, bigEndian);
      var pos', size' := pos + first.consumed, size - first.consumed;
      assert r.value[0] == first.value.alt && r.value[0] in r.value;
      AltLaysBack(m, pos, size, bigEndian);
      HoldsParts(m, pos, LayAlt(r.value[0], bigEndian), LayInterface(r.value[1..], bigEndian));
      if first.value.ended || !MoreAlts(m, pos', size') {
        assert r.value[1..] == [];
        NoExtra(m, pos');
      } else {
        assert r.value[1..] == ParseInterface(m, pos', size', bigEndian).value;
        assert forall a :: a in r.value[1..] ==> a in r.value;
        InterfaceLaysBack(m, pos', size', bigEndian);
      }
    }
  }

  lemma PassLaysBack(m: Memory, pos: nat, size: int, bigEndian: bool)
    requires var r := ParseInterfacePass(m, pos, size, bigEndian); r.Parsed? && GoodAlts(r.value.alts)
    ensures var r := ParseInterfacePass(m, pos, size, bigEndian);
            && Holds(m, pos, r.value.found + LayInterface(r.value.alts, bigEndian))
            && r.consumed == |r.value.found| + |LayInterface(r.value.alts, bigEndian)|
  {
    hide ParseInterface, SkipUnknown, GoodAlts, LayInterface, Holds, AtStop;
    SkipStops(m, pos, size, true);
    var r := ParseInterfacePass(m, pos, size, bigEndian);
    var n := |r.value.found|;
    InterfaceLaysBack(m, pos + n, size - n, bigEndian);
    HoldsBytes(m, pos, r.value.found);
    HoldsParts(m, pos, r.value.found, LayInterface(r.value.alts, bigEndian));
  }

  lemma {:induction false} InterfacesLayBack(
    m: Memory, pos: nat, size: int, count: nat, extra: seq<byte>, bigEndian: bool)
    requires extra == [] || AtStop(m, pos, size)
    requires var r := ParseInterfaces(m, pos, size, count, extra, bigEndian);
             r.Parsed? && GoodInterfaces(r.value.interfaces)
    ensures var r := ParseInterfaces(m, pos, size, count, extra, bigEndian);
            && extra <= r.value.extra
            && (AtStop(m, pos, size) ==> r.value.extra == extra)
            && Holds(m, pos, r.value.extra[|extra|..])
            && Holds(m, pos + |r.value.extra| - |extra|, LayInterfaces(r.value.interfaces, bigEndian))
    decreases count
  {
    hide ParseInterfacePass, GoodAlts, LayInterface, Holds, AtStop;
    var r := ParseInterfaces(m, pos, size, count, extra, bigEndian);
    if count == 0 {
      NoExtra(m, pos);
      assert extra[|extra|..] == [];
    } else {
      var first := ParseInterfacePass(m, pos, size, bigEndian);
      var pos', size' := pos + first.consumed, size - first.consumed;
      var found := first.value.found;
      var extra' := if extra == [] then found else extra;
      var rest := ParseInterfaces(m, pos', size', count - 1, extra', bigEndian);
      GoodFirst(r.value.interfaces);
      assert r.value.interfaces[1..] == rest.value.interfaces;
      ParseInterfacePassStops(m, pos, size, bigEndian);
      PassLaysBack(m, pos, size, bigEndian);
      InterfacesLayBack(m, pos', size', count - 1, extra', bigEndian);
      var lay := LayInterface(first.value.alts, bigEndian);
      assert r.value.extra[|extra|..] == found;
      HoldsParts(m, pos, found, lay);
      HoldsParts(m, pos + |found|, lay, LayInterfaces(rest.value.interfaces, bigEndian));
    }
  }

  lemma GoodFirst(ifs: seq<seq<AltSetting>>)
    requires GoodInterfaces(ifs) && ifs != []
    ensures GoodInterface(ifs[0]) && GoodInterfaces(ifs[1..])
  {
    assert ifs[0] in ifs;
  }

  lemma ParsedWasLaidOut(m: Memory, c: Config, bigEndian: bool)
    requires WellFormed(c, bigEndian)
    ensures ParseConfiguration(m, bigEndian) == Leftover(c, 0) ==> Holds(m, 0, Lay(c, bigEndian))
  {
    hide ParseInterfaces, LayInterfaces, GoodInterfaces, Separated, GoodExtra, Holds, ConfigBytes;
    if ParseConfiguration(m, bigEndian) == Leftover(c, 0) {
      var head, body := ConfigBytes(c, bigEndian), LayInterfaces(c.interfaces, bigEndian);
      ConfigFieldsRoundTrip(m, c, bigEndian);
      InterfacesLayBack(m, 9, c.wTotalLength - 9, c.bNumInterfaces, [], bigEndian);
      assert c.extra[0..] == c.extra;
      HoldsParts(m, 0, head, c.extra);
      HoldsParts(m, 0, head + c.extra, body);
    }
  }

  // For a well-formed tree the parser accepts exactly its layout.
  lemma ParsesExactlyItsLayout(m: Memory, c: Config, bigEndian: bool)
    requires WellFormed(c, bigEndian)
    ensures ParseConfiguration(m, bigEndian) == Leftover(c, 0) <==> Holds(m, 0, Lay(c, bigEndian))
  {
    if Holds(m, 0, Lay(c, bigEndian)) {
      LaidOutParsesBack(m, c, bigEndian);
    }
    ParsedWasLaidOut(m, c, bigEndian);
  }
}
