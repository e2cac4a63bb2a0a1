// The configuration-descriptor parser of libusb (descriptor.c): three nested parsers that share
// one size budget.  It implements sections 9.6.3, 9.6.5 and 9.6.6 of the USB 2.0 specification.
// This module gives the meaning of each parser as a function of the memory it reads.
module Descriptor {

  type byte = x: int | 0 <= x < 256
  type word = x: int | 0 <= x < 65536

  // The bytes at and after the start of the buffer.  Memory is total: the parser sometimes looks
  // at a byte past the end of the descriptor, and what it then finds is arbitrary.
  type Memory = nat -> byte

  const DT_DEVICE: int := 1
  const DT_CONFIG: int := 2
  const DT_INTERFACE: int := 4
  const DT_ENDPOINT: int := 5

  const HEADER_LENGTH: int := 2
  const INTERFACE_LENGTH: int := 9
  const ENDPOINT_LENGTH: int := 7
  const ENDPOINT_AUDIO_LENGTH: int := 9
  const MAX_ENDPOINTS: int := 32
  const MAX_INTERFACES: int := 32

  datatype Endpoint = Endpoint(
    bLength: byte, bDescriptorType: byte, bEndpointAddress: byte, bmAttributes: byte,
    wMaxPacketSize: word, bInterval: byte, bRefresh: byte, bSynchAddress: byte,
    extra: seq<byte>)

  datatype AltSetting = AltSetting(
    bLength: byte, bDescriptorType: byte, bInterfaceNumber: byte, bAlternateSetting: byte,
    bNumEndpoints: byte, bInterfaceClass: byte, bInterfaceSubClass: byte, bInterfaceProtocol: byte,
    iInterface: byte,
    extra: seq<byte>, endpoints: seq<Endpoint>)

  datatype Config = Config(
    bLength: byte, bDescriptorType: byte, wTotalLength: word, bNumInterfaces: byte,
    bConfigurationValue: byte, iConfiguration: byte, bmAttributes: byte, maxPower: byte,
    extra: seq<byte>, interfaces: seq<seq<AltSetting>>)

  // What a parser returns: a negative error, or a value and the number of bytes it consumed.
  datatype Parsed<+T> = Failed | Parsed(value: T, consumed: nat)

  // What parse_configuration returns: a negative error, or the configuration and the bytes left.
  datatype Outcome = Failure | Leftover(config: Config, size: int)

  // An endpoint slot as calloc leaves it
  const ZERO_ENDPOINT := Endpoint(0, 0, 0, 0, 0, 0, 0, 0, [])

  // A 16-bit field; bigEndian is set when the caller passes host-endian data on a big-endian host.
  function Word(m: Memory, pos: nat, bigEndian: bool): word {
    if bigEndian then m(pos) * 256 + m(pos + 1) else m(pos + 1) * 256 + m(pos)
  }

  function Bytes(m: Memory, pos: nat, n: nat): (r: seq<byte>)
    ensures |r| == n
    ensures forall i :: 0 <= i < n ==> r[i] == m(pos + i)
  {
    seq(n, i requires 0 <= i < n => m(pos + i))
  }

  // The descriptor types that end a run of class-specific and vendor-specific descriptors
  predicate Proper(descriptorType: int) {
    descriptorType in {DT_ENDPOINT, DT_INTERFACE, DT_CONFIG, DT_DEVICE}
  }

  // Where a skip loop stops: at a proper header already known to be at least 2 bytes long, or with
  // too few bytes left for a header.
  predicate AtStop(m: Memory, pos: nat, size: int) {
    size < HEADER_LENGTH || (m(pos) >= 2 && Proper(m(pos + 1)))
  }

  // The skip loop of parse_endpoint and parse_interface; strict adds the length check that only
  // parse_configuration makes.
  function SkipUnknown(m: Memory, pos: nat, size: int, strict: bool): (r: Parsed<()>)
    decreases size
  {
    if size < HEADER_LENGTH then Parsed((), 0)
    else if m(pos) < 2 || (strict && m(pos) > size) then Failed
    else if Proper(m(pos + 1)) then Parsed((), 0)
    else
      var rest := SkipUnknown(m, pos + m(pos), size - m(pos), strict);
      if rest.Failed? then Failed else Parsed((), m(pos) + rest.consumed)
  }

  function EndpointFields(m: Memory, pos: nat, bigEndian: bool): Endpoint {
    if m(pos) >= ENDPOINT_AUDIO_LENGTH then
      Endpoint(m(pos), m(pos + 1), m(pos + 2), m(pos + 3), Word(m, pos + 4, bigEndian), m(pos + 6),
               m(pos + 7), m(pos + 8), [])
    else if m(pos) >= ENDPOINT_LENGTH then
      Endpoint(m(pos), m(pos + 1), m(pos + 2), m(pos + 3), Word(m, pos + 4, bigEndian), m(pos + 6), 0, 0, [])
    else ZERO_ENDPOINT
  }

  function ParseEndpoint(m: Memory, pos: nat, size: int, bigEndian: bool): Parsed<Endpoint> {
    if m(pos) > size then Failed
    else if m(pos + 1) != DT_ENDPOINT then Parsed(ZERO_ENDPOINT, 0)
    else
      var len := m(pos);
      var skip := SkipUnknown(m, pos + len, size - len, false);
      if skip.Failed? then Failed
      else Parsed(EndpointFields(m, pos, bigEndian).(extra := Bytes(m, pos + len, skip.consumed)),
                  len + skip.consumed)
  }

  // The bNumEndpoints endpoints of one alternate setting
  function ParseEndpoints(m: Memory, pos: nat, size: int, count: nat, bigEndian: bool): (r: Parsed<seq<Endpoint>>)
    ensures r.Parsed? ==> |r.value| == count
    decreases count
  {
    if count == 0 then Parsed([], 0)
    else
      var first := ParseEndpoint(m, pos, size, bigEndian);
      if first.Failed? then Failed
      else
        var rest := ParseEndpoints(m, pos + first.consumed, size - first.consumed, count - 1, bigEndian);
        if rest.Failed? then Failed
        else Parsed([first.value] + rest.value, first.consumed + rest.consumed)
  }

  function AltFields(m: Memory, pos: nat): AltSetting {
    AltSetting(m(pos), m(pos + 1), m(pos + 2), m(pos + 3), m(pos + 4), m(pos + 5), m(pos + 6), m(pos + 7),
               m(pos + 8), [], [])
  }

  // One pass of parse_interface's loop: an alternate setting with its extras and endpoints.  The
  // flag says that the pass met a config or device descriptor, at which parse_interface returns.
  datatype AltPass = AltPass(alt: AltSetting, ended: bool)

  function ParseAlt(m: Memory, pos: nat, size: int, bigEndian: bool): Parsed<AltPass> {
    var len := m(pos);
    var skip := SkipUnknown(m, pos + len, size - len, false);
    if skip.Failed? then Failed
    else
      var alt := AltFields(m, pos).(extra := Bytes(m, pos + len, skip.consumed));
      var pos' := pos + len + skip.consumed;
      var size' := size - len - skip.consumed;
      if size' >= HEADER_LENGTH && (m(pos' + 1) == DT_CONFIG || m(pos' + 1) == DT_DEVICE) then
        Parsed(AltPass(alt, true), len + skip.consumed)
      else if alt.bNumEndpoints > MAX_ENDPOINTS then Failed
      else
        var eps := ParseEndpoints(m, pos', size', alt.bNumEndpoints, bigEndian);
        if eps.Failed? then Failed
        else Parsed(AltPass(alt.(endpoints := eps.value), false), len + skip.consumed + eps.consumed)
  }

  // The next descriptor is a further alternate setting of the same interface.
  predicate MoreAlts(m: Memory, pos: nat, size: int) {
    size >= INTERFACE_LENGTH && m(pos + 1) == DT_INTERFACE && m(pos + 3) != 0
  }

  // Nothing in this function checks that the alternate setting it starts at is at least two bytes
  // long; the skip loops that ran before it did.
  function ParseInterface(m: Memory, pos: nat, size: int, bigEndian: bool): (r: Parsed<seq<AltSetting>>)
    requires AtStop(m, pos, size)
    decreases size
  {
    if size < INTERFACE_LENGTH then Parsed([], 0)
    else
      var first := ParseAlt(m, pos, size, bigEndian);
      if first.Failed? then Failed
      else
        ParseAltStops(m, pos, size, bigEndian);
        var pos' := pos + first.consumed;
        var size' := size - first.consumed;
        if first.value.ended || !MoreAlts(m, pos', size') then Parsed([first.value.alt], first.consumed)
        else
          var rest := ParseInterface(m, pos', size', bigEndian);
          if rest.Failed? then Failed
          else Parsed([first.value.alt] + rest.value, first.consumed + rest.consumed)
  }

  // One pass of parse_configuration's loop: the extras found in front of an interface, and the
  // interface.
  datatype InterfacePass = InterfacePass(found: seq<byte>, alts: seq<AltSetting>)

  function ParseInterfacePass(m: Memory, pos: nat, size: int, bigEndian: bool): Parsed<InterfacePass> {
    var skip := SkipUnknown(m, pos, size, true);
    if skip.Failed? then Failed
    else
      SkipStops(m, pos, size, true);
      var r := ParseInterface(m, pos + skip.consumed, size - skip.consumed, bigEndian);
      if r.Failed? then Failed
      else Parsed(InterfacePass(Bytes(m, pos, skip.consumed), r.value), skip.consumed + r.consumed)
  }

  datatype Interfaces = Interfaces(extra: seq<byte>, interfaces: seq<seq<AltSetting>>)

  // The loop of parse_configuration.  extra is what has been stored so far: later finds are dropped
  // once something is stored.
  function ParseInterfaces(m: Memory, pos: nat, size: int, count: nat, extra: seq<byte>, bigEndian: bool):
    Parsed<Interfaces>
    decreases count
  {
    if count == 0 then Parsed(Interfaces(extra, []), 0)
    else
      var first := ParseInterfacePass(m, pos, size, bigEndian);
      if first.Failed? then Failed
      else
        var extra' := if extra == [] then first.value.found else extra;
        var rest := ParseInterfaces(m, pos + first.consumed, size - first.consumed, count - 1, extra', bigEndian);
        if rest.Failed? then Failed
        else Parsed(Interfaces(rest.value.extra, [first.value.alts] + rest.value.interfaces),
                    first.consumed + rest.consumed)
  }

  function ConfigFields(m: Memory, bigEndian: bool): Config {
    Config(m(0), m(1), Word(m, 2, bigEndian), m(4), m(5), m(6), m(7), m(8), [], [])
  }

  function ParseConfiguration(m: Memory, bigEndian: bool): Outcome {
    var config := ConfigFields(m, bigEndian);
    if config.bNumInterfaces > MAX_INTERFACES then Failure
    else
      var body := ParseInterfaces(m, config.bLength, config.wTotalLength - config.bLength, config.bNumInterfaces,
                                  [], bigEndian);
      if body.Failed? then Failure
      else Leftover(config.(extra := body.value.extra, interfaces := body.value.interfaces),
                    config.wTotalLength - config.bLength - body.consumed)
  }

  // ----- one turn of the loops

  lemma OneEndpoint(m: Memory, pos: nat, size: int, count: nat, bigEndian: bool)
    requires count > 0
    ensures var first := ParseEndpoint(m, pos, size, bigEndian);
            && (first.Failed? ==> ParseEndpoints(m, pos, size, count, bigEndian).Failed?)
            && (first.Parsed? ==>
                  var rest := ParseEndpoints(m, pos + first.consumed, size - first.consumed, count - 1, bigEndian);
                  ParseEndpoints(m, pos, size, count, bigEndian) ==
                  if rest.Failed? then Failed
                  else Parsed([first.value] + rest.value, first.consumed + rest.consumed))
  {
    hide ParseEndpoint;
  }

  lemma OneAlt(m: Memory, pos: nat, size: int, bigEndian: bool)
    requires AtStop(m, pos, size) && size >= INTERFACE_LENGTH
    ensures var first, all := ParseAlt(m, pos, size, bigEndian), ParseInterface(m, pos, size, bigEndian);
            && (first.Failed? ==> all.Failed?)
            && (first.Parsed? && (first.value.ended || !MoreAlts(m, pos + first.consumed, size - first.consumed)) ==>
                  all == Parsed([first.value.alt], first.consumed))
            && (first.Parsed? && !first.value.ended && MoreAlts(m, pos + first.consumed, size - first.consumed) ==>
                  && AtStop(m, pos + first.consumed, size - first.consumed)
                  && var rest := ParseInterface(m, pos + first.consumed, size - first.consumed, bigEndian);
                     all == if rest.Failed? then Failed
                            else Parsed([first.value.alt] + rest.value, first.consumed + rest.consumed))
  {
    hide ParseAlt, AtStop, MoreAlts;
    ParseAltStops(m, pos, size, bigEndian);
  }

  lemma OnePass(m: Memory, pos: nat, size: int, count: nat, extra: seq<byte>, bigEndian: bool)
    requires count > 0
    ensures var first := ParseInterfacePass(m, pos, size, bigEndian);
            && (first.Failed? ==> ParseInterfaces(m, pos, size, count, extra, bigEndian).Failed?)
            && (first.Parsed? ==>
                  var extra' := if extra == [] then first.value.found else extra;
                  var rest := ParseInterfaces(m, pos + first.consumed, size - first.consumed, count - 1, extra',
                                              bigEndian);
                  ParseInterfaces(m, pos, size, count, extra, bigEndian) ==
                  if rest.Failed? then Failed
                  else Parsed(Interfaces(rest.value.extra, [first.value.alts] + rest.value.interfaces),
                              first.consumed + rest.consumed))
  {
    hide ParseInterfacePass;
  }

  lemma NoPass(m: Memory, pos: nat, size: int, extra: seq<byte>, bigEndian: bool)
    ensures ParseInterfaces(m, pos, size, 0, extra, bigEndian) == Parsed(Interfaces(extra, []), 0)
  {
  }

  // ----- where the parsers stop

  lemma {:induction false} SkipStops(m: Memory, pos: nat, size: int, strict: bool)
    ensures var r := SkipUnknown(m, pos, size, strict);
            r.Parsed? ==> AtStop(m, pos + r.consumed, size - r.consumed)
    decreases size
  {
    if size >= HEADER_LENGTH && m(pos) >= 2 && !Proper(m(pos + 1)) {
      SkipStops(m, pos + m(pos), size - m(pos), strict);
    }
  }

  lemma ParseEndpointStops(m: Memory, pos: nat, size: int, bigEndian: bool)
    requires AtStop(m, pos, size)
    ensures var r := ParseEndpoint(m, pos, size, bigEndian);
            r.Parsed? ==> AtStop(m, pos + r.consumed, size - r.consumed)
  {
    SkipStops(m, pos + m(pos), size - m(pos), false);
  }

  lemma {:induction false} ParseEndpointsStop(m: Memory, pos: nat, size: int, count: nat, bigEndian: bool)
    requires AtStop(m, pos, size)
    ensures var r := ParseEndpoints(m, pos, size, count, bigEndian);
            r.Parsed? ==> AtStop(m, pos + r.consumed, size - r.consumed)
    decreases count
  {
    hide ParseEndpoint, AtStop;
    if count > 0 {
      var first := ParseEndpoint(m, pos, size, bigEndian);
      if first.Parsed? {
        ParseEndpointStops(m, pos, size, bigEndian);
        ParseEndpointsStop(m, pos + first.consumed, size - first.consumed, count - 1, bigEndian);
      }
    }
  }

  // One pass over an alternate setting consumes at least two bytes and stops at a header that has
  // been checked, so the next pass will too.
  lemma ParseAltStops(m: Memory, pos: nat, size: int, bigEndian: bool)
    requires AtStop(m, pos, size) && size >= INTERFACE_LENGTH
    ensures var r := ParseAlt(m, pos, size, bigEndian);
            r.Parsed? ==> r.consumed >= 2 && AtStop(m, pos + r.consumed, size - r.consumed)
  {
    hide SkipUnknown, ParseEndpoints;
    var len := m(pos);
    var skip := SkipUnknown(m, pos + len, size - len, false);
    SkipStops(m, pos + len, size - len, false);
    if skip.Parsed? {
      var pos', size' := pos + len + skip.consumed, size - len - skip.consumed;
      ParseEndpointsStop(m, pos', size', m(pos + 4), bigEndian);
    }
  }

  lemma {:induction false} ParseInterfaceStops(m: Memory, pos: nat, size: int, bigEndian: bool)
    requires AtStop(m, pos, size)
    ensures var r := ParseInterface(m, pos, size, bigEndian);
            r.Parsed? ==> r.consumed >= 2 * |r.value| && AtStop(m, pos + r.consumed, size - r.consumed)
    decreases size
  {
    hide ParseAlt, AtStop, MoreAlts;
    if size >= INTERFACE_LENGTH {
      ParseAltStops(m, pos, size, bigEndian);
      var first := ParseAlt(m, pos, size, bigEndian);
      if first.Parsed? && !first.value.ended && MoreAlts(m, pos + first.consumed, size - first.consumed) {
        ParseInterfaceStops(m, pos + first.consumed, size - first.consumed, bigEndian);
      }
    }
  }

  // A pass over an interface stops at a checked header; if it started at one, it finds no extras.
  lemma ParseInterfacePassStops(m: Memory, pos: nat, size: int, bigEndian: bool)
    ensures var r := ParseInterfacePass(m, pos, size, bigEndian);
            r.Parsed? ==>
              && AtStop(m, pos + r.consumed, size - r.consumed)
              && (AtStop(m, pos, size) ==> r.value.found == [])
  {
    var skip := SkipUnknown(m, pos, size, true);
    SkipStops(m, pos, size, true);
    hide ParseInterface;
    if skip.Parsed? {
      ParseInterfaceStops(m, pos + skip.consumed, size - skip.consumed, bigEndian);
    }
  }
}
