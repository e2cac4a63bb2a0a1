// The parsers of descriptor.c as they run: loops that advance buffer, size and parsed.  Each is
// proved to compute the function of module Descriptor that gives its meaning.
module DescriptorLoops {
  import opened Descriptor

  const ERROR_IO: int := -1

  // What the caller of a parser sees: a negative error, or the bytes consumed and the value.
  predicate Reports<T(==)>(r: int, value: T, meaning: Parsed<T>) {
    if meaning.Failed? then r < 0 else r == meaning.consumed && value == meaning.value
  }

  // What a loop has gathered so far, followed by what the rest of the buffer still yields.
  function Prepend<T>(done: seq<T>, consumed: nat, rest: Parsed<seq<T>>): Parsed<seq<T>> {
    if rest.Failed? then Failed else Parsed(done + rest.value, consumed + rest.consumed)
  }

  lemma PrependNothing<T>(rest: Parsed<seq<T>>)
    ensures Prepend([], 0, rest) == rest
  {
    if rest.Parsed? {
      assert [] + rest.value == rest.value;
    }
  }

  lemma PrependOne<T>(done: seq<T>, consumed: nat, x: T, n: nat, rest: Parsed<seq<T>>)
    ensures Prepend(done, consumed, Prepend([x], n, rest)) == Prepend(done + [x], consumed + n, rest)
  {
    if rest.Parsed? {
      assert done + ([x] + rest.value) == done + [x] + rest.value;
    }
  }

  lemma PrependIsCons<T>(x: T, n: nat, rest: Parsed<seq<T>>)
    ensures Prepend([x], n, rest) == if rest.Failed? then Failed else Parsed([x] + rest.value, n + rest.consumed)
  {
  }

  lemma PrependFailure<T>(done: seq<T>, consumed: nat)
    ensures Prepend(done, consumed, Failed).Failed?
  {
  }

  lemma PrependToEnd<T>(done: seq<T>, consumed: nat)
    ensures Prepend(done, consumed, Parsed([], 0)) == Parsed(done, consumed)
  {
    assert done + [] == done;
  }

  // The loop that skips class-specific and vendor-specific descriptors; strict is the form of
  // parse_configuration, which also checks the length against the bytes left.
  method SkipDescriptors(m: Memory, start: nat, available: int, strict: bool) returns (ok: bool, buffer: nat)
    ensures ok == SkipUnknown(m, start, available, strict).Parsed?
    ensures ok ==> buffer == start + SkipUnknown(m, start, available, strict).consumed
  {
    buffer := start;
    var size := available;
    while size >= HEADER_LENGTH
      invariant start <= buffer && size == available - (buffer - start)
      invariant var rest := SkipUnknown(m, buffer, size, strict);
                SkipUnknown(m, start, available, strict) ==
                if rest.Failed? then Failed else Parsed((), buffer - start + rest.consumed)
      decreases size
    {
      var bLength, bDescriptorType := m(buffer), m(buffer + 1);
      if bLength < 2 || (strict && bLength > size) {
        return false, buffer;
      }
      if Proper(bDescriptorType) {
        break;
      }
      buffer := buffer + bLength;
      size := size - bLength;
    }
    ok := true;
  }

  // parse_endpoint
  method ReadEndpoint(m: Memory, start: nat, available: int, bigEndian: bool) returns (r: int, endpoint: Endpoint)
    ensures Reports(r, endpoint, ParseEndpoint(m, start, available, bigEndian))
  {
    endpoint := ZERO_ENDPOINT;
    var bLength, bDescriptorType := m(start), m(start + 1);
    if bLength > available {
      return ERROR_IO, endpoint;
    }
    if bDescriptorType != DT_ENDPOINT {
      return 0, endpoint;
    }
    endpoint := EndpointFields(m, start, bigEndian);
    var begin := start + bLength;
    var ok, buffer := SkipDescriptors(m, begin, available - bLength, false);
    if !ok {
      return ERROR_IO, endpoint;
    }
    endpoint := endpoint.(extra := Bytes(m, begin, buffer - begin));
    r := buffer - start;
  }

  // The endpoint loop of parse_interface
  method ReadEndpoints(m: Memory, start: nat, available: int, count: nat, bigEndian: bool)
    returns (r: int, endpoints: seq<Endpoint>)
    ensures Reports(r, endpoints, ParseEndpoints(m, start, available, count, bigEndian))
  {
    hide ParseEndpoint, ParseEndpoints, Prepend;
    var parsed: nat := 0;
    endpoints := [];
    PrependNothing(ParseEndpoints(m, start, available, count, bigEndian));
    for i := 0 to count
      invariant Prepend(endpoints, parsed, ParseEndpoints(m, start + parsed, available - parsed, count - i, bigEndian))
             == ParseEndpoints(m, start, available, count, bigEndian)
    {
      OneEndpoint(m, start + parsed, available - parsed, count - i, bigEndian);
      PrependFailure(endpoints, parsed);
      if m(start + parsed) > available - parsed {
        LongHeaderFails(m, start + parsed, available - parsed, bigEndian);
        return ERROR_IO, endpoints;
      }
      var n, endpoint := ReadEndpoint(m, start + parsed, available - parsed, bigEndian);
      if n < 0 {
        return n, endpoints;
      }
      ghost var rest := ParseEndpoints(m, start + parsed + n, available - parsed - n, count - i - 1, bigEndian);
      PrependIsCons(endpoint, n, rest);
      PrependOne(endpoints, parsed, endpoint, n, rest);
      endpoints := endpoints + [endpoint];
      parsed := parsed + n;
    }
    NoEndpointsLeft(m, start + parsed, available - parsed, bigEndian);
    PrependToEnd(endpoints, parsed);
    r := parsed;
  }

  lemma NoEndpointsLeft(m: Memory, pos: nat, size: int, bigEndian: bool)
    ensures ParseEndpoints(m, pos, size, 0, bigEndian) == Parsed([], 0)
  {
  }

  lemma LongHeaderFails(m: Memory, pos: nat, size: int, bigEndian: bool)
    requires m(pos) > size
    ensures ParseEndpoint(m, pos, size, bigEndian).Failed?
  {
  }

  // parse_interface
  method ReadInterface(m: Memory, start: nat, available: int, bigEndian: bool) returns (r: int, alts: seq<AltSetting>)
    requires AtStop(m, start, available)
    ensures Reports(r, alts, ParseInterface(m, start, available, bigEndian))
  {
    hide AtStop, ParseAlt, MoreAlts;
    var buffer, size, parsed: nat := start, available, 0;
    alts := [];
    PrependNothing(ParseInterface(m, start, available, bigEndian));
    while size >= INTERFACE_LENGTH
      invariant buffer == start + parsed && size == available - parsed && AtStop(m, buffer, size)
      invariant Prepend(alts, parsed, ParseInterface(m, buffer, size, bigEndian))
             == ParseInterface(m, start, available, bigEndian)
      decreases size
    {
      var n, pass := ReadAlt(m, buffer, size, bigEndian);
      if n < 0 {
        return n, alts;
      }
      ParseAltStops(m, buffer, size, bigEndian);
      PrependOne(alts, parsed, pass.alt, n, ParseInterface(m, buffer + n, size - n, bigEndian));
      alts := alts + [pass.alt];
      if pass.ended || !MoreAlts(m, buffer + n, size - n) {
        return parsed + n, alts;
      }
      buffer, size, parsed := buffer + n, size - n, parsed + n;
    }
    PrependToEnd(alts, parsed);
    r := parsed;
  }

  // One turn of parse_interface's loop
  method ReadAlt(m: Memory, start: nat, available: int, bigEndian: bool) returns (r: int, pass: AltPass)
    ensures Reports(r, pass, ParseAlt(m, start, available, bigEndian))
  {
    hide SkipUnknown, ParseEndpoints;
    var alt := AltFields(m, start);
    pass := AltPass(alt, false);
    var begin := start + alt.bLength;
    var ok, buffer := SkipDescriptors(m, begin, available - alt.bLength, false);
    if !ok {
      return ERROR_IO, pass;
    }
    var size := available - (buffer - start);
    alt := alt.(extra := Bytes(m, begin, buffer - begin));
    if size >= HEADER_LENGTH && (m(buffer + 1) == DT_CONFIG || m(buffer + 1) == DT_DEVICE) {
      return buffer - start, AltPass(alt, true);
    }
    if alt.bNumEndpoints > MAX_ENDPOINTS {
      return ERROR_IO, pass;
    }
    var n, endpoints := ReadEndpoints(m, buffer, size, alt.bNumEndpoints, bigEndian);
    if n < 0 {
      return n, pass;
    }
    return buffer - start + n, AltPass(alt.(endpoints := endpoints), false);
  }

  // One turn of parse_configuration's loop: the extras in front of an interface, and the interface
  method ReadInterfacePass(m: Memory, buffer: nat, size: int, bigEndian: bool)
    returns (ok: bool, skipped: nat, consumed: nat, alts: seq<AltSetting>)
    ensures ParseInterfacePass(m, buffer, size, bigEndian) ==
            if ok then Parsed(InterfacePass(Bytes(m, buffer, skipped), alts), consumed) else Failed
  {
    hide ParseInterfacePass, ParseInterface, SkipUnknown, AtStop;
    PassMeaning(m, buffer, size, bigEndian);
    skipped, consumed, alts := 0, 0, [];
    var begin;
    ok, begin := SkipDescriptors(m, buffer, size, true);
    if ok {
      var n;
      skipped := begin - buffer;
      n, alts := ReadInterface(m, begin, size - skipped, bigEndian);
      if n < 0 {
        ok := false;
      } else {
        consumed := skipped + n;
      }
    }
  }

  // parse_configuration: the value returned is the number of bytes left, which may be negative
  // even on success, so success is reported separately.
  method ReadConfiguration(m: Memory, bigEndian: bool) returns (ok: bool, size: int, config: Config)
    ensures ParseConfiguration(m, bigEndian) == if ok then Leftover(config, size) else Failure
  {
    hide ParseInterfacePass, Gathered, ConfigFields;
    config := ConfigFields(m, bigEndian);
    var first, total: int := config.bLength, config.wTotalLength - config.bLength;
    size := total;
    if config.bNumInterfaces > MAX_INTERFACES {
      return false, size, config;
    }
    var buffer: nat := first;
    var extra: seq<byte>, interfaces: seq<seq<AltSetting>> := [], [];
    GatheredNothing(ParseInterfaces(m, first, total, config.bNumInterfaces, [], bigEndian));
    for i := 0 to config.bNumInterfaces
      invariant first <= buffer && buffer - first == total - size
      invariant Gathered(interfaces, buffer - first,
                         ParseInterfaces(m, buffer, size, config.bNumInterfaces - i, extra, bigEndian))
             == ParseInterfaces(m, first, total, config.bNumInterfaces, [], bigEndian)
    {
      GatheredFailure(interfaces, buffer - first);
      var found, skipped, n, alts := ReadInterfacePass(m, buffer, size, bigEndian);
      if !found {
        return false, size, config;
      }
      if extra == [] {
        extra := Bytes(m, buffer, skipped);
      }
      GatheredOne(interfaces, buffer - first, alts, n,
                  ParseInterfaces(m, buffer + n, size - n, config.bNumInterfaces - i - 1, extra, bigEndian));
      interfaces := interfaces + [alts];
      buffer, size := buffer + n, size - n;
    }
    GatheredToEnd(interfaces, buffer - first, extra);
    config := config.(extra := extra, interfaces := interfaces);
    ok := true;
  }

  // What parse_configuration's loop has gathered, followed by what is still to come.
  function Gathered(done: seq<seq<AltSetting>>, consumed: nat, rest: Parsed<Interfaces>): Parsed<Interfaces> {
    if rest.Failed? then Failed
    else Parsed(Interfaces(rest.value.extra, done + rest.value.interfaces), consumed + rest.consumed)
  }

  lemma GatheredNothing(rest: Parsed<Interfaces>)
    ensures Gathered([], 0, rest) == rest
  {
    if rest.Parsed? {
      assert [] + rest.value.interfaces == rest.value.interfaces;
    }
  }

  lemma GatheredOne(done: seq<seq<AltSetting>>, consumed: nat, x: seq<AltSetting>, n: nat, rest: Parsed<Interfaces>)
    ensures Gathered(done, consumed,
                     if rest.Failed? then Failed
                     else Parsed(Interfaces(rest.value.extra, [x] + rest.value.interfaces), n + rest.consumed))
         == Gathered(done + [x], consumed + n, rest)
  {
    if rest.Parsed? {
      assert done + ([x] + rest.value.interfaces) == done + [x] + rest.value.interfaces;
    }
  }

  lemma GatheredToEnd(done: seq<seq<AltSetting>>, consumed: nat, extra: seq<byte>)
    ensures Gathered(done, consumed, Parsed(Interfaces(extra, []), 0)) == Parsed(Interfaces(extra, done), consumed)
  {
    assert done + [] == done;
  }

  lemma GatheredFailure(done: seq<seq<AltSetting>>, consumed: nat)
    ensures Gathered(done, consumed, Failed).Failed?
  {
  }

  lemma PassMeaning(m: Memory, pos: nat, size: int, bigEndian: bool)
    ensures var skip := SkipUnknown(m, pos, size, true);
            && (skip.Failed? ==> ParseInterfacePass(m, pos, size, bigEndian).Failed?)
            && (skip.Parsed? ==>
                  && AtStop(m, pos + skip.consumed, size - skip.consumed)
                  && var r := ParseInterface(m, pos + skip.consumed, size - skip.consumed, bigEndian);
                  ParseInterfacePass(m, pos, size, bigEndian) ==
                  if r.Failed? then Failed
                  else Parsed(InterfacePass(Bytes(m, pos, skip.consumed), r.value), skip.consumed + r.consumed))
  {
    hide SkipUnknown, AtStop, ParseInterface;
    SkipStops(m, pos, size, true);
  }
}
