// Which bytes the configuration parser refuses, what it skips, and what it takes from an endpoint descriptor of
// any length.  All of it is in the numbers of the USB 2.0 specification: descriptor types 1, 2, 4 and 5
// (table 9-5) and lengths 9 and 7 (sections 9.6.5 and 9.6.6); audio endpoint descriptors have 9 bytes.
module DescriptorRejects {
  import opened Descriptor

  // ----- skipping

  // Where n descriptors that follow each other end
  function Jump(m: Memory, pos: nat, n: nat): (end: nat)
    ensures end >= pos
    decreases n
  {
    if n == 0 then pos else Jump(m, pos + m(pos), n - 1)
  }

  // A class-specific or vendor-specific descriptor, with `left` bytes up to the end
  predicate IsSkipped(m: Memory, pos: nat, left: int, strict: bool) {
    left >= 2 && m(pos) >= 2 && (strict ==> m(pos) <= left) && m(pos + 1) !in {1, 2, 4, 5}
  }

  // A header that is too short, or, for the strict loop, of a descriptor that does not fit
  predicate IsRefused(m: Memory, pos: nat, left: int, strict: bool) {
    left >= 2 && (m(pos) < 2 || (strict && m(pos) > left))
  }

  predicate IsNext(m: Memory, pos: nat, left: int, strict: bool) {
    left < 2 || (m(pos) >= 2 && (strict ==> m(pos) <= left) && m(pos + 1) in {1, 2, 4, 5})
  }

  // n descriptors can be skipped.
  predicate Skips(m: Memory, pos: nat, size: int, strict: bool, n: nat)
    decreases n
  {
    n == 0 || (IsSkipped(m, pos, size, strict) && Skips(m, pos + m(pos), size - m(pos), strict, n - 1))
  }

  // After n descriptors that can be skipped there comes a header that is refused.
  predicate RefusedAfter(m: Memory, pos: nat, size: int, strict: bool, n: nat) {
    var end := Jump(m, pos, n);
    Skips(m, pos, size, strict, n) && IsRefused(m, end, size - (end - pos), strict)
  }

  ghost predicate SkipRefused(m: Memory, pos: nat, size: int, strict: bool) {
    exists n: nat :: RefusedAfter(m, pos, size, strict, n)
  }

  // The skip loop fails exactly at such a header; otherwise it skips all that can be, and stops before what
  // comes next.
  lemma SkipExactly(m: Memory, pos: nat, size: int, strict: bool)
    ensures var r := SkipUnknown(m, pos, size, strict);
            && (r.Failed? <==> SkipRefused(m, pos, size, strict))
            && (r.Parsed? ==>
                  && IsNext(m, pos + r.consumed, size - r.consumed, strict)
                  && exists n: nat :: Skips(m, pos, size, strict, n) && Jump(m, pos, n) == pos + r.consumed)
  {
    hide IsRefused, IsNext, Skips;
    var n := SkipOutcome(m, pos, size, strict);
    assert SkipUnknown(m, pos, size, strict).Failed? ==> RefusedAfter(m, pos, size, strict, n);
    forall n: nat | RefusedAfter(m, pos, size, strict, n)
      ensures SkipUnknown(m, pos, size, strict).Failed?
    {
      SkipFails(m, pos, size, strict, n);
    }
  }

  lemma {:induction false} SkipOutcome(m: Memory, pos: nat, size: int, strict: bool) returns (n: nat)
    ensures var r, end := SkipUnknown(m, pos, size, strict), Jump(m, pos, n);
            && Skips(m, pos, size, strict, n)
            && (r.Failed? ==> IsRefused(m, end, size - (end - pos), strict))
            && (r.Parsed? ==> end == pos + r.consumed && IsNext(m, end, size - (end - pos), strict))
    decreases size
  {
    n := 0;
    if IsSkipped(m, pos, size, strict) {
      n := SkipOutcome(m, pos + m(pos), size - m(pos), strict);
      n := n + 1;
    }
  }

  lemma {:induction false} SkipFails(m: Memory, pos: nat, size: int, strict: bool, n: nat)
    requires RefusedAfter(m, pos, size, strict, n)
    ensures SkipUnknown(m, pos, size, strict).Failed?
    decreases n
  {
    if n > 0 {
      SkipFails(m, pos + m(pos), size - m(pos), strict, n - 1);
    }
  }

  // ----- refusing

  // An endpoint slot at which the parser fails: a descriptor that does not fit, or an endpoint descriptor with
  // something refused after it
  ghost predicate EndpointRefused(m: Memory, pos: nat, size: int) {
    m(pos) > size || (m(pos + 1) == 5 && SkipRefused(m, pos + m(pos), size - m(pos), false))
  }

  ghost predicate EndpointsRefused(m: Memory, pos: nat, size: int, count: nat, bigEndian: bool)
    decreases count
  {
    && count > 0
    && (|| EndpointRefused(m, pos, size)
        || (var first := ParseEndpoint(m, pos, size, bigEndian);
            && first.Parsed?
            && EndpointsRefused(m, pos + first.consumed, size - first.consumed, count - 1, bigEndian)))
  }

  // After an alternate setting and what can be skipped, a device or configuration descriptor ends the interface.
  predicate AltEnds(m: Memory, pos: nat, size: int) {
    size >= 2 && m(pos + 1) in {1, 2}
  }

  // An alternate setting at which the parser fails: something refused after it, more than 32 endpoints
  // announced, or one of them refused
  ghost predicate AltRefused(m: Memory, pos: nat, size: int, bigEndian: bool) {
    || SkipRefused(m, pos + m(pos), size - m(pos), false)
    || (var skip := SkipUnknown(m, pos + m(pos), size - m(pos), false);
        && skip.Parsed?
        && var pos', size' := pos + m(pos) + skip.consumed, size - m(pos) - skip.consumed;
           && !AltEnds(m, pos', size')
           && (m(pos + 4) > 32 || EndpointsRefused(m, pos', size', m(pos + 4), bigEndian)))
  }

  ghost predicate InterfaceRefused(m: Memory, pos: nat, size: int, bigEndian: bool)
    requires AtStop(m, pos, size)
    decreases size
  {
    && size >= 9
    && (|| AltRefused(m, pos, size, bigEndian)
        || (var first := ParseAlt(m, pos, size, bigEndian);
            ParseAltStops(m, pos, size, bigEndian);
            && first.Parsed? && !first.value.ended
            && var pos', size' := pos + first.consumed, size - first.consumed;
               && size' >= 9 && m(pos' + 1) == 4 && m(pos' + 3) != 0
               && InterfaceRefused(m, pos', size', bigEndian)))
  }

  ghost predicate PassRefused(m: Memory, pos: nat, size: int, bigEndian: bool) {
    || SkipRefused(m, pos, size, true)
    || (var skip := SkipUnknown(m, pos, size, true);
        SkipStops(m, pos, size, true);
        skip.Parsed? && InterfaceRefused(m, pos + skip.consumed, size - skip.consumed, bigEndian))
  }

  ghost predicate InterfacesRefused(m: Memory, pos: nat, size: int, count: nat, bigEndian: bool)
    decreases count
  {
    && count > 0
    && (|| PassRefused(m, pos, size, bigEndian)
        || (var first := ParseInterfacePass(m, pos, size, bigEndian);
            && first.Parsed?
            && InterfacesRefused(m, pos + first.consumed, size - first.consumed, count - 1, bigEndian)))
  }

  lemma EndpointRejects(m: Memory, pos: nat, size: int, bigEndian: bool)
    ensures ParseEndpoint(m, pos, size, bigEndian).Failed? <==> EndpointRefused(m, pos, size)
  {
    hide SkipUnknown, SkipRefused;
    SkipExactly(m, pos + m(pos), size - m(pos), false);
  }

  lemma {:induction false} EndpointsReject(m: Memory, pos: nat, size: int, count: nat, bigEndian: bool)
    ensures ParseEndpoints(m, pos, size, count, bigEndian).Failed? <==>
            EndpointsRefused(m, pos, size, count, bigEndian)
    decreases count
  {
    hide ParseEndpoint, EndpointRefused;
    if count > 0 {
      EndpointRejects(m, pos, size, bigEndian);
      var first := ParseEndpoint(m, pos, size, bigEndian);
      if first.Parsed? {
        EndpointsReject(m, pos + first.consumed, size - first.consumed, count - 1, bigEndian);
      }
    }
  }

  lemma AltRejects(m: Memory, pos: nat, size: int, bigEndian: bool)
    ensures var r, skip := ParseAlt(m, pos, size, bigEndian), SkipUnknown(m, pos + m(pos), size - m(pos), false);
            && (r.Failed? <==> AltRefused(m, pos, size, bigEndian))
            && (r.Parsed? ==>
                  skip.Parsed?
                  && (r.value.ended <==>
                        AltEnds(m, pos + m(pos) + skip.consumed, size - m(pos) - skip.consumed)))
  {
    hide SkipUnknown, SkipRefused, ParseEndpoints, EndpointsRefused;
    SkipExactly(m, pos + m(pos), size - m(pos), false);
    var skip := SkipUnknown(m, pos + m(pos), size - m(pos), false);
    if skip.Parsed? {
      EndpointsReject(m, pos + m(pos) + skip.consumed, size - m(pos) - skip.consumed, m(pos + 4), bigEndian);
    }
  }

  lemma {:induction false} InterfaceRejects(m: Memory, pos: nat, size: int, bigEndian: bool)
    requires AtStop(m, pos, size)
    ensures ParseInterface(m, pos, size, bigEndian).Failed? <==> InterfaceRefused(m, pos, size, bigEndian)
    decreases size
  {
    hide ParseAlt, AtStop, AltRefused;
    if size >= 9 {
      AltRejects(m, pos, size, bigEndian);
      ParseAltStops(m, pos, size, bigEndian);
      var first := ParseAlt(m, pos, size, bigEndian);
      if first.Parsed? && !first.value.ended && MoreAlts(m, pos + first.consumed, size - first.consumed) {
        InterfaceRejects(m, pos + first.consumed, size - first.consumed, bigEndian);
      }
    }
  }

  lemma PassRejects(m: Memory, pos: nat, size: int, bigEndian: bool)
    ensures ParseInterfacePass(m, pos, size, bigEndian).Failed? <==> PassRefused(m, pos, size, bigEndian)
  {
    hide SkipUnknown, SkipRefused, ParseInterface, InterfaceRefused, AtStop;
    SkipExactly(m, pos, size, true);
    SkipStops(m, pos, size, true);
    var skip := SkipUnknown(m, pos, size, true);
    if skip.Parsed? {
      InterfaceRejects(m, pos + skip.consumed, size - skip.consumed, bigEndian);
    }
  }

  lemma {:induction false} InterfacesReject(
    m: Memory, pos: nat, size: int, count: nat, extra: seq<byte>, bigEndian: bool)
    ensures ParseInterfaces(m, pos, size, count, extra, bigEndian).Failed? <==>
            InterfacesRefused(m, pos, size, count, bigEndian)
    decreases count
  {
    hide ParseInterfacePass, PassRefused, ParseInterfaces;
    if count == 0 {
      NoPass(m, pos, size, extra, bigEndian);
    } else {
      OnePass(m, pos, size, count, extra, bigEndian);
      PassRejects(m, pos, size, bigEndian);
      var first := ParseInterfacePass(m, pos, size, bigEndian);
      if first.Parsed? {
        InterfacesReject(m, pos + first.consumed, size - first.consumed, count - 1,
                         if extra == [] then first.value.found else extra, bigEndian);
      }
    }
  }

  // The parser fails exactly for more than 32 interfaces, or at something in them that is refused.
  lemma RejectsExactly(m: Memory, bigEndian: bool)
    ensures var total := if bigEndian then m(2) * 256 + m(3) else m(3) * 256 + m(2);
            ParseConfiguration(m, bigEndian) == Failure <==>
            m(4) > 32 || InterfacesRefused(m, m(0), total - m(0), m(4), bigEndian)
  {
    hide ParseInterfaces, InterfacesRefused;
    var c := ConfigFields(m, bigEndian);
    InterfacesReject(m, c.bLength, c.wTotalLength - c.bLength, c.bNumInterfaces, [], bigEndian);
  }

  // ----- endpoint descriptors of any length

  // What is stored of an endpoint descriptor: nothing below 7 bytes, the fields of the standard from there on,
  // and the two of an audio endpoint from 9 bytes on, however long the descriptor is
  lemma EndpointOfAnyLength(m: Memory, pos: nat, size: int, bigEndian: bool)
    ensures var r := ParseEndpoint(m, pos, size, bigEndian);
            r.Parsed? && m(pos + 1) == 5 ==>
              && r.consumed == m(pos) + |r.value.extra|
              && (forall i :: 0 <= i < |r.value.extra| ==> r.value.extra[i] == m(pos + m(pos) + i))
              && var e := r.value;
                 if m(pos) < 7 then e == Endpoint(0, 0, 0, 0, 0, 0, 0, 0, e.extra)
                 else
                   && [e.bLength, e.bDescriptorType, e.bEndpointAddress, e.bmAttributes, e.bInterval] ==
                      [m(pos), 5, m(pos + 2), m(pos + 3), m(pos + 6)]
                   && e.wMaxPacketSize == (if bigEndian then m(pos + 4) * 256 + m(pos + 5)
                                           else m(pos + 5) * 256 + m(pos + 4))
                   && (e.bRefresh, e.bSynchAddress) == (if m(pos) >= 9 then (m(pos + 7), m(pos + 8)) else (0, 0))
  {
    hide SkipUnknown;
  }
}
