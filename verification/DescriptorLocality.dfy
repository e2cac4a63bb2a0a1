// Which bytes the configuration parser depends on: it looks past wTotalLength only for endpoint
// descriptors that an interface announces but does not bring.
module DescriptorLocality {
  import opened Descriptor
  import opened DescriptorSlots

  // The two memories agree on the first `total` bytes.
  ghost predicate Agree(m: Memory, m': Memory, total: int) {
    forall i: nat :: i < total ==> m(i) == m'(i)
  }

  lemma AgreeSymmetric(m: Memory, m': Memory, total: int)
    requires Agree(m, m', total)
    ensures Agree(m', m, total)
  {
  }

  lemma ByteLocal(m: Memory, m': Memory, i: nat, total: int)
    requires Agree(m, m', total)
    ensures i < total ==> m(i) == m'(i)
  {
  }

  lemma BytesLocal(m: Memory, m': Memory, pos: nat, n: nat, total: int)
    requires Agree(m, m', total) && pos + n <= total
    ensures Bytes(m, pos, n) == Bytes(m', pos, n)
  {
  }

  lemma {:induction false} SkipLocal(m: Memory, m': Memory, pos: nat, size: int, strict: bool)
    requires Agree(m, m', pos + size)
    ensures SkipUnknown(m, pos, size, strict) == SkipUnknown(m', pos, size, strict)
    decreases size
  {
    if size >= HEADER_LENGTH && m(pos) >= 2 && !Proper(m(pos + 1)) {
      SkipLocal(m, m', pos + m(pos), size - m(pos), strict);
    }
  }

  lemma AltFieldsLocal(m: Memory, m': Memory, pos: nat, total: int)
    requires Agree(m, m', total) && pos + INTERFACE_LENGTH <= total
    ensures m(pos) == m'(pos) && AltFields(m, pos) == AltFields(m', pos)
  {
  }

  lemma MoreAltsLocal(m: Memory, m': Memory, pos: nat, size: int)
    requires Agree(m, m', pos + size)
    ensures MoreAlts(m, pos, size) == MoreAlts(m', pos, size)
    ensures size < INTERFACE_LENGTH ==> !MoreAlts(m, pos, size)
  {
  }

  // ----- what is stored never depends on other bytes, and without a starved slot nothing does

  lemma EndpointLocal(m: Memory, m': Memory, pos: nat, size: int, bigEndian: bool)
    requires Agree(m, m', pos + size) && size >= 2
    requires var r := ParseEndpoint(m, pos, size, bigEndian); r.Parsed? && size - r.consumed >= 0
    ensures ParseEndpoint(m', pos, size, bigEndian) == ParseEndpoint(m, pos, size, bigEndian)
  {
    hide SkipUnknown, Bytes;
    var len := m(pos);
    assert m'(pos) == len && m'(pos + 1) == m(pos + 1);
    if m(pos + 1) == 5 {
      SkipLocal(m, m', pos + len, size - len, false);
      BytesLocal(m, m', pos + len, SkipUnknown(m, pos + len, size - len, false).consumed, pos + size);
    }
  }

  // With fewer than two bytes left, an endpoint slot stays zero and takes no more than those.
  lemma StarvedEndpoint(m: Memory, pos: nat, size: int, bigEndian: bool)
    requires 0 <= size < 2
    ensures var r := ParseEndpoint(m, pos, size, bigEndian);
            && (r.Failed? <==> m(pos) > size)
            && (r.Parsed? ==> r.value == ZERO_ENDPOINT)
            && (r.Parsed? ==> r.consumed == if m(pos + 1) == 5 then m(pos) else 0)
  {
    assert Bytes(m, pos + m(pos), 0) == [];
  }

  lemma {:induction false} StarvedEndpoints(m: Memory, pos: nat, size: int, count: nat, bigEndian: bool)
    requires 0 <= size < 2
    ensures var r := ParseEndpoints(m, pos, size, count, bigEndian);
            r.Parsed? ==> r.value == seq(count, _ => ZERO_ENDPOINT) && r.consumed <= size
    decreases count
  {
    if count > 0 {
      StarvedEndpoint(m, pos, size, bigEndian);
      hide ParseEndpoint;
      var first := ParseEndpoint(m, pos, size, bigEndian);
      if first.Parsed? {
        StarvedEndpoints(m, pos + first.consumed, size - first.consumed, count - 1, bigEndian);
      }
    }
  }

  // A last byte that is not 1 decides the same whatever comes after it.
  lemma {:induction false} UndecidedEndpoints(m: Memory, m': Memory, pos: nat, count: nat, bigEndian: bool)
    requires m(pos) == m'(pos) == 0
    ensures ParseEndpoints(m, pos, 1, count, bigEndian) == ParseEndpoints(m', pos, 1, count, bigEndian)
    decreases count
  {
    if count > 0 {
      StarvedEndpoint(m, pos, 1, bigEndian);
      StarvedEndpoint(m', pos, 1, bigEndian);
      hide ParseEndpoint;
      UndecidedEndpoints(m, m', pos, count - 1, bigEndian);
    }
  }

  lemma StarvedEndpointsLocal(m: Memory, m': Memory, pos: nat, size: int, count: nat, bigEndian: bool)
    requires Agree(m, m', pos + size) && 0 <= size < 2
    requires ParseEndpoints(m, pos, size, count, bigEndian).Parsed?
    ensures var r := ParseEndpoints(m, pos, size, count, bigEndian);
            var r' := ParseEndpoints(m', pos, size, count, bigEndian);
            && (r'.Parsed? ==> r'.value == r.value && size - r'.consumed >= 0)
            && (count > 0 && !SlotIs(m, pos, size, Starved) ==> r' == r)
  {
    hide ParseEndpoint, ParseEndpoints, Agree;
    StarvedEndpoints(m, pos, size, count, bigEndian);
    StarvedEndpoints(m', pos, size, count, bigEndian);
    if count > 0 && size == 1 {
      ByteLocal(m, m', pos, pos + size);
      OneEndpoint(m, pos, size, count, bigEndian);
      StarvedEndpoint(m, pos, size, bigEndian);
      if m(pos) == 0 {
        UndecidedEndpoints(m, m', pos, count, bigEndian);
      }
    }
  }

  lemma {:induction false} EndpointsLocal(m: Memory, m': Memory, pos: nat, size: int, count: nat, bigEndian: bool)
    requires Agree(m, m', pos + size)
    requires var r := ParseEndpoints(m, pos, size, count, bigEndian); r.Parsed? && size - r.consumed >= 0
    ensures var r := ParseEndpoints(m, pos, size, count, bigEndian);
            var r' := ParseEndpoints(m', pos, size, count, bigEndian);
            && (r'.Parsed? ==> r'.value == r.value && size - r'.consumed >= 0)
            && (!EndpointsReach(m, pos, size, count, bigEndian, Starved) ==> r' == r)
    decreases count
  {
    hide ParseEndpoint, ParseEndpoints, EndpointsReach, Agree, SlotIs;
    if count == 0 {
      NoEndpoints(m, m', pos, size, bigEndian);
    } else {
      OneSlot(m, pos, size, count, bigEndian, Starved);
      if size < 2 {
        StarvedEndpointsLocal(m, m', pos, size, count, bigEndian);
      } else {
        OneEndpoint(m, pos, size, count, bigEndian);
        OneEndpoint(m', pos, size, count, bigEndian);
        EndpointLocal(m, m', pos, size, bigEndian);
        var first := ParseEndpoint(m, pos, size, bigEndian);
        EndpointsLocal(m, m', pos + first.consumed, size - first.consumed, count - 1, bigEndian);
      }
    }
  }

  lemma NoEndpoints(m: Memory, m': Memory, pos: nat, size: int, bigEndian: bool)
    ensures ParseEndpoints(m, pos, size, 0, bigEndian) == ParseEndpoints(m', pos, size, 0, bigEndian)
  {
  }

  lemma AltLocal(m: Memory, m': Memory, pos: nat, size: int, bigEndian: bool)
    requires Agree(m, m', pos + size) && size >= INTERFACE_LENGTH
    requires var r := ParseAlt(m, pos, size, bigEndian); r.Parsed? && size - r.consumed >= 0
    ensures var r := ParseAlt(m, pos, size, bigEndian);
            var r' := ParseAlt(m', pos, size, bigEndian);
            && (r'.Parsed? ==> r'.value == r.value && size - r'.consumed >= 0)
            && (!AltReaches(m, pos, size, bigEndian, Starved) ==> r' == r)
  {
    hide SkipUnknown, ParseEndpoints, Agree, EndpointsReach;
    var len := m(pos);
    AltFieldsLocal(m, m', pos, pos + size);
    var skip := SkipUnknown(m, pos + len, size - len, false);
    SkipLocal(m, m', pos + len, size - len, false);
    BytesLocal(m, m', pos + len, skip.consumed, pos + size);
    var pos', size' := pos + len + skip.consumed, size - len - skip.consumed;
    ByteLocal(m, m', pos' + 1, pos + size);
    if !(size' >= HEADER_LENGTH && (m(pos' + 1) == DT_CONFIG || m(pos' + 1) == DT_DEVICE)) {
      EndpointsLocal(m, m', pos', size', m(pos + 4), bigEndian);
    }
  }

  // After a starved slot fewer than two bytes are left.
  lemma {:induction false} StarvedIsLast(m: Memory, pos: nat, size: int, count: nat, bigEndian: bool)
    ensures var r := ParseEndpoints(m, pos, size, count, bigEndian);
            r.Parsed? && EndpointsReach(m, pos, size, count, bigEndian, Starved) ==> size - r.consumed < 2
    decreases count
  {
    hide ParseEndpoint;
    if count > 0 {
      var first := ParseEndpoint(m, pos, size, bigEndian);
      if first.Parsed? {
        StarvedIsLast(m, pos + first.consumed, size - first.consumed, count - 1, bigEndian);
      }
    }
  }

  lemma StarvedAltIsLast(m: Memory, pos: nat, size: int, bigEndian: bool)
    ensures var r := ParseAlt(m, pos, size, bigEndian);
            r.Parsed? && AltReaches(m, pos, size, bigEndian, Starved) ==> size - r.consumed < 2
  {
    hide SkipUnknown, ParseEndpoints, EndpointsReach;
    var len := m(pos);
    var skip := SkipUnknown(m, pos + len, size - len, false);
    if skip.Parsed? {
      StarvedIsLast(m, pos + len + skip.consumed, size - len - skip.consumed, m(pos + 4), bigEndian);
    }
  }

  // Two parses of one alternate setting leave two or more bytes both or neither.
  lemma AltsEndAlike(m: Memory, m': Memory, pos: nat, size: int, bigEndian: bool)
    requires Agree(m, m', pos + size) && size >= INTERFACE_LENGTH
    requires var r := ParseAlt(m, pos, size, bigEndian); r.Parsed? && size - r.consumed >= 0
    ensures var r := ParseAlt(m, pos, size, bigEndian);
            var r' := ParseAlt(m', pos, size, bigEndian);
            r' != r ==> size - r.consumed < 2 && (r'.Parsed? ==> size - r'.consumed < 2)
  {
    hide ParseAlt, AltReaches, Agree;
    AgreeSymmetric(m, m', pos + size);
    AltLocal(m, m', pos, size, bigEndian);
    StarvedAltIsLast(m, pos, size, bigEndian);
    if ParseAlt(m', pos, size, bigEndian).Parsed? {
      AltLocal(m', m, pos, size, bigEndian);
      StarvedAltIsLast(m', pos, size, bigEndian);
    }
  }

  lemma {:induction false} InterfaceLocal(m: Memory, m': Memory, pos: nat, size: int, bigEndian: bool)
    requires Agree(m, m', pos + size) && AtStop(m, pos, size) && AtStop(m', pos, size)
    requires var r := ParseInterface(m, pos, size, bigEndian); r.Parsed? && size - r.consumed >= 0
    ensures var r := ParseInterface(m, pos, size, bigEndian);
            var r' := ParseInterface(m', pos, size, bigEndian);
            && (r'.Parsed? ==> r'.value == r.value && size - r'.consumed >= 0)
            && (r' != r ==> size - r.consumed < 2 && (r'.Parsed? ==> size - r'.consumed < 2))
            && (!InterfaceReaches(m, pos, size, bigEndian, Starved) ==> r' == r)
    decreases size
  {
    hide ParseAlt, AtStop, Agree, MoreAlts, AltReaches;
    if size >= INTERFACE_LENGTH {
      ParseAltStops(m, pos, size, bigEndian);
      ParseAltStops(m', pos, size, bigEndian);
      AltLocal(m, m', pos, size, bigEndian);
      AltsEndAlike(m, m', pos, size, bigEndian);
      var first, first' := ParseAlt(m, pos, size, bigEndian), ParseAlt(m', pos, size, bigEndian);
      MoreAltsLocal(m, m', pos + first.consumed, size - first.consumed);
      if first' == first {
        if !first.value.ended && MoreAlts(m, pos + first.consumed, size - first.consumed) {
          InterfaceLocal(m, m', pos + first.consumed, size - first.consumed, bigEndian);
        }
      } else if first'.Parsed? {
        MoreAltsLocal(m', m', pos + first'.consumed, size - first'.consumed);
      }
    }
  }

  lemma InterfacePassLocal(m: Memory, m': Memory, pos: nat, size: int, bigEndian: bool)
    requires Agree(m, m', pos + size)
    requires var r := ParseInterfacePass(m, pos, size, bigEndian); r.Parsed? && size - r.consumed >= 0
    ensures var r := ParseInterfacePass(m, pos, size, bigEndian);
            var r' := ParseInterfacePass(m', pos, size, bigEndian);
            && (r'.Parsed? ==> r'.value == r.value && size - r'.consumed >= 0)
            && (r' != r ==> size - r.consumed < 2 && (r'.Parsed? ==> size - r'.consumed < 2))
            && (!InterfacePassReaches(m, pos, size, bigEndian, Starved) ==> r' == r)
  {
    hide SkipUnknown, AtStop, ParseInterface, Agree, InterfaceReaches;
    SkipLocal(m, m', pos, size, true);
    SkipStops(m, pos, size, true);
    SkipStops(m', pos, size, true);
    var skip := SkipUnknown(m, pos, size, true);
    BytesLocal(m, m', pos, skip.consumed, pos + size);
    InterfaceLocal(m, m', pos + skip.consumed, size - skip.consumed, bigEndian);
  }

  // With fewer than two bytes left, the remaining interfaces get no alternate settings.
  lemma {:induction false} StarvedInterfaces(
    m: Memory, pos: nat, size: int, count: nat, extra: seq<byte>, bigEndian: bool)
    requires size < 2
    ensures ParseInterfaces(m, pos, size, count, extra, bigEndian) ==
            Parsed(Interfaces(extra, seq(count, _ => [])), 0)
    ensures !InterfacesReach(m, pos, size, count, bigEndian, Starved)
    decreases count
  {
    if count > 0 {
      assert ParseInterfacePass(m, pos, size, bigEndian) == Parsed(InterfacePass([], []), 0);
      hide ParseInterfacePass;
      StarvedInterfaces(m, pos, size, count - 1, extra, bigEndian);
      assert [[]] + seq(count - 1, _ => []) == seq<seq<AltSetting>>(count, _ => []);
      assert (if extra == [] then [] else extra) == extra;
    } else {
      assert seq<seq<AltSetting>>(0, _ => []) == [];
    }
  }

  // With fewer than two bytes left after a pass, the interfaces that remain add nothing.
  lemma LastPass(m: Memory, pos: nat, size: int, count: nat, extra: seq<byte>, bigEndian: bool)
    requires count > 0
    requires var first := ParseInterfacePass(m, pos, size, bigEndian); first.Parsed? ==> size - first.consumed < 2
    ensures var first := ParseInterfacePass(m, pos, size, bigEndian);
            ParseInterfaces(m, pos, size, count, extra, bigEndian) ==
            if first.Failed? then Failed
            else Parsed(Interfaces(if extra == [] then first.value.found else extra,
                                   [first.value.alts] + seq(count - 1, _ => [])),
                        first.consumed)
  {
    hide ParseInterfacePass;
    var first := ParseInterfacePass(m, pos, size, bigEndian);
    if first.Parsed? {
      StarvedInterfaces(m, pos + first.consumed, size - first.consumed, count - 1,
                        if extra == [] then first.value.found else extra, bigEndian);
    }
  }

  lemma {:induction false} InterfacesLocal(
    m: Memory, m': Memory, pos: nat, size: int, count: nat, extra: seq<byte>, bigEndian: bool)
    requires Agree(m, m', pos + size)
    requires var r := ParseInterfaces(m, pos, size, count, extra, bigEndian); r.Parsed? && size - r.consumed >= 0
    ensures var r := ParseInterfaces(m, pos, size, count, extra, bigEndian);
            var r' := ParseInterfaces(m', pos, size, count, extra, bigEndian);
            && (r'.Parsed? ==> r'.value == r.value && size - r'.consumed >= 0)
            && (r' != r ==> size - r.consumed < 2 && (r'.Parsed? ==> size - r'.consumed < 2))
            && (!InterfacesReach(m, pos, size, count, bigEndian, Starved) ==> r' == r)
    decreases count
  {
    hide ParseInterfacePass, Agree, InterfacePassReaches, ParseInterfaces;
    if count == 0 {
      NoPass(m, pos, size, extra, bigEndian);
      NoPass(m', pos, size, extra, bigEndian);
    } else {
      OnePass(m, pos, size, count, extra, bigEndian);
      OnePass(m', pos, size, count, extra, bigEndian);
      InterfacePassLocal(m, m', pos, size, bigEndian);
      var first, first' := ParseInterfacePass(m, pos, size, bigEndian), ParseInterfacePass(m', pos, size, bigEndian);
      if first' == first {
        InterfacesLocal(m, m', pos + first.consumed, size - first.consumed, count - 1,
                        if extra == [] then first.value.found else extra, bigEndian);
      } else {
        LastPass(m, pos, size, count, extra, bigEndian);
        LastPass(m', pos, size, count, extra, bigEndian);
      }
    }
  }

  // The two memories agree on the configuration descriptor and within its wTotalLength.
  ghost predicate AgreeInside(m: Memory, m': Memory, bigEndian: bool) {
    Agree(m, m', 9) && Agree(m, m', ConfigFields(m, bigEndian).wTotalLength)
  }

  lemma FieldsLocal(m: Memory, m': Memory, bigEndian: bool)
    requires Agree(m, m', 9)
    ensures ConfigFields(m, bigEndian) == ConfigFields(m', bigEndian)
    ensures ConfigFields(m, bigEndian).extra == [] && ConfigFields(m, bigEndian).interfaces == []
  {
  }

  // Whenever the leftover is not negative, what is stored lies inside wTotalLength: a memory that agrees
  // there is rejected, or yields the same configuration with a leftover that is not negative either.
  // With two or more bytes left over, the outcome is the same altogether.
  lemma StoredBytesLieInside(m: Memory, m': Memory, bigEndian: bool)
    requires var r := ParseConfiguration(m, bigEndian); r.Leftover? && r.size >= 0
    requires AgreeInside(m, m', bigEndian)
    ensures var r := ParseConfiguration(m, bigEndian);
            var r' := ParseConfiguration(m', bigEndian);
            && (r'.Leftover? ==> r'.config == r.config && r'.size >= 0)
            && (r.size >= 2 || !ConfigurationReaches(m, bigEndian, Starved) ==> r' == r)
  {
    hide ParseInterfaces, InterfacesReach, ConfigFields, Agree;
    var c := ConfigFields(m, bigEndian);
    FieldsLocal(m, m', bigEndian);
    InterfacesLocal(m, m', c.bLength, c.wTotalLength - c.bLength, c.bNumInterfaces, [], bigEndian);
  }

  // ----- with a starved slot, the first byte past the end decides

  // m with one byte turned into the type of an endpoint descriptor, or turned away from it
  function Flip(m: Memory, at: nat): Memory {
    (i: nat) => if i != at then m(i) else if m(at) == 5 then 0 else 5
  }

  ghost predicate IsFlip(m: Memory, m': Memory, at: int) {
    && Agree(m, m', at)
    && (at >= 0 ==> m'(at) == if m(at) == 5 then 0 else 5)
  }

  lemma FlipIsFlip(m: Memory, at: nat)
    ensures IsFlip(m, Flip(m, at), at)
  {
  }

  lemma FlipAt(m: Memory, m': Memory, at: nat)
    requires IsFlip(m, m', at)
    ensures m'(at) == if m(at) == 5 then 0 else 5
  {
  }

  lemma FlipAgrees(m: Memory, m': Memory, at: int)
    requires IsFlip(m, m', at)
    ensures Agree(m, m', at)
  {
  }

  // Two parses that are both accepted consume differently.
  predicate Apart<T>(r: Parsed<T>, r': Parsed<T>) {
    r.Parsed? && r'.Parsed? ==> r.consumed != r'.consumed
  }

  lemma {:induction false} SlotsAfterLastByte(m: Memory, pos: nat, count: nat, bigEndian: bool)
    requires m(pos) == 1
    ensures var r := ParseEndpoints(m, pos, 1, count, bigEndian);
            r.Parsed? && count > 0 ==> r.consumed == if m(pos + 1) == 5 then 1 else 0
    decreases count
  {
    if count > 0 {
      StarvedEndpoint(m, pos, 1, bigEndian);
      hide ParseEndpoint;
      if m(pos + 1) == 5 {
        StarvedEndpoints(m, pos + 1, 0, count - 1, bigEndian);
      } else {
        SlotsAfterLastByte(m, pos, count - 1, bigEndian);
      }
    }
  }

  // No byte left: the flipped byte is taken for a length.
  lemma EndpointsDifferAtEnd(m: Memory, m': Memory, pos: nat, count: nat, bigEndian: bool)
    requires IsFlip(m, m', pos) && count > 0 && ParseEndpoints(m, pos, 0, count, bigEndian).Parsed?
    ensures ParseEndpoints(m', pos, 0, count, bigEndian).Failed?
  {
    hide ParseEndpoint, ParseEndpoints, Agree, IsFlip;
    FlipAt(m, m', pos);
    OneEndpoint(m, pos, 0, count, bigEndian);
    OneEndpoint(m', pos, 0, count, bigEndian);
    StarvedEndpoint(m, pos, 0, bigEndian);
    StarvedEndpoint(m', pos, 0, bigEndian);
  }

  // One byte left: the flipped byte is taken for a type.
  lemma {:induction false} EndpointsDifferBeforeEnd(m: Memory, m': Memory, pos: nat, count: nat, bigEndian: bool)
    requires IsFlip(m, m', pos + 1) && EndpointsReach(m, pos, 1, count, bigEndian, Starved)
    requires var r := ParseEndpoints(m, pos, 1, count, bigEndian); r.Parsed? && 1 - r.consumed >= 0
    ensures Apart(ParseEndpoints(m, pos, 1, count, bigEndian), ParseEndpoints(m', pos, 1, count, bigEndian))
    decreases count
  {
    hide ParseEndpoint, ParseEndpoints, EndpointsReach, Agree, IsFlip;
    NoSlot(m, pos, 1, bigEndian);
    FlipAt(m, m', pos + 1);
    FlipAgrees(m, m', pos + 1);
    ByteLocal(m, m', pos, pos + 1);
    if m(pos) == 1 {
      SlotsAfterLastByte(m, pos, count, bigEndian);
      SlotsAfterLastByte(m', pos, count, bigEndian);
    } else {
      OneSlot(m, pos, 1, count, bigEndian, Starved);
      OneEndpoint(m, pos, 1, count, bigEndian);
      OneEndpoint(m', pos, 1, count, bigEndian);
      StarvedEndpoint(m, pos, 1, bigEndian);
      StarvedEndpoint(m', pos, 1, bigEndian);
      EndpointsDifferBeforeEnd(m, m', pos, count - 1, bigEndian);
    }
  }

  lemma NoSlot(m: Memory, pos: nat, size: int, bigEndian: bool)
    ensures !EndpointsReach(m, pos, size, 0, bigEndian, Starved)
  {
  }

  lemma {:induction false} EndpointsDiffer(m: Memory, m': Memory, pos: nat, size: int, count: nat, bigEndian: bool)
    requires IsFlip(m, m', pos + size)
    requires size >= 0 && EndpointsReach(m, pos, size, count, bigEndian, Starved)
    requires var r := ParseEndpoints(m, pos, size, count, bigEndian); r.Parsed? && size - r.consumed >= 0
    ensures Apart(ParseEndpoints(m, pos, size, count, bigEndian),
                  ParseEndpoints(m', pos, size, count, bigEndian))
    decreases count
  {
    hide ParseEndpoint, ParseEndpoints, EndpointsReach, Agree, IsFlip;
    NoSlot(m, pos, size, bigEndian);
    if size == 0 {
      EndpointsDifferAtEnd(m, m', pos, count, bigEndian);
    } else if size == 1 {
      EndpointsDifferBeforeEnd(m, m', pos, count, bigEndian);
    } else {
      OneSlot(m, pos, size, count, bigEndian, Starved);
      OneEndpoint(m, pos, size, count, bigEndian);
      OneEndpoint(m', pos, size, count, bigEndian);
      FlipAgrees(m, m', pos + size);
      EndpointLocal(m, m', pos, size, bigEndian);
      var first := ParseEndpoint(m, pos, size, bigEndian);
      EndpointsDiffer(m, m', pos + first.consumed, size - first.consumed, count - 1, bigEndian);
    }
  }

  lemma AltDiffers(m: Memory, m': Memory, pos: nat, size: int, bigEndian: bool)
    requires IsFlip(m, m', pos + size)
    requires size >= INTERFACE_LENGTH && AltReaches(m, pos, size, bigEndian, Starved)
    requires var r := ParseAlt(m, pos, size, bigEndian); r.Parsed? && size - r.consumed >= 0
    ensures Apart(ParseAlt(m, pos, size, bigEndian), ParseAlt(m', pos, size, bigEndian))
  {
    hide SkipUnknown, ParseEndpoints, Agree, IsFlip, EndpointsReach;
    FlipAgrees(m, m', pos + size);
    var len := m(pos);
    AltFieldsLocal(m, m', pos, pos + size);
    var skip := SkipUnknown(m, pos + len, size - len, false);
    SkipLocal(m, m', pos + len, size - len, false);
    var pos', size' := pos + len + skip.consumed, size - len - skip.consumed;
    ByteLocal(m, m', pos' + 1, pos + size);
    EndpointsDiffer(m, m', pos', size', m(pos + 4), bigEndian);
  }

  lemma {:induction false} InterfaceDiffers(m: Memory, m': Memory, pos: nat, size: int, bigEndian: bool)
    requires IsFlip(m, m', pos + size)
    requires AtStop(m, pos, size) && AtStop(m', pos, size)
    requires InterfaceReaches(m, pos, size, bigEndian, Starved)
    requires var r := ParseInterface(m, pos, size, bigEndian); r.Parsed? && size - r.consumed >= 0
    ensures Apart(ParseInterface(m, pos, size, bigEndian), ParseInterface(m', pos, size, bigEndian))
    decreases size
  {
    hide ParseAlt, AtStop, Agree, IsFlip, MoreAlts, AltReaches;
    FlipAgrees(m, m', pos + size);
    ParseAltStops(m, pos, size, bigEndian);
    ParseAltStops(m', pos, size, bigEndian);
    var first, first' := ParseAlt(m, pos, size, bigEndian), ParseAlt(m', pos, size, bigEndian);
    MoreAltsLocal(m, m', pos + first.consumed, size - first.consumed);
    AltLocal(m, m', pos, size, bigEndian);
    if AltReaches(m, pos, size, bigEndian, Starved) {
      AltDiffers(m, m', pos, size, bigEndian);
      AltsEndAlike(m, m', pos, size, bigEndian);
      if first'.Parsed? {
        MoreAltsLocal(m', m', pos + first'.consumed, size - first'.consumed);
      }
    } else {
      InterfaceDiffers(m, m', pos + first.consumed, size - first.consumed, bigEndian);
    }
  }

  lemma InterfacePassDiffers(m: Memory, m': Memory, pos: nat, size: int, bigEndian: bool)
    requires IsFlip(m, m', pos + size)
    requires size >= 0 && InterfacePassReaches(m, pos, size, bigEndian, Starved)
    requires var r := ParseInterfacePass(m, pos, size, bigEndian); r.Parsed? && size - r.consumed >= 0
    ensures Apart(ParseInterfacePass(m, pos, size, bigEndian),
                  ParseInterfacePass(m', pos, size, bigEndian))
  {
    hide SkipUnknown, AtStop, ParseInterface, Agree, IsFlip, InterfaceReaches;
    FlipAgrees(m, m', pos + size);
    SkipLocal(m, m', pos, size, true);
    SkipStops(m, pos, size, true);
    SkipStops(m', pos, size, true);
    var skip := SkipUnknown(m, pos, size, true);
    InterfaceDiffers(m, m', pos + skip.consumed, size - skip.consumed, bigEndian);
  }

  lemma {:induction false} InterfacesDiffer(
    m: Memory, m': Memory, pos: nat, size: int, count: nat, extra: seq<byte>, bigEndian: bool)
    requires IsFlip(m, m', pos + size)
    requires size >= 0 && InterfacesReach(m, pos, size, count, bigEndian, Starved)
    requires var r := ParseInterfaces(m, pos, size, count, extra, bigEndian); r.Parsed? && size - r.consumed >= 0
    ensures Apart(ParseInterfaces(m, pos, size, count, extra, bigEndian),
                  ParseInterfaces(m', pos, size, count, extra, bigEndian))
    ensures pos + size >= INTERFACE_LENGTH
    decreases count
  {
    hide ParseInterfaces, ParseInterfacePass, Agree, IsFlip, InterfacesReach, InterfacePassReaches;
    NoPassReaches(m, pos, size, bigEndian);
    FlipAgrees(m, m', pos + size);
    OnePass(m, pos, size, count, extra, bigEndian);
    OnePass(m', pos, size, count, extra, bigEndian);
    OnePassReaches(m, pos, size, count, bigEndian, Starved);
    InterfacePassLocal(m, m', pos, size, bigEndian);
    var first, first' := ParseInterfacePass(m, pos, size, bigEndian), ParseInterfacePass(m', pos, size, bigEndian);
    var extra' := if extra == [] then first.value.found else extra;
    if InterfacePassReaches(m, pos, size, bigEndian, Starved) {
      InterfacePassDiffers(m, m', pos, size, bigEndian);
      RoomForInterface(m, pos, size, bigEndian);
      if first'.Parsed? {
        StarvedInterfaces(m, pos + first.consumed, size - first.consumed, count - 1, extra', bigEndian);
        StarvedInterfaces(m', pos + first'.consumed, size - first'.consumed, count - 1, extra', bigEndian);
      }
    } else {
      InterfacesDiffer(m, m', pos + first.consumed, size - first.consumed, count - 1, extra', bigEndian);
    }
  }

  lemma NoPassReaches(m: Memory, pos: nat, size: int, bigEndian: bool)
    ensures !InterfacesReach(m, pos, size, 0, bigEndian, Starved)
  {
  }

  lemma RoomForInterface(m: Memory, pos: nat, size: int, bigEndian: bool)
    requires InterfacePassReaches(m, pos, size, bigEndian, Starved)
    ensures size >= INTERFACE_LENGTH
  {
  }

  lemma FlipMakesDifference(m: Memory, bigEndian: bool)
    requires var r := ParseConfiguration(m, bigEndian); r.Leftover? && r.size >= 0
    requires ConfigurationReaches(m, bigEndian, Starved)
    ensures var m' := Flip(m, ConfigFields(m, bigEndian).wTotalLength);
            AgreeInside(m, m', bigEndian) && ParseConfiguration(m', bigEndian) != ParseConfiguration(m, bigEndian)
  {
    hide ParseInterfaces, InterfacesReach, Flip, IsFlip;
    var c := ConfigFields(m, bigEndian);
    var m' := Flip(m, c.wTotalLength);
    FlipIsFlip(m, c.wTotalLength);
    FlipAgrees(m, m', c.wTotalLength);
    InterfacesDiffer(m, m', c.bLength, c.wTotalLength - c.bLength, c.bNumInterfaces, [], bigEndian);
    assert AgreeInside(m, m', bigEndian);
    assert ConfigFields(m', bigEndian) == c;
  }

  // For an accepted configuration whose leftover is not negative, bytes outside wTotalLength make a
  // difference if and only if the parser comes to a starved endpoint slot.  Changing the byte right after
  // the end is then enough.
  lemma OutsideBytesMatterExactlyIfStarved(m: Memory, bigEndian: bool)
    requires var r := ParseConfiguration(m, bigEndian); r.Leftover? && r.size >= 0
    ensures ConfigurationReaches(m, bigEndian, Starved) <==>
            exists m' :: AgreeInside(m, m', bigEndian)
                      && ParseConfiguration(m', bigEndian) != ParseConfiguration(m, bigEndian)
    ensures ConfigurationReaches(m, bigEndian, Starved) ==>
              var m' := Flip(m, ConfigFields(m, bigEndian).wTotalLength);
              AgreeInside(m, m', bigEndian) && ParseConfiguration(m', bigEndian) != ParseConfiguration(m, bigEndian)
  {
    hide ParseConfiguration, ConfigurationReaches, Flip, Agree, ConfigFields;
    forall m' | AgreeInside(m, m', bigEndian)
      ensures ParseConfiguration(m', bigEndian) != ParseConfiguration(m, bigEndian) ==>
                ConfigurationReaches(m, bigEndian, Starved)
    {
      StoredBytesLieInside(m, m', bigEndian);
    }
    if ConfigurationReaches(m, bigEndian, Starved) {
      FlipMakesDifference(m, bigEndian);
    }
  }

  // The condition itself lies inside: accepted memories that agree there meet it both or neither.
  lemma StarvedLiesInside(m: Memory, m': Memory, bigEndian: bool)
    requires var r := ParseConfiguration(m, bigEndian); r.Leftover? && r.size >= 0
    requires var r' := ParseConfiguration(m', bigEndian); r'.Leftover? && r'.size >= 0
    requires AgreeInside(m, m', bigEndian)
    ensures ConfigurationReaches(m, bigEndian, Starved) <==> ConfigurationReaches(m', bigEndian, Starved)
  {
    assert ConfigFields(m, bigEndian) == ConfigFields(m', bigEndian);
    hide ParseConfiguration, ConfigurationReaches, Flip, ConfigFields;
    if ConfigurationReaches(m, bigEndian, Starved) && !ConfigurationReaches(m', bigEndian, Starved) {
      FlipMakesDifference(m, bigEndian);
      StoredBytesLieInside(m', m, bigEndian);
      StoredBytesLieInside(m', Flip(m, ConfigFields(m, bigEndian).wTotalLength), bigEndian);
    }
    if ConfigurationReaches(m', bigEndian, Starved) && !ConfigurationReaches(m, bigEndian, Starved) {
      FlipMakesDifference(m', bigEndian);
      StoredBytesLieInside(m, m', bigEndian);
      StoredBytesLieInside(m, Flip(m', ConfigFields(m', bigEndian).wTotalLength), bigEndian);
    }
  }

  // With nothing left over, a byte past wTotalLength can decide between success and failure: it is
  // taken for the length of an endpoint descriptor that the interface announces but does not bring.
  lemma ByteAfterEndDecides(m: Memory, m': Memory)
    requires Agree(m, m', 18)
    requires m(0) == 9 && m(2) == 18 && m(3) == 0 && m(4) == 1
    requires m(9) == 9 && m(10) == 4 && m(13) == 1
    requires m(18) == 0 && m(19) == 0 && m'(18) == 1
    ensures ParseConfiguration(m, false).Leftover? && ParseConfiguration(m, false).size == 0
    ensures ParseConfiguration(m', false) == Failure
  {
    hide ParseInterfacePass;
    assert m'(0) == 9 && m'(2) == 18 && m'(3) == 0 && m'(4) == 1;
    assert m'(9) == 9 && m'(10) == 4 && m'(13) == 1;
    EndpointMissing(m);
    EndpointMissing(m');
    assert ParseInterfaces(m, 18, 0, 0, [], false) == Parsed(Interfaces([], []), 0);
  }

  lemma EndpointMissing(m: Memory)
    requires m(9) == 9 && m(10) == 4 && m(13) == 1
    ensures m(18) > 0 ==> ParseInterfacePass(m, 9, 9, false).Failed?
    ensures m(18) == 0 && m(19) == 0 ==> ParseInterfacePass(m, 9, 9, false).Parsed?
    ensures ParseInterfacePass(m, 9, 9, false).Parsed? ==>
              ParseInterfacePass(m, 9, 9, false).consumed == 9 && ParseInterfacePass(m, 9, 9, false).value.found == []
  {
  }
}
