// What the configuration parser consumes and stores, on arbitrary bytes.
module DescriptorAccounting {
  import opened Descriptor
  import opened DescriptorSlots

  // ----- the bytes left over

  function EndpointSize(e: Endpoint): nat {
    e.bLength + |e.extra|
  }

  function EndpointsSize(es: seq<Endpoint>): nat {
    if es == [] then 0 else EndpointSize(es[0]) + EndpointsSize(es[1..])
  }

  function AltSize(a: AltSetting): nat {
    a.bLength + |a.extra| + EndpointsSize(a.endpoints)
  }

  function InterfaceSize(alts: seq<AltSetting>): nat {
    if alts == [] then 0 else AltSize(alts[0]) + InterfaceSize(alts[1..])
  }

  function InterfacesSize(ifs: seq<seq<AltSetting>>): nat {
    if ifs == [] then 0 else InterfaceSize(ifs[0]) + InterfacesSize(ifs[1..])
  }

  function ConfigSize(c: Config): nat {
    c.bLength + |c.extra| + InterfacesSize(c.interfaces)
  }

  // An endpoint shorter than 7 bytes is consumed but leaves its slot zero; nothing else is.
  lemma {:induction false} EndpointsAccounted(m: Memory, pos: nat, size: int, count: nat, bigEndian: bool)
    ensures var r := ParseEndpoints(m, pos, size, count, bigEndian);
            r.Parsed? ==>
              && EndpointsSize(r.value) <= r.consumed
              && (EndpointsSize(r.value) == r.consumed <==> !EndpointsReach(m, pos, size, count, bigEndian, Short))
    decreases count
  {
    hide ParseEndpoint, EndpointSize, SlotIs;
    if count > 0 {
      EndpointAccounted(m, pos, size, bigEndian);
      var first := ParseEndpoint(m, pos, size, bigEndian);
      if first.Parsed? {
        EndpointsAccounted(m, pos + first.consumed, size - first.consumed, count - 1, bigEndian);
        var rest := ParseEndpoints(m, pos + first.consumed, size - first.consumed, count - 1, bigEndian);
        if rest.Parsed? {
          assert ([first.value] + rest.value)[1..] == rest.value;
        }
      }
    }
  }

  lemma EndpointAccounted(m: Memory, pos: nat, size: int, bigEndian: bool)
    ensures var r := ParseEndpoint(m, pos, size, bigEndian);
            r.Parsed? ==>
              && EndpointSize(r.value) <= r.consumed
              && (EndpointSize(r.value) == r.consumed <==> !SlotIs(m, pos, size, Short))
  {
  }

  lemma AltAccounted(m: Memory, pos: nat, size: int, bigEndian: bool)
    ensures var r := ParseAlt(m, pos, size, bigEndian);
            r.Parsed? ==>
              && AltSize(r.value.alt) <= r.consumed
              && (AltSize(r.value.alt) == r.consumed <==> !AltReaches(m, pos, size, bigEndian, Short))
  {
    hide SkipUnknown, ParseEndpoints, EndpointsReach;
    var len := m(pos);
    var skip := SkipUnknown(m, pos + len, size - len, false);
    if skip.Parsed? {
      EndpointsAccounted(m, pos + len + skip.consumed, size - len - skip.consumed, m(pos + 4), bigEndian);
    }
  }

  lemma {:induction false} InterfaceAccounted(m: Memory, pos: nat, size: int, bigEndian: bool)
    requires AtStop(m, pos, size)
    ensures var r := ParseInterface(m, pos, size, bigEndian);
            r.Parsed? ==>
              && InterfaceSize(r.value) <= r.consumed
              && (InterfaceSize(r.value) == r.consumed <==> !InterfaceReaches(m, pos, size, bigEndian, Short))
    decreases size
  {
    hide ParseAlt, AltSize, AltReaches, MoreAlts, AtStop;
    if size >= INTERFACE_LENGTH {
      AltAccounted(m, pos, size, bigEndian);
      ParseAltStops(m, pos, size, bigEndian);
      var first := ParseAlt(m, pos, size, bigEndian);
      var r := ParseInterface(m, pos, size, bigEndian);
      if r.Parsed? {
        assert first.Parsed? && r.value[0] == first.value.alt;
        if first.value.ended || !MoreAlts(m, pos + first.consumed, size - first.consumed) {
          assert r.value[1..] == [];
        } else {
          InterfaceAccounted(m, pos + first.consumed, size - first.consumed, bigEndian);
          assert r.value[1..] == ParseInterface(m, pos + first.consumed, size - first.consumed, bigEndian).value;
        }
      }
    }
  }

  lemma InterfacePassAccounted(m: Memory, pos: nat, size: int, bigEndian: bool)
    ensures var r := ParseInterfacePass(m, pos, size, bigEndian);
            r.Parsed? ==>
              var stored := |r.value.found| + InterfaceSize(r.value.alts);
              stored <= r.consumed && (stored == r.consumed <==> !InterfacePassReaches(m, pos, size, bigEndian, Short))
  {
    hide SkipUnknown, AtStop, ParseInterface, InterfaceSize, InterfaceReaches;
    var skip := SkipUnknown(m, pos, size, true);
    SkipStops(m, pos, size, true);
    if skip.Parsed? {
      InterfaceAccounted(m, pos + skip.consumed, size - skip.consumed, bigEndian);
    }
  }

  lemma {:induction false} InterfacesAccounted(
    m: Memory, pos: nat, size: int, count: nat, extra: seq<byte>, bigEndian: bool)
    requires extra == [] || AtStop(m, pos, size)
    ensures var r := ParseInterfaces(m, pos, size, count, extra, bigEndian);
            r.Parsed? ==>
              var stored := |r.value.extra| - |extra| + InterfacesSize(r.value.interfaces);
              && |r.value.interfaces| == count && stored <= r.consumed
              && (stored == r.consumed <==> !InterfacesReach(m, pos, size, count, bigEndian, Short))
    decreases count
  {
    hide ParseInterfaces, ParseInterfacePass, InterfaceSize, InterfacesSize, AtStop;
    hide InterfacesReach, InterfacePassReaches;
    if count == 0 {
      NoPass(m, pos, size, extra, bigEndian);
      NothingAccounted(m, pos, size, bigEndian);
    } else {
      OnePass(m, pos, size, count, extra, bigEndian);
      OnePassReaches(m, pos, size, count, bigEndian, Short);
      InterfacePassAccounted(m, pos, size, bigEndian);
      ParseInterfacePassStops(m, pos, size, bigEndian);
      var first := ParseInterfacePass(m, pos, size, bigEndian);
      if first.Parsed? {
        var extra' := if extra == [] then first.value.found else extra;
        InterfacesAccounted(m, pos + first.consumed, size - first.consumed, count - 1, extra', bigEndian);
        var rest := ParseInterfaces(m, pos + first.consumed, size - first.consumed, count - 1, extra', bigEndian);
        if rest.Parsed? {
          OneMoreInterface(first.value.alts, rest.value.interfaces);
        }
      }
    }
  }

  lemma NothingAccounted(m: Memory, pos: nat, size: int, bigEndian: bool)
    ensures InterfacesSize([]) == 0 && !InterfacesReach(m, pos, size, 0, bigEndian, Short)
  {
  }

  lemma OneMoreInterface(first: seq<AltSetting>, rest: seq<seq<AltSetting>>)
    ensures InterfacesSize([first] + rest) == InterfaceSize(first) + InterfacesSize(rest)
  {
    assert ([first] + rest)[1..] == rest;
  }

  // A returned leftover never exceeds wTotalLength less everything stored, and is exactly that if and
  // only if the parser came to no endpoint descriptor too short to be stored.
  lemma LeftoverAccounted(m: Memory, bigEndian: bool)
    ensures var r := ParseConfiguration(m, bigEndian);
            r.Leftover? ==>
              var balance := r.config.wTotalLength - ConfigSize(r.config);
              && |r.config.interfaces| == r.config.bNumInterfaces
              && r.size <= balance
              && (r.size == balance <==> !ConfigurationReaches(m, bigEndian, Short))
  {
    hide ParseInterfaces, InterfacesReach, InterfacesSize;
    var c := ConfigFields(m, bigEndian);
    InterfacesAccounted(m, c.bLength, c.wTotalLength - c.bLength, c.bNumInterfaces, [], bigEndian);
  }

  // ----- extras before a later interface: the FIXME of parse_configuration

  // The loop of parse_configuration as its FIXME would have it: every find is appended.
  function AppendingInterfaces(m: Memory, pos: nat, size: int, count: nat, extra: seq<byte>, bigEndian: bool):
    Parsed<Interfaces>
    decreases count
  {
    if count == 0 then Parsed(Interfaces(extra, []), 0)
    else
      var first := ParseInterfacePass(m, pos, size, bigEndian);
      if first.Failed? then Failed
      else
        var rest := AppendingInterfaces(m, pos + first.consumed, size - first.consumed, count - 1,
                                        extra + first.value.found, bigEndian);
        if rest.Failed? then Failed
        else Parsed(Interfaces(rest.value.extra, [first.value.alts] + rest.value.interfaces),
                    first.consumed + rest.consumed)
  }

  // Dropping later finds loses nothing: before interface 1, 2, ... there is never anything to find.
  lemma {:induction false} NothingIsDropped(
    m: Memory, pos: nat, size: int, count: nat, extra: seq<byte>, bigEndian: bool)
    requires extra == [] || AtStop(m, pos, size)
    ensures ParseInterfaces(m, pos, size, count, extra, bigEndian) ==
            AppendingInterfaces(m, pos, size, count, extra, bigEndian)
    decreases count
  {
    hide ParseInterfacePass, AtStop;
    if count > 0 {
      var first := ParseInterfacePass(m, pos, size, bigEndian);
      if first.Parsed? {
        ParseInterfacePassStops(m, pos, size, bigEndian);
        assert (if extra == [] then first.value.found else extra) == extra + first.value.found;
        NothingIsDropped(m, pos + first.consumed, size - first.consumed, count - 1, extra + first.value.found,
                         bigEndian);
      }
    }
  }

  lemma {:induction false} ExtraKept(m: Memory, pos: nat, size: int, count: nat, extra: seq<byte>, bigEndian: bool)
    requires AtStop(m, pos, size)
    ensures var r := ParseInterfaces(m, pos, size, count, extra, bigEndian); r.Parsed? ==> r.value.extra == extra
    decreases count
  {
    hide ParseInterfacePass, AtStop;
    if count > 0 {
      var first := ParseInterfacePass(m, pos, size, bigEndian);
      if first.Parsed? {
        ParseInterfacePassStops(m, pos, size, bigEndian);
        assert (if extra == [] then first.value.found else extra) == extra;
        ExtraKept(m, pos + first.consumed, size - first.consumed, count - 1, extra, bigEndian);
      }
    }
  }

  // With at least one interface, the stored extras are exactly the blocks between the
  // configuration descriptor and the first interface.
  lemma ExtrasPrecedeFirstInterface(m: Memory, bigEndian: bool)
    ensures var r := ParseConfiguration(m, bigEndian);
            r.Leftover? && r.config.bNumInterfaces > 0 ==>
              var first := ParseInterfacePass(m, r.config.bLength, r.config.wTotalLength - r.config.bLength, bigEndian);
              first.Parsed? && r.config.extra == first.value.found && r.config.interfaces[0] == first.value.alts
  {
    hide ParseInterfacePass, ParseInterfaces, AtStop;
    var c := ConfigFields(m, bigEndian);
    var pos, size := c.bLength, c.wTotalLength - c.bLength;
    var first := ParseInterfacePass(m, pos, size, bigEndian);
    if c.bNumInterfaces > 0 {
      OnePass(m, pos, size, c.bNumInterfaces, [], bigEndian);
      if first.Parsed? {
        ParseInterfacePassStops(m, pos, size, bigEndian);
        ExtraKept(m, pos + first.consumed, size - first.consumed, c.bNumInterfaces - 1, first.value.found, bigEndian);
      }
    }
  }
}
