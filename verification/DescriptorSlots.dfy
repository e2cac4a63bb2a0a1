// Which endpoint slots the configuration parser comes to.  An interface descriptor announces a number of
// endpoints; the parser fills one slot for each, whatever it finds in memory at that point.
module DescriptorSlots {
  import opened Descriptor

  // A slot that is out of the ordinary
  datatype Slot =
    | Starved  // the bytes within wTotalLength do not say whether an endpoint descriptor is there
    | Short    // an endpoint descriptor is there, but it is shorter than the standard's

  predicate SlotIs(m: Memory, pos: nat, size: int, slot: Slot) {
    match slot
    case Starved => size == 0 || (size == 1 && m(pos) == 1)
    case Short => m(pos + 1) == 5 && 0 < m(pos) < 7
  }

  // The endpoint loop comes to such a slot.
  predicate EndpointsReach(m: Memory, pos: nat, size: int, count: nat, bigEndian: bool, slot: Slot)
    decreases count
  {
    && count > 0
    && (|| SlotIs(m, pos, size, slot)
        || (var first := ParseEndpoint(m, pos, size, bigEndian);
            && first.Parsed?
            && EndpointsReach(m, pos + first.consumed, size - first.consumed, count - 1, bigEndian, slot)))
  }

  predicate AltReaches(m: Memory, pos: nat, size: int, bigEndian: bool, slot: Slot) {
    var len := m(pos);
    var skip := SkipUnknown(m, pos + len, size - len, false);
    && skip.Parsed?
    && var pos' := pos + len + skip.consumed;
       var size' := size - len - skip.consumed;
       && !(size' >= HEADER_LENGTH && (m(pos' + 1) == DT_CONFIG || m(pos' + 1) == DT_DEVICE))
       && EndpointsReach(m, pos', size', m(pos + 4), bigEndian, slot)
  }

  predicate InterfaceReaches(m: Memory, pos: nat, size: int, bigEndian: bool, slot: Slot)
    requires AtStop(m, pos, size)
    decreases size
  {
    && size >= INTERFACE_LENGTH
    && (|| AltReaches(m, pos, size, bigEndian, slot)
        || (var first := ParseAlt(m, pos, size, bigEndian);
            ParseAltStops(m, pos, size, bigEndian);
            && first.Parsed? && !first.value.ended
            && MoreAlts(m, pos + first.consumed, size - first.consumed)
            && InterfaceReaches(m, pos + first.consumed, size - first.consumed, bigEndian, slot)))
  }

  predicate InterfacePassReaches(m: Memory, pos: nat, size: int, bigEndian: bool, slot: Slot) {
    var skip := SkipUnknown(m, pos, size, true);
    SkipStops(m, pos, size, true);
    skip.Parsed? && InterfaceReaches(m, pos + skip.consumed, size - skip.consumed, bigEndian, slot)
  }

  predicate InterfacesReach(m: Memory, pos: nat, size: int, count: nat, bigEndian: bool, slot: Slot)
    decreases count
  {
    && count > 0
    && (|| InterfacePassReaches(m, pos, size, bigEndian, slot)
        || (var first := ParseInterfacePass(m, pos, size, bigEndian);
            && first.Parsed?
            && InterfacesReach(m, pos + first.consumed, size - first.consumed, count - 1, bigEndian, slot)))
  }

  predicate ConfigurationReaches(m: Memory, bigEndian: bool, slot: Slot) {
    var c := ConfigFields(m, bigEndian);
    InterfacesReach(m, c.bLength, c.wTotalLength - c.bLength, c.bNumInterfaces, bigEndian, slot)
  }

  lemma OneSlot(m: Memory, pos: nat, size: int, count: nat, bigEndian: bool, slot: Slot)
    requires count > 0
    ensures var first := ParseEndpoint(m, pos, size, bigEndian);
            EndpointsReach(m, pos, size, count, bigEndian, slot) <==>
            || SlotIs(m, pos, size, slot)
            || (first.Parsed?
                && EndpointsReach(m, pos + first.consumed, size - first.consumed, count - 1, bigEndian, slot))
  {
    hide ParseEndpoint, SlotIs;
  }

  lemma OnePassReaches(m: Memory, pos: nat, size: int, count: nat, bigEndian: bool, slot: Slot)
    requires count > 0
    ensures var first := ParseInterfacePass(m, pos, size, bigEndian);
            InterfacesReach(m, pos, size, count, bigEndian, slot) <==>
            || InterfacePassReaches(m, pos, size, bigEndian, slot)
            || (first.Parsed?
                && InterfacesReach(m, pos + first.consumed, size - first.consumed, count - 1, bigEndian, slot))
  {
    hide ParseInterfacePass, InterfacePassReaches;
  }
}
