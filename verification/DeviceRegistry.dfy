// The devices of a libusb context and their reference counts (core.c), with the discovery of devices
// by the Darwin backend (darwin_usb.c).
module DeviceRegistry {
  import opened Sequences

  // struct libusb_device
  class Device {
    const session: nat
    var refcnt: int

    constructor (session: nat)
      ensures this.session == session && refcnt == 1
    {
      this.session := session;
      refcnt := 1;
    }
  }

  const SIZE_STEP := 8  // DISCOVERED_DEVICES_SIZE_STEP

  // What iterating over the bus comes upon: a location, and which of the steps for it succeed
  datatype Sighting = Sighting(session: nat, created: bool, checksOut: bool, grown: bool)

  ghost predicate SessionsDiffer(s: seq<Device>) {
    forall i, j :: 0 <= i < j < |s| ==> s[i].session != s[j].session
  }

  // A device is listed exactly while there are references to it, and no session stands for two devices.
  ghost predicate Listed(devs: seq<Device>, refs: multiset<Device>) {
    (forall d :: d in devs ==> d in refs) && (forall d :: d in refs ==> d in devs) && SessionsDiffer(devs)
  }

  class Bus {
    var usbDevs: seq<Device>       // usb_devs
    ghost var refs: multiset<Device>  // the references that are out: one for each list entry and handle

    // Every count is the number of references that are out.
    ghost predicate Valid()
      reads this, usbDevs`refcnt
    {
      Listed(usbDevs, refs) && forall d :: d in usbDevs ==> d.refcnt == refs[d]
    }

    constructor ()
      ensures Valid() && usbDevs == [] && refs == multiset{}
    {
      usbDevs, refs := [], multiset{};
    }

    // libusb_ref_device
    method RefDevice(dev: Device)
      requires Valid() && dev in usbDevs
      modifies this`refs, dev`refcnt
      ensures Valid() && refs == old(refs) + multiset{dev}
    {
      dev.refcnt := dev.refcnt + 1;
      refs := refs + multiset{dev};
    }

    lemma RefsAreListed(s: seq<Device>)
      requires Valid() && multiset(s) <= refs
      ensures forall i :: 0 <= i < |s| ==> s[i] in usbDevs
    {
      assert forall i :: 0 <= i < |s| ==> s[i] in multiset(s);
    }

    // Whatever has references only from the list counts just those.
    lemma CountsOfNew(list: seq<Device>, before: multiset<Device>)
      requires Valid() && refs == before + multiset(list)
      ensures forall d :: d in list && before[d] == 0 ==> d.refcnt == multiset(list)[d]
    {
      assert forall d :: d in list ==> d in multiset(list);
    }

    lemma OnlyListedCount()
      requires Valid()
      ensures forall d :: d !in usbDevs ==> refs[d] == 0
    {
    }

    // libusb_unref_device: with its last reference a device leaves the list.
    method UnrefDevice(dev: Device)
      requires Valid() && dev in refs
      modifies this`refs, this`usbDevs, dev`refcnt
      ensures Valid() && refs == old(refs) - multiset{dev}
      ensures usbDevs == if old(refs)[dev] == 1 then Drop(old(usbDevs), dev) else old(usbDevs)
      ensures forall d :: d in usbDevs ==> d in old(usbDevs)
    {
      hide Drop, Listed;
      ListedLess(usbDevs, refs, dev);
      dev.refcnt := dev.refcnt - 1;
      refs := refs - multiset{dev};
      if dev.refcnt == 0 {
        usbDevs := Drop(usbDevs, dev);
      }
    }

    // usbi_alloc_device: the new device comes first in the list.
    method AllocDevice(session: nat) returns (dev: Device)
      requires Valid() && Free(session)
      modifies this`refs, this`usbDevs
      ensures Valid() && fresh(dev) && dev.session == session
      ensures usbDevs == [dev] + old(usbDevs) && refs == old(refs) + multiset{dev}
    {
      dev := new Device(session);
      usbDevs := [dev] + usbDevs;
      refs := refs + multiset{dev};
    }

    // usbi_get_device_by_session_id
    method GetDeviceBySession(session: nat) returns (dev: Device?)
      requires Valid()
      ensures dev == null <==> Free(session)
      ensures dev != null ==> dev in usbDevs && dev.session == session
    {
      var i := 0;
      while i < |usbDevs|
        invariant 0 <= i <= |usbDevs|
        invariant forall j :: 0 <= j < i ==> usbDevs[j].session != session
      {
        if usbDevs[i].session == session {
          return usbDevs[i];
        }
        i := i + 1;
      }
      dev := null;
    }

    ghost predicate Free(session: nat)
      reads this`usbDevs
    {
      forall d :: d in usbDevs ==> d.session != session
    }

    // The start of process_new_device
    method FindOrAlloc(session: nat, created: bool) returns (dev: Device?, needUnref: bool)
      requires Valid()
      modifies this`refs, this`usbDevs
      ensures Valid() && needUnref == old(Free(session))
      ensures dev == null <==> needUnref && !created
      ensures dev != null ==> dev.session == session && dev in usbDevs
      ensures needUnref && dev != null ==>
                && fresh(dev) && usbDevs == [dev] + old(usbDevs)
                && refs == old(refs) + multiset{dev} && old(refs)[dev] == 0
      ensures !needUnref || dev == null ==> usbDevs == old(usbDevs) && refs == old(refs)
    {
      dev := GetDeviceBySession(session);
      needUnref := dev == null;
      if needUnref && created {
        dev := AllocDevice(session);
      }
    }

    // libusb_open, as far as it counts references.  libusb_close gives its reference up again.
    method Open(dev: Device, accepted: bool) returns (ok: bool)
      requires Valid() && dev in refs
      modifies this`refs, this`usbDevs, usbDevs`refcnt
      ensures Valid() && ok == accepted
      ensures usbDevs == old(usbDevs) && refs == if ok then old(refs) + multiset{dev} else old(refs)
    {
      RefDevice(dev);
      if !accepted {
        UnrefDevice(dev);
      }
      ok := accepted;
    }
  }

  // less has the members of s other than x.
  ghost predicate HasOthers(s: seq<Device>, less: seq<Device>, x: Device) {
    (forall d :: d in less ==> d in s && d != x) && forall d :: d in s && d != x ==> d in less
  }

  // One reference less
  lemma ListedLess(devs: seq<Device>, refs: multiset<Device>, dev: Device)
    requires Listed(devs, refs) && dev in refs
    ensures dev in devs && (refs[dev] > 1 ==> Listed(devs, refs - multiset{dev}))
    ensures refs[dev] == 1 ==> Listed(Drop(devs, dev), refs - multiset{dev})
    ensures (refs - multiset{dev})[dev] == refs[dev] - 1
    ensures forall d :: d != dev ==> (refs - multiset{dev})[d] == refs[d]
    ensures HasOthers(devs, Drop(devs, dev), dev)
  {
    hide SessionsDiffer, Drop;
    DropKeepsSessions(devs, dev);
  }

  lemma DropKeepsSessions(s: seq<Device>, x: Device)
    requires SessionsDiffer(s)
    ensures SessionsDiffer(Drop(s, x))
    ensures HasOthers(s, Drop(s, x), x)
  {
    hide Drop;
    var i := IndexOf(s, x);
    DropIsRemoval(s, x, i);
    if i < |s| {
      var r := s[..i] + s[i + 1..];
      assert forall k :: 0 <= k < |r| ==> r[k] == s[if k < i then k else k + 1];
      forall d | d in s && d != x
        ensures d in r
      {
        var k :| 0 <= k < |s| && s[k] == d;
        assert r[if k < i then k else k - 1] == d;
      }
    }
  }

  // struct discovered_devs: an array that grows in steps
  class DiscoveredDevs {
    var devices: array<Device?>
    var len: nat
    ghost var contents: seq<Device>

    ghost predicate Valid()
      reads this, devices
    {
      && len == |contents| <= devices.Length
      && forall i :: 0 <= i < len ==> devices[i] == contents[i]
    }

    lemma LenIsCount()
      requires Valid()
      ensures len == |contents|
    {
    }

    // discovered_devs_alloc
    constructor ()
      ensures Valid() && contents == [] && devices.Length == SIZE_STEP && fresh(devices)
    {
      devices, len, contents := new Device?[SIZE_STEP](_ => null), 0, [];
    }

    // realloc
    method Grow()
      requires Valid()
      modifies this`devices
      ensures Valid() && fresh(devices) && devices.Length == old(devices.Length) + SIZE_STEP
    {
      var larger := new Device?[devices.Length + SIZE_STEP](_ => null);
      forall i | 0 <= i < len {
        larger[i] := devices[i];
      }
      devices := larger;
    }

    // discovered_devs_append, where `grown` says whether realloc succeeds if it is needed
    method Append(bus: Bus, dev: Device, grown: bool) returns (ok: bool)
      requires Valid() && bus.Valid() && dev in bus.usbDevs
      modifies this, devices, bus`refs, dev`refcnt
      ensures Valid() && bus.Valid()
      ensures ok <==> old(len) < old(devices.Length) || grown
      ensures ok ==> contents == old(contents) + [dev] && bus.refs == old(bus.refs) + multiset{dev}
      ensures !ok ==> contents == old(contents) && bus.refs == old(bus.refs)
      ensures devices == old(devices) || fresh(devices)
      ensures devices.Length ==
              old(devices.Length) + if ok && old(len) == old(devices.Length) then 8 else 0
    {
      if len == devices.Length {
        if !grown {
          return false;
        }
        Grow();
      }
      devices[len] := dev;
      bus.RefDevice(dev);
      contents := contents + [dev];
      len := len + 1;
      ok := true;
    }
  }

  // process_new_device: a device that is appended has gained one reference, and nothing else is left
  // behind, on whichever path.
  method ProcessNewDevice(bus: Bus, found: DiscoveredDevs, s: Sighting) returns (ok: bool, ghost dev: Device?)
    requires bus.Valid() && found.Valid()
    modifies bus`refs, bus`usbDevs, bus.usbDevs`refcnt, found, found.devices
    ensures bus.Valid() && found.Valid() && (found.devices == old(found.devices) || fresh(found.devices))
    ensures ok <==>
              && s.checksOut
              && (s.created || !old(bus.Free(s.session)))
              && (s.grown || old(found.len) < old(found.devices.Length))
    ensures ok ==>
              && dev != null && dev.session == s.session
              && found.contents == old(found.contents) + [dev] && bus.refs == old(bus.refs) + multiset{dev}
              && if old(bus.Free(s.session)) then fresh(dev) && bus.usbDevs == [dev] + old(bus.usbDevs)
                 else dev in old(bus.usbDevs) && bus.usbDevs == old(bus.usbDevs)
    ensures !ok ==> bus.refs == old(bus.refs) && bus.usbDevs == old(bus.usbDevs)
    ensures !ok ==> found.contents == old(found.contents)
    ensures found.devices.Length ==
            old(found.devices.Length) + if ok && old(found.len) == old(found.devices.Length) then 8 else 0
  {
    hide Bus.Valid, DiscoveredDevs.Valid, Bus.Free, Drop;
    var candidate, needUnref := bus.FindOrAlloc(s.session, s.created);
    dev := candidate;
    if candidate == null {
      return false, dev;
    }
    var device: Device := candidate;
    ok := AppendIfSound(bus, found, device, s);
    if needUnref {
      GiveUpNew(bus, device, ok, old(bus.usbDevs), old(bus.refs));
    }
  }

  // The reference that a new device came with is given up; the device stays if it has been appended.
  method GiveUpNew(bus: Bus, dev: Device, kept: bool, ghost devs: seq<Device>, ghost refs: multiset<Device>)
    requires bus.Valid() && bus.usbDevs == [dev] + devs && refs[dev] == 0
    requires bus.refs == if kept then refs + multiset{dev} + multiset{dev} else refs + multiset{dev}
    modifies bus`refs, bus`usbDevs, dev`refcnt
    ensures bus.Valid()
    ensures bus.refs == if kept then refs + multiset{dev} else refs
    ensures bus.usbDevs == if kept then [dev] + devs else devs
  {
    hide Bus.Valid, Drop;
    DropFirst(dev, devs);
    bus.UnrefDevice(dev);
  }

  // The device is appended unless reading its descriptors fails.
  method AppendIfSound(bus: Bus, found: DiscoveredDevs, dev: Device, s: Sighting) returns (ok: bool)
    requires bus.Valid() && found.Valid() && dev in bus.usbDevs
    modifies bus`refs, dev`refcnt, found, found.devices
    ensures bus.Valid() && found.Valid() && (found.devices == old(found.devices) || fresh(found.devices))
    ensures ok <==> s.checksOut && (s.grown || old(found.len) < old(found.devices.Length))
    ensures found.contents == if ok then old(found.contents) + [dev] else old(found.contents)
    ensures bus.refs == if ok then old(bus.refs) + multiset{dev} else old(bus.refs)
    ensures found.devices.Length ==
            old(found.devices.Length) + if ok && old(found.len) == old(found.devices.Length) then 8 else 0
  {
    ok := s.checksOut;
    if ok {
      ok := found.Append(bus, dev, s.grown);
    }
  }

  lemma DropFirst(x: Device, s: seq<Device>)
    ensures Drop([x] + s, x) == s
  {
  }

  // Every device was listed before, or has just been made.
  twostate predicate OldOrNew(bus: Bus)
    reads bus
  {
    forall i :: 0 <= i < |bus.usbDevs| ==> bus.usbDevs[i] in old(bus.usbDevs) || fresh(bus.usbDevs[i])
  }

  // The sessions that a discovery finds, in order: those of the sightings that check out, for which there is a
  // device or one can be made, and for which the array has room or can grow by another 8 places
  function Discovered(sightings: seq<Sighting>, known: set<nat>): seq<nat> {
    if sightings == [] then []
    else
      var before, s := Discovered(sightings[..|sightings| - 1], known), sightings[|sightings| - 1];
      if s.checksOut && (s.created || s.session in known || s.session in before) && (s.grown || HasRoom(|before|))
      then before + [s.session] else before
  }

  predicate HasRoom(n: nat) {
    n < 8 || n % 8 != 0
  }

  // The places of an array that starts with 8 and grows by 8
  function Places(n: nat): nat {
    if n <= 8 then 8 else (n + 7) / 8 * 8
  }

  function SessionsOf(devs: seq<Device>): (sessions: seq<nat>)
    ensures |sessions| == |devs| && forall i :: 0 <= i < |devs| ==> sessions[i] == devs[i].session
  {
    seq(|devs|, i requires 0 <= i < |devs| => devs[i].session)
  }

  function Known(devs: seq<Device>): set<nat> {
    set i | 0 <= i < |devs| :: devs[i].session
  }

  // Where a discovery has got after some of the sightings: the list of devices, what has been found, and the
  // places for it
  ghost predicate Progress(devs: seq<Device>, found: seq<Device>, places: int, sightings: seq<Sighting>,
                           known: set<nat>) {
    && SessionsOf(found) == Discovered(sightings, known) && places == Places(|found|)
    && Known(devs) == known + Known(found)
  }

  lemma RoomForOneMore(n: nat)
    ensures n <= Places(n) && (HasRoom(n) <==> n < Places(n))
    ensures Places(n + 1) == Places(n) + if HasRoom(n) then 0 else 8
  {
  }

  lemma OneMoreSighting(devs: seq<Device>, found: seq<Device>, places: int, before: seq<Sighting>, known: set<nat>,
                        s: Sighting, ok: bool, dev: Device?, devs': seq<Device>, found': seq<Device>)
    requires Progress(devs, found, places, before, known)
    requires ok <==>
               s.checksOut && (s.created || s.session in Known(devs)) && (s.grown || |found| < places)
    requires ok ==> dev != null && dev.session == s.session && found' == found + [dev]
    requires ok ==> devs' == [dev] + devs || (devs' == devs && dev in devs)
    requires !ok ==> found' == found && devs' == devs
    ensures Progress(devs', found', places + if ok && |found| == places then 8 else 0, before + [s], known)
  {
    hide Known, Places, HasRoom;
    RoomForOneMore(|found|);
    KnownIsListed(found, s.session);
    assert (before + [s])[..|before|] == before;
    if ok {
      KnownOneMore(devs, dev);
      KnownOneMore(found, dev);
      if dev in devs {
        MemberIsKnown(devs, dev);
        assert Known(devs) + {s.session} == Known(devs);
      }
      assert known + Known(found') == Known(devs) + {s.session};
    }
  }

  lemma MemberIsKnown(devs: seq<Device>, dev: Device)
    requires dev in devs
    ensures dev.session in Known(devs)
  {
  }

  lemma FreeIsUnknown(bus: Bus, session: nat)
    ensures bus.Free(session) <==> session !in Known(bus.usbDevs)
  {
    if session in Known(bus.usbDevs) {
      var i :| 0 <= i < |bus.usbDevs| && bus.usbDevs[i].session == session;
      assert bus.usbDevs[i] in bus.usbDevs;
    }
  }

  lemma KnownIsListed(devs: seq<Device>, session: nat)
    ensures session in Known(devs) <==> session in SessionsOf(devs)
  {
  }

  lemma KnownOneMore(devs: seq<Device>, d: Device)
    ensures Known([d] + devs) == Known(devs) + {d.session} && Known(devs + [d]) == Known(devs) + {d.session}
    ensures SessionsOf(devs + [d]) == SessionsOf(devs) + [d.session]
  {
    assert ([d] + devs)[0] == d && forall i :: 0 <= i < |devs| ==> ([d] + devs)[i + 1] == devs[i];
    assert (devs + [d])[|devs|] == d && forall i :: 0 <= i < |devs| ==> (devs + [d])[i] == devs[i];
  }

  // One turn of its loop
  method SeeDevice(bus: Bus, found: DiscoveredDevs, s: Sighting, ghost before: seq<Sighting>, ghost known: set<nat>,
                   ghost refs: multiset<Device>)
    requires bus.Valid() && found.Valid() && bus.refs == refs + multiset(found.contents)
    requires Progress(bus.usbDevs, found.contents, found.devices.Length, before, known)
    modifies bus`refs, bus`usbDevs, bus.usbDevs`refcnt, found, found.devices
    ensures bus.Valid() && found.Valid() && (found.devices == old(found.devices) || fresh(found.devices))
    ensures Progress(bus.usbDevs, found.contents, found.devices.Length, before + [s], known)
    ensures bus.usbDevs == old(bus.usbDevs)
         || exists d :: fresh(d) && bus.usbDevs == [d] + old(bus.usbDevs)
    ensures bus.refs == refs + multiset(found.contents)
  {
    hide Bus.Valid, DiscoveredDevs.Valid, Bus.Free, Drop, Progress, Known, Discovered, SessionsOf;
    ghost var devs, contents, places := bus.usbDevs, found.contents, found.devices.Length;
    FreeIsUnknown(bus, s.session);
    found.LenIsCount();
    var ok, dev := ProcessNewDevice(bus, found, s);
    OneMoreSighting(devs, contents, places, before, known, s, ok, dev, bus.usbDevs, found.contents);
  }

  // darwin_get_device_list, after its iterator has been set up
  method DiscoverDevices(bus: Bus, found: DiscoveredDevs, sightings: seq<Sighting>)
    requires bus.Valid() && found.Valid() && found.contents == [] && found.devices.Length == 8
    modifies bus`refs, bus`usbDevs, bus.usbDevs`refcnt, found, found.devices
    ensures bus.Valid() && found.Valid() && OldOrNew(bus)
    ensures bus.refs == old(bus.refs) + multiset(found.contents)
    ensures found.devices == old(found.devices) || fresh(found.devices)
    ensures SessionsOf(found.contents) == Discovered(sightings, old(Known(bus.usbDevs)))
  {
    hide Bus.Valid, DiscoveredDevs.Valid, Bus.Free, Drop, Progress, Known, Discovered, SessionsOf;
    ghost var known := Known(bus.usbDevs);
    NothingFound(known);
    var i := 0;
    while i < |sightings|
      invariant 0 <= i <= |sightings|
      invariant Progress(bus.usbDevs, found.contents, found.devices.Length, sightings[..i], known)
      invariant bus.Valid() && found.Valid() && OldOrNew(bus)
      invariant bus.refs == old(bus.refs) + multiset(found.contents)
      invariant found.devices == old(found.devices) || fresh(found.devices)
    {
      assert sightings[..i + 1] == sightings[..i] + [sightings[i]];
      SeeDevice(bus, found, sightings[i], sightings[..i], known, old(bus.refs));
      i := i + 1;
    }
    assert sightings[..i] == sightings;
    AllFound(bus.usbDevs, found.contents, found.devices.Length, sightings, known);
  }

  lemma NothingFound(known: set<nat>)
    ensures forall devs :: Known(devs) == known ==> Progress(devs, [], 8, [], known)
  {
    assert Known([]) == {};
  }

  lemma AllFound(devs: seq<Device>, found: seq<Device>, places: int, sightings: seq<Sighting>, known: set<nat>)
    requires Progress(devs, found, places, sightings, known)
    ensures SessionsOf(found) == Discovered(sightings, known)
  {
  }

  const NO_MEM := -11  // LIBUSB_ERROR_NO_MEM

  // libusb_get_device_list: on every path the references that remain are those of the list returned.  A
  // device that is new has one for each of its places in the list.
  method GetDeviceList(bus: Bus, sightings: seq<Sighting>, created: bool, backendResult: int, listCreated: bool)
    returns (len: int, list: seq<Device>)
    requires bus.Valid() && backendResult <= 0
    modifies bus`refs, bus`usbDevs, bus.usbDevs`refcnt
    ensures bus.Valid() && OldOrNew(bus)
    ensures bus.refs == old(bus.refs) + multiset(list)
    ensures len >= 0 <==> created && backendResult == 0 && listCreated
    ensures len < 0 ==> len == if created && backendResult < 0 then backendResult else -11
    ensures if len >= 0 then len == |list| else list == []
    ensures len >= 0 ==> SessionsOf(list) == Discovered(sightings, old(Known(bus.usbDevs)))
    ensures forall d :: d in list && d !in old(bus.usbDevs) ==> d.refcnt == multiset(list)[d]
  {
    hide Bus.Valid, DiscoveredDevs.Valid, Drop;
    bus.OnlyListedCount();
    if !created {
      return NO_MEM, [];
    }
    var found := new DiscoveredDevs();
    len, list := FillList(bus, found, sightings, backendResult, listCreated);
    ghost var before := bus.usbDevs;
    FreeDiscovered(bus, found);
    forall i | 0 <= i < |bus.usbDevs|
      ensures bus.usbDevs[i] in old(bus.usbDevs) || fresh(bus.usbDevs[i])
    {
      var d := bus.usbDevs[i];
      assert d in before;
    }
    bus.CountsOfNew(list, old(bus.refs));
  }

  // Discovery, and the conversion into a list
  method FillList(bus: Bus, found: DiscoveredDevs, sightings: seq<Sighting>, backendResult: int, listCreated: bool)
    returns (len: int, list: seq<Device>)
    requires bus.Valid() && found.Valid() && found.contents == [] && found.devices.Length == 8 && backendResult <= 0
    modifies bus`refs, bus`usbDevs, bus.usbDevs`refcnt, found, found.devices
    ensures bus.Valid() && found.Valid() && OldOrNew(bus)
    ensures len >= 0 ==> SessionsOf(list) == Discovered(sightings, old(Known(bus.usbDevs)))
    ensures bus.refs == old(bus.refs) + multiset(found.contents) + multiset(list)
    ensures len >= 0 <==> backendResult == 0 && listCreated
    ensures len < 0 ==> len == if backendResult < 0 then backendResult else -11
    ensures if len >= 0 then len == |list| else list == []
  {
    hide Bus.Valid, DiscoveredDevs.Valid, Drop;
    if backendResult < 0 {
      return backendResult, [];
    }
    DiscoverDevices(bus, found, sightings);
    if !listCreated {
      return NO_MEM, [];
    }
    len, list := CopyList(bus, found);
  }

  // The end of libusb_get_device_list: the list takes a reference of its own to every device.
  method CopyList(bus: Bus, found: DiscoveredDevs) returns (len: int, list: seq<Device>)
    requires bus.Valid() && found.Valid() && multiset(found.contents) <= bus.refs
    modifies bus`refs, bus.usbDevs`refcnt
    ensures bus.Valid() && len == |list| && list == found.contents
    ensures bus.refs == old(bus.refs) + multiset(list)
  {
    hide Bus.Valid, Taken;
    bus.RefsAreListed(found.contents);
    list := [];
    var i := 0;
    ghost var was := bus.refs;
    TakenNone(was, found.contents);
    while i < found.len
      invariant 0 <= i <= found.len && bus.Valid() && list == found.contents[..i]
      invariant Taken(bus.refs, was, found.contents, i)
    {
      var dev: Device := found.devices[i];
      TakeOne(bus.refs, was, found.contents, i);
      bus.RefDevice(dev);
      list := list + [dev];
      i := i + 1;
    }
    len := found.len;
    TakenAll(bus.refs, was, found.contents);
  }

  // The first i members of s have got references in addition to those in `was`.
  ghost predicate Taken(refs: multiset<Device>, was: multiset<Device>, s: seq<Device>, i: int) {
    0 <= i <= |s| && refs == was + multiset(s[..i])
  }

  lemma TakenNone(was: multiset<Device>, s: seq<Device>)
    ensures Taken(was, was, s, 0)
  {
  }

  lemma TakenAll(refs: multiset<Device>, was: multiset<Device>, s: seq<Device>)
    requires Taken(refs, was, s, |s|)
    ensures refs == was + multiset(s) && s[..|s|] == s
  {
    assert s[..|s|] == s;
  }

  lemma TakeOne(refs: multiset<Device>, was: multiset<Device>, s: seq<Device>, i: nat)
    requires Taken(refs, was, s, i) && i < |s|
    ensures Taken(refs + multiset{s[i]}, was, s, i + 1)
  {
    assert s[..i + 1] == s[..i] + [s[i]];
  }

  // discovered_devs_free
  method FreeDiscovered(bus: Bus, found: DiscoveredDevs)
    requires bus.Valid() && found.Valid() && multiset(found.contents) <= bus.refs
    modifies bus`refs, bus`usbDevs, bus.usbDevs`refcnt
    ensures bus.Valid() && bus.refs == old(bus.refs) - multiset(found.contents)
    ensures forall d :: d in bus.usbDevs ==> d in old(bus.usbDevs)
  {
    hide Bus.Valid, Drop, Released;
    bus.RefsAreListed(found.contents);
    ghost var was := bus.refs;
    ReleasedNone(was, found.contents);
    var i := 0;
    while i < found.len
      invariant 0 <= i <= found.len && bus.Valid()
      invariant Released(bus.refs, was, found.contents, i)
      invariant forall d :: d in bus.usbDevs ==> d in old(bus.usbDevs)
    {
      var dev: Device := found.devices[i];
      ReleaseOne(bus.refs, was, found.contents, i);
      bus.UnrefDevice(dev);
      i := i + 1;
    }
    ReleasedAll(bus.refs, was, found.contents);
  }

  // The first i members of s have given up the references that they had in `was`.
  ghost predicate Released(refs: multiset<Device>, was: multiset<Device>, s: seq<Device>, i: int) {
    0 <= i <= |s| && refs == was - multiset(s[..i])
  }

  lemma ReleasedNone(was: multiset<Device>, s: seq<Device>)
    ensures Released(was, was, s, 0)
  {
  }

  lemma ReleasedAll(refs: multiset<Device>, was: multiset<Device>, s: seq<Device>)
    requires Released(refs, was, s, |s|)
    ensures refs == was - multiset(s)
  {
    assert s[..|s|] == s;
  }

  lemma ReleaseOne(refs: multiset<Device>, was: multiset<Device>, s: seq<Device>, i: nat)
    requires Released(refs, was, s, i) && i < |s| && multiset(s) <= was
    ensures s[i] in refs && Released(refs - multiset{s[i]}, was, s, i + 1)
  {
    assert s[..i + 1] == s[..i] + [s[i]];
    assert s == s[..i + 1] + s[i + 1..];
  }

  // libusb_free_device_list, for a list that the caller still holds the references of
  method FreeDeviceList(bus: Bus, list: seq<Device>, unrefDevices: bool)
    requires bus.Valid() && (unrefDevices ==> multiset(list) <= bus.refs)
    modifies bus`refs, bus`usbDevs, bus.usbDevs`refcnt
    ensures bus.Valid()
    ensures bus.refs == if unrefDevices then old(bus.refs) - multiset(list) else old(bus.refs)
    ensures forall d :: d in bus.usbDevs ==> d in old(bus.usbDevs)
  {
    if unrefDevices {
      UnrefAll(bus, list);
    }
  }

  method UnrefAll(bus: Bus, list: seq<Device>)
    requires bus.Valid() && multiset(list) <= bus.refs
    modifies bus`refs, bus`usbDevs, bus.usbDevs`refcnt
    ensures bus.Valid() && bus.refs == old(bus.refs) - multiset(list)
    ensures forall d :: d in bus.usbDevs ==> d in old(bus.usbDevs)
  {
    hide Bus.Valid, Drop, Released;
    bus.RefsAreListed(list);
    ghost var was := bus.refs;
    ReleasedNone(was, list);
    var i := 0;
    while i < |list|
      invariant 0 <= i <= |list| && bus.Valid()
      invariant Released(bus.refs, was, list, i)
      invariant forall d :: d in bus.usbDevs ==> d in old(bus.usbDevs)
    {
      var dev: Device := list[i];
      ReleaseOne(bus.refs, was, list, i);
      bus.UnrefDevice(dev);
      i := i + 1;
    }
    ReleasedAll(bus.refs, was, list);
  }

  // Listing the devices and freeing the list leaves every device and every count as it was.
  method ListThenFree(bus: Bus, sightings: seq<Sighting>, created: bool, backendResult: int, listCreated: bool)
    requires bus.Valid() && backendResult <= 0
    modifies bus`refs, bus`usbDevs, bus.usbDevs`refcnt
    ensures bus.Valid() && bus.refs == old(bus.refs)
    ensures forall d :: d in bus.usbDevs <==> d in old(bus.usbDevs)
    ensures forall d :: d in old(bus.usbDevs) ==> d.refcnt == old(d.refcnt)
  {
    var len, list := GetDeviceList(bus, sightings, created, backendResult, listCreated);
    FreeDeviceList(bus, list, true);
  }
}
