/** Matching the cameras found on the network with the configured camera slots. */
module CameraSlots {
  import opened Wrappers
  import opened ConfigModel

  const SLOT_COUNT := 6
  const MAXIMUM_NAME := 128
  const MAXIMUM_ADDRESS := 45

  datatype Device = Device(model: string, serial: string, address: string, interface: string, available: bool)

  datatype Binding = Binding(cameraId: string, serial: string)

  datatype Status = Ready | Missing | Occupied

  datatype Slot = Slot(cameraId: string, serial: string, status: Status, device: Option<Device>)

  datatype Report = Report(slots: seq<Slot>, unexpected: seq<Device>)

  datatype SlotError = TooManySlots | InvalidDevice | DuplicateDevice | InvalidCameraId | InvalidSerial

  /** Text from outside: neither empty nor too long, and without control characters. */
  predicate ValidText(s: string, maximum: nat) {
    0 < |s| <= maximum && forall i | 0 <= i < |s| :: s[i] >= ' ' && s[i] != 0x7F as char
  }

  predicate ValidDevice(d: Device) {
    && ValidText(d.serial, MAXIMUM_NAME) && ValidText(d.model, MAXIMUM_NAME)
    && ValidText(d.address, MAXIMUM_ADDRESS) && ValidText(d.interface, MAXIMUM_NAME)
  }

  predicate ValidInventory(devices: seq<Device>) {
    && (forall i | 0 <= i < |devices| :: ValidDevice(devices[i]))
    && DistinctSerials(devices)
  }

  predicate DistinctSerials(devices: seq<Device>) {
    forall i, j | 0 <= i < j < |devices| :: devices[i].serial != devices[j].serial
  }

  predicate ValidBindings(bindings: seq<Binding>) {
    && (forall i | 0 <= i < |bindings| ::
          CanonicalCameraId(bindings[i].cameraId) && ValidText(bindings[i].serial, MAXIMUM_NAME))
    && (forall i, j | 0 <= i < j < |bindings| ::
          bindings[i].cameraId != bindings[j].cameraId && bindings[i].serial != bindings[j].serial)
  }

  /** The first device with that serial number. */
  function Find(devices: seq<Device>, serial: string): (k: nat)
    ensures k <= |devices|
    ensures k < |devices| ==> devices[k].serial == serial
    ensures forall i | 0 <= i < k :: devices[i].serial != serial
  {
    if devices == [] || devices[0].serial == serial then 0 else 1 + Find(devices[1..], serial)
  }

  function SlotFor(b: Binding, devices: seq<Device>): Slot {
    var k := Find(devices, b.serial);
    if k == |devices| then Slot(b.cameraId, b.serial, Missing, None)
    else Slot(b.cameraId, b.serial, if devices[k].available then Ready else Occupied, Some(devices[k]))
  }

  function SlotsFor(bindings: seq<Binding>, devices: seq<Device>): (r: seq<Slot>)
    ensures |r| == |bindings| && forall i | 0 <= i < |bindings| :: r[i] == SlotFor(bindings[i], devices)
  {
    if bindings == [] then []
    else SlotsFor(bindings[..|bindings| - 1], devices) + [SlotFor(bindings[|bindings| - 1], devices)]
  }

  function Serials(bindings: seq<Binding>): set<string> {
    set i | 0 <= i < |bindings| :: bindings[i].serial
  }

  /** The devices with none of these serial numbers, in order. */
  function Others(devices: seq<Device>, serials: set<string>): seq<Device> {
    if devices == [] then []
    else
      var last := devices[|devices| - 1];
      Others(devices[..|devices| - 1], serials) + if last.serial in serials then [] else [last]
  }

  // ---------------------------------------------------------------- the algorithms

  method ValidateDeviceInventory(devices: seq<Device>) returns (error: Option<SlotError>)
    ensures error.None? <==> ValidInventory(devices)
  {
    hide ValidText;
    var serials: set<string> := {};
    for i := 0 to |devices|
      invariant forall k | 0 <= k < i :: ValidDevice(devices[k])
      invariant DistinctSerials(devices[..i])
      invariant forall s :: s in serials <==> exists k :: 0 <= k < i && devices[k].serial == s
    {
      var d := devices[i];
      if !ValidDevice(d) {
        return Some(InvalidDevice);
      }
      if d.serial in serials {
        return Some(DuplicateDevice);
      }
      serials := serials + {d.serial};
    }
    assert devices[..|devices|] == devices;
    return None;
  }

  method ValidateBindings(bindings: seq<Binding>) returns (error: Option<SlotError>, serials: set<string>)
    ensures error.None? <==> ValidBindings(bindings)
    ensures error.None? ==> serials == Serials(bindings)
  {
    hide ValidText, CanonicalCameraId;
    var ids: set<string> := {};
    serials := {};
    for i := 0 to |bindings|
      invariant ValidBindings(bindings[..i])
      invariant serials == Serials(bindings[..i])
      invariant forall s :: s in ids <==> exists k :: 0 <= k < i && bindings[k].cameraId == s
    {
      var b := bindings[i];
      if !CanonicalCameraId(b.cameraId) || b.cameraId in ids {
        return Some(InvalidCameraId), serials;
      }
      ids := ids + {b.cameraId};
      if !ValidText(b.serial, MAXIMUM_NAME) || b.serial in serials {
        return Some(InvalidSerial), serials;
      }
      serials := serials + {b.serial};
    }
    assert bindings[..|bindings|] == bindings;
    return None, serials;
  }

  method MatchSlots(bindings: seq<Binding>, devices: seq<Device>) returns (slots: seq<Slot>)
    ensures slots == SlotsFor(bindings, devices)
  {
    slots := [];
    for i := 0 to |bindings|
      invariant slots == SlotsFor(bindings[..i], devices)
    {
      var b := bindings[i];
      var k := 0;
      while k < |devices| && devices[k].serial != b.serial
        invariant k <= |devices| && forall j | 0 <= j < k :: devices[j].serial != b.serial
      {
        k := k + 1;
      }
      var slot := Slot(b.cameraId, b.serial, Missing, None);
      if k < |devices| {
        slot := Slot(b.cameraId, b.serial, if devices[k].available then Ready else Occupied, Some(devices[k]));
      }
      assert k == Find(devices, b.serial);
      assert bindings[..i + 1][..i] == bindings[..i];
      slots := slots + [slot];
    }
    assert bindings[..|bindings|] == bindings;
  }

  method CollectUnexpected(devices: seq<Device>, serials: set<string>) returns (unexpected: seq<Device>)
    ensures unexpected == Others(devices, serials)
  {
    unexpected := [];
    for i := 0 to |devices|
      invariant unexpected == Others(devices[..i], serials)
    {
      if devices[i].serial !in serials {
        unexpected := unexpected + [devices[i]];
      }
      assert devices[..i + 1][..i] == devices[..i];
    }
    assert devices[..|devices|] == devices;
  }

  method ReconcileCameraSlots(bindings: seq<Binding>, devices: seq<Device>) returns (result: Result<Report, SlotError>)
    ensures result.Success? <==> |bindings| <= SLOT_COUNT && ValidInventory(devices) && ValidBindings(bindings)
    ensures result.Success? ==>
              && result.value.slots == SlotsFor(bindings, devices)
              && result.value.unexpected == Others(devices, Serials(bindings))
  {
    hide ValidInventory, ValidBindings;
    if |bindings| > SLOT_COUNT {
      return Failure(TooManySlots);
    }
    var inventory := ValidateDeviceInventory(devices);
    if inventory.Some? {
      return Failure(inventory.value);
    }
    var invalid, serials := ValidateBindings(bindings);
    if invalid.Some? {
      return Failure(invalid.value);
    }
    var slots := MatchSlots(bindings, devices);
    var unexpected := CollectUnexpected(devices, serials);
    return Success(Report(slots, unexpected));
  }

  /**
   A slot gets the one device of its serial number and shows whether it can be used; without such a
   device it is missing.
   */
  lemma SlotGetsItsDevice(b: Binding, devices: seq<Device>, k: nat)
    requires DistinctSerials(devices)
    ensures var slot := SlotFor(b, devices);
            && slot.cameraId == b.cameraId && slot.serial == b.serial
            && (slot.status.Missing? <==> slot.device.None?)
            && (slot.device.None? ==> forall i | 0 <= i < |devices| :: devices[i].serial != b.serial)
            && (k < |devices| && devices[k].serial == b.serial ==>
                  slot.device == Some(devices[k]) && slot.status == if devices[k].available then Ready else Occupied)
  {
    var found := Find(devices, b.serial);
    if k < |devices| && devices[k].serial == b.serial {
      assert found == k;
    }
  }

  // ---------------------------------------------------------------- every device has one place

  /** The devices the slots got. */
  function Placed(slots: seq<Slot>): seq<Device> {
    if slots == [] then []
    else
      var last := slots[|slots| - 1];
      Placed(slots[..|slots| - 1]) + if last.device.Some? then [last.device.value] else []
  }

  /** One more serial number takes its device, if there is one, out of the others. */
  lemma {:induction false} OneMoreSerial(devices: seq<Device>, serials: set<string>, serial: string)
    requires DistinctSerials(devices) && serial !in serials
    ensures var k := Find(devices, serial);
            multiset(Others(devices, serials))
            == multiset(Others(devices, serials + {serial}))
               + (if k < |devices| then multiset{devices[k]} else multiset{})
  {
    if devices != [] {
      var front, last := devices[..|devices| - 1], devices[|devices| - 1];
      OneMoreSerial(front, serials, serial);
      FindInFront(devices, serial);
      OthersWithLast(devices, serials);
      OthersWithLast(devices, serials + {serial});
      assert last.serial == serial ==> Find(front, serial) == |front|;
      hide Find, Others, DistinctSerials;
      if last.serial == serial {
        assert multiset(Others(front, serials)) == multiset(Others(front, serials + {serial}));
      } else {
        var k := Find(front, serial);
        var found := if k < |front| then multiset{front[k]} else multiset{};
        var rest := if last.serial in serials then multiset{} else multiset{last};
        MovesOver(multiset(Others(devices, serials)), multiset(Others(front, serials + {serial})), rest, found);
      }
    }
  }

  lemma OthersWithLast(devices: seq<Device>, serials: set<string>)
    requires devices != []
    ensures var front, last := devices[..|devices| - 1], devices[|devices| - 1];
            multiset(Others(devices, serials))
            == multiset(Others(front, serials)) + (if last.serial in serials then multiset{} else multiset{last})
  {
  }

  lemma {:induction false} FindInFront(devices: seq<Device>, serial: string)
    requires devices != []
    ensures var front, last := devices[..|devices| - 1], devices[|devices| - 1];
            Find(devices, serial) == if Find(front, serial) < |front| then Find(front, serial)
                                     else if last.serial == serial then |front| else |devices|
  {
  }

  lemma {:induction false} WithoutSerials(devices: seq<Device>)
    ensures Others(devices, {}) == devices
  {
    if devices != [] {
      WithoutSerials(devices[..|devices| - 1]);
    }
  }

  lemma {:induction false} DevicesAreDivided(bindings: seq<Binding>, devices: seq<Device>)
    requires DistinctBindings(bindings) && DistinctSerials(devices)
    ensures multiset(devices)
         == multiset(Placed(SlotsFor(bindings, devices))) + multiset(Others(devices, Serials(bindings)))
  {
    if bindings == [] {
      NothingConfigured(devices);
    } else {
      var front, last := bindings[..|bindings| - 1], bindings[|bindings| - 1];
      DevicesAreDivided(front, devices);
      OneMoreBinding(front, last);
      assert front + [last] == bindings;
      hide DistinctSerials, DistinctBindings, Others, Placed, SlotsFor, Serials;
      OneMoreSerial(devices, Serials(front), last.serial);
      OneMoreSlot(front, last, devices);
      var k := Find(devices, last.serial);
      var moved := if k < |devices| then multiset{devices[k]} else multiset{};
      MovesOver(multiset(devices), multiset(Placed(SlotsFor(front, devices))), moved,
                multiset(Others(devices, Serials(bindings))));
    }
  }

  predicate DistinctBindings(bindings: seq<Binding>) {
    forall i, j | 0 <= i < j < |bindings| :: bindings[i].serial != bindings[j].serial
  }

  lemma MovesOver(all: multiset<Device>, a: multiset<Device>, x: multiset<Device>, b: multiset<Device>)
    requires all == a + (b + x)
    ensures all == (a + x) + b
  {
  }

  lemma NothingConfigured(devices: seq<Device>)
    ensures multiset(devices) == multiset(Placed(SlotsFor([], devices))) + multiset(Others(devices, Serials([])))
  {
    assert Serials([]) == {};
    WithoutSerials(devices);
  }

  lemma OneMoreBinding(front: seq<Binding>, last: Binding)
    requires DistinctBindings(front + [last])
    ensures Serials(front + [last]) == Serials(front) + {last.serial} && last.serial !in Serials(front)
  {
    var all := front + [last];
    assert all[|front|] == last && forall i | 0 <= i < |front| :: all[i] == front[i];
  }

  lemma OneMoreSlot(front: seq<Binding>, last: Binding, devices: seq<Device>)
    ensures var k := Find(devices, last.serial);
            multiset(Placed(SlotsFor(front + [last], devices)))
            == multiset(Placed(SlotsFor(front, devices)))
               + (if k < |devices| then multiset{devices[k]} else multiset{})
  {
    assert SlotsFor(front + [last], devices)[..|front|] == SlotsFor(front, devices);
  }

  /**
   Every device found is in exactly one place, a slot or the list of unexpected devices; so there are
   as many devices as slots that are not missing and unexpected devices together.
   */
  lemma EveryDeviceHasOnePlace(bindings: seq<Binding>, devices: seq<Device>)
    requires ValidBindings(bindings) && ValidInventory(devices)
    ensures var placed, unexpected := Placed(SlotsFor(bindings, devices)), Others(devices, Serials(bindings));
            && multiset(devices) == multiset(placed) + multiset(unexpected)
            && |devices| == |placed| + |unexpected|
  {
    DevicesAreDivided(bindings, devices);
    assert |multiset(devices)| == |devices|;
  }
}
