/** The GATT server of the BLE stack, seen through the few calls the
    peripheral makes on it: registering a service table, and writing a
    characteristic value (which also pushes a notification to subscribers).
    Handle allocation and the ATT wire encoding are the stack's business and
    are not modelled: value handles arrive as inputs. */
module Gatt {

  /** `uint8_t` */
  newtype byte = x: int | 0 <= x < 0x100

  /** `GattAttribute::Handle_t`, a 16-bit attribute handle */
  newtype Handle = x: int | 0 <= x < 0x1_0000

  /** A 16-bit Bluetooth SIG assigned UUID */
  newtype Uuid16 = x: int | 0 <= x < 0x1_0000

  /** The access mode fixed by the characteristic's class template
      (`ReadOnlyGattCharacteristic` or `WriteOnlyGattCharacteristic`) */
  datatype Access = ReadOnly | WriteOnly

  /** The extra property bits passed to the template:
      `BLE_GATT_CHAR_PROPERTIES_NONE` or `BLE_GATT_CHAR_PROPERTIES_NOTIFY` */
  datatype ExtraProperties = NoExtra | Notify

  /** A descriptor attribute (`GattAttribute`): its type, its initial value
      buffer, the maximum length of the value and whether it is of variable length */
  datatype Descriptor = Descriptor(uuid: Uuid16, value: seq<byte>, maxLength: nat, variableLength: bool)

  datatype Characteristic = Characteristic(
    uuid: Uuid16,
    access: Access,
    extra: ExtraProperties,
    initialValue: seq<byte>,
    valueHandle: Handle,
    descriptors: seq<Descriptor>)

  datatype Service = Service(uuid: Uuid16, characteristics: seq<Characteristic>)

  /** One call of `gattServer().write`: the value pushed to a handle */
  datatype Push = Push(handle: Handle, value: seq<byte>)

  /** No two characteristics of the table share a value handle */
  predicate DistinctHandles(cs: seq<Characteristic>) {
    forall i, j :: 0 <= i < j < |cs| ==> cs[i].valueHandle != cs[j].valueHandle
  }

  /** The attribute values a table adds to the server: each characteristic's
      value handle holds its initial value */
  function InitialValues(cs: seq<Characteristic>): (m: map<Handle, seq<byte>>)
    ensures m.Keys == set c | c in cs :: c.valueHandle
    ensures DistinctHandles(cs) ==>
      forall i :: 0 <= i < |cs| ==> m[cs[i].valueHandle] == cs[i].initialValue
  {
    if cs == [] then map[]
    else
      var prefix := cs[..|cs| - 1];
      var last := cs[|cs| - 1];
      assert forall c :: c in cs <==> c in prefix || c == last;
      InitialValues(prefix)[last.valueHandle := last.initialValue]
  }

  class GattServer {
    /** The value currently stored under each attribute handle */
    var values: map<Handle, seq<byte>>
    /** The service tables registered with `addService`, in order */
    var services: seq<Service>
    /** Every value written with `write`, in order; each one is pushed to subscribers */
    var pushes: seq<Push>

    constructor ()
      ensures values == map[] && services == [] && pushes == []
    {
      values, services, pushes := map[], [], [];
    }

    /** `addService`: registers the table and stores every characteristic's initial value */
    method AddService(s: Service)
      modifies this
      ensures services == old(services) + [s]
      ensures values == old(values) + InitialValues(s.characteristics)
      ensures pushes == old(pushes)
    {
      services := services + [s];
      values := values + InitialValues(s.characteristics);
    }

    /** `write(handle, data, len)`: stores the value and pushes it, even when it
        equals the stored one; an unknown handle is refused */
    method Write(h: Handle, data: seq<byte>) returns (ok: bool)
      modifies this
      ensures ok <==> h in old(values)
      ensures values == if ok then old(values)[h := data] else old(values)
      ensures pushes == if ok then old(pushes) + [Push(h, data)] else old(pushes)
      ensures services == old(services)
    {
      ok := h in values;
      if ok {
        values := values[h := data];
        pushes := pushes + [Push(h, data)];
      }
    }
  }
}
