/** The Automation IO service of the peripheral: three one-byte Digital
    characteristics (button state, button colour, LED state), each carrying a
    Characteristic User Description descriptor, registered once with the GATT
    server, and the two writers the controller's deferred tasks call. */
module DigitalIO {
  import opened Gatt

  /** Bluetooth SIG assigned numbers: the Automation IO service, the Digital
      characteristic and the Characteristic User Description descriptor
      (Bluetooth Core Specification Vol 3, Part G, section 3.3.3.2) */
  const AutomationIoServiceUuid: Uuid16 := 0x1815
  const DigitalCharacteristicUuid: Uuid16 := 0x2A56
  const UserDescriptionUuid: Uuid16 := 0x2901

  /** The maximum length each user description attribute is declared with */
  const DescriptionMaxLength: nat := 20

  const ButtonStateLabel: string := "Button State"
  const ButtonColourLabel: string := "Button Colour"
  const LedStateLabel: string := "LED State"

  predicate IsAscii(s: string) {
    forall i :: 0 <= i < |s| ==> s[i] as int < 0x80
  }

  /** The NUL-terminated byte buffer a C string literal initialises, when the
      array is declared exactly one byte longer than the text */
  function CString(text: string): (buf: seq<byte>)
    requires IsAscii(text)
    ensures |buf| == |text| + 1
    ensures buf[|text|] == 0
    ensures forall i :: 0 <= i < |text| ==> buf[i] as int == text[i] as int
  {
    seq(|text|, i requires 0 <= i < |text| => text[i] as int as byte) + [0]
  }

  /** The user description descriptor attached to each characteristic */
  function UserDescription(text: string): Descriptor
    requires IsAscii(text)
  {
    Descriptor(UserDescriptionUuid, CString(text), DescriptionMaxLength, true)
  }

  /** The value handles the GATT server allocates for the three characteristics */
  datatype ValueHandles = ValueHandles(buttonState: Handle, buttonColour: Handle, ledState: Handle) {
    predicate Distinct() {
      buttonState != buttonColour && buttonState != ledState && buttonColour != ledState
    }
  }

  /** The service table the constructor registers */
  function ServiceTable(button1PressedInitial: byte, button2PressedInitial: byte, ledStateInitial: byte, h: ValueHandles): (s: Service)
    ensures s.uuid == AutomationIoServiceUuid
    ensures |s.characteristics| == 3
    ensures forall c :: c in s.characteristics ==>
      c.uuid == DigitalCharacteristicUuid && |c.descriptors| == 1 &&
      c.descriptors[0].uuid == UserDescriptionUuid &&
      c.descriptors[0].maxLength == DescriptionMaxLength && c.descriptors[0].variableLength
    // buttonState, buttonColour, ledState, in that order
    ensures s.characteristics[0].valueHandle == h.buttonState
    ensures s.characteristics[1].valueHandle == h.buttonColour
    ensures s.characteristics[2].valueHandle == h.ledState
    // two readable, notifying values and one write-only value
    ensures s.characteristics[0].access == ReadOnly && s.characteristics[0].extra == Notify
    ensures s.characteristics[1].access == ReadOnly && s.characteristics[1].extra == Notify
    ensures s.characteristics[2].access == WriteOnly && s.characteristics[2].extra == NoExtra
    // each initial value is the one-byte constructor argument
    ensures s.characteristics[0].initialValue == [button1PressedInitial]
    ensures s.characteristics[1].initialValue == [button2PressedInitial]
    ensures s.characteristics[2].initialValue == [ledStateInitial]
    // the description buffers hold the label and its NUL: 13, 14 and 10 bytes
    ensures s.characteristics[0].descriptors[0].value == CString(ButtonStateLabel)
    ensures s.characteristics[1].descriptors[0].value == CString(ButtonColourLabel)
    ensures s.characteristics[2].descriptors[0].value == CString(LedStateLabel)
    ensures |s.characteristics[0].descriptors[0].value| == 13
    ensures |s.characteristics[1].descriptors[0].value| == 14
    ensures |s.characteristics[2].descriptors[0].value| == 10
    ensures h.Distinct() ==> DistinctHandles(s.characteristics)
  {
    Service(AutomationIoServiceUuid, [
      Characteristic(DigitalCharacteristicUuid, ReadOnly, Notify, [button1PressedInitial], h.buttonState,
                     [UserDescription(ButtonStateLabel)]),
      Characteristic(DigitalCharacteristicUuid, ReadOnly, Notify, [button2PressedInitial], h.buttonColour,
                     [UserDescription(ButtonColourLabel)]),
      Characteristic(DigitalCharacteristicUuid, WriteOnly, NoExtra, [ledStateInitial], h.ledState,
                     [UserDescription(LedStateLabel)])
    ])
  }

  /** `DigitalIOService`: the characteristics it owns are fixed once the
      constructor has registered the table; only the values stored in the
      server change afterwards. */
  class DigitalIOService {
    const server: GattServer
    const handles: ValueHandles
    const button1PressedInitial: byte
    const button2PressedInitial: byte
    const ledStateInitial: byte

    /** The table this service registered */
    function Table(): Service {
      ServiceTable(button1PressedInitial, button2PressedInitial, ledStateInitial, handles)
    }

    /** The service's three value handles are distinct and known to the server */
    ghost predicate Valid()
      reads server
    {
      handles.Distinct() &&
      handles.buttonState in server.values &&
      handles.buttonColour in server.values &&
      handles.ledState in server.values
    }

    constructor (server: GattServer, button1PressedInitial: byte, button2PressedInitial: byte,
                 ledStateInitial: byte, handles: ValueHandles)
      requires handles.Distinct()
      modifies server
      ensures this.server == server && this.handles == handles
      ensures this.button1PressedInitial == button1PressedInitial
      ensures this.button2PressedInitial == button2PressedInitial
      ensures this.ledStateInitial == ledStateInitial
      ensures server.services == old(server.services) + [Table()]
      ensures server.values == old(server.values)[handles.buttonState := [button1PressedInitial]]
                                                 [handles.buttonColour := [button2PressedInitial]]
                                                 [handles.ledState := [ledStateInitial]]
      ensures server.pushes == old(server.pushes)
      ensures Valid()
    {
      this.server := server;
      this.handles := handles;
      this.button1PressedInitial := button1PressedInitial;
      this.button2PressedInitial := button2PressedInitial;
      this.ledStateInitial := ledStateInitial;
      new;
      var table := Table();
      var cs := table.characteristics;
      assert cs[..2][..1] == cs[..1] && cs[..1][..0] == [];
      assert InitialValues(cs) == map[handles.buttonState := [button1PressedInitial],
                                      handles.buttonColour := [button2PressedInitial],
                                      handles.ledState := [ledStateInitial]];
      server.AddService(table);
    }

    /** `updateButtonState`: writes the one byte to the button state value handle */
    method UpdateButtonState(newState: byte)
      requires Valid()
      modifies server
      ensures Valid()
      ensures server.values == old(server.values)[handles.buttonState := [newState]]
      ensures server.pushes == old(server.pushes) + [Push(handles.buttonState, [newState])]
      ensures server.services == old(server.services)
    {
      var _ := server.Write(handles.buttonState, [newState]);
    }

    /** `updateButtonColour`: writes the one byte to the button colour value handle */
    method UpdateButtonColour(newColour: byte)
      requires Valid()
      modifies server
      ensures Valid()
      ensures server.values == old(server.values)[handles.buttonColour := [newColour]]
      ensures server.pushes == old(server.pushes) + [Push(handles.buttonColour, [newColour])]
      ensures server.services == old(server.services)
    {
      var _ := server.Write(handles.buttonColour, [newColour]);
    }

    /** `getLEDValueHandle`: the value handle of the table's one write-only
        characteristic, which is neither button handle */
    function GetLEDValueHandle(): (h: Handle)
      ensures Table().characteristics[2].access == WriteOnly
      ensures h == Table().characteristics[2].valueHandle
      ensures forall i :: 0 <= i < 2 ==> Table().characteristics[i].access == ReadOnly
      ensures handles.Distinct() ==> h != handles.buttonState && h != handles.buttonColour
    {
      handles.ledState
    }
  }
}
