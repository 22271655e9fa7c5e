/** `KnownState`, with its set and dictionary updated in place. */
module KnownState {
  import opened Options
  import opened Properties
  import opened DeviceModel

  class KnownNames {
    var knownDevices: set<string>
    var knownProperties: map<string, set<string>>

    function Abs(): Known
      reads this
    {
      Known(knownDevices, knownProperties)
    }

    /** The devices are the keys of the property dictionary. */
    predicate Valid()
      reads this
    {
      knownDevices == knownProperties.Keys
    }

    constructor ()
      ensures Valid() && Abs() == NOTHING_KNOWN
    {
      knownDevices, knownProperties := {}, map[];
    }

    /** `get_device_change` */
    method GetDeviceChange(m: IndiMessage) returns (r: Option<Change>)
      ensures r == if IsNewDevice(Abs(), m) then Some(New) else None
    {
      if m.device == "" {
        return None;
      }
      if m.device in knownDevices {
        return None;
      }
      return Some(New);
    }

    /** `get_property_change` */
    method GetPropertyChange(m: IndiMessage, isDef: bool) returns (r: Option<Change>)
      ensures r == PropertyChange(Abs(), m, isDef)
    {
      if m.device == "" || m.property == "" {
        return None;
      }
      if m.message == DelProperty {
        if m.device in knownProperties {
          if m.property in knownProperties[m.device] {
            return Some(Deleted);
          }
        }
        return None;
      }
      if isDef {
        if m.device !in knownProperties {
          return Some(New);
        }
        if m.property !in knownProperties[m.device] {
          return Some(New);
        }
        return Some(Updated);
      }
      if m.device in knownProperties {
        if m.property in knownProperties[m.device] {
          return Some(Updated);
        }
      }
      return None;
    }

    /** `add_device` */
    method AddDevice(device: string)
      requires Valid()
      modifies this
      ensures Valid() && Abs() == DeviceModel.AddDevice(old(Abs()), device)
    {
      knownDevices := knownDevices + {device};
      if device !in knownProperties {
        knownProperties := knownProperties[device := {}];
      }
      assert knownProperties == old(knownProperties)[device := PropertiesOf(old(Abs()), device)];
    }

    /** `add_property` */
    method AddProperty(device: string, name: string)
      requires Valid()
      modifies this
      ensures Valid() && Abs() == DeviceModel.AddProperty(old(Abs()), device, name)
    {
      if device !in knownDevices {
        AddDevice(device);
      }
      knownProperties := knownProperties[device := knownProperties[device] + {name}];
    }

    /** `remove_property` */
    method RemoveProperty(device: string, name: string)
      requires Valid()
      modifies this
      ensures Valid() && Abs() == DeviceModel.RemoveProperty(old(Abs()), device, name)
    {
      if device in knownProperties {
        knownProperties := knownProperties[device := knownProperties[device] - {name}];
      }
    }

    /** `remove_device` */
    method RemoveDevice(device: string)
      requires Valid()
      modifies this
      ensures Valid() && Abs() == DeviceModel.RemoveDevice(old(Abs()), device)
    {
      knownDevices := knownDevices - {device};
      if device in knownProperties {
        knownProperties := knownProperties - {device};
      } else {
        assert knownProperties - {device} == knownProperties;
      }
    }
  }
}
