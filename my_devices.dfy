/** The user's device list of src/components/devices/MyDevices.jsx: a type
    filter, per-type button counts, and deletion after confirmation. */
module MyDevices {
  import opened Common

  /** filteredDevices: the whole list for "all", otherwise the devices of that type in order. */
  function FilteredDevices(devices: seq<Device>, filter: string): (r: seq<Device>)
    ensures filter == "all" ==> r == devices
    ensures filter != "all" ==> forall i :: 0 <= i < |r| ==> r[i].deviceType == filter && r[i] in devices
    ensures filter != "all" ==> forall d :: d in devices && d.deviceType == filter ==> d in r
    ensures filter != "all" ==> forall d :: multiset(r)[d] == if d.deviceType == filter then multiset(devices)[d] else 0
  {
    FilterMultiplicity(devices, OfType(filter));
    if filter == "all" then devices else Filter(devices, OfType(filter))
  }

  /** Filtering keeps the original order. */
  lemma FilteredKeepsOrder(devices: seq<Device>, filter: string)
    ensures IsSubsequence(FilteredDevices(devices, filter), devices)
  {
    FilterIsSubsequence(devices, OfType(filter));
    if filter == "all" {
      FilterKeepsAll(devices, (d: Device) => true);
      FilterIsSubsequence(devices, (d: Device) => true);
    }
  }

  /** devices.filter(d => d.id !== id) */
  function WithoutId(devices: seq<Device>, id: int): (r: seq<Device>)
    ensures forall i :: 0 <= i < |r| ==> r[i].id != id && r[i] in devices
    ensures forall d :: d in devices && d.id != id ==> d in r
    ensures IsSubsequence(r, devices)
    ensures forall d :: multiset(r)[d] == if d.id != id then multiset(devices)[d] else 0
  {
    FilterIsSubsequence(devices, (d: Device) => d.id != id);
    FilterMultiplicity(devices, (d: Device) => d.id != id);
    Filter(devices, (d: Device) => d.id != id)
  }

  /** Deleting an id no device has changes nothing. */
  lemma DeleteAbsentId(devices: seq<Device>, id: int)
    requires forall i :: 0 <= i < |devices| ==> devices[i].id != id
    ensures WithoutId(devices, id) == devices
  {
    FilterKeepsAll(devices, (d: Device) => d.id != id);
  }

  /** The counts on the three buttons. */
  datatype ButtonCounts = ButtonCounts(all: nat, telefono: nat, laptop: nat)

  function Counts(devices: seq<Device>): (c: ButtonCounts)
    ensures c.all == |devices|
    ensures c.telefono + c.laptop <= c.all
  {
    FilterDisjointCounts(devices, OfType("telefono"), OfType("laptop"));
    ButtonCounts(|devices|, |Filter(devices, OfType("telefono"))|, |Filter(devices, OfType("laptop"))|)
  }

  /** The list shown under a button has as many entries as that button's count. */
  lemma FilteredLengthMatchesButton(devices: seq<Device>)
    ensures |FilteredDevices(devices, "all")| == Counts(devices).all
    ensures |FilteredDevices(devices, "telefono")| == Counts(devices).telefono
    ensures |FilteredDevices(devices, "laptop")| == Counts(devices).laptop
  {
  }

  /** What handleDelete ends with: the confirm was cancelled, the API call
      succeeded, or it failed. */
  datatype DeleteOutcome = Cancelled | Deleted | Failed

  /** The component state: the loaded list and the selected filter. */
  class DeviceList {
    var devices: seq<Device>
    var filter: string

    constructor ()
      ensures devices == [] && filter == "all"
    {
      devices := [];
      filter := "all";
    }

    /** fetchDevices: on success the list is the response. */
    method Load(ok: bool, data: seq<Device>)
      modifies this
      ensures devices == if ok then data else old(devices)
      ensures filter == old(filter)
    {
      if ok {
        devices := data;
      }
    }

    /** A filter button sets the filter. */
    method SetFilter(f: string)
      modifies this
      ensures filter == f && devices == old(devices)
    {
      filter := f;
    }

    /** handleDelete(id): only a confirmed delete whose API call succeeds removes
        the devices with that id; the others stay in order. */
    method HandleDelete(id: int, confirmed: bool, apiOk: bool) returns (outcome: DeleteOutcome)
      modifies this
      ensures outcome == (if !confirmed then Cancelled else if apiOk then Deleted else Failed)
      ensures devices == if outcome == Deleted then WithoutId(old(devices), id) else old(devices)
      ensures filter == old(filter)
    {
      if !confirmed {
        return Cancelled;
      }
      if apiOk {
        devices := WithoutId(devices, id);
        outcome := Deleted;
      } else {
        outcome := Failed;
      }
    }

    /** The list rendered under the selected button; its length is the count
        that button shows. */
    function Shown(): (r: seq<Device>)
      reads this
      ensures filter == "all" ==> r == devices
      ensures filter == "all" ==> |r| == Counts(devices).all
      ensures filter == "telefono" ==> |r| == Counts(devices).telefono
      ensures filter == "laptop" ==> |r| == Counts(devices).laptop
    {
      FilteredLengthMatchesButton(devices);
      FilteredDevices(devices, filter)
    }
  }
}
