/**
 * `DeviceAdapter`: the recycler-view adapter behind each device section of
 * the scan screen. It owns a mutable list of devices (`dataSet`) that is
 * changed in place by `append` (an upsert keyed by `endpointId`) and `reset`.
 */
module DeviceAdapters {
  import opened Sdk
  import opened KeyedList

  /** The popup menu a click opens: `options_normal` or `options_oobe`. */
  datatype Menu = NormalOptions | OobeOptions

  /**
   * The click handler's menu choice: Normal devices get the Normal options,
   * OOBE devices the OOBE options, and any other mode opens no menu at all
   * (the listener returns before a menu item can trigger an action).
   */
  function MenuFor(mode: DeviceMode): (menu: Option<Menu>)
    ensures menu == Some(NormalOptions) <==> mode == Normal
    ensures menu == Some(OobeOptions) <==> mode == Oobe
    ensures menu == None <==> mode !in {Normal, Oobe}
  {
    match mode
    case Normal => Some(NormalOptions)
    case Oobe => Some(OobeOptions)
    case OtherMode => None
  }

  class DeviceAdapter {
    var dataSet: seq<Device>

    constructor ()
      ensures dataSet == []
    {
      dataSet := [];
    }

    /** `getItemCount`. */
    function ItemCount(): nat
      reads this
    {
      |dataSet|
    }

    /** The linear search `append` runs: `dataSet.indexOfFirst { it.endpointId == id }`. */
    method IndexOfFirst(id: string) returns (index: int)
      ensures index == IndexOf(dataSet, id)
      ensures index == -1 <==> id !in Keys(dataSet)
    {
      index := 0;
      while index < |dataSet|
        invariant 0 <= index <= |dataSet|
        invariant forall j :: 0 <= j < index ==> dataSet[j].endpointId != id
      {
        if dataSet[index].endpointId == id {
          return;
        }
        index := index + 1;
      }
      index := -1;
    }

    /** `append`: overwrite the entry with the same endpoint id, or add the device at the end. */
    method Append(device: Device)
      modifies this
      ensures dataSet == Upsert(old(dataSet), device)
      ensures Unique(old(dataSet)) ==> Unique(dataSet)
      // a new id adds one row; a known id leaves the count as it was
      ensures ItemCount() == old(ItemCount()) + (if device.endpointId in Keys(old(dataSet)) then 0 else 1)
    {
      var index := IndexOfFirst(device.endpointId);
      if index == -1 {
        dataSet := dataSet + [device];
      } else {
        dataSet := dataSet[index := device];
      }
    }

    /** `reset`: clear the list. */
    method Reset()
      modifies this
      ensures dataSet == [] && ItemCount() == 0
      ensures Unique(dataSet)
    {
      dataSet := [];
    }

    /**
     * A click on the row at `position`: the menu that opens, if any. The
     * row position is one the view is showing, so it indexes `dataSet`.
     */
    method MenuOnClick(position: int) returns (menu: Option<Menu>)
      requires 0 <= position < |dataSet|
      ensures menu == MenuFor(dataSet[position].mode)
      ensures menu.None? <==> dataSet[position].mode == OtherMode
    {
      var device := dataSet[position];
      match device.mode
      case Normal => menu := Some(NormalOptions);
      case Oobe => menu := Some(OobeOptions);
      case OtherMode => menu := None;
    }
  }
}
