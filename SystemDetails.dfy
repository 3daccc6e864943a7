/** The system details page (SettingsSystemDetailsScreen.js): firmware version
    texts, and the panel timezone picker whose list is fetched once and cached. */
module SystemDetails {
  import opened Js

  const CancelLabel: string := "Cancel"
  const PickerTitle: string := "Panel Timezone"

  /** `version(device)`: nothing for a missing version, otherwise the text without its
      first character (the leading "v" of "v1.2.3"). */
  function VersionText(device: Option<string>): (r: Option<string>)
    ensures r.Some? <==> device.Some?
    ensures device.Some? && |device.value| > 0 ==> device.value == [device.value[0]] + r.value
    ensures device.Some? && |device.value| == 0 ==> r.value == ""
  {
    match device
    case None => None
    case Some(d) => Some(if |d| == 0 then "" else d[1..])
  }

  /** A truthy ping answer whose `response` is "result". */
  predicate IsResultAnswer(ping: Option<Value>)
  {
    ping.Some? && ping.value.Obj? && "response" in ping.value.fields &&
    ping.value.fields["response"] == Str("result")
  }

  /** A ping answer `{response: "result", details}` whose `details` is missing: reading
      `details.smartcom_version` throws, and the page keeps its version. */
  predicate PingThrows(ping: Option<Value>)
  {
    IsResultAnswer(ping) && "details" !in ping.value.fields
  }

  /** The SmartCom version the ping answer sets; `None` is `null` or `undefined`. */
  function SmartcomVersion(ping: Option<Value>): (r: Option<Value>)
    requires !PingThrows(ping)
    ensures r.Some? ==>
      IsResultAnswer(ping) && ping.value.fields["details"].Obj? &&
      "smartcom_version" in ping.value.fields["details"].fields &&
      r.value == ping.value.fields["details"].fields["smartcom_version"]
    ensures IsResultAnswer(ping) && ping.value.fields["details"].Obj? &&
            "smartcom_version" in ping.value.fields["details"].fields ==>
      r == Some(ping.value.fields["details"].fields["smartcom_version"])
    ensures !IsResultAnswer(ping) ==> r.None?
  {
    if IsResultAnswer(ping) then
      var details := ping.value.fields["details"];
      if details.Obj? && "smartcom_version" in details.fields then Some(details.fields["smartcom_version"])
      else None
    else None
  }

  /** What `version(device)` renders for a stored value: nothing for `null` or
      `undefined`, the text line for a string, and a `TypeError` from `slice` for a
      number, a boolean or an object. */
  datatype VersionLine = NoLine | TextLine(text: string) | SliceThrows

  /** `version` applied to the SmartCom version the page stores. */
  function ShownVersion(device: Option<Value>): (r: VersionLine)
    ensures r.NoLine? <==> device.None?
    ensures r.SliceThrows? <==> device.Some? && !device.value.Str?
    ensures device.Some? && device.value.Str? ==> r == TextLine(VersionText(Some(device.value.s)).value)
  {
    match device
    case None => NoLine
    case Some(Str(d)) => TextLine(VersionText(Some(d)).value)
    case Some(_) => SliceThrows
  }

  /** After a ping answer, the SmartCom line is drawn iff the answer carries a version
      under `details`, and rendering it throws iff that version is not text. */
  lemma PingVersionRendering(ping: Option<Value>)
    requires !PingThrows(ping)
    ensures var line := ShownVersion(SmartcomVersion(ping));
      (!line.NoLine? <==>
         IsResultAnswer(ping) && ping.value.fields["details"].Obj? &&
         "smartcom_version" in ping.value.fields["details"].fields) &&
      (line.SliceThrows? <==>
         IsResultAnswer(ping) && ping.value.fields["details"].Obj? &&
         "smartcom_version" in ping.value.fields["details"].fields &&
         !ping.value.fields["details"].fields["smartcom_version"].Str?)
  {
  }

  /** An entry of `/json/timezones.json`. */
  datatype TimezoneEntry = TimezoneEntry(timezone: string)

  /** An entry of the picker's data list (`{key, section, label}`). */
  datatype PickerItem = PickerItem(key: int, section: bool, text: string)

  class SystemDetailsScreen {
    /** `state.smartcom_version`. */
    var smartcomVersion: Option<Value>
    var activityAnimating: bool
    var showTimezonePicker: bool
    /** `_timezoneList`: `None` until fetched (and after a failed fetch). */
    var timezoneList: Option<seq<TimezoneEntry>>
    /** The panel record's `panel_timezone` in the application store. */
    var panelTimezone: string

    /** The picker is only ever shown with a list to show. */
    ghost predicate Valid()
      reads this
    {
      showTimezonePicker ==> timezoneList.Some?
    }

    constructor (panelSmartcom: Option<Value>, panelTimezone: string)
      ensures smartcomVersion == panelSmartcom && this.panelTimezone == panelTimezone
      ensures !activityAnimating && !showTimezonePicker && timezoneList == None
      ensures Valid()
    {
      smartcomVersion := panelSmartcom;
      activityAnimating := false;
      showTimezonePicker := false;
      timezoneList := None;
      this.panelTimezone := panelTimezone;
    }

    /** The ping answer arriving after mount. */
    method OnPingStatus(ping: Option<Value>)
      modifies this`smartcomVersion
      ensures PingThrows(ping) ==> smartcomVersion == old(smartcomVersion)
      ensures !PingThrows(ping) ==> smartcomVersion == SmartcomVersion(ping)
    {
      if !PingThrows(ping) {
        smartcomVersion := SmartcomVersion(ping);
      }
    }

    /** `renderTimezonePicker`'s data list: a section header with key 0, then one entry
        per timezone in list order with keys counting on from 1. */
    method RenderTimezonePicker() returns (data: seq<PickerItem>)
      requires Valid() && showTimezonePicker
      ensures |data| == |timezoneList.value| + 1
      ensures data[0] == PickerItem(0, true, PickerTitle)
      ensures forall i :: 0 <= i < |timezoneList.value| ==>
        data[i + 1] == PickerItem(i + 1, false, timezoneList.value[i].timezone)
      ensures forall i :: 0 <= i < |data| ==> data[i].key == i
    {
      var list := timezoneList.value;
      var index := 0;
      data := [PickerItem(index, true, PickerTitle)];
      index := index + 1;
      var n := 0;
      while n < |list|
        invariant 0 <= n <= |list| && index == n + 1
        invariant |data| == n + 1 && data[0] == PickerItem(0, true, PickerTitle)
        invariant forall i :: 0 <= i < n ==> data[i + 1] == PickerItem(i + 1, false, list[i].timezone)
      {
        data := data + [PickerItem(index, false, list[n].timezone)];
        index := index + 1;
        n := n + 1;
      }
      forall i | 1 <= i < |data|
        ensures data[i].key == i
      {
        assert data[(i - 1) + 1] == PickerItem(i, false, list[i - 1].timezone);
      }
    }

    /** `enableTimezonePicker`, given the backend's answer should a fetch be made: the
        list is fetched only when enabling without a cached list, and the picker is
        shown or hidden only once a list is at hand. */
    method EnableTimezonePicker(enable: bool, fetched: Option<seq<TimezoneEntry>>) returns (fetchRequested: bool)
      requires Valid()
      modifies this`timezoneList, this`showTimezonePicker, this`activityAnimating
      ensures Valid()
      ensures fetchRequested <==> enable && old(timezoneList).None?
      ensures timezoneList == if fetchRequested then fetched else old(timezoneList)
      ensures showTimezonePicker == if timezoneList.Some? then enable else old(showTimezonePicker)
      ensures activityAnimating == if fetchRequested then false else old(activityAnimating)
    {
      fetchRequested := enable && timezoneList.None?;
      if fetchRequested {
        activityAnimating := true;
        timezoneList := fetched;
        activityAnimating := false;
      }
      if timezoneList.Some? {
        showTimezonePicker := enable;
      }
    }

    /** `timezonePickerCallback`: anything but "Cancel" is sent to the backend, and the
        panel's timezone changes only when that request succeeds; the picker is hidden
        in every case. */
    method TimezonePickerCallback(choice: string, status: Option<Value>) returns (requested: bool)
      requires Valid()
      modifies this`panelTimezone, this`showTimezonePicker, this`activityAnimating
      ensures Valid() && !showTimezonePicker
      ensures requested <==> choice != CancelLabel
      ensures panelTimezone == if requested && status.Some? && Truthy(status.value) then choice else old(panelTimezone)
      ensures activityAnimating == if requested then false else old(activityAnimating)
    {
      requested := choice != CancelLabel;
      if requested {
        activityAnimating := true;
        activityAnimating := false;
        if status.Some? && Truthy(status.value) {
          panelTimezone := choice;
        }
      }
      showTimezonePicker := false;
    }
  }

  /** Enabling the picker twice fetches the list at most once: once a list is cached,
      later enables use it and show the picker. */
  method EnableTwice(screen: SystemDetailsScreen, first: Option<seq<TimezoneEntry>>,
                     second: Option<seq<TimezoneEntry>>)
    returns (fetched1: bool, fetched2: bool)
    requires screen.Valid()
    modifies screen
    ensures screen.Valid()
    ensures fetched2 ==> !fetched1 || first.None?
    ensures first.Some? || old(screen.timezoneList).Some? ==> !fetched2 && screen.showTimezonePicker
  {
    fetched1 := screen.EnableTimezonePicker(true, first);
    fetched2 := screen.EnableTimezonePicker(true, second);
  }
}
