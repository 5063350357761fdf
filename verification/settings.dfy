/** The settings page (public/settings.js): filling the form from the loaded
    settings, assembling the payload from the form, the three guards a save
    must pass before anything is posted, and the save button, which every
    way out of a save leaves enabled again. The HTTP requests are outside
    the model: their outcomes are parameters. */
module Settings {
  import opened Options
  import opened JsText

  /** The settings keys the page reads and writes; each is also the id of
      its form field, except `Units`, which is a group of radio buttons. */
  datatype Key =
    | ChildName | DailyLimitMl | DayStartHour | WarnThresholdYellow | WarnThresholdRed
    | ReportTime1 | ReportTime2 | WellnessCheck1 | WellnessCheck2 | Timezone | Units

  /** The key's name in the settings object and the payload. */
  function KeyName(k: Key): string {
    match k
    case ChildName => "child_name"
    case DailyLimitMl => "daily_limit_ml"
    case DayStartHour => "day_start_hour"
    case WarnThresholdYellow => "warn_threshold_yellow"
    case WarnThresholdRed => "warn_threshold_red"
    case ReportTime1 => "report_time_1"
    case ReportTime2 => "report_time_2"
    case WellnessCheck1 => "wellness_check_1"
    case WellnessCheck2 => "wellness_check_2"
    case Timezone => "timezone"
    case Units => "units"
  }

  /** The ids of the form fields, in the order they are read and written. */
  const FieldIds: seq<Key> := [
    ChildName, DailyLimitMl, DayStartHour, WarnThresholdYellow, WarnThresholdRed,
    ReportTime1, ReportTime2, WellnessCheck1, WellnessCheck2, Timezone]

  const SaveText := "\U{1F4BE} Save Settings"
  const SavingText := "\U{23F3} Saving\U{2026}"

  /** What a form element is: a `SELECT` with the values of its options, a
      radio button, or any other input. */
  datatype Kind = SelectBox(options: seq<string>) | RadioInput | TextInput

  /** A form element found by id. */
  datatype Element = Element(kind: Kind, value: string)

  /** The value an element holds after `el.value = v`: a select keeps it
      only when one of its options has that value; otherwise no option is
      selected and its value reads as empty. */
  function Assigned(kind: Kind, v: string): (r: string)
    ensures r == v || r == ""
    ensures kind.SelectBox? ==> (r == v <==> v in kind.options || v == "")
  {
    if kind.SelectBox? && v !in kind.options then "" else v
  }

  /** One of the `units` radio buttons. */
  datatype Radio = Radio(value: string, checked: bool)

  datatype Button = Button(disabled: bool, text: string)

  /** The status line: its message and its type (`"error"`, `"success"` or
      empty). */
  datatype Status = Status(message: string, kind: string)

  /** A value of the loaded settings object; `Str` holds what `String(value)`
      gives. A key absent from the map is `undefined`. */
  datatype SettingValue = Null | Str(s: string)

  /** What loading the settings gave: the settings object, or the message of
      the error (a failed request, a non-OK status or a body that is not
      JSON). */
  datatype LoadResponse = Loaded(settings: map<Key, SettingValue>) | LoadFailed(message: string)

  /** What posting the payload gave: success with the child name the server
      echoes, or the message of the error. */
  datatype SaveResponse = SaveOk(childName: Option<string>) | SaveFailed(message: string)

  // ---------------------------------------------------------------------------
  // Payload
  // ---------------------------------------------------------------------------

  /** The radio `querySelector('input[name=Units]:checked')` finds: the
      first checked one in document order. */
  function FirstChecked(radios: seq<Radio>): (k: Option<nat>)
    ensures k.Some? ==> k.value < |radios| && radios[k.value].checked
    ensures k.Some? ==> forall j :: 0 <= j < k.value ==> !radios[j].checked
    ensures k.None? ==> forall j :: 0 <= j < |radios| ==> !radios[j].checked
  {
    if radios == [] then None
    else if radios[0].checked then Some(0)
    else
      match FirstChecked(radios[1..])
      case None => None
      case Some(k) => Some(k + 1)
  }

  /** The trimmed values of the fields listed in `keys` that are present. */
  function FieldValues(fields: map<Key, Element>, keys: seq<Key>): (p: map<Key, string>)
    ensures forall k :: k in p <==> k in keys && k in fields
    ensures forall k :: k in p ==> p[k] == Trim(fields[k].value)
  {
    map k | k in keys && k in fields :: Trim(fields[k].value)
  }

  lemma FieldValuesSnoc(fields: map<Key, Element>, keys: seq<Key>, key: Key)
    ensures FieldValues(fields, keys + [key]) ==
      if key in fields then FieldValues(fields, keys)[key := Trim(fields[key].value)] else FieldValues(fields, keys)
  {
  }

  /** The payload a save posts: every listed field present on the page, its
      value trimmed, and `units` when a unit is selected. */
  function Payload(fields: map<Key, Element>, radios: seq<Radio>): (p: map<Key, string>)
    ensures forall k :: k in p <==> (k in FieldIds && k in fields) || (k == Units && FirstChecked(radios).Some?)
    ensures forall k :: k in FieldIds && k in fields ==> p[k] == Trim(fields[k].value)
    ensures Units in p ==> p[Units] == radios[FirstChecked(radios).value].value
  {
    var base := FieldValues(fields, FieldIds);
    match FirstChecked(radios)
    case None => base
    case Some(i) => base[Units := radios[i].value]
  }

  // ---------------------------------------------------------------------------
  // Validation
  // ---------------------------------------------------------------------------

  datatype Rejection = LimitOutOfRange | ThresholdOutOfRange | ThresholdsOutOfOrder

  function RejectionMessage(r: Rejection): string {
    match r
    case LimitOutOfRange => "\U{274C} Daily limit must be between 100 and 5000 ml"
    case ThresholdOutOfRange => "\U{274C} Warning thresholds must be between 10% and 100%"
    case ThresholdsOutOfOrder => "\U{274C} Yellow threshold must be less than red threshold"
  }

  /** `parseInt(payload[key], 10)`; an absent key reads as NaN. */
  function Number(payload: map<Key, string>, key: Key): Option<int> {
    if key in payload then ParseInt(payload[key]) else None
  }

  predicate InRange(v: Option<int>, lo: int, hi: int) {
    v.Some? && lo <= v.value <= hi
  }

  /** What the rest of the system assumes of the stored configuration. */
  predicate ConfigInvariant(limit: int, yellow: int, red: int) {
    100 <= limit <= 5000 && 10 <= yellow < red <= 100
  }

  /** The guards of a save, in order: the daily limit, then the range of
      both thresholds, then their order; the first that fails is reported. */
  function Validate(payload: map<Key, string>): (r: Option<Rejection>)
  {
    var limit := Number(payload, DailyLimitMl);
    if limit.None? || limit.value < 100 || limit.value > 5000 then Some(LimitOutOfRange)
    else
      var yellow := Number(payload, WarnThresholdYellow);
      var red := Number(payload, WarnThresholdRed);
      if yellow.None? || yellow.value < 10 || yellow.value > 100 || red.None? || red.value < 10 || red.value > 100 then
        Some(ThresholdOutOfRange)
      else if yellow.value >= red.value then Some(ThresholdsOutOfOrder)
      else None
  }

  /** A payload passes every guard exactly when its numbers satisfy the
      configuration invariant, and a failing payload is reported by the
      first guard it fails. */
  lemma ValidateChecksInOrder(payload: map<Key, string>)
    ensures var limit := Number(payload, DailyLimitMl);
      var yellow := Number(payload, WarnThresholdYellow);
      var red := Number(payload, WarnThresholdRed);
      && (Validate(payload) == None <==> limit.Some? && yellow.Some? && red.Some? && ConfigInvariant(limit.value, yellow.value, red.value))
      && (Validate(payload) == Some(LimitOutOfRange) <==> !InRange(limit, 100, 5000))
      && (Validate(payload) == Some(ThresholdOutOfRange) <==>
            InRange(limit, 100, 5000) && !(InRange(yellow, 10, 100) && InRange(red, 10, 100)))
      && (Validate(payload) == Some(ThresholdsOutOfOrder) <==>
            InRange(limit, 100, 5000) && InRange(yellow, 10, 100) && InRange(red, 10, 100) && yellow.value >= red.value)
  {
  }

  // ---------------------------------------------------------------------------
  // Loading
  // ---------------------------------------------------------------------------

  /** Whether loading writes the setting of `k` into its field: the field is
      listed, present and not a radio button, and its setting is neither
      missing nor null. */
  predicate Fills(fields: map<Key, Element>, settings: map<Key, SettingValue>, keys: seq<Key>, k: Key) {
    k in keys && k in fields && k in settings && settings[k].Str? && fields[k].kind != RadioInput
  }

  /** The form after loading, for the fields listed in `keys`: a field whose
      setting is present and not null, and which is not a radio button, is
      assigned the setting's text; every other field keeps its value. */
  function Populated(fields: map<Key, Element>, settings: map<Key, SettingValue>, keys: seq<Key>): (f: map<Key, Element>)
    ensures f.Keys == fields.Keys
    ensures forall k :: k in f ==> f[k].kind == fields[k].kind
    ensures forall k :: k in f && !Fills(fields, settings, keys, k) ==> f[k] == fields[k]
    ensures forall k :: Fills(fields, settings, keys, k) && fields[k].kind == TextInput ==> f[k].value == settings[k].s
    ensures forall k :: Fills(fields, settings, keys, k) && fields[k].kind.SelectBox? ==>
      f[k].value == (if settings[k].s in fields[k].kind.options then settings[k].s else "")
  {
    map k | k in fields ::
      if Fills(fields, settings, keys, k)
      then fields[k].(value := Assigned(fields[k].kind, settings[k].s)) else fields[k]
  }

  lemma PopulatedSnoc(fields: map<Key, Element>, settings: map<Key, SettingValue>, keys: seq<Key>, key: Key)
    ensures Populated(fields, settings, keys + [key]) ==
      if key in settings && settings[key].Str? && key in fields && fields[key].kind != RadioInput
      then Populated(fields, settings, keys)[key := fields[key].(value := Assigned(fields[key].kind, settings[key].s))]
      else Populated(fields, settings, keys)
  {
  }

  /** `settings.units || 'ml'`. */
  function UnitsValue(settings: map<Key, SettingValue>): (u: string)
    ensures (Units !in settings || settings[Units] == Null || settings[Units] == Str("")) ==> u == "ml"
    ensures Units in settings && settings[Units].Str? && settings[Units].s != "" ==> u == settings[Units].s
    ensures u != []
  {
    if Units in settings && settings[Units].Str? && settings[Units].s != "" then settings[Units].s else "ml"
  }

  /** No radio in `radios[lo..hi]` has the value `units`. */
  predicate NoneWith(radios: seq<Radio>, units: string, lo: int, hi: int)
    requires 0 <= lo && hi <= |radios|
  {
    forall k :: lo <= k < hi ==> radios[k].value != units
  }

  /** `r.checked = c` on the i-th radio of the `units` group: checking a
      radio unchecks every other radio of its group, unchecking one leaves
      the others alone. */
  function SetChecked(radios: seq<Radio>, i: int, c: bool): (rs: seq<Radio>)
    requires 0 <= i < |radios|
    ensures |rs| == |radios|
    ensures forall j :: 0 <= j < |radios| ==> rs[j].value == radios[j].value
    ensures rs[i].checked == c
    ensures forall j :: 0 <= j < |radios| && j != i ==> (rs[j].checked <==> radios[j].checked && !c)
  {
    seq(|radios|, j requires 0 <= j < |radios| =>
      if j == i then radios[j].(checked := c) else if c then radios[j].(checked := false) else radios[j])
  }

  /** The radios after `r.checked = r.value === units` has run over the
      group in document order: only the last radio whose value is `units`
      stays checked, and none is checked when no radio has that value. */
  function SelectUnits(radios: seq<Radio>, units: string): (rs: seq<Radio>)
    ensures |rs| == |radios|
    ensures forall i :: 0 <= i < |radios| ==> rs[i].value == radios[i].value
    ensures forall i :: 0 <= i < |radios| ==> (rs[i].checked <==> radios[i].value == units && NoneWith(radios, units, i + 1, |radios|))
    ensures forall i, j :: 0 <= i < j < |radios| && rs[i].checked ==> !rs[j].checked
  {
    seq(|radios|, i requires 0 <= i < |radios| =>
      radios[i].(checked := radios[i].value == units && NoneWith(radios, units, i + 1, |radios|)))
  }

  /** A radio ends up checked exactly when some radio has the unit's value,
      and then the checked one has that value. */
  lemma {:induction false} SelectUnitsChecksOne(radios: seq<Radio>, units: string, j: int)
    requires 0 <= j < |radios| && radios[j].value == units
    ensures var k := FirstChecked(SelectUnits(radios, units));
      k.Some? && j <= k.value && radios[k.value].value == units
    decreases |radios| - j
  {
    var rs := SelectUnits(radios, units);
    if NoneWith(radios, units, j + 1, |radios|) {
      assert rs[j].checked;
    } else {
      var k :| j + 1 <= k < |radios| && radios[k].value == units;
      SelectUnitsChecksOne(radios, units, k);
    }
  }

  /** A text field or a select that has the setting among its options,
      filled from a setting, posts that setting back, trimmed, on the next
      save. */
  lemma LoadedFieldSavedBack(fields: map<Key, Element>, radios: seq<Radio>, settings: map<Key, SettingValue>, k: Key)
    requires k in FieldIds && k in fields && k in settings && settings[k].Str?
    requires fields[k].kind == TextInput || (fields[k].kind.SelectBox? && settings[k].s in fields[k].kind.options)
    ensures var p := Payload(Populated(fields, settings, FieldIds), SelectUnits(radios, UnitsValue(settings)));
      k in p && p[k] == Trim(settings[k].s)
  {
  }

  /** A select none of whose options has the loaded value is left with no
      selection, and the next save posts an empty value for it. */
  lemma UnknownOptionPostedEmpty(fields: map<Key, Element>, radios: seq<Radio>, settings: map<Key, SettingValue>, k: Key)
    requires k in FieldIds && k in fields && k in settings && settings[k].Str?
    requires fields[k].kind.SelectBox? && settings[k].s !in fields[k].kind.options
    ensures var p := Payload(Populated(fields, settings, FieldIds), SelectUnits(radios, UnitsValue(settings)));
      k in p && p[k] == ""
  {
    assert Trim("") == "";
  }

  /** When the page has a radio for the loaded unit, the next save posts
      that unit. */
  lemma LoadedUnitsSavedBack(fields: map<Key, Element>, radios: seq<Radio>, settings: map<Key, SettingValue>, j: int)
    requires 0 <= j < |radios| && radios[j].value == UnitsValue(settings)
    ensures var p := Payload(Populated(fields, settings, FieldIds), SelectUnits(radios, UnitsValue(settings)));
      Units in p && p[Units] == UnitsValue(settings)
  {
    SelectUnitsChecksOne(radios, UnitsValue(settings), j);
  }

  /** Null and missing settings leave their field as it was. */
  lemma NullSettingSkipped(fields: map<Key, Element>, settings: map<Key, SettingValue>, k: Key)
    requires k in fields
    requires k !in settings || settings[k] == Null
    ensures Populated(fields, settings, FieldIds)[k] == fields[k]
  {
  }

  // ---------------------------------------------------------------------------
  // The page
  // ---------------------------------------------------------------------------

  /** What a status update leaves on a page whose status line is `line`
      (`None` when the page has no status element). */
  function Shown(line: Option<Status>, message: string, kind: string): Option<Status> {
    if line.Some? then Some(Status(message, kind)) else None
  }

  /** What a save leaves behind: the payload posted (`None`: nothing was
      posted), the status line and the header. */
  datatype SaveView = SaveView(posted: Option<map<Key, string>>, status: Option<Status>, header: Option<string>)

  /** The effect of posting `payload` when the server answers `response`:
      the outcome is shown and a successful save puts the echoed child name,
      when non-empty, in the header. */
  function PostEffect(payload: map<Key, string>, response: SaveResponse, line: Option<Status>, header: Option<string>): SaveView {
    match response
    case SaveFailed(message) => SaveView(Some(payload), Shown(line, "\U{274C} Error saving: " + message, "error"), header)
    case SaveOk(childName) =>
      SaveView(Some(payload), Shown(line, "\U{2705} Saved!", "success"),
               if header.Some? && childName.Some? && childName.value != "" then childName else header)
  }

  /** The effect of saving `payload` on a page whose status line and header
      were `line` and `header`, when the server answers `response`. */
  function SaveEffect(payload: map<Key, string>, response: SaveResponse, line: Option<Status>, header: Option<string>): SaveView {
    match Validate(payload)
    case Some(rejection) => SaveView(None, Shown(line, RejectionMessage(rejection), "error"), header)
    case None => PostEffect(payload, response, line, header)
  }

  /** A save posts nothing unless the payload passes every guard, and what
      it posts always satisfies the configuration invariant; a rejected
      save shows the message of the first guard that failed. */
  lemma SaveGuarded(payload: map<Key, string>, response: SaveResponse, line: Option<Status>, header: Option<string>)
    ensures var v := SaveEffect(payload, response, line, header);
      && (v.posted.Some? <==> Validate(payload) == None)
      && (v.posted.Some? ==> v.posted.value == payload)
      && (v.posted.Some? ==>
            var limit := Number(payload, DailyLimitMl);
            var yellow := Number(payload, WarnThresholdYellow);
            var red := Number(payload, WarnThresholdRed);
            limit.Some? && yellow.Some? && red.Some? && ConfigInvariant(limit.value, yellow.value, red.value))
      && (v.posted.None? ==> v.status == Shown(line, RejectionMessage(Validate(payload).value), "error") && v.header == header)
  {
    ValidateChecksInOrder(payload);
  }

  class SettingsPage {
    /** The form fields present on the page, by id. */
    var fields: map<Key, Element>
    /** The `units` radio buttons, in document order. */
    var unitRadios: seq<Radio>
    /** The child name in the header; `None` when the page has no such element. */
    var header: Option<string>
    var saveButton: Button
    /** The status line; `None` when the page has no such element. */
    var status: Option<Status>

    /** `showStatus`: writes the status line when the page has one. */
    method ShowStatus(message: string, kind: string)
      modifies this`status
      ensures status == Shown(old(status), message, kind)
    {
      if status.Some? {
        status := Some(Status(message, kind));
      }
    }

    /** The payload loop of `saveSettings`, then the selected unit. */
    method BuildPayload() returns (payload: map<Key, string>)
      ensures payload == Payload(fields, unitRadios)
    {
      payload := map[];
      var i := 0;
      while i < |FieldIds|
        invariant 0 <= i <= |FieldIds|
        invariant payload == FieldValues(fields, FieldIds[..i])
      {
        var key := FieldIds[i];
        FieldValuesSnoc(fields, FieldIds[..i], key);
        assert FieldIds[..i + 1] == FieldIds[..i] + [key];
        if key in fields {
          payload := payload[key := Trim(fields[key].value)];
        }
        i := i + 1;
      }
      assert FieldIds[..i] == FieldIds;
      var selected := FirstChecked(unitRadios);
      if selected.Some? {
        payload := payload[Units := unitRadios[selected.value].value];
      }
    }

    /** `loadSettings`. On success: the header takes a non-empty child name,
        every listed field with a non-null setting is assigned its text
        (radio fields excepted; a select keeps it only when one of its
        options has it, and reads empty otherwise), and the last unit radio
        with the value `units`, `ml` by default, is the one left checked. On failure only the status line changes. */
    method LoadSettings(response: LoadResponse)
      modifies this`fields, this`unitRadios, this`header, this`status
      ensures response.LoadFailed? ==>
        && status == Shown(old(status), "\U{274C} Failed to load settings: " + response.message, "error")
        && fields == old(fields) && unitRadios == old(unitRadios) && header == old(header)
      ensures response.Loaded? ==>
        var settings := response.settings;
        && status == old(status)
        && fields == Populated(old(fields), settings, FieldIds)
        && unitRadios == SelectUnits(old(unitRadios), UnitsValue(settings))
        && header == (if old(header).Some? && ChildName in settings && settings[ChildName].Str? && settings[ChildName].s != ""
                      then Some(settings[ChildName].s) else old(header))
    {
      if response.LoadFailed? {
        ShowStatus("\U{274C} Failed to load settings: " + response.message, "error");
        return;
      }
      var settings := response.settings;
      if header.Some? && ChildName in settings && settings[ChildName].Str? && settings[ChildName].s != "" {
        header := Some(settings[ChildName].s);
      }
      FillFields(settings);
      CheckUnits(UnitsValue(settings));
    }

    /** The field loop of `loadSettings`. */
    method FillFields(settings: map<Key, SettingValue>)
      modifies this`fields
      ensures fields == Populated(old(fields), settings, FieldIds)
    {
      var i := 0;
      while i < |FieldIds|
        invariant 0 <= i <= |FieldIds|
        invariant fields == Populated(old(fields), settings, FieldIds[..i])
      {
        var key := FieldIds[i];
        PopulatedSnoc(old(fields), settings, FieldIds[..i], key);
        assert FieldIds[..i + 1] == FieldIds[..i] + [key];
        if key in settings && settings[key].Str? && key in fields {
          if fields[key].kind != RadioInput {
            fields := fields[key := fields[key].(value := Assigned(fields[key].kind, settings[key].s))];
          }
        }
        i := i + 1;
      }
      assert FieldIds[..i] == FieldIds;
    }

    /** The radio loop of `loadSettings`: each radio in turn is checked
        when its value is `units` and unchecked otherwise, checking one
        unchecking the rest of the group. */
    method CheckUnits(units: string)
      modifies this`unitRadios
      ensures unitRadios == SelectUnits(old(unitRadios), units)
    {
      ghost var radios := unitRadios;
      var j := 0;
      while j < |unitRadios|
        invariant 0 <= j <= |unitRadios| == |radios|
        invariant forall r :: 0 <= r < |radios| ==> unitRadios[r].value == radios[r].value
        invariant forall r :: 0 <= r < j ==>
          (unitRadios[r].checked <==> radios[r].value == units && NoneWith(radios, units, r + 1, j))
        invariant forall r :: j <= r < |radios| ==>
          (unitRadios[r].checked <==> radios[r].checked && NoneWith(radios, units, 0, j))
      {
        unitRadios := SetChecked(unitRadios, j, unitRadios[j].value == units);
        j := j + 1;
      }
      assert unitRadios == SelectUnits(radios, units);
    }

    /** `saveSettings`. The payload is validated first; a payload that fails
        a guard is not posted and shows that guard's message. A valid one is
        posted and the outcome shown. Whichever way the save ends, the
        button is enabled again with its label restored. */
    method SaveSettings(response: SaveResponse) returns (posted: Option<map<Key, string>>)
      modifies this`saveButton, this`status, this`header
      ensures saveButton == Button(false, SaveText)
      ensures SaveView(posted, status, header) == SaveEffect(Payload(fields, unitRadios), response, old(status), old(header))
    {
      saveButton := Button(true, SavingText);
      ShowStatus("", "");
      assert status.Some? <==> old(status).Some?;
      var payload := BuildPayload();
      var rejection := Validate(payload);
      if rejection.Some? {
        ShowStatus(RejectionMessage(rejection.value), "error");
        saveButton := Button(false, SaveText);
        posted := None;
        return;
      }
      posted := Post(payload, response);
      saveButton := Button(false, SaveText);
    }

    /** The request of `saveSettings` once the payload passed the guards,
        and what its answer shows. */
    method Post(payload: map<Key, string>, response: SaveResponse) returns (posted: Option<map<Key, string>>)
      modifies this`status, this`header
      ensures SaveView(posted, status, header) == PostEffect(payload, response, old(status), old(header))
    {
      posted := Some(payload);
      match response {
        case SaveOk(childName) =>
          ShowStatus("\U{2705} Saved!", "success");
          if header.Some? && childName.Some? && childName.value != "" {
            header := childName;
          }
        case SaveFailed(message) =>
          ShowStatus("\U{274C} Error saving: " + message, "error");
      }
    }
  }
}
