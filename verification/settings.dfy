/** The admin settings page (src/components/admin/SettingsPage.tsx): settings
    sections holding typed fields, the field update, and the toggle button
    that writes the negation of the value it shows. */
module Settings {
  import opened Options

  datatype FieldType = TextField | EmailField | SelectField | ToggleField

  /** A field value is a string or a boolean. */
  datatype Value = Str(s: string) | Bool(b: bool)

  /** A form field; `caption` is the label shown beside it. */
  datatype Field = Field(id: string, caption: string, kind: FieldType, value: Value, options: Option<seq<string>>)

  /** A settings section; its icon is presentation only. */
  datatype Section = Section(id: string, title: string, fields: seq<Field>)

  /** The settings the page starts with. */
  const InitialSettings: seq<Section> := [
    Section("store", "Store Settings", [
      Field("storeName", "Store Name", TextField, Str("Roonity Shop"), None),
      Field("currency", "Default Currency", SelectField, Str("USD"), Some(["USD", "EUR", "GBP", "JPY"])),
      Field("timezone", "Timezone", SelectField, Str("UTC"), Some(["UTC", "EST", "PST", "GMT"]))]),
    Section("payment", "Payment Settings", [
      Field("paymentGateway", "Payment Gateway", SelectField, Str("stripe"), Some(["stripe", "paypal", "square"])),
      Field("testMode", "Test Mode", ToggleField, Bool(true), None)]),
    Section("notifications", "Notifications", [
      Field("orderNotifications", "Order Notifications", ToggleField, Bool(true), None),
      Field("stockAlerts", "Low Stock Alerts", ToggleField, Bool(true), None)]),
    Section("security", "Security", [
      Field("twoFactor", "Two-Factor Authentication", ToggleField, Bool(false), None),
      Field("sessionTimeout", "Session Timeout (minutes)", TextField, Str("30"), None)])
  ]

  /** The inner `map`: every field with the id gets the value. */
  function UpdateFields(fields: seq<Field>, fieldId: string, value: Value): (r: seq<Field>)
    ensures |r| == |fields|
    ensures forall j :: 0 <= j < |fields| ==> r[j] == fields[j].(value := r[j].value)
    ensures forall j :: 0 <= j < |fields| ==> r[j].value == if fields[j].id == fieldId then value else fields[j].value
  {
    seq(|fields|, j requires 0 <= j < |fields| => if fields[j].id == fieldId then fields[j].(value := value) else fields[j])
  }

  /** `handleFieldChange(sectionId, fieldId, value)`: the value is written to
      the fields with id `fieldId` inside the sections with id `sectionId`, and
      nowhere else; the sections, their fields and their order stay as they
      were. */
  function FieldChange(settings: seq<Section>, sectionId: string, fieldId: string, value: Value): (r: seq<Section>)
    ensures |r| == |settings|
    ensures forall k :: 0 <= k < |settings| ==> r[k] == settings[k].(fields := r[k].fields)
    ensures forall k :: 0 <= k < |settings| ==> |r[k].fields| == |settings[k].fields|
    ensures forall k, j :: 0 <= k < |settings| && 0 <= j < |settings[k].fields| ==>
      r[k].fields[j] == settings[k].fields[j].(value := r[k].fields[j].value)
    ensures forall k, j :: 0 <= k < |settings| && 0 <= j < |settings[k].fields| ==>
      r[k].fields[j].value == if settings[k].id == sectionId && settings[k].fields[j].id == fieldId then value else settings[k].fields[j].value
  {
    seq(|settings|, k requires 0 <= k < |settings| =>
      if settings[k].id == sectionId then settings[k].(fields := UpdateFields(settings[k].fields, fieldId, value)) else settings[k])
  }

  /** A section id or field id that names nothing leaves the settings as they
      are. */
  lemma FieldChangeUnknown(settings: seq<Section>, sectionId: string, fieldId: string, value: Value)
    requires forall k, j :: 0 <= k < |settings| && 0 <= j < |settings[k].fields| && settings[k].id == sectionId ==> settings[k].fields[j].id != fieldId
    ensures FieldChange(settings, sectionId, fieldId, value) == settings
  {
    var r := FieldChange(settings, sectionId, fieldId, value);
    forall k | 0 <= k < |settings|
      ensures r[k] == settings[k]
    {
      assert r[k].fields == settings[k].fields;
    }
  }

  /** JavaScript's `!value`: the negation of a boolean; for a string, `true`
      exactly when it is empty. */
  function Not(v: Value): (r: Value)
    ensures r.Bool?
    ensures v.Bool? ==> r.b == !v.b
    ensures v.Str? ==> (r.b <==> v.s == "")
  {
    match v
    case Bool(b) => Bool(!b)
    case Str(s) => Bool(s == "")
  }

  /** The toggle button of a rendered field: `handleFieldChange(section.id,
      field.id, !field.value)`. */
  function ClickToggle(settings: seq<Section>, sectionId: string, field: Field): seq<Section>
  {
    FieldChange(settings, sectionId, field.id, Not(field.value))
  }

  /** Every field that `sectionId` and `fieldId` name holds `value`. */
  ghost predicate HoldsEverywhere(settings: seq<Section>, sectionId: string, fieldId: string, value: Value)
  {
    forall k, j ::
      (0 <= k < |settings| && 0 <= j < |settings[k].fields| && settings[k].id == sectionId && settings[k].fields[j].id == fieldId)
      ==> settings[k].fields[j].value == value
  }

  /** Clicking a boolean toggle twice, the second time on the field as
      re-rendered after the first click, gives back the original settings. */
  lemma ToggleTwiceRestores(settings: seq<Section>, sectionId: string, field: Field)
    requires field.value.Bool?
    requires HoldsEverywhere(settings, sectionId, field.id, field.value)
    ensures var once := ClickToggle(settings, sectionId, field);
      HoldsEverywhere(once, sectionId, field.id, Not(field.value))
      && ClickToggle(once, sectionId, field.(value := Not(field.value))) == settings
  {
    var once := ClickToggle(settings, sectionId, field);
    var twice := ClickToggle(once, sectionId, field.(value := Not(field.value)));
    forall k | 0 <= k < |settings|
      ensures twice[k] == settings[k]
    {
      assert twice[k].fields == settings[k].fields;
    }
  }

  /** Every toggle field the page starts with holds a boolean, so the
      double-click property applies to all of them. */
  lemma InitialTogglesAreBooleans()
    ensures forall k, j ::
      (0 <= k < |InitialSettings| && 0 <= j < |InitialSettings[k].fields| && InitialSettings[k].fields[j].kind == ToggleField)
      ==> InitialSettings[k].fields[j].value.Bool?
  {
  }

  /** The page's state: the settings and the section on display. */
  class SettingsPage {
    var settings: seq<Section>
    var activeSection: string

    constructor()
      ensures settings == InitialSettings && activeSection == "store"
    {
      settings := InitialSettings;
      activeSection := "store";
    }

    /** `handleFieldChange`. */
    method HandleFieldChange(sectionId: string, fieldId: string, value: Value)
      modifies this`settings
      ensures settings == FieldChange(old(settings), sectionId, fieldId, value)
    {
      settings := FieldChange(settings, sectionId, fieldId, value);
    }

    /** A click on a section in the navigation. */
    method SelectSection(sectionId: string)
      modifies this`activeSection
      ensures activeSection == sectionId
    {
      activeSection := sectionId;
    }
  }
}
