/** Matching what a visitor sent with the form the card shows: every fault is reported, nothing unasked is kept. */
module ContactForms {
  import opened Base
  import opened CardSnapshots

  const STANDARD: seq<string> := ["email", "phone", "organizationName", "jobTitle", "message"]

  datatype Entry = Entry(key: string, value: string)

  datatype Fault = NotEnabled(key: string) | Missing(key: string) | UnknownCustom(key: string) | MissingCustom(key: string)

  /** `new Map(...)`: the last field with the key. */
  function Enabled(fields: seq<FormField>, key: string): Option<FormField> {
    if fields == [] then None
    else if fields[|fields| - 1].key == key then Some(fields[|fields| - 1])
    else Enabled(fields[..|fields| - 1], key)
  }

  predicate Known(form: ContactForm, key: string) {
    exists i | 0 <= i < |form.customFields| :: form.customFields[i].key == key
  }

  /** The custom values that are kept: those of known fields that are not empty. */
  predicate Keeps(kept: map<string, string>, form: ContactForm, custom: seq<Entry>) {
    && (forall i | 0 <= i < |custom| && Known(form, custom[i].key) && custom[i].value != "" ::
          custom[i].key in kept && kept[custom[i].key] == custom[i].value)
    && (forall key | key in kept :: Known(form, key) && Entry(key, kept[key]) in custom && kept[key] != "")
  }

  predicate Distinct(custom: seq<Entry>) {
    forall i, j | 0 <= i < j < |custom| :: custom[i].key != custom[j].key
  }

  predicate HasValue(form: ContactForm, custom: seq<Entry>, key: string) {
    Known(form, key) && exists i | 0 <= i < |custom| :: custom[i].key == key && custom[i].value != ""
  }

  predicate StandardFault(form: ContactForm, values: map<string, string>, key: string, fault: Fault) {
    var field := Enabled(form.fields, key);
    if field.None? then key in values && fault == NotEnabled(key)
    else field.value.required && key !in values && fault == Missing(key)
  }

  predicate IsFault(form: ContactForm, values: map<string, string>, custom: seq<Entry>, fault: Fault) {
    match fault
    case UnknownCustom(key) => !Known(form, key) && exists i | 0 <= i < |custom| :: custom[i].key == key
    case MissingCustom(key) => !HasValue(form, custom, key) &&
      exists i | 0 <= i < |form.customFields| :: form.customFields[i].key == key && form.customFields[i].required
    case _ => exists i | 0 <= i < |STANDARD| :: StandardFault(form, values, STANDARD[i], fault)
  }

  method CheckStandard(form: ContactForm, values: map<string, string>) returns (faults: seq<Fault>)
    ensures forall fault :: fault in faults <==> exists i | 0 <= i < |STANDARD| :: StandardFault(form, values, STANDARD[i], fault)
  {
    faults := [];
    for i := 0 to |STANDARD|
      invariant forall fault :: fault in faults <==> exists j | 0 <= j < i :: StandardFault(form, values, STANDARD[j], fault)
    {
      var field := Enabled(form.fields, STANDARD[i]);
      if field.None? {
        if STANDARD[i] in values {
          faults := faults + [NotEnabled(STANDARD[i])];
        }
      } else if field.value.required && STANDARD[i] !in values {
        faults := faults + [Missing(STANDARD[i])];
      }
    }
  }

  method KeepCustom(form: ContactForm, custom: seq<Entry>) returns (kept: map<string, string>, faults: seq<Fault>)
    requires Distinct(custom)
    ensures Keeps(kept, form, custom)
    ensures forall fault :: fault in faults <==>
              fault.UnknownCustom? && !Known(form, fault.key) && exists i | 0 <= i < |custom| :: custom[i].key == fault.key
  {
    kept, faults := map[], [];
    for i := 0 to |custom|
      invariant Keeps(kept, form, custom[..i])
      invariant forall fault :: fault in faults <==>
                  fault.UnknownCustom? && !Known(form, fault.key) && exists j | 0 <= j < i :: custom[j].key == fault.key
    {
      assert custom[..i + 1] == custom[..i] + [custom[i]];
      if !Known(form, custom[i].key) {
        faults := faults + [UnknownCustom(custom[i].key)];
      } else if custom[i].value != "" {
        assert custom[i].key !in kept;
        kept := kept[custom[i].key := custom[i].value];
      }
    }
    assert custom[..|custom|] == custom;
  }

  method CheckRequired(form: ContactForm, kept: map<string, string>) returns (faults: seq<Fault>)
    ensures forall fault :: fault in faults <==>
              fault.MissingCustom? && fault.key !in kept &&
              exists i | 0 <= i < |form.customFields| :: form.customFields[i].key == fault.key && form.customFields[i].required
  {
    faults := [];
    for i := 0 to |form.customFields|
      invariant forall fault :: fault in faults <==>
                  fault.MissingCustom? && fault.key !in kept &&
                  exists j | 0 <= j < i :: form.customFields[j].key == fault.key && form.customFields[j].required
    {
      if form.customFields[i].required && form.customFields[i].key !in kept {
        faults := faults + [MissingCustom(form.customFields[i].key)];
      }
    }
  }

  /**
   * The faults are exactly what is wrong with the submission, so it passes exactly when nothing is; then
   * each required custom field has a value, and no key is kept that the form does not ask for.
   */
  method ValidateAgainstForm(form: ContactForm, values: map<string, string>, custom: seq<Entry>)
    returns (r: Result<map<string, string>, seq<Fault>>)
    requires Distinct(custom)
    ensures r.Ok? <==> forall fault :: !IsFault(form, values, custom, fault)
    ensures r.Ok? ==> Keeps(r.value, form, custom)
    ensures r.Err? ==> forall fault :: fault in r.error <==> IsFault(form, values, custom, fault)
  {
    var standard := CheckStandard(form, values);
    var kept, unknown := KeepCustom(form, custom);
    var missing := CheckRequired(form, kept);
    var faults := standard + unknown + missing;
    KeptExactly(kept, form, custom);
    forall fault ensures fault in faults <==> IsFault(form, values, custom, fault) {
      assert fault in faults <==> fault in standard || fault in unknown || fault in missing;
    }
    if faults == [] {
      r := Ok(kept);
    } else {
      assert faults[0] in faults;
      r := Err(faults);
    }
  }

  lemma KeptExactly(kept: map<string, string>, form: ContactForm, custom: seq<Entry>)
    requires Keeps(kept, form, custom)
    ensures forall key :: key in kept <==> HasValue(form, custom, key)
  {
    forall key | key in kept ensures HasValue(form, custom, key) {
      var i :| 0 <= i < |custom| && custom[i] == Entry(key, kept[key]);
    }
  }
}
