/** The profile editor (src/pages/EditProfilePage.js): the form filled from the stored user, the
    record sent on save, and the stored user replaced by the server's copy on success. */
module EditProfilePage {
  import opened JsValues

  /** A JSON object of strings, as kept in browser storage; a missing key is undefined. */
  type StoredRecord = map<string, string>

  const Edited: set<string> := {"name", "program", "year"}

  /** `storedUser.key || ''`. */
  function FieldOr(stored: StoredRecord, key: string): string {
    if key in stored then stored[key] else ""
  }

  /** The form on mount: name, program and year from the stored user ('' when missing), or all '' without one. */
  function InitForm(stored: Option<StoredRecord>): (r: StoredRecord)
    ensures r.Keys == Edited
    ensures forall k :: k in Edited ==> r[k] == if stored.Some? then FieldOr(stored.value, k) else ""
  {
    var s := if stored.Some? then stored.value else map[];
    map["name" := FieldOr(s, "name"), "program" := FieldOr(s, "program"), "year" := FieldOr(s, "year")]
  }

  /** updatedUser: the stored fields overridden by the form's, `original_name` set to the stored name
      (dropped when there is none, as JSON drops an undefined value) and the avatar reset to the default.
      Without a stored user the handler throws before sending, so there is no record. */
  function UpdatedUser(prev: Option<StoredRecord>, form: StoredRecord): (r: Option<StoredRecord>)
    ensures r.Some? <==> prev.Some?
    ensures r.Some? ==> r.value.Keys == (prev.value.Keys + form.Keys - {"original_name"})
                                          + (if "name" in prev.value then {"original_name"} else {}) + {"avatar"}
    ensures r.Some? ==> r.value["avatar"] == "/default-avatar.png"
    ensures r.Some? && "name" in prev.value ==> r.value["original_name"] == prev.value["name"]
    ensures r.Some? ==> forall k :: k in r.value && k !in {"original_name", "avatar"} ==>
                          r.value[k] == if k in form then form[k] else prev.value[k]
  {
    if prev.None? then None
    else
      var merged := (prev.value + form) - {"original_name"};
      var named := if "name" in prev.value then merged["original_name" := prev.value["name"]] else merged;
      Some(named["avatar" := "/default-avatar.png"])
  }

  /** Saving an unedited form sends the stored user back with only `original_name` (its own name) and the
      avatar changed, provided it has a name, a program and a year. */
  lemma UneditedSaveKeepsUser(prev: StoredRecord)
    requires Edited <= prev.Keys
    ensures var r := UpdatedUser(Some(prev), InitForm(Some(prev))).value;
            && r.Keys == prev.Keys + {"original_name", "avatar"}
            && r["original_name"] == prev["name"]
            && forall k :: k in prev && k !in {"original_name", "avatar"} ==> r[k] == prev[k]
  {
    var form := InitForm(Some(prev));
    var r := UpdatedUser(Some(prev), form).value;
    forall k | k in prev && k !in {"original_name", "avatar"}
      ensures r[k] == prev[k]
    {
      if k in form {
        assert form[k] == FieldOr(prev, k);
      }
    }
  }

  datatype ProfileState = ProfileState(form: StoredRecord, stored: Option<StoredRecord>)

  class ProfileEditor {
    var form: StoredRecord
    /** The `user` entry of browser storage. */
    var stored: Option<StoredRecord>

    function State(): ProfileState
      reads this
    {
      ProfileState(form, stored)
    }

    /** Mounting: the form starts empty and is then filled from the stored user. */
    constructor(stored: Option<StoredRecord>)
      ensures State() == ProfileState(InitForm(stored), stored)
    {
      this.stored := stored;
      form := InitForm(stored);
    }

    /** handleChange: only the named field changes. */
    method HandleChange(name: string, value: string)
      modifies this
      ensures State() == old(State()).(form := old(form)[name := value])
    {
      form := form[name := value];
    }

    /** handleSave: `sent` is the record posted (none without a stored user); the stored user
        becomes the server's copy only on a 2xx reply. */
    method Save(ok: bool, serverUser: Option<StoredRecord>) returns (sent: Option<StoredRecord>)
      modifies this
      ensures sent == UpdatedUser(old(stored), old(form))
      ensures sent.Some? && ok ==> State() == old(State()).(stored := serverUser)
      ensures !(sent.Some? && ok) ==> State() == old(State())
    {
      sent := UpdatedUser(stored, form);
      if sent.Some? && ok {
        stored := serverUser;
      }
    }
  }
}
