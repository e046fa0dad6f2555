/**
 * The add/edit form: per-field validation (a required name; a required email
 * that must contain the unanchored pattern `\S+@\S+\.\S+`), the whole-form
 * validation loop that builds the error map, the change handler with its
 * `hasTouched` flag, and the submit rule that chooses between adding and
 * updating a user.
 */
module UserForm {
  import opened Common
  import opened Text

  const NameRequired := "Name is required"
  const EmailRequired := "Email is required"
  const EmailInvalid := "Email is invalid"

  // ---------------------------------------------------------------------------
  // The email pattern

  /** `s[lo..hi]` is a non-empty run of non-whitespace characters: `\S+`. */
  ghost predicate NonSpaceRun(s: string, lo: int, hi: int) {
    0 <= lo < hi <= |s| && forall k :: lo <= k < hi ==> !IsSpace(s[k])
  }

  /** `s[i..j]` matches `\S+@\S+\.\S+` with its `@` at `a` and its `.` at `d`. */
  ghost predicate EmailMatchAt(s: string, i: int, a: int, d: int, j: int) {
    && NonSpaceRun(s, i, a) && a < |s| && s[a] == '@'
    && NonSpaceRun(s, a + 1, d) && d < |s| && s[d] == '.'
    && NonSpaceRun(s, d + 1, j)
  }

  /** `/\S+@\S+\.\S+/.test(s)`: the pattern is unanchored, so any substring may match. */
  ghost predicate EmailPattern(s: string) {
    exists i, a, d, j :: EmailMatchAt(s, i, a, d, j)
  }

  /**
   * The executable test at one `@` position `a` and one `.` position `d`: a
   * non-space character before the `@`, only non-space characters between
   * them (at least one), and a non-space character after the `.`.
   */
  predicate ShapeAt(s: string, a: int, d: int) {
    && 0 < a && a + 1 < d && d + 1 < |s|
    && s[a] == '@' && s[d] == '.'
    && !IsSpace(s[a - 1]) && !IsSpace(s[d + 1])
    && forall k | a < k < d :: !IsSpace(s[k])
  }

  predicate HasEmailShape(s: string) {
    exists a, d | 0 < a < |s| && a + 1 < d < |s| - 1 :: ShapeAt(s, a, d)
  }

  /** The shape test accepts exactly the strings the regular expression matches. */
  lemma EmailShapeIsPattern(s: string)
    ensures HasEmailShape(s) <==> EmailPattern(s)
  {
    if HasEmailShape(s) {
      var a, d :| ShapeAt(s, a, d);
      assert ShapeAt(s, a, d);
      assert EmailMatchAt(s, a - 1, a, d, d + 2);
    }
    if EmailPattern(s) {
      var i, a, d, j :| EmailMatchAt(s, i, a, d, j);
      assert ShapeAt(s, a, d);
    }
  }

  // ---------------------------------------------------------------------------
  // Field and form validation

  /** `validateField(name, value)`: the error message, or `None` for `undefined`. */
  function ValidateField(name: string, value: string): (r: Option<string>)
    ensures name != "name" && name != "email" ==> r == None
    ensures name == "name" ==> (r.None? <==> value != "") && (r.Some? ==> r.value == NameRequired)
    ensures name == "email" && value == "" ==> r == Some(EmailRequired)
    ensures name == "email" && value != "" ==> (r.None? <==> EmailPattern(value)) && (r.Some? ==> r.value == EmailInvalid)
  {
    EmailShapeIsPattern(value);
    if name == "name" then
      if value != "" then None else Some(NameRequired)
    else if name == "email" then
      if value == "" then Some(EmailRequired)
      else if HasEmailShape(value) then None else Some(EmailInvalid)
    else None
  }

  /** The form's record `{ name, email }`; the form never holds an id. */
  datatype FormData = FormData(name: string, email: string)

  /** `Object.entries(formData)`. */
  function Entries(f: FormData): seq<(string, string)> {
    [("name", f.name), ("email", f.email)]
  }

  /** A record the validator accepts: a name, and an email that matches the pattern. */
  ghost predicate ValidRecord(f: FormData) {
    f.name != "" && f.email != "" && EmailPattern(f.email)
  }

  /** The keys of an object's entries are distinct. */
  predicate DistinctKeys(entries: seq<(string, string)>) {
    forall i, j :: 0 <= i < j < |entries| ==> entries[i].0 != entries[j].0
  }

  /** The field at `i` fails validation. */
  predicate Fails(entries: seq<(string, string)>, i: int)
    requires 0 <= i < |entries|
  {
    ValidateField(entries[i].0, entries[i].1).Some?
  }

  /** The message of the failing field at `i`. */
  function Message(entries: seq<(string, string)>, i: int): string
    requires 0 <= i < |entries| && Fails(entries, i)
  {
    ValidateField(entries[i].0, entries[i].1).value
  }

  /**
   * `errors` holds an entry for exactly the failing fields among the first
   * `n` entries, each with that field's message.
   */
  ghost predicate IsErrorMapUpTo(entries: seq<(string, string)>, n: int, errors: map<string, string>)
    requires 0 <= n <= |entries|
  {
    && (forall k :: k in errors ==> exists i :: 0 <= i < n && entries[i].0 == k && Fails(entries, i))
    && (forall i :: 0 <= i < n && Fails(entries, i) ==> entries[i].0 in errors && errors[entries[i].0] == Message(entries, i))
  }

  /** `errors` holds an entry for exactly the failing fields, each with that field's message. */
  ghost predicate IsErrorMap(entries: seq<(string, string)>, errors: map<string, string>) {
    IsErrorMapUpTo(entries, |entries|, errors)
  }

  /** One more iteration of the loop keeps the error map exact. */
  lemma ErrorMapStep(entries: seq<(string, string)>, n: int, errors: map<string, string>)
    requires DistinctKeys(entries) && 0 <= n < |entries|
    requires IsErrorMapUpTo(entries, n, errors)
    ensures Fails(entries, n) ==> IsErrorMapUpTo(entries, n + 1, errors[entries[n].0 := Message(entries, n)])
    ensures !Fails(entries, n) ==> IsErrorMapUpTo(entries, n + 1, errors)
  {
  }

  /**
   * The loop of `validateForm` (lines 42-56): it visits every entry and
   * records the failing ones; the form is valid when none fails.
   */
  method CollectErrors(entries: seq<(string, string)>) returns (valid: bool, newErrors: map<string, string>)
    requires DistinctKeys(entries)
    ensures IsErrorMap(entries, newErrors)
    ensures valid <==> forall i :: 0 <= i < |entries| ==> !Fails(entries, i)
    ensures valid <==> newErrors == map[]
  {
    newErrors := map[];
    valid := true;
    for n := 0 to |entries|
      invariant IsErrorMapUpTo(entries, n, newErrors)
      invariant valid <==> forall i :: 0 <= i < n ==> !Fails(entries, i)
      invariant valid <==> newErrors == map[]
    {
      var name, value := entries[n].0, entries[n].1;
      var error := ValidateField(name, value);
      ErrorMapStep(entries, n, newErrors);
      if error.Some? {
        newErrors := newErrors[name := error.value];
        valid := false;
      }
    }
  }

  /** The form's two entries are all valid exactly when the record is valid. */
  lemma EntriesValidIffValidRecord(f: FormData)
    ensures DistinctKeys(Entries(f))
    ensures (forall i :: 0 <= i < |Entries(f)| ==> !Fails(Entries(f), i)) <==> ValidRecord(f)
  {
    assert !Fails(Entries(f), 0) <==> f.name != "";
    assert !Fails(Entries(f), 1) <==> f.email != "" && EmailPattern(f.email);
  }

  // ---------------------------------------------------------------------------
  // The component's state cells and handlers

  /** What a submit asks of the user store and of the surrounding modal. */
  datatype SubmitCall = AddUser(user: User) | UpdateUser(user: User, id: string) | Close

  class Form {
    var formData: FormData
    var errors: map<string, string>
    var isValid: bool
    var hasTouched: bool

    /** The error map and `isValid` agree with the current record. */
    ghost predicate Settled()
      reads this
    {
      IsErrorMap(Entries(formData), errors) && (isValid <==> ValidRecord(formData))
    }

    /** The initial state of the cells (lines 25-28). */
    constructor ()
      ensures formData == FormData("", "") && errors == map[]
      ensures !isValid && !hasTouched
    {
      formData := FormData("", "");
      errors := map[];
      isValid := false;
      hasTouched := false;
    }

    /** `validateForm()`: store the error map of the current record and return its verdict. */
    method ValidateForm() returns (valid: bool)
      modifies this`errors
      ensures IsErrorMap(Entries(formData), errors)
      ensures valid <==> errors == map[]
      ensures valid <==> ValidRecord(formData)
    {
      EntriesValidIffValidRecord(formData);
      var newErrors;
      valid, newErrors := CollectErrors(Entries(formData));
      errors := newErrors;
    }

    /**
     * `handleChange` for the input called `name`. The record update is queued;
     * `validateForm` runs inside the same handler on the record as it was
     * before the change, and its `setErrors` supersedes the single-field
     * update queued just before it. The effect on `formData` then validates
     * the new record.
     */
    method HandleChange(name: string, value: string)
      requires name == "name" || name == "email"
      modifies this
      ensures name == "name" ==> formData == FormData(value, old(formData).email)
      ensures name == "email" ==> formData == FormData(old(formData).name, value)
      ensures hasTouched
      ensures IsErrorMap(Entries(old(formData)), errors)
      ensures isValid <==> ValidRecord(old(formData))
    {
      var previous := formData;
      var valid := ValidateForm();
      isValid := valid;
      hasTouched := true;
      formData := if name == "name" then FormData(value, previous.email) else FormData(previous.name, value);
    }

    /** The effect on `formData` (lines 91-94): re-validate the current record. */
    method FormDataEffect()
      modifies this`errors, this`isValid
      ensures Settled()
    {
      var valid := ValidateForm();
      isValid := valid;
    }

    /** The effect on the `user` prop (lines 85-89): an edited user's name and email fill the form. */
    method UserEffect(user: Option<User>)
      modifies this`formData
      ensures user.Some? ==> formData == FormData(user.value.name, user.value.email)
      ensures user.None? ==> formData == old(formData)
    {
      if user.Some? {
        formData := FormData(user.value.name, user.value.email);
      }
    }

    /**
     * `handleSubmit`: nothing unless the form is valid; otherwise update the
     * edited user with the form's fields laid over it, or add the form's
     * record, and then close.
     */
    method HandleSubmit(user: Option<User>) returns (calls: seq<SubmitCall>)
      ensures !isValid ==> calls == []
      ensures isValid && user.None? ==> calls == [AddUser(User(None, formData.name, formData.email)), Close]
      ensures isValid && user.Some? ==>
        calls == [UpdateUser(User(user.value.id, formData.name, formData.email), user.value.id.GetOr("")), Close]
      ensures Settled() && calls != [] ==>
        calls[0].user.name != "" && calls[0].user.email != "" && EmailPattern(calls[0].user.email)
    {
      calls := [];
      if isValid {
        if user.Some? {
          var merged := User(user.value.id, formData.name, formData.email);
          calls := [UpdateUser(merged, user.value.id.GetOr(""))];
        } else {
          calls := [AddUser(User(None, formData.name, formData.email))];
        }
        calls := calls + [Close];
      }
    }
  }
}
