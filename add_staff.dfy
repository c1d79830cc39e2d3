/** add-staff.js: the form that adds a staff member or, with a `userId` in
    the address, updates one. It shows the salary only for roles that earn
    one, normalises the form into the request body and picks the request by
    mode. */
module AddStaff {
  import opened Js
  import opened Browser

  // ---------------------------------------------------------------------------
  // Salary visibility and the loaded role

  const SalaryRoles: set<string> := {"waiter", "bartender", "chef"}

  /** The role-change handler: the salary group is shown iff the lower-cased
      role is a salaried one. */
  predicate ShowsSalary(role: string) {
    ToLower(role) in SalaryRoles
  }

  /** The test ignores letter case, and exactly the three salaried roles show
      the salary. */
  lemma ShowsSalaryContract(role: string)
    ensures ShowsSalary(role) <==> ShowsSalary(ToLower(role))
    ensures ShowsSalary(role) <==> ToLower(role) == "waiter" || ToLower(role) == "bartender" || ToLower(role) == "chef"
    ensures ShowsSalary("Chef") && ShowsSalary("WAITER") && !ShowsSalary("admin") && !ShowsSalary("")
  {
    ToLowerIdempotent(role);
    assert ToLower("Chef") == "chef";
    assert ToLower("WAITER") == "waiter";
    assert ToLower("admin") == "admin";
  }

  /** `(data.role || "admin").trim().toLowerCase()`; `None` when a truthy
      role is not a string (calling `trim` on it throws). */
  function LoadedRole(data: Val): (r: Option<string>)
    requires !IsNullish(data)
  {
    var role := Get(data, "role");
    if !Truthy(role) then Some("admin")
    else if role.Str? then Some(ToLower(Trim(role.s)))
    else None
  }

  /** A missing or empty role loads as "admin" and a string role is trimmed
      and lower-cased; the default is chosen before trimming, so a role of
      blanks loads as "". */
  lemma LoadedRoleContract(data: Val)
    requires !IsNullish(data)
    ensures !Truthy(Get(data, "role")) ==> LoadedRole(data) == Some("admin")
    ensures Get(data, "role").Str? && Get(data, "role").s != "" ==>
      LoadedRole(data) == Some(ToLower(Trim(Get(data, "role").s)))
    ensures var role := Get(data, "role");
      role.Str? && role.s != "" && (forall k :: 0 <= k < |role.s| ==> IsSpace(role.s[k])) ==> LoadedRole(data) == Some("")
    ensures Truthy(Get(data, "role")) && !Get(data, "role").Str? ==> LoadedRole(data).None?
  {
    var role := Get(data, "role");
    if role.Str? && forall k :: 0 <= k < |role.s| ==> IsSpace(role.s[k]) {
      TrimIsSlice(role.s);
    }
  }

  /** Trimming and lower-casing a second time changes nothing. */
  lemma LowerTrimStable(s: string)
    ensures ToLower(Trim(ToLower(Trim(s)))) == ToLower(Trim(s))
  {
    TrimIsSlice(s);
    var t := Trim(s);
    var l := ToLower(t);
    assert forall i :: 0 <= i < |t| ==> IsSpace(l[i]) == IsSpace(t[i]);
    TrimUnchanged(l);
    ToLowerIdempotent(t);
  }

  /** A text with no white space at either end is its own trim. */
  lemma TrimUnchanged(s: string)
    requires s == [] || (!IsSpace(s[0]) && !IsSpace(s[|s| - 1]))
    ensures Trim(s) == s
  {
    if s != [] {
      TrimSurrounded([], s, []);
      assert [] + s + [] == s;
    }
  }

  /** `v || ""` written into an input. */
  function TextOr(v: Val): string {
    if Truthy(v) then StringOf(v) else ""
  }

  // ---------------------------------------------------------------------------
  // The request

  /** The JSON body; `salary` is `None` for `null`. */
  datatype StaffPayload = StaffPayload(firstName: string, lastName: string, email: string, phone: string,
                                       role: string, salary: Option<string>)

  /** The request the submit handler sends. */
  datatype SaveRequest = SaveRequest(verb: string, url: string, body: StaffPayload)

  const StaffBase := "http://localhost:8082/api/v1/staff/"

  /** The form inputs. */
  datatype StaffInputs = StaffInputs(firstName: string, lastName: string, email: string, phone: string,
                                     role: string, salary: string)

  /** The payload built from the inputs: trimmed text fields, the role
      lower-cased (not trimmed), and an empty salary sent as `null` (a
      non-empty one is sent as typed). */
  function Payload(f: StaffInputs): StaffPayload {
    StaffPayload(Trim(f.firstName), Trim(f.lastName), Trim(f.email), Trim(f.phone),
                 ToLower(f.role), if f.salary == "" then None else Some(f.salary))
  }

  /** `userId` as the handler tests it: present and not empty. */
  predicate Editing(userId: Option<string>) {
    userId.Some? && userId.value != ""
  }

  /** The request: PUT to `update/{userId}` in edit mode, POST to `add`
      otherwise. */
  function RequestFor(userId: Option<string>, f: StaffInputs): SaveRequest {
    if Editing(userId) then SaveRequest("PUT", StaffBase + "update/" + userId.value, Payload(f))
    else SaveRequest("POST", StaffBase + "add", Payload(f))
  }

  /** The mode decides verb and address; submitting the fields of a sent body
      again sends the same body, because each field is already normalised. */
  lemma RequestForContract(userId: Option<string>, f: StaffInputs)
    ensures var r := RequestFor(userId, f);
      && (r.verb == "PUT" <==> Editing(userId))
      && (Editing(userId) ==> r.url == StaffBase + "update/" + userId.value)
      && (!Editing(userId) ==> r.url == StaffBase + "add")
      && (r.body.salary.None? <==> f.salary == "")
    ensures var p := Payload(f);
      Payload(StaffInputs(p.firstName, p.lastName, p.email, p.phone, p.role, p.salary.GetOr(""))) == p
  {
    TrimIdempotent(f.firstName);
    TrimIdempotent(f.lastName);
    TrimIdempotent(f.email);
    TrimIdempotent(f.phone);
    ToLowerIdempotent(f.role);
  }

  const UpdatedMessage := "Staff member updated successfully!"
  const AddedMessage := "Staff member added successfully!"
  const ErrorMessage := "Error saving staff. Please try again."

  // ---------------------------------------------------------------------------
  // The page

  class StaffForm {
    /** The `userId` query parameter (`None`: absent). */
    const userId: Option<string>
    var inputs: StaffInputs
    var salaryVisible: bool
    /** The save button's text when the script changed it. */
    var buttonText: Option<string>
    var snackbar: string

    constructor (userId: Option<string>)
      ensures this.userId == userId
      ensures inputs == StaffInputs("", "", "", "", "", "") && !salaryVisible && snackbar == ""
      ensures buttonText == if Editing(userId) then Some("Update Staff") else None
    {
      this.userId := userId;
      inputs := StaffInputs("", "", "", "", "", "");
      salaryVisible := false;
      snackbar := "";
      buttonText := if Editing(userId) then Some("Update Staff") else None;
    }

    /** The edit-mode load: `reply` is the parsed body of an ok response
      (`None` for a failed request). A reply the handler throws on (null, or
      a role that is not a string) leaves the form as it was. */
    method Load(reply: Option<Val>)
      modifies this
      ensures !Editing(userId) || reply.None? || IsNullish(reply.value) || LoadedRole(reply.value).None? ==>
        inputs == old(inputs) && salaryVisible == old(salaryVisible)
      ensures Editing(userId) && reply.Some? && !IsNullish(reply.value) && LoadedRole(reply.value).Some? ==>
        var data := reply.value;
        var role := LoadedRole(data).value;
        && inputs == StaffInputs(TextOr(Get(data, "firstName")), TextOr(Get(data, "lastName")),
                                 TextOr(Get(data, "email")), TextOr(Get(data, "phone")), role,
                                 StringOf(Coalesce(Get(data, "salary"), Str(""))))
        && (salaryVisible <==> role in SalaryRoles)
      ensures buttonText == old(buttonText) && snackbar == old(snackbar)
    {
      if !Editing(userId) || reply.None? || IsNullish(reply.value) {
        return;
      }
      var data := reply.value;
      var role := LoadedRole(data);
      if role.None? {
        return;
      }
      inputs := StaffInputs(TextOr(Get(data, "firstName")), TextOr(Get(data, "lastName")),
                            TextOr(Get(data, "email")), TextOr(Get(data, "phone")), role.value,
                            StringOf(Coalesce(Get(data, "salary"), Str(""))));
      salaryVisible := role.value in SalaryRoles;
    }

    /** The user picks a role. */
    method ChangeRole(role: string)
      modifies this
      ensures inputs == old(inputs).(role := role)
      ensures salaryVisible == ShowsSalary(role)
      ensures buttonText == old(buttonText) && snackbar == old(snackbar)
    {
      inputs := inputs.(role := role);
      salaryVisible := ShowsSalary(role);
    }

    /** The user types into the other inputs. */
    method Type(typed: StaffInputs)
      modifies this
      ensures inputs == typed.(role := old(inputs).role)
      ensures salaryVisible == old(salaryVisible) && buttonText == old(buttonText) && snackbar == old(snackbar)
    {
      inputs := typed.(role := inputs.role);
    }

    /** The submit handler: it sends `RequestFor(userId, inputs)`;
      `accepted` is whether the response was ok. A success shows the message
      of the mode and then goes back to the admin page; a failure shows the
      error and stays. */
    method Submit(w: Window, accepted: bool) returns (request: SaveRequest)
      modifies this, w
      ensures request == RequestFor(userId, inputs)
      ensures accepted ==> snackbar == (if Editing(userId) then UpdatedMessage else AddedMessage)
                           && w.href == Some("/admin.html")
      ensures !accepted ==> snackbar == ErrorMessage && w.href == old(w.href)
      ensures inputs == old(inputs) && salaryVisible == old(salaryVisible) && buttonText == old(buttonText)
      ensures w.storage == old(w.storage) && w.sent == old(w.sent) && w.alerts == old(w.alerts)
              && w.replies == old(w.replies)
    {
      request := RequestFor(userId, inputs);
      if accepted {
        snackbar := if Editing(userId) then UpdatedMessage else AddedMessage;
        w.Navigate("/admin.html");
      } else {
        snackbar := ErrorMessage;
      }
    }
  }
}
