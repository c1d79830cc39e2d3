/** profile.js: the profile page. It checks a password change before
    sending it, lets the user edit one field at a time (edit, save, cancel),
    and fills the city from a picked address. */
module Profile {
  import opened Js
  import opened Browser
  import opened Addresses

  // ---------------------------------------------------------------------------
  // Password change

  /** The body of the password-change request. */
  datatype PasswordChange = PasswordChange(oldPassword: string, newPassword: string, confirmNewPassword: string)

  datatype PasswordCheck = MissingField | Mismatch | Send(body: PasswordChange)

  /** The two guards of the save handler, on the trimmed fields. */
  function CheckPasswords(oldInput: string, newInput: string, repeatInput: string): PasswordCheck {
    var oldPass := Trim(oldInput);
    var newPass := Trim(newInput);
    var repeatPass := Trim(repeatInput);
    if oldPass == "" || newPass == "" || repeatPass == "" then MissingField
    else if newPass != repeatPass then Mismatch
    else Send(PasswordChange(oldPass, newPass, repeatPass))
  }

  const MissingFieldMessage := "All password fields must be filled."
  const MismatchMessage := "New password and repeat password do not match."

  /** A request goes out exactly when all three trimmed fields are filled and
      the new password is repeated; it carries the three trimmed values, so
      its new and confirmed passwords agree. */
  lemma CheckPasswordsContract(oldInput: string, newInput: string, repeatInput: string)
    ensures var r := CheckPasswords(oldInput, newInput, repeatInput);
      && (r.MissingField? <==> Trim(oldInput) == "" || Trim(newInput) == "" || Trim(repeatInput) == "")
      && (r.Send? <==> Trim(oldInput) != "" && Trim(newInput) != "" && Trim(repeatInput) != ""
                       && Trim(newInput) == Trim(repeatInput))
      && (r.Send? ==> r.body.oldPassword == Trim(oldInput) && r.body.newPassword == Trim(newInput)
                      && r.body.confirmNewPassword == r.body.newPassword)
  {
  }

  /** Blanks around the typed passwords make no difference. */
  lemma CheckPasswordsIgnoresBlanks(oldInput: string, newInput: string, repeatInput: string)
    ensures CheckPasswords(Trim(oldInput), Trim(newInput), Trim(repeatInput))
         == CheckPasswords(oldInput, newInput, repeatInput)
  {
    TrimIdempotent(oldInput);
    TrimIdempotent(newInput);
    TrimIdempotent(repeatInput);
  }

  /** The three password inputs. */
  datatype PasswordInputs = PasswordInputs(oldInput: string, newInput: string, repeatInput: string)

  const ClearedInputs := PasswordInputs("", "", "")

  function Check(inputs: PasswordInputs): PasswordCheck {
    CheckPasswords(inputs.oldInput, inputs.newInput, inputs.repeatInput)
  }

  /** The password block: whether it is shown, and its inputs. */
  class PasswordPanel {
    var visible: bool
    var inputs: PasswordInputs

    constructor ()
      ensures !visible && inputs == ClearedInputs
    {
      visible := false;
      inputs := ClearedInputs;
    }

    /** The change-password button shows or hides the block; hiding clears it. */
    method Toggle()
      modifies this
      ensures visible == !old(visible)
      ensures inputs == if visible then old(inputs) else ClearedInputs
    {
      visible := !visible;
      if !visible {
        inputs := ClearedInputs;
      }
    }

    /** The user types into the three inputs. */
    method TypeInputs(typed: PasswordInputs)
      modifies this
      ensures inputs == typed && visible == old(visible)
    {
      inputs := typed;
    }

    method Cancel()
      modifies this
      ensures !visible && inputs == ClearedInputs
    {
      visible := false;
      inputs := ClearedInputs;
    }

    /** The save button: an alert for a failed guard, otherwise the request
      body; `accepted` is whether the response was ok. Only an accepted change
      hides and clears the block. */
    method Save(w: Window, accepted: bool) returns (request: Option<PasswordChange>)
      modifies this, w
      ensures request == Sent(Check(old(inputs)))
      ensures w.alerts == old(w.alerts) + AlertsFor(Check(old(inputs)))
      ensures request.Some? && accepted ==> !visible && inputs == ClearedInputs
      ensures request.None? || !accepted ==> visible == old(visible) && inputs == old(inputs)
      ensures w.storage == old(w.storage) && w.sent == old(w.sent) && w.href == old(w.href) && w.replies == old(w.replies)
    {
      var r := Check(inputs);
      request := Sent(r);
      if r.Send? {
        if accepted {
          visible := false;
          inputs := ClearedInputs;
        }
      } else {
        w.Alert(if r.MissingField? then MissingFieldMessage else MismatchMessage);
      }
    }
  }

  /** The request body a check lets through. */
  function Sent(r: PasswordCheck): Option<PasswordChange> {
    if r.Send? then Some(r.body) else None
  }

  /** The alert a failed check shows. */
  function AlertsFor(r: PasswordCheck): seq<string> {
    match r
    case MissingField => [MissingFieldMessage]
    case Mismatch => [MismatchMessage]
    case Send(_) => []
  }

  // ---------------------------------------------------------------------------
  // Field editing

  /** The payload key of a field, by its trimmed label. */
  function PayloadKey(caption: string): (key: Option<string>)
    ensures key.Some? ==> key.value in {"firstName", "lastName", "email", "phone", "address", "city"}
  {
    if caption == "First Name" then Some("firstName")
    else if caption == "Last Name" then Some("lastName")
    else if caption == "Email" then Some("email")
    else if caption == "Phone" then Some("phone")
    else if caption == "Address" then Some("address")
    else if caption == "City" then Some("city")
    else None
  }

  /** Exactly six labels have a key, and different labels save under
      different keys. */
  lemma PayloadKeyTable(a: string, b: string)
    ensures PayloadKey(a).Some? <==> a in {"First Name", "Last Name", "Email", "Phone", "Address", "City"}
    ensures PayloadKey(a).Some? && PayloadKey(a) == PayloadKey(b) ==> a == b
  {
  }

  /** The element that replaces the span while a field is edited. */
  datatype Input = TextInput(value: string) | PlaceInput(value: string)

  /** The value a save reads: a text input's trimmed value, or the place
      element's value falling back on the original. */
  function NewValue(input: Input, originalValue: string): string {
    match input
    case TextInput(v) => Trim(v)
    case PlaceInput(v) => if v != "" then v else originalValue
  }

  /** The answer to the save request: the parsed body of an ok response, or
      any failure. */
  datatype SaveReply = Saved(data: Val) | SaveFailed

  /** The value the page keeps after a successful save: the server's
      `user[key]` when it is there (`null` reads as ""), the sent value
      otherwise. */
  function Echoed(data: Val, key: string, sent: string): string {
    var user := Get(data, "user");
    if Truthy(user) && Get(user, key) != Undefined then StringOf(Coalesce(Get(user, key), Str("")))
    else sent
  }

  /** The storage after a successful save: a returned token replaces the
      stored one. */
  function WithToken(storage: map<string, Item>, data: Val): map<string, Item> {
    var token := Get(data, "token");
    if Truthy(token) then storage["jwt_token" := Text(StringOf(token))] else storage
  }

  const EmptyValueMessage := "Value cannot be empty"

  /** One profile field with its closure state. */
  class FieldEditor {
    /** The text of the field's label. */
    const caption: string
    var originalValue: string
    /** What the field's span shows. */
    var spanText: string
    /** The editing element, while the field is being edited. */
    var input: Option<Input>
    /** Whether the page's original span of this field, the one that carries
        the id `city`, is still in place. The elements that replace it carry
        no id, so once it is gone `getElementById("city")` finds nothing. */
    var holdsCityId: bool

    /** `cityId` says whether the field's span is the one with id `city`. */
    constructor (caption: string, text: string, cityId: bool)
      ensures this.caption == caption && originalValue == text && spanText == text && input == None
      ensures holdsCityId == cityId
    {
      this.caption := caption;
      originalValue := text;
      spanText := text;
      input := None;
      holdsCityId := cityId;
    }

    /** The edit button: nothing while an input is there; otherwise the
      address field gets an empty place element and any other field a text
      input holding the original value. */
    method Edit()
      modifies this
      ensures old(input).Some? ==> input == old(input)
      ensures old(input).None? ==>
        input == Some(if Trim(caption) == "Address" then PlaceInput("") else TextInput(originalValue))
      ensures originalValue == old(originalValue) && spanText == old(spanText)
      ensures holdsCityId == (old(holdsCityId) && old(input).Some?)
    {
      if input.Some? {
        return;
      }
      holdsCityId := false;
      if Trim(caption) == "Address" {
        input := Some(PlaceInput(""));
      } else {
        input := Some(TextInput(originalValue));
      }
    }

    /** The user types into the editing element. */
    method TypeValue(value: string)
      modifies this
      ensures input == (if old(input).None? then None
                        else if old(input).value.TextInput? then Some(TextInput(value)) else Some(PlaceInput(value)))
      ensures originalValue == old(originalValue) && spanText == old(spanText) && holdsCityId == old(holdsCityId)
    {
      if input.Some? {
        input := Some(if input.value.TextInput? then TextInput(value) else PlaceInput(value));
      }
    }

    /** The save button. `body` is the request body, if one is sent. An
      empty value raises an alert and keeps the field in edit mode; a field
      without a payload key is only updated on the page; a failed request
      changes nothing. */
    method Save(w: Window, reply: SaveReply) returns (body: Option<Val>)
      modifies this, w
      ensures old(input).None? ==>
        body == None && input == old(input) && originalValue == old(originalValue) && spanText == old(spanText)
        && w.alerts == old(w.alerts) && w.storage == old(w.storage)
      ensures old(input).Some? ==>
        var v := NewValue(old(input).value, old(originalValue));
        var key := PayloadKey(Trim(caption));
        && (v == "" ==> body == None && input == old(input) && originalValue == old(originalValue)
                        && spanText == old(spanText) && w.alerts == old(w.alerts) + [EmptyValueMessage]
                        && w.storage == old(w.storage))
        && (v != "" ==> w.alerts == old(w.alerts))
        && (v != "" && key.None? ==> body == None && input == None && originalValue == v && spanText == v
                                     && w.storage == old(w.storage))
        && (v != "" && key.Some? ==> body == Some(Obj(map[key.value := Str(v)])))
        && (v != "" && key.Some? && (reply.SaveFailed? || IsNullish(reply.data)) ==>
              input == old(input) && originalValue == old(originalValue) && spanText == old(spanText)
              && w.storage == old(w.storage))
        && (v != "" && key.Some? && reply.Saved? && !IsNullish(reply.data) ==>
              input == None && originalValue == Echoed(reply.data, key.value, v) && spanText == originalValue
              && w.storage == WithToken(old(w.storage), reply.data))
      ensures w.sent == old(w.sent) && w.href == old(w.href) && w.replies == old(w.replies)
      ensures holdsCityId == old(holdsCityId)
    {
      if input.None? {
        return None;
      }
      var v := NewValue(input.value, originalValue);
      if v == "" {
        w.Alert(EmptyValueMessage);
        return None;
      }
      var key := PayloadKey(Trim(caption));
      body := None;
      if key.Some? {
        body := Some(Obj(map[key.value := Str(v)]));
        if reply.SaveFailed? || IsNullish(reply.data) {
          return;
        }
        var token := Get(reply.data, "token");
        if Truthy(token) {
          w.SetItem("jwt_token", Text(StringOf(token)));
        }
        v := Echoed(reply.data, key.value, v);
      }
      originalValue := v;
      spanText := v;
      input := None;
    }

    /** The cancel button: the span shows the original value again. */
    method Cancel()
      modifies this
      ensures old(input).None? ==> input == None && spanText == old(spanText)
      ensures old(input).Some? ==> input == None && spanText == originalValue
      ensures originalValue == old(originalValue) && holdsCityId == old(holdsCityId)
    {
      if input.None? {
        return;
      }
      spanText := originalValue;
      input := None;
    }
  }

  /** A saved value that the server does not echo stays as sent; an echoed
      string or number replaces it, and a `null` echo empties the field. */
  lemma EchoedCases(data: Val, key: string, sent: string)
    ensures !Truthy(Get(data, "user")) ==> Echoed(data, key, sent) == sent
    ensures Get(Get(data, "user"), key) == Undefined ==> Echoed(data, key, sent) == sent
    ensures var echo := Get(Get(data, "user"), key);
      Truthy(Get(data, "user")) ==>
        && (echo.Str? ==> Echoed(data, key, sent) == echo.s)
        && (echo.Num? ==> Echoed(data, key, sent) == IntToString(echo.n))
        && (echo.Null? ==> Echoed(data, key, sent) == "")
  {
  }

  // ---------------------------------------------------------------------------
  // City from a picked address

  /** One step of `cityName`: a locality or postal town sets it, a
      second-level area only fills it while it is empty. */
  function TownStep(cityName: string, c: Component): string {
    if "locality" in c.types then c.longName
    else if "postal_town" in c.types then c.longName
    else if cityName == "" && "administrative_area_level_2" in c.types then c.longName
    else cityName
  }

  function TownFrom(cityName: string, cs: seq<Component>): string
    decreases |cs|
  {
    if cs == [] then cityName else TownFrom(TownStep(cityName, cs[0]), cs[1..])
  }

  predicate IsTown(c: Component) {
    "locality" in c.types || "postal_town" in c.types
  }

  /** The place-change listener of the address field: a place without
      components, or one naming no city, does nothing. Otherwise the span
      with id `city` is replaced by an input holding the name; when that
      span is already gone the lookup yields null and the listener throws,
      leaving the page as it was. (The branch that writes into a non-span
      `#city` cannot run: the only element with that id is the span.) */
  method PlaceChanged(components: Option<seq<Component>>, cityField: FieldEditor)
    modifies cityField
    ensures var acts := components.Some? && TownFrom("", components.value) != "" && old(cityField.holdsCityId);
      && (acts ==> cityField.input == Some(TextInput(TownFrom("", components.value))) && !cityField.holdsCityId)
      && (!acts ==> cityField.input == old(cityField.input) && cityField.holdsCityId == old(cityField.holdsCityId))
    ensures cityField.originalValue == old(cityField.originalValue) && cityField.spanText == old(cityField.spanText)
  {
    if components.None? {
      return;
    }
    var cs := components.value;
    var cityName := "";
    var i := 0;
    while i < |cs|
      invariant 0 <= i <= |cs|
      invariant TownFrom(cityName, cs[i..]) == TownFrom("", cs)
    {
      assert cs[i..][1..] == cs[i + 1..];
      cityName := TownStep(cityName, cs[i]);
      i := i + 1;
    }
    if cityName != "" {
      if !cityField.holdsCityId {
        // `cityEl.tagName` of null throws
        return;
      }
      cityField.input := Some(TextInput(cityName));
      cityField.holdsCityId := false;
    }
  }

  /** A named city survives the components after it that are neither
      localities nor postal towns. */
  lemma {:induction false} TownKept(cityName: string, cs: seq<Component>)
    requires cityName != ""
    requires forall k :: 0 <= k < |cs| ==> !IsTown(cs[k])
    ensures TownFrom(cityName, cs) == cityName
    decreases |cs|
  {
    if cs != [] {
      TownKept(cityName, cs[1..]);
    }
  }

  /** The last locality or postal town wins when it has a name. */
  lemma {:induction false} LastTownWins(cityName: string, cs: seq<Component>, i: nat)
    requires i < |cs| && IsTown(cs[i]) && cs[i].longName != ""
    requires forall k :: i < k < |cs| ==> !IsTown(cs[k])
    ensures TownFrom(cityName, cs) == cs[i].longName
    decreases |cs|
  {
    if i == 0 {
      TownKept(cs[0].longName, cs[1..]);
    } else {
      LastTownWins(TownStep(cityName, cs[0]), cs[1..], i - 1);
    }
  }
}
