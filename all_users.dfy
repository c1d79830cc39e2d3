/** allUsers.js: the staff table of the admin page. It loads the staff list
    once, normalizes each record through field fallbacks, and escapes every
    text cell before it is written into the table. */
module AllUsers {
  import opened Js

  // ---------------------------------------------------------------------------
  // escapeHTML

  /** `escapeHTML(str)`: five `replaceAll` calls, the ampersand first. */
  function EscapeHTML(s: string): string {
    ReplaceAll(ReplaceAll(ReplaceAll(ReplaceAll(ReplaceAll(s, '&', "&amp;"), '<', "&lt;"), '>', "&gt;"), '"', "&quot;"), '\'', "&#39;")
  }

  /** `escapeHTML(v)` for any value: the default parameter turns `undefined`
      into the empty string, everything else goes through `String(...)`. */
  function EscapeValue(v: Val): (r: string)
    ensures v.Undefined? ==> r == ""
  {
    EscapeHTML(if v.Undefined? then "" else StringOf(v))
  }

  /** The reference: each character escaped on its own. */
  function EscapeChar(c: char): (r: string)
    ensures |r| >= 1
  {
    if c == '&' then "&amp;"
    else if c == '<' then "&lt;"
    else if c == '>' then "&gt;"
    else if c == '"' then "&quot;"
    else if c == '\'' then "&#39;"
    else [c]
  }

  function EscapeEach(s: string): (r: string)
    ensures |r| >= |s|
  {
    if s == [] then [] else EscapeChar(s[0]) + EscapeEach(s[1..])
  }

  predicate IsMarkup(c: char) {
    c == '<' || c == '>' || c == '"' || c == '\''
  }

  predicate NoMarkup(s: string) {
    forall i :: 0 <= i < |s| ==> !IsMarkup(s[i])
  }

  lemma {:induction false} ReplaceAllConcat(a: string, b: string, c: char, rep: string)
    ensures ReplaceAll(a + b, c, rep) == ReplaceAll(a, c, rep) + ReplaceAll(b, c, rep)
    decreases |a|
  {
    if a == [] {
      assert a + b == b;
    } else {
      assert (a + b)[0] == a[0];
      assert (a + b)[1..] == a[1..] + b;
      ReplaceAllConcat(a[1..], b, c, rep);
    }
  }

  lemma {:induction false} ReplaceAllAbsent(s: string, c: char, rep: string)
    requires c !in s
    ensures ReplaceAll(s, c, rep) == s
    decreases |s|
  {
    if s != [] {
      ReplaceAllAbsent(s[1..], c, rep);
      assert s == [s[0]] + s[1..];
    }
  }

  lemma ReplaceOne(c: char, x: char, rep: string)
    ensures ReplaceAll([c], x, rep) == if c == x then rep else [c]
  {
    assert [c][1..] == [];
  }

  /** A text with no markup character goes through the four markup
      replacements unchanged. */
  lemma MarkupFreeKept(s: string)
    requires NoMarkup(s)
    ensures ReplaceAll(s, '<', "&lt;") == s && ReplaceAll(s, '>', "&gt;") == s
    ensures ReplaceAll(s, '"', "&quot;") == s && ReplaceAll(s, '\'', "&#39;") == s
  {
    ReplaceAllAbsent(s, '<', "&lt;");
    ReplaceAllAbsent(s, '>', "&gt;");
    ReplaceAllAbsent(s, '"', "&quot;");
    ReplaceAllAbsent(s, '\'', "&#39;");
  }

  /** From the first replacement that fires on `c`, the later ones find
      nothing to replace. */
  lemma EscapeOneChar(c: char)
    ensures EscapeHTML([c]) == EscapeChar(c)
  {
    ReplaceOne(c, '&', "&amp;");
    if c == '&' {
      MarkupFreeKept("&amp;");
      return;
    }
    ReplaceOne(c, '<', "&lt;");
    if c == '<' {
      MarkupFreeKept("&lt;");
      return;
    }
    ReplaceOne(c, '>', "&gt;");
    if c == '>' {
      MarkupFreeKept("&gt;");
      return;
    }
    ReplaceOne(c, '"', "&quot;");
    if c == '"' {
      MarkupFreeKept("&quot;");
      return;
    }
    ReplaceOne(c, '\'', "&#39;");
  }

  lemma EscapeHTMLConcat(a: string, b: string)
    ensures EscapeHTML(a + b) == EscapeHTML(a) + EscapeHTML(b)
  {
    ReplaceAllConcat(a, b, '&', "&amp;");
    var a1 := ReplaceAll(a, '&', "&amp;");
    var b1 := ReplaceAll(b, '&', "&amp;");
    ReplaceAllConcat(a1, b1, '<', "&lt;");
    var a2 := ReplaceAll(a1, '<', "&lt;");
    var b2 := ReplaceAll(b1, '<', "&lt;");
    ReplaceAllConcat(a2, b2, '>', "&gt;");
    var a3 := ReplaceAll(a2, '>', "&gt;");
    var b3 := ReplaceAll(b2, '>', "&gt;");
    ReplaceAllConcat(a3, b3, '"', "&quot;");
    var a4 := ReplaceAll(a3, '"', "&quot;");
    var b4 := ReplaceAll(b3, '"', "&quot;");
    ReplaceAllConcat(a4, b4, '\'', "&#39;");
  }

  /** Because the ampersand is replaced first, the five passes escape every
      character on its own: no entity produced by one pass is touched by a
      later one. */
  lemma {:induction false} EscapeIsPointwise(s: string)
    ensures EscapeHTML(s) == EscapeEach(s)
    decreases |s|
  {
    if s == [] {
    } else {
      assert s == [s[0]] + s[1..];
      EscapeHTMLConcat([s[0]], s[1..]);
      EscapeOneChar(s[0]);
      EscapeIsPointwise(s[1..]);
    }
  }

  /** The escaped text holds no markup character. */
  lemma {:induction false} EscapedHasNoMarkup(s: string)
    ensures NoMarkup(EscapeHTML(s))
  {
    EscapeIsPointwise(s);
    EscapeEachHasNoMarkup(s);
  }

  lemma {:induction false} EscapeEachHasNoMarkup(s: string)
    ensures forall i :: 0 <= i < |EscapeEach(s)| ==> !IsMarkup(EscapeEach(s)[i])
    decreases |s|
  {
    if s != [] {
      EscapeEachHasNoMarkup(s[1..]);
      var head := EscapeChar(s[0]);
      var r := EscapeEach(s);
      forall i | 0 <= i < |r|
        ensures !IsMarkup(r[i])
      {
        if i < |head| {
          assert r[i] == head[i];
        } else {
          assert r[i] == EscapeEach(s[1..])[i - |head|];
        }
      }
    }
  }

  /** Different texts escape differently, so the table shows exactly what was
      stored. */
  lemma EscapeInjective(a: string, b: string)
    requires EscapeHTML(a) == EscapeHTML(b)
    ensures a == b
  {
    EscapeIsPointwise(a);
    EscapeIsPointwise(b);
    EscapeEachInjective(a, b);
  }

  lemma {:induction false} EscapeEachInjective(a: string, b: string)
    requires EscapeEach(a) == EscapeEach(b)
    ensures a == b
    decreases |a|
  {
    if a != [] && b != [] {
      var ha := EscapeChar(a[0]);
      var hb := EscapeChar(b[0]);
      var r := EscapeEach(a);
      assert r == ha + EscapeEach(a[1..]) && r == hb + EscapeEach(b[1..]);
      assert r[0] == ha[0] && r[0] == hb[0];
      if |ha| > 1 && |hb| > 1 {
        assert r[1] == ha[1] && r[1] == hb[1];
      }
      EscapeCharPrefixFree(a[0], b[0], r);
      assert EscapeEach(a[1..]) == r[|ha|..] == EscapeEach(b[1..]);
      EscapeEachInjective(a[1..], b[1..]);
    }
  }

  /** The first two characters of an escaped character decide which
      character it was. */
  lemma EscapeCharPrefixFree(c: char, d: char, r: string)
    requires |r| >= 1 && r[0] == EscapeChar(c)[0] && r[0] == EscapeChar(d)[0]
    requires |EscapeChar(c)| > 1 && |EscapeChar(d)| > 1 ==> |r| > 1 && r[1] == EscapeChar(c)[1] && r[1] == EscapeChar(d)[1]
    ensures c == d
  {
  }

  // ---------------------------------------------------------------------------
  // normalizeUser

  /** A staff record as the table shows it. */
  datatype StaffUser = StaffUser(id: Val, name: string, role: string, email: string, salary: Val, currency: Val)

  /** `a && b` */
  function And(a: Val, b: Val): Val {
    if Truthy(a) then b else a
  }

  /** `v.trim()`, which throws on anything but a string. */
  function TrimVal(v: Val): Option<string> {
    if v.Str? then Some(Trim(v.s)) else None
  }

  /** `[first, last].filter(Boolean).join(' ')` */
  function JoinNames(first: Val, last: Val): string {
    var parts := Filter([first, last], Truthy);
    if parts == [] then ""
    else if |parts| == 1 then StringOf(parts[0])
    else StringOf(parts[0]) + " " + StringOf(parts[1])
  }

  /** `u.id ?? u.userId ?? u._id ?? ''` */
  function IdOf(u: Val): Val {
    Coalesce(Coalesce(Coalesce(Get(u, "id"), Get(u, "userId")), Get(u, "_id")), Str(""))
  }

  /** `u.name ?? [first, last].filter(Boolean).join(' ')`, with each part
      falling back from camel case to lower case to ''. */
  function NameOf(u: Val): Val {
    var first := Coalesce(Coalesce(Get(u, "firstName"), Get(u, "firstname")), Str(""));
    var last := Coalesce(Coalesce(Get(u, "lastName"), Get(u, "lastname")), Str(""));
    Coalesce(Get(u, "name"), Str(JoinNames(first, last)))
  }

  function SalaryOf(u: Val): Val {
    var comp := Get(u, "compensation");
    Coalesce(Coalesce(Get(u, "salary"), Get(u, "baseSalary")), And(comp, Coalesce(Get(comp, "amount"), Get(comp, "value"))))
  }

  function CurrencyOf(u: Val): Val {
    var comp := Get(u, "compensation");
    Coalesce(Coalesce(Get(u, "currency"), And(comp, Coalesce(Get(comp, "currency"), Get(comp, "code")))), Str("USD"))
  }

  /** `normalizeUser(u)`; `None` when it throws (a null record, or a name,
      role or email that is not a string). */
  function NormalizeUser(u: Val): Option<StaffUser> {
    if IsNullish(u) then None
    else
      var role := Coalesce(Coalesce(Get(u, "role"), Get(u, "title")), Str(""));
      var email := Coalesce(Coalesce(Get(u, "email"), Get(u, "mail")), Str(""));
      match (TrimVal(NameOf(u)), TrimVal(role), TrimVal(email))
      case (Some(n), Some(r), Some(e)) => Some(StaffUser(IdOf(u), n, r, e, SalaryOf(u), CurrencyOf(u)))
      case _ => None
  }

  /** The first present one of three fields, or `dflt`. */
  function FirstPresent(u: Val, k1: string, k2: string, k3: string, dflt: Val): Val {
    if !IsNullish(Get(u, k1)) then Get(u, k1)
    else if !IsNullish(Get(u, k2)) then Get(u, k2)
    else if !IsNullish(Get(u, k3)) then Get(u, k3)
    else dflt
  }

  /** The id is the first present of `id`, `userId`, `_id`, else "". */
  lemma IdFallback(u: Val)
    ensures IdOf(u) == FirstPresent(u, "id", "userId", "_id", Str(""))
    ensures !IsNullish(IdOf(u))
  {
  }

  /** Without a currency field, a record is in US dollars unless its
      compensation names one; a compensation that is falsy but present (0,
      "", false) is itself taken as the currency. */
  lemma CurrencyDefault(u: Val)
    requires IsNullish(Get(u, "currency"))
    ensures var comp := Get(u, "compensation");
      && (IsNullish(comp) ==> CurrencyOf(u) == Str("USD"))
      && (Truthy(comp) && IsNullish(Get(comp, "currency")) && IsNullish(Get(comp, "code")) ==> CurrencyOf(u) == Str("USD"))
      && (Truthy(comp) && !IsNullish(Get(comp, "currency")) ==> CurrencyOf(u) == Get(comp, "currency"))
      && (!IsNullish(comp) && !Truthy(comp) ==> CurrencyOf(u) == comp)
  {
  }

  /** The name, role and email come out trimmed, and a present `name` wins
      over the first and last names. */
  lemma NormalizedFieldsTrimmed(u: Val)
    requires NormalizeUser(u).Some?
    ensures var r := NormalizeUser(u).value;
      && Trim(r.name) == r.name && Trim(r.role) == r.role && Trim(r.email) == r.email
      && (!IsNullish(Get(u, "name")) ==> Get(u, "name").Str? && r.name == Trim(Get(u, "name").s))
      && r.id == IdOf(u) && r.currency == CurrencyOf(u)
  {
    var r := NormalizeUser(u).value;
    TrimIdempotent(NameOf(u).s);
    var role := Coalesce(Coalesce(Get(u, "role"), Get(u, "title")), Str(""));
    var email := Coalesce(Coalesce(Get(u, "email"), Get(u, "mail")), Str(""));
    TrimIdempotent(role.s);
    TrimIdempotent(email.s);
  }

  /** Without `name`, the name is the non-empty first and last names joined
      by one space. */
  lemma NameFromParts(first: string, last: string)
    ensures JoinNames(Str(first), Str(last)) ==
      if first == "" then last else if last == "" then first else first + " " + last
  {
    var s := [Str(first), Str(last)];
    assert s[1..] == [Str(last)];
    assert s[1..][1..] == [];
    assert Filter(s[1..], Truthy) == (if last != "" then [Str(last)] else []);
    assert Filter(s, Truthy) == (if first != "" then [Str(first)] else []) + Filter(s[1..], Truthy);
  }

  /** A record with string fields always normalizes. */
  lemma StringRecordNormalizes(fields: map<string, Val>)
    requires forall k :: k in fields && k in {"name", "role", "title", "email", "mail"} ==> fields[k].Str?
    ensures NormalizeUser(Obj(fields)).Some?
  {
    assert NameOf(Obj(fields)).Str?;
  }

  // ---------------------------------------------------------------------------
  // Table

  /** `fetchUsers()`: an array payload as it is, otherwise `json.data || []`;
      `None` when reading `data` of null throws. */
  function UnwrapUsers(json: Val): Option<Val> {
    if json.Arr? then Some(json)
    else if IsNullish(json) then None
    else
      var data := Get(json, "data");
      Some(if Truthy(data) then data else Arr([]))
  }

  /** An array is used as it is; any other non-null payload, object or
      primitive, yields its `data` when that is truthy and an empty list
      otherwise. */
  lemma UnwrapUsersContract(json: Val)
    ensures json.Arr? ==> UnwrapUsers(json) == Some(json)
    ensures !json.Arr? && !IsNullish(json) ==>
      UnwrapUsers(json) == Some(if Truthy(Get(json, "data")) then Get(json, "data") else Arr([]))
    ensures json.Obj? && !Truthy(Get(json, "data")) ==> UnwrapUsers(json) == Some(Arr([]))
    ensures UnwrapUsers(json).None? <==> IsNullish(json)
  {
  }

  /** One table row, every cell escaped. */
  datatype Row = Row(id: string, name: string, role: string, email: string)

  function RowOf(u: StaffUser): Row {
    Row(EscapeValue(Coalesce(u.id, Str(""))), EscapeHTML(u.name), EscapeHTML(u.role), EscapeHTML(u.email))
  }

  /** `users.map(normalizeUser)`: `None` when any record throws. */
  function NormalizeAll(users: seq<Val>): (r: Option<seq<StaffUser>>)
    ensures r.Some? ==> |r.value| == |users|
    ensures r.Some? <==> forall i :: 0 <= i < |users| ==> NormalizeUser(users[i]).Some?
    ensures r.Some? ==> forall i :: 0 <= i < |users| ==> r.value[i] == NormalizeUser(users[i]).value
  {
    MapAll(users, NormalizeUser)
  }

  /** What the table body shows. */
  datatype StaffView = NotShown | Loading | Rows(rows: seq<Row>) | NoStaff | LoadFailed

  /** `renderRows(users)`: `usersRaw || []` mapped through `normalizeUser`;
      anything that is not an array, or a record that throws, ends in the
      error row. */
  function RenderRows(users: Val): StaffView {
    var list := if Truthy(users) then users else Arr([]);
    if !list.Arr? then LoadFailed
    else
      match NormalizeAll(list.items)
      case None => LoadFailed
      case Some(us) =>
        if us == [] then NoStaff else Rows(seq(|us|, i requires 0 <= i < |us| => RowOf(us[i])))
  }

  predicate RowClean(row: Row) {
    NoMarkup(row.id) && NoMarkup(row.name) && NoMarkup(row.role) && NoMarkup(row.email)
  }

  lemma RowOfClean(u: StaffUser)
    ensures RowClean(RowOf(u))
  {
    EscapedHasNoMarkup(u.name);
    EscapedHasNoMarkup(u.role);
    EscapedHasNoMarkup(u.email);
    var idv := Coalesce(u.id, Str(""));
    EscapedHasNoMarkup(if idv.Undefined? then "" else StringOf(idv));
  }

  /** No rendered cell contains markup, and there is one row per record. */
  lemma RenderedCellsHaveNoMarkup(users: Val)
    ensures RenderRows(users).Rows? ==>
      && users.Arr? && |RenderRows(users).rows| == |users.items|
      && forall k :: 0 <= k < |RenderRows(users).rows| ==> RowClean(RenderRows(users).rows[k])
  {
    var v := RenderRows(users);
    if v.Rows? {
      var us := NormalizeAll(users.items).value;
      forall k | 0 <= k < |v.rows|
        ensures RowClean(v.rows[k])
      {
        RowOfClean(us[k]);
      }
    }
  }

  /** The module's `state` object and the table body. */
  class StaffTable {
    var users: Val
    var initialized: bool
    var view: StaffView

    constructor ()
      ensures users == Arr([]) && !initialized && view == NotShown
    {
      users := Arr([]);
      initialized := false;
      view := NotShown;
    }

    /** `init()` with `json` the decoded reply (`None`: the request failed or
      was not ok). `loaded` tells whether the body ran. */
    method Init(json: Option<Val>) returns (loaded: bool)
      modifies this
      ensures loaded <==> !old(initialized)
      ensures initialized
      ensures !loaded ==> users == old(users) && view == old(view)
      ensures loaded ==> match (if json.Some? then UnwrapUsers(json.value) else None)
        case None => users == old(users) && view == LoadFailed
        case Some(list) => users == list && view == RenderRows(list)
    {
      if initialized {
        return false;
      }
      initialized := true;
      loaded := true;
      view := Loading;
      var list := if json.Some? then UnwrapUsers(json.value) else None;
      if list.None? {
        view := LoadFailed;
        return;
      }
      users := list.value;
      view := RenderRows(users);
    }
  }
}
