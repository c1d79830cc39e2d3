/** review.js: the reviews tab of the admin page. It maps role names to
    summary keys and back, shows the three best or worst rated staff of a
    role, and lists time-based reviews sorted by rating with star strings. */
module Reviews {
  import opened Js
  import OnlineOrders

  // ---------------------------------------------------------------------------
  // Role keys

  /** `capitalize(str)`: the first character upper-cased, the rest kept. */
  function Capitalize(s: string): (r: string)
    ensures |r| == |s|
    ensures s != [] ==> r[0] == Upper(s[0]) && r[1..] == s[1..]
    ensures s == [] ==> r == []
  {
    if s == [] then [] else [Upper(s[0])] + s[1..]
  }

  /** `role.toLowerCase() + 's'`: the key of a role's detail endpoint. */
  function RoleKey(role: string): (key: string)
    ensures |key| == |role| + 1 && key[|role|] == 's'
  {
    ToLower(role) + "s"
  }

  /** The card a summary key belongs to: `capitalize(roleKey.slice(0, -1))`. */
  function CardName(key: string): string {
    Capitalize(if key == [] then [] else key[..|key| - 1])
  }

  predicate IsUpperLetter(c: char) { 'A' <= c <= 'Z' }
  predicate IsLowerLetter(c: char) { 'a' <= c <= 'z' }

  /** A role spelled with an upper-case initial and a lower-case rest comes
      back from its key unchanged; in general the key gives the role with
      its case normalized, so "DJ" comes back as "Dj". */
  lemma CardNameOfRoleKey(role: string)
    ensures CardName(RoleKey(role)) == Capitalize(ToLower(role))
    ensures role != [] && IsUpperLetter(role[0]) && (forall i :: 1 <= i < |role| ==> !IsUpperLetter(role[i]))
      ==> CardName(RoleKey(role)) == role
    ensures CardName(RoleKey("DJ")) == "Dj"
  {
    var key := RoleKey(role);
    assert key[..|key| - 1] == ToLower(role);
    if role != [] && IsUpperLetter(role[0]) && (forall i :: 1 <= i < |role| ==> !IsUpperLetter(role[i])) {
      var r := CardName(key);
      assert forall i :: 0 <= i < |role| ==> r[i] == role[i];
    }
    var dj := RoleKey("DJ");
    assert dj[..|dj| - 1] == "dj";
  }

  // ---------------------------------------------------------------------------
  // Role table

  /** The rating cell: `avgRating != null` is false for both null and
      undefined, which show the dash. */
  datatype RatingCell = Dash | Rated(avg: Val)

  datatype RoleRow = RoleRow(name: Val, rating: RatingCell, reviewCount: Val)

  function RowOf(u: Val): RoleRow {
    RoleRow(Get(u, "name"), if IsNullish(Get(u, "avgRating")) then Dash else Rated(Get(u, "avgRating")), Get(u, "reviewCount"))
  }

  /** `appendRow(tbody, u)` throws before appending: `u.name` of null or
      undefined, or `toFixed` on an `avgRating` that is set but not a number. */
  predicate RowThrows(u: Val) {
    IsNullish(u) || (!IsNullish(Get(u, "avgRating")) && !Get(u, "avgRating").Num?)
  }

  /** `items.forEach(u => appendRow(tbody, u))`: the rows appended before the
      first entry that throws. */
  function RowsUntilThrow(items: seq<Val>): (rows: seq<RoleRow>)
    ensures |rows| <= |items|
    ensures forall i :: 0 <= i < |rows| ==> !RowThrows(items[i]) && rows[i] == RowOf(items[i])
    ensures |rows| < |items| ==> RowThrows(items[|rows|])
  {
    if items == [] || RowThrows(items[0]) then []
    else [RowOf(items[0])] + RowsUntilThrow(items[1..])
  }

  /** `(list || []).slice(0, 3)` appended row by row: the rows of the first
      entries up to the first one that throws; a list that is not an array
      leaves the cleared table empty (`slice` or `forEach` throws on it). */
  function TopThree(list: Val): (rows: seq<RoleRow>)
    ensures |rows| <= 3
    ensures list.Arr? ==>
      var n := if |list.items| < 3 then |list.items| else 3;
      && |rows| <= n
      && (forall i :: 0 <= i < |rows| ==> !RowThrows(list.items[i]) && rows[i] == RowOf(list.items[i]))
      && (|rows| < n ==> RowThrows(list.items[|rows|]))
    ensures !list.Arr? ==> rows == []
  {
    if list.Arr? then
      var n := if |list.items| < 3 then |list.items| else 3;
      RowsUntilThrow(list.items[..n])
    else []
  }

  /** With no entry among the first three that throws, the table shows all of
      them; otherwise it stops right before the first one that does. */
  lemma TopThreeStops(items: seq<Val>, k: nat)
    requires k <= 3 && k <= |items|
    requires forall i :: 0 <= i < k ==> !RowThrows(items[i])
    requires k < 3 && k < |items| ==> RowThrows(items[k])
    ensures TopThree(Arr(items)) == seq(k, i requires 0 <= i < k => RowOf(items[i]))
  {
    var rows := TopThree(Arr(items));
    assert |rows| == k;
  }

  /** The panel's closure state and its table body. */
  class RolePanel {
    var roleKey: Option<string>
    var roleData: Val
    var rows: seq<RoleRow>

    constructor ()
      ensures roleKey == None && roleData == Null && rows == []
    {
      roleKey := None;
      roleData := Null;
      rows := [];
    }

    /** `renderRoleTable(sortOrder)`: with data loaded, "desc" shows the first
      three of `best` and any other order the first three of `worst`; with
      no data the table is left as it was. */
    method RenderRoleTable(sortOrder: string)
      modifies this
      ensures !Truthy(roleData) ==> rows == old(rows)
      ensures Truthy(roleData) ==> rows == TopThree(if sortOrder == "desc" then Get(roleData, "best") else Get(roleData, "worst"))
      ensures roleData == old(roleData) && roleKey == old(roleKey)
    {
      if !Truthy(roleData) {
        return;
      }
      rows := [];
      var list := if sortOrder == "desc" then Get(roleData, "best") else Get(roleData, "worst");
      if !Truthy(list) {
        list := Arr([]);
      }
      rows := TopThree(list);
    }

    /** `openRoleDetail(role)`, with `reply` the decoded detail reply (`None`:
      the request failed, the error is only logged) and `sortOrder` the sort
      select's value. */
    method OpenRoleDetail(role: string, reply: Option<Val>, sortOrder: string)
      modifies this
      ensures roleKey == Some(RoleKey(role))
      ensures reply.None? ==> roleData == old(roleData) && rows == old(rows)
      ensures reply.Some? ==> (roleData == reply.value &&
        rows == (if Truthy(reply.value) then TopThree(if sortOrder == "desc" then Get(reply.value, "best") else Get(reply.value, "worst")) else old(rows)))
    {
      roleKey := Some(RoleKey(role));
      if reply.None? {
        return;
      }
      roleData := reply.value;
      RenderRoleTable(sortOrder);
    }
  }

  // ---------------------------------------------------------------------------
  // Time-based reviews

  /** A review as the time endpoint sends it. */
  datatype TimeReviewIn = TimeReviewIn(createdAt: string, overallRating: int, comment: string)

  /** The mapped review: its date, rating and comment. */
  datatype TimeReview = TimeReview(date: string, rating: int, comment: string)

  /** `createdAt.split('T')[0]`: the date part. */
  function MapReview(r: TimeReviewIn): (m: TimeReview)
    ensures |m.date| <= |r.createdAt| && m.date == r.createdAt[..|m.date|] && 'T' !in m.date
    ensures |m.date| < |r.createdAt| ==> r.createdAt[|m.date|] == 'T'
    ensures m.rating == r.overallRating && m.comment == r.comment
  {
    SplitFirst(r.createdAt, 'T');
    TimeReview(Split(r.createdAt, 'T')[0], r.overallRating, r.comment)
  }

  /** The comparator's order: ascending ratings for "asc", descending for
      anything else. */
  function Key(r: TimeReview, ascending: bool): int {
    if ascending then r.rating else -r.rating
  }

  predicate SortedBy(s: seq<TimeReview>, ascending: bool) {
    forall p, q :: 0 <= p < q < |s| ==> Key(s[p], ascending) <= Key(s[q], ascending)
  }

  /** `reviews.sort(...)` in place, by insertion. */
  method SortByRating(a: array<TimeReview>, ascending: bool)
    modifies a
    ensures SortedBy(a[..], ascending)
    ensures multiset(a[..]) == multiset(old(a[..]))
  {
    if a.Length == 0 {
      return;
    }
    var i := 1;
    while i < a.Length
      invariant 1 <= i <= a.Length
      invariant SortedBy(a[..i], ascending)
      invariant multiset(a[..]) == multiset(old(a[..]))
    {
      InsertAt(a, i, ascending);
      i := i + 1;
    }
    assert a[..a.Length] == a[..];
  }

  /** The prefix up to `i` is in order except that the element at `j` may be
      out of place towards the front. */
  predicate SortedExcept(s: seq<TimeReview>, i: nat, j: nat, ascending: bool)
    requires i < |s|
  {
    forall p, q :: 0 <= p < q <= i && q != j ==> Key(s[p], ascending) <= Key(s[q], ascending)
  }

  lemma SwapKeepsSortedExcept(s: seq<TimeReview>, i: nat, j: nat, ascending: bool)
    requires 0 < j <= i < |s| && SortedExcept(s, i, j, ascending)
    requires Key(s[j - 1], ascending) > Key(s[j], ascending)
    ensures SortedExcept(s[j - 1 := s[j]][j := s[j - 1]], i, j - 1, ascending)
  {
  }

  lemma SwapKeepsMultiset(s: seq<TimeReview>, j: nat)
    requires 0 < j < |s|
    ensures multiset(s[j - 1 := s[j]][j := s[j - 1]]) == multiset(s)
  {
    var t := s[j - 1 := s[j]][j := s[j - 1]];
    assert s == s[..j - 1] + [s[j - 1], s[j]] + s[j + 1..];
    assert t == s[..j - 1] + [s[j], s[j - 1]] + s[j + 1..];
  }

  lemma InsertedSorted(s: seq<TimeReview>, i: nat, j: nat, ascending: bool)
    requires j <= i < |s| && SortedExcept(s, i, j, ascending)
    requires j == 0 || Key(s[j - 1], ascending) <= Key(s[j], ascending)
    ensures SortedBy(s[..i + 1], ascending)
  {
  }

  /** Moves `a[i]` left until the prefix `a[..i + 1]` is sorted. */
  method InsertAt(a: array<TimeReview>, i: nat, ascending: bool)
    requires i < a.Length && SortedBy(a[..i], ascending)
    modifies a
    ensures SortedBy(a[..i + 1], ascending)
    ensures multiset(a[..]) == multiset(old(a[..]))
  {
    var j := i;
    assert SortedExcept(a[..], i, j, ascending);
    while j > 0 && Key(a[j - 1], ascending) > Key(a[j], ascending)
      invariant 0 <= j <= i
      invariant SortedExcept(a[..], i, j, ascending)
      invariant multiset(a[..]) == multiset(old(a[..]))
    {
      SwapKeepsSortedExcept(a[..], i, j, ascending);
      SwapKeepsMultiset(a[..], j);
      a[j - 1], a[j] := a[j], a[j - 1];
      j := j - 1;
    }
    InsertedSorted(a[..], i, j, ascending);
  }

  /** `'★'.repeat(r) + '☆'.repeat(5 - r)`; `None` when a count is negative
      (a RangeError). */
  function ReviewStars(r: int): Option<string> {
    if r < 0 || 5 - r < 0 then None
    else Some(Repeat(OnlineOrders.FullStar, r) + Repeat(OnlineOrders.EmptyStar, 5 - r))
  }

  /** For ratings 0..5 the review stars are the order tab's stars; outside
      that range the rendering throws. */
  lemma ReviewStarsAgree(r: int)
    ensures ReviewStars(r).Some? <==> 0 <= r <= 5
    ensures 0 <= r <= 5 ==> ReviewStars(r) == Some(OnlineOrders.Stars(Some(r as real)))
  {
    OnlineOrders.StarsOfWholeRating(r);
  }

  /** One card of the time-review list. */
  datatype Card = Card(date: string, stars: string, comment: string)

  datatype TimeView = Cards(cards: seq<Card>) | CouldNotLoad

  /** The cards for reviews already in display order; a rating out of range
      throws and shows the error instead. */
  function CardsOf(reviews: seq<TimeReview>): TimeView {
    if forall i :: 0 <= i < |reviews| ==> 0 <= reviews[i].rating <= 5 then
      Cards(seq(|reviews|, i requires 0 <= i < |reviews| => Card(reviews[i].date, ReviewStars(reviews[i].rating).value, reviews[i].comment)))
    else CouldNotLoad
  }

  /** `filterTimeReviews()`, with `reply` the decoded reviews (`None`: the
      request failed) and `sortSelect` the sort select's value, if present. */
  method FilterTimeReviews(sortSelect: Option<string>, reply: Option<seq<TimeReviewIn>>) returns (view: TimeView)
    ensures reply.None? ==> view == CouldNotLoad
    ensures reply.Some? ==> exists sorted: seq<TimeReview> ::
      && |sorted| == |reply.value|
      && multiset(sorted) == multiset(seq(|reply.value|, i requires 0 <= i < |reply.value| => MapReview(reply.value[i])))
      && SortedBy(sorted, SortOrder(sortSelect) == "asc")
      && view == CardsOf(sorted)
  {
    if reply.None? {
      return CouldNotLoad;
    }
    var order := SortOrder(sortSelect);
    var mapped := seq(|reply.value|, i requires 0 <= i < |reply.value| => MapReview(reply.value[i]));
    var a := new TimeReview[|mapped|](i requires 0 <= i < |mapped| => mapped[i]);
    assert a[..] == mapped;
    SortByRating(a, order == "asc");
    view := CardsOf(a[..]);
    assert |a[..]| == |mapped| by {
      assert |multiset(a[..])| == |multiset(mapped)|;
    }
  }

  /** `sortReviews?.value || 'desc'` */
  function SortOrder(sortSelect: Option<string>): (order: string)
    ensures order != ""
    ensures sortSelect.Some? && sortSelect.value != "" ==> order == sortSelect.value
  {
    if sortSelect.Some? && sortSelect.value != "" then sortSelect.value else "desc"
  }
}
