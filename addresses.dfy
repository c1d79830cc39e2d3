/** addresses.js: when the user picks a place, the street and city inputs
    are filled from the place's address components. */
module Addresses {
  import opened Js

  /** One entry of `place.address_components`. */
  datatype Component = Component(types: seq<string>, longName: string)

  /** The component types whose names make up the street. */
  predicate IsStreetPart(c: Component) {
    "route" in c.types || "street_address" in c.types || "premise" in c.types
  }

  /** One step of the street accumulator: `street += long_name + " "`. */
  function StreetStep(street: string, c: Component): string {
    if IsStreetPart(c) then street + c.longName + " " else street
  }

  /** One step of the city variable: a locality sets it, then an
      `administrative_area_level_1` fills it while it is still empty. */
  function CityStep(city: string, c: Component): string {
    var afterLocality := if "locality" in c.types then c.longName else city;
    if afterLocality == "" && "administrative_area_level_1" in c.types then c.longName else afterLocality
  }

  /** The street accumulator after the remaining components `cs`. */
  function StreetFrom(street: string, cs: seq<Component>): string
    decreases |cs|
  {
    if cs == [] then street else StreetFrom(StreetStep(street, cs[0]), cs[1..])
  }

  /** The city variable after the remaining components `cs`. */
  function CityFrom(city: string, cs: seq<Component>): string
    decreases |cs|
  {
    if cs == [] then city else CityFrom(CityStep(city, cs[0]), cs[1..])
  }

  /** The two inputs the handler writes. */
  class AddressForm {
    var street: string
    var city: string

    constructor (street: string, city: string)
      ensures this.street == street && this.city == city
    {
      this.street := street;
      this.city := city;
    }

    /** `fillInAddress()` for a place whose `address_components` are
      `components` (`None`: absent, and nothing is written). */
    method FillInAddress(components: Option<seq<Component>>)
      modifies this
      ensures components.None? ==> street == old(street) && city == old(city)
      ensures components.Some? ==>
        street == Trim(StreetFrom("", components.value)) && city == CityFrom("", components.value)
    {
      if components.None? {
        return;
      }
      var cs := components.value;
      var s := "";
      var c := "";
      var i := 0;
      while i < |cs|
        invariant 0 <= i <= |cs|
        invariant StreetFrom(s, cs[i..]) == StreetFrom("", cs)
        invariant CityFrom(c, cs[i..]) == CityFrom("", cs)
      {
        assert cs[i..][1..] == cs[i + 1..];
        s := StreetStep(s, cs[i]);
        c := CityStep(c, cs[i]);
        i := i + 1;
      }
      street := Trim(s);
      city := c;
    }
  }

  // ---------------------------------------------------------------------------
  // What the two loops compute

  /** The names of `parts`, each followed by one space. */
  function Spaced(parts: seq<Component>): string {
    if parts == [] then "" else parts[0].longName + " " + Spaced(parts[1..])
  }

  /** The street is the street components' names, in their order, each
      followed by a space (before the final trim). */
  lemma {:induction false} StreetFromIsSpaced(street: string, cs: seq<Component>)
    ensures StreetFrom(street, cs) == street + Spaced(Filter(cs, IsStreetPart))
    decreases |cs|
  {
    if cs != [] {
      StreetFromIsSpaced(StreetStep(street, cs[0]), cs[1..]);
      if IsStreetPart(cs[0]) {
        assert Filter(cs, IsStreetPart) == [cs[0]] + Filter(cs[1..], IsStreetPart);
        assert ([cs[0]] + Filter(cs[1..], IsStreetPart))[1..] == Filter(cs[1..], IsStreetPart);
      }
    }
  }

  /** Components that are neither localities nor first-level areas leave
      the city as it is; in particular with none of them the city is "". */
  lemma {:induction false} CityUntouched(city: string, cs: seq<Component>)
    requires forall k :: 0 <= k < |cs| ==> "locality" !in cs[k].types && "administrative_area_level_1" !in cs[k].types
    ensures CityFrom(city, cs) == city
    decreases |cs|
  {
    if cs != [] {
      CityUntouched(city, cs[1..]);
    }
  }

  /** A non-empty city survives every later component that is not a
      locality. */
  lemma {:induction false} CityKept(city: string, cs: seq<Component>)
    requires city != ""
    requires forall k :: 0 <= k < |cs| ==> "locality" !in cs[k].types
    ensures CityFrom(city, cs) == city
    decreases |cs|
  {
    if cs != [] {
      CityKept(city, cs[1..]);
    }
  }

  /** When the last locality has a name, the city is that name, whatever
      first-level areas come after it. */
  lemma {:induction false} LastLocalityWins(city: string, cs: seq<Component>, i: nat)
    requires i < |cs| && "locality" in cs[i].types && cs[i].longName != ""
    requires forall k :: i < k < |cs| ==> "locality" !in cs[k].types
    ensures CityFrom(city, cs) == cs[i].longName
    decreases |cs|
  {
    if i == 0 {
      assert CityStep(city, cs[0]) == cs[0].longName;
      CityKept(cs[0].longName, cs[1..]);
    } else {
      LastLocalityWins(CityStep(city, cs[0]), cs[1..], i - 1);
    }
  }

  /** The first first-level area with a name, or "". */
  function FirstAreaName(cs: seq<Component>): string {
    if cs == [] then ""
    else if "administrative_area_level_1" in cs[0].types && cs[0].longName != "" then cs[0].longName
    else FirstAreaName(cs[1..])
  }

  /** Without any locality the city is the first named first-level area:
      a later area never overrides an earlier one. */
  lemma {:induction false} AreaFallback(cs: seq<Component>)
    requires forall k :: 0 <= k < |cs| ==> "locality" !in cs[k].types
    ensures CityFrom("", cs) == FirstAreaName(cs)
    decreases |cs|
  {
    if cs != [] {
      var next := CityStep("", cs[0]);
      if next != "" {
        CityKept(next, cs[1..]);
      } else {
        AreaFallback(cs[1..]);
      }
    }
  }
}
