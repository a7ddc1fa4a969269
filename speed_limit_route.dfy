/** The speed-limit endpoint of the server (`GET /api/speed-limit?lat=…&lon=…`): query validation,
    the reading of a road's OpenStreetMap tags, the highway-class fallback table and the shape of
    every reply. The three Overpass requests it makes are given as their outcomes. */
module SpeedLimitRoute {
  import opened Common
  import opened Text

  /** The tags of one map element (an element without tags has none). */
  type Tags = map<string, string>

  /** What one Overpass request gave the handler: a thrown error (network, timeout, bad JSON), a
      non-OK status, or the list of elements (a missing list is the empty list). */
  datatype Overpass = Threw | NotOk | Elements(elements: seq<Tags>)

  /** A validated query or the message of the 400 reply. */
  datatype Query = Coordinates(lat: real, lon: real) | Rejected(error: string)

  /** A reply: 400 with an error message, or the JSON body; `isSchoolZone` is absent (None) in the
      body the error handler sends. */
  datatype Response =
    | BadRequest(error: string)
    | Reply(speedLimit: Option<int>, roadName: Option<string>, isSchoolZone: Option<bool>)

  const RequiredError := "lat and lon are required"
  const InvalidError := "Invalid coordinates"

  /** JavaScript truthiness of an optional string: present and not empty. */
  predicate Truthy(s: Option<string>) { s.Some? && s.value != "" }

  function Tag(tags: Tags, key: string): Option<string>
  {
    if key in tags then Some(tags[key]) else None
  }

  /** The two checks before any lookup: both parameters present, both numbers. */
  function ValidateQuery(lat: Option<string>, lon: Option<string>): (q: Query)
    ensures q == Rejected(RequiredError) <==> !Truthy(lat) || !Truthy(lon)
    ensures q == Rejected(InvalidError) <==>
      Truthy(lat) && Truthy(lon) && (ParseFloat(lat.value).None? || ParseFloat(lon.value).None?)
    ensures q.Coordinates? ==>
      Truthy(lat) && Truthy(lon) && ParseFloat(lat.value) == Some(q.lat) && ParseFloat(lon.value) == Some(q.lon)
  {
    if !Truthy(lat) || !Truthy(lon) then Rejected(RequiredError)
    else
      match (ParseFloat(lat.value), ParseFloat(lon.value))
      case (Some(x), Some(y)) => Coordinates(x, y)
      case _ => Rejected(InvalidError)
  }

  /** The speed limit in km/h a `maxspeed` tag gives: the digits of the tag, converted from miles
      per hour (rounded) when the tag mentions "mph"; no limit when the tag is missing or empty,
      has no digit, or gives a value that is not positive. */
  function MaxspeedLimit(maxspeed: Option<string>): (r: Option<int>)
    ensures r.Some? ==> r.value > 0
    ensures !Truthy(maxspeed) ==> r.None?
    ensures Truthy(maxspeed) && DigitsOnly(maxspeed.value) == [] ==> r.None?
    ensures Truthy(maxspeed) && DigitsOnly(maxspeed.value) != [] ==>
      var n := DecimalValue(DigitsOnly(maxspeed.value));
      var kmh := if Contains(maxspeed.value, "mph") then Round((n as real) * 1.60934) else n;
      r == if kmh > 0 then Some(kmh) else None
  {
    if !Truthy(maxspeed) then None
    else
      var s := maxspeed.value;
      var digits := ParseDigits(DigitsOnly(s));
      var limit: Option<int> :=
        if digits.None? then None
        else if Contains(s, "mph") then Some(Round((digits.value as real) * 1.60934))
        else Some(digits.value);
      if limit.Some? && limit.value <= 0 then None else limit
  }

  lemma {:induction false} DigitsHaveNoWord(s: string, w: string)
    requires AllDigits(s)
    requires |w| > 0 && !IsDigit(w[0])
    ensures !Contains(s, w)
    decreases |s|
  {
    if |s| >= |w| {
      assert s[..|w|][0] == s[0];
      DigitsHaveNoWord(s[1..], w);
    }
  }

  /** A plain positive number as tag is read back as that limit. */
  lemma MaxspeedOfNumber(n: nat)
    requires n > 0
    ensures MaxspeedLimit(Some(NatToString(n))) == Some(n)
  {
    var s := NatToString(n);
    DigitsOnlyOfDigits(s);
    DecimalValueOfNatToString(n);
    DigitsHaveNoWord(s, "mph");
  }

  /** "N mph" is read as N miles per hour, converted to km/h and rounded. */
  lemma MaxspeedOfMph(n: nat)
    requires n > 0
    ensures MaxspeedLimit(Some(NatToString(n) + " mph")) == Some(Round((n as real) * 1.60934))
  {
    MphTagParts(n);
    assert Round((n as real) * 1.60934) > 0;
  }

  /** The digits of "N mph" are those of N, and the tag mentions "mph". */
  lemma MphTagParts(n: nat)
    ensures DecimalValue(DigitsOnly(NatToString(n) + " mph")) == n
    ensures Contains(NatToString(n) + " mph", "mph")
  {
    var d := NatToString(n);
    DigitsOnlyAppend(d, " mph");
    DigitsOnlyOfDigits(d);
    UnitHasNoDigits();
    assert DigitsOnly(d + " mph") == d + [] == d;
    DecimalValueOfNatToString(n);
    MentionsMph(d);
  }

  lemma UnitHasNoDigits()
    ensures DigitsOnly(" mph") == []
  {
    assert " mph"[..3] == " mp" && " mp"[..2] == " m" && " m"[..1] == " ";
  }

  lemma MentionsMph(d: string)
    ensures Contains(d + " mph", "mph")
  {
    var s := d + " mph";
    assert s[|d| + 1..|d| + 4] == "mph";
    ContainsAt(s, "mph", |d| + 1);
  }

  /** `tags.name || tags.ref || null`. */
  function RoadName(tags: Tags): (r: Option<string>)
    ensures r.Some? ==> r.value != ""
    ensures Truthy(Tag(tags, "name")) ==> r == Tag(tags, "name")
    ensures !Truthy(Tag(tags, "name")) ==> r == if Truthy(Tag(tags, "ref")) then Tag(tags, "ref") else None
  {
    if Truthy(Tag(tags, "name")) then Tag(tags, "name")
    else if Truthy(Tag(tags, "ref")) then Tag(tags, "ref")
    else None
  }

  /** The tags whose text may mark a school zone. */
  const SchoolKeys: seq<string> := ["maxspeed:conditional", "zone:traffic", "description"]

  predicate MentionsSchool(tag: Option<string>)
  {
    tag.Some? && Contains(Lower(tag.value), "school")
  }

  /** A road is a school zone when one of the three tags mentions "school" in any case. */
  function SchoolTagged(tags: Tags): (b: bool)
    ensures b <==> exists k :: k in SchoolKeys && MentionsSchool(Tag(tags, k))
  {
    MentionsSchool(Tag(tags, SchoolKeys[0])) || MentionsSchool(Tag(tags, SchoolKeys[1]))
      || MentionsSchool(Tag(tags, SchoolKeys[2]))
  }

  /** "School", "SCHOOL" and every other spelling of the word is recognised. */
  lemma SchoolInAnyCase(tags: Tags, k: string, w: string)
    requires k in SchoolKeys && k in tags
    requires Lower(w) == "school" && Contains(tags[k], w)
    ensures SchoolTagged(tags)
  {
    ContainsLower(tags[k], w);
    assert MentionsSchool(Tag(tags, k));
  }

  /** The best-effort count of schools nearby: positive when the first element's `total` tag
      parses to a positive integer; any failure counts as none. */
  function SchoolsNearby(count: Overpass): (b: bool)
    ensures b ==> count.Elements? && |count.elements| > 0
  {
    count.Elements? && |count.elements| > 0
    && var total := Tag(count.elements[0], "total");
       Truthy(total) && var n := ParseLeadingInt(total.value); n.Some? && n.value > 0
  }

  /** The ordered road classes of the fallback table. */
  const HighwayClasses: seq<string> :=
    ["motorway", "trunk", "primary", "secondary", "tertiary", "residential", "living_street"]

  /** The default limit for a road without a `maxspeed` tag, by highway class. */
  function HighwayDefault(highway: Option<string>): (r: Option<int>)
    ensures r.Some? <==> highway.Some? && highway.value in HighwayClasses
    ensures r.Some? ==> 20 <= r.value <= 120
  {
    if highway.None? then None
    else
      match highway.value
      case "motorway" => Some(120)
      case "trunk" => Some(100)
      case "primary" => Some(80)
      case "secondary" => Some(60)
      case "tertiary" => Some(50)
      case "residential" => Some(30)
      case "living_street" => Some(20)
      case _ => None
  }

  /** A more important road class never has a lower default limit: the table strictly decreases
      along the class order. */
  lemma HighwayDefaultDecreases(i: nat, j: nat)
    requires i < j < |HighwayClasses|
    ensures HighwayDefault(Some(HighwayClasses[i])).Some? && HighwayDefault(Some(HighwayClasses[j])).Some?
    ensures HighwayDefault(Some(HighwayClasses[i])).value > HighwayDefault(Some(HighwayClasses[j])).value
  {
  }

  /** The handler, given the query parameters and the outcome of each Overpass request it would
      make: the ways with a `maxspeed` tag near the point, the school count (used only when the road
      tags say nothing about a school) and the fallback query for any highway. */
  function HandleSpeedLimit(lat: Option<string>, lon: Option<string>,
                            primary: Overpass, schoolCount: Overpass, fallback: Overpass): (r: Response)
    ensures r.BadRequest? <==> ValidateQuery(lat, lon).Rejected?
    ensures r.BadRequest? ==> r.error == ValidateQuery(lat, lon).error
    ensures r.Reply? && r.speedLimit.Some? ==> r.speedLimit.value > 0
    ensures r.Reply? && r.isSchoolZone.None? ==> r.speedLimit.None? && r.roadName.None?
    ensures r.Reply? && primary.Elements? && |primary.elements| > 0 ==>
      r.speedLimit == MaxspeedLimit(Tag(primary.elements[0], "maxspeed")) && r.isSchoolZone.Some?
    ensures r.Reply? && !(primary.Elements? && |primary.elements| > 0) ==> r.isSchoolZone != Some(true)
    ensures ValidateQuery(lat, lon).Coordinates? && !primary.Elements? ==> r == Reply(None, None, None)
    ensures ValidateQuery(lat, lon).Coordinates? && primary.Elements? && |primary.elements| > 0 ==>
      var road := primary.elements[0];
      && r.roadName == RoadName(road)
      && r.isSchoolZone == Some(SchoolTagged(road) || SchoolsNearby(schoolCount))
    ensures ValidateQuery(lat, lon).Coordinates? && primary == Elements([]) ==>
      && (fallback.Threw? ==> r == Reply(None, None, None))
      && (fallback.NotOk? ==> r == Reply(None, None, Some(false)))
      && (fallback == Elements([]) ==> r == Reply(None, None, Some(false)))
      && (fallback.Elements? && |fallback.elements| > 0 ==>
            var road := fallback.elements[0];
            r == Reply(HighwayDefault(Tag(road, "highway")), RoadName(road), Some(false)))
  {
    match ValidateQuery(lat, lon)
    case Rejected(e) => BadRequest(e)
    case Coordinates(_, _) =>
      match primary
      case Threw => Reply(None, None, None)
      case NotOk => Reply(None, None, None)
      case Elements(es) =>
        if |es| > 0 then
          var road := es[0];
          var tagged := SchoolTagged(road);
          Reply(MaxspeedLimit(Tag(road, "maxspeed")), RoadName(road),
                Some(tagged || SchoolsNearby(schoolCount)))
        else
          match fallback
          case Threw => Reply(None, None, None)
          case NotOk => Reply(None, None, Some(false))
          case Elements(fs) =>
            if |fs| > 0 then
              Reply(HighwayDefault(Tag(fs[0], "highway")), RoadName(fs[0]), Some(false))
            else Reply(None, None, Some(false))
  }
}
