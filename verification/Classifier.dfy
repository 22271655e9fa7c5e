/** `classify_device`: the roles of a device from the names of its properties. */
module Classifier {

  datatype Role = Mount | Camera | Focuser | FilterWheel | Rotator | Dome | Weather | Gps

  const ROLE_ORDER: seq<Role> := [Mount, Camera, Focuser, FilterWheel, Rotator, Dome, Weather, Gps]

  /** The alternative sets of property names that identify a role. */
  function Signatures(role: Role): seq<set<string>> {
    match role
    case Mount => [{"TELESCOPE_MOTION_NS"}, {"EQUATORIAL_EOD_COORD", "TELESCOPE_SLEW_RATE"}]
    case Camera => [{"CCD_EXPOSURE"}, {"CCD_FRAME", "CCD_TEMPERATURE"}]
    case Focuser => [{"FOCUS_MOTION"}, {"ABS_FOCUS_POSITION"}]
    case FilterWheel => [{"FILTER_SLOT"}]
    case Rotator => [{"ABS_ROTATOR_ANGLE"}]
    case Dome => [{"DOME_MOTION"}, {"DOME_SHUTTER"}]
    case Weather => [{"WEATHER_STATUS"}, {"WEATHER_UPDATE"}]
    case Gps => [{"GPS_REFRESH"}, {"SYSTEM_TIME_UPDATE"}]
  }

  predicate HasRole(role: Role, names: set<string>) {
    exists k :: 0 <= k < |Signatures(role)| && Signatures(role)[k] <= names
  }

  /** The roles of `order` that the names identify, in that order. */
  function RolesIn(order: seq<Role>, names: set<string>): seq<Role> {
    if |order| == 0 then []
    else
      var last := order[|order| - 1];
      RolesIn(order[..|order| - 1], names) + if HasRole(last, names) then [last] else []
  }

  function Classify(names: set<string>): seq<Role> {
    RolesIn(ROLE_ORDER, names)
  }

  /** The inner loop of `classify_device`: stops at the first signature that matches. */
  method MatchesSome(role: Role, names: set<string>) returns (found: bool)
    ensures found <==> HasRole(role, names)
  {
    var signatures := Signatures(role);
    for k := 0 to |signatures|
      invariant forall j :: 0 <= j < k ==> !(signatures[j] <= names)
    {
      if signatures[k] <= names {
        return true;
      }
    }
    return false;
  }

  /** `classify_device`. */
  method ClassifyDevice(names: set<string>) returns (roles: seq<Role>)
    ensures roles == Classify(names)
  {
    roles := [];
    for i := 0 to |ROLE_ORDER|
      invariant roles == RolesIn(ROLE_ORDER[..i], names)
    {
      assert ROLE_ORDER[..i + 1][..i] == ROLE_ORDER[..i];
      var found := MatchesSome(ROLE_ORDER[i], names);
      if found {
        roles := roles + [ROLE_ORDER[i]];
      }
    }
    assert ROLE_ORDER[..|ROLE_ORDER|] == ROLE_ORDER;
  }

  /** The place of a role in the canonical order. */
  function Rank(role: Role): nat {
    match role
    case Mount => 0
    case Camera => 1
    case Focuser => 2
    case FilterWheel => 3
    case Rotator => 4
    case Dome => 5
    case Weather => 6
    case Gps => 7
  }

  /** In canonical order, and so without duplicates. */
  predicate Ranked(roles: seq<Role>) {
    forall i, j :: 0 <= i < j < |roles| ==> Rank(roles[i]) < Rank(roles[j])
  }

  lemma {:induction false} RolesInFacts(order: seq<Role>, names: set<string>)
    requires Ranked(order)
    ensures var roles := RolesIn(order, names);
            Ranked(roles) && |roles| <= |order| && forall r :: r in roles <==> r in order && HasRole(r, names)
  {
    if |order| == 0 {
    } else {
      var front, last := order[..|order| - 1], order[|order| - 1];
      assert order == front + [last];
      RolesInFacts(front, names);
      RankedSnoc(front, last, RolesIn(front, names));
    }
  }

  lemma RankedSnoc(front: seq<Role>, last: Role, roles: seq<Role>)
    requires Ranked(front + [last]) && Ranked(roles) && forall r :: r in roles ==> r in front
    ensures Ranked(roles + [last])
  {
    forall i | 0 <= i < |roles|
      ensures Rank(roles[i]) < Rank(last)
    {
      assert roles[i] in front;
      var k :| 0 <= k < |front| && front[k] == roles[i];
      assert (front + [last])[k] == front[k] && (front + [last])[|front|] == last;
    }
  }

  lemma OrderIsCanonical()
    ensures Ranked(ROLE_ORDER) && forall r: Role :: r in ROLE_ORDER
  {
    forall r: Role
      ensures r in ROLE_ORDER
    {
      assert ROLE_ORDER[Rank(r)] == r;
    }
  }

  /** The result is exactly the roles that some signature identifies, each once, in canonical order. */
  lemma ClassifyIsExact(names: set<string>)
    ensures forall r :: r in Classify(names) <==> HasRole(r, names)
    ensures Ranked(Classify(names)) && |Classify(names)| <= 8
  {
    OrderIsCanonical();
    RolesInFacts(ROLE_ORDER, names);
  }

  /** The roles, spelled out by the names of the INDI standard properties. */
  lemma RolesByName(names: set<string>)
    ensures Mount in Classify(names) <==>
            "TELESCOPE_MOTION_NS" in names || ("EQUATORIAL_EOD_COORD" in names && "TELESCOPE_SLEW_RATE" in names)
    ensures Camera in Classify(names) <==> "CCD_EXPOSURE" in names || ("CCD_FRAME" in names && "CCD_TEMPERATURE" in names)
    ensures Focuser in Classify(names) <==> "FOCUS_MOTION" in names || "ABS_FOCUS_POSITION" in names
    ensures FilterWheel in Classify(names) <==> "FILTER_SLOT" in names
    ensures Rotator in Classify(names) <==> "ABS_ROTATOR_ANGLE" in names
    ensures Dome in Classify(names) <==> "DOME_MOTION" in names || "DOME_SHUTTER" in names
    ensures Weather in Classify(names) <==> "WEATHER_STATUS" in names || "WEATHER_UPDATE" in names
    ensures Gps in Classify(names) <==> "GPS_REFRESH" in names || "SYSTEM_TIME_UPDATE" in names
  {
    ClassifyIsExact(names);
    OneSignature(FilterWheel, names);
    OneSignature(Rotator, names);
    TwoSignatures(Mount, names);
    TwoSignatures(Camera, names);
    TwoSignatures(Focuser, names);
    TwoSignatures(Dome, names);
    TwoSignatures(Weather, names);
    TwoSignatures(Gps, names);
  }

  lemma OneSignature(role: Role, names: set<string>)
    requires |Signatures(role)| == 1
    ensures HasRole(role, names) <==> Signatures(role)[0] <= names
  {
  }

  lemma TwoSignatures(role: Role, names: set<string>)
    requires |Signatures(role)| == 2
    ensures HasRole(role, names) <==> Signatures(role)[0] <= names || Signatures(role)[1] <= names
  {
  }

  lemma HasRoleMonotone(role: Role, names: set<string>, more: set<string>)
    requires names <= more
    ensures HasRole(role, names) ==> HasRole(role, more)
  {
  }

  lemma {:induction false} RolesInMonotone(order: seq<Role>, names: set<string>, more: set<string>)
    requires names <= more
    ensures var a, b := RolesIn(order, names), RolesIn(order, more);
            && (forall r :: r in a ==> r in b)
            && (a == b || |a| < |b|)
  {
    if |order| == 0 {
    } else {
      RolesInMonotone(order[..|order| - 1], names, more);
      HasRoleMonotone(order[|order| - 1], names, more);
    }
  }

  /** More properties never lose a role; when the roles change there are strictly more of them. */
  lemma ClassifyMonotone(names: set<string>, more: set<string>)
    requires names <= more
    ensures forall r :: r in Classify(names) ==> r in Classify(more)
    ensures Classify(names) == Classify(more) || |Classify(names)| < |Classify(more)|
  {
    RolesInMonotone(ROLE_ORDER, names, more);
  }

  /** No names, no roles. */
  lemma ClassifyNothing()
    ensures Classify({}) == []
  {
    RolesInNothing(ROLE_ORDER);
  }

  lemma {:induction false} RolesInNothing(order: seq<Role>)
    ensures RolesIn(order, {}) == []
  {
    if |order| == 0 {
    } else {
      RolesInNothing(order[..|order| - 1]);
      NoRoleWithoutNames(order[|order| - 1]);
    }
  }

  lemma NoRoleWithoutNames(role: Role)
    ensures !HasRole(role, {})
  {
    match role
    case Mount => assert "TELESCOPE_MOTION_NS" in Signatures(role)[0] && "TELESCOPE_SLEW_RATE" in Signatures(role)[1];
    case Camera => assert "CCD_EXPOSURE" in Signatures(role)[0] && "CCD_FRAME" in Signatures(role)[1];
    case Focuser => assert "FOCUS_MOTION" in Signatures(role)[0] && "ABS_FOCUS_POSITION" in Signatures(role)[1];
    case FilterWheel => assert "FILTER_SLOT" in Signatures(role)[0];
    case Rotator => assert "ABS_ROTATOR_ANGLE" in Signatures(role)[0];
    case Dome => assert "DOME_MOTION" in Signatures(role)[0] && "DOME_SHUTTER" in Signatures(role)[1];
    case Weather => assert "WEATHER_STATUS" in Signatures(role)[0] && "WEATHER_UPDATE" in Signatures(role)[1];
    case Gps => assert "GPS_REFRESH" in Signatures(role)[0] && "SYSTEM_TIME_UPDATE" in Signatures(role)[1];
  }
}
