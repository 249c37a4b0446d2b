/**
 * The sidebar directions control (`CAC.Control.SidebarDirections`): the origin and
 * destination it holds, the error marks on their inputs, and `planTrip`, which turns the
 * form into a request to the trip-planning backend and records the choices as preferences.
 *
 * DOM reads become fields of `Form`; the backend call becomes the `Request` it would be made
 * with.
 */
module SidebarDirections {
  import opened Wrappers
  import opened Json
  import opened UserPreferences
  import ItineraryList

  const MetersPerMile: real := 1609.34

  /** Longest walk, in miles, allowed when biking. */
  const MaxWalkBike: real := 300.0

  // ---------------------------------------------------------------------------------------
  // Pure helpers
  // ---------------------------------------------------------------------------------------

  /** The two keys of the `directions` object. */
  predicate IsDirectionKey(key: string) {
    key == "origin" || key == "destination"
  }

  /** The preference name a direction key is saved under: origin as `from`, destination as `to`. */
  function PrefKey(key: string): (r: string)
    requires IsDirectionKey(key)
    ensures r == "from" || r == "to"
  {
    if key == "origin" then "from" else "to"
  }

  /** Origin and destination are saved under four different preference names. */
  lemma PrefNamesDisjoint()
    ensures var names := [PrefKey("origin"), PrefKey("origin") + "Text",
                          PrefKey("destination"), PrefKey("destination") + "Text"];
            forall i, j :: 0 <= i < j < 4 ==> names[i] != names[j]
  {
    assert ("from" + "Text")[0] == 'f' && ("to" + "Text")[1] == 'o';
    assert |"from" + "Text"| == 8 && |"to" + "Text"| == 6;
  }

  /** `s.substring(i, i + |pat|) === pat`. */
  predicate OccursAt(s: string, pat: string, i: int) {
    0 <= i && i + |pat| <= |s| && s[i..i + |pat|] == pat
  }

  /** `s.indexOf(pat)`: the first position `pat` occurs at, or -1. */
  function IndexOf(s: string, pat: string): (r: int)
    ensures r == -1 || OccursAt(s, pat, r)
    ensures r == -1 <==> forall i :: 0 <= i <= |s| ==> !OccursAt(s, pat, i)
    ensures forall i :: 0 <= i < r ==> !OccursAt(s, pat, i)
  {
    IndexFrom(s, pat, 0)
  }

  function IndexFrom(s: string, pat: string, from: nat): (r: int)
    requires from <= |s|
    decreases |s| - from
    ensures r == -1 || (from <= r && OccursAt(s, pat, r))
    ensures r == -1 ==> forall i :: from <= i <= |s| ==> !OccursAt(s, pat, i)
    ensures forall i :: from <= i < r ==> !OccursAt(s, pat, i)
  {
    if OccursAt(s, pat, from) then from
    else if from == |s| then -1
    else IndexFrom(s, pat, from + 1)
  }

  /** The bike branch is taken for every mode string naming BICYCLE, alone or with transit. */
  lemma BicycleModes()
    ensures IndexOf("BICYCLE", "BICYCLE") > -1
    ensures IndexOf("TRANSIT,BICYCLE", "BICYCLE") > -1
    ensures IndexOf("WALK", "BICYCLE") == -1
    ensures IndexOf("TRANSIT,WALK", "BICYCLE") == -1
  {
    assert OccursAt("BICYCLE", "BICYCLE", 0);
    assert OccursAt("TRANSIT,BICYCLE", "BICYCLE", 8);
    assert forall i :: 0 <= i <= 4 ==> !OccursAt("WALK", "BICYCLE", i);
    forall i | 0 <= i <= 12
      ensures !OccursAt("TRANSIT,WALK", "BICYCLE", i)
    {
      if i + 7 <= 12 {
        assert "TRANSIT,WALK"[i..i + 7][0] != 'B';
      }
    }
  }

  /**
   * `[location.feature.geometry.y, location.feature.geometry.x]`: a location's coordinates in
   * latitude, longitude order. Reading a property of a missing `feature` or `geometry` throws.
   */
  function CoordsOf(location: Value): (r: Result<Value, PropertyError>)
    ensures r.Ok? ==> r.value.Arr? && |r.value.items| == 2 && Truthy(r.value)
    ensures r.Err? <==> || Nullish(location)
                        || Nullish(Prop(location, "feature").value)
                        || Nullish(Prop(Prop(location, "feature").value, "geometry").value)
  {
    match Prop(location, "feature")
    case Err(e) => Err(e)
    case Ok(feature) =>
      match Prop(feature, "geometry")
      case Err(e) => Err(e)
      case Ok(geometry) =>
        match Prop(geometry, "y")
        case Err(e) => Err(e)
        case Ok(y) => Ok(Arr([y, Prop(geometry, "x").value]))
  }

  /** A geocoder result, as the typeahead hands it over. */
  function GeocodedLocation(name: string, x: real, y: real): Value {
    Obj([Member("name", Str(name)),
         Member("feature", Obj([Member("geometry", Obj([Member("x", Num(x)), Member("y", Num(y))]))]))])
  }

  /** The coordinates taken from a geocoder result swap its axes: `[y, x]`. */
  lemma CoordsOfGeocoded(name: string, x: real, y: real)
    ensures CoordsOf(GeocodedLocation(name, x, y)) == Ok(Arr([Num(y), Num(x)]))
    ensures Prop(GeocodedLocation(name, x, y), "name") == Ok(Str(name))
  {
    var geometry := Obj([Member("x", Num(x)), Member("y", Num(y))]);
    var feature := Obj([Member("geometry", geometry)]);
    assert Lookup(feature.members, "geometry") == geometry;
    assert Lookup(geometry.members, "y") == Num(y);
    assert Lookup(geometry.members, "x") == Num(x) by {
      assert geometry.members[..1] == [Member("x", Num(x))];
    }
    assert Lookup(GeocodedLocation(name, x, y).members, "feature") == feature;
    assert Lookup(GeocodedLocation(name, x, y).members, "name") == Str(name) by {
      assert GeocodedLocation(name, x, y).members[..1] == [Member("name", Str(name))];
    }
  }

  /**
   * The coordinates `setFromUserPreferences` loads from a saved location: only when
   * `v && v.feature && v.feature.geometry` holds.
   */
  function SavedCoords(v: Value): (r: Option<Value>)
    ensures r.Some? ==> CoordsOf(v) == Ok(r.value)
    ensures r.Some? <==> Truthy(v) && Truthy(Prop(v, "feature").value)
                         && Truthy(Prop(Prop(v, "feature").value, "geometry").value)
  {
    if !Truthy(v) then None
    else
      var feature := Prop(v, "feature").value;
      if !Truthy(feature) then None
      else
        var geometry := Prop(feature, "geometry").value;
        if !Truthy(geometry) then None
        else Some(Arr([Prop(geometry, "y").value, Prop(geometry, "x").value]))
  }

  // ---------------------------------------------------------------------------------------
  // planTrip
  // ---------------------------------------------------------------------------------------

  /** What `planTrip` reads from the page. */
  datatype Form = Form(
    tabShowing: bool,                      // the directions tab is the one showing
    pickerDate: Option<string>,            // the date/time picker's date, if any
    mode: string,                          // the selected travel modes, e.g. "TRANSIT,BICYCLE"
    departAt: string,                      // the depart-at select: "arriveBy" or another value
    bikeTriangle: string,                  // the selected bike triangle option
    triangleWeights: map<string, Value>,   // the weights the bike mode options give that option
    maxWalk: string,                       // the max-walk input, in miles
    wheelchair: bool)                      // the wheelchair box is checked

  /** When the trip is planned for: the picker's date, or the current time if it has none. */
  datatype Moment = At(date: string) | CurrentTime

  /** A walking cap in meters: an exact product, or the max-walk input times `MetersPerMile`. */
  datatype Distance = Meters(meters: real) | InputMiles(miles: string)

  /** The options passed to the backend as-is; a `None` field is absent. */
  datatype OtpOptions = OtpOptions(
    mode: string,
    arriveBy: bool,
    optimize: Option<string>,
    triangle: map<string, Value>,
    maxWalkDistance: Option<Distance>,
    wheelchair: Option<bool>)

  datatype Request = Request(origin: Value, destination: Value, date: Moment, options: OtpOptions)

  datatype PlanOutcome =
    | NotPlanned          // initial load, or the directions tab is not showing
    | MissingEndpoints    // origin or destination unset: the inputs are marked instead
    | Requested(request: Request)

  /** The options for the bike branch and the preferences it saves. */
  function BikeOptions(base: OtpOptions, form: Form): (r: (OtpOptions, seq<Setting>))
    ensures r.0.mode == base.mode && r.0.arriveBy == base.arriveBy && r.0.wheelchair == base.wheelchair
    ensures r.0.optimize == Some("TRIANGLE") && r.0.maxWalkDistance.Some?
    ensures Names(r.1) == {"bikeTriangle"}
  {
    assert Names([Setting("bikeTriangle", Str(form.bikeTriangle))]) == {"bikeTriangle"} by {
      assert [Setting("bikeTriangle", Str(form.bikeTriangle))][0].pref == "bikeTriangle";
    }
    (base.(optimize := Some("TRIANGLE"), triangle := form.triangleWeights,
           maxWalkDistance := Some(Meters(MaxWalkBike * MetersPerMile))),
     [Setting("bikeTriangle", Str(form.bikeTriangle))])
  }

  /** The options for the other modes and the preferences they save. */
  function WalkOptions(base: OtpOptions, form: Form): (r: (OtpOptions, seq<Setting>))
    ensures r.0.mode == base.mode && r.0.arriveBy == base.arriveBy
    ensures r.0.optimize == base.optimize && r.0.triangle == base.triangle
    ensures r.0.maxWalkDistance.Some? <==> form.maxWalk != "" || base.maxWalkDistance.Some?
    ensures Names(r.1) == {"maxWalk", "wheelchair"}
  {
    var walk := if form.maxWalk != "" then Some(InputMiles(form.maxWalk)) else base.maxWalkDistance;
    var saved := if form.maxWalk != "" then Str(form.maxWalk) else Undefined;
    var settings := [Setting("maxWalk", saved), Setting("wheelchair", Bool(form.wheelchair))];
    assert Names(settings) == {"maxWalk", "wheelchair"} by {
      assert settings[0].pref == "maxWalk" && settings[1].pref == "wheelchair";
    }
    (base.(maxWalkDistance := walk, wheelchair := Some(form.wheelchair)), settings)
  }

  /** The branch on `mode.indexOf('BICYCLE') > -1`. */
  function ModeOptions(base: OtpOptions, form: Form): (r: (OtpOptions, seq<Setting>))
    ensures r.0.mode == base.mode && r.0.arriveBy == base.arriveBy
    ensures base.optimize.None? ==> (r.0.optimize.Some? <==> IndexOf(form.mode, "BICYCLE") > -1)
  {
    if IndexOf(form.mode, "BICYCLE") > -1 then BikeOptions(base, form) else WalkOptions(base, form)
  }

  /** The preferences saved whenever a request is made, after the mode-specific ones. */
  function CommonSettings(mode: string, arriveBy: bool): (r: seq<Setting>)
    ensures |r| == 3 && Names(r) == {"method", "mode", "arriveBy"}
  {
    var r := [Setting("method", Str("directions")), Setting("mode", Str(mode)), Setting("arriveBy", Bool(arriveBy))];
    assert Names(r) == {"method", "mode", "arriveBy"} by {
      assert r[0].pref == "method" && r[1].pref == "mode" && r[2].pref == "arriveBy";
    }
    r
  }

  /** `planTrip` as a decision: its outcome and the preferences it saves, in order. */
  function Plan(initialLoad: bool, origin: Value, destination: Value, form: Form): (r: (PlanOutcome, seq<Setting>))
    ensures r.0.Requested? <==> !initialLoad && form.tabShowing && Truthy(origin) && Truthy(destination)
    ensures !r.0.Requested? ==> r.1 == []
  {
    if initialLoad || !form.tabShowing then (NotPlanned, [])
    else if !(Truthy(origin) && Truthy(destination)) then (MissingEndpoints, [])
    else
      var arriveBy := form.departAt == "arriveBy";
      var date := if form.pickerDate.Some? then At(form.pickerDate.value) else CurrentTime;
      var base := OtpOptions(form.mode, arriveBy, None, map[], None, None);
      var (options, saved) := ModeOptions(base, form);
      (Requested(Request(origin, destination, date, options)), saved + CommonSettings(form.mode, arriveBy))
  }

  /** During the initial load, or with another tab showing, `planTrip` does nothing. */
  lemma PlanInert(initialLoad: bool, origin: Value, destination: Value, form: Form)
    requires initialLoad || !form.tabShowing
    ensures Plan(initialLoad, origin, destination, form) == (NotPlanned, [])
  {
  }

  /** Without both endpoints no request is made and no preference is saved. */
  lemma PlanNeedsEndpoints(origin: Value, destination: Value, form: Form)
    requires form.tabShowing
    ensures Plan(false, origin, destination, form).0.Requested?
        <==> Truthy(origin) && Truthy(destination)
    ensures !(Truthy(origin) && Truthy(destination)) ==> Plan(false, origin, destination, form) == (MissingEndpoints, [])
  {
  }

  /**
   * Whenever a request is made it goes from the held origin to the held destination, with
   * the selected mode, `arriveBy` exactly when "arriveBy" is selected, and the picker's date
   * or the current time; the last three preferences saved are method, mode and arriveBy.
   */
  lemma PlanRequestBase(origin: Value, destination: Value, form: Form)
    requires form.tabShowing && Truthy(origin) && Truthy(destination)
    ensures var (outcome, saved) := Plan(false, origin, destination, form);
            && outcome.Requested?
            && outcome.request.origin == origin && outcome.request.destination == destination
            && outcome.request.options.mode == form.mode
            && (outcome.request.options.arriveBy <==> form.departAt == "arriveBy")
            && outcome.request.date == (if form.pickerDate.Some? then At(form.pickerDate.value) else CurrentTime)
            && |saved| >= 3
            && saved[|saved| - 3..] == CommonSettings(form.mode, form.departAt == "arriveBy")
  {
  }

  /**
   * Bike modes: the triangle weighting is requested, the walking cap is 300 miles in meters,
   * no wheelchair flag is sent, and the chosen triangle is saved.
   */
  lemma PlanBicycle(origin: Value, destination: Value, form: Form)
    requires form.tabShowing && Truthy(origin) && Truthy(destination)
    requires IndexOf(form.mode, "BICYCLE") > -1
    ensures var (outcome, saved) := Plan(false, origin, destination, form);
            && outcome.Requested?
            && outcome.request.options.optimize == Some("TRIANGLE")
            && outcome.request.options.triangle == form.triangleWeights
            && outcome.request.options.maxWalkDistance == Some(Meters(482802.0))
            && outcome.request.options.wheelchair.None?
            && saved == [Setting("bikeTriangle", Str(form.bikeTriangle))]
                        + CommonSettings(form.mode, form.departAt == "arriveBy")
  {
  }

  /**
   * Other modes: the walking cap is sent and saved exactly when the input is non-empty (an
   * empty input clears the saved value), and the wheelchair flag is always sent and saved.
   */
  lemma PlanWalking(origin: Value, destination: Value, form: Form)
    requires form.tabShowing && Truthy(origin) && Truthy(destination)
    requires IndexOf(form.mode, "BICYCLE") == -1
    ensures var (outcome, saved) := Plan(false, origin, destination, form);
            && outcome.Requested?
            && outcome.request.options.optimize.None?
            && (outcome.request.options.maxWalkDistance.Some? <==> form.maxWalk != "")
            && (form.maxWalk != "" ==> outcome.request.options.maxWalkDistance == Some(InputMiles(form.maxWalk)))
            && outcome.request.options.wheelchair == Some(form.wheelchair)
            && saved[0] == Setting("maxWalk", if form.maxWalk != "" then Str(form.maxWalk) else Undefined)
            && saved[1] == Setting("wheelchair", Bool(form.wheelchair))
  {
  }

  /**
   * A saved walking cap comes back as the input's text, not a number; a cleared one comes
   * back as the default of 2 miles.
   */
  lemma PlanWalkingSavesMaxWalk(o: Options, origin: Value, destination: Value, form: Form)
    requires WellFormed(o)
    requires form.tabShowing && Truthy(origin) && Truthy(destination)
    requires IndexOf(form.mode, "BICYCLE") == -1
    ensures var after := SetAll(o, Plan(false, origin, destination, form).1);
            && WellFormed(after)
            && ReadPreference(after, "maxWalk", Undefined).0
               == (if form.maxWalk != "" then Str(form.maxWalk) else Num(2.0))
  {
    var arriveBy := form.departAt == "arriveBy";
    var base := OtpOptions(form.mode, arriveBy, None, map[], None, None);
    var walk := WalkOptions(base, form).1;
    var rest := [walk[1]] + CommonSettings(form.mode, arriveBy);
    assert Plan(false, origin, destination, form).1 == [walk[0]] + rest;
    assert "maxWalk" !in Names(rest) by {
      assert forall i :: 0 <= i < |rest| ==> rest[i].pref != "maxWalk";
    }
    LastWriteSurvives(o, walk[0], rest);
    var o1 := Put(o, "maxWalk", walk[0].val);
    if form.maxWalk != "" {
      ReadAfterSet(o, "maxWalk", Str(form.maxWalk), Undefined);
    } else {
      UnsetReadsDefault(o1, "maxWalk", Undefined);
    }
    ReadSameEntry(o1, SetAll(o, [walk[0]] + rest), "maxWalk", Undefined);
  }

  /** A call whose name the later calls do not repeat decides that entry. */
  lemma LastWriteSurvives(o: Options, first: Setting, rest: seq<Setting>)
    requires WellFormed(o) && first.pref !in Names(rest)
    ensures WellFormed(SetAll(o, [first] + rest))
    ensures Get(SetAll(o, [first] + rest), first.pref) == Get(Put(o, first.pref, first.val), first.pref)
  {
    SetAllAppend(o, [first], rest);
    SetAllShort(o, first, first);
    SetAllFrame(Put(o, first.pref, first.val), rest);
  }

  /** Two tables that agree on `p` read `p` as the same value. */
  lemma ReadSameEntry(o1: Options, o2: Options, p: string, setDefault: Value)
    requires WellFormed(o1) && WellFormed(o2) && Get(o1, p) == Get(o2, p)
    ensures ReadPreference(o1, p, setDefault).0 == ReadPreference(o2, p, setDefault).0
  {
  }

  /** Calls made in two runs leave the table the second run leaves after the first. */
  lemma {:induction false} SetAllAppend(o: Options, ws1: seq<Setting>, ws2: seq<Setting>)
    ensures SetAll(o, ws1 + ws2) == SetAll(SetAll(o, ws1), ws2)
    decreases |ws2|
  {
    if ws2 == [] {
      assert ws1 + ws2 == ws1;
    } else {
      var init, last := ws2[..|ws2| - 1], ws2[|ws2| - 1];
      assert ws2 == init + [last];
      assert ws1 + ws2 == (ws1 + init) + [last];
      SetAllSnoc(o, ws1 + init, last);
      SetAllSnoc(SetAll(o, ws1), init, last);
      SetAllAppend(o, ws1, init);
    }
  }

  /**
   * Selecting geocoded places for both inputs leaves `directions` holding their `[y, x]`
   * coordinates, and the next `planTrip` with the tab showing requests a trip between them.
   */
  lemma SelectedPlacesArePlanned(from: Value, to: Value, form: Form)
    requires CoordsOf(from).Ok? && CoordsOf(to).Ok? && form.tabShowing
    ensures var (outcome, _) := Plan(false, CoordsOf(from).value, CoordsOf(to).value, form);
            outcome.Requested? && outcome.request.origin == CoordsOf(from).value
            && outcome.request.destination == CoordsOf(to).value
  {
  }

  // ---------------------------------------------------------------------------------------
  // setFromUserPreferences
  // ---------------------------------------------------------------------------------------

  /** The preferences `setFromUserPreferences` reads, in order. */
  const LoadNames: seq<string> :=
    ["method", "mode"] + ["arriveBy", "bikeTriangle"] + ["from", "to"] + ["fromText", "toText"] + ["maxWalk", "wheelchair"]

  /** `getPreference` on each name in turn, defaults wanted: the values and the final table. */
  function ReadAll(o: Options, names: seq<string>): (r: (seq<Value>, Options))
    requires WellFormed(o)
    ensures |r.0| == |names| && WellFormed(r.1)
  {
    if names == [] then ([], o)
    else
      var (vs, o1) := ReadAll(o, names[..|names| - 1]);
      var (v, o2) := ReadPreference(o1, names[|names| - 1], Undefined);
      (vs + [v], o2)
  }

  /** Reads leave every entry whose name is not read as it was. */
  lemma {:induction false} ReadAllFrame(o: Options, names: seq<string>)
    requires WellFormed(o)
    ensures forall q :: q !in names ==> Get(ReadAll(o, names).1, q) == Get(o, q)
    decreases |names|
  {
    if names != [] {
      var init := names[..|names| - 1];
      ReadAllFrame(o, init);
      assert forall q :: q in init ==> q in names;
    }
  }

  /** What loading from the preferences decides beyond the state it sets. */
  datatype Loaded = Loaded(switchTab: bool, planTrip: bool)

  /**
   * On a page whose table is empty, nothing is loaded into `directions`: `from` and `to` have
   * no defaults, and the default method, "explore", keeps the directions tab closed.
   */
  lemma FreshLoad()
    ensures var (vals, _) := ReadAll(map[], LoadNames);
            && vals[0] == Str("explore")
            && vals[4] == Undefined && vals[5] == Undefined
            && SavedCoords(vals[4]).None? && SavedCoords(vals[5]).None?
  {
    var o: Options := map[];
    LoadNamesFirstReads();
    ReadAllFirstRead(o, LoadNames, 0);
    ReadAllFirstRead(o, LoadNames, 4);
    ReadAllFirstRead(o, LoadNames, 5);
    UnsetReadsDefault(o, "method", Undefined);
    UnsetReadsDefault(o, "from", Undefined);
    UnsetReadsDefault(o, "to", Undefined);
  }

  /** "method", "from" and "to" are each read once, before any repeat of their name. */
  lemma LoadNamesFirstReads()
    ensures LoadNames[0] == "method" && LoadNames[4] == "from" && LoadNames[5] == "to"
    ensures "method" !in LoadNames[..0] && "from" !in LoadNames[..4] && "to" !in LoadNames[..5]
  {
    assert LoadNames[..5] == ["method", "mode", "arriveBy", "bikeTriangle", "from"];
    assert LoadNames[..4] == LoadNames[..5][..4];
  }

  /** A name read for the first time reads the value the original table gives it. */
  lemma ReadAllFirstRead(o: Options, names: seq<string>, k: nat)
    requires WellFormed(o) && k < |names| && names[k] !in names[..k]
    ensures ReadAll(o, names).0[k] == ReadPreference(o, names[k], Undefined).0
  {
    ReadAllPrefix(o, names, k + 1);
    assert names[..k + 1][..k] == names[..k];
    var o1 := ReadAll(o, names[..k]).1;
    ReadAllFrame(o, names[..k]);
    ReadSameEntry(o1, o, names[k], Undefined);
  }

  /** Reading two runs of names reads the second run from the table the first leaves. */
  lemma {:induction false} ReadAllAppend(o: Options, names1: seq<string>, names2: seq<string>)
    requires WellFormed(o)
    ensures var (vs1, o1) := ReadAll(o, names1);
            var (vs2, o2) := ReadAll(o1, names2);
            ReadAll(o, names1 + names2) == (vs1 + vs2, o2)
    decreases |names2|
  {
    if names2 == [] {
      assert names1 + names2 == names1;
      var (vs1, o1) := ReadAll(o, names1);
      assert ReadAll(o1, names2) == ([], o1);
      assert vs1 + [] == vs1;
    } else {
      var init, last := names2[..|names2| - 1], names2[|names2| - 1];
      assert (names1 + names2)[..|names1 + names2| - 1] == names1 + init;
      assert (names1 + names2)[|names1 + names2| - 1] == last;
      ReadAllAppend(o, names1, init);
      var (vs1, o1) := ReadAll(o, names1);
      var (vsInit, oInit) := ReadAll(o1, init);
      var (v, o2) := ReadPreference(oInit, last, Undefined);
      assert ReadAll(o1, names2) == (vsInit + [v], o2);
      assert ReadAll(o, names1 + names2) == ((vs1 + vsInit) + [v], o2);
      assert (vs1 + vsInit) + [v] == vs1 + (vsInit + [v]);
    }
  }

  /** Reading more names keeps the values read for the earlier ones. */
  lemma {:induction false} ReadAllPrefix(o: Options, names: seq<string>, k: nat)
    requires WellFormed(o) && k <= |names|
    ensures ReadAll(o, names[..k]).0 == ReadAll(o, names).0[..k]
    decreases |names|
  {
    if k < |names| {
      var init := names[..|names| - 1];
      assert init[..k] == names[..k];
      ReadAllPrefix(o, init, k);
    } else {
      assert names[..k] == names;
    }
  }

  // ---------------------------------------------------------------------------------------
  // The control
  // ---------------------------------------------------------------------------------------

  class Control {
    /** The preference store this control saves to. */
    const prefs: Store
    /** The itinerary list it shows and hides. */
    const itineraryList: ItineraryList.Control

    /** `directions.origin` and `directions.destination`: `null` or `[lat, lng]`. */
    var origin: Value
    var destination: Value
    /** Whether the origin and destination inputs carry the error class. */
    var originError: bool
    var destinationError: bool
    var initialLoad: bool

    ghost predicate Valid()
      reads this, prefs
    {
      prefs.Valid()
    }

    constructor (prefs: Store, itineraryList: ItineraryList.Control)
      requires prefs.Valid()
      ensures Valid() && this.prefs == prefs && this.itineraryList == itineraryList
      ensures origin == Null && destination == Null && initialLoad
      ensures !originError && !destinationError
    {
      this.prefs := prefs;
      this.itineraryList := itineraryList;
      origin, destination := Null, Null;
      originError, destinationError := false, false;
      initialLoad := true;
    }

    /** `directions[key]`: `undefined` for a key other than the two. */
    function Entry(key: string): (r: Value)
      reads this
      ensures !IsDirectionKey(key) ==> r.Undefined?
    {
      if key == "origin" then origin else if key == "destination" then destination else Undefined
    }

    /**
     * `setDirectionsError(key)`: marks the origin input for "origin" and the destination input
     * for any other key, exactly when `directions[key]` is falsy.
     */
    method SetDirectionsError(key: string)
      modifies this
      ensures origin == old(origin) && destination == old(destination) && initialLoad == old(initialLoad)
      ensures key == "origin" ==> originError == !Truthy(origin) && destinationError == old(destinationError)
      ensures key != "origin" ==> destinationError == !Truthy(Entry(key)) && originError == old(originError)
    {
      if key == "origin" {
        originError := !Truthy(origin);
      } else {
        destinationError := !Truthy(Entry(key));
      }
    }

    /** `clearItineraries()`: the itinerary list is hidden. */
    method ClearItineraries()
      modifies itineraryList
      ensures itineraryList.hidden && itineraryList.itineraries == old(itineraryList.itineraries)
    {
      itineraryList.Hide();
    }

    /**
     * `setDirections(key, value)`: hides the results, then sets `directions[key]` and its
     * input's mark for one of the two keys; any other key leaves `directions` as it was.
     */
    method SetDirections(key: string, value: Value)
      modifies this, itineraryList
      ensures itineraryList.hidden && itineraryList.itineraries == old(itineraryList.itineraries)
      ensures initialLoad == old(initialLoad)
      ensures key == "origin" ==> origin == value && destination == old(destination)
                                  && originError == !Truthy(value) && destinationError == old(destinationError)
      ensures key == "destination" ==> destination == value && origin == old(origin)
                                       && destinationError == !Truthy(value) && originError == old(originError)
      ensures !IsDirectionKey(key) ==> origin == old(origin) && destination == old(destination)
                                       && originError == old(originError) && destinationError == old(destinationError)
    {
      ClearItineraries();
      if key == "origin" || key == "destination" {
        if key == "origin" {
          origin := value;
        } else {
          destination := value;
        }
        SetDirectionsError(key);
      }
    }

    /**
     * `planTrip()`, the call its throttle lets through: the outcome and the preferences saved
     * are `Plan`'s; missing endpoints mark both inputs; a request hides the itinerary list
     * while it loads.
     */
    method PlanTrip(form: Form) returns (outcome: PlanOutcome)
      requires Valid()
      modifies this, prefs, itineraryList
      ensures Valid()
      ensures outcome == Plan(old(initialLoad), old(origin), old(destination), form).0
      ensures prefs.options == SetAll(old(prefs.options), Plan(old(initialLoad), old(origin), old(destination), form).1)
      ensures origin == old(origin) && destination == old(destination) && initialLoad == old(initialLoad)
      ensures outcome.MissingEndpoints? ==> originError == !Truthy(origin) && destinationError == !Truthy(destination)
      ensures !outcome.MissingEndpoints? ==> originError == old(originError) && destinationError == old(destinationError)
      ensures itineraryList.hidden == (outcome.Requested? || old(itineraryList.hidden))
      ensures itineraryList.itineraries == old(itineraryList.itineraries)
    {
      if initialLoad || !form.tabShowing {
        return NotPlanned;
      }
      if !(Truthy(origin) && Truthy(destination)) {
        SetDirectionsError("origin");
        SetDirectionsError("destination");
        return MissingEndpoints;
      }

      itineraryList.Hide();

      var date := CurrentTime;
      if form.pickerDate.Some? {
        date := At(form.pickerDate.value);
      }

      var arriveBy := false;
      if form.departAt == "arriveBy" {
        arriveBy := true;
      }

      var otpOptions := OtpOptions(form.mode, arriveBy, None, map[], None, None);
      ghost var done: seq<Setting>;
      if IndexOf(form.mode, "BICYCLE") > -1 {
        otpOptions, done := SaveBikeOptions(otpOptions, form);
      } else {
        otpOptions, done := SaveWalkOptions(otpOptions, form);
      }
      SaveCommon(form.mode, arriveBy);
      SetAllAppend(old(prefs.options), done, CommonSettings(form.mode, arriveBy));
      outcome := Requested(Request(origin, destination, date, otpOptions));
    }

    /** The bike branch of `planTrip`: its options, and the triangle saved. */
    method SaveBikeOptions(base: OtpOptions, form: Form) returns (otpOptions: OtpOptions, ghost done: seq<Setting>)
      requires Valid()
      modifies prefs
      ensures Valid() && (otpOptions, done) == BikeOptions(base, form)
      ensures prefs.options == SetAll(old(prefs.options), done)
    {
      done := [Setting("bikeTriangle", Str(form.bikeTriangle))];
      SetAllShort(prefs.options, done[0], done[0]);
      otpOptions := base.(optimize := Some("TRIANGLE"), triangle := form.triangleWeights);
      prefs.SetPreference("bikeTriangle", Str(form.bikeTriangle));
      otpOptions := otpOptions.(maxWalkDistance := Some(Meters(MaxWalkBike * MetersPerMile)));
    }

    /** The other branch of `planTrip`: its options, and the walking cap and wheelchair flag saved. */
    method SaveWalkOptions(base: OtpOptions, form: Form) returns (otpOptions: OtpOptions, ghost done: seq<Setting>)
      requires Valid()
      modifies prefs
      ensures Valid() && (otpOptions, done) == WalkOptions(base, form)
      ensures prefs.options == SetAll(old(prefs.options), done)
    {
      done := WalkOptions(base, form).1;
      SetAllShort(prefs.options, done[0], done[1]);
      otpOptions := base;
      if form.maxWalk != "" {
        prefs.SetPreference("maxWalk", Str(form.maxWalk));
        otpOptions := otpOptions.(maxWalkDistance := Some(InputMiles(form.maxWalk)));
      } else {
        prefs.SetPreference("maxWalk", Undefined);
      }
      prefs.SetPreference("wheelchair", Bool(form.wheelchair));
      otpOptions := otpOptions.(wheelchair := Some(form.wheelchair));
    }

    /** The three preferences `planTrip` saves for every request. */
    method SaveCommon(mode: string, arriveBy: bool)
      requires Valid()
      modifies prefs
      ensures Valid() && prefs.options == SetAll(old(prefs.options), CommonSettings(mode, arriveBy))
    {
      ghost var ws := CommonSettings(mode, arriveBy);
      SetAllShort(prefs.options, ws[0], ws[1]);
      SetAllSnoc(prefs.options, ws[..2], ws[2]);
      assert ws[..2] == [ws[0], ws[1]] && ws[..2] + [ws[2]] == ws;
      prefs.SetPreference("method", Str("directions"));
      prefs.SetPreference("mode", Str(mode));
      prefs.SetPreference("arriveBy", Bool(arriveBy));
    }

    /** Two `setPreference` calls in a row: a location and its text. */
    method SavePair(pref: string, location: Value, text: Value)
      requires Valid()
      modifies prefs
      ensures Valid() && prefs.options == SetAll(old(prefs.options), [Setting(pref, location), Setting(pref + "Text", text)])
    {
      SetAllShort(prefs.options, Setting(pref, location), Setting(pref + "Text", text));
      prefs.SetPreference(pref, location);
      prefs.SetPreference(pref + "Text", text);
    }

    /**
     * `onTypeaheadCleared(key)`: for one of the two keys, hides the results, sets
     * `directions[key]` to `null` and clears the saved location and its text.
     */
    method OnTypeaheadCleared(key: string)
      requires Valid()
      modifies this, prefs, itineraryList
      ensures Valid()
      ensures originError == old(originError) && destinationError == old(destinationError)
      ensures initialLoad == old(initialLoad)
      ensures itineraryList.itineraries == old(itineraryList.itineraries)
      ensures IsDirectionKey(key) ==> && Entry(key) == Null
                                      && (key == "origin" ==> destination == old(destination))
                                      && (key == "destination" ==> origin == old(origin))
                                      && itineraryList.hidden
                                      && prefs.options == SetAll(old(prefs.options), ClearSettings(PrefKey(key)))
      ensures !IsDirectionKey(key) ==> && origin == old(origin) && destination == old(destination)
                                       && prefs.options == old(prefs.options)
                                       && itineraryList.hidden == old(itineraryList.hidden)
    {
      if key == "origin" || key == "destination" {
        ClearItineraries();
        if key == "origin" {
          origin := Null;
        } else {
          destination := Null;
        }
        var prefKey := if key == "origin" then "from" else "to";
        SavePair(prefKey, Undefined, Undefined);
      }
    }

    /**
     * `onTypeaheadSelected(key, location)`. A falsy location clears the saved location (not
     * its text) and sets `directions[key]` to `null`. Otherwise the location and its name are
     * saved, `directions[key]` becomes its `[y, x]` coordinates, and `planTrip` is called;
     * reading the coordinates of a location without `feature.geometry` throws after the saves.
     */
    method OnTypeaheadSelected(key: string, location: Value) returns (plan: bool, thrown: bool)
      requires Valid()
      modifies this, prefs, itineraryList
      ensures Valid()
      ensures initialLoad == old(initialLoad)
      ensures itineraryList.itineraries == old(itineraryList.itineraries)
      ensures !IsDirectionKey(key) ==> && !plan && !thrown
                                       && origin == old(origin) && destination == old(destination)
                                       && prefs.options == old(prefs.options)
      ensures IsDirectionKey(key) && !Truthy(location) ==>
                && !plan && !thrown && Entry(key) == Null && itineraryList.hidden
                && prefs.options == SetAll(old(prefs.options), [Setting(PrefKey(key), Undefined)])
      ensures IsDirectionKey(key) && Truthy(location) ==>
                && prefs.options == SetAll(old(prefs.options), [Setting(PrefKey(key), location),
                                                                Setting(PrefKey(key) + "Text", Prop(location, "name").value)])
                && (thrown <==> CoordsOf(location).Err?) && plan == !thrown
                && (!thrown ==> Entry(key) == CoordsOf(location).value && itineraryList.hidden)
                && (thrown ==> origin == old(origin) && destination == old(destination))
      ensures key == "origin" ==> destination == old(destination)
      ensures key == "destination" ==> origin == old(origin)
      ensures key == "origin" && !thrown ==> originError == !Truthy(origin) && destinationError == old(destinationError)
      ensures key == "destination" && !thrown ==> destinationError == !Truthy(destination) && originError == old(originError)
      ensures !IsDirectionKey(key) || thrown ==> && originError == old(originError) && destinationError == old(destinationError)
                                                 && itineraryList.hidden == old(itineraryList.hidden)
    {
      plan, thrown := false, false;
      if key == "origin" || key == "destination" {
        var prefKey := if key == "origin" then "from" else "to";
        ghost var o0 := prefs.options;

        if !Truthy(location) {
          SetAllShort(o0, Setting(prefKey, Undefined), Setting(prefKey, Undefined));
          prefs.SetPreference(prefKey, Undefined);
          SetDirections(key, Null);
          return;
        }

        SavePair(prefKey, location, Prop(location, "name").value);
        var coords := CoordsOf(location);
        if coords.Err? {
          thrown := true;
          return;
        }
        SetDirections(key, coords.value);
        plan := true;
      }
    }

    /**
     * `moveOriginDestination(key, position)`: rejects a key other than the two before
     * changing anything; otherwise hides the itinerary list while the address is looked up.
     */
    method MoveOriginDestination(key: string) returns (accepted: bool)
      modifies itineraryList
      ensures accepted <==> IsDirectionKey(key)
      ensures itineraryList.hidden == (accepted || old(itineraryList.hidden))
      ensures itineraryList.itineraries == old(itineraryList.itineraries)
    {
      if !(key == "origin" || key == "destination") {
        return false;
      }
      itineraryList.Hide();
      return true;
    }

    /**
     * The reverse-geocoding callback of `moveOriginDestination`. `location` is what the
     * address converter makes of `data`. With an address, the location and its full address
     * are saved, `directions[key]` becomes `[lat, lng]` and `planTrip` is called; without one,
     * both saved entries are cleared, `directions[key]` becomes `null` and the list is shown
     * with an error message.
     */
    method OnReverseGeocoded(key: string, lat: Value, lng: Value, data: Value, location: Value)
      returns (plan: bool)
      requires Valid() && IsDirectionKey(key)
      modifies this, prefs, itineraryList
      ensures Valid()
      ensures initialLoad == old(initialLoad)
      ensures itineraryList.itineraries == old(itineraryList.itineraries)
      ensures key == "origin" ==> destination == old(destination)
      ensures key == "destination" ==> origin == old(origin)
      ensures key == "origin" ==> originError == !Truthy(origin) && destinationError == old(destinationError)
      ensures key == "destination" ==> destinationError == !Truthy(destination) && originError == old(originError)
      ensures plan <==> Truthy(data) && Truthy(Prop(data, "address").value)
      ensures plan ==> && Entry(key) == Arr([lat, lng]) && itineraryList.hidden
                       && prefs.options == SetAll(old(prefs.options),
                            [Setting(PrefKey(key), location),
                             Setting(PrefKey(key) + "Text", Prop(Prop(data, "address").value, "Match_addr").value)])
      ensures !plan ==> && Entry(key) == Null && !itineraryList.hidden
                        && prefs.options == SetAll(old(prefs.options), ClearSettings(PrefKey(key)))
    {
      var prefKey := if key == "origin" then "from" else "to";
      if Truthy(data) && Truthy(Prop(data, "address").value) {
        var fullAddress := Prop(Prop(data, "address").value, "Match_addr").value;
        SavePair(prefKey, location, fullAddress);
        SetDirections(key, Arr([lat, lng]));
        plan := true;
      } else {
        SavePair(prefKey, Undefined, Undefined);
        SetDirections(key, Null);
        itineraryList.Show();
        plan := false;
      }
    }

    /** `getPreference(name)`, with the names read so far kept as a ghost record. */
    method Load(name: string, ghost o0: Options, ghost names: seq<string>, vals: seq<Value>)
      returns (val: Value, ghost names': seq<string>, vals': seq<Value>)
      requires Valid() && WellFormed(o0) && (vals, prefs.options) == ReadAll(o0, names)
      modifies prefs
      ensures Valid() && names' == names + [name] && vals' == vals + [val]
      ensures (vals', prefs.options) == ReadAll(o0, names')
    {
      val := prefs.GetPreference(name, Undefined);
      names' := names + [name];
      vals' := vals + [val];
      assert names'[..|names'| - 1] == names;
    }

    /** Two `getPreference` calls in a row. */
    method ReadPair(first: string, second: string) returns (vals: seq<Value>)
      requires Valid()
      modifies prefs
      ensures Valid() && (vals, prefs.options) == ReadAll(old(prefs.options), [first, second])
    {
      ghost var names: seq<string>;
      var val1, val2: Value;
      val1, names, vals := Load(first, prefs.options, [], []);
      val2, names, vals := Load(second, old(prefs.options), names, vals);
      assert names == [first, second];
    }

    /** The ten `getPreference` calls `setFromUserPreferences` opens with, in order. */
    method ReadPreferences() returns (vals: seq<Value>)
      requires Valid()
      modifies prefs
      ensures Valid() && (vals, prefs.options) == ReadAll(old(prefs.options), LoadNames)
    {
      ghost var o0 := prefs.options;
      var methodMode := ReadPair("method", "mode");
      var arriveByTriangle := ReadPair("arriveBy", "bikeTriangle");
      ReadAllAppend(o0, ["method", "mode"], ["arriveBy", "bikeTriangle"]);
      ghost var read := ["method", "mode"] + ["arriveBy", "bikeTriangle"];
      var places := ReadPair("from", "to");
      ReadAllAppend(o0, read, ["from", "to"]);
      read := read + ["from", "to"];
      var texts := ReadPair("fromText", "toText");
      ReadAllAppend(o0, read, ["fromText", "toText"]);
      read := read + ["fromText", "toText"];
      var walk := ReadPair("maxWalk", "wheelchair");
      ReadAllAppend(o0, read, ["maxWalk", "wheelchair"]);
      vals := methodMode + arriveByTriangle + places + texts + walk;
    }

    /**
     * `setFromUserPreferences()`: reads the saved preferences (each read may write its
     * default back), loads the saved `to` and `from` coordinates when they have a geometry,
     * and, when the saved method is "directions", switches to the directions tab and either
     * plans a trip (both saved locations truthy) or clears the directions. The initial load
     * ends afterwards.
     */
    method SetFromUserPreferences() returns (loaded: Loaded)
      requires Valid()
      modifies this, prefs, itineraryList
      ensures Valid()
      ensures var (vals, o) := ReadAll(old(prefs.options), LoadNames);
              && prefs.options == o
              && destination == (if SavedCoords(vals[5]).Some? then SavedCoords(vals[5]).value else old(destination))
              && origin == (if SavedCoords(vals[4]).Some? then SavedCoords(vals[4]).value else old(origin))
              && loaded.switchTab == (vals[0] == Str("directions"))
              && loaded.planTrip == (loaded.switchTab && Truthy(vals[4]) && Truthy(vals[5]))
              && itineraryList.hidden == ((loaded.switchTab && !loaded.planTrip) || old(itineraryList.hidden))
      ensures !initialLoad
      ensures originError == old(originError) && destinationError == old(destinationError)
      ensures itineraryList.itineraries == old(itineraryList.itineraries)
    {
      var vals := ReadPreferences();
      var savedMethod, from, to := vals[0], vals[4], vals[5];

      var toCoords := SavedCoords(to);
      if toCoords.Some? {
        destination := toCoords.value;
      }
      var fromCoords := SavedCoords(from);
      if fromCoords.Some? {
        origin := fromCoords.value;
      }

      loaded := Loaded(false, false);
      if savedMethod == Str("directions") {
        loaded := loaded.(switchTab := true);
        if Truthy(from) && Truthy(to) {
          loaded := loaded.(planTrip := true);
        } else {
          ClearItineraries();
        }
      }

      initialLoad := false;
    }
  }
}
