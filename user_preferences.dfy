/**
 * The user preference store (`CAC.User.Preferences`): a page-lifetime table from preference
 * names to JSON texts. Values are serialised on write and parsed on read; a read may
 * substitute a static default and write it back.
 */
module UserPreferences {
  import opened Wrappers
  import opened Json

  /** The `options` dictionary. `None` is an entry that was assigned `undefined`. */
  type Options = map<string, Option<Text>>

  /** `storage.get(p)`: `undefined` (None) for a missing entry and for one holding `undefined`. */
  function Get(o: Options, p: string): Option<Text> {
    if p in o then o[p] else None
  }

  /** Every stored text is one `JSON.parse` accepts; `setPreference` only ever stores such texts. */
  predicate WellFormed(o: Options) {
    forall p :: p in o && o[p].Some? ==> Parse(o[p].value).Some?
  }

  /** `setPreference(p, v)`, that is `storage.set(p, JSON.stringify(v))`, on the table. */
  function Put(o: Options, p: string, v: Value): (r: Options)
    ensures Get(r, p) == Stringify(v)
    ensures forall q :: q != p ==> Get(r, q) == Get(o, q)
    ensures WellFormed(o) ==> WellFormed(r)
  {
    assert !v.Undefined? ==> Parse(Stringify(v).value).Some? by {
      if !v.Undefined? { ParseStringify(v); }
    }
    o[p := Stringify(v)]
  }

  /** One `setPreference` call. */
  datatype Setting = Setting(pref: string, val: Value)

  /** A second write to the same name replaces the first. */
  lemma PutTwice(o: Options, p: string, v: Value, w: Value)
    ensures Put(Put(o, p, v), p, w) == Put(o, p, w)
  {
  }

  /** The names a sequence of `setPreference` calls writes. */
  function Names(ws: seq<Setting>): set<string> {
    set i | 0 <= i < |ws| :: ws[i].pref
  }

  /** The table after the calls `ws`, made in order: the last call decides its entry. */
  function SetAll(o: Options, ws: seq<Setting>): (r: Options)
    ensures ws != [] ==> Get(r, ws[|ws| - 1].pref) == Stringify(ws[|ws| - 1].val)
    ensures ws == [] ==> r == o
  {
    if ws == [] then o
    else Put(SetAll(o, ws[..|ws| - 1]), ws[|ws| - 1].pref, ws[|ws| - 1].val)
  }

  /** The calls leave every entry they do not name as it was, and keep the table well formed. */
  lemma {:induction false} SetAllFrame(o: Options, ws: seq<Setting>)
    ensures forall q :: q !in Names(ws) ==> Get(SetAll(o, ws), q) == Get(o, q)
    ensures WellFormed(o) ==> WellFormed(SetAll(o, ws))
    decreases |ws|
  {
    if ws != [] {
      var init := ws[..|ws| - 1];
      assert Names(ws) == Names(init) + {ws[|ws| - 1].pref};
      SetAllFrame(o, init);
    }
  }

  /** One more call after `ws` updates the table `ws` left. */
  lemma SetAllSnoc(o: Options, ws: seq<Setting>, w: Setting)
    ensures SetAll(o, ws + [w]) == Put(SetAll(o, ws), w.pref, w.val)
  {
    assert (ws + [w])[..|ws|] == ws;
  }

  /** The table after one or two calls. */
  lemma SetAllShort(o: Options, a: Setting, b: Setting)
    ensures SetAll(o, [a]) == Put(o, a.pref, a.val)
    ensures SetAll(o, [a, b]) == Put(Put(o, a.pref, a.val), b.pref, b.val)
  {
    SetAllSnoc(o, [], a);
    SetAllSnoc(o, [a], b);
    assert [] + [a] == [a] && [a] + [b] == [a, b];
  }

  // ---------------------------------------------------------------------------------------
  // The defaults table
  // ---------------------------------------------------------------------------------------

  /** The default origin: Philadelphia City Hall, as a geocoder result. */
  const CityHallName := "City Hall, Philadelphia, Pennsylvania, USA"

  const CityHallExtent: Value := Obj([
    Member("xmax", Num(-75.158978)),
    Member("xmin", Num(-75.168978)),
    Member("ymax", Num(39.958449)),
    Member("ymin", Num(39.948449))])

  const CityHallAttributes: Value := Obj([
    Member("City", Str("Philadelphia")),
    Member("Postal", Str("")),
    Member("Region", Str("Pennsylvania")),
    Member("StAddr", Str("1450 John F Kennedy Blvd"))])

  const CityHallGeometry: Value := Obj([
    Member("x", Num(-75.16397666699964)),
    Member("y", Num(39.95344911900048))])

  const CityHall: Value := Obj([
    Member("name", Str(CityHallName)),
    Member("extent", CityHallExtent),
    Member("feature", Obj([Member("attributes", CityHallAttributes), Member("geometry", CityHallGeometry)]))])

  /** The names whose default is not `undefined`. */
  const DefaultNames: set<string> := {"arriveBy", "bikeTriangle", "exploreTime", "maxWalk", "method", "mode",
                                      "origin", "originText", "destinationText", "waypoints", "wheelchair"}

  /**
   * `defaults[p]`: `undefined` for a name the table does not list (and for "destination");
   * every listed default survives a JSON round trip unchanged.
   */
  function Default(p: string): (r: Value)
    ensures !r.Undefined? ==> Clean(r)
  {
    CityHallIsClean();
    if p == "arriveBy" then Bool(false)              // depart at the set time
    else if p == "bikeTriangle" then Str("neutral")
    else if p == "exploreTime" then Num(20.0)
    else if p == "maxWalk" then Num(2.0)
    else if p == "method" then Str("explore")
    else if p == "mode" then Str("TRANSIT,WALK")
    else if p == "origin" then CityHall
    else if p == "originText" then Str(CityHallName)
    else if p == "destinationText" then Str("")
    else if p == "waypoints" then Arr([])
    else if p == "wheelchair" then Bool(false)
    else Undefined
  }

  /** The table lists exactly `DefaultNames`. */
  lemma DefaultListed(p: string)
    ensures Default(p).Undefined? <==> p !in DefaultNames
  {
  }

  lemma CityHallIsClean()
    ensures Clean(CityHall)
  {
    assert Clean(CityHallGeometry.members[0].value) && Clean(CityHallGeometry.members[1].value);
    assert Clean(CityHallGeometry) && Clean(CityHallAttributes) && Clean(CityHallExtent);
    assert Clean(CityHall.members[2].value);
  }

  // ---------------------------------------------------------------------------------------
  // Reading
  // ---------------------------------------------------------------------------------------

  /**
   * The value `getPreference` starts from: the parsed text when the stored text is truthy
   * (non-empty), otherwise `undefined`.
   */
  function Stored(o: Options, p: string): (v: Value)
    requires WellFormed(o)
    ensures Get(o, p).None? ==> v.Undefined?
  {
    match Get(o, p)
    case Some(t) => if t != [] then Parse(t).value else Undefined
    case None => Undefined
  }

  /** `_.isUndefined(setDefault) || setDefault`: an omitted flag counts as true. */
  predicate DefaultWanted(setDefault: Value) {
    setDefault.Undefined? || Truthy(setDefault)
  }

  /** The guard `setDefault && !val || val === ''`, which groups as `(setDefault && !val) || val === ''`. */
  predicate TakesDefault(val: Value, setDefault: Value) {
    (DefaultWanted(setDefault) && !Truthy(val)) || val == Str("")
  }

  /**
   * The guard case by case: an omitted or truthy flag takes the default for every falsy
   * value; a falsy flag takes it only for the empty string.
   */
  lemma TakesDefaultCases(val: Value, setDefault: Value)
    ensures setDefault.Undefined? || Truthy(setDefault) ==> (TakesDefault(val, setDefault) <==> !Truthy(val))
    ensures !setDefault.Undefined? && !Truthy(setDefault) ==> (TakesDefault(val, setDefault) <==> val == Str(""))
  {
  }

  /** `getPreference(p, setDefault)`: the value returned and the table afterwards. */
  function ReadPreference(o: Options, p: string, setDefault: Value): (r: (Value, Options))
    requires WellFormed(o)
    ensures WellFormed(r.1)
  {
    var val := Stored(o, p);
    if TakesDefault(val, setDefault) then (Default(p), Put(o, p, Default(p))) else (val, o)
  }

  // ---------------------------------------------------------------------------------------
  // The store object
  // ---------------------------------------------------------------------------------------

  class Store {
    var options: Options

    ghost predicate Valid()
      reads this
    {
      WellFormed(options)
    }

    constructor ()
      ensures Valid() && options == map[]
    {
      options := map[];
    }

    /** `setPreference(preference, val)`. */
    method SetPreference(preference: string, val: Value)
      requires Valid()
      modifies this
      ensures Valid()
      ensures options == old(options)[preference := Stringify(val)]
    {
      if !val.Undefined? {
        ParseStringify(val);
      }
      options := options[preference := Stringify(val)];
    }

    /** `getPreference(preference, setDefault)`; pass `Undefined` for an omitted flag. */
    method GetPreference(preference: string, setDefault: Value) returns (val: Value)
      requires Valid()
      modifies this
      ensures Valid()
      ensures (val, options) == ReadPreference(old(options), preference, setDefault)
    {
      var text := if preference in options then options[preference] else None;
      val := Undefined;
      if text.Some? && text.value != [] {
        val := Parse(text.value).value;
      }
      var wanted := setDefault.Undefined? || Truthy(setDefault);
      if (wanted && !Truthy(val)) || val == Str("") {
        val := Default(preference);
        SetPreference(preference, val);
      }
    }

    /**
     * `setLocation(key, location, text)`: writes the location and its `…Text` twin, using
     * `location.name` when `text` is omitted. Reading `.name` of a nullish location throws
     * after the first write; `thrown` reports that.
     */
    method SetLocation(key: string, location: Value, text: Value) returns (thrown: bool)
      requires Valid()
      modifies this
      ensures Valid()
      ensures (options, thrown) == (SetAll(old(options), LocationSettings(key, location, text).0),
                                    LocationSettings(key, location, text).1)
    {
      SetAllShort(options, Setting(key, location), Setting(key + "Text", text));
      if text.Undefined? && Prop(location, "name").Ok? {
        SetAllShort(options, Setting(key, location), Setting(key + "Text", Prop(location, "name").value));
      }
      SetPreference(key, location);
      thrown := false;
      if !text.Undefined? {
        SetPreference(key + "Text", text);
      } else {
        var name := Prop(location, "name");
        if name.Err? {
          thrown := true;
          return;
        }
        SetPreference(key + "Text", name.value);
      }
    }

    /** `clearLocation(key)`: both entries are assigned `undefined`. */
    method ClearLocation(key: string)
      requires Valid()
      modifies this
      ensures Valid()
      ensures options == SetAll(old(options), ClearSettings(key))
    {
      SetAllShort(options, Setting(key, Undefined), Setting(key + "Text", Undefined));
      SetPreference(key, Undefined);
      SetPreference(key + "Text", Undefined);
    }
  }

  /** The calls `setLocation` makes, and whether it throws after them. */
  function LocationSettings(key: string, location: Value, text: Value): (r: (seq<Setting>, bool))
    ensures |r.0| == (if r.1 then 1 else 2) && r.0[0] == Setting(key, location)
    ensures r.1 <==> text.Undefined? && Nullish(location)
    ensures !r.1 ==> r.0[1].pref == key + "Text" && r.0[1].val == (if text.Undefined? then Prop(location, "name").value else text)
  {
    if !text.Undefined? then ([Setting(key, location), Setting(key + "Text", text)], false)
    else match Prop(location, "name")
      case Ok(name) => ([Setting(key, location), Setting(key + "Text", name)], false)
      case Err(_) => ([Setting(key, location)], true)
  }

  /** The calls `clearLocation` makes. */
  function ClearSettings(key: string): (r: seq<Setting>)
    ensures Names(r) == {key, key + "Text"}
    ensures forall i :: 0 <= i < |r| ==> r[i].val.Undefined?
  {
    var r := [Setting(key, Undefined), Setting(key + "Text", Undefined)];
    assert Names(r) == {key, key + "Text"} by {
      assert r[0].pref == key && r[1].pref == key + "Text";
    }
    r
  }

  // ---------------------------------------------------------------------------------------
  // Properties
  // ---------------------------------------------------------------------------------------

  /** A location name and its `…Text` twin are different entries. */
  lemma TextTwinDiffers(key: string)
    ensures key + "Text" != key
  {
    assert |key + "Text"| == |key| + 4;
  }

  /**
   * Round trip: after `setPreference(p, v)` with `v` truthy, `getPreference(p)` returns what
   * JSON gives back for `v` (exactly `v` when it holds no `undefined`) and writes nothing.
   */
  lemma ReadAfterSet(o: Options, p: string, v: Value, setDefault: Value)
    requires WellFormed(o) && Truthy(v)
    ensures WellFormed(Put(o, p, v))
    ensures ReadPreference(Put(o, p, v), p, setDefault) == (Normalize(v), Put(o, p, v))
    ensures Clean(v) ==> ReadPreference(Put(o, p, v), p, setDefault).0 == v
  {
    ParseStringify(v);
  }

  /** With the default wanted, an unset entry reads as its default, which is written back. */
  lemma UnsetReadsDefault(o: Options, p: string, setDefault: Value)
    requires WellFormed(o) && Get(o, p).None? && DefaultWanted(setDefault)
    ensures ReadPreference(o, p, setDefault) == (Default(p), Put(o, p, Default(p)))
    ensures Get(ReadPreference(o, p, setDefault).1, p) == Stringify(Default(p))
  {
  }

  /** With `setDefault === false`, an unset entry reads as `undefined` and nothing is written. */
  lemma UnsetWithoutDefault(o: Options, p: string)
    requires WellFormed(o) && Get(o, p).None?
    ensures ReadPreference(o, p, Bool(false)) == (Undefined, o)
  {
  }

  /** A stored empty string is replaced by the default whatever `setDefault` says. */
  lemma EmptyStringReplaced(o: Options, p: string, setDefault: Value)
    requires WellFormed(o)
    ensures WellFormed(Put(o, p, Str("")))
    ensures ReadPreference(Put(o, p, Str("")), p, setDefault)
         == (Default(p), Put(o, p, Default(p)))
  {
    ParseStringify(Str(""));
    PutTwice(o, p, Str(""), Default(p));
  }

  /** Stored falsy values do not round-trip: with the default wanted they read as the default. */
  lemma FalsyReadsAsDefault(o: Options, p: string, v: Value, setDefault: Value)
    requires WellFormed(o) && !Truthy(v) && DefaultWanted(setDefault)
    ensures WellFormed(Put(o, p, v))
    ensures ReadPreference(Put(o, p, v), p, setDefault) == (Default(p), Put(o, p, Default(p)))
  {
    if !v.Undefined? {
      ParseStringify(v);
    }
    PutTwice(o, p, v, Default(p));
  }

  /** For instance a stored walking distance of 0 miles reads back as the default 2. */
  lemma MaxWalkZeroReadsTwo(o: Options)
    requires WellFormed(o)
    ensures WellFormed(Put(o, "maxWalk", Num(0.0)))
    ensures ReadPreference(Put(o, "maxWalk", Num(0.0)), "maxWalk", Undefined).0 == Num(2.0)
  {
    FalsyReadsAsDefault(o, "maxWalk", Num(0.0), Undefined);
  }

  /** Reading twice gives the same value as reading once, and the second read writes nothing new. */
  lemma ReadTwice(o: Options, p: string, setDefault: Value)
    requires WellFormed(o)
    ensures var (v1, o1) := ReadPreference(o, p, setDefault);
            ReadPreference(o1, p, setDefault) == (v1, o1)
  {
    var (v1, o1) := ReadPreference(o, p, setDefault);
    if o1 != o {
      var d := Default(p);
      if !d.Undefined? {
        ParseStringify(d);
      }
      assert Put(o1, p, d) == o1;
    }
  }

  /** `setLocation` writes `key` and `key + "Text"` as described and touches no other entry. */
  lemma SetLocationWrites(o: Options, key: string, location: Value, text: Value)
    ensures var (ws, thrown) := LocationSettings(key, location, text);
            var r := SetAll(o, ws);
            && Get(r, key) == Stringify(location)
            && (forall q :: q != key && q != key + "Text" ==> Get(r, q) == Get(o, q))
            && (thrown <==> text.Undefined? && (location.Undefined? || location.Null?))
            && (!thrown && !text.Undefined? ==> Get(r, key + "Text") == Stringify(text))
            && (!thrown && text.Undefined? ==> Get(r, key + "Text") == Stringify(Prop(location, "name").value))
  {
    TextTwinDiffers(key);
    SetAllShort(o, Setting(key, location), Setting(key + "Text", text));
    if text.Undefined? && Prop(location, "name").Ok? {
      SetAllShort(o, Setting(key, location), Setting(key + "Text", Prop(location, "name").value));
    }
    var (ws, thrown) := LocationSettings(key, location, text);
    assert Names(ws) <= {key, key + "Text"};
    SetAllFrame(o, ws);
  }

  /**
   * After `clearLocation(key)`, default-taking reads of `key` and then `key + "Text"` return
   * their defaults (`undefined` for a name the defaults table does not list).
   */
  lemma ClearThenRead(o: Options, key: string)
    requires WellFormed(o)
    ensures WellFormed(SetAll(o, ClearSettings(key)))
    ensures var o1 := SetAll(o, ClearSettings(key));
            var (v1, o2) := ReadPreference(o1, key, Undefined);
            var (v2, _) := ReadPreference(o2, key + "Text", Undefined);
            v1 == Default(key) && v2 == Default(key + "Text")
  {
    TextTwinDiffers(key);
    SetAllShort(o, Setting(key, Undefined), Setting(key + "Text", Undefined));
    SetAllFrame(o, ClearSettings(key));
  }
}
