/**
 * JavaScript values as the trip planner's browser code handles them, with the two library
 * operations the preference store relies on: `JSON.stringify` on write and `JSON.parse` on
 * read.
 *
 * A JSON text is modelled as its sequence of lexical tokens. The separators `,` and `:` carry
 * no information in the text `JSON.stringify` writes, so they are left implicit, and a member
 * name is one token standing for `"key":`. Number and string spelling (escapes, exponent
 * notation) is not modelled: a token carries the number or the string itself.
 */
module Json {
  import opened Wrappers

  /**
   * A JavaScript value. Objects keep their members in the order given; JavaScript's listing of
   * integer-like keys before the others is not modelled.
   */
  datatype Value =
    | Undefined
    | Null
    | Bool(b: bool)
    | Num(n: real)
    | Str(s: string)
    | Arr(items: seq<Value>)
    | Obj(members: seq<Member>)

  datatype Member = Member(key: string, value: Value)

  /** JavaScript truthiness: `if (v)` takes the branch exactly when `Truthy(v)`. */
  predicate Truthy(v: Value) {
    match v
    case Undefined | Null => false
    case Bool(b) => b
    case Num(n) => n != 0.0
    case Str(s) => s != ""
    case Arr(_) | Obj(_) => true
  }

  /** `undefined` and `null`: the values that have no properties. */
  predicate Nullish(v: Value) {
    v.Undefined? || v.Null?
  }

  /** Reading a property of `undefined` or `null` throws a TypeError. */
  datatype PropertyError = TypeError

  /**
   * The property read `v.key`. An object yields its member's value (the last one written, as
   * in an object literal or `JSON.parse`), or `undefined` when it has none; any other
   * non-nullish value has none of the names the modelled code reads and yields `undefined`.
   */
  function Prop(v: Value, key: string): (r: Result<Value, PropertyError>)
    ensures r.Err? <==> Nullish(v)
  {
    match v
    case Undefined | Null => Err(TypeError)
    case Obj(ms) => Ok(Lookup(ms, key))
    case _ => Ok(Undefined)
  }

  /** The value of the last member named `key`, or `undefined` when no member has that name. */
  function Lookup(ms: seq<Member>, key: string): (r: Value)
    ensures r != Undefined ==> exists i :: 0 <= i < |ms| && ms[i] == Member(key, r)
    ensures (forall i :: 0 <= i < |ms| ==> ms[i].key != key) ==> r == Undefined
  {
    if ms == [] then Undefined
    else if ms[|ms| - 1].key == key then ms[|ms| - 1].value
    else Lookup(ms[..|ms| - 1], key)
  }

  /** Of several members with the same name, the last one gives the property's value. */
  lemma {:induction false} LookupLastWins(ms: seq<Member>, key: string, i: nat)
    requires i < |ms| && ms[i].key == key
    requires forall j :: i < j < |ms| ==> ms[j].key != key
    ensures Lookup(ms, key) == ms[i].value
    decreases |ms|
  {
    if i < |ms| - 1 {
      var init := ms[..|ms| - 1];
      LookupLastWins(init, key, i);
    }
  }

  /** A value with no `undefined` anywhere in it: the values JSON can represent exactly. */
  ghost predicate Clean(v: Value) {
    match v
    case Undefined => false
    case Arr(items) => forall i :: 0 <= i < |items| ==> Clean(items[i])
    case Obj(ms) => forall i :: 0 <= i < |ms| ==> Clean(ms[i].value)
    case _ => true
  }

  // ---------------------------------------------------------------------------------------
  // Writing: JSON.stringify
  // ---------------------------------------------------------------------------------------

  datatype Token =
    | NullLit
    | BoolLit(b: bool)
    | NumLit(n: real)
    | StrLit(s: string)
    | BeginArray
    | EndArray
    | BeginObject
    | EndObject
    | Name(key: string)

  type Text = seq<Token>

  /**
   * `JSON.stringify(v)`. `undefined` has no JSON text: the call returns `undefined`, modelled
   * as `None`. Every other value has a non-empty text, so the text is truthy.
   */
  function Stringify(v: Value): (r: Option<Text>)
    ensures r.None? <==> v.Undefined?
    ensures r.Some? ==> r.value != []
  {
    if v.Undefined? then None else Some(Write(v))
  }

  /**
   * The text of `v` where `JSON.stringify` may not omit it: an `undefined` array element is
   * written as `null`.
   */
  function Write(v: Value): (t: Text)
    ensures t != [] && t[0] != EndArray && t[0] != EndObject && !t[0].Name?
  {
    match v
    case Undefined | Null => [NullLit]
    case Bool(b) => [BoolLit(b)]
    case Num(n) => [NumLit(n)]
    case Str(s) => [StrLit(s)]
    case Arr(items) => [BeginArray] + WriteItems(items) + [EndArray]
    case Obj(ms) => [BeginObject] + WriteMembers(ms) + [EndObject]
  }

  function WriteItems(items: seq<Value>): Text {
    if items == [] then [] else Write(items[0]) + WriteItems(items[1..])
  }

  /** Members whose value is `undefined` are left out of the text. */
  function WriteMembers(ms: seq<Member>): Text {
    if ms == [] then []
    else if ms[0].value.Undefined? then WriteMembers(ms[1..])
    else [Name(ms[0].key)] + Write(ms[0].value) + WriteMembers(ms[1..])
  }

  // ---------------------------------------------------------------------------------------
  // Reading: JSON.parse
  // ---------------------------------------------------------------------------------------

  /**
   * `JSON.parse(t)`: the value of a text holding exactly one value; `None` where the
   * function throws a SyntaxError.
   */
  function Parse(t: Text): (r: Option<Value>)
    ensures t == [] ==> r.None?
    ensures r.Some? ==> Clean(r.value)
  {
    ParseValueClean(t);
    match ParseValue(t)
    case Some((v, rest)) => if rest == [] then Some(v) else None
    case None => None
  }

  /** Parses one value at the head of `t` and returns it with the text that follows it. */
  function ParseValue(t: Text): (r: Option<(Value, Text)>)
    decreases |t|, 0
    ensures r.Some? ==> |r.value.1| < |t| && r.value.1 == t[|t| - |r.value.1|..]
  {
    if t == [] then None
    else match t[0]
      case NullLit => Some((Null, t[1..]))
      case BoolLit(b) => Some((Bool(b), t[1..]))
      case NumLit(n) => Some((Num(n), t[1..]))
      case StrLit(s) => Some((Str(s), t[1..]))
      case BeginArray =>
        (match ParseItems(t[1..])
         case Some((items, rest)) => Some((Arr(items), rest))
         case None => None)
      case BeginObject =>
        (match ParseMembers(t[1..])
         case Some((ms, rest)) => Some((Obj(ms), rest))
         case None => None)
      case _ => None
  }

  /** Parses array elements up to and including the closing bracket. */
  function ParseItems(t: Text): (r: Option<(seq<Value>, Text)>)
    decreases |t|, 1
    ensures r.Some? ==> |r.value.1| < |t| && r.value.1 == t[|t| - |r.value.1|..]
  {
    if t == [] then None
    else if t[0] == EndArray then Some(([], t[1..]))
    else match ParseValue(t)
      case None => None
      case Some((v, rest)) =>
        match ParseItems(rest)
        case None => None
        case Some((vs, rest')) => Some(([v] + vs, rest'))
  }

  /** Parses object members up to and including the closing brace. */
  function ParseMembers(t: Text): (r: Option<(seq<Member>, Text)>)
    decreases |t|, 1
    ensures r.Some? ==> |r.value.1| < |t| && r.value.1 == t[|t| - |r.value.1|..]
  {
    if t == [] then None
    else if t[0] == EndObject then Some(([], t[1..]))
    else if !t[0].Name? then None
    else match ParseValue(t[1..])
      case None => None
      case Some((v, rest)) =>
        match ParseMembers(rest)
        case None => None
        case Some((ms, rest')) => Some(([Member(t[0].key, v)] + ms, rest'))
  }

  /** `JSON.parse` never produces `undefined`, at any depth. */
  lemma {:induction false} ParseValueClean(t: Text)
    ensures ParseValue(t).Some? ==> Clean(ParseValue(t).value.0)
    decreases |t|, 0
  {
    if t != [] {
      match t[0]
      case BeginArray => ParseItemsClean(t[1..]);
      case BeginObject => ParseMembersClean(t[1..]);
      case _ =>
    }
  }

  lemma {:induction false} ParseItemsClean(t: Text)
    ensures ParseItems(t).Some? ==> forall i :: 0 <= i < |ParseItems(t).value.0| ==> Clean(ParseItems(t).value.0[i])
    decreases |t|, 1
  {
    if t != [] && t[0] != EndArray {
      ParseValueClean(t);
      if ParseValue(t).Some? {
        var (v, rest) := ParseValue(t).value;
        ParseItemsClean(rest);
      }
    }
  }

  lemma {:induction false} ParseMembersClean(t: Text)
    ensures ParseMembers(t).Some? ==> forall i :: 0 <= i < |ParseMembers(t).value.0| ==> Clean(ParseMembers(t).value.0[i].value)
    decreases |t|, 1
  {
    if t != [] && t[0] != EndObject && t[0].Name? {
      ParseValueClean(t[1..]);
      if ParseValue(t[1..]).Some? {
        var (v, rest) := ParseValue(t[1..]).value;
        ParseMembersClean(rest);
      }
    }
  }

  // ---------------------------------------------------------------------------------------
  // The round trip
  // ---------------------------------------------------------------------------------------

  /**
   * The value `JSON.parse(JSON.stringify(v))` yields for `v` in element position: an
   * `undefined` element becomes `null` and an `undefined` member disappears.
   */
  function Normalize(v: Value): (r: Value)
    ensures Clean(r)
    ensures Clean(v) ==> r == v
    ensures !v.Undefined? ==> (Truthy(r) <==> Truthy(v)) && (r == Str("") <==> v == Str(""))
  {
    match v
    case Undefined => Null
    case Arr(items) => Arr(NormalizeItems(items))
    case Obj(ms) => Obj(NormalizeMembers(ms))
    case _ => v
  }

  function NormalizeItems(items: seq<Value>): (r: seq<Value>)
    ensures |r| == |items|
    ensures forall i :: 0 <= i < |items| ==> r[i] == Normalize(items[i])
    ensures forall i :: 0 <= i < |items| ==> items[i].Undefined? ==> r[i] == Null
    ensures forall i :: 0 <= i < |r| ==> Clean(r[i])
    ensures (forall i :: 0 <= i < |items| ==> Clean(items[i])) ==> r == items
  {
    if items == [] then [] else [Normalize(items[0])] + NormalizeItems(items[1..])
  }

  function NormalizeMembers(ms: seq<Member>): (r: seq<Member>)
    ensures |r| <= |ms|
    ensures forall i :: 0 <= i < |r| ==> Clean(r[i].value)
    ensures (forall i :: 0 <= i < |ms| ==> Clean(ms[i].value)) ==> r == ms
  {
    if ms == [] then []
    else if ms[0].value.Undefined? then NormalizeMembers(ms[1..])
    else [Member(ms[0].key, Normalize(ms[0].value))] + NormalizeMembers(ms[1..])
  }

  /** The positions of the members of `ms` that do not hold `undefined`, in order. */
  ghost function KeptPositions(ms: seq<Member>): seq<nat>
  {
    if ms == [] then []
    else
      var shifted := Shift(KeptPositions(ms[1..]));
      if ms[0].value.Undefined? then shifted else [0] + shifted
  }

  /** Every position one further on. */
  ghost function Shift(from: seq<nat>): (r: seq<nat>)
    ensures |r| == |from| && forall j :: 0 <= j < |from| ==> r[j] == from[j] + 1
  {
    if from == [] then [] else [from[0] + 1] + Shift(from[1..])
  }

  /**
   * `r` consists of the members of `ms` at the strictly increasing positions `from`, each
   * with its value normalised, and `from` lists every member not holding `undefined`.
   */
  ghost predicate KeptWith(r: seq<Member>, ms: seq<Member>, from: seq<nat>) {
    KeptAt(r, ms, from) && Increasing(from) && Covers(ms, from)
  }

  ghost predicate KeptAt(r: seq<Member>, ms: seq<Member>, from: seq<nat>) {
    && |from| == |r|
    && forall j :: 0 <= j < |r| ==>
         (from[j] < |ms| && !ms[from[j]].value.Undefined?
          && r[j] == Member(ms[from[j]].key, Normalize(ms[from[j]].value)))
  }

  ghost predicate Increasing(from: seq<nat>) {
    forall a, b :: 0 <= a < b < |from| ==> from[a] < from[b]
  }

  ghost predicate Covers(ms: seq<Member>, from: seq<nat>) {
    forall i :: 0 <= i < |ms| && !ms[i].value.Undefined? ==> i in from
  }

  /**
   * The members `NormalizeMembers` keeps are exactly those not holding `undefined`, each with
   * its value normalised, in their original order.
   */
  lemma {:induction false} NormalizeMembersKept(ms: seq<Member>)
    ensures KeptWith(NormalizeMembers(ms), ms, KeptPositions(ms))
  {
    if ms != [] {
      var tail, tailFrom := NormalizeMembers(ms[1..]), KeptPositions(ms[1..]);
      NormalizeMembersKept(ms[1..]);
      var shifted := Shift(tailFrom);
      ShiftedKept(ms, tail, tailFrom, shifted);
      if ms[0].value.Undefined? {
        assert NormalizeMembers(ms) == tail && KeptPositions(ms) == shifted;
      } else {
        var head := Member(ms[0].key, Normalize(ms[0].value));
        assert NormalizeMembers(ms) == [head] + tail;
        assert KeptPositions(ms) == [0] + shifted;
        KeptAtCons(ms, tail, shifted);
        IncreasingCons(shifted);
        CoversCons(ms, shifted);
      }
    }
  }

  lemma KeptAtCons(ms: seq<Member>, tail: seq<Member>, shifted: seq<nat>)
    requires ms != [] && !ms[0].value.Undefined? && KeptAt(tail, ms, shifted)
    ensures KeptAt([Member(ms[0].key, Normalize(ms[0].value))] + tail, ms, [0] + shifted)
  {
    var r, from := [Member(ms[0].key, Normalize(ms[0].value))] + tail, [0] + shifted;
    forall j | 0 < j < |r|
      ensures from[j] < |ms| && !ms[from[j]].value.Undefined?
              && r[j] == Member(ms[from[j]].key, Normalize(ms[from[j]].value))
    {
      assert r[j] == tail[j - 1] && from[j] == shifted[j - 1];
    }
  }

  lemma IncreasingCons(shifted: seq<nat>)
    requires Increasing(shifted) && forall j :: 0 <= j < |shifted| ==> 0 < shifted[j]
    ensures Increasing([0] + shifted)
  {
    var from := [0] + shifted;
    forall a, b | 0 <= a < b < |from|
      ensures from[a] < from[b]
    {
      assert from[b] == shifted[b - 1];
      if a > 0 {
        assert from[a] == shifted[a - 1];
      }
    }
  }

  lemma CoversCons(ms: seq<Member>, shifted: seq<nat>)
    requires ms != [] && forall i :: 0 < i < |ms| && !ms[i].value.Undefined? ==> i in shifted
    ensures Covers(ms, [0] + shifted)
  {
    forall i | 0 <= i < |ms| && !ms[i].value.Undefined?
      ensures i in [0] + shifted
    {
      if i > 0 {
        assert i in shifted;
      }
    }
  }

  /** The tail's positions, shifted by one, are positions of the whole sequence. */
  lemma ShiftedKept(ms: seq<Member>, tail: seq<Member>, tailFrom: seq<nat>, shifted: seq<nat>)
    requires ms != [] && KeptWith(tail, ms[1..], tailFrom)
    requires |shifted| == |tailFrom| && forall j :: 0 <= j < |tailFrom| ==> shifted[j] == tailFrom[j] + 1
    ensures KeptAt(tail, ms, shifted) && Increasing(shifted)
    ensures forall j :: 0 <= j < |shifted| ==> 0 < shifted[j]
    ensures forall i :: 0 < i < |ms| && !ms[i].value.Undefined? ==> i in shifted
    ensures ms[0].value.Undefined? ==> Covers(ms, shifted)
  {
    forall j | 0 <= j < |tail|
      ensures shifted[j] < |ms| && !ms[shifted[j]].value.Undefined?
              && tail[j] == Member(ms[shifted[j]].key, Normalize(ms[shifted[j]].value))
    {
      assert ms[1..][tailFrom[j]] == ms[shifted[j]];
    }
    forall i | 0 < i < |ms| && !ms[i].value.Undefined?
      ensures i in shifted
    {
      assert ms[1..][i - 1] == ms[i];
      var j :| 0 <= j < |tailFrom| && tailFrom[j] == i - 1;
      assert shifted[j] == i;
    }
  }

  /** Parsing the text of `v` followed by anything gives back `Normalize(v)` and the rest. */
  lemma {:induction false} ParseWrite(v: Value, rest: Text)
    ensures ParseValue(Write(v) + rest) == Some((Normalize(v), rest))
    decreases v, 1
  {
    match v
    case Arr(items) => ParseWriteArray(items, rest);
    case Obj(ms) => ParseWriteObject(ms, rest);
    case _ =>
  }

  lemma {:induction false} ParseWriteArray(items: seq<Value>, rest: Text)
    ensures ParseValue(Write(Arr(items)) + rest) == Some((Arr(NormalizeItems(items)), rest))
    decreases items, 1
  {
    var t := Write(Arr(items)) + rest;
    assert t == [BeginArray] + (WriteItems(items) + [EndArray] + rest);
    ParseWriteItems(items, rest);
  }

  lemma {:induction false} ParseWriteObject(ms: seq<Member>, rest: Text)
    ensures ParseValue(Write(Obj(ms)) + rest) == Some((Obj(NormalizeMembers(ms)), rest))
    decreases ms, 1
  {
    var t := Write(Obj(ms)) + rest;
    assert t == [BeginObject] + (WriteMembers(ms) + [EndObject] + rest);
    ParseWriteMembers(ms, rest);
  }

  lemma {:induction false} ParseWriteItems(items: seq<Value>, rest: Text)
    ensures ParseItems(WriteItems(items) + [EndArray] + rest) == Some((NormalizeItems(items), rest))
    decreases items, 0
  {
    if items != [] {
      var tail := WriteItems(items[1..]) + [EndArray] + rest;
      assert WriteItems(items) + [EndArray] + rest == Write(items[0]) + tail;
      ParseWrite(items[0], tail);
      ParseWriteItems(items[1..], rest);
    }
  }

  lemma {:induction false} ParseWriteMembers(ms: seq<Member>, rest: Text)
    ensures ParseMembers(WriteMembers(ms) + [EndObject] + rest) == Some((NormalizeMembers(ms), rest))
    decreases ms, 0
  {
    if ms != [] {
      var tail := WriteMembers(ms[1..]) + [EndObject] + rest;
      if ms[0].value.Undefined? {
        ParseWriteMembers(ms[1..], rest);
      } else {
        var t := WriteMembers(ms) + [EndObject] + rest;
        assert t == [Name(ms[0].key)] + (Write(ms[0].value) + tail);
        assert t[1..] == Write(ms[0].value) + tail;
        ParseWrite(ms[0].value, tail);
        ParseWriteMembers(ms[1..], rest);
      }
    }
  }

  /** `JSON.parse(JSON.stringify(v))` is `Normalize(v)` for every value with a text. */
  lemma ParseStringify(v: Value)
    requires !v.Undefined?
    ensures Stringify(v).Some? && Parse(Stringify(v).value) == Some(Normalize(v))
  {
    ParseWrite(v, []);
    assert Write(v) + [] == Write(v);
  }

  /** On values without `undefined`, parsing undoes stringifying exactly. */
  lemma StringifyRoundTrip(v: Value)
    requires Clean(v)
    ensures Stringify(v).Some? && Parse(Stringify(v).value) == Some(v)
  {
    ParseStringify(v);
  }

  /** Hence two such values with the same text are the same value. */
  lemma StringifyInjective(v: Value, w: Value)
    requires Clean(v) && Clean(w)
    requires Stringify(v) == Stringify(w)
    ensures v == w
  {
    StringifyRoundTrip(v);
    StringifyRoundTrip(w);
  }
}
