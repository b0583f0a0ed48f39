/** The search side of the emergency map (app/emergency/EmergencyMapClient.tsx):
    the medical categories, the Overpass QL query built from a category's tag
    filters, the validation of the elements Overpass returns, the removal of
    duplicate ids, and the user-facing error texts. All of it is pure. */
module EmergencySearch {
  import opened Wrappers
  import opened Text

  // ---------------------------------------------------------------------------
  // Categories
  // ---------------------------------------------------------------------------

  /** One entry of `MEDICAL_TYPES` (its marker icon is left out). */
  datatype MedicalType = MedicalType(key: string, displayName: string, queryTags: seq<string>)

  const MedicalTypes: seq<MedicalType> := [
    MedicalType("hospital", "Hospitals", ["[\"amenity\"=\"hospital\"]"]),
    MedicalType("clinic", "Clinics", ["[\"amenity\"=\"clinic\"]", "[\"healthcare\"=\"clinic\"]"]),
    MedicalType("doctor", "Doctors", ["[\"amenity\"=\"doctors\"]", "[\"healthcare\"=\"doctor\"]"]),
    MedicalType("gynecologist", "Gynecologists", [
      "[\"healthcare\"=\"doctor\"][\"speciality\"=\"gynecology\"]",
      "[\"amenity\"=\"doctors\"][\"speciality\"=\"gynecology\"]",
      "[\"healthcare\"=\"clinic\"][\"speciality\"=\"gynecology\"]"]),
    MedicalType("pharmacy", "Pharmacies", ["[\"amenity\"=\"pharmacy\"]"])
  ]

  /** `MEDICAL_TYPES.find(t => t.type === key)`: the first category with
      that key, if any. */
  function FindType(types: seq<MedicalType>, key: string): (r: Option<MedicalType>)
    ensures r.Some? ==> r.value in types && r.value.key == key
    ensures r.None? <==> forall i :: 0 <= i < |types| ==> types[i].key != key
  {
    if types == [] then None
    else if types[0].key == key then Some(types[0])
    else FindType(types[1..], key)
  }

  // ---------------------------------------------------------------------------
  // The Overpass QL query
  // ---------------------------------------------------------------------------

  /** The radius of the search in metres and the server-side timeout in
      seconds, as they appear in the query text. */
  const RadiusText := "10000"
  const TimeoutText := "30"

  const QueryHeader := "[out:json][timeout:" + TimeoutText + "];("
  const QueryFooter := ");out center;"

  /** The three element kinds every tag filter is asked for. */
  const ElementKinds: seq<string> := ["node", "way", "relation"]

  function Around(lat: string, lon: string): string {
    "(around:" + RadiusText + "," + lat + "," + lon + ");"
  }

  /** The part the source builds for one tag filter: a node, a way and a
      relation clause. */
  function TagPart(tag: string, lat: string, lon: string): string {
    "node" + tag + Around(lat, lon) + "way" + tag + Around(lat, lon)
    + "relation" + tag + Around(lat, lon)
  }

  /** `queryTags.map(tag => TagPart(tag))`. */
  function QueryParts(tags: seq<string>, lat: string, lon: string): (parts: seq<string>)
    ensures |parts| == |tags|
    ensures forall i :: 0 <= i < |tags| ==> parts[i] == TagPart(tags[i], lat, lon)
  {
    if tags == [] then [] else [TagPart(tags[0], lat, lon)] + QueryParts(tags[1..], lat, lon)
  }

  /** The query sent to Overpass for the category's tag filters around `lat,lon`. */
  function OverpassQuery(tags: seq<string>, lat: string, lon: string): string {
    QueryHeader + Concat(QueryParts(tags, lat, lon)) + QueryFooter
  }

  /** The clauses of the query listed one by one: clause `3 * i + k` asks for
      the `k`-th element kind with the `i`-th tag filter. */
  function Clauses(tags: seq<string>, lat: string, lon: string): (cs: seq<string>)
    ensures |cs| == 3 * |tags|
  {
    seq(3 * |tags|, j requires 0 <= j < 3 * |tags| => ElementKinds[j % 3] + tags[j / 3] + Around(lat, lon))
  }

  lemma {:induction false} ClausesCons(tags: seq<string>, lat: string, lon: string)
    requires tags != []
    ensures Clauses(tags, lat, lon)
            == [ElementKinds[0] + tags[0] + Around(lat, lon),
                ElementKinds[1] + tags[0] + Around(lat, lon),
                ElementKinds[2] + tags[0] + Around(lat, lon)]
               + Clauses(tags[1..], lat, lon)
  {
    var cs := Clauses(tags, lat, lon);
    var rest := Clauses(tags[1..], lat, lon);
    forall j | 3 <= j < |cs| ensures cs[j] == rest[j - 3] {
      assert (j - 3) / 3 == j / 3 - 1 && (j - 3) % 3 == j % 3;
    }
  }

  /** Joining three strings ahead of a list. */
  lemma {:induction false} ConcatThree(x: string, y: string, z: string, rest: seq<string>)
    ensures Concat([x, y, z] + rest) == x + y + z + Concat(rest)
  {
    var l := [x, y, z] + rest;
    assert l[1..] == [y, z] + rest && l[1..][1..] == [z] + rest && l[1..][1..][1..] == rest;
    assert Concat(l[1..][1..]) == z + Concat(rest);
    assert Concat(l[1..]) == y + (z + Concat(rest));
    AppendAssoc(x + y, z, Concat(rest));
    AppendAssoc(x, y, z + Concat(rest));
  }

  /** One tag filter's part is its node, way and relation clause in turn. */
  lemma {:induction false} TagPartClauses(tag: string, lat: string, lon: string)
    ensures TagPart(tag, lat, lon)
            == (ElementKinds[0] + tag + Around(lat, lon)) + (ElementKinds[1] + tag + Around(lat, lon))
               + (ElementKinds[2] + tag + Around(lat, lon))
  {
    var a := Around(lat, lon);
    var n, w, r := "node", "way", "relation";
    assert ElementKinds[0] == n && ElementKinds[1] == w && ElementKinds[2] == r;
    AppendAssoc(n + tag + a, w + tag, a);
    AppendAssoc(n + tag + a, w, tag);
    AppendAssoc(n + tag + a + w + tag + a, r + tag, a);
    AppendAssoc(n + tag + a + w + tag + a, r, tag);
  }

  /** The query is the header, the node, way and relation clause of every
      tag filter in order (three clauses per filter), and the footer. */
  lemma {:induction false} QueryIsClauses(tags: seq<string>, lat: string, lon: string)
    ensures Concat(QueryParts(tags, lat, lon)) == Concat(Clauses(tags, lat, lon))
    ensures OverpassQuery(tags, lat, lon) == QueryHeader + Concat(Clauses(tags, lat, lon)) + QueryFooter
  {
    if tags != [] {
      var a := Around(lat, lon);
      var c0, c1, c2 := ElementKinds[0] + tags[0] + a, ElementKinds[1] + tags[0] + a, ElementKinds[2] + tags[0] + a;
      var rest := Clauses(tags[1..], lat, lon);
      QueryIsClauses(tags[1..], lat, lon);
      ClausesCons(tags, lat, lon);
      ConcatThree(c0, c1, c2, rest);
      TagPartClauses(tags[0], lat, lon);
      assert Concat(QueryParts(tags, lat, lon)) == TagPart(tags[0], lat, lon) + Concat(QueryParts(tags[1..], lat, lon));
    }
  }

  // ---------------------------------------------------------------------------
  // Validating the returned elements
  // ---------------------------------------------------------------------------

  /** A value as `response.json()` produces it (numbers as the rationals the
      JSON text denotes), plus `undefined` for a missing member. */
  datatype Value =
    | Undefined
    | Null
    | Bool(b: bool)
    | Num(n: real)
    | Str(s: string)
    | Arr(items: seq<Value>)
    | Obj(fields: seq<(string, Value)>)

  predicate IsNullish(v: Value) {
    v.Undefined? || v.Null?
  }

  /** JavaScript truthiness. */
  predicate Truthy(v: Value) {
    match v
    case Undefined => false
    case Null => false
    case Bool(b) => b
    case Num(n) => n != 0.0
    case Str(s) => s != []
    case Arr(_) => true
    case Obj(_) => true
  }

  /** The member `key` of an object's fields; `JSON.parse` keeps the last of
      several members with one name. */
  function Member(fields: seq<(string, Value)>, key: string): Value {
    if fields == [] then Undefined
    else if fields[|fields| - 1].0 == key then fields[|fields| - 1].1
    else Member(fields[..|fields| - 1], key)
  }

  /** `v.key`, which throws a TypeError on `null` and `undefined` (hence the
      precondition) and gives `undefined` on every non-object. */
  function Get(v: Value, key: string): Value
    requires !IsNullish(v)
  {
    if v.Obj? then Member(v.fields, key) else Undefined
  }

  predicate HasValidId(place: Value) {
    Truthy(place) && Get(place, "id").Num?
  }

  predicate HasValidType(place: Value) {
    Truthy(place) && Get(place, "type") in [Str("node"), Str("way"), Str("relation")]
  }

  /** `tags` is an object with at least one own key. */
  predicate HasTags(place: Value) {
    Truthy(place)
    && match Get(place, "tags")
       case Obj(fields) => fields != []
       case Arr(items) => items != []
       case _ => false
  }

  predicate HasValidLocation(place: Value)
    requires !IsNullish(place)
  {
    (Get(place, "lat").Num? && Get(place, "lon").Num?)
    || (var center := Get(place, "center");
        Truthy(center) && Get(center, "lat").Num? && Get(center, "lon").Num?)
  }

  /** The filter predicate as written: the first three checks guard against
      a falsy element, but the location check reads `place.lat` unguarded,
      so a `null` element throws. */
  function KeepAsWritten(place: Value): Result<bool, string> {
    if IsNullish(place) then Err("TypeError")
    else Ok(HasValidId(place) && HasValidType(place) && HasTags(place) && HasValidLocation(place))
  }

  lemma {:induction false} KeepAsWrittenOfNonNull(place: Value)
    requires !IsNullish(place)
    ensures KeepAsWritten(place) == Ok(Keep(place))
  {
  }

  /** `elements.filter(...)` as written: the first throwing element aborts. */
  function FilterAsWritten(elements: seq<Value>): (r: Result<seq<Value>, string>)
    ensures r.Err? <==> exists i :: 0 <= i < |elements| && IsNullish(elements[i])
  {
    if elements == [] then Ok([])
    else match KeepAsWritten(elements[0])
      case Err(e) => Err(e)
      case Ok(keep) =>
        match FilterAsWritten(elements[1..])
        case Err(e) => Err(e)
        case Ok(rest) => Ok(if keep then [elements[0]] + rest else rest)
  }

  /** The filter predicate as evidently intended: a `null` element is
      dropped like any other invalid one. */
  predicate Keep(place: Value) {
    !IsNullish(place) && HasValidId(place) && HasValidType(place) && HasTags(place)
    && HasValidLocation(place)
  }

  /** The corrected filter: keeps exactly the valid elements. With
      `FilterAllOrNone` and `FilterAppend` this pins the result down to the valid elements in their
      original order and number, as `Array.prototype.filter` gives them. */
  function Filter(elements: seq<Value>): (kept: seq<Value>)
    ensures forall i :: 0 <= i < |kept| ==> Keep(kept[i]) && kept[i] in elements
    ensures forall i :: 0 <= i < |elements| && Keep(elements[i]) ==> elements[i] in kept
  {
    if elements == [] then []
    else (if Keep(elements[0]) then [elements[0]] else []) + Filter(elements[1..])
  }

  /** A list of valid elements passes whole, and a list without one gives
      nothing; in particular one element is kept exactly when it is valid. */
  lemma {:induction false} FilterAllOrNone(elements: seq<Value>)
    ensures (forall i :: 0 <= i < |elements| ==> Keep(elements[i])) ==> Filter(elements) == elements
    ensures (forall i :: 0 <= i < |elements| ==> !Keep(elements[i])) ==> Filter(elements) == []
  {
    if elements != [] {
      var rest := elements[1..];
      assert forall i :: 0 <= i < |rest| ==> rest[i] == elements[i + 1];
      FilterAllOrNone(rest);
      assert elements == [elements[0]] + rest;
    }
  }

  /** Filtering a concatenation filters each part and keeps them in order. */
  lemma {:induction false} FilterAppend(a: seq<Value>, b: seq<Value>)
    ensures Filter(a + b) == Filter(a) + Filter(b)
  {
    if a == [] {
      assert a + b == b;
    } else {
      var head := if Keep(a[0]) then [a[0]] else [];
      assert (a + b)[0] == a[0];
      assert (a + b)[1..] == a[1..] + b;
      FilterAppend(a[1..], b);
      AppendAssoc(head, Filter(a[1..]), Filter(b));
    }
  }

  /** A single `null` among the elements turns the whole search into an
      error under the filter as written, while the corrected filter drops it. */
  lemma {:induction false} NullElementAbortsSearch(valid: Value)
    requires Keep(valid)
    ensures FilterAsWritten([valid, Null]).Err?
    ensures Filter([valid, Null]) == [valid]
  {
    assert [valid, Null][1..] == [Null];
    assert [Null][1..] == [];
  }

  /** Without nullish elements the two filters agree: the correction changes
      nothing else. */
  lemma {:induction false} FilterAgreesWithoutNull(elements: seq<Value>)
    requires forall i :: 0 <= i < |elements| ==> !IsNullish(elements[i])
    ensures FilterAsWritten(elements) == Ok(Filter(elements))
  {
    if elements != [] {
      var e, rest := elements[0], elements[1..];
      assert forall i :: 0 <= i < |rest| ==> rest[i] == elements[i + 1];
      FilterAgreesWithoutNull(rest);
      KeepAsWrittenOfNonNull(e);
      assert Filter(elements) == (if Keep(e) then [e] else []) + Filter(rest);
      if Keep(e) {
        assert FilterAsWritten(elements) == Ok([e] + Filter(rest));
      } else {
        assert FilterAsWritten(elements) == Ok(Filter(rest));
        assert [] + Filter(rest) == Filter(rest);
      }
    }
  }

  /** A validated element, keyed by its numeric id. */
  datatype Place = Place(id: real, element: Value)

  function ToPlaces(elements: seq<Value>): (ps: seq<Place>)
    requires forall i :: 0 <= i < |elements| ==> Keep(elements[i])
    ensures |ps| == |elements|
    ensures forall i :: 0 <= i < |ps| ==>
      ps[i].element == elements[i] && Keep(ps[i].element) && ps[i].id == Get(elements[i], "id").n
  {
    if elements == [] then []
    else
      assert Keep(elements[0]);
      [Place(Get(elements[0], "id").n, elements[0])] + ToPlaces(elements[1..])
  }

  /** `data.elements?.filter(...) ?? []` as written: a missing or null
      `elements` gives no places; reading `elements` of a null response, or
      calling `filter` on a non-array, throws, and so does a nullish element
      (`ValidPlacesKeepsEveryValid`). */
  function ValidPlaces(data: Value): (r: Result<seq<Place>, string>)
    ensures IsNullish(data) ==> r.Err?
    ensures !IsNullish(data) && IsNullish(Get(data, "elements")) ==> r == Ok([])
    ensures !IsNullish(data) && !IsNullish(Get(data, "elements")) && !Get(data, "elements").Arr? ==> r.Err?
    ensures r.Ok? ==> forall i :: 0 <= i < |r.value| ==> Keep(r.value[i].element)
  {
    if IsNullish(data) then Err("TypeError")
    else
      var elements := Get(data, "elements");
      if IsNullish(elements) then Ok([])
      else if elements.Arr? then
        match FilterAsWritten(elements.items)
        case Err(e) => Err(e)
        case Ok(kept) =>
          FilterAgreesWithoutNull(elements.items);
          Ok(ToPlaces(kept))
      else Err("TypeError")
  }

  /** A response array without nullish elements gives a place for every
      valid element, and the places of the corrected filter; one nullish
      element gives no places at all. */
  lemma {:induction false} ValidPlacesKeepsEveryValid(data: Value)
    requires data.Obj? && Get(data, "elements").Arr?
    ensures ValidPlaces(data).Ok? <==> forall i :: 0 <= i < |Get(data, "elements").items| ==> !IsNullish(Get(data, "elements").items[i])
    ensures ValidPlaces(data).Ok? ==> ValidPlaces(data).value == ToPlaces(Filter(Get(data, "elements").items))
    ensures ValidPlaces(data).Ok? ==> forall e :: e in Get(data, "elements").items && Keep(e) ==>
      exists i :: 0 <= i < |ValidPlaces(data).value| && ValidPlaces(data).value[i].element == e
  {
    var items := Get(data, "elements").items;
    if ValidPlaces(data).Ok? {
      assert FilterAsWritten(items).Ok?;
      FilterAgreesWithoutNull(items);
      assert ValidPlaces(data).value == ToPlaces(Filter(items));
      PlacesOfEveryValid(items);
    }
  }

  /** Each valid element has its place among the corrected filter's places. */
  lemma {:induction false} PlacesOfEveryValid(items: seq<Value>)
    ensures var ps := ToPlaces(Filter(items));
      forall e :: e in items && Keep(e) ==> exists i :: 0 <= i < |ps| && ps[i].element == e
  {
    var kept := Filter(items);
    var ps := ToPlaces(kept);
    forall e | e in items && Keep(e)
      ensures exists i :: 0 <= i < |ps| && ps[i].element == e
    {
      var i :| 0 <= i < |items| && items[i] == e;
      assert e in kept;
      var j :| 0 <= j < |kept| && kept[j] == e;
      assert ps[j].element == e;
    }
    assert ps == ToPlaces(Filter(items));
  }

  // ---------------------------------------------------------------------------
  // Removing duplicate ids
  // ---------------------------------------------------------------------------

  function Ids(ps: seq<Place>): set<real> {
    set i | 0 <= i < |ps| :: ps[i].id
  }

  /** The index of the first place with this id, or -1. */
  function FirstIndex(ps: seq<Place>, id: real): (k: int)
    ensures -1 <= k < |ps|
    ensures k >= 0 ==> ps[k].id == id && forall j :: 0 <= j < k ==> ps[j].id != id
    ensures k < 0 ==> forall j :: 0 <= j < |ps| ==> ps[j].id != id
  {
    if ps == [] then -1
    else if ps[0].id == id then 0
    else var k := FirstIndex(ps[1..], id); if k < 0 then -1 else k + 1
  }

  /** The index of the last place with this id, or -1. */
  function LastIndex(ps: seq<Place>, id: real): (k: int)
    ensures -1 <= k < |ps|
    ensures k >= 0 ==> ps[k].id == id && forall j :: k < j < |ps| ==> ps[j].id != id
    ensures k < 0 ==> forall j :: 0 <= j < |ps| ==> ps[j].id != id
  {
    if ps == [] then -1
    else if ps[|ps| - 1].id == id then |ps| - 1
    else LastIndex(ps[..|ps| - 1], id)
  }

  /** `map.set(p.id, p)` on the entries of a JavaScript Map, in insertion
      order: an existing key keeps its position and takes the new value. */
  function MapSet(entries: seq<Place>, p: Place): seq<Place> {
    var k := FirstIndex(entries, p.id);
    if k >= 0 then entries[k := p] else entries + [p]
  }

  /** `Array.from(new Map(ps.map(p => [p.id, p])).values())`. */
  function UniqueById(ps: seq<Place>): (r: seq<Place>)
    ensures |r| <= |ps|
  {
    if ps == [] then [] else MapSet(UniqueById(ps[..|ps| - 1]), ps[|ps| - 1])
  }

  predicate DistinctIds(ps: seq<Place>) {
    forall k, l :: 0 <= k < l < |ps| ==> ps[k].id != ps[l].id
  }

  /** Every id of the input has an entry. */
  predicate KeepsEveryId(ps: seq<Place>, r: seq<Place>) {
    forall i :: 0 <= i < |ps| ==> FirstIndex(r, ps[i].id) >= 0
  }

  /** Each entry is the last input place with its id. */
  predicate LastValueWins(ps: seq<Place>, r: seq<Place>) {
    forall k :: 0 <= k < |r| ==> LastIndex(ps, r[k].id) >= 0 && r[k] == ps[LastIndex(ps, r[k].id)]
  }

  /** Entries are ordered by the first occurrence of their ids. */
  predicate FirstOccurrenceOrder(ps: seq<Place>, r: seq<Place>) {
    forall k, l :: 0 <= k < l < |r| ==> FirstIndex(ps, r[k].id) < FirstIndex(ps, r[l].id)
  }

  /** What `UniqueById` returns, stated without reference to how it is built.
      These four facts determine the result. */
  predicate IsUniqueById(ps: seq<Place>, r: seq<Place>) {
    DistinctIds(r) && KeepsEveryId(ps, r) && LastValueWins(ps, r) && FirstOccurrenceOrder(ps, r)
  }

  lemma {:induction false} FirstIndexExtend(ps: seq<Place>, p: Place, id: real)
    requires FirstIndex(ps, id) >= 0
    ensures FirstIndex(ps + [p], id) == FirstIndex(ps, id)
  {
    var k := FirstIndex(ps + [p], id);
    var k0 := FirstIndex(ps, id);
    assert (ps + [p])[k0] == ps[k0];
  }

  lemma {:induction false} LastIndexExtend(ps: seq<Place>, p: Place, id: real)
    requires p.id != id
    ensures LastIndex(ps + [p], id) == LastIndex(ps, id)
  {
    assert (ps + [p])[..|ps|] == ps;
  }

  /** Every id the entries hold occurs in the input. */
  lemma {:induction false} EntriesOccur(ps: seq<Place>, r: seq<Place>)
    requires LastValueWins(ps, r)
    ensures forall k :: 0 <= k < |r| ==> FirstIndex(ps, r[k].id) >= 0
  {
    forall k | 0 <= k < |r| ensures FirstIndex(ps, r[k].id) >= 0 {
      assert ps[LastIndex(ps, r[k].id)].id == r[k].id;
    }
  }

  /** Appending a place whose id is already known keeps the first-occurrence
      order of the known ids. */
  lemma {:induction false} OrderExtend(init: seq<Place>, p: Place, r: seq<Place>)
    requires FirstOccurrenceOrder(init, r)
    requires forall k :: 0 <= k < |r| ==> FirstIndex(init, r[k].id) >= 0
    ensures FirstOccurrenceOrder(init + [p], r)
  {
    forall k | 0 <= k < |r| ensures FirstIndex(init + [p], r[k].id) == FirstIndex(init, r[k].id) {
      FirstIndexExtend(init, p, r[k].id);
    }
  }

  /** Replacing an entry by a place with the same id keeps every id. */
  lemma {:induction false} ReplaceKeepsEveryId(init: seq<Place>, prev: seq<Place>, p: Place, found: nat)
    requires KeepsEveryId(init, prev)
    requires found < |prev| && prev[found].id == p.id
    ensures KeepsEveryId(init + [p], prev[found := p])
  {
    var ps, r := init + [p], prev[found := p];
    forall i | 0 <= i < |ps| ensures FirstIndex(r, ps[i].id) >= 0 {
      if i < |init| {
        assert ps[i] == init[i];
        var j := FirstIndex(prev, init[i].id);
        assert r[j].id == prev[j].id;
      } else {
        assert r[found].id == p.id;
      }
    }
  }

  /** After the replacement every entry is still the last place with its id. */
  lemma {:induction false} ReplaceLastValueWins(init: seq<Place>, prev: seq<Place>, p: Place, found: nat)
    requires LastValueWins(init, prev) && DistinctIds(prev)
    requires found < |prev| && prev[found].id == p.id
    ensures LastValueWins(init + [p], prev[found := p])
  {
    var ps, r := init + [p], prev[found := p];
    forall k | 0 <= k < |r|
      ensures LastIndex(ps, r[k].id) >= 0 && r[k] == ps[LastIndex(ps, r[k].id)]
    {
      if k != found {
        assert r[k] == prev[k] && prev[k].id != p.id;
        LastIndexExtend(init, p, prev[k].id);
      } else {
        assert ps[|init|] == p;
      }
    }
  }

  /** `map.set` of an id already present replaces that entry in place. */
  lemma {:induction false} MapSetReplaces(init: seq<Place>, prev: seq<Place>, p: Place)
    requires IsUniqueById(init, prev)
    requires FirstIndex(prev, p.id) >= 0
    ensures IsUniqueById(init + [p], prev[FirstIndex(prev, p.id) := p])
  {
    var found := FirstIndex(prev, p.id);
    var r := prev[found := p];
    assert forall k :: 0 <= k < |r| ==> r[k].id == prev[k].id;
    assert DistinctIds(r);
    EntriesOccur(init, prev);
    OrderExtend(init, p, r);
    ReplaceKeepsEveryId(init, prev, p, found);
    ReplaceLastValueWins(init, prev, p, found);
  }

  /** A place whose id has no entry yet is new to the input. */
  lemma {:induction false} NewIdIsNew(init: seq<Place>, prev: seq<Place>, p: Place)
    requires KeepsEveryId(init, prev)
    requires FirstIndex(prev, p.id) < 0
    ensures forall i :: 0 <= i < |init| ==> init[i].id != p.id
  {
    forall i | 0 <= i < |init| ensures init[i].id != p.id {
      var j := FirstIndex(prev, init[i].id);
      assert prev[j].id == init[i].id;
    }
  }

  lemma {:induction false} AppendKeepsEveryId(init: seq<Place>, prev: seq<Place>, p: Place)
    requires KeepsEveryId(init, prev)
    ensures KeepsEveryId(init + [p], prev + [p])
  {
    var ps, r := init + [p], prev + [p];
    forall i | 0 <= i < |ps| ensures FirstIndex(r, ps[i].id) >= 0 {
      if i < |init| {
        assert ps[i] == init[i];
        var j := FirstIndex(prev, init[i].id);
        assert r[j].id == prev[j].id;
      } else {
        assert r[|prev|].id == p.id;
      }
    }
  }

  lemma {:induction false} AppendLastValueWins(init: seq<Place>, prev: seq<Place>, p: Place)
    requires LastValueWins(init, prev)
    requires forall k :: 0 <= k < |prev| ==> prev[k].id != p.id
    ensures LastValueWins(init + [p], prev + [p])
  {
    var ps, r := init + [p], prev + [p];
    forall k | 0 <= k < |r|
      ensures LastIndex(ps, r[k].id) >= 0 && r[k] == ps[LastIndex(ps, r[k].id)]
    {
      if k < |prev| {
        assert r[k] == prev[k];
        LastIndexExtend(init, p, prev[k].id);
      }
    }
  }

  lemma {:induction false} FirstIndexOfNew(init: seq<Place>, p: Place)
    requires forall i :: 0 <= i < |init| ==> init[i].id != p.id
    ensures FirstIndex(init + [p], p.id) == |init|
  {
    var ps := init + [p];
    var k := FirstIndex(ps, p.id);
    assert ps[|init|].id == p.id;
    assert forall j :: 0 <= j < |init| ==> ps[j] == init[j];
  }

  lemma {:induction false} AppendOrder(init: seq<Place>, prev: seq<Place>, p: Place)
    requires FirstOccurrenceOrder(init, prev)
    requires forall k :: 0 <= k < |prev| ==> FirstIndex(init, prev[k].id) >= 0
    requires forall i :: 0 <= i < |init| ==> init[i].id != p.id
    ensures FirstOccurrenceOrder(init + [p], prev + [p])
  {
    var ps, r := init + [p], prev + [p];
    FirstIndexOfNew(init, p);
    forall k | 0 <= k < |prev| ensures FirstIndex(ps, prev[k].id) == FirstIndex(init, prev[k].id) {
      FirstIndexExtend(init, p, prev[k].id);
    }
    assert forall k :: 0 <= k < |prev| ==> r[k] == prev[k];
    assert r[|prev|] == p;
  }

  /** `map.set` of a new id appends an entry. */
  lemma {:induction false} MapSetAppends(init: seq<Place>, prev: seq<Place>, p: Place)
    requires IsUniqueById(init, prev)
    requires FirstIndex(prev, p.id) < 0
    ensures IsUniqueById(init + [p], prev + [p])
  {
    assert DistinctIds(prev + [p]);
    NewIdIsNew(init, prev, p);
    EntriesOccur(init, prev);
    AppendKeepsEveryId(init, prev, p);
    AppendLastValueWins(init, prev, p);
    AppendOrder(init, prev, p);
  }

  lemma {:induction false} UniqueByIdIsUnique(ps: seq<Place>)
    ensures IsUniqueById(ps, UniqueById(ps))
  {
    if ps != [] {
      var init, p := ps[..|ps| - 1], ps[|ps| - 1];
      assert ps == init + [p];
      UniqueByIdIsUnique(init);
      var prev := UniqueById(init);
      if FirstIndex(prev, p.id) >= 0 {
        MapSetReplaces(init, prev, p);
      } else {
        MapSetAppends(init, prev, p);
      }
    }
  }

  /** The de-duplicated places have no repeated id and keep every id. */
  lemma {:induction false} UniqueByIdIds(ps: seq<Place>)
    ensures DistinctIds(UniqueById(ps))
    ensures Ids(UniqueById(ps)) == Ids(ps)
  {
    var r := UniqueById(ps);
    UniqueByIdIsUnique(ps);
    forall x | x in Ids(ps) ensures x in Ids(r) {
      var i :| 0 <= i < |ps| && ps[i].id == x;
      var j := FirstIndex(r, x);
      assert r[j].id == x;
    }
    forall x | x in Ids(r) ensures x in Ids(ps) {
      var k :| 0 <= k < |r| && r[k].id == x;
      var j := LastIndex(ps, x);
      assert ps[j].id == x;
    }
  }

  // ---------------------------------------------------------------------------
  // User-facing texts
  // ---------------------------------------------------------------------------

  /** The notice after a search that found nothing. The radius of 10000
      metres is shown as `radius / 1000` kilometres. */
  function NoPlacesMessage(displayName: string): string {
    "No " + Lower(displayName) + " found within 10km."
  }

  const TimedOutMessage := "Fetching locations timed out. Please try again."
  const UnknownFetchErrorMessage := "An unknown error occurred while fetching locations."
  const UnreadableBodyText := "Failed to read error body"

  /** `error.message || "An unknown error occurred while fetching locations."`. */
  function FetchErrorMessage(message: string): (r: string)
    ensures r != []
    ensures message != [] ==> r == message
    ensures message == [] ==> r == UnknownFetchErrorMessage
  {
    if message == [] then UnknownFetchErrorMessage else message
  }

  /** The message thrown for a non-ok HTTP status, with at most the first
      150 characters of the response body (or a placeholder when the body
      cannot be read). */
  function HttpFailureMessage(status: nat, statusText: string, body: Option<string>): (r: string)
    ensures var head := "Overpass API request failed: " + NatToString(status) + " " + statusText + ". ";
      var shown := if body.Some? then body.value else UnreadableBodyText;
      && |head| <= |r|
      && r[..|head|] == head
      && r[|head|..] <= shown
      && |r| - |head| == (if |shown| < 150 then |shown| else 150)
  {
    var shown := if body.Some? then body.value else UnreadableBodyText;
    "Overpass API request failed: " + NatToString(status) + " " + statusText + ". "
    + (if |shown| <= 150 then shown else shown[..150])
  }

  // Geolocation errors

  /** The `code` values of a GeolocationPositionError. */
  const PermissionDenied := 1
  const PositionUnavailable := 2
  const Timeout := 3

  const GeolocationUnsupportedMessage := "Geolocation is not supported. Showing default location."
  const DefaultLocationSuffix := " Showing default location."
  const GeoErrorPrefix := "Could not get your location."

  /** The reason each GeolocationPositionError code adds to the notice. */
  function GeoErrorReason(code: int): (r: string)
    ensures code == PermissionDenied ==> r == " Permission denied."
    ensures code == PositionUnavailable ==> r == " Position unavailable."
    ensures code == Timeout ==> r == " Request timed out."
    ensures code !in {PermissionDenied, PositionUnavailable, Timeout} ==> r == " An unknown error occurred."
  {
    if code == PermissionDenied then " Permission denied."
    else if code == PositionUnavailable then " Position unavailable."
    else if code == Timeout then " Request timed out."
    else " An unknown error occurred."
  }

  /** The notice shown when the one-shot position request fails: the code's
      reason between the fixed opening and the default-location suffix. */
  function GeoErrorMessage(code: int): (r: string)
    ensures |r| > |GeoErrorPrefix| + |DefaultLocationSuffix|
    ensures r[..|GeoErrorPrefix|] == GeoErrorPrefix
    ensures r[|r| - |DefaultLocationSuffix|..] == DefaultLocationSuffix
    ensures r[|GeoErrorPrefix|..|r| - |DefaultLocationSuffix|] == GeoErrorReason(code)
  {
    GeoErrorPrefix + GeoErrorReason(code) + DefaultLocationSuffix
  }

  /** The three known codes give three different notices, and every other
      code gives the notice of an unknown error. */
  lemma {:induction false} GeoErrorMessagesDistinct(c1: int, c2: int)
    requires c1 in {PermissionDenied, PositionUnavailable, Timeout}
    requires c1 != c2
    ensures GeoErrorMessage(c1) != GeoErrorMessage(c2)
  {
    var r1, r2 := GeoErrorReason(c1), GeoErrorReason(c2);
    var m1, m2 := GeoErrorMessage(c1), GeoErrorMessage(c2);
    assert |r1| != |r2| || r1[1] != r2[1];
    assert r1 == m1[|GeoErrorPrefix|..|m1| - |DefaultLocationSuffix|];
    assert r2 == m2[|GeoErrorPrefix|..|m2| - |DefaultLocationSuffix|];
  }

  // Routing errors

  const UnknownRoutingError := "Unknown routing error"
  const NoRouteText := "could not find route"
  const BadBoundsText := "bounds are not valid"
  const UnreachableMessage := "Could not find a route between these locations. The destination might be unreachable by car or too far."
  const InvalidBoundsMessage := "Routing failed (Invalid Bounds). This might happen if no route exists or due to a server issue."
  const RetrySuffix := " Please try again or check connection."
  const NoRouteStatus := 207

  /** `error?.message || "Unknown routing error"`. */
  function RoutingErrorText(message: Option<string>): (m: string)
    ensures m != []
    ensures message.Some? && message.value != [] ==> m == message.value
    ensures message.None? || message.value == [] ==> m == UnknownRoutingError
  {
    if message.Some? && message.value != [] then message.value else UnknownRoutingError
  }

  /** The user-facing text for a routing error with text `m`: the
      classification by keyword or status, then the retry hint. */
  function UserRouteMessage(m: string, status: Option<int>): (r: string)
    ensures var unreachable := Contains(Lower(m), NoRouteText) || status == Some(NoRouteStatus);
      && (unreachable ==> r == UnreachableMessage + RetrySuffix)
      && (!unreachable && Contains(Lower(m), BadBoundsText) ==> r == InvalidBoundsMessage + RetrySuffix)
      && (!unreachable && !Contains(Lower(m), BadBoundsText) ==> r == "Routing failed: " + m + "." + RetrySuffix)
    ensures |r| > |RetrySuffix| && r[|r| - |RetrySuffix|..] == RetrySuffix
  {
    var userMessage :=
      if Contains(Lower(m), NoRouteText) || status == Some(NoRouteStatus) then UnreachableMessage
      else if Contains(Lower(m), BadBoundsText) then InvalidBoundsMessage
      else "Routing failed: " + m + ".";
    userMessage + RetrySuffix
  }

  /** The text reported for a `routingerror` event. */
  function RouteErrorMessage(message: Option<string>, status: Option<int>): (r: string)
    ensures var m := RoutingErrorText(message);
      var unreachable := Contains(Lower(m), NoRouteText) || status == Some(NoRouteStatus);
      && (unreachable ==> r == UnreachableMessage + RetrySuffix)
      && (!unreachable && Contains(Lower(m), BadBoundsText) ==> r == InvalidBoundsMessage + RetrySuffix)
      && (!unreachable && !Contains(Lower(m), BadBoundsText) ==> r == "Routing failed: " + m + "." + RetrySuffix)
    ensures |r| > |RetrySuffix| && r[|r| - |RetrySuffix|..] == RetrySuffix
  {
    UserRouteMessage(RoutingErrorText(message), status)
  }
}
