// The JSON scene loader. A scene file is one JSON object describing a root
// object: its nested objects become child objects, named by their keys, and
// its `_materials` object defines named materials that the object and
// everything below it can refer to by name. The JSON reader is the ucm
// library's and is not modelled: a document is the tree of values it yields,
// each object's properties in the order the reader lists them.
module SceneLoader {
  import opened Base
  import opened Meshes
  import opened Materials
  import opened SceneGraph
  import opened ScenePool
  import Polygons

  // ---- JSON values ----

  /** A JSON value by its `JSType`; `JsUnknown` is also what a missing property reads as. */
  datatype JsValue =
    | JsUnknown
    | JsNumber(number: real)
    | JsString(str: string)
    | JsBoolean(boolean: bool)
    | JsArray(items: seq<JsValue>)
    | JsObject(props: seq<Property>)

  datatype Property = Property(key: string, value: JsValue)

  /** `getProperty`: the value of the first property with the key, else an unknown value. */
  function GetProperty(obj: seq<Property>, name: string): (r: JsValue)
    ensures r != JsUnknown ==> exists i :: 0 <= i < |obj| && obj[i] == Property(name, r)
    ensures (forall i :: 0 <= i < |obj| ==> obj[i].key != name) ==> r == JsUnknown
  {
    if obj == [] then JsUnknown
    else if obj[0].key == name then obj[0].value
    else
      var r := GetProperty(obj[1..], name);
      assert r != JsUnknown ==> exists i :: 0 <= i < |obj[1..]| && obj[1..][i] == Property(name, r);
      r
  }

  /** Of several properties with one key, the first is the one read. */
  lemma {:induction false} GetPropertyIsFirst(obj: seq<Property>, name: string, i: nat)
    requires i < |obj| && obj[i].key == name && forall j :: 0 <= j < i ==> obj[j].key != name
    ensures GetProperty(obj, name) == obj[i].value
    decreases i
  {
    if i > 0 {
      GetPropertyIsFirst(obj[1..], name, i - 1);
    }
  }

  /** `getNumberProperty(name, default)`. */
  function NumberProperty(obj: seq<Property>, name: string, default: real): real
  {
    match GetProperty(obj, name)
    case JsNumber(n) => n
    case _ => default
  }

  /** `getStringProperty`: the string, when the property holds one. */
  function StringProperty(obj: seq<Property>, name: string): Option<string>
  {
    match GetProperty(obj, name)
    case JsString(s) => Some(s)
    case _ => None
  }

  /** The `number` field of an array element read without looking at its type; a non-number reads as 0. */
  function NumberOf(v: JsValue): real
  {
    if v.JsNumber? then v.number else 0.0
  }

  // ---- paths ----

  /** `setBasePath`: a non-empty path is made to end with the splitter. */
  function WithSplitter(path: string): (r: string)
    ensures path <= r && |r| <= |path| + 1
    ensures path != [] ==> r[|r| - 1] == PathSplitter
    ensures path == [] ==> r == []
  {
    if |path| > 0 && path[|path| - 1] != PathSplitter then path + [PathSplitter] else path
  }

  lemma WithSplitterIdempotent(path: string)
    ensures WithSplitter(WithSplitter(path)) == WithSplitter(path)
  {
  }

  /** Bundle references and absolute paths, which `transformPath` leaves alone. */
  predicate IsRooted(input: string)
  {
    "sob://" <= input || "tob://" <= input || "/" <= input || "\\" <= input
  }

  /** `transformPath`: a relative path is put below the base path, joined by a splitter. */
  function TransformPath(basePath: string, input: string): (r: string)
    ensures |input| <= |r| && r[|r| - |input|..] == input
    ensures IsRooted(input) ==> r == input
    ensures !IsRooted(input) ==> r[..|r| - |input|] == basePath + [PathSplitter]
  {
    if IsRooted(input) then input else basePath + [PathSplitter] + input
  }

  /** The base path already ends with the splitter, so a relative path is joined with two of them. */
  lemma RelativePathJoinsTwice(dir: string, input: string)
    requires dir != [] && !IsRooted(input)
    ensures var b := WithSplitter(dir); var r := TransformPath(b, input);
      r == b + [PathSplitter] + input && r[|b| - 1] == PathSplitter && r[|b|] == PathSplitter
  {
  }

  /** Without a base path a relative path becomes absolute, and transforming it again changes nothing. */
  lemma NoBasePathRoots(basePath: string, input: string)
    requires !IsRooted(input)
    ensures TransformPath("", input) == [PathSplitter] + input && IsRooted(TransformPath("", input))
    ensures TransformPath(basePath, TransformPath("", input)) == TransformPath("", input)
  {
    assert "/" <= [PathSplitter] + input;
  }

  // ---- colours ----

  /**
   * What `tryParseColorString` hands to `hex2dec`: the digits, whether the
   * colour has an alpha channel (`tocolor4f`) and whether the 3- and 4-digit
   * forms double the decoded number.
   */
  datatype HexColor = HexColor(digits: string, hasAlpha: bool, doubled: bool)

  /** The digits: the string without its `#` when it is 4, 5, 7 or 9 long and starts with one. */
  function HexDigits(s: string): (r: string)
    ensures r == s || (|s| > 0 && s[0] == '#' && r == s[1..])
  {
    if (|s| == 4 || |s| == 5 || |s| == 7 || |s| == 9) && s[0] == '#' then s[1..] else s
  }

  /** `tryParseColorString`; the hexadecimal decoding itself belongs to the ugm library and is not modelled. */
  function TryParseColorString(s: string): (r: Option<HexColor>)
    ensures r.Some? <==> |s| >= 3 && |HexDigits(s)| in {3, 4, 6, 8}
    ensures r.Some? ==> r.value.digits == HexDigits(s)
    ensures r.Some? ==> (r.value.hasAlpha <==> |r.value.digits| in {4, 8}) && (r.value.doubled <==> |r.value.digits| < 6)
  {
    if |s| < 3 then None
    else
      var d := HexDigits(s);
      if |d| == 3 then Some(HexColor(d, false, true))
      else if |d| == 4 then Some(HexColor(d, true, true))
      else if |d| == 6 then Some(HexColor(d, false, false))
      else if |d| == 8 then Some(HexColor(d, true, false))
      else None
  }

  /**
   * The `#` is optional: with or without it, 3, 4, 6 or 8 digits parse as
   * those digits (digits that begin with a `#` of their own lose it instead).
   */
  lemma HashIsOptional(d: string)
    requires |d| in {3, 4, 6, 8} && d[0] != '#'
    ensures TryParseColorString(['#'] + d) == TryParseColorString(d)
    ensures TryParseColorString(d).Some? && TryParseColorString(d).value.digits == d
  {
    assert (['#'] + d)[1..] == d;
    assert |['#'] + d| in {4, 5, 7, 9};
    assert HexDigits(['#'] + d) == d;
  }

  /** At the other lengths that parse, a leading `#` is not stripped but read as a digit. */
  lemma HashReadAsDigit(d: string)
    requires |d| in {2, 5, 7}
    ensures TryParseColorString(['#'] + d).Some? && TryParseColorString(['#'] + d).value.digits == ['#'] + d
  {
  }

  /** The colour conversions of the ugm library: of parsed digits (or of a blank colour), and the blank `color4f`. */
  datatype ColorModel = ColorModel(fromHex: Option<HexColor> -> Color3, blank: Color4)

  function ToColor3(c: Color4): Color3
  {
    Color3(c.r, c.g, c.b)
  }

  /** `readColorArray` starting from the colour `c`: r, g, b from an array of three or more, a from one of four or more. */
  function ReadColorArray(items: seq<JsValue>, c: Color4): (r: Color4)
    ensures |items| < 3 ==> r == c
    ensures |items| < 4 ==> r.a == c.a
    ensures |items| >= 3 ==> r.r == (if items[0].JsNumber? then items[0].number else c.r)
    ensures |items| >= 3 ==> r.g == (if items[1].JsNumber? then items[1].number else c.g)
    ensures |items| >= 3 ==> r.b == (if items[2].JsNumber? then items[2].number else c.b)
    ensures |items| >= 4 ==> r.a == (if items[3].JsNumber? then items[3].number else c.a)
  {
    var c1 :=
      if |items| >= 3 then
        Color4(if items[0].JsNumber? then items[0].number else c.r,
               if items[1].JsNumber? then items[1].number else c.g,
               if items[2].JsNumber? then items[2].number else c.b, c.a)
      else c;
    if |items| >= 4 && items[3].JsNumber? then c1.(a := items[3].number) else c1
  }

  /** A colour written as an array of its four numbers reads back as itself, whatever the start colour. */
  lemma ColorArrayRoundTrip(col: Color4, c: Color4)
    ensures ReadColorArray([JsNumber(col.r), JsNumber(col.g), JsNumber(col.b), JsNumber(col.a)], c) == col
  {
  }

  // ---- vectors ----

  /** The property reads as a vector of `n` components: an array of at least `n`, or any object. */
  predicate ReadsAsVec(val: JsValue, n: nat)
  {
    (val.JsArray? && |val.items| >= n) || val.JsObject?
  }

  /**
   * `tryReadVec3Property` as written: the array form takes the first three
   * numbers; the object form reads x, y, z (default 0) from `obj`, the object
   * that holds the property, not from the property's own object.
   */
  function TryReadVec3PropertyAsWritten(obj: seq<Property>, name: string, v: Vec3): (r: (bool, Vec3))
    ensures r.0 <==> ReadsAsVec(GetProperty(obj, name), 3)
    ensures !r.0 ==> r.1 == v
  {
    match GetProperty(obj, name)
    case JsArray(items) =>
      if |items| >= 3 then (true, Vec3(NumberOf(items[0]), NumberOf(items[1]), NumberOf(items[2]))) else (false, v)
    case JsObject(_) =>
      (true, Vec3(NumberProperty(obj, "x", 0.0), NumberProperty(obj, "y", 0.0), NumberProperty(obj, "z", 0.0)))
    case _ => (false, v)
  }

  /** `tryReadVec3Property` as evidently intended: the object form reads the property's own object. */
  function TryReadVec3Property(obj: seq<Property>, name: string, v: Vec3): (r: (bool, Vec3))
    ensures r.0 <==> ReadsAsVec(GetProperty(obj, name), 3)
    ensures !r.0 ==> r.1 == v
  {
    match GetProperty(obj, name)
    case JsArray(items) =>
      if |items| >= 3 then (true, Vec3(NumberOf(items[0]), NumberOf(items[1]), NumberOf(items[2]))) else (false, v)
    case JsObject(o) =>
      (true, Vec3(NumberProperty(o, "x", 0.0), NumberProperty(o, "y", 0.0), NumberProperty(o, "z", 0.0)))
    case _ => (false, v)
  }

  /** `tryReadVec2Property` as written: the object form reads x, y from the enclosing object. */
  function TryReadVec2PropertyAsWritten(obj: seq<Property>, name: string, v: Vec2): (r: (bool, Vec2))
    ensures r.0 <==> ReadsAsVec(GetProperty(obj, name), 2)
    ensures !r.0 ==> r.1 == v
  {
    match GetProperty(obj, name)
    case JsArray(items) =>
      if |items| >= 2 then (true, Vec2(NumberOf(items[0]), NumberOf(items[1]))) else (false, v)
    case JsObject(_) => (true, Vec2(NumberProperty(obj, "x", 0.0), NumberProperty(obj, "y", 0.0)))
    case _ => (false, v)
  }

  /** `tryReadVec2Property` as evidently intended. */
  function TryReadVec2Property(obj: seq<Property>, name: string, v: Vec2): (r: (bool, Vec2))
    ensures r.0 <==> ReadsAsVec(GetProperty(obj, name), 2)
    ensures !r.0 ==> r.1 == v
  {
    match GetProperty(obj, name)
    case JsArray(items) =>
      if |items| >= 2 then (true, Vec2(NumberOf(items[0]), NumberOf(items[1]))) else (false, v)
    case JsObject(o) => (true, Vec2(NumberProperty(o, "x", 0.0), NumberProperty(o, "y", 0.0)))
    case _ => (false, v)
  }

  function Vec3Array(v: Vec3): JsValue { JsArray([JsNumber(v.x), JsNumber(v.y), JsNumber(v.z)]) }
  function Vec3Object(v: Vec3): JsValue { JsObject([Property("x", JsNumber(v.x)), Property("y", JsNumber(v.y)), Property("z", JsNumber(v.z))]) }
  function Vec2Array(v: Vec2): JsValue { JsArray([JsNumber(v.x), JsNumber(v.y)]) }
  function Vec2Object(v: Vec2): JsValue { JsObject([Property("x", JsNumber(v.x)), Property("y", JsNumber(v.y))]) }

  /** A vector written in either form reads back as itself. */
  lemma Vec3RoundTrip(name: string, v: Vec3, w: Vec3)
    ensures TryReadVec3Property([Property(name, Vec3Array(v))], name, w) == (true, v)
    ensures TryReadVec3Property([Property(name, Vec3Object(v))], name, w) == (true, v)
    ensures TryReadVec3PropertyAsWritten([Property(name, Vec3Array(v))], name, w) == (true, v)
  {
    var o := Vec3Object(v).props;
    GetPropertyIsFirst(o, "y", 1);
    GetPropertyIsFirst(o, "z", 2);
  }

  lemma Vec2RoundTrip(name: string, v: Vec2, w: Vec2)
    ensures TryReadVec2Property([Property(name, Vec2Array(v))], name, w) == (true, v)
    ensures TryReadVec2Property([Property(name, Vec2Object(v))], name, w) == (true, v)
    ensures TryReadVec2PropertyAsWritten([Property(name, Vec2Array(v))], name, w) == (true, v)
  {
    GetPropertyIsFirst(Vec2Object(v).props, "y", 1);
  }

  /** As written, the object form loses the vector: `{"location": {"x": 1, "y": 2, "z": 3}}` reads as the origin. */
  lemma ObjectFormIsLost()
    ensures var obj := [Property("location", Vec3Object(Vec3(1.0, 2.0, 3.0)))];
      TryReadVec3PropertyAsWritten(obj, "location", Zero3) == (true, Zero3)
      && TryReadVec3Property(obj, "location", Zero3) == (true, Vec3(1.0, 2.0, 3.0))
  {
    Vec3RoundTrip("location", Vec3(1.0, 2.0, 3.0), Zero3);
  }

  /** Likewise texture tiling `{"x": 2, "y": 2}` reads as (0, 0). */
  lemma TilingObjectFormIsLost()
    ensures var obj := [Property("texTiling", Vec2Object(Vec2(2.0, 2.0)))];
      TryReadVec2PropertyAsWritten(obj, "texTiling", Vec2(1.0, 1.0)) == (true, Zero2)
      && TryReadVec2Property(obj, "texTiling", Vec2(1.0, 1.0)) == (true, Vec2(2.0, 2.0))
  {
    Vec2RoundTrip("texTiling", Vec2(2.0, 2.0), Vec2(1.0, 1.0));
  }

  /** As written, the object form's result does not depend on the object at all, only on its siblings. */
  lemma AsWrittenIgnoresObject(obj: seq<Property>, name: string, a: seq<Property>, b: seq<Property>, v: Vec3)
    requires name !in {"x", "y", "z"}
    ensures TryReadVec3PropertyAsWritten([Property(name, JsObject(a))] + obj, name, v)
         == TryReadVec3PropertyAsWritten([Property(name, JsObject(b))] + obj, name, v)
  {
    var oa, ob := [Property(name, JsObject(a))] + obj, [Property(name, JsObject(b))] + obj;
    assert oa[1..] == obj == ob[1..];
  }

  // ---- cameras ----

  /** The camera section of `readSceneObject`: numbers for the three settings, a non-empty string for the focus. */
  function ReadCameraSettings(c: CameraSettings, obj: seq<Property>): (r: CameraSettings)
    ensures r.viewNear == c.viewNear && r.viewFar == c.viewFar
    ensures GetProperty(obj, "fieldOfView").JsNumber? ==> r.fieldOfView == GetProperty(obj, "fieldOfView").number
    ensures !GetProperty(obj, "fieldOfView").JsNumber? ==> r.fieldOfView == c.fieldOfView
    ensures GetProperty(obj, "depthOfField").JsNumber? ==> r.depthOfField == GetProperty(obj, "depthOfField").number
    ensures !GetProperty(obj, "depthOfField").JsNumber? ==> r.depthOfField == c.depthOfField
    ensures GetProperty(obj, "aperture").JsNumber? ==> r.aperture == GetProperty(obj, "aperture").number
    ensures !GetProperty(obj, "aperture").JsNumber? ==> r.aperture == c.aperture
    ensures StringProperty(obj, "focusOn").Some? && StringProperty(obj, "focusOn").value != "" ==>
      r.focusOnObjectName == StringProperty(obj, "focusOn").value
    ensures StringProperty(obj, "focusOn") in {None, Some("")} ==> r.focusOnObjectName == c.focusOnObjectName
  {
    var focus := match StringProperty(obj, "focusOn") case Some(s) => if s != "" then s else c.focusOnObjectName case None => c.focusOnObjectName;
    c.(fieldOfView := NumberProperty(obj, "fieldOfView", c.fieldOfView),
       depthOfField := NumberProperty(obj, "depthOfField", c.depthOfField),
       aperture := NumberProperty(obj, "aperture", c.aperture),
       focusOnObjectName := focus)
  }

  lemma CameraSettingsWithoutPropertiesKept(c: CameraSettings)
    ensures ReadCameraSettings(c, []) == c
  {
  }

  /** The camera properties of an object read back as the settings they were written from, the view range kept. */
  lemma CameraSettingsRoundTrip(c: CameraSettings, w: CameraSettings)
    requires w.focusOnObjectName != ""
    ensures var obj := [Property("fieldOfView", JsNumber(w.fieldOfView)), Property("depthOfField", JsNumber(w.depthOfField)),
                        Property("aperture", JsNumber(w.aperture)), Property("focusOn", JsString(w.focusOnObjectName))];
      ReadCameraSettings(c, obj) == w.(viewNear := c.viewNear, viewFar := c.viewFar)
  {
    var obj := [Property("fieldOfView", JsNumber(w.fieldOfView)), Property("depthOfField", JsNumber(w.depthOfField)),
                Property("aperture", JsNumber(w.aperture)), Property("focusOn", JsString(w.focusOnObjectName))];
    GetPropertyIsFirst(obj, "depthOfField", 1);
    GetPropertyIsFirst(obj, "aperture", 2);
    GetPropertyIsFirst(obj, "focusOn", 3);
  }

  // ---- materials ----

  /** The `tex` path, when it is a non-empty string. */
  function TexturePathOf(jsmat: seq<Property>): Option<string>
  {
    match StringProperty(jsmat, "tex")
    case Some(s) => if |s| > 0 then Some(s) else None
    case None => None
  }

  /**
   * `readMaterial` on `mat`, `tex` being what the pool answered for the
   * texture: the texture, the normal-map path, the tiling, the eight numbers,
   * then the colour, from a string (assigned whether or not it parses) or an
   * array.
   */
  function MaterialRead(mat: Material, jsmat: seq<Property>, basePath: string, tex: Option<TextureRef>, colors: ColorModel): (r: Material)
    ensures r.name == mat.name && r.isLoaded == mat.isLoaded && r.normalmap == mat.normalmap
    ensures TexturePathOf(jsmat).None? ==> r.texture == mat.texture && r.texturePath == mat.texturePath
    ensures TexturePathOf(jsmat).Some? ==> r.texture == tex && r.texturePath == TransformPath(basePath, TexturePathOf(jsmat).value)
    ensures !GetProperty(jsmat, "color").JsString? && !GetProperty(jsmat, "color").JsArray? ==> r.color == mat.color
  {
    var m1 := if TexturePathOf(jsmat).Some? then mat.(texturePath := TransformPath(basePath, TexturePathOf(jsmat).value), texture := tex) else mat;
    var m2 := match StringProperty(jsmat, "normalmap") case Some(s) => if |s| > 0 then m1.(normalmapPath := s) else m1 case None => m1;
    var m3 := m2.(texTiling := TryReadVec2Property(jsmat, "texTiling", m2.texTiling).1);
    var m4 := m3.(emission := NumberProperty(jsmat, "emission", m3.emission),
                  glossy := NumberProperty(jsmat, "glossy", m3.glossy),
                  roughness := NumberProperty(jsmat, "roughness", m3.roughness),
                  transparency := NumberProperty(jsmat, "transparency", m3.transparency),
                  refraction := NumberProperty(jsmat, "refraction", m3.refraction),
                  refractionRatio := NumberProperty(jsmat, "refractionRatio", m3.refractionRatio),
                  spotRange := NumberProperty(jsmat, "spotRange", m3.spotRange),
                  normalMipmap := NumberProperty(jsmat, "normalMipmap", m3.normalMipmap));
    match GetProperty(jsmat, "color")
    case JsString(s) => m4.(color := colors.fromHex(TryParseColorString(s)))
    case JsArray(items) => m4.(color := ToColor3(ReadColorArray(items, colors.blank)))
    case _ => m4
  }

  /** An empty material object changes nothing. */
  lemma EmptyMaterialObjectKeeps(mat: Material, basePath: string, tex: Option<TextureRef>, colors: ColorModel)
    ensures MaterialRead(mat, [], basePath, tex, colors) == mat
  {
  }

  /** A colour string that does not parse still replaces the colour, by the conversion of a blank colour. */
  lemma UnparsedColorStillAssigned(mat: Material, s: string, basePath: string, tex: Option<TextureRef>, colors: ColorModel)
    requires |s| < 3
    ensures MaterialRead(mat, [Property("color", JsString(s))], basePath, tex, colors).color == colors.fromHex(None)
  {
  }

  /** The material a name means on the stack of scopes: the innermost (last pushed) scope defining it wins. */
  function MaterialIn(stack: seq<map<string, Material>>, name: string): Option<Material>
    decreases |stack|
  {
    if stack == [] then None
    else if name in stack[|stack| - 1] then Some(stack[|stack| - 1][name])
    else MaterialIn(stack[..|stack| - 1], name)
  }

  lemma {:induction false} MaterialInInnermost(stack: seq<map<string, Material>>, name: string, i: nat)
    requires i < |stack| && name in stack[i] && forall j :: i < j < |stack| ==> name !in stack[j]
    ensures MaterialIn(stack, name) == Some(stack[i][name])
    decreases |stack|
  {
    if i < |stack| - 1 {
      MaterialInInnermost(stack[..|stack| - 1], name, i);
    }
  }

  lemma {:induction false} MaterialInAbsent(stack: seq<map<string, Material>>, name: string)
    ensures MaterialIn(stack, name).None? <==> forall i :: 0 <= i < |stack| ==> name !in stack[i]
    decreases |stack|
  {
    if stack != [] {
      var init := stack[..|stack| - 1];
      MaterialInAbsent(init, name);
      assert forall i :: 0 <= i < |init| ==> init[i] == stack[i];
    }
  }

  /** A new, empty scope changes what no name means. */
  lemma EmptyScopeHidesNothing(stack: seq<map<string, Material>>, name: string)
    ensures MaterialIn(stack + [map[]], name) == MaterialIn(stack, name)
  {
    assert (stack + [map[]])[..|stack|] == stack;
  }

  /** The names `readMaterialDefines` defines: the keys of the object-valued properties. */
  function DefinedNames(defs: seq<Property>): set<string>
  {
    set i | 0 <= i < |defs| && defs[i].value.JsObject? :: defs[i].key
  }

  lemma DefinedNamesStep(defs: seq<Property>, i: nat)
    requires i < |defs|
    ensures DefinedNames(defs[..i + 1]) == DefinedNames(defs[..i]) + if defs[i].value.JsObject? then {defs[i].key} else {}
  {
    assert forall j :: 0 <= j < i ==> defs[..i + 1][j] == defs[..i][j];
  }

  lemma LastDefinitionStep(defs: seq<Property>, i: nat, name: string)
    requires i < |defs|
    ensures LastDefinition(defs[..i + 1], name)
      == if defs[i].key == name && defs[i].value.JsObject? then Some(defs[i].value.props) else LastDefinition(defs[..i], name)
  {
    assert defs[..i + 1][..i] == defs[..i] && defs[..i + 1][i] == defs[i];
  }

  /** How one definition is read: the default material named by its key, read from its object. */
  function DefinitionReader(basePath: string, colors: ColorModel): (string, seq<Property>, Option<TextureRef>) -> Material
  {
    (key, jsmat, tex) => MaterialRead(DefaultMaterial.(name := key), jsmat, basePath, tex, colors)
  }

  /**
   * `top` is the scope `before` after the definitions `defs`, each read by
   * `read`: it gains their names, each read from its last definition, and
   * keeps every other material.
   */
  ghost predicate Defines(top: map<string, Material>, before: map<string, Material>, defs: seq<Property>,
                          read: (string, seq<Property>, Option<TextureRef>) -> Material)
  {
    && top.Keys == before.Keys + DefinedNames(defs)
    && (forall k :: k in DefinedNames(defs) ==> top[k] == read(k, LastDefinition(defs, k).value, top[k].texture))
    && (forall k :: k in before && k !in DefinedNames(defs) ==> top[k] == before[k])
  }

  /** One more definition: an object-valued property replaces its key's material, any other changes nothing. */
  lemma DefinesStep(top: map<string, Material>, before: map<string, Material>, defs: seq<Property>, i: nat,
                    top': map<string, Material>, read: (string, seq<Property>, Option<TextureRef>) -> Material)
    requires i < |defs| && Defines(top, before, defs[..i], read)
    requires !defs[i].value.JsObject? ==> top' == top
    requires defs[i].value.JsObject? ==>
      var key := defs[i].key;
      key in top' && top' == top[key := top'[key]] && top'[key] == read(key, defs[i].value.props, top'[key].texture)
    ensures Defines(top', before, defs[..i + 1], read)
  {
    DefinedNamesStep(defs, i);
    forall k {
      LastDefinitionStep(defs, i, k);
    }
  }

  /** The object of the last definition of `name`: a later definition replaces an earlier one. */
  function LastDefinition(defs: seq<Property>, name: string): (r: Option<seq<Property>>)
    ensures r.Some? <==> name in DefinedNames(defs)
    decreases |defs|
  {
    if defs == [] then None
    else
      var last := defs[|defs| - 1];
      DefinedNamesStep(defs, |defs| - 1);
      assert defs[..|defs|] == defs;
      if last.key == name && last.value.JsObject? then Some(last.value.props)
      else LastDefinition(defs[..|defs| - 1], name)
  }

  // ---- objects ----

  /** The keys the property loop of `readSceneObject` handles itself, whatever their value. */
  predicate IsOwnKey(key: string)
  {
    key in {"_materials", "_bundles", "location", "angle", "scale", "mesh", "mat", "_generateLightmap"}
  }

  const MainCameraName: string := "mainCamera"

  /** Every other object-valued property becomes a child object, `mainCamera` and `visible` included. */
  predicate Spawns(p: Property)
  {
    p.value.JsObject? && !IsOwnKey(p.key)
  }

  /** `(int)getNumberProperty("type")`: the number truncated toward zero. */
  function TypeCode(obj: seq<Property>): int
  {
    var n := NumberProperty(obj, "type", 0.0);
    if n >= 0.0 then n.Floor else -((-n).Floor)
  }

  /** The child is a `Camera`: the main camera, or an object of type 801. */
  predicate SpawnsCamera(p: Property)
    requires p.value.JsObject?
  {
    p.key == MainCameraName || TypeCode(p.value.props) == 801
  }

  /** The child is a `ReflectionMapObject` (type 15), which starts invisible. */
  predicate SpawnsHidden(p: Property)
    requires p.value.JsObject?
  {
    p.key != MainCameraName && TypeCode(p.value.props) == 15
  }

  /** The children an object's properties create, in order: each one's name and whether it is a camera. */
  function Children(props: seq<Property>): (r: seq<(string, bool)>)
    ensures |r| <= |props|
    decreases |props|
  {
    if props == [] then []
    else
      var p := props[|props| - 1];
      Children(props[..|props| - 1]) + if Spawns(p) then [(p.key, SpawnsCamera(p))] else []
  }

  /** The children of consecutive properties are those of each, in order. */
  lemma {:induction false} ChildrenAppend(a: seq<Property>, b: seq<Property>)
    ensures Children(a + b) == Children(a) + Children(b)
    decreases |b|
  {
    if b == [] {
      assert a + b == a;
    } else {
      var b' := b[..|b| - 1];
      assert (a + b)[..|a + b| - 1] == a + b';
      ChildrenAppend(a, b');
    }
  }

  /** A property that is not an object, or is one the loop handles itself, creates no child. */
  lemma ChildrenOfOne(p: Property)
    ensures Children([p]) == if Spawns(p) then [(p.key, SpawnsCamera(p))] else []
  {
    assert [p][..0] == [];
  }

  /** The names of a forest's roots, and which of them are cameras. */
  function Spawned(ts: seq<Node>): (r: seq<(string, bool)>)
    ensures |r| == |ts| && forall i :: 0 <= i < |ts| ==> r[i] == (ts[i].name, ts[i].isCamera)
  {
    seq(|ts|, i requires 0 <= i < |ts| => (ts[i].name, ts[i].isCamera))
  }

  lemma SpawnedAppend(ts: seq<Node>, t: Node)
    ensures Spawned(ts + [t]) == Spawned(ts) + [(t.name, t.isCamera)]
  {
  }

  /** The meshes a `mesh` property adds: one per path, or one primitive for a plane or a cube. */
  function MeshCount(v: JsValue): nat
  {
    match v
    case JsString(_) => 1
    case JsArray(items) => PathCount(items)
    case JsObject(o) => if StringProperty(o, "type") in {Some("plane"), Some("cube")} then 1 else 0
    case _ => 0
  }

  function PathCount(items: seq<JsValue>): nat
    decreases |items|
  {
    if items == [] then 0 else PathCount(items[..|items| - 1]) + if items[|items| - 1].JsString? then 1 else 0
  }

  /** Every object of a forest is one of its roots or below one. */
  lemma {:induction false} RootsInFootprint(ts: seq<Node>)
    ensures forall i :: 0 <= i < |ts| ==> ts[i].obj in Footprint(ts)
    decreases ts
  {
    if ts != [] {
      RootsInFootprint(ts[1..]);
      assert forall i :: 1 <= i < |ts| ==> ts[i] == ts[1..][i - 1];
    }
  }

  /** The first main camera in depth-first preorder: a camera child named `mainCamera`, searched before its subtree. */
  function MainCameraIn(ts: seq<Node>): (r: Option<Node>)
    ensures r.Some? ==> r.value.name == MainCameraName && r.value.isCamera
    decreases ts
  {
    if ts == [] then None
    else if ts[0].name == MainCameraName && ts[0].isCamera then Some(ts[0])
    else match MainCameraIn(ts[0].kids)
      case Some(n) => Some(n)
      case None => MainCameraIn(ts[1..])
  }

  /** The first main camera of a list of nodes. */
  function FirstMainCamera(ns: seq<Node>): (r: Option<Node>)
    ensures r.Some? ==> r.value in ns && r.value.name == MainCameraName && r.value.isCamera
    ensures r.None? ==> forall i :: 0 <= i < |ns| ==> !(ns[i].name == MainCameraName && ns[i].isCamera)
  {
    if ns == [] then None
    else if ns[0].name == MainCameraName && ns[0].isCamera then Some(ns[0])
    else FirstMainCamera(ns[1..])
  }

  lemma {:induction false} FirstMainCameraAppend(a: seq<Node>, b: seq<Node>)
    ensures FirstMainCamera(a + b) == if FirstMainCamera(a).Some? then FirstMainCamera(a) else FirstMainCamera(b)
  {
    if a != [] {
      assert (a + b)[1..] == a[1..] + b;
      FirstMainCameraAppend(a[1..], b);
    } else {
      assert a + b == b;
    }
  }

  /** `findMainCamera` finds the first main camera of the preorder listing of the tree. */
  lemma {:induction false} MainCameraIsFirstInPreorder(ts: seq<Node>)
    ensures MainCameraIn(ts) == FirstMainCamera(Preorder(ts))
    decreases ts
  {
    if ts != [] {
      MainCameraIsFirstInPreorder(ts[0].kids);
      MainCameraIsFirstInPreorder(ts[1..]);
      FirstMainCameraAppend([ts[0]] + Preorder(ts[0].kids), Preorder(ts[1..]));
      FirstMainCameraAppend([ts[0]], Preorder(ts[0].kids));
    }
  }

  /** `findMainCamera` over a list of children, recursing into each before moving to the next. */
  method FindMainCamera(objs: seq<SceneObject>, ghost ts: seq<Node>) returns (r: SceneObject?)
    requires Mirrors(objs, ts)
    ensures r == ObjectOf(MainCameraIn(ts))
    decreases ts
  {
    assert objs[0..] == objs && ts[0..] == ts;
    var i := 0;
    while i < |objs|
      invariant 0 <= i <= |objs|
      invariant MainCameraIn(ts) == MainCameraIn(ts[i..])
      invariant Mirrors(objs[i..], ts[i..])
    {
      assert ts[i..][0] == ts[i] && ts[i..][1..] == ts[i + 1..];
      assert objs[i..][0] == objs[i] && objs[i..][1..] == objs[i + 1..];
      MirroredAllocated(objs[i + 1..], ts[i + 1..]);
      if objs[i].name == MainCameraName && objs[i].camera.Some? {
        return objs[i];
      }
      var camera := FindMainCamera(objs[i].objects, ts[i].kids);
      if camera != null {
        return camera;
      }
      i := i + 1;
    }
    assert ts[i..] == [];
    return null;
  }

  /** The fields of an object that a `mesh` or `mat` property leaves alone. */
  function Others(o: SceneObject): (string, SceneObject?, seq<SceneObject>, Option<CameraSettings>, Vec3, Vec3, Vec3, bool, bool, bool, bool)
    reads o
  {
    (o.name, o.parent, o.objects, o.camera, o.location, o.angle, o.scale, o.visible, o.generateLightmap, o.renderable, o.isRootObject)
  }

  // ---- the placement an object's own properties set ----

  /** The fields the property loop sets from plain values: the transform and the two flags. */
  datatype Placement = Placement(location: Vec3, angle: Vec3, scale: Vec3, visible: bool, generateLightmap: bool)

  /** The placement of a new object: at the origin, unrotated, at unit scale, without a lightmap. */
  function NewPlacement(visible: bool): Placement
  {
    Placement(Vec3(0.0, 0.0, 0.0), Vec3(0.0, 0.0, 0.0), Vec3(1.0, 1.0, 1.0), visible, false)
  }

  function PlacementOf(o: SceneObject): Placement
    reads o
  {
    Placement(o.location, o.angle, o.scale, o.visible, o.generateLightmap)
  }

  /**
   * One turn of the property loop on the placement: `location`, `angle` and
   * `scale` are read from the object holding the properties, `visible` takes
   * a boolean value, `_generateLightmap` turns the flag on, whatever its value.
   */
  function PlacementStep(pl: Placement, props: seq<Property>, p: Property): Placement
  {
    if p.key == "location" then pl.(location := TryReadVec3Property(props, "location", pl.location).1)
    else if p.key == "angle" then pl.(angle := TryReadVec3Property(props, "angle", pl.angle).1)
    else if p.key == "scale" then pl.(scale := TryReadVec3Property(props, "scale", pl.scale).1)
    else if p.key == "visible" && p.value.JsBoolean? then pl.(visible := p.value.boolean)
    else if p.key == "_generateLightmap" then pl.(generateLightmap := true)
    else pl
  }

  /** The property loop over `ps`, in order, on the placement. */
  function PlacementRead(pl: Placement, props: seq<Property>, ps: seq<Property>): Placement
    decreases |ps|
  {
    if ps == [] then pl else PlacementStep(PlacementRead(pl, props, ps[..|ps| - 1]), props, ps[|ps| - 1])
  }

  predicate HasKey(ps: seq<Property>, key: string)
  {
    exists i :: 0 <= i < |ps| && ps[i].key == key
  }

  /** The value of the last `visible` property holding a boolean. */
  function LastVisible(ps: seq<Property>): Option<bool>
    decreases |ps|
  {
    if ps == [] then None
    else if ps[|ps| - 1].key == "visible" && ps[|ps| - 1].value.JsBoolean? then Some(ps[|ps| - 1].value.boolean)
    else LastVisible(ps[..|ps| - 1])
  }

  /**
   * What the loop leaves: each vector read from the first property with its
   * key (a repeated key reads the same value again), the last boolean
   * `visible`, and the lightmap flag on if any property names it; a field
   * whose key is absent keeps its value.
   */
  lemma {:induction false} PlacementReadFields(pl: Placement, props: seq<Property>, ps: seq<Property>)
    ensures var r := PlacementRead(pl, props, ps);
      && r.location == (if HasKey(ps, "location") then TryReadVec3Property(props, "location", pl.location).1 else pl.location)
      && r.angle == (if HasKey(ps, "angle") then TryReadVec3Property(props, "angle", pl.angle).1 else pl.angle)
      && r.scale == (if HasKey(ps, "scale") then TryReadVec3Property(props, "scale", pl.scale).1 else pl.scale)
      && r.visible == (match LastVisible(ps) case Some(b) => b case None => pl.visible)
      && r.generateLightmap == (pl.generateLightmap || HasKey(ps, "_generateLightmap"))
    decreases |ps|
  {
    if ps != [] {
      PlacementReadFields(pl, props, ps[..|ps| - 1]);
      HasKeyStep(ps, "location");
      HasKeyStep(ps, "angle");
      HasKeyStep(ps, "scale");
      HasKeyStep(ps, "_generateLightmap");
      ReadAgain(props, "location", pl.location);
      ReadAgain(props, "angle", pl.angle);
      ReadAgain(props, "scale", pl.scale);
    }
  }

  lemma HasKeyStep(ps: seq<Property>, key: string)
    requires ps != []
    ensures HasKey(ps, key) <==> HasKey(ps[..|ps| - 1], key) || ps[|ps| - 1].key == key
  {
    if HasKey(ps, key) && ps[|ps| - 1].key != key {
      var i :| 0 <= i < |ps| && ps[i].key == key;
      assert ps[..|ps| - 1][i].key == key;
    }
    if HasKey(ps[..|ps| - 1], key) {
      var i :| 0 <= i < |ps| - 1 && ps[..|ps| - 1][i].key == key;
      assert ps[i].key == key;
    }
  }

  /** Reading a vector property a second time reads the same vector. */
  lemma ReadAgain(props: seq<Property>, name: string, v: Vec3)
    ensures TryReadVec3Property(props, name, TryReadVec3Property(props, name, v).1).1 == TryReadVec3Property(props, name, v).1
  {
  }

  /** The number of meshes the `mesh` properties among `ps` add. */
  function MeshTotal(ps: seq<Property>): nat
    decreases |ps|
  {
    if ps == [] then 0
    else MeshTotal(ps[..|ps| - 1]) + if ps[|ps| - 1].key == "mesh" then MeshCount(ps[|ps| - 1].value) else 0
  }

  /** What the property loop has read grows by one property per turn. */
  lemma PropertyLoopStep(pl: Placement, props: seq<Property>, i: nat)
    requires i < |props|
    ensures Children(props[..i + 1]) == Children(props[..i]) + if Spawns(props[i]) then [(props[i].key, SpawnsCamera(props[i]))] else []
    ensures PlacementRead(pl, props, props[..i + 1]) == PlacementStep(PlacementRead(pl, props, props[..i]), props, props[i])
    ensures MeshTotal(props[..i + 1]) == MeshTotal(props[..i]) + if props[i].key == "mesh" then MeshCount(props[i].value) else 0
  {
    assert props[..i + 1][..i] == props[..i] && props[..i + 1][i] == props[i];
  }

  /** The root's children move to the scene in order, each detached from the root. */
  method MoveChildren(children: seq<SceneObject>, scene: Scene)
    modifies scene, set i | 0 <= i < |children| :: children[i]
    ensures scene.objects == old(scene.objects) + children && scene.mainCamera == old(scene.mainCamera)
    ensures forall i :: 0 <= i < |children| ==> children[i].parent == null
  {
    for i := 0 to |children|
      invariant scene.objects == old(scene.objects) + children[..i] && scene.mainCamera == old(scene.mainCamera)
      invariant forall j :: 0 <= j < i ==> children[j].parent == null
    {
      children[i].SetParent(null);
      scene.AddObject(children[i]);
    }
    assert children[..|children|] == children;
  }

  // ---- the loader ----

  class SceneJsonLoader {
    var basePath: string
    /** One scope of material definitions per object being read, innermost last. */
    var loadingStack: seq<map<string, Material>>
    var resPool: SceneResourcePool
    /** Which texture files load; the image reader is not part of this model. */
    const textureLoads: string -> bool
    const colors: ColorModel

    /** A loader with no base path and no scopes, using `pool` (the shared pool by default). */
    constructor (pool: SceneResourcePool, textureLoads: string -> bool, colors: ColorModel)
      ensures basePath == "" && loadingStack == [] && resPool == pool
      ensures this.textureLoads == textureLoads && this.colors == colors
    {
      basePath := "";
      loadingStack := [];
      resPool := pool;
      this.textureLoads := textureLoads;
      this.colors := colors;
    }

    method SetBasePath(path: string)
      modifies this
      ensures basePath == WithSplitter(path) && loadingStack == old(loadingStack) && resPool == old(resPool)
    {
      basePath := WithSplitter(path);
    }

    /** `pushLoadingStack`: a new, empty scope. */
    method PushLoadingStack()
      modifies this
      ensures loadingStack == old(loadingStack) + [map[]] && basePath == old(basePath) && resPool == old(resPool)
    {
      loadingStack := loadingStack + [map[]];
    }

    /** The scopes around the innermost one. */
    function Outer(): seq<map<string, Material>>
      requires |loadingStack| > 0
      reads this
    {
      loadingStack[..|loadingStack| - 1]
    }

    /** The innermost scope. */
    function Top(): map<string, Material>
      requires |loadingStack| > 0
      reads this
    {
      loadingStack[|loadingStack| - 1]
    }

    /** `findMaterialByName`: the scopes from the last pushed to the first, the first definition found. */
    method FindMaterialByName(name: string) returns (r: Option<Material>)
      ensures r == MaterialIn(loadingStack, name)
    {
      var i := |loadingStack|;
      assert loadingStack[..i] == loadingStack;
      while i > 0
        invariant 0 <= i <= |loadingStack|
        invariant MaterialIn(loadingStack, name) == MaterialIn(loadingStack[..i], name)
      {
        assert loadingStack[..i][..i - 1] == loadingStack[..i - 1];
        i := i - 1;
        if name in loadingStack[i] {
          return Some(loadingStack[i][name]);
        }
      }
      return None;
    }

    /** `readMaterial`: the texture comes from the pool, which caches it under its transformed path. */
    method ReadMaterial(mat: Material, jsmat: seq<Property>) returns (r: Material)
      requires resPool.Valid()
      modifies resPool
      ensures resPool.Valid() && r == MaterialRead(mat, jsmat, basePath, r.texture, colors)
      ensures TexturePathOf(jsmat).None? ==> r.texture == mat.texture && resPool.textures == old(resPool.textures)
      ensures TexturePathOf(jsmat).Some? ==>
        var path := TransformPath(basePath, TexturePathOf(jsmat).value);
        Lookup(r.texture, resPool.textures, resPool.nextHandle)
          == CachedLoad(old(resPool.textures), old(resPool.nextHandle), path, IsBundlePath(path) || textureLoads(path))
      ensures resPool.meshes == old(resPool.meshes) && resPool.materials == old(resPool.materials)
      ensures resPool.archives == old(resPool.archives)
    {
      var tex := mat.texture;
      var p := TexturePathOf(jsmat);
      if p.Some? {
        var path := TransformPath(basePath, p.value);
        tex := resPool.GetTexture(path, textureLoads(path));
      }
      r := MaterialRead(mat, jsmat, basePath, tex, colors);
    }

    /**
     * `readMaterialDefines`: each object-valued property becomes a default
     * material with the key as its name, read from the object, and defined
     * in the innermost scope under the key.
     */
    method ReadMaterialDefines(defs: seq<Property>)
      requires |loadingStack| > 0 && resPool.Valid()
      modifies this, resPool
      ensures |loadingStack| > 0 && Outer() == old(Outer())
      ensures Top().Keys == old(Top()).Keys + DefinedNames(defs)
      ensures forall k :: k in DefinedNames(defs) ==> Top()[k].name == k
      ensures forall k :: k in DefinedNames(defs) ==>
        Top()[k] == MaterialRead(DefaultMaterial.(name := k), LastDefinition(defs, k).value, basePath, Top()[k].texture, colors)
      ensures forall k :: k in old(Top()) && k !in DefinedNames(defs) ==> Top()[k] == old(Top())[k]
      ensures basePath == old(basePath) && resPool == old(resPool) && resPool.Valid()
    {
      for i := 0 to |defs|
        invariant |loadingStack| > 0 && Outer() == old(Outer())
        invariant Defines(Top(), old(Top()), defs[..i], DefinitionReader(basePath, colors))
        invariant basePath == old(basePath) && resPool == old(resPool) && resPool.Valid()
      {
        ghost var top := Top();
        if defs[i].value.JsObject? {
          DefineMaterial(defs[i].key, defs[i].value.props);
        }
        DefinesStep(top, old(Top()), defs, i, Top(), DefinitionReader(basePath, colors));
      }
      assert defs[..|defs|] == defs;
    }

    /** One definition: a default material named `key`, read from `jsmat`, stored under `key` in the innermost scope. */
    method DefineMaterial(key: string, jsmat: seq<Property>)
      requires |loadingStack| > 0 && resPool.Valid()
      modifies this, resPool
      ensures |loadingStack| > 0 && Outer() == old(Outer())
      ensures key in Top() && Top()[key].name == key && Top() == old(Top())[key := Top()[key]]
      ensures Top()[key] == MaterialRead(DefaultMaterial.(name := key), jsmat, basePath, Top()[key].texture, colors)
      ensures basePath == old(basePath) && resPool == old(resPool) && resPool.Valid()
    {
      var mat := ReadMaterial(DefaultMaterial.(name := key), jsmat);
      loadingStack := loadingStack[..|loadingStack| - 1] + [Top()[key := mat]];
    }

    /**
     * `readSceneObject` on a new object: a scope is pushed, the `_materials`
     * defined in it, the camera settings read when the object is a camera, then
     * each property in order, and the scope popped. The snapshot `t` describes
     * the object and the children it was given.
     */
    method ReadSceneObject(obj: SceneObject, props: seq<Property>) returns (ghost t: Node)
      requires resPool.Valid() && obj.objects == []
      modifies this, obj, resPool
      ensures loadingStack == old(loadingStack) && basePath == old(basePath) && resPool == old(resPool) && resPool.Valid()
      ensures t.obj == obj && Agrees(t) && obj.objects == ObjectsOf(t.kids) && Mirrors(obj.objects, t.kids)
      ensures Linked(obj, t.kids) && obj !in Footprint(t.kids) && forall o :: o in Footprint(t.kids) ==> fresh(o)
      ensures Spawned(t.kids) == Children(props)
      ensures PlacementOf(obj) == PlacementRead(old(PlacementOf(obj)), props, props)
      ensures |obj.meshes| == |old(obj.meshes)| + MeshTotal(props) && obj.meshes[..|old(obj.meshes)|] == old(obj.meshes)
      ensures obj.camera == if old(obj.camera).Some? then Some(ReadCameraSettings(old(obj.camera).value, props)) else None
      ensures obj.name == old(obj.name) && obj.parent == old(obj.parent)
      ensures obj.renderable == old(obj.renderable) && obj.isRootObject == old(obj.isRootObject)
      decreases props, 3
    {
      PushLoadingStack();
      match GetProperty(props, "_materials") {
        case JsObject(defs) => ReadMaterialDefines(defs);
        case _ =>
      }
      if obj.camera.Some? {
        obj.camera := Some(ReadCameraSettings(obj.camera.value, props));
      }
      ghost var kids := ReadProperties(obj, props);
      loadingStack := loadingStack[..|loadingStack| - 1];
      t := Node(obj, obj.name, obj.material, obj.meshes, obj.camera.Some?, kids);
    }

    /** The property loop of `readSceneObject`, the object having no children yet. */
    method ReadProperties(obj: SceneObject, props: seq<Property>) returns (ghost kids: seq<Node>)
      requires resPool.Valid() && obj.objects == []
      modifies this, obj, resPool
      ensures loadingStack == old(loadingStack) && basePath == old(basePath) && resPool == old(resPool) && resPool.Valid()
      ensures obj.objects == ObjectsOf(kids) && Mirrors(ObjectsOf(kids), kids) && Linked(obj, kids) && obj !in Footprint(kids)
      ensures forall o :: o in Footprint(kids) ==> fresh(o)
      ensures Spawned(kids) == Children(props)
      ensures PlacementOf(obj) == PlacementRead(old(PlacementOf(obj)), props, props)
      ensures |obj.meshes| == |old(obj.meshes)| + MeshTotal(props) && obj.meshes[..|old(obj.meshes)|] == old(obj.meshes)
      ensures obj.name == old(obj.name) && obj.parent == old(obj.parent) && obj.camera == old(obj.camera)
      ensures obj.renderable == old(obj.renderable) && obj.isRootObject == old(obj.isRootObject)
      decreases props, 2
    {
      kids := [];
      for i := 0 to |props|
        invariant loadingStack == old(loadingStack) && basePath == old(basePath) && resPool == old(resPool) && resPool.Valid()
        invariant obj.objects == ObjectsOf(kids) && Mirrors(ObjectsOf(kids), kids) && Linked(obj, kids) && obj !in Footprint(kids)
        invariant forall o :: o in Footprint(kids) ==> fresh(o)
        invariant Spawned(kids) == Children(props[..i])
        invariant PlacementOf(obj) == PlacementRead(old(PlacementOf(obj)), props, props[..i])
        invariant |obj.meshes| == |old(obj.meshes)| + MeshTotal(props[..i]) && obj.meshes[..|old(obj.meshes)|] == old(obj.meshes)
        invariant obj.name == old(obj.name) && obj.parent == old(obj.parent) && obj.camera == old(obj.camera)
        invariant obj.renderable == old(obj.renderable) && obj.isRootObject == old(obj.isRootObject)
      {
        PropertyLoopStep(old(PlacementOf(obj)), props, i);
        ghost var before := obj.meshes;
        kids := ReadProperty(obj, props, i, kids);
        assert obj.meshes[..|old(obj.meshes)|] == before[..|old(obj.meshes)|];
      }
      assert props[..|props|] == props;
    }

    /** One turn of the property loop: a child object, or a property of the object itself. */
    method ReadProperty(obj: SceneObject, props: seq<Property>, i: nat, ghost kids: seq<Node>) returns (ghost kids': seq<Node>)
      requires i < |props| && resPool.Valid()
      requires obj.objects == ObjectsOf(kids) && Mirrors(ObjectsOf(kids), kids) && Linked(obj, kids) && obj !in Footprint(kids)
      modifies this, obj, resPool
      ensures loadingStack == old(loadingStack) && basePath == old(basePath) && resPool == old(resPool) && resPool.Valid()
      ensures obj.objects == ObjectsOf(kids') && Mirrors(ObjectsOf(kids'), kids') && Linked(obj, kids') && obj !in Footprint(kids')
      ensures forall o :: o in Footprint(kids') ==> o in Footprint(kids) || fresh(o)
      ensures Spawned(kids') == Spawned(kids) + if Spawns(props[i]) then [(props[i].key, SpawnsCamera(props[i]))] else []
      ensures PlacementOf(obj) == PlacementStep(old(PlacementOf(obj)), props, props[i])
      ensures |obj.meshes| == |old(obj.meshes)| + (if props[i].key == "mesh" then MeshCount(props[i].value) else 0)
      ensures obj.meshes[..|old(obj.meshes)|] == old(obj.meshes)
      ensures obj.name == old(obj.name) && obj.parent == old(obj.parent) && obj.camera == old(obj.camera)
      ensures obj.renderable == old(obj.renderable) && obj.isRootObject == old(obj.isRootObject)
      decreases props, 1
    {
      var p := props[i];
      if Spawns(p) {
        kids' := ReadChild(obj, kids, p.key, p.value.props, SpawnsCamera(p), SpawnsHidden(p));
      } else {
        MirroredAllocated(obj.objects, kids);
        ApplyOwnProperty(obj, props, p);
        kids' := kids;
      }
    }

    /** A child object, read, named by the key and added after the others. */
    method ReadChild(obj: SceneObject, ghost kids: seq<Node>, key: string, childProps: seq<Property>, camera: bool, hidden: bool)
      returns (ghost kids': seq<Node>)
      requires resPool.Valid()
      requires obj.objects == ObjectsOf(kids) && Mirrors(ObjectsOf(kids), kids) && Linked(obj, kids) && obj !in Footprint(kids)
      modifies this, obj, resPool
      ensures loadingStack == old(loadingStack) && basePath == old(basePath) && resPool == old(resPool) && resPool.Valid()
      ensures obj.objects == ObjectsOf(kids') && Mirrors(ObjectsOf(kids'), kids') && Linked(obj, kids') && obj !in Footprint(kids')
      ensures forall o :: o in Footprint(kids') ==> o in Footprint(kids) || fresh(o)
      ensures Spawned(kids') == Spawned(kids) + [(key, camera)]
      ensures |kids'| == |kids| + 1 && kids'[..|kids|] == kids && kids'[|kids|].obj.parent == obj
      ensures var c := kids'[|kids|].obj;
        && PlacementOf(c) == PlacementRead(NewPlacement(!camera && !hidden), childProps, childProps)
        && |c.meshes| == MeshTotal(childProps)
        && c.camera == (if camera then Some(ReadCameraSettings(DefaultCamera, childProps)) else None)
        && c.renderable && !c.isRootObject
      ensures obj.Own() == old(obj.Own())
      decreases childProps, 5
    {
      MirroredAllocated(obj.objects, kids);
      var child;
      ghost var ct;
      child, ct := NewChild(key, childProps, camera, hidden);
      assert Footprint(kids) !! Footprint(ct.kids);
      Adopt(obj, kids, child, ct);
      kids' := kids + [ct];
      SpawnedAppend(kids, ct);
    }

    /** A new `Camera`, `ReflectionMapObject` (invisible) or plain object, read from its own object and named by the key. */
    method NewChild(key: string, childProps: seq<Property>, camera: bool, hidden: bool) returns (child: SceneObject, ghost ct: Node)
      requires resPool.Valid()
      modifies this, resPool
      ensures loadingStack == old(loadingStack) && basePath == old(basePath) && resPool == old(resPool) && resPool.Valid()
      ensures fresh(child) && child.parent == null && (forall o :: o in Footprint(ct.kids) ==> fresh(o))
      ensures ct.obj == child && Agrees(ct) && Mirrors(child.objects, ct.kids) && Linked(child, ct.kids) && child !in Footprint(ct.kids)
      ensures ct.name == key && ct.isCamera == camera
      ensures PlacementOf(child) == PlacementRead(NewPlacement(!camera && !hidden), childProps, childProps)
      ensures |child.meshes| == MeshTotal(childProps)
      ensures child.camera == if camera then Some(ReadCameraSettings(DefaultCamera, childProps)) else None
      ensures child.renderable && !child.isRootObject
      decreases childProps, 4
    {
      if camera {
        child := new SceneObject.Camera();
      } else {
        child := new SceneObject("");
        if hidden {
          child.visible := false;
        }
      }
      ct := ReadSceneObject(child, childProps);
      child.name := key;
      ct := ct.(name := key);
    }

    /** The properties the loop handles on the object itself; `mat` looks the name up in the scopes. */
    method ApplyOwnProperty(obj: SceneObject, props: seq<Property>, p: Property)
      requires resPool.Valid() && !Spawns(p)
      modifies obj, resPool
      ensures resPool.Valid()
      ensures obj.objects == old(obj.objects) && obj.name == old(obj.name) && obj.parent == old(obj.parent) && obj.camera == old(obj.camera)
      ensures obj.renderable == old(obj.renderable) && obj.isRootObject == old(obj.isRootObject)
      ensures PlacementOf(obj) == PlacementStep(old(PlacementOf(obj)), props, p)
      ensures |obj.meshes| == |old(obj.meshes)| + (if p.key == "mesh" then MeshCount(p.value) else 0)
      ensures obj.meshes[..|old(obj.meshes)|] == old(obj.meshes)
      ensures p.key != "mat" ==> obj.material == old(obj.material)
      ensures p.key == "mat" && p.value.JsString? ==>
        obj.material == match MaterialIn(loadingStack, p.value.str) case Some(m) => m case None => old(obj.material)
      ensures p.key == "mat" && p.value.JsObject? ==>
        obj.material == MaterialRead(old(obj.material), p.value.props, basePath, obj.material.texture, colors)
      ensures p.key == "mat" && !p.value.JsString? && !p.value.JsObject? ==> obj.material == old(obj.material)
    {
      var key, val := p.key, p.value;
      if key == "_materials" || key == "_bundles" {
      } else if key == "location" {
        obj.location := TryReadVec3Property(props, key, obj.location).1;
      } else if key == "angle" {
        obj.angle := TryReadVec3Property(props, key, obj.angle).1;
      } else if key == "scale" {
        obj.scale := TryReadVec3Property(props, key, obj.scale).1;
      } else if key == "mesh" {
        ReadMeshProperty(obj, val);
      } else if key == "mat" {
        ReadMatProperty(obj, val);
      } else if key == "visible" && val.JsBoolean? {
        obj.visible := val.boolean;
      } else if key == "_generateLightmap" {
        obj.generateLightmap := true;
      }
    }

    /** A `mat` property: a name defined in the scopes, or a material object read over the object's material. */
    method ReadMatProperty(obj: SceneObject, val: JsValue)
      requires resPool.Valid()
      modifies obj, resPool
      ensures resPool.Valid() && Others(obj) == old(Others(obj)) && obj.meshes == old(obj.meshes)
      ensures val.JsString? ==> obj.material == match MaterialIn(loadingStack, val.str) case Some(m) => m case None => old(obj.material)
      ensures val.JsObject? ==> obj.material == MaterialRead(old(obj.material), val.props, basePath, obj.material.texture, colors)
      ensures !val.JsString? && !val.JsObject? ==> obj.material == old(obj.material)
    {
      if val.JsString? {
        var mat := FindMaterialByName(val.str);
        if mat.Some? {
          obj.material := mat.value;
        }
      } else if val.JsObject? {
        obj.material := ReadMaterial(obj.material, val.props);
      }
    }

    /**
     * A `mesh` property: a path or an array of paths, each adding the mesh the
     * pool loads (always a new mesh; what it reads is not modelled), or an
     * object whose `type` names a primitive.
     */
    method ReadMeshProperty(obj: SceneObject, val: JsValue)
      modifies obj
      ensures |obj.meshes| == |old(obj.meshes)| + MeshCount(val) && obj.meshes[..|old(obj.meshes)|] == old(obj.meshes)
      ensures forall i :: |old(obj.meshes)| <= i < |obj.meshes| ==> fresh(obj.meshes[i])
      ensures Others(obj) == old(Others(obj)) && obj.material == old(obj.material)
    {
      match val {
        case JsString(_) =>
          var mesh := new Mesh();
          obj.AddMesh(mesh);
        case JsArray(items) =>
          ReadMeshPaths(obj, items);
        case JsObject(o) =>
          var kind := StringProperty(o, "type");
          if kind == Some("plane") {
            var mesh := new Mesh();
            obj.AddMesh(mesh);
          } else if kind == Some("cube") {
            var mesh := Polygons.NewCube();
            obj.AddMesh(mesh);
          }
        case _ =>
      }
    }

    /** An array of mesh paths: one new mesh per string item, in order. */
    method ReadMeshPaths(obj: SceneObject, items: seq<JsValue>)
      modifies obj
      ensures |obj.meshes| == |old(obj.meshes)| + PathCount(items) && obj.meshes[..|old(obj.meshes)|] == old(obj.meshes)
      ensures forall i :: |old(obj.meshes)| <= i < |obj.meshes| ==> fresh(obj.meshes[i])
      ensures Others(obj) == old(Others(obj)) && obj.material == old(obj.material)
    {
      for i := 0 to |items|
        invariant |obj.meshes| == |old(obj.meshes)| + PathCount(items[..i]) && obj.meshes[..|old(obj.meshes)|] == old(obj.meshes)
        invariant forall j :: |old(obj.meshes)| <= j < |obj.meshes| ==> fresh(obj.meshes[j])
        invariant Others(obj) == old(Others(obj)) && obj.material == old(obj.material)
      {
        assert items[..i + 1][..i] == items[..i];
        if items[i].JsString? {
          var mesh := new Mesh();
          obj.AddMesh(mesh);
        }
      }
      assert items[..|items|] == items;
    }

    /** `loadObject`: a new plain object read from the document. */
    method LoadObject(doc: seq<Property>) returns (obj: SceneObject, ghost t: Node)
      requires resPool.Valid()
      modifies this, resPool
      ensures fresh(obj) && obj.name == "" && obj.parent == null && obj.camera.None?
      ensures loadingStack == old(loadingStack) && basePath == old(basePath) && resPool == old(resPool) && resPool.Valid()
      ensures t.obj == obj && Agrees(t) && obj.objects == ObjectsOf(t.kids) && Mirrors(obj.objects, t.kids)
      ensures Linked(obj, t.kids) && obj !in Footprint(t.kids) && forall o :: o in Footprint(t.kids) ==> fresh(o)
      ensures Spawned(t.kids) == Children(doc)
      ensures PlacementOf(obj) == PlacementRead(NewPlacement(true), doc, doc) && |obj.meshes| == MeshTotal(doc)
      ensures obj.renderable && !obj.isRootObject
    {
      obj := new SceneObject("");
      t := ReadSceneObject(obj, doc);
    }

    /**
     * `load`: the base path defaults to the scene file's directory; an empty
     * file fails; otherwise the root's children move to the scene, detached,
     * and the first main camera found below the root becomes the scene's.
     * `json` is the file's text, `doc` what the JSON reader makes of it.
     */
    method Load(jsonDir: string, json: string, doc: seq<Property>, scene: Scene) returns (r: Result<()>, ghost kids: seq<Node>)
      requires resPool.Valid()
      modifies this, resPool, scene
      ensures loadingStack == old(loadingStack) && resPool == old(resPool) && resPool.Valid()
      ensures basePath == if old(basePath) == "" then WithSplitter(jsonDir) else old(basePath)
      ensures json == "" ==> r == Failure("scene file is empty") && scene.objects == old(scene.objects) && scene.mainCamera == old(scene.mainCamera)
      ensures json != "" ==> r == Success(()) && Spawned(kids) == Children(doc)
      ensures json != "" ==> scene.objects == old(scene.objects) + ObjectsOf(kids) && forall i :: 0 <= i < |kids| ==> kids[i].obj.parent == null
      ensures json != "" ==> scene.mainCamera == if MainCameraIn(kids).Some? then MainCameraIn(kids).value.obj else old(scene.mainCamera)
    {
      if basePath == "" {
        SetBasePath(jsonDir);
      }
      if json == "" {
        return Failure("scene file is empty"), [];
      }
      kids := LoadInto(doc, scene);
      r := Success(());
    }

    /** The part of `load` past the empty-file check: the root is read and its children handed to the scene. */
    method LoadInto(doc: seq<Property>, scene: Scene) returns (ghost kids: seq<Node>)
      requires resPool.Valid()
      modifies this, resPool, scene
      ensures loadingStack == old(loadingStack) && basePath == old(basePath) && resPool == old(resPool) && resPool.Valid()
      ensures Spawned(kids) == Children(doc)
      ensures scene.objects == old(scene.objects) + ObjectsOf(kids) && forall i :: 0 <= i < |kids| ==> kids[i].obj.parent == null
      ensures scene.mainCamera == if MainCameraIn(kids).Some? then MainCameraIn(kids).value.obj else old(scene.mainCamera)
    {
      var root;
      ghost var t;
      root, t := LoadObject(doc);
      kids := t.kids;
      var camera := FindMainCamera(root.objects, t.kids);
      RootsInFootprint(t.kids);
      MoveChildren(root.objects, scene);
      if camera != null {
        scene.mainCamera := camera;
      }
      root.objects := [];
    }
    /**
     * `createObjectFromBundle`: nothing without the archive; otherwise the
     * object read from the archive's manifest, or its only child, detached,
     * when it has exactly one.
     */
    method CreateObjectFromBundle(path: string, archiveLoads: bool, manifest: seq<Property>) returns (r: SceneObject?, ghost kids: seq<Node>)
      requires resPool.Valid()
      modifies this, resPool
      ensures loadingStack == old(loadingStack) && basePath == old(basePath) && resPool == old(resPool) && resPool.Valid()
      ensures r == null <==> path !in old(resPool.archives) && !archiveLoads
      ensures r != null ==> fresh(r) && r.parent == null && Spawned(kids) == Children(manifest)
      ensures r != null && |kids| == 1 ==> r == kids[0].obj && r.name == kids[0].name && r.camera.Some? == kids[0].isCamera
      ensures r != null && |kids| != 1 ==> r.name == "" && r.objects == ObjectsOf(kids)
    {
      kids := [];
      var archive := resPool.LoadArchiveAt(path, archiveLoads);
      if archive.None? {
        return null, [];
      }
      var obj;
      ghost var t;
      obj, t := LoadObject(manifest);
      kids := t.kids;
      if |obj.objects| == 1 {
        var child := obj.objects[0];
        RootsInFootprint(t.kids);
        obj.RemoveObject(child);
        return child, kids;
      }
      return obj, kids;
    }
  }
}
