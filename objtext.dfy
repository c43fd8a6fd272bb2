// The text layer of the OBJ reader: how a line is recognised by its tag, how
// the vertex references of a face line are checked, and what a material
// library yields. The lexer and `sscanf` are inputs: what they make of a piece
// of text is given as a function (`Scanner`).
module ObjText {
  import opened Base

  // ---- tags ----

  /** The character `line[i]` of the line buffer: past the text, the terminating NUL. */
  function CharAt(line: string, i: nat): char
  {
    if i < |line| then line[i] else '\0'
  }

  /** A tag as the reader passes it: a non-empty C string literal without spaces. */
  predicate IsTag(tag: string)
  {
    |tag| > 0 && forall k :: 0 <= k < |tag| ==> tag[k] != '\0' && tag[k] != ' '
  }

  /**
   * `isLine(tag)` when the length the reader last recorded is `n`: the line
   * starts with the tag followed by a space, and the tag is shorter than `n`.
   */
  predicate TagMatches(line: string, n: nat, tag: string)
  {
    |tag| < |line| && line[..|tag|] == tag && line[|tag|] == ' ' && |tag| < n
  }

  /** A line carries at most one tag, so the order in which the reader tries them does not matter. */
  lemma TagsExclusive(line: string, n: nat, a: string, b: string)
    requires IsTag(a) && IsTag(b) && TagMatches(line, n, a) && TagMatches(line, n, b)
    ensures a == b
  {
  }

  /** `v` is not taken for `vn` or `vt`, nor `f` for anything longer. */
  lemma VertexTagIsNotNormalTag(line: string)
    ensures !(TagMatches(line, |line|, "v") && TagMatches(line, |line|, "vn"))
    ensures !(TagMatches(line, |line|, "v") && TagMatches(line, |line|, "vt"))
  {
    if TagMatches(line, |line|, "v") && TagMatches(line, |line|, "vn") {
      TagsExclusive(line, |line|, "v", "vn");
    }
    if TagMatches(line, |line|, "v") && TagMatches(line, |line|, "vt") {
      TagsExclusive(line, |line|, "v", "vt");
    }
  }

  /** A line whose first word is `line[..p]` matches exactly that tag, when it is shorter than `n`. */
  lemma FirstWordTag(line: string, n: nat, p: nat, tag: string)
    requires p < |line| && line[p] == ' ' && IsTag(line[..p]) && IsTag(tag)
    ensures TagMatches(line, n, tag) <==> tag == line[..p] && p < n
  {
  }

  /** The library tags a line with first word `line[..p]` matches. */
  lemma LibraryTags(line: string, n: nat, p: nat)
    requires p < |line| && line[p] == ' ' && IsTag(line[..p])
    ensures TagMatches(line, n, "newmtl") <==> line[..p] == "newmtl" && p < n
    ensures TagMatches(line, n, "Ns") <==> line[..p] == "Ns" && p < n
    ensures TagMatches(line, n, "Ka") <==> line[..p] == "Ka" && p < n
    ensures TagMatches(line, n, "Kd") <==> line[..p] == "Kd" && p < n
    ensures TagMatches(line, n, "Ks") <==> line[..p] == "Ks" && p < n
    ensures TagMatches(line, n, "Tf") <==> line[..p] == "Tf" && p < n
    ensures TagMatches(line, n, "map_Kd") <==> line[..p] == "map_Kd" && p < n
    ensures TagMatches(line, n, "map_Bump") <==> line[..p] == "map_Bump" && p < n
    ensures TagMatches(line, n, "map_t_normal") <==> line[..p] == "map_t_normal" && p < n
  {
    FirstWordTag(line, n, p, "newmtl");
    FirstWordTag(line, n, p, "Ns");
    FirstWordTag(line, n, p, "Ka");
    FirstWordTag(line, n, p, "Kd");
    FirstWordTag(line, n, p, "Ks");
    FirstWordTag(line, n, p, "Tf");
    FirstWordTag(line, n, p, "map_Kd");
    FirstWordTag(line, n, p, "map_Bump");
    FirstWordTag(line, n, p, "map_t_normal");
  }

  /** `strstr(s, pat) != NULL`. */
  function Contains(s: string, pat: string): (r: bool)
    ensures |pat| <= |s| && s[..|pat|] == pat ==> r
    decreases |s|
  {
    |pat| <= |s| && (s[..|pat|] == pat || (|s| > 0 && Contains(s[1..], pat)))
  }

  /** A leading comment naming 3ds Max or millimetres switches on the 1/100 scale. */
  predicate MarksMillimeters(line: string)
  {
    Contains(line, "3ds Max") || Contains(line, "uses millimeters as units")
  }

  /** `vertex *= 0.01f`. */
  function Scaled(v: Vec3): (r: Vec3)
    ensures r.x == v.x / 100.0 && r.y == v.y / 100.0 && r.z == v.z / 100.0
  {
    Vec3(v.x * 0.01, v.y * 0.01, v.z * 0.01)
  }

  /** The object name of a `g` line: the group names joined by `_`. */
  function JoinGroups(groups: seq<string>): (r: string)
    decreases |groups|
  {
    if groups == [] then ""
    else
      var acc := JoinGroups(groups[..|groups| - 1]);
      (if |acc| > 0 then acc + "_" else acc) + groups[|groups| - 1]
  }

  /** One group keeps its name; each further non-empty group adds `_` and its name. */
  lemma JoinGroupsAppend(groups: seq<string>, g: string)
    ensures JoinGroups([g]) == g
    ensures groups != [] && JoinGroups(groups) != "" ==> JoinGroups(groups + [g]) == JoinGroups(groups) + "_" + g
  {
    assert (groups + [g])[..|groups|] == groups;
    assert [g][..0] == [];
  }

  /**
   * What the lexer and `sscanf` make of the text after a tag: the numbers of a
   * `v`/`vn` line (a `vec3`) and a `vt` line (a `vec2`), the references of an
   * `f` line, the identifiers of a `g` line, and the values of material lines
   * (`None` where `sscanf` reports no conversion).
   */
  datatype Scanner = Scanner(
    vec3: string -> Vec3,
    vec2: string -> Vec2,
    face: string -> seq<Token>,
    identifiers: string -> seq<string>,
    number: string -> Option<real>,
    color: string -> Option<Color3>,
    bumpFile: string -> string)

  // ---- face references ----

  /** A texcoord or normal slot of a reference: no `/` at all, a `/` without a number, or a number. */
  datatype Slot = Absent | Empty | Given(number: int)

  /** `v`, `v/t`, `v//n`, `v/t/n` and the like: the vertex number and the two slots. */
  datatype Ref = Ref(vertex: int, texcoord: Slot, normal: Slot)

  /** What the lexer yields for each space-separated reference of a face line, in order. */
  datatype Token = Reference(ref: Ref) | NotANumber

  /** The four-entry index arrays of `readSurfaceLine`. */
  const Capacity: nat := 4

  /**
   * The scan of a face line: whether it failed, the references accepted so
   * far, the object's attribute flags, and whether this line has texcoords and
   * normals.
   */
  datatype FaceScan = FaceScan(failed: bool, refs: seq<Ref>, objTex: bool, objNorm: bool, lineTex: bool, lineNorm: bool)

  function StartScan(objTex: bool, objNorm: bool): FaceScan
  {
    FaceScan(false, [], objTex, objNorm, false, false)
  }

  /** The rules of `readSurfaceLine` as written, and as corrected in this model. */
  datatype Rules = AsWritten | Corrected

  /**
   * One reference as written: a `/` without a number is refused once the
   * object has that attribute, a number is refused for an object whose earlier
   * faces lacked it (`first` exempts the object's first face), and a slot
   * without any `/` is not checked at all.
   */
  function StepAsWritten(s: FaceScan, r: Ref, first: bool): (t: FaceScan)
  {
    var s1 :=
      match r.texcoord
      case Absent => s
      case Empty => if s.objTex then s.(failed := true) else s
      case Given(_) => if !s.objTex && !first then s.(failed := true) else s.(objTex := true, lineTex := true);
    if s1.failed then s1
    else
      var s2 :=
        match r.normal
        case Absent => s1
        case Empty => if s1.objNorm then s1.(failed := true) else s1
        case Given(_) => if !s1.objNorm && !first then s1.(failed := true) else s1.(objNorm := true, lineNorm := true);
      if s2.failed then s2 else s2.(refs := s2.refs + [r])
  }

  /**
   * One reference as corrected: a fifth reference is refused before it is
   * stored; the first reference of the object's first face decides whether the
   * object has texcoords and normals, and every other reference must have a
   * number in exactly the slots the object has.
   */
  function StepCorrected(s: FaceScan, r: Ref, first: bool): (t: FaceScan)
  {
    if |s.refs| >= Capacity then s.(failed := true)
    else if first && s.refs == [] then
      var tex, norm := r.texcoord.Given?, r.normal.Given?;
      s.(refs := [r], objTex := tex, objNorm := norm, lineTex := tex, lineNorm := norm)
    else if r.texcoord.Given? != s.objTex || r.normal.Given? != s.objNorm then s.(failed := true)
    else s.(refs := s.refs + [r], lineTex := s.objTex, lineNorm := s.objNorm)
  }

  function Step(rules: Rules, s: FaceScan, t: Token, first: bool): FaceScan
  {
    match t
    case NotANumber => s.(failed := true)
    case Reference(r) => if rules.AsWritten? then StepAsWritten(s, r, first) else StepCorrected(s, r, first)
  }

  /** The loop of `readSurfaceLine` over the tokens, stopping at the first failure. */
  function Scan(rules: Rules, tokens: seq<Token>, s0: FaceScan, first: bool): FaceScan
    decreases |tokens|
  {
    if tokens == [] then s0
    else
      ScanNext(rules, Scan(rules, tokens[..|tokens| - 1], s0, first), tokens[|tokens| - 1], first)
  }

  /** One more reference, unless the scan has already failed. */
  function ScanNext(rules: Rules, s: FaceScan, t: Token, first: bool): FaceScan
  {
    if s.failed then s else Step(rules, s, t, first)
  }

  /** The scan of one more token: the scan so far, and the step unless it has already failed. */
  lemma ScanSnoc(rules: Rules, tokens: seq<Token>, t: Token, s0: FaceScan, first: bool)
    ensures Scan(rules, tokens + [t], s0, first) == ScanNext(rules, Scan(rules, tokens, s0, first), t, first)
  {
    assert (tokens + [t])[..|tokens|] == tokens;
  }

  /** The scan of the first `k + 1` tokens, from the scan of the first `k`. */
  lemma ScanPrefixNext(rules: Rules, tokens: seq<Token>, k: nat, s0: FaceScan, first: bool)
    requires k < |tokens|
    ensures Scan(rules, tokens[..k + 1], s0, first) == ScanNext(rules, Scan(rules, tokens[..k], s0, first), tokens[k], first)
  {
    assert tokens[..k + 1] == tokens[..k] + [tokens[k]];
    ScanSnoc(rules, tokens[..k], tokens[k], s0, first);
  }

  /** A scan that failed on a prefix of the tokens has failed on all of them. */
  lemma {:induction false} ScanFailedPrefix(rules: Rules, tokens: seq<Token>, k: nat, s0: FaceScan, first: bool)
    requires k <= |tokens| && Scan(rules, tokens[..k], s0, first).failed
    ensures Scan(rules, tokens, s0, first).failed
    decreases |tokens|
  {
    if k < |tokens| {
      var init := tokens[..|tokens| - 1];
      assert init[..k] == tokens[..k];
      ScanFailedPrefix(rules, init, k, s0, first);
    } else {
      assert tokens[..k] == tokens;
    }
  }

  /** A face is accepted when no reference failed and there are exactly three of them. */
  predicate Accepted(s: FaceScan)
  {
    !s.failed && |s.refs| == 3
  }

  /** Every accepted reference has a number in exactly the slots the line has, and those are the object's. */
  predicate Uniform(s: FaceScan)
  {
    (s.refs != [] ==> s.lineTex == s.objTex && s.lineNorm == s.objNorm)
    && forall k :: 0 <= k < |s.refs| ==> s.refs[k].texcoord.Given? == s.objTex && s.refs[k].normal.Given? == s.objNorm
  }

  /** Under the corrected rules the references never exceed the index arrays, and the object's flags hold for all of them. */
  lemma {:induction false} CorrectedScanIsUniform(tokens: seq<Token>, objTex: bool, objNorm: bool, first: bool)
    ensures var s := Scan(Corrected, tokens, StartScan(objTex, objNorm), first);
      |s.refs| <= Capacity && (!s.failed ==> Uniform(s))
      && (!first && !s.failed ==> s.objTex == objTex && s.objNorm == objNorm)
    decreases |tokens|
  {
    if tokens != [] {
      CorrectedScanIsUniform(tokens[..|tokens| - 1], objTex, objNorm, first);
    }
  }

  /** An accepted face: three references, each with a number in exactly the slots the object has. */
  lemma AcceptedFaceIsUniform(tokens: seq<Token>, objTex: bool, objNorm: bool, first: bool)
    requires Accepted(Scan(Corrected, tokens, StartScan(objTex, objNorm), first))
    ensures var s := Scan(Corrected, tokens, StartScan(objTex, objNorm), first);
      Uniform(s) && (!first ==> s.objTex == objTex && s.objNorm == objNorm)
  {
    CorrectedScanIsUniform(tokens, objTex, objNorm, first);
  }

  /** References with a number in exactly the slots the object has. */
  predicate Matching(tokens: seq<Token>, objTex: bool, objNorm: bool)
  {
    forall k :: 0 <= k < |tokens| ==>
      tokens[k].Reference? && tokens[k].ref.texcoord.Given? == objTex && tokens[k].ref.normal.Given? == objNorm
  }

  /**
   * On faces whose references all match the object (past its first face), the
   * two rule sets accept the same references and agree on the flags: the
   * correction changes only what the rules as written let through.
   */
  lemma {:induction false} RulesAgreeOnMatchingFaces(tokens: seq<Token>, objTex: bool, objNorm: bool)
    requires |tokens| <= Capacity && Matching(tokens, objTex, objNorm)
    ensures var a, c := Scan(AsWritten, tokens, StartScan(objTex, objNorm), false), Scan(Corrected, tokens, StartScan(objTex, objNorm), false);
      a.failed == c.failed == false && a.refs == c.refs && |a.refs| == |tokens|
      && a.objTex == c.objTex == objTex && a.objNorm == c.objNorm == objNorm
      && (tokens != [] ==> a.lineTex == c.lineTex && a.lineNorm == c.lineNorm)
    decreases |tokens|
  {
    if tokens != [] {
      var init := tokens[..|tokens| - 1];
      assert Matching(init, objTex, objNorm) by {
        assert forall k :: 0 <= k < |init| ==> init[k] == tokens[k];
      }
      RulesAgreeOnMatchingFaces(init, objTex, objNorm);
      var r := tokens[|tokens| - 1].ref;
      if init == [] {
        assert StartScan(objTex, objNorm).lineTex == false;
      }
    }
  }

  /**
   * As written, a reference without any `/` skips both checks: on an object
   * that already has texcoords and normals, `f 4 5 6` is accepted with neither,
   * so the object gets three vertices but no texcoords or normals for them.
   * The corrected rules refuse it.
   */
  lemma SlashlessFaceAccepted()
    ensures var tokens := [Reference(Ref(4, Absent, Absent)), Reference(Ref(5, Absent, Absent)), Reference(Ref(6, Absent, Absent))];
      var a := Scan(AsWritten, tokens, StartScan(true, true), false);
      Accepted(a) && a.objTex && a.objNorm && !a.lineTex && !a.lineNorm
      && !Accepted(Scan(Corrected, tokens, StartScan(true, true), false))
  {
    var t1, t2, t3 := Reference(Ref(4, Absent, Absent)), Reference(Ref(5, Absent, Absent)), Reference(Ref(6, Absent, Absent));
    ScanSnoc(AsWritten, [], t1, StartScan(true, true), false);
    ScanSnoc(AsWritten, [t1], t2, StartScan(true, true), false);
    ScanSnoc(AsWritten, [t1, t2], t3, StartScan(true, true), false);
    ScanSnoc(Corrected, [], t1, StartScan(true, true), false);
    ScanSnoc(Corrected, [t1], t2, StartScan(true, true), false);
    ScanSnoc(Corrected, [t1, t2], t3, StartScan(true, true), false);
    assert [] + [t1] == [t1] && [t1] + [t2] == [t1, t2] && [t1, t2] + [t3] == [t1, t2, t3];
  }

  /**
   * As written, the first face of an object may mix its references:
   * `f 1 2/2 3/3` is accepted with texcoords, although the first reference
   * gave no texcoord number to read. The corrected rules refuse it.
   */
  lemma MixedFirstFaceAccepted()
    ensures var tokens := [Reference(Ref(1, Absent, Absent)), Reference(Ref(2, Given(2), Absent)), Reference(Ref(3, Given(3), Absent))];
      var a := Scan(AsWritten, tokens, StartScan(false, false), true);
      Accepted(a) && a.lineTex && !a.refs[0].texcoord.Given?
      && !Accepted(Scan(Corrected, tokens, StartScan(false, false), true))
  {
    var t1, t2, t3 := Reference(Ref(1, Absent, Absent)), Reference(Ref(2, Given(2), Absent)), Reference(Ref(3, Given(3), Absent));
    ScanSnoc(AsWritten, [], t1, StartScan(false, false), true);
    ScanSnoc(AsWritten, [t1], t2, StartScan(false, false), true);
    ScanSnoc(AsWritten, [t1, t2], t3, StartScan(false, false), true);
    ScanSnoc(Corrected, [], t1, StartScan(false, false), true);
    ScanSnoc(Corrected, [t1], t2, StartScan(false, false), true);
    ScanSnoc(Corrected, [t1, t2], t3, StartScan(false, false), true);
    assert [] + [t1] == [t1] && [t1] + [t2] == [t1, t2] && [t1, t2] + [t3] == [t1, t2, t3];
  }

  /**
   * As written, `f 1 2 3 4 5` stores a fifth vertex index into the four-entry
   * arrays before the count is checked. The corrected loop refuses the fifth
   * reference first; both reject the face.
   */
  lemma FifthReferenceOverflows()
    ensures var tokens := [Plain(1), Plain(2), Plain(3), Plain(4), Plain(5)];
      |Scan(AsWritten, tokens, StartScan(false, false), false).refs| == Capacity + 1
      && !Accepted(Scan(AsWritten, tokens, StartScan(false, false), false))
      && !Accepted(Scan(Corrected, tokens, StartScan(false, false), false))
  {
    FiveReferences(AsWritten);
    FiveReferences(Corrected);
  }

  /** `f 1 2 3 4 5` under either rules: refused, with five references stored as written and four as corrected. */
  lemma FiveReferences(rules: Rules)
    ensures var s := Scan(rules, [Plain(1), Plain(2), Plain(3), Plain(4), Plain(5)], StartScan(false, false), false);
      !Accepted(s) && |s.refs| == if rules.AsWritten? then Capacity + 1 else Capacity
  {
    var s0 := StartScan(false, false);
    var p1, p2, p3, p4, p5 := Plain(1), Plain(2), Plain(3), Plain(4), Plain(5);
    ScanSnoc(rules, [], p1, s0, false);
    assert [] + [p1] == [p1];
    var s1 := Scan(rules, [p1], s0, false);
    assert !s1.failed && |s1.refs| == 1 && !s1.objTex && !s1.objNorm;
    ScanSnoc(rules, [p1], p2, s0, false);
    assert [p1] + [p2] == [p1, p2];
    var s2 := Scan(rules, [p1, p2], s0, false);
    assert !s2.failed && |s2.refs| == 2 && !s2.objTex && !s2.objNorm;
    ScanSnoc(rules, [p1, p2], p3, s0, false);
    assert [p1, p2] + [p3] == [p1, p2, p3];
    var s3 := Scan(rules, [p1, p2, p3], s0, false);
    assert !s3.failed && |s3.refs| == 3 && !s3.objTex && !s3.objNorm;
    ScanSnoc(rules, [p1, p2, p3], p4, s0, false);
    assert [p1, p2, p3] + [p4] == [p1, p2, p3, p4];
    var s4 := Scan(rules, [p1, p2, p3, p4], s0, false);
    assert !s4.failed && |s4.refs| == 4 && !s4.objTex && !s4.objNorm;
    ScanSnoc(rules, [p1, p2, p3, p4], p5, s0, false);
    assert [p1, p2, p3, p4] + [p5] == [p1, p2, p3, p4, p5];
  }

  /** A reference `v` with no `/`. */
  function Plain(v: int): Token
  {
    Reference(Ref(v, Absent, Absent))
  }

  // ---- material libraries ----

  /** An `ObjMaterial`. */
  datatype ObjMaterial = ObjMaterial(
    name: string, textureFilename: string, normalmapFilename: string,
    ambient: Color3, diffuse: Color3, specular: Color3,
    shininess: real, transparency: real, normalmapIntensity: real)

  /** `ObjMaterial::reset` as written: the transparency and the normal-map intensity are kept. */
  function ResetAsWritten(m: ObjMaterial): ObjMaterial
  {
    m.(name := "", textureFilename := "", normalmapFilename := "",
       ambient := Black, diffuse := Black, specular := Black, shininess := 0.0)
  }

  /** `reset` as corrected: the transparency is cleared as well. */
  function Reset(m: ObjMaterial): (r: ObjMaterial)
    ensures r.name == "" && r.transparency == 0.0 && r.normalmapIntensity == m.normalmapIntensity
  {
    ResetAsWritten(m).(transparency := 0.0)
  }

  /** `Tf r g b`: one minus the mean transmission. */
  function TfTransparency(c: Color3): (t: real)
    ensures c.r == c.g == c.b ==> t == 1.0 - c.r
  {
    1.0 - (c.r + c.g + c.b) / 3.0
  }

  /** The text after `tag ` (the reader copies from `line + |tag| + 1`). */
  function After(line: string, k: nat): string
  {
    if k <= |line| then line[k..] else ""
  }

  /** The state of `readMaterialLibrary`: the material being read, whether there is one, and the materials emitted. */
  datatype LibraryState = LibraryState(mat: ObjMaterial, hasMat: bool, out: seq<ObjMaterial>)

  /** The tags of a material library the reader knows. */
  datatype LibraryTag = NewMaterial | Shininess | Ambient | Diffuse | Specular | Transmission
                      | TextureMap | BumpMap | NormalMap | Unknown

  /** The tag `isLine` recognises on a library line, trying them in the reader's order. */
  function LibraryTagOf(line: string, n: nat): LibraryTag
  {
    if TagMatches(line, n, "newmtl") then NewMaterial
    else if TagMatches(line, n, "Ns") then Shininess
    else if TagMatches(line, n, "Ka") then Ambient
    else if TagMatches(line, n, "Kd") then Diffuse
    else if TagMatches(line, n, "Ks") then Specular
    else if TagMatches(line, n, "Tf") then Transmission
    else if TagMatches(line, n, "map_Kd") then TextureMap
    else if TagMatches(line, n, "map_Bump") then BumpMap
    else if TagMatches(line, n, "map_t_normal") then NormalMap
    else Unknown
  }

  /** The library tag a word names. */
  function LibraryWord(w: string): LibraryTag
  {
    if w == "newmtl" then NewMaterial
    else if w == "Ns" then Shininess
    else if w == "Ka" then Ambient
    else if w == "Kd" then Diffuse
    else if w == "Ks" then Specular
    else if w == "Tf" then Transmission
    else if w == "map_Kd" then TextureMap
    else if w == "map_Bump" then BumpMap
    else if w == "map_t_normal" then NormalMap
    else Unknown
  }

  /** The tag of a line is named by its first word, when that is shorter than the length the test sees. */
  lemma LibraryTagOfFirstWord(line: string, n: nat, p: nat)
    requires p < |line| && line[p] == ' ' && IsTag(line[..p])
    ensures LibraryTagOf(line, n) == if p < n then LibraryWord(line[..p]) else Unknown
  {
    LibraryTags(line, n, p);
  }

  /**
   * One line of a material library, with `n` the line length the tag test
   * sees: a `newmtl` flushes the material being read and starts the next one;
   * the other tags set one field of it.
   */
  function LibraryLine(rules: Rules, st: LibraryState, line: string, n: nat, sc: Scanner): (r: LibraryState)
    ensures |r.out| == |st.out| + (if TagMatches(line, n, "newmtl") && st.hasMat then 1 else 0)
    ensures r.out[..|st.out|] == st.out
    ensures r.hasMat == (st.hasMat || TagMatches(line, n, "newmtl"))
  {
    if LibraryTagOf(line, n).NewMaterial? then
      LibraryState(Started(rules, st.mat, line), true, st.out + if st.hasMat then [st.mat] else [])
    else
      st.(mat := WithProperty(st.mat, line, n, sc))
  }

  /** The material a `newmtl` line starts: the one being read, reset, with the name after the tag. */
  function Started(rules: Rules, m: ObjMaterial, line: string): ObjMaterial
  {
    (if rules.AsWritten? then ResetAsWritten(m) else Reset(m)).(name := After(line, 7))
  }

  /** The material after a property line: the field the line's tag names, set from the text after it. */
  function WithProperty(m: ObjMaterial, line: string, n: nat, sc: Scanner): ObjMaterial
  {
    match LibraryTagOf(line, n)
    case Shininess => (match sc.number(After(line, 3)) case Some(v) => m.(shininess := v) case None => m)
    case Ambient => (match sc.color(After(line, 3)) case Some(c) => m.(ambient := c) case None => m)
    case Diffuse => (match sc.color(After(line, 3)) case Some(c) => m.(diffuse := c) case None => m)
    case Specular => (match sc.color(After(line, 3)) case Some(c) => m.(specular := c) case None => m)
    case Transmission => (match sc.color(After(line, 3)) case Some(c) => m.(transparency := TfTransparency(c)) case None => m)
    case TextureMap => m.(textureFilename := After(line, 7))
    case BumpMap =>
      if |line| >= 12 && line[9..12] == "-bm" then m.(normalmapFilename := sc.bumpFile(After(line, 13)))
      else m.(normalmapFilename := After(line, 9))
    case NormalMap => m.(normalmapFilename := After(line, 13))
    case _ => m
  }

  /**
   * The length the tag test sees for a library line: as written, the length
   * of the OBJ line that named the library (`stale`), which `readLine` into
   * the shared buffer does not update; as corrected, the line's own.
   */
  function SeenLength(rules: Rules, line: string, stale: nat): nat
  {
    if rules.AsWritten? then stale else |line|
  }

  function LibraryLines(rules: Rules, st: LibraryState, lines: seq<string>, stale: nat, sc: Scanner): LibraryState
    decreases |lines|
  {
    if lines == [] then st
    else
      var prev := LibraryLines(rules, st, lines[..|lines| - 1], stale, sc);
      var line := lines[|lines| - 1];
      LibraryLine(rules, prev, line, SeenLength(rules, line, stale), sc)
  }

  lemma LibraryLinesSnoc(rules: Rules, st: LibraryState, lines: seq<string>, line: string, stale: nat, sc: Scanner)
    ensures LibraryLines(rules, st, lines + [line], stale, sc)
         == LibraryLine(rules, LibraryLines(rules, st, lines, stale, sc), line, SeenLength(rules, line, stale), sc)
  {
    assert (lines + [line])[..|lines|] == lines;
  }

  /** The materials of a library: those emitted by `newmtl`, then the last one read, if any. */
  function Flush(st: LibraryState): seq<ObjMaterial>
  {
    st.out + if st.hasMat then [st.mat] else []
  }

  /** `readMaterialLibrary` over the lines of a library, starting from an uninitialised material `blank`. */
  function Library(rules: Rules, lines: seq<string>, stale: nat, blank: ObjMaterial, sc: Scanner): seq<ObjMaterial>
  {
    Flush(LibraryLines(rules, LibraryState(blank, false, []), lines, stale, sc))
  }

  /** The `newmtl` lines the tag test recognises. */
  function NewmtlCount(rules: Rules, lines: seq<string>, stale: nat): nat
    decreases |lines|
  {
    if lines == [] then 0
    else
      var line := lines[|lines| - 1];
      NewmtlCount(rules, lines[..|lines| - 1], stale) + if TagMatches(line, SeenLength(rules, line, stale), "newmtl") then 1 else 0
  }

  /** Whether the state holds a material yet: some `newmtl` has been recognised. */
  lemma {:induction false} LibraryLinesCount(rules: Rules, lines: seq<string>, stale: nat, blank: ObjMaterial, sc: Scanner)
    ensures var st := LibraryLines(rules, LibraryState(blank, false, []), lines, stale, sc);
      st.hasMat == (NewmtlCount(rules, lines, stale) > 0)
      && |st.out| == (if st.hasMat then NewmtlCount(rules, lines, stale) - 1 else 0)
    decreases |lines|
  {
    if lines != [] {
      LibraryLinesCount(rules, lines[..|lines| - 1], stale, blank, sc);
    }
  }

  /** One material per recognised `newmtl`, the last one flushed at the end. */
  lemma OneMaterialPerNewmtl(rules: Rules, lines: seq<string>, stale: nat, blank: ObjMaterial, sc: Scanner)
    ensures |Library(rules, lines, stale, blank, sc)| == NewmtlCount(rules, lines, stale)
  {
    LibraryLinesCount(rules, lines, stale, blank, sc);
  }

  /** A `newmtl` line the reader recognises: the material read so far is emitted and a reset one named. */
  lemma NewMaterialLine(rules: Rules, st: LibraryState, line: string, n: nat, sc: Scanner)
    requires 6 < |line| && 6 < n && line[..6] == "newmtl" && line[6] == ' '
    ensures LibraryLine(rules, st, line, n, sc)
         == LibraryState((if rules.AsWritten? then ResetAsWritten(st.mat) else Reset(st.mat)).(name := line[7..]),
                         true, st.out + if st.hasMat then [st.mat] else [])
  {
    LibraryTagOfFirstWord(line, n, 6);
  }

  /** A `Tf` line the reader recognises sets the transparency of the material being read. */
  lemma TransmissionLine(rules: Rules, st: LibraryState, line: string, n: nat, sc: Scanner, c: Color3)
    requires 2 < |line| && 2 < n && line[..2] == "Tf" && line[2] == ' ' && sc.color(line[3..]) == Some(c)
    ensures LibraryLine(rules, st, line, n, sc) == st.(mat := st.mat.(transparency := TfTransparency(c)))
  {
    LibraryTagOfFirstWord(line, n, 2);
  }

  /** A `map_t_normal` line sets the normal map, when the length the test sees is beyond the tag. */
  lemma NormalMapTagLine(rules: Rules, st: LibraryState, line: string, n: nat, sc: Scanner)
    requires 12 < |line| && line[..12] == "map_t_normal" && line[12] == ' '
    ensures LibraryLine(rules, st, line, n, sc)
         == if 12 < n then st.(mat := st.mat.(normalmapFilename := line[13..])) else st
  {
    LibraryTagOfFirstWord(line, n, 12);
  }

  /** A library that defines one material: its name and `Tf` transparency. */
  lemma SingleMaterial(name: string, c: Color3, blank: ObjMaterial, sc: Scanner)
    requires sc.color("x") == Some(c)
    ensures Library(Corrected, ["newmtl " + name, "Tf x"], 0, blank, sc) == [Reset(blank).(name := name, transparency := TfTransparency(c))]
  {
    var l1, l2 := "newmtl " + name, "Tf x";
    var st0 := LibraryState(blank, false, []);
    LibraryLinesSnoc(Corrected, st0, [], l1, 0, sc);
    LibraryLinesSnoc(Corrected, st0, [l1], l2, 0, sc);
    assert [] + [l1] == [l1] && [l1] + [l2] == [l1, l2];
    assert l1[..6] == "newmtl" && l1[7..] == name;
    NewMaterialLine(Corrected, st0, l1, |l1|, sc);
    var st1 := LibraryState(Reset(blank).(name := name), true, []);
    assert l2[..2] == "Tf" && l2[3..] == "x";
    TransmissionLine(Corrected, st1, l2, |l2|, sc, c);
  }

  /**
   * As written, `reset` keeps the transparency: in `newmtl glass`, `Tf 0 0 0`,
   * `newmtl wood`, the wood comes out fully transparent like the glass. The
   * corrected reset gives it transparency 0.
   */
  lemma TransparencyCarriesOver(blank: ObjMaterial, sc: Scanner)
    requires sc.color("0 0 0") == Some(Black)
    ensures var lines := ["newmtl glass", "Tf 0 0 0", "newmtl wood"];
      var a, c := Library(AsWritten, lines, 80, blank, sc), Library(Corrected, lines, 80, blank, sc);
      |a| == |c| == 2 && a[1].transparency == 1.0 && c[1].transparency == 0.0
  {
    GlassThenWood(AsWritten, blank, sc);
    GlassThenWood(Corrected, blank, sc);
  }

  /** The wood material after a transparent glass, under either rules. */
  lemma GlassThenWood(rules: Rules, blank: ObjMaterial, sc: Scanner)
    requires sc.color("0 0 0") == Some(Black)
    ensures var l := Library(rules, ["newmtl glass", "Tf 0 0 0", "newmtl wood"], 80, blank, sc);
      |l| == 2 && l[1].transparency == if rules.AsWritten? then 1.0 else 0.0
  {
    var l1, l2, l3 := "newmtl glass", "Tf 0 0 0", "newmtl wood";
    var st0 := LibraryState(blank, false, []);
    assert [] + [l1] == [l1] && [l1] + [l2] == [l1, l2] && [l1, l2] + [l3] == [l1, l2, l3];
    LibraryLinesSnoc(rules, st0, [], l1, 80, sc);
    LibraryLinesSnoc(rules, st0, [l1], l2, 80, sc);
    LibraryLinesSnoc(rules, st0, [l1, l2], l3, 80, sc);
    assert l1[..6] == "newmtl" && l3[..6] == "newmtl" && l2[..2] == "Tf" && l2[3..] == "0 0 0";
    NewMaterialLine(rules, st0, l1, SeenLength(rules, l1, 80), sc);
    var st1 := LibraryLines(rules, st0, [l1], 80, sc);
    assert st1.hasMat && st1.out == [];
    TransmissionLine(rules, st1, l2, SeenLength(rules, l2, 80), sc, Black);
    var st2 := LibraryLines(rules, st0, [l1, l2], 80, sc);
    assert st2.hasMat && st2.out == [] && st2.mat.transparency == 1.0;
    NewMaterialLine(rules, st2, l3, SeenLength(rules, l3, 80), sc);
  }

  /**
   * As written, the tag test in a library sees the length of the `mtllib`
   * line: after `mtllib a.mtl` (12 characters) a `map_t_normal n.png` line is
   * not recognised, so the material gets no normal map. With the library
   * line's own length it is read.
   */
  lemma StaleLengthHidesNormalMap(blank: ObjMaterial, sc: Scanner)
    ensures var lines := ["newmtl m", "map_t_normal n.png"];
      var a, c := Library(AsWritten, lines, 12, blank, sc), Library(Corrected, lines, 12, blank, sc);
      |a| == |c| == 1 && a[0].normalmapFilename == "" && c[0].normalmapFilename == "n.png"
  {
    NormalMapLine(AsWritten, blank, sc);
    NormalMapLine(Corrected, blank, sc);
  }

  /** The normal map a `map_t_normal` line gives, under either rules, after a 12-character `mtllib` line. */
  lemma NormalMapLine(rules: Rules, blank: ObjMaterial, sc: Scanner)
    ensures var l := Library(rules, ["newmtl m", "map_t_normal n.png"], 12, blank, sc);
      |l| == 1 && l[0].normalmapFilename == if rules.AsWritten? then "" else "n.png"
  {
    var l1, l2 := "newmtl m", "map_t_normal n.png";
    var st0 := LibraryState(blank, false, []);
    assert [] + [l1] == [l1] && [l1] + [l2] == [l1, l2];
    LibraryLinesSnoc(rules, st0, [], l1, 12, sc);
    LibraryLinesSnoc(rules, st0, [l1], l2, 12, sc);
    assert l1[..6] == "newmtl" && l2[..12] == "map_t_normal" && l2[13..] == "n.png";
    NewMaterialLine(rules, st0, l1, SeenLength(rules, l1, 12), sc);
    var st1 := LibraryLines(rules, st0, [l1], 12, sc);
    assert st1.hasMat && st1.out == [] && st1.mat.normalmapFilename == "";
    NormalMapTagLine(rules, st1, l2, SeenLength(rules, l2, 12), sc);
  }
}
