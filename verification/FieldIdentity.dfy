/**
 The identity of a GRIB2 field: the product definition templates that the encoder builds,
 the descriptors that the decoder extracts from them, and the name printed from either.
 Template numbers and entries are those of GRIB edition 2, Section 4 (WMO-No. 306, Manual
 on Codes, Volume I.2); only the agreement of builders and extractors is claimed.
 */
module FieldIdentity {
  import opened Common
  import opened Text

  /** The settings that reach Section 4. */
  datatype Settings = Settings(
    category: int, number: int,
    surfaceType: int, surfaceScale: int, surfaceValue: int,
    forecastTime: int, timeUnit: int,
    constituent: int, aerosol: int, sizeFirst: int, sizeSecond: int,
    optical: int, waveFirst: int, waveLast: int,
    perturbation: int,
    statistic: int, rangeUnit: int, rangeLength: int, rangeCount: int, missing: int)

  /** Composition descriptors; those that a template does not carry are 0. */
  datatype Composition = Composition(
    pdt: int, constituent: int, aerosol: int, optical: int, waveFirst: int, waveLast: int, perturbation: int, statistic: int)

  /** Everything a name is printed from. */
  datatype Identity = Identity(discipline: int, category: int, number: int, surfaceType: int, surfaceValue: int, composition: Composition)

  predicate Supported(pdt: int) {
    pdt == 0 || pdt == 8 || pdt == 40 || pdt == 44 || pdt == 45 || pdt == 46 || pdt == 48 || pdt == 49
  }

  /******* Building templates *******/

  function BuildPdt0(s: Settings): seq<int> {
    [s.category, s.number, 2, 0, 0, 0, 0, s.timeUnit, s.forecastTime,
     s.surfaceType, s.surfaceScale, s.surfaceValue, 255, 0, 0]
  }

  function BuildPdt8(s: Settings): seq<int> {
    [s.category, s.number, 2, 0, 0, 0, 0, s.timeUnit, s.forecastTime,
     s.surfaceType, s.surfaceScale, s.surfaceValue, 255, 0, 0,
     0, 0, 0, 0, 0, 0,
     s.rangeCount, s.missing, s.statistic, 2, s.rangeUnit, s.rangeLength, s.timeUnit, 0]
  }

  function BuildPdt40(s: Settings): seq<int> {
    [s.category, s.number, s.constituent, 2, 0, 0, 0, 0, s.timeUnit, s.forecastTime,
     s.surfaceType, s.surfaceScale, s.surfaceValue, 255, 0, 0]
  }

  function BuildPdt44(s: Settings): seq<int> {
    [s.category, s.number, s.aerosol, 0, 0, s.sizeFirst, 0, s.sizeSecond,
     2, 0, 0, 0, 0, s.timeUnit, s.forecastTime,
     s.surfaceType, s.surfaceScale, s.surfaceValue, 255, 0, 0]
  }

  function BuildPdt45(s: Settings): seq<int> {
    [s.category, s.number, s.aerosol, 0, 0, s.sizeFirst, 0, s.sizeSecond,
     2, 0, 0, 0, 0, s.timeUnit, s.forecastTime,
     0, s.perturbation, 0,
     s.surfaceType, s.surfaceScale, s.surfaceValue, 255, 0, 0]
  }

  function BuildPdt46(s: Settings): seq<int> {
    [s.category, s.number, s.aerosol, 0, 0, s.sizeFirst, 0, s.sizeSecond,
     2, 0, 0, 0, 0, s.timeUnit, s.forecastTime,
     s.surfaceType, s.surfaceScale, s.surfaceValue, 255, 0, 0,
     0, 0, 0, 0, 0, 0,
     s.rangeCount, s.missing, s.statistic, 0, s.rangeUnit, s.rangeLength, 0, 0]
  }

  function BuildPdt48(s: Settings): seq<int> {
    [s.category, s.number, s.aerosol, 0, 0, 0, 0, 0,
     s.optical, 0, s.waveFirst, 0, s.waveLast,
     2, 0, 0, 0, 0, s.timeUnit, s.forecastTime,
     s.surfaceType, s.surfaceScale, s.surfaceValue, 255, 0, 0]
  }

  function BuildPdt49(s: Settings): seq<int> {
    [s.category, s.number, s.aerosol, 0, 0, 0, 0, 0,
     s.optical, 0, s.waveFirst, 0, s.waveLast,
     2, 0, 0, 0, 0, s.timeUnit, s.forecastTime,
     0, s.perturbation, 0,
     s.surfaceType, s.surfaceScale, s.surfaceValue, 255, 0, 0]
  }

  /** The encoder's dispatch; other template numbers are refused. */
  function BuildPdt(pdt: int, s: Settings): Option<seq<int>> {
    if pdt == 0 then Some(BuildPdt0(s))
    else if pdt == 8 then Some(BuildPdt8(s))
    else if pdt == 40 then Some(BuildPdt40(s))
    else if pdt == 44 then Some(BuildPdt44(s))
    else if pdt == 45 then Some(BuildPdt45(s))
    else if pdt == 46 then Some(BuildPdt46(s))
    else if pdt == 48 then Some(BuildPdt48(s))
    else if pdt == 49 then Some(BuildPdt49(s))
    else None
  }

  /******* Extracting descriptors *******/

  /** An entry of a template, 0 beyond its end. */
  function Entry(t: seq<int>, k: nat): int {
    if k < |t| then t[k] else 0
  }

  const NO_COMPOSITION := Composition(0, 0, 0, 0, 0, 0, 0, 0)

  function Extract(pdt: int, t: seq<int>): Composition {
    var c := NO_COMPOSITION.(pdt := pdt);
    if pdt == 40 then c.(constituent := Entry(t, 2))
    else if pdt == 44 then c.(aerosol := Entry(t, 2))
    else if pdt == 45 then c.(aerosol := Entry(t, 2), perturbation := Entry(t, 16))
    else if pdt == 46 then c.(aerosol := Entry(t, 2), statistic := Entry(t, 29))
    else if pdt == 48 then c.(aerosol := Entry(t, 2), optical := Entry(t, 8), waveFirst := Entry(t, 10), waveLast := Entry(t, 12))
    else if pdt == 49 then
      c.(aerosol := Entry(t, 2), optical := Entry(t, 8), waveFirst := Entry(t, 10), waveLast := Entry(t, 12), perturbation := Entry(t, 21))
    else if pdt == 8 then c.(statistic := Entry(t, 23))
    else c
  }

  function SurfaceTypeIndex(pdt: int): nat {
    if pdt == 40 then 10
    else if pdt == 44 || pdt == 46 then 15
    else if pdt == 45 then 18
    else if pdt == 48 then 20
    else if pdt == 49 then 23
    else 9
  }

  function SurfaceValueIndex(pdt: int): nat { SurfaceTypeIndex(pdt) + 2 }

  /** The identity that the decoder derives from a template. */
  function DecodedIdentity(discipline: int, pdt: int, t: seq<int>): Identity {
    Identity(discipline, Entry(t, 0), Entry(t, 1), Entry(t, SurfaceTypeIndex(pdt)), Entry(t, SurfaceValueIndex(pdt)), Extract(pdt, t))
  }

  /** The identity that settings describe directly, whatever the template's layout. */
  function Described(discipline: int, pdt: int, s: Settings): Identity {
    Identity(discipline, s.category, s.number, s.surfaceType, s.surfaceValue,
             Composition(pdt, s.constituent, s.aerosol, s.optical, s.waveFirst, s.waveLast, s.perturbation, s.statistic))
  }

  /******* Printing *******/

  function BaseSegments(id: Identity): seq<Segment> {
    [Segment("d", id.discipline), Segment("_c", id.category), Segment("_n", id.number),
     Segment("_s", id.surfaceType), Segment("_l", id.surfaceValue)]
  }

  function Wavelengths(c: Composition): seq<Segment> {
    [Segment("_at", c.aerosol), Segment("_op", c.optical), Segment("_wl", c.waveFirst), Segment("_", c.waveLast)]
  }

  function Suffix(c: Composition): seq<Segment> {
    if c.pdt == 40 then [Segment("_ct", c.constituent)]
    else if c.pdt == 44 then [Segment("_at", c.aerosol)]
    else if c.pdt == 45 then [Segment("_at", c.aerosol), Segment("_ep", c.perturbation)]
    else if c.pdt == 46 then [Segment("_at", c.aerosol), Segment("_sp", c.statistic)]
    else if c.pdt == 48 then Wavelengths(c)
    else if c.pdt == 49 then Wavelengths(c) + [Segment("_ep", c.perturbation)]
    else if c.pdt == 8 then [Segment("_sp", c.statistic)]
    else []
  }

  function Segments(id: Identity): seq<Segment> {
    BaseSegments(id) + Suffix(id.composition)
  }

  /** `field_identity_name`: each segment is a tag and a decimal integer. */
  function Name(id: Identity): string {
    Render(Segments(id))
  }

  lemma RenderOneMore(x: Segment, rest: seq<Segment>)
    ensures Render([x] + rest) == x.tag + Show(x.value) + Render(rest)
  {
    assert ([x] + rest)[1..] == rest;
  }

  lemma {:induction false} RenderBoth(x: seq<Segment>, y: seq<Segment>)
    ensures Render(x + y) == Render(x) + Render(y)
  {
    if x == [] {
      assert x + y == y;
    } else {
      assert (x + y)[1..] == x[1..] + y;
      RenderBoth(x[1..], y);
    }
  }

  lemma RenderOne(a: Segment)
    ensures Render([a]) == a.tag + Show(a.value)
  {
  }

  lemma RenderTwo(a: Segment, b: Segment)
    ensures Render([a, b]) == a.tag + Show(a.value) + b.tag + Show(b.value)
  {
    RenderOneMore(a, [b]);
    RenderOne(b);
    assert [a] + [b] == [a, b];
  }

  lemma RenderThree(a: Segment, b: Segment, c: Segment)
    ensures Render([a, b, c]) == a.tag + Show(a.value) + b.tag + Show(b.value) + c.tag + Show(c.value)
  {
    RenderOneMore(a, [b, c]);
    RenderTwo(b, c);
    assert [a] + [b, c] == [a, b, c];
  }

  function BaseText(id: Identity): string {
    "d" + Show(id.discipline) + "_c" + Show(id.category) + "_n" + Show(id.number)
    + "_s" + Show(id.surfaceType) + "_l" + Show(id.surfaceValue)
  }

  lemma RenderBase(id: Identity)
    ensures Render(BaseSegments(id)) == BaseText(id)
  {
    var a, b := Segment("d", id.discipline), Segment("_c", id.category);
    var c := Segment("_n", id.number);
    var x, y := Segment("_s", id.surfaceType), Segment("_l", id.surfaceValue);
    RenderThree(a, b, c);
    RenderTwo(x, y);
    RenderBoth([a, b, c], [x, y]);
    assert BaseSegments(id) == [a, b, c] + [x, y];
  }

  lemma RenderWavelengths(c: Composition)
    ensures Render(Wavelengths(c)) ==
      "_at" + Show(c.aerosol) + "_op" + Show(c.optical) + "_wl" + Show(c.waveFirst) + "_" + Show(c.waveLast)
  {
    var x := Wavelengths(c);
    RenderThree(x[0], x[1], x[2]);
    RenderOne(x[3]);
    RenderBoth([x[0], x[1], x[2]], [x[3]]);
    assert x == [x[0], x[1], x[2]] + [x[3]];
  }

  lemma RenderSuffix(c: Composition)
    ensures Render(Suffix(c)) == SuffixText(c)
  {
    match c.pdt
    case 8 => RenderOne(Segment("_sp", c.statistic));
    case 40 => RenderOne(Segment("_ct", c.constituent));
    case 44 => RenderOne(Segment("_at", c.aerosol));
    case 45 => RenderTwo(Segment("_at", c.aerosol), Segment("_ep", c.perturbation));
    case 46 => RenderTwo(Segment("_at", c.aerosol), Segment("_sp", c.statistic));
    case 48 => RenderWavelengths(c);
    case 49 => RenderPerturbed(c);
    case _ =>
  }

  lemma RenderPerturbed(c: Composition)
    requires c.pdt == 49
    ensures Render(Suffix(c)) == SuffixText(c)
  {
    RenderWavelengths(c);
    RenderOne(Segment("_ep", c.perturbation));
    RenderBoth(Wavelengths(c), [Segment("_ep", c.perturbation)]);
  }

  function SuffixText(c: Composition): string {
    match c.pdt
    case 8 => "_sp" + Show(c.statistic)
    case 40 => "_ct" + Show(c.constituent)
    case 44 => "_at" + Show(c.aerosol)
    case 45 => "_at" + Show(c.aerosol) + "_ep" + Show(c.perturbation)
    case 46 => "_at" + Show(c.aerosol) + "_sp" + Show(c.statistic)
    case 48 => "_at" + Show(c.aerosol) + "_op" + Show(c.optical) + "_wl" + Show(c.waveFirst) + "_" + Show(c.waveLast)
    case 49 => "_at" + Show(c.aerosol) + "_op" + Show(c.optical) + "_wl" + Show(c.waveFirst) + "_" + Show(c.waveLast) + "_ep" + Show(c.perturbation)
    case _ => ""
  }

  /** The text of a name: the five descriptors that all templates have, and behind them
      those of the template. */
  lemma NameText(id: Identity)
    ensures Name(id) ==
      "d" + Show(id.discipline) + "_c" + Show(id.category) + "_n" + Show(id.number)
      + "_s" + Show(id.surfaceType) + "_l" + Show(id.surfaceValue) + SuffixText(id.composition)
  {
    RenderBase(id);
    RenderSuffix(id.composition);
    RenderBoth(BaseSegments(id), Suffix(id.composition));
  }

  /******* Parsing *******/

  /** The part of a composition that its template prints. */
  function Printed(c: Composition): Composition {
    var z := NO_COMPOSITION.(pdt := c.pdt);
    if c.pdt == 40 then z.(constituent := c.constituent)
    else if c.pdt == 44 then z.(aerosol := c.aerosol)
    else if c.pdt == 45 then z.(aerosol := c.aerosol, perturbation := c.perturbation)
    else if c.pdt == 46 then z.(aerosol := c.aerosol, statistic := c.statistic)
    else if c.pdt == 48 then z.(aerosol := c.aerosol, optical := c.optical, waveFirst := c.waveFirst, waveLast := c.waveLast)
    else if c.pdt == 49 then c.(constituent := 0, statistic := 0)
    else if c.pdt == 8 then z.(statistic := c.statistic)
    else z
  }

  function Canonical(id: Identity): Identity { id.(composition := Printed(id.composition)) }

  function Tags(segments: seq<Segment>): seq<string> {
    seq(|segments|, i requires 0 <= i < |segments| => segments[i].tag)
  }

  /** Read the template off the tags of the suffix and the descriptors off its values. */
  function ParseSuffix(x: seq<Segment>): Option<Composition> {
    var z := NO_COMPOSITION;
    var tags := Tags(x);
    if tags == [] then Some(z)
    else if tags == ["_ct"] then Some(z.(pdt := 40, constituent := x[0].value))
    else if tags == ["_at"] then Some(z.(pdt := 44, aerosol := x[0].value))
    else if tags == ["_at", "_ep"] then Some(z.(pdt := 45, aerosol := x[0].value, perturbation := x[1].value))
    else if tags == ["_at", "_sp"] then Some(z.(pdt := 46, aerosol := x[0].value, statistic := x[1].value))
    else if tags == ["_sp"] then Some(z.(pdt := 8, statistic := x[0].value))
    else if tags == ["_at", "_op", "_wl", "_"] then
      Some(z.(pdt := 48, aerosol := x[0].value, optical := x[1].value, waveFirst := x[2].value, waveLast := x[3].value))
    else if tags == ["_at", "_op", "_wl", "_", "_ep"] then
      Some(z.(pdt := 49, aerosol := x[0].value, optical := x[1].value, waveFirst := x[2].value, waveLast := x[3].value,
              perturbation := x[4].value))
    else None
  }

  function Parse(name: string): Option<Identity> {
    var x := Tokenize(name);
    if |x| < 5 || Tags(x[..5]) != ["d", "_c", "_n", "_s", "_l"] then None
    else
      var suffix := ParseSuffix(x[5..]);
      if suffix.None? then None
      else Some(Identity(x[0].value, x[1].value, x[2].value, x[3].value, x[4].value, suffix.value))
  }

  /******* Properties *******/

  lemma TagIsSound(tag: string)
    requires tag in ["d", "_c", "_n", "_s", "_l", "_ct", "_at", "_ep", "_sp", "_op", "_wl", "_"]
    ensures TagSound(tag)
  {
  }

  lemma SegmentsAreSound(id: Identity)
    ensures SegmentsSound(Segments(id))
  {
    var x := Segments(id);
    forall i | 0 <= i < |x| ensures TagSound(x[i].tag) {
      TagIsSound(x[i].tag);
    }
  }

  lemma SuffixParses(c: Composition)
    requires Supported(c.pdt)
    ensures ParseSuffix(Suffix(c)) == Some(Printed(c))
  {
    var tags := Tags(Suffix(c));
    assert |tags| == |Suffix(c)|;
    if c.pdt == 0 { assert tags == []; }
    else if c.pdt == 8 { assert tags == ["_sp"]; }
    else if c.pdt == 40 { assert tags == ["_ct"]; }
    else if c.pdt == 44 { assert tags == ["_at"]; }
    else if c.pdt == 45 { assert tags == ["_at", "_ep"]; }
    else if c.pdt == 46 { assert tags == ["_at", "_sp"]; }
    else if c.pdt == 48 { assert tags == ["_at", "_op", "_wl", "_"]; }
    else { assert tags == ["_at", "_op", "_wl", "_", "_ep"]; }
  }

  /** The name is a lossless print: a parser recovers the template number and every
      descriptor that the template prints, negative ones included. */
  lemma ParseOfName(id: Identity)
    requires Supported(id.composition.pdt)
    ensures Parse(Name(id)) == Some(Canonical(id))
  {
    SegmentsAreSound(id);
    TokenizeRender(Segments(id));
    var x := Segments(id);
    assert x[..5] == BaseSegments(id) && x[5..] == Suffix(id.composition);
    assert Tags(x[..5]) == ["d", "_c", "_n", "_s", "_l"];
    SuffixParses(id.composition);
  }

  lemma NameDependsOnPrinted(id: Identity)
    ensures Name(Canonical(id)) == Name(id)
  {
    assert Suffix(Printed(id.composition)) == Suffix(id.composition);
  }

  /** Two fields of supported templates share a name exactly when they agree in template
      number and in every printed descriptor. */
  lemma NameIsInjective(a: Identity, b: Identity)
    requires Supported(a.composition.pdt) && Supported(b.composition.pdt)
    ensures Name(a) == Name(b) <==> Canonical(a) == Canonical(b)
  {
    ParseOfName(a);
    ParseOfName(b);
    NameDependsOnPrinted(a);
    NameDependsOnPrinted(b);
  }

  /** What a name can tell: an unsupported template counts as template 4.0. */
  function Told(id: Identity): Identity {
    if Supported(id.composition.pdt) then Canonical(id) else id.(composition := NO_COMPOSITION)
  }

  /** Two fields, of whatever templates, share a name exactly when the name cannot tell them
      apart. */
  lemma SameNameIff(a: Identity, b: Identity)
    ensures Name(a) == Name(b) <==> Told(a) == Told(b)
  {
    NameOfTold(a);
    NameOfTold(b);
    NameIsInjective(Told(a), Told(b));
  }

  lemma NameOfTold(id: Identity)
    ensures Name(Told(id)) == Name(id) && Supported(Told(id).composition.pdt) && Canonical(Told(id)) == Told(id)
  {
    if Supported(id.composition.pdt) {
      NameDependsOnPrinted(id);
    } else {
      UnsupportedNameCollides(id);
    }
  }

  /** Outside the supported templates the number is lost: such a field gets the name of
      the template 4.0 field with the same five descriptors. */
  lemma UnsupportedNameCollides(id: Identity)
    ensures Parse(Name(id)) == Some(Canonical(id)) <==> Supported(id.composition.pdt)
    ensures !Supported(id.composition.pdt) ==> Name(id) == Name(id.(composition := NO_COMPOSITION))
  {
    if Supported(id.composition.pdt) {
      ParseOfName(id);
    } else {
      ParseOfName(id.(composition := NO_COMPOSITION));
      assert Segments(id) == Segments(id.(composition := NO_COMPOSITION));
    }
  }

  /** Decoding what the encoder built gives back the settings that the template prints,
      and so the name that printing the settings directly gives: the builders, the table
      of surface indices and the extractor agree. */
  lemma DecodedNameIsDirectName(discipline: int, pdt: int, s: Settings)
    requires Supported(pdt)
    ensures BuildPdt(pdt, s).Some?
    ensures DecodedIdentity(discipline, pdt, BuildPdt(pdt, s).value) == Canonical(Described(discipline, pdt, s))
    ensures Name(DecodedIdentity(discipline, pdt, BuildPdt(pdt, s).value)) == Name(Described(discipline, pdt, s))
    ensures Parse(Name(DecodedIdentity(discipline, pdt, BuildPdt(pdt, s).value))) == Some(Canonical(Described(discipline, pdt, s)))
  {
    DecodedIsDescribed(discipline, pdt, s);
    NameDependsOnPrinted(Described(discipline, pdt, s));
    ParseOfName(Described(discipline, pdt, s));
  }

  lemma DecodedIsDescribed(discipline: int, pdt: int, s: Settings)
    requires Supported(pdt)
    ensures BuildPdt(pdt, s).Some?
    ensures DecodedIdentity(discipline, pdt, BuildPdt(pdt, s).value) == Canonical(Described(discipline, pdt, s))
  {
    var t := BuildPdt(pdt, s).value;
    if pdt == 45 || pdt == 46 || pdt == 8 {
      DecodedStatistics(discipline, pdt, s);
    } else if pdt == 48 || pdt == 49 {
      DecodedOptics(discipline, pdt, s);
    }
  }

  lemma DecodedStatistics(discipline: int, pdt: int, s: Settings)
    requires pdt == 45 || pdt == 46 || pdt == 8
    ensures DecodedIdentity(discipline, pdt, BuildPdt(pdt, s).value) == Canonical(Described(discipline, pdt, s))
  {
    if pdt == 45 { assert BuildPdt(pdt, s) == Some(BuildPdt45(s)); }
    else if pdt == 46 { assert BuildPdt(pdt, s) == Some(BuildPdt46(s)); }
  }

  lemma DecodedOptics(discipline: int, pdt: int, s: Settings)
    requires pdt == 48 || pdt == 49
    ensures DecodedIdentity(discipline, pdt, BuildPdt(pdt, s).value) == Canonical(Described(discipline, pdt, s))
  {
    if pdt == 48 { assert BuildPdt(pdt, s) == Some(BuildPdt48(s)); }
  }

  /** The encoder accepts exactly the templates whose names can be told apart. */
  lemma EncoderAcceptsIff(pdt: int, s: Settings)
    ensures BuildPdt(pdt, s).Some? <==> Supported(pdt)
    ensures BuildPdt(pdt, s).Some? ==> SurfaceValueIndex(pdt) < |BuildPdt(pdt, s).value|
  {
  }
}
