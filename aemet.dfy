/**
 * The pure helpers of the AEMET OpenData client: the sky-description emoji
 * classifier, the autonomous-community (CCAA) code table with its guard in
 * front of the four CCAA forecast endpoints, the code-to-name lookup, and
 * the municipality name filter.
 */
module Aemet {
  import opened Wrappers
  import opened Text

  // ---------------------------------------------------------------------------
  // Weather emoji
  // ---------------------------------------------------------------------------

  const Sun: string := "\U{2600}\U{FE0F}"
  const SunBehindCloud: string := "\U{26C5}"
  const Cloud: string := "\U{2601}\U{FE0F}"
  const CloudRain: string := "\U{2601}\U{FE0F}\U{1F327}\U{FE0F}"
  const Fog: string := "\U{1F32B}\U{FE0F}"
  const Rain: string := "\U{1F327}\U{FE0F}"
  const Thunderstorm: string := "\U{26C8}\U{FE0F}"
  const Snow: string := "\U{2744}\U{FE0F}"
  const SunBehindSmallCloud: string := "\U{1F324}\U{FE0F}"

  /** Every string the classifier can return. */
  const WeatherEmojis: set<string> :=
    {Sun, SunBehindCloud, Cloud, CloudRain, Fog, Rain, Thunderstorm, Snow, SunBehindSmallCloud}

  /** The ordered branch list, applied to an already lower-cased description; first match wins. */
  function ClassifySky(desc: string): (e: string)
    ensures e in WeatherEmojis
    ensures Contains(desc, "despejado") ==> e == Sun
  {
    if Contains(desc, "despejado") then Sun
    else if Contains(desc, "poco nuboso") then SunBehindCloud
    else if Contains(desc, "nuboso") && !Contains(desc, "muy") then SunBehindCloud
    else if Contains(desc, "muy nuboso") then Cloud
    else if Contains(desc, "cubierto") then CloudRain
    else if Contains(desc, "niebla") then Fog
    else if Contains(desc, "lluvia") || Contains(desc, "chubasco") then Rain
    else if Contains(desc, "tormenta") then Thunderstorm
    else if Contains(desc, "nieve") then Snow
    else if Contains(desc, "nubes") || Contains(desc, "altas") then SunBehindCloud
    else if Contains(desc, "sol") then Sun
    else SunBehindSmallCloud
  }

  /**
   * `_get_weather_emoji`: a missing or empty description is classified as "",
   * anything else by its lower-cased text. Total: it never fails.
   */
  function WeatherEmoji(descripcion: Option<string>): (e: string)
    ensures e in WeatherEmojis
    ensures descripcion.None? ==> e == SunBehindSmallCloud
  {
    var desc := if descripcion.None? || descripcion.value == "" then "" else Lower(descripcion.value);
    ClassifySky(desc)
  }

  /** No keyword occurs in the empty description, so it falls through to the last branch. */
  lemma WeatherEmojiEmpty()
    ensures WeatherEmoji(None) == SunBehindSmallCloud
    ensures WeatherEmoji(Some("")) == SunBehindSmallCloud
  {
    assert !Contains("", "despejado") && !Contains("", "poco nuboso") && !Contains("", "nuboso");
    assert !Contains("", "muy nuboso") && !Contains("", "cubierto") && !Contains("", "niebla");
    assert !Contains("", "lluvia") && !Contains("", "chubasco") && !Contains("", "tormenta");
    assert !Contains("", "nieve") && !Contains("", "nubes") && !Contains("", "altas");
    assert !Contains("", "sol");
  }

  /** The classification depends only on the lower-cased description. */
  lemma WeatherEmojiCaseInsensitive(a: string, b: string)
    requires Lower(a) == Lower(b)
    ensures WeatherEmoji(Some(a)) == WeatherEmoji(Some(b))
    ensures WeatherEmoji(Some(a)) == WeatherEmoji(Some(Lower(a)))
  {
    LowerIdempotent(a);
  }

  /** "despejado" anywhere, in any case, wins over every other keyword. */
  lemma WeatherEmojiClear(s: string)
    requires Contains(Lower(s), "despejado")
    ensures WeatherEmoji(Some(s)) == Sun
  {
  }

  /** Without "despejado", "poco nuboso" gives the sun behind a cloud. */
  lemma WeatherEmojiFewClouds(s: string)
    requires !Contains(Lower(s), "despejado") && Contains(Lower(s), "poco nuboso")
    ensures WeatherEmoji(Some(s)) == SunBehindCloud
  {
    assert s != "";
  }

  /** "nuboso" without "muy" (and without "despejado") gives the sun behind a cloud. */
  lemma WeatherEmojiCloudy(s: string)
    requires !Contains(Lower(s), "despejado")
    requires Contains(Lower(s), "nuboso") && !Contains(Lower(s), "muy")
    ensures WeatherEmoji(Some(s)) == SunBehindCloud
  {
    assert s != "";
  }

  /**
   * "muy nuboso" (without the two earlier keywords) gives a cloud: the
   * "nuboso" branch cannot fire, because the description contains "muy".
   */
  lemma WeatherEmojiVeryCloudy(s: string)
    requires !Contains(Lower(s), "despejado") && !Contains(Lower(s), "poco nuboso")
    requires Contains(Lower(s), "muy nuboso")
    ensures WeatherEmoji(Some(s)) == Cloud
  {
    assert s != "";
    ContainsPieces("muy", " nuboso");
    ContainsTransitive(Lower(s), "muy nuboso", "muy");
  }

  // ---------------------------------------------------------------------------
  // Autonomous communities
  // ---------------------------------------------------------------------------

  /** `CCAA_CODES`: code to community name. */
  const CcaaCodes: map<string, string> := map[
    "and" := "Andalucía",
    "arn" := "Aragón",
    "ast" := "Asturias",
    "bal" := "Balears, Illes",
    "coo" := "Canarias",
    "can" := "Cantabria",
    "cle" := "Castilla y León",
    "clm" := "Castilla - La Mancha",
    "cat" := "Cataluña",
    "val" := "Comunitat Valenciana",
    "ext" := "Extremadura",
    "gal" := "Galicia",
    "mad" := "Madrid, Comunidad de",
    "mur" := "Murcia, Región de",
    "nav" := "Navarra, Comunidad Foral de",
    "pva" := "País Vasco",
    "rio" := "La Rioja"
  ]

  /** The keys of `CCAA_CODES` in insertion order, as `list(CCAA_CODES.keys())` lists them. */
  const CcaaCodeOrder: seq<string> :=
    ["and", "arn", "ast", "bal", "coo", "can", "cle", "clm", "cat",
     "val", "ext", "gal", "mad", "mur", "nav", "pva", "rio"]

  /** No code is listed twice. */
  lemma CcaaCodeOrderDistinct()
    ensures forall i, j :: 0 <= i < j < |CcaaCodeOrder| ==> CcaaCodeOrder[i] != CcaaCodeOrder[j]
  {
  }

  /** The ordered key list names every code of the table and nothing else. */
  lemma CcaaCodeOrderIsKeys()
    ensures forall code :: code in CcaaCodes <==> code in CcaaCodeOrder
  {
    assert CcaaCodes.Keys == {"and", "arn", "ast", "bal", "coo", "can", "cle", "clm", "cat",
                              "val", "ext", "gal", "mad", "mur", "nav", "pva", "rio"};
  }

  /** A sequence without repetitions has as many distinct elements as positions. */
  lemma {:induction false} DistinctCardinality<T>(xs: seq<T>)
    requires forall i, j :: 0 <= i < j < |xs| ==> xs[i] != xs[j]
    ensures |set x | x in xs| == |xs|
    decreases |xs|
  {
    if |xs| > 0 {
      var tail := xs[1..];
      DistinctCardinality(tail);
      assert (set x | x in xs) == (set x | x in tail) + {xs[0]};
      assert xs[0] !in (set x | x in tail);
    }
  }

  /** The table has seventeen communities. */
  lemma CcaaCount()
    ensures |CcaaCodes| == 17
  {
    CcaaCodeOrderIsKeys();
    CcaaCodeOrderDistinct();
    DistinctCardinality(CcaaCodeOrder);
    assert CcaaCodes.Keys == set x | x in CcaaCodeOrder;
  }

  /** The code at each position of the key list is in the table, with a real name. */
  lemma CcaaNamed(i: nat)
    requires i < |CcaaCodeOrder|
    ensures CcaaCodeOrder[i] in CcaaCodes && CcaaCodes[CcaaCodeOrder[i]] != "Desconocido"
  {
    if i < 4 {
    } else if i < 8 {
    } else if i < 12 {
    } else {
    }
  }

  /** Python's repr of a list of plain strings: `['a', 'b']`. */
  function ListRepr(xs: seq<string>): (r: string)
    ensures |r| >= 2 && r[0] == '[' && r[|r| - 1] == ']'
    ensures xs == [] <==> r == "[]"
  {
    "[" + QuotedItems(xs) + "]"
  }

  /** The items of a list repr, each in single quotes, separated by ", ". */
  function QuotedItems(xs: seq<string>): (r: string)
    ensures xs == [] <==> r == ""
    ensures xs != [] ==> |r| >= 2 && r[0] == '\'' && r[|r| - 1] == '\''
  {
    if |xs| == 0 then ""
    else if |xs| == 1 then "'" + xs[0] + "'"
    else "'" + xs[0] + "', " + QuotedItems(xs[1..])
  }

  /** Every element of the list appears, quoted, among the items. */
  lemma {:induction false} QuotedItemsMention(xs: seq<string>, x: string)
    requires x in xs
    ensures Contains(QuotedItems(xs), "'" + x + "'")
    decreases |xs|
  {
    var quoted := "'" + x + "'";
    if |xs| == 1 {
      ContainsSelf(quoted);
    } else {
      var head, rest := "'" + xs[0] + "', ", QuotedItems(xs[1..]);
      assert QuotedItems(xs) == head + rest;
      if xs[0] == x {
        assert QuotedItems(xs) == quoted + (", " + rest);
        ContainsPieces(quoted, ", " + rest);
      } else {
        QuotedItemsMention(xs[1..], x);
        ContainsPieces(head, rest);
        ContainsTransitive(QuotedItems(xs), rest, quoted);
      }
    }
  }

  /** Every element of the list appears, quoted, in its repr. */
  lemma ListReprMentions(xs: seq<string>, x: string)
    requires x in xs
    ensures Contains(ListRepr(xs), "'" + x + "'")
  {
    var items := QuotedItems(xs);
    assert ListRepr(xs) == "[" + (items + "]");
    ContainsPieces("[", items + "]");
    ContainsPieces(items, "]");
    ContainsTransitive(ListRepr(xs), items + "]", items);
    QuotedItemsMention(xs, x);
    ContainsTransitive(ListRepr(xs), items, "'" + x + "'");
  }

  /** The ValueError message, listing the valid codes in table order. */
  const InvalidCcaaMessage: string := "Código CCAA inválido. Opciones: " + ListRepr(CcaaCodeOrder)

  /** The error message names every valid code. */
  lemma InvalidCcaaMessageListsCodes(code: string)
    requires code in CcaaCodes
    ensures Contains(InvalidCcaaMessage, "'" + code + "'")
  {
    CcaaCodeOrderIsKeys();
    ListReprMentions(CcaaCodeOrder, code);
    ContainsPieces("Código CCAA inválido. Opciones: ", ListRepr(CcaaCodeOrder));
    ContainsTransitive(InvalidCcaaMessage, ListRepr(CcaaCodeOrder), "'" + code + "'");
  }

  /** The four CCAA forecast horizons. */
  datatype Period = Today | Tomorrow | DayAfterTomorrow | MediumRange

  /** The path segment of each horizon. */
  function PeriodSegment(p: Period): (seg: string)
    ensures |seg| > 0
  {
    match p
    case Today => "hoy"
    case Tomorrow => "manana"
    case DayAfterTomorrow => "pasadomanana"
    case MediumRange => "medioplazo"
  }

  const CcaaPredictionPrefix: string := "/api/prediccion/ccaa/"

  /**
   * `get_pred_ccaa_hoy`, `_manana`, `_pasadomanana`, `_medioplazo` up to the
   * request: a known code yields the endpoint path; any other code is refused
   * with the ValueError message before a request is built.
   */
  function PredCcaaEndpoint(p: Period, ccaa: string): (r: Result<string, string>)
    ensures r.Success? <==> ccaa in CcaaCodes
    ensures r.Failure? ==> r.error == InvalidCcaaMessage
    ensures r.Success? ==> r.value == CcaaPredictionPrefix + PeriodSegment(p) + "/" + ccaa
  {
    if ccaa !in CcaaCodes then Failure(InvalidCcaaMessage)
    else Success(CcaaPredictionPrefix + PeriodSegment(p) + "/" + ccaa)
  }

  /** Every valid code has three letters. */
  lemma CcaaCodeLength(code: string)
    requires code in CcaaCodes
    ensures |code| == 3
  {
  }

  /** Distinct (horizon, code) requests go to distinct endpoints. */
  lemma PredCcaaEndpointInjective(p: Period, a: string, q: Period, b: string)
    requires PredCcaaEndpoint(p, a).Success? && PredCcaaEndpoint(q, b).Success?
    requires PredCcaaEndpoint(p, a).value == PredCcaaEndpoint(q, b).value
    ensures p == q && a == b
  {
    var pathA, pathB := PredCcaaEndpoint(p, a).value, PredCcaaEndpoint(q, b).value;
    CcaaCodeLength(a);
    CcaaCodeLength(b);
    assert |PeriodSegment(p)| == |PeriodSegment(q)|;
    assert p == q;
    assert a == pathA[|pathA| - 3..];
    assert b == pathB[|pathB| - 3..];
  }

  /** `get_ccaa_name`: the community's name, or "Desconocido" for an unknown code. */
  function CcaaName(code: string): (name: string)
    ensures code in CcaaCodes ==> name == CcaaCodes[code]
    ensures code !in CcaaCodes ==> name == "Desconocido"
  {
    if code in CcaaCodes then CcaaCodes[code] else "Desconocido"
  }

  /** "Desconocido" is not a community name, so it signals exactly the unknown codes. */
  lemma CcaaNameKnownIff(code: string)
    ensures CcaaName(code) != "Desconocido" <==> code in CcaaCodes
  {
    if code in CcaaCodes {
      CcaaCodeOrderIsKeys();
      var i :| 0 <= i < |CcaaCodeOrder| && CcaaCodeOrder[i] == code;
      CcaaNamed(i);
    }
  }

  /** `list_ccaa`: a copy of the code table. Maps are values, so the caller cannot alter the table. */
  function ListCcaa(): (m: map<string, string>)
    ensures m == CcaaCodes
  {
    CcaaCodes
  }

  /** The listed table and the name lookup agree on every code. */
  lemma ListCcaaAgreesWithName(code: string)
    ensures code in ListCcaa() ==> ListCcaa()[code] == CcaaName(code)
    ensures code !in ListCcaa() ==> CcaaName(code) == "Desconocido"
  {
  }

  // ---------------------------------------------------------------------------
  // Municipality search
  // ---------------------------------------------------------------------------

  /** A municipality record as returned by the maestro endpoint: field name to text. */
  type Municipio = map<string, string>

  /** `m.get("nombre", "")`. */
  function NombreOf(m: Municipio): (n: string)
    ensures "nombre" in m ==> n == m["nombre"]
    ensures "nombre" !in m ==> n == ""
  {
    if "nombre" in m then m["nombre"] else ""
  }

  /** The comprehension's condition: the lower-cased query occurs in the lower-cased name. */
  predicate NameMatches(m: Municipio, nombre: string)
    ensures nombre == "" ==> NameMatches(m, nombre)
    ensures NameMatches(m, nombre) ==> |nombre| <= |NombreOf(m)|
  {
    Contains(Lower(NombreOf(m)), Lower(nombre))
  }

  /** The filter of `find_municipio`, over the municipality list given as input. */
  function FindMunicipio(municipios: seq<Municipio>, nombre: string): (r: seq<Municipio>)
    ensures |r| <= |municipios|
    ensures forall m :: m in r ==> m in municipios && NameMatches(m, nombre)
    ensures forall m :: m in municipios && NameMatches(m, nombre) ==> m in r
  {
    if |municipios| == 0 then []
    else
      var rest := FindMunicipio(municipios[1..], nombre);
      if NameMatches(municipios[0], nombre) then [municipios[0]] + rest else rest
  }

  /** `a` is obtained from `b` by deleting elements, keeping the order. */
  predicate IsSubsequence<T(==)>(a: seq<T>, b: seq<T>)
    decreases |b|
  {
    if |a| == 0 then true
    else if |b| == 0 then false
    else if a[0] == b[0] then IsSubsequence(a[1..], b[1..])
    else IsSubsequence(a, b[1..])
  }

  /** The result keeps the input order. */
  lemma {:induction false} FindMunicipioInOrder(municipios: seq<Municipio>, nombre: string)
    ensures IsSubsequence(FindMunicipio(municipios, nombre), municipios)
    decreases |municipios|
  {
    if |municipios| > 0 {
      var rest := FindMunicipio(municipios[1..], nombre);
      FindMunicipioInOrder(municipios[1..], nombre);
    }
  }

  /** Filtering a concatenation filters each part. */
  lemma {:induction false} FindMunicipioAppend(a: seq<Municipio>, b: seq<Municipio>, nombre: string)
    ensures FindMunicipio(a + b, nombre) == FindMunicipio(a, nombre) + FindMunicipio(b, nombre)
    decreases |a|
  {
    if |a| == 0 {
      assert a + b == b;
    } else {
      assert (a + b)[1..] == a[1..] + b;
      FindMunicipioAppend(a[1..], b, nombre);
    }
  }

  /** The empty query matches every record, so nothing is dropped. */
  lemma {:induction false} FindMunicipioEmptyQuery(municipios: seq<Municipio>)
    ensures FindMunicipio(municipios, "") == municipios
    decreases |municipios|
  {
    if |municipios| > 0 {
      ContainsEmpty(Lower(NombreOf(municipios[0])));
      assert Lower("") == "";
      FindMunicipioEmptyQuery(municipios[1..]);
    }
  }

  /** The query's case does not matter. */
  lemma FindMunicipioCaseInsensitive(municipios: seq<Municipio>, nombre: string)
    ensures FindMunicipio(municipios, nombre) == FindMunicipio(municipios, Lower(nombre))
    decreases |municipios|
  {
    LowerIdempotent(nombre);
    if |municipios| > 0 {
      FindMunicipioCaseInsensitive(municipios[1..], nombre);
    }
  }
}
