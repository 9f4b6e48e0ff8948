/** Map identifiers and the canonicaliser that maps free-form map names
    arriving from the network onto them (`MapMatrixProvider.normalizeMapName`). */
module MapNames {
  import opened Options

  const MAP_MAIN := "escom_main"
  const MAP_BUILDING2 := "escom_building2"
  const MAP_SALON2009 := "escom_salon2009"
  const MAP_SALON2010 := "escom_salon2010"
  const MAP_CAFETERIA := "escom_cafeteria"
  const MAP_ESTACIONAMIENTO := "EstacionamientoEscom"
  const MAP_TRAS_PLAZA := "TramoAtrasPlaza"
  const MAP_LINDAVISTA := "TramoLindavista"
  const MAP_TURISMO := "TramoTurismo"
  const MAP_FUENTE := "TramoFuente"

  /** The ten map identifiers the game knows. */
  const CanonicalMaps: set<string> := {
    MAP_MAIN, MAP_BUILDING2, MAP_SALON2009, MAP_SALON2010, MAP_CAFETERIA,
    MAP_ESTACIONAMIENTO, MAP_TRAS_PLAZA, MAP_LINDAVISTA, MAP_TURISMO, MAP_FUENTE
  }

  /** Kotlin's `Char.isWhitespace`: Java whitespace plus the Unicode space,
      line and paragraph separators. */
  predicate IsWhitespace(c: char) {
    || c == ' ' || c == '\t' || c == '\n' || c == '\r'
    || c == '\U{000B}' || c == '\U{000C}' || ('\U{001C}' <= c <= '\U{001F}')
    || c == '\U{00A0}' || c == '\U{1680}' || ('\U{2000}' <= c <= '\U{200A}')
    || c == '\U{2028}' || c == '\U{2029}' || c == '\U{202F}' || c == '\U{205F}'
    || c == '\U{3000}'
  }

  /** Kotlin's `isBlank`: empty or whitespace only. */
  predicate IsBlank(s: string) {
    forall i :: 0 <= i < |s| ==> IsWhitespace(s[i])
  }

  function LowerChar(c: char): char {
    if 'A' <= c <= 'Z' then (c as int + 32) as char else c
  }

  /** Lower-casing, restricted to ASCII letters (see README for why this
      gives the same keyword matches as Kotlin's Unicode `lowercase`). */
  function Lower(s: string): (r: string)
    ensures |r| == |s|
  {
    seq(|s|, i requires 0 <= i < |s| => LowerChar(s[i]))
  }

  /** `s` holds `k` at offset `i`. */
  predicate OccursAt(s: string, k: string, i: int) {
    0 <= i && i + |k| <= |s| && s[i..i + |k|] == k
  }

  /** Kotlin's `String.contains` on a substring. */
  predicate Contains(s: string, k: string) {
    exists i :: 0 <= i <= |s| - |k| && OccursAt(s, k, i)
  }

  /** A keyword one of whose characters does not occur in `s` is not in `s`. */
  lemma MissingCharNotContained(s: string, k: string, c: char)
    requires c in k && c !in s
    ensures !Contains(s, k)
  {
    var j :| 0 <= j < |k| && k[j] == c;
    forall i | 0 <= i <= |s| - |k|
      ensures !OccursAt(s, k, i)
    {
      assert s[i + j] in s;
    }
  }

  /** A prefix that lacks the keyword's first character cannot hold the
      start of an occurrence, so it may be dropped. */
  lemma SkipPrefix(p: string, s: string, k: string)
    requires |k| > 0 && k[0] !in p
    ensures Contains(p + s, k) <==> Contains(s, k)
  {
    forall i | 0 <= i < |p|
      ensures !OccursAt(p + s, k, i)
    {
      assert (p + s)[i] == p[i] != k[0];
    }
    if i :| 0 <= i <= |p + s| - |k| && OccursAt(p + s, k, i) {
      assert (p + s)[i..i + |k|] == s[i - |p|..i - |p| + |k|];
      assert OccursAt(s, k, i - |p|);
    }
    if i :| 0 <= i <= |s| - |k| && OccursAt(s, k, i) {
      assert (p + s)[i + |p|..i + |p| + |k|] == s[i..i + |k|];
      assert OccursAt(p + s, k, i + |p|);
    }
  }

  /** An occurrence in a suffix is an occurrence in the whole. */
  lemma ContainedInSuffix(p: string, s: string, k: string)
    requires Contains(s, k)
    ensures Contains(p + s, k)
  {
    var i :| 0 <= i <= |s| - |k| && OccursAt(s, k, i);
    assert (p + s)[i + |p|..i + |p| + |k|] == s[i..i + |k|];
    assert OccursAt(p + s, k, i + |p|);
  }

  /** One differing character rules out an occurrence at offset `i`. */
  lemma MismatchAt(s: string, k: string, i: nat, j: nat)
    requires j < |k| && i + j < |s| && s[i + j] != k[j]
    ensures !OccursAt(s, k, i)
  {
  }

  /** Without an occurrence at offset 0, an occurrence lies in the tail. */
  lemma DropNonOccurrence(s: string, k: string)
    requires |s| > 0 && !OccursAt(s, k, 0)
    ensures Contains(s, k) <==> Contains(s[1..], k)
  {
    if i :| 0 <= i <= |s| - |k| && OccursAt(s, k, i) {
      assert i != 0;
      assert s[1..][i - 1..i - 1 + |k|] == s[i..i + |k|];
      assert OccursAt(s[1..], k, i - 1);
    }
    if i :| 0 <= i <= |s[1..]| - |k| && OccursAt(s[1..], k, i) {
      assert s[i + 1..i + 1 + |k|] == s[1..][i..i + |k|];
      assert OccursAt(s, k, i + 1);
    }
  }

  /** Every string holds itself. */
  lemma ContainsSelf(k: string)
    ensures Contains(k, k)
  {
    assert OccursAt(k, k, 0);
  }

  /** The keyword tests of `normalizeMapName`, in the order it applies
      them to the lower-cased name. */
  predicate MainKeyword(l: string) { Contains(l, "main") && !Contains(l, "building") }
  predicate Building2Keyword(l: string) { Contains(l, "building2") || Contains(l, "edificio2") }
  predicate Salon2009Keyword(l: string) { Contains(l, "2009") || Contains(l, "salon2009") }
  predicate Salon2010Keyword(l: string) { Contains(l, "2010") || Contains(l, "salon2010") }
  predicate CafeteriaKeyword(l: string) { Contains(l, "cafe") || Contains(l, "cafeteria") }
  predicate EstacionamientoKeyword(l: string) { Contains(l, "estacionamiento") }
  predicate TrasPlazaKeyword(l: string) { Contains(l, "plaza") || Contains(l, "atras") }
  predicate LindavistaKeyword(l: string) { Contains(l, "linda") }
  predicate TurismoKeyword(l: string) { Contains(l, "turismo") }
  predicate FuenteKeyword(l: string) { Contains(l, "fuente") }

  /** The name is not one of the recognised spellings, so the canonicaliser
      returns it unchanged. */
  predicate Unrecognised(lowerMap: string) {
    && !MainKeyword(lowerMap) && !Building2Keyword(lowerMap)
    && !Salon2009Keyword(lowerMap) && !Salon2010Keyword(lowerMap)
    && !CafeteriaKeyword(lowerMap) && !EstacionamientoKeyword(lowerMap)
    && !TrasPlazaKeyword(lowerMap) && !LindavistaKeyword(lowerMap)
    && !TurismoKeyword(lowerMap) && !FuenteKeyword(lowerMap)
  }

  /** `normalizeMapName`: null or blank names become the main campus; the
      first keyword that the lower-cased name contains, in a fixed order,
      picks the map; any other name is returned as given, casing included. */
  function NormalizeMapName(mapName: Option<string>): (r: string)
    ensures mapName.None? || IsBlank(mapName.value) ==> r == MAP_MAIN
    ensures mapName.Some? && !IsBlank(mapName.value) && Unrecognised(Lower(mapName.value)) ==> r == mapName.value
    ensures r in CanonicalMaps
         || (mapName.Some? && r == mapName.value && !IsBlank(r) && Unrecognised(Lower(r)))
  {
    if mapName.None? || IsBlank(mapName.value) then MAP_MAIN
    else
      var lowerMap := Lower(mapName.value);
      if lowerMap == "main" then ContainsSelf("main"); MAP_MAIN
      else if lowerMap == "map_main" then assert OccursAt("map_main", "main", 4); MAP_MAIN
      else if MainKeyword(lowerMap) then MAP_MAIN
      else if Building2Keyword(lowerMap) then MAP_BUILDING2
      else if Salon2009Keyword(lowerMap) then MAP_SALON2009
      else if Salon2010Keyword(lowerMap) then MAP_SALON2010
      else if CafeteriaKeyword(lowerMap) then MAP_CAFETERIA
      else if EstacionamientoKeyword(lowerMap) then MAP_ESTACIONAMIENTO
      else if TrasPlazaKeyword(lowerMap) then MAP_TRAS_PLAZA
      else if LindavistaKeyword(lowerMap) then MAP_LINDAVISTA
      else if TurismoKeyword(lowerMap) then MAP_TURISMO
      else if FuenteKeyword(lowerMap) then MAP_FUENTE
      else mapName.value
  }

  /** The precedence of the keywords, for every non-blank name: the first
      test that the lower-cased name passes decides the map, whatever later
      keywords it also holds. The order is itself the specification (a name
      holding both `plaza` and `fuente` is the plaza); the lemma also shows
      that the exact tests for `main` and `map_main` add nothing to it. */
  lemma KeywordOrder(v: string)
    requires !IsBlank(v)
    ensures var l := Lower(v); (MainKeyword(l) ==> NormalizeMapName(Some(v)) == MAP_MAIN)
    ensures var l := Lower(v); (!MainKeyword(l) && Building2Keyword(l)
      ==> NormalizeMapName(Some(v)) == MAP_BUILDING2)
    ensures var l := Lower(v); (!MainKeyword(l) && !Building2Keyword(l) && Salon2009Keyword(l)
      ==> NormalizeMapName(Some(v)) == MAP_SALON2009)
    ensures var l := Lower(v); (!MainKeyword(l) && !Building2Keyword(l) && !Salon2009Keyword(l)
      && Salon2010Keyword(l)
      ==> NormalizeMapName(Some(v)) == MAP_SALON2010)
    ensures var l := Lower(v); (!MainKeyword(l) && !Building2Keyword(l) && !Salon2009Keyword(l)
      && !Salon2010Keyword(l) && CafeteriaKeyword(l)
      ==> NormalizeMapName(Some(v)) == MAP_CAFETERIA)
    ensures var l := Lower(v); (!MainKeyword(l) && !Building2Keyword(l) && !Salon2009Keyword(l)
      && !Salon2010Keyword(l) && !CafeteriaKeyword(l) && EstacionamientoKeyword(l)
      ==> NormalizeMapName(Some(v)) == MAP_ESTACIONAMIENTO)
    ensures var l := Lower(v); (!MainKeyword(l) && !Building2Keyword(l) && !Salon2009Keyword(l)
      && !Salon2010Keyword(l) && !CafeteriaKeyword(l) && !EstacionamientoKeyword(l)
      && TrasPlazaKeyword(l)
      ==> NormalizeMapName(Some(v)) == MAP_TRAS_PLAZA)
    ensures var l := Lower(v); (!MainKeyword(l) && !Building2Keyword(l) && !Salon2009Keyword(l)
      && !Salon2010Keyword(l) && !CafeteriaKeyword(l) && !EstacionamientoKeyword(l)
      && !TrasPlazaKeyword(l) && LindavistaKeyword(l)
      ==> NormalizeMapName(Some(v)) == MAP_LINDAVISTA)
    ensures var l := Lower(v); (!MainKeyword(l) && !Building2Keyword(l) && !Salon2009Keyword(l)
      && !Salon2010Keyword(l) && !CafeteriaKeyword(l) && !EstacionamientoKeyword(l)
      && !TrasPlazaKeyword(l) && !LindavistaKeyword(l) && TurismoKeyword(l)
      ==> NormalizeMapName(Some(v)) == MAP_TURISMO)
    ensures var l := Lower(v); (!MainKeyword(l) && !Building2Keyword(l) && !Salon2009Keyword(l)
      && !Salon2010Keyword(l) && !CafeteriaKeyword(l) && !EstacionamientoKeyword(l)
      && !TrasPlazaKeyword(l) && !LindavistaKeyword(l) && !TurismoKeyword(l) && FuenteKeyword(l)
      ==> NormalizeMapName(Some(v)) == MAP_FUENTE)
  {
    // The two exact spellings tested first are themselves main keywords.
    var l := Lower(v);
    if l == "main" {
      ContainsSelf("main");
    } else if l == "map_main" {
      assert OccursAt("map_main", "main", 4);
    }
  }

  lemma NotBlankFirst(s: string)
    requires |s| > 0 && !IsWhitespace(s[0])
    ensures !IsBlank(s)
  {
  }

  lemma CanonicalNotBlank(c: string)
    requires c in CanonicalMaps
    ensures !IsBlank(c)
  {
    NotBlankFirst(c);
  }

  /** A name without the digit 2 holds none of the four salon keywords. */
  lemma NoSalonKeyword(l: string)
    requires '2' !in l
    ensures !Contains(l, "2009") && !Contains(l, "salon2009")
    ensures !Contains(l, "2010") && !Contains(l, "salon2010")
  {
    MissingCharNotContained(l, "2009", '2');
    MissingCharNotContained(l, "salon2009", '2');
    MissingCharNotContained(l, "2010", '2');
    MissingCharNotContained(l, "salon2010", '2');
  }

  lemma MainKeywords()
    ensures Contains("escom_main", "main") && !Contains("escom_main", "building")
  {
    ContainsSelf("main");
    ContainedInSuffix("escom_", "main", "main");
    assert "escom_main" == "escom_" + "main";
    MissingCharNotContained("escom_main", "building", 'b');
  }

  lemma Building2Keywords()
    ensures !Contains("escom_building2", "main") && Contains("escom_building2", "building2")
  {
    MissingCharNotContained("escom_building2", "main", 'a');
    ContainsSelf("building2");
    ContainedInSuffix("escom_", "building2", "building2");
    assert "escom_building2" == "escom_" + "building2";
  }

  lemma Salon2009Keywords()
    ensures !Contains("escom_salon2009", "main")
    ensures !Contains("escom_salon2009", "building2") && !Contains("escom_salon2009", "edificio2")
    ensures Contains("escom_salon2009", "2009")
  {
    var l := "escom_salon2009";
    MissingCharNotContained(l, "main", 'i');
    MissingCharNotContained(l, "building2", 'b');
    MissingCharNotContained(l, "edificio2", 'd');
    ContainsSelf("2009");
    ContainedInSuffix("escom_salon", "2009", "2009");
    assert l == "escom_salon" + "2009";
  }

  lemma Salon2010Keywords()
    ensures !Contains("escom_salon2010", "main")
    ensures !Contains("escom_salon2010", "building2") && !Contains("escom_salon2010", "edificio2")
    ensures !Contains("escom_salon2010", "2009") && !Contains("escom_salon2010", "salon2009")
    ensures Contains("escom_salon2010", "2010")
  {
    var l := "escom_salon2010";
    MissingCharNotContained(l, "main", 'i');
    MissingCharNotContained(l, "building2", 'b');
    MissingCharNotContained(l, "edificio2", 'd');
    MissingCharNotContained(l, "2009", '9');
    MissingCharNotContained(l, "salon2009", '9');
    ContainsSelf("2010");
    ContainedInSuffix("escom_salon", "2010", "2010");
    assert l == "escom_salon" + "2010";
  }

  lemma CafeteriaKeywordsAbsent()
    ensures !Contains("escom_cafeteria", "main")
    ensures !Contains("escom_cafeteria", "building2") && !Contains("escom_cafeteria", "edificio2")
    ensures !Contains("escom_cafeteria", "2009") && !Contains("escom_cafeteria", "salon2009")
    ensures !Contains("escom_cafeteria", "2010") && !Contains("escom_cafeteria", "salon2010")
  {
    var l := "escom_cafeteria";
    MissingCharNotContained(l, "main", 'n');
    MissingCharNotContained(l, "building2", 'b');
    MissingCharNotContained(l, "edificio2", 'd');
    NoSalonKeyword(l);
  }

  lemma CafeteriaKeywordPresent()
    ensures Contains("escom_cafeteria", "cafe")
  {
    assert OccursAt("cafeteria", "cafe", 0);
    ContainedInSuffix("escom_", "cafeteria", "cafe");
    assert "escom_cafeteria" == "escom_" + "cafeteria";
  }

  lemma CafeteriaKeywords()
    ensures !Contains("escom_cafeteria", "main")
    ensures !Contains("escom_cafeteria", "building2") && !Contains("escom_cafeteria", "edificio2")
    ensures !Contains("escom_cafeteria", "2009") && !Contains("escom_cafeteria", "salon2009")
    ensures !Contains("escom_cafeteria", "2010") && !Contains("escom_cafeteria", "salon2010")
    ensures Contains("escom_cafeteria", "cafe")
  {
    CafeteriaKeywordsAbsent();
    CafeteriaKeywordPresent();
  }

  lemma EstacionamientoNoMain()
    ensures !Contains("estacionamientoescom", "main")
  {
    assert "estacionamientoescom" == "estaciona" + "mientoescom";
    SkipPrefix("estaciona", "mientoescom", "main");
    MismatchAt("mientoescom", "main", 0, 1);
    DropNonOccurrence("mientoescom", "main");
    assert "mientoescom"[1..] == "ientoescom";
    MissingCharNotContained("ientoescom", "main", 'a');
  }

  lemma EstacionamientoKeywordsAbsent()
    ensures !Contains("estacionamientoescom", "main")
    ensures !Contains("estacionamientoescom", "building2") && !Contains("estacionamientoescom", "edificio2")
    ensures !Contains("estacionamientoescom", "2009") && !Contains("estacionamientoescom", "salon2009")
    ensures !Contains("estacionamientoescom", "2010") && !Contains("estacionamientoescom", "salon2010")
    ensures !Contains("estacionamientoescom", "cafe") && !Contains("estacionamientoescom", "cafeteria")
  {
    var l := "estacionamientoescom";
    EstacionamientoNoMain();
    MissingCharNotContained(l, "building2", 'b');
    MissingCharNotContained(l, "edificio2", 'd');
    NoSalonKeyword(l);
    MissingCharNotContained(l, "cafe", 'f');
    MissingCharNotContained(l, "cafeteria", 'f');
  }


  lemma EstacionamientoKeywordPresent()
    ensures Contains("estacionamientoescom", "estacionamiento")
  {
    assert OccursAt("estacionamientoescom", "estacionamiento", 0);
  }

  lemma EstacionamientoKeywords()
    ensures !Contains("estacionamientoescom", "main")
    ensures !Contains("estacionamientoescom", "building2") && !Contains("estacionamientoescom", "edificio2")
    ensures !Contains("estacionamientoescom", "2009") && !Contains("estacionamientoescom", "salon2009")
    ensures !Contains("estacionamientoescom", "2010") && !Contains("estacionamientoescom", "salon2010")
    ensures !Contains("estacionamientoescom", "cafe") && !Contains("estacionamientoescom", "cafeteria")
    ensures Contains("estacionamientoescom", "estacionamiento")
  {
    EstacionamientoKeywordsAbsent();
    EstacionamientoKeywordPresent();
  }

  lemma TrasPlazaKeywords()
    ensures !Contains("tramoatrasplaza", "main")
    ensures !Contains("tramoatrasplaza", "building2") && !Contains("tramoatrasplaza", "edificio2")
    ensures !Contains("tramoatrasplaza", "2009") && !Contains("tramoatrasplaza", "salon2009")
    ensures !Contains("tramoatrasplaza", "2010") && !Contains("tramoatrasplaza", "salon2010")
    ensures !Contains("tramoatrasplaza", "cafe") && !Contains("tramoatrasplaza", "cafeteria")
    ensures !Contains("tramoatrasplaza", "estacionamiento")
    ensures Contains("tramoatrasplaza", "plaza")
  {
    var l := "tramoatrasplaza";
    MissingCharNotContained(l, "main", 'n');
    MissingCharNotContained(l, "building2", 'b');
    MissingCharNotContained(l, "edificio2", 'e');
    NoSalonKeyword(l);
    MissingCharNotContained(l, "cafe", 'c');
    MissingCharNotContained(l, "cafeteria", 'c');
    MissingCharNotContained(l, "estacionamiento", 'e');
    ContainsSelf("plaza");
    ContainedInSuffix("tramoatras", "plaza", "plaza");
    assert l == "tramoatras" + "plaza";
  }

  /** The keywords of the later maps that are absent from the names of
      Lindavista, Turismo and Fuente for want of an `e`, `c`, `p` or digit. */
  lemma NoEarlierKeyword(l: string)
    requires 'b' !in l && 'e' !in l && 'c' !in l && 'p' !in l && '2' !in l
    ensures !Contains(l, "building2") && !Contains(l, "edificio2")
    ensures !Contains(l, "2009") && !Contains(l, "salon2009")
    ensures !Contains(l, "2010") && !Contains(l, "salon2010")
    ensures !Contains(l, "cafe") && !Contains(l, "cafeteria")
    ensures !Contains(l, "estacionamiento") && !Contains(l, "plaza")
  {
    MissingCharNotContained(l, "building2", 'b');
    MissingCharNotContained(l, "edificio2", 'e');
    NoSalonKeyword(l);
    MissingCharNotContained(l, "cafe", 'c');
    MissingCharNotContained(l, "cafeteria", 'c');
    MissingCharNotContained(l, "estacionamiento", 'e');
    MissingCharNotContained(l, "plaza", 'p');
  }

  lemma LindavistaKeywords()
    ensures !Contains("tramolindavista", "main") && !Contains("tramolindavista", "atras")
    ensures Contains("tramolindavista", "linda")
  {
    var l := "tramolindavista";
    assert l == "tra" + "molindavista";
    SkipPrefix("tra", "molindavista", "main");
    MismatchAt("molindavista", "main", 0, 1);
    DropNonOccurrence("molindavista", "main");
    assert "molindavista"[1..] == "olindavista";
    MissingCharNotContained("olindavista", "main", 'm');
    assert l == "tr" + "amolindavista";
    SkipPrefix("tr", "amolindavista", "atras");
    MissingCharNotContained("amolindavista", "atras", 'r');
    assert OccursAt("lindavista", "linda", 0);
    ContainedInSuffix("tramo", "lindavista", "linda");
    assert l == "tramo" + "lindavista";
  }

  lemma TurismoKeywords()
    ensures !Contains("tramoturismo", "main") && !Contains("tramoturismo", "atras")
    ensures !Contains("tramoturismo", "linda") && Contains("tramoturismo", "turismo")
  {
    var l := "tramoturismo";
    MissingCharNotContained(l, "main", 'n');
    assert l == "tr" + "amoturismo";
    SkipPrefix("tr", "amoturismo", "atras");
    MismatchAt("amoturismo", "atras", 0, 1);
    DropNonOccurrence("amoturismo", "atras");
    assert "amoturismo"[1..] == "moturismo";
    MissingCharNotContained("moturismo", "atras", 'a');
    MissingCharNotContained(l, "linda", 'l');
    ContainsSelf("turismo");
    ContainedInSuffix("tramo", "turismo", "turismo");
    assert l == "tramo" + "turismo";
  }

  lemma FuenteNoCampusKeyword()
    ensures !Contains("tramofuente", "building2") && !Contains("tramofuente", "edificio2")
    ensures !Contains("tramofuente", "2009") && !Contains("tramofuente", "salon2009")
    ensures !Contains("tramofuente", "2010") && !Contains("tramofuente", "salon2010")
    ensures !Contains("tramofuente", "cafe") && !Contains("tramofuente", "cafeteria")
  {
    var l := "tramofuente";
    MissingCharNotContained(l, "building2", 'b');
    MissingCharNotContained(l, "edificio2", 'd');
    NoSalonKeyword(l);
    MissingCharNotContained(l, "cafe", 'c');
    MissingCharNotContained(l, "cafeteria", 'c');
  }

  lemma FuenteNoSegmentKeyword()
    ensures !Contains("tramofuente", "main") && !Contains("tramofuente", "atras")
    ensures !Contains("tramofuente", "linda") && !Contains("tramofuente", "turismo")
    ensures !Contains("tramofuente", "estacionamiento") && !Contains("tramofuente", "plaza")
  {
    var l := "tramofuente";
    MissingCharNotContained(l, "main", 'i');
    MissingCharNotContained(l, "atras", 's');
    MissingCharNotContained(l, "linda", 'l');
    MissingCharNotContained(l, "turismo", 's');
    MissingCharNotContained(l, "estacionamiento", 's');
    MissingCharNotContained(l, "plaza", 'p');
  }


  lemma FuenteKeywordPresent()
    ensures Contains("tramofuente", "fuente")
  {
    ContainsSelf("fuente");
    ContainedInSuffix("tramo", "fuente", "fuente");
    assert "tramofuente" == "tramo" + "fuente";
  }

  lemma FuenteKeywords()
    ensures !Contains("tramofuente", "main") && !Contains("tramofuente", "atras")
    ensures !Contains("tramofuente", "linda") && !Contains("tramofuente", "turismo")
    ensures !Contains("tramofuente", "building2") && !Contains("tramofuente", "edificio2")
    ensures !Contains("tramofuente", "2009") && !Contains("tramofuente", "salon2009")
    ensures !Contains("tramofuente", "2010") && !Contains("tramofuente", "salon2010")
    ensures !Contains("tramofuente", "cafe") && !Contains("tramofuente", "cafeteria")
    ensures !Contains("tramofuente", "estacionamiento") && !Contains("tramofuente", "plaza")
    ensures Contains("tramofuente", "fuente")
  {
    FuenteNoCampusKeyword();
    FuenteNoSegmentKeyword();
    FuenteKeywordPresent();
  }

  lemma MainFixed()
    ensures NormalizeMapName(Some(MAP_MAIN)) == MAP_MAIN
  {
    CanonicalNotBlank(MAP_MAIN);
    assert Lower(MAP_MAIN) == "escom_main";
    MainKeywords();
  }

  lemma Building2Fixed()
    ensures NormalizeMapName(Some(MAP_BUILDING2)) == MAP_BUILDING2
  {
    CanonicalNotBlank(MAP_BUILDING2);
    assert Lower(MAP_BUILDING2) == "escom_building2";
    Building2Keywords();
  }

  lemma Salon2009Fixed()
    ensures NormalizeMapName(Some(MAP_SALON2009)) == MAP_SALON2009
  {
    CanonicalNotBlank(MAP_SALON2009);
    assert Lower(MAP_SALON2009) == "escom_salon2009";
    Salon2009Keywords();
  }

  lemma Salon2010Fixed()
    ensures NormalizeMapName(Some(MAP_SALON2010)) == MAP_SALON2010
  {
    CanonicalNotBlank(MAP_SALON2010);
    assert Lower(MAP_SALON2010) == "escom_salon2010";
    Salon2010Keywords();
  }

  lemma CafeteriaFixed()
    ensures NormalizeMapName(Some(MAP_CAFETERIA)) == MAP_CAFETERIA
  {
    CanonicalNotBlank(MAP_CAFETERIA);
    assert Lower(MAP_CAFETERIA) == "escom_cafeteria";
    CafeteriaKeywords();
  }

  lemma EstacionamientoFixed()
    ensures NormalizeMapName(Some(MAP_ESTACIONAMIENTO)) == MAP_ESTACIONAMIENTO
  {
    CanonicalNotBlank(MAP_ESTACIONAMIENTO);
    assert Lower(MAP_ESTACIONAMIENTO) == "estacionamientoescom";
    EstacionamientoKeywords();
  }

  lemma TrasPlazaFixed()
    ensures NormalizeMapName(Some(MAP_TRAS_PLAZA)) == MAP_TRAS_PLAZA
  {
    CanonicalNotBlank(MAP_TRAS_PLAZA);
    assert Lower(MAP_TRAS_PLAZA) == "tramoatrasplaza";
    TrasPlazaKeywords();
  }

  lemma LindavistaFixed()
    ensures NormalizeMapName(Some(MAP_LINDAVISTA)) == MAP_LINDAVISTA
  {
    CanonicalNotBlank(MAP_LINDAVISTA);
    assert Lower(MAP_LINDAVISTA) == "tramolindavista";
    LindavistaKeywords();
    NoEarlierKeyword("tramolindavista");
  }

  lemma TurismoFixed()
    ensures NormalizeMapName(Some(MAP_TURISMO)) == MAP_TURISMO
  {
    CanonicalNotBlank(MAP_TURISMO);
    assert Lower(MAP_TURISMO) == "tramoturismo";
    TurismoKeywords();
    NoEarlierKeyword("tramoturismo");
  }

  lemma FuenteFixed()
    ensures NormalizeMapName(Some(MAP_FUENTE)) == MAP_FUENTE
  {
    CanonicalNotBlank(MAP_FUENTE);
    assert Lower(MAP_FUENTE) == "tramofuente";
    FuenteKeywords();
  }

  /** Every canonical identifier is its own normal form. */
  lemma CanonicalFixed(c: string)
    requires c in CanonicalMaps
    ensures NormalizeMapName(Some(c)) == c
  {
    if c == MAP_MAIN { MainFixed(); }
    else if c == MAP_BUILDING2 { Building2Fixed(); }
    else if c == MAP_SALON2009 { Salon2009Fixed(); }
    else if c == MAP_SALON2010 { Salon2010Fixed(); }
    else if c == MAP_CAFETERIA { CafeteriaFixed(); }
    else if c == MAP_ESTACIONAMIENTO { EstacionamientoFixed(); }
    else if c == MAP_TRAS_PLAZA { TrasPlazaFixed(); }
    else if c == MAP_LINDAVISTA { LindavistaFixed(); }
    else if c == MAP_TURISMO { TurismoFixed(); }
    else { FuenteFixed(); }
  }

  /** Canonicalising twice is canonicalising once. */
  lemma NormalizeIdempotent(mapName: Option<string>)
    ensures NormalizeMapName(Some(NormalizeMapName(mapName))) == NormalizeMapName(mapName)
  {
    var r := NormalizeMapName(mapName);
    if r in CanonicalMaps {
      CanonicalFixed(r);
    }
  }

  lemma EscomMainAreaKeywords()
    ensures Contains("escom_main_area", "main") && !Contains("escom_main_area", "building")
  {
    assert "escom_main_area"[6..10] == "main";
    assert OccursAt("escom_main_area", "main", 6);
    MissingCharNotContained("escom_main_area", "building", 'b');
  }

  /** The historical spellings of the main campus, whatever their casing,
      all canonicalise to it, and so do a missing and a blank name. */
  lemma MainAliases()
    ensures NormalizeMapName(Some("Main")) == MAP_MAIN
    ensures NormalizeMapName(Some("map_main")) == MAP_MAIN
    ensures NormalizeMapName(Some("ESCOM_main_area")) == MAP_MAIN
    ensures NormalizeMapName(None) == MAP_MAIN && NormalizeMapName(Some("  ")) == MAP_MAIN
  {
    NotBlankFirst("Main");
    NotBlankFirst("map_main");
    NotBlankFirst("ESCOM_main_area");
    assert Lower("Main") == "main";
    assert Lower("map_main") == "map_main";
    assert Lower("ESCOM_main_area") == "escom_main_area";
    EscomMainAreaKeywords();
  }
}
