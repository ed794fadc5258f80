/** The delivery-area and opening-hours checks (src/utils/geolocation.ts). */
module ServiceArea {
  import opened Text

  /** Words that place an address inside the service area. */
  const ValidKeywords: seq<string> := [
    "cualtos", "cu altos", "centro universitario", "universidad", "campus",
    "tepatitlán", "tepatitlan", "edificio", "aula", "laboratorio", "biblioteca",
    "cafetería", "cafeteria", "estacionamiento", "rectoría", "rectoria",
    "coordinación", "coordinacion"]

  /** Buildings and areas of the campus. */
  const CampusLocations: seq<string> := [
    "edificio a", "edificio b", "edificio c", "edificio d", "edificio e",
    "edificio f", "edificio g", "edificio h", "biblioteca", "cafetería central",
    "cafeteria central", "rectoría", "rectoria", "estacionamiento principal",
    "laboratorio de cómputo", "laboratorio de computo", "auditorio",
    "cancha de futbol", "cancha de basquet", "área verde", "area verde"]

  /** `address.toLowerCase().trim()`. */
  function Normalize(address: string): string {
    Trim(Lower(address))
  }

  /** Both spellings of the city are keywords themselves. */
  lemma CityIsKeyword()
    ensures "tepatitlán" in ValidKeywords && "tepatitlan" in ValidKeywords
  {
    assert ValidKeywords[5] == "tepatitlán";
    assert ValidKeywords[6] == "tepatitlan";
  }

  lemma NoBlankEntry()
    ensures !ContainsAny("", CampusLocations) && !ContainsAny("", ValidKeywords)
  {
    EmptyContainsNoEntry(CampusLocations);
    EmptyContainsNoEntry(ValidKeywords);
  }

  /** `validateAddress`, check by check: the blank guard, campus locations,
      keywords, then the city names. */
  function ValidateAddress(address: string): bool {
    if address == [] || |Trim(address)| == 0 then false
    else
      var normalized := Normalize(address);
      if ContainsAny(normalized, CampusLocations) then true
      else if ContainsAny(normalized, ValidKeywords) then true
      else if Contains(normalized, "tepatitlán") || Contains(normalized, "tepatitlan") then true
      else false
  }

  /** The check accepts exactly the addresses whose normalised form contains a
      campus location or a keyword; the final city check never decides
      anything, both spellings being keywords. */
  lemma ValidateAddressMeaning(address: string)
    ensures ValidateAddress(address) <==>
      ContainsAny(Normalize(address), CampusLocations) || ContainsAny(Normalize(address), ValidKeywords)
  {
    if address == [] || |Trim(address)| == 0 {
      BlankNormalizesToEmpty(address);
      NoBlankEntry();
    } else {
      CityIsKeyword();
    }
  }

  lemma BlankNormalizesToEmpty(address: string)
    requires |Trim(address)| == 0
    ensures Normalize(address) == []
  {
    TrimEmptyIffWhitespace(address);
    LowerOfWhitespace(address);
    TrimEmptyIffWhitespace(Lower(address));
  }

  /** An empty or all-whitespace address is rejected. */
  lemma BlankRejected(address: string)
    requires AllWhitespace(address)
    ensures !ValidateAddress(address)
  {
    TrimEmptyIffWhitespace(address);
  }

  /** Only the lowered, trimmed address matters: surrounding whitespace and
      the case of the letters never change the verdict. */
  lemma CaseAndPaddingIrrelevant(w1: string, address: string, w2: string)
    requires AllWhitespace(w1) && AllWhitespace(w2)
    ensures ValidateAddress(w1 + address + w2) == ValidateAddress(address)
    ensures ValidateAddress(Lower(address)) == ValidateAddress(address)
  {
    LowerConcat(w1 + address, w2);
    LowerConcat(w1, address);
    LowerOfWhitespace(w1);
    LowerOfWhitespace(w2);
    TrimIgnoresPadding(w1, Lower(address), w2);
    LowerIdempotent(address);
    ValidateAddressMeaning(w1 + address + w2);
    ValidateAddressMeaning(Lower(address));
    ValidateAddressMeaning(address);
  }

  /** A campus building address is accepted, through "edificio c". */
  lemma EdificioCAccepted(a: string)
    requires a == "Edificio C, salón 4"
    ensures ValidateAddress(a)
  {
    EdificioCNotBlank(a);
    EdificioCNormalizes(a);
    EdificioCContainsBuilding(Normalize(a));
    BuildingCIsCampusLocation(Normalize(a));
  }

  lemma BuildingCIsCampusLocation(n: string)
    requires Contains(n, "edificio c")
    ensures ContainsAny(n, CampusLocations)
  {
    assert CampusLocations[2] == "edificio c";
  }

  lemma EdificioCNotBlank(a: string)
    requires a == "Edificio C, salón 4"
    ensures |Trim(a)| != 0
  {
    TrimEmptyIffWhitespace(a);
    assert !IsWhitespace(a[0]);
  }

  /** A normalised address lacking these letters, and with no "v" after its
      second character, holds no entry of either list. */
  predicate FarAddress(n: string) {
    && 'f' !in n && 'b' !in n && 'o' !in n && 'l' !in n && 'p' !in n && 'h' !in n && 'á' !in n
    && |n| > 5 && 'v' !in n[2..]
  }

  /** Every address whose normalised form is far in that sense is rejected. */
  lemma FarAddressRejected(a: string)
    requires FarAddress(Normalize(a))
    ensures !ValidateAddress(a)
  {
    var n := Normalize(a);
    NoCampusLocationIn(n);
    NoKeywordIn(n);
    ValidateAddressMeaning(a);
  }

  /** An address elsewhere in the country matches no entry and is rejected. */
  lemma InsurgentesRejected(a: string)
    requires a == "Av. Insurgentes 123, CDMX"
    ensures !ValidateAddress(a)
  {
    InsurgentesNormalizes(a);
    var n := Normalize(a);
    InsurgentesLacksLetters(n);
    InsurgentesLacksMoreLetters(n);
    InsurgentesLacksAccent(n);
    InsurgentesHasOneV(n);
    FarAddressRejected(a);
  }

  lemma InsurgentesNormalizes(a: string)
    requires a == "Av. Insurgentes 123, CDMX"
    ensures Normalize(a) == "av. insurgentes 123, cdmx"
  {
    InsurgentesLowers(a);
    TrimKeepsUnpadded("av. insurgentes 123, cdmx");
  }

  lemma InsurgentesLowers(a: string)
    requires a == "Av. Insurgentes 123, CDMX"
    ensures Lower(a) == "av. insurgentes 123, cdmx"
  {
  }

  lemma InsurgentesLacksLetters(n: string)
    requires n == "av. insurgentes 123, cdmx"
    ensures 'f' !in n && 'b' !in n
  {
  }

  lemma InsurgentesLacksMoreLetters(n: string)
    requires n == "av. insurgentes 123, cdmx"
    ensures 'o' !in n && 'l' !in n
  {
  }

  lemma InsurgentesLacksAccent(n: string)
    requires n == "av. insurgentes 123, cdmx"
    ensures 'p' !in n && 'h' !in n && 'á' !in n
  {
  }

  lemma InsurgentesHasOneV(n: string)
    requires n == "av. insurgentes 123, cdmx"
    ensures |n| > 5 && 'v' !in n[2..]
  {
    InsurgentesTailLacksV(n[2..]);
  }

  lemma InsurgentesTailLacksV(m: string)
    requires m == ". insurgentes 123, cdmx"
    ensures 'v' !in m
  {
  }

  lemma EdificioCNormalizes(a: string)
    requires a == "Edificio C, salón 4"
    ensures Normalize(a) == "edificio c, salón 4"
  {
    assert Lower(a) == "edificio c, salón 4";
    TrimKeepsUnpadded("edificio c, salón 4");
  }

  lemma EdificioCContainsBuilding(n: string)
    requires n == "edificio c, salón 4"
    ensures Contains(n, "edificio c")
  {
    assert OccursAt(n, "edificio c", 0);
  }

  /** The two list lemmas below go through the entries in chunks
      (`NoCampusLocationIn1` to `4`, `NoKeywordIn1` to `3`) so that each
      proof only handles a few literal strings at a time. */
  lemma NoCampusLocationIn(n: string)
    requires FarAddress(n)
    ensures !ContainsAny(n, CampusLocations)
  {
    NoCampusLocationIn1(n);
    NoCampusLocationIn2(n);
    NoCampusLocationIn3(n);
    NoCampusLocationIn4(n);
  }

  lemma NoKeywordIn(n: string)
    requires FarAddress(n)
    ensures !ContainsAny(n, ValidKeywords)
  {
    NoKeywordIn1(n);
    NoKeywordIn2(n);
    NoKeywordIn3(n);
  }

  lemma NoCampusLocationIn1(n: string)
    requires FarAddress(n)
    ensures !Contains(n, "edificio a")
      && !Contains(n, "edificio b")
      && !Contains(n, "edificio c")
      && !Contains(n, "edificio d")
      && !Contains(n, "edificio e")
      && !Contains(n, "edificio f")
  {
    MissingLetterRulesOut(n, "edificio a", 'f');
    MissingLetterRulesOut(n, "edificio b", 'f');
    MissingLetterRulesOut(n, "edificio c", 'f');
    MissingLetterRulesOut(n, "edificio d", 'f');
    MissingLetterRulesOut(n, "edificio e", 'f');
    MissingLetterRulesOut(n, "edificio f", 'f');
  }

  lemma NoCampusLocationIn2(n: string)
    requires FarAddress(n)
    ensures !Contains(n, "edificio g")
      && !Contains(n, "edificio h")
      && !Contains(n, "biblioteca")
      && !Contains(n, "cafetería central")
      && !Contains(n, "cafeteria central")
      && !Contains(n, "rectoría")
  {
    MissingLetterRulesOut(n, "edificio g", 'f');
    MissingLetterRulesOut(n, "edificio h", 'f');
    MissingLetterRulesOut(n, "biblioteca", 'b');
    MissingLetterRulesOut(n, "cafetería central", 'f');
    MissingLetterRulesOut(n, "cafeteria central", 'f');
    MissingLetterRulesOut(n, "rectoría", 'o');
  }

  lemma NoCampusLocationIn3(n: string)
    requires FarAddress(n)
    ensures !Contains(n, "rectoria")
      && !Contains(n, "estacionamiento principal")
      && !Contains(n, "laboratorio de cómputo")
      && !Contains(n, "laboratorio de computo")
      && !Contains(n, "auditorio")
      && !Contains(n, "cancha de futbol")
  {
    MissingLetterRulesOut(n, "rectoria", 'o');
    MissingLetterRulesOut(n, "estacionamiento principal", 'o');
    MissingLetterRulesOut(n, "laboratorio de cómputo", 'l');
    MissingLetterRulesOut(n, "laboratorio de computo", 'l');
    MissingLetterRulesOut(n, "auditorio", 'o');
    MissingLetterRulesOut(n, "cancha de futbol", 'h');
  }

  lemma NoCampusLocationIn4(n: string)
    requires FarAddress(n)
    ensures !Contains(n, "cancha de basquet")
      && !Contains(n, "área verde")
      && !Contains(n, "area verde")
  {
    MissingLetterRulesOut(n, "cancha de basquet", 'h');
    MissingLetterRulesOut(n, "área verde", 'á');
    assert 'v' !in n[5..] by { assert n[5..] == n[2..][3..]; }
    MissingCharRulesOut(n, "area verde", 5);
  }

  lemma NoKeywordIn1(n: string)
    requires FarAddress(n)
    ensures !Contains(n, "cualtos")
      && !Contains(n, "cu altos")
      && !Contains(n, "centro universitario")
      && !Contains(n, "universidad")
      && !Contains(n, "campus")
      && !Contains(n, "tepatitlán")
  {
    MissingLetterRulesOut(n, "cualtos", 'l');
    MissingLetterRulesOut(n, "cu altos", 'l');
    MissingLetterRulesOut(n, "centro universitario", 'o');
    assert 'v' !in n[3..] by { assert n[3..] == n[2..][1..]; }
    MissingCharRulesOut(n, "universidad", 3);
    MissingLetterRulesOut(n, "campus", 'p');
    MissingLetterRulesOut(n, "tepatitlán", 'p');
  }

  lemma NoKeywordIn2(n: string)
    requires FarAddress(n)
    ensures !Contains(n, "tepatitlan")
      && !Contains(n, "edificio")
      && !Contains(n, "aula")
      && !Contains(n, "laboratorio")
      && !Contains(n, "biblioteca")
      && !Contains(n, "cafetería")
  {
    MissingLetterRulesOut(n, "tepatitlan", 'p');
    MissingLetterRulesOut(n, "edificio", 'f');
    MissingLetterRulesOut(n, "aula", 'l');
    MissingLetterRulesOut(n, "laboratorio", 'l');
    MissingLetterRulesOut(n, "biblioteca", 'b');
    MissingLetterRulesOut(n, "cafetería", 'f');
  }

  lemma NoKeywordIn3(n: string)
    requires FarAddress(n)
    ensures !Contains(n, "cafeteria")
      && !Contains(n, "estacionamiento")
      && !Contains(n, "rectoría")
      && !Contains(n, "rectoria")
      && !Contains(n, "coordinación")
      && !Contains(n, "coordinacion")
  {
    MissingLetterRulesOut(n, "cafeteria", 'f');
    MissingLetterRulesOut(n, "estacionamiento", 'o');
    MissingLetterRulesOut(n, "rectoría", 'o');
    MissingLetterRulesOut(n, "rectoria", 'o');
    MissingLetterRulesOut(n, "coordinación", 'o');
    MissingLetterRulesOut(n, "coordinacion", 'o');
  }

  /** `isDeliveryAvailable`, with the clock's hour as a parameter. */
  predicate IsDeliveryAvailable(hour: int) {
    hour >= 11 && hour < 23
  }

  /** `getNextDeliveryTime`, with the clock's hour as a parameter: "Ahora"
      exactly while delivery is open, otherwise the next opening. */
  function NextDeliveryTime(hour: int): (r: string)
    ensures r == "Ahora" <==> IsDeliveryAvailable(hour)
    ensures hour < 11 ==> r == "11:00 AM"
    ensures hour >= 23 ==> r == "11:00 AM (mañana)"
  {
    if hour < 11 then "11:00 AM"
    else if hour >= 23 then "11:00 AM (mañana)"
    else "Ahora"
  }
}
