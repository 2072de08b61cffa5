/**
 * The range classifier: a code number is mapped to the subsystem it belongs
 * to, a short description and whether it lies within the engine's scope.
 *
 * The rules form one ordered list of inclusive ranges (an exact code is a
 * range of one) and the first rule that covers the number wins. The list has
 * a detailed tier, in ascending hundreds, then a coarse tier of one rule per
 * hundred that catches the gaps the detailed tier leaves. A number no rule
 * covers is "Powertrain (general)".
 *
 * The first-match order matters: the range 170..179 stands before the exact
 * rules for 171, 172, 174 and 175, and 301..339 before 325..329 and 335..339,
 * so those later rules never decide anything.
 */
module Classifier {
  import opened Wrappers

  /** What a code is classified as: subsystem tag, description, engine scope. */
  datatype CodeInfo = CodeInfo(system: string, desc: string, engine: bool)

  /** An inclusive range of codes and what the codes in it are classified as. */
  datatype Rule = Rule(lo: int, hi: int, info: CodeInfo)

  predicate Covers(r: Rule, n: int)
  {
    r.lo <= n <= r.hi
  }

  /** The subsystem tags a classification can carry. */
  const Systems: set<string> := {
    "FUEL_PRESSURE", "MAF", "MAP", "ECT/IAT", "TPS/APP/ETC", "INJECTOR",
    "MISFIRE", "CKP/CMP", "O2_HEATER", "O2_SENSOR", "CAT", "EVAP", "EGR",
    "IDLE/VSS", "ECU/REF", "TRANSMISION", "GENERAL"
  }

  /** The answer for a number no rule covers. */
  const General := CodeInfo("GENERAL", "Powertrain (general)", true)

  function Engine(lo: int, hi: int, system: string, desc: string): Rule
  {
    Rule(lo, hi, CodeInfo(system, desc, true))
  }

  // ---------------------------------------------------------------------
  // The rule list, in the order the rules are tried
  // ---------------------------------------------------------------------

  const Rules0xx: seq<Rule> := [
    Engine(1, 4, "FUEL_PRESSURE", "Regulador de volumen de combustible — circuito/función"),
    Engine(30, 39, "O2_HEATER", "Calentador de sensor O₂ — circuito (Bancos/Sensores)")
  ]

  const Rules1xx: seq<Rule> := [
    Engine(100, 104, "MAF", "Sensor MAF — circuito/rango/funcionamiento"),
    Engine(105, 109, "MAP", "Sensor MAP/Baro — circuito/rango/funcionamiento"),
    Engine(110, 114, "ECT/IAT", "Sensor IAT — circuito/rango"),
    Engine(115, 119, "ECT/IAT", "Sensor ECT — circuito/rango"),
    Engine(120, 129, "TPS/APP/ETC", "Posición de acelerador — circuito/rango"),
    Engine(130, 169, "O2_SENSOR", "Sensor de oxígeno — circuito/respuesta"),
    Engine(170, 179, "FUEL_PRESSURE", "Trim de combustible fuera de rango (B1/B2)"),
    Engine(171, 171, "MAF", "Mezcla pobre — Banco 1 (P0171)"),
    Engine(172, 172, "MAF", "Mezcla rica — Banco 1 (P0172)"),
    Engine(174, 174, "MAF", "Mezcla pobre — Banco 2 (P0174)"),
    Engine(175, 175, "MAF", "Mezcla rica — Banco 2 (P0175)"),
    Engine(180, 189, "FUEL_PRESSURE", "Temperatura de combustible / relacionados"),
    Engine(190, 199, "FUEL_PRESSURE", "Sensor de presión de riel — circuito/rango")
  ]

  const Rules2xx: seq<Rule> := [
    Engine(200, 219, "INJECTOR", "Circuito/control de inyectores"),
    Engine(230, 239, "FUEL_PRESSURE", "Bomba de combustible — control/circuito"),
    Engine(240, 249, "FUEL_PRESSURE", "EVAP — purga/ventilación — circuito"),
    Engine(250, 259, "FUEL_PRESSURE", "Relación A/F — restricción/desempeño"),
    Engine(260, 269, "TPS/APP/ETC", "Actuador aceleración (ETC) — desempeño"),
    Engine(280, 289, "FUEL_PRESSURE", "Presión/boost — desempeño"),
    Engine(290, 299, "FUEL_PRESSURE", "Under/overboost")
  ]

  const Rules3xx: seq<Rule> := [
    Engine(300, 300, "MISFIRE", "Misfire aleatorio/múltiple (P0300)"),
    Engine(301, 339, "MISFIRE", "Misfire cilindro específico"),
    Engine(325, 329, "MISFIRE", "Sensor de detonación (Knock) — circuito"),
    Engine(335, 339, "CKP/CMP", "Sensor CKP — circuito/posición"),
    Engine(340, 349, "CKP/CMP", "Sensor CMP — circuito/posición"),
    Engine(350, 369, "MISFIRE", "Bobinas/primario-secundario — circuito")
  ]

  const Rules4xx: seq<Rule> := [
    Engine(400, 400, "EGR", "EGR — flujo insuficiente"),
    Engine(401, 401, "EGR", "EGR — flujo insuficiente detectado"),
    Engine(402, 402, "EGR", "EGR — flujo excesivo"),
    Engine(410, 419, "EGR", "Aire secundario — circuito/desempeño"),
    Engine(420, 420, "CAT", "Catalizador por debajo del umbral (B1)"),
    Engine(430, 430, "CAT", "Catalizador por debajo del umbral (B2)"),
    Engine(440, 459, "EVAP", "EVAP — fugas/ventilación/purga"),
    Engine(460, 469, "FUEL_PRESSURE", "Sensor de nivel de combustible — circuito/alto/bajo"),
    Engine(480, 489, "EGR", "Ventilador/sistema emisiones")
  ]

  const Rules5xx: seq<Rule> := [
    Engine(500, 500, "IDLE/VSS", "VSS — circuito"),
    Engine(505, 505, "IDLE/VSS", "IAC — funcionamiento"),
    Engine(520, 529, "IDLE/VSS", "Presión de aceite motor / sensores"),
    Engine(550, 559, "IDLE/VSS", "Dirección asistida / carga — impacto en ralentí"),
    Engine(560, 569, "ECU/REF", "Sistema de voltaje — alto/bajo/irregular")
  ]

  const Rules6xx: seq<Rule> := [
    Engine(600, 609, "ECU/REF", "Comunicación serie/Link — fallas"),
    Engine(610, 619, "ECU/REF", "Control de vehículo — checksum/programación"),
    Engine(620, 629, "ECU/REF", "Control actuadores (regulación/velocidad)"),
    Engine(650, 650, "ECU/REF", "Control de lámpara MIL — circuito"),
    Engine(680, 689, "ECU/REF", "Referencia 5 V — fallas (línea común)")
  ]

  /** The one rule outside the engine's scope. */
  const Transmission := Rule(700, 999, CodeInfo("TRANSMISION", "Código de transmisión/TCM (referencia de par motor)", false))

  /** The detailed tier, hundred by hundred, transmission last. */
  const Hundreds: seq<seq<Rule>> := [Rules0xx, Rules1xx, Rules2xx, Rules3xx, Rules4xx, Rules5xx, Rules6xx, [Transmission]]

  /** The coarse tier: one rule per hundred, 1..199 counting as one. */
  const Fallback: seq<Rule> := [
    Engine(1, 199, "FUEL_PRESSURE", "Medición de aire/combustible — circuito/rango"),
    Engine(200, 299, "INJECTOR", "Inyección/boost — circuito/desempeño"),
    Engine(300, 399, "MISFIRE", "Encendido/sincronismo — fallas"),
    Engine(400, 499, "EGR", "Emisiones (EGR/EVAP/CAT) — desempeño"),
    Engine(500, 599, "IDLE/VSS", "Ralentí/velocidad/eléctrico — desempeño"),
    Engine(600, 699, "ECU/REF", "ECU/Comunicación/Referencias — fallas")
  ]

  function Concat(chunks: seq<seq<Rule>>): seq<Rule>
  {
    if chunks == [] then [] else chunks[0] + Concat(chunks[1..])
  }

  /** Every rule in the order it is tried. */
  function Rules(): seq<Rule>
  {
    Concat(Hundreds) + Fallback
  }

  // ---------------------------------------------------------------------
  // First match
  // ---------------------------------------------------------------------

  /** The position of the first rule covering n, if any. */
  function FirstMatch(rules: seq<Rule>, n: int): (k: Option<nat>)
    ensures k.Some? ==> k.value < |rules| && Covers(rules[k.value], n)
    ensures k.Some? ==> forall j | 0 <= j < k.value :: !Covers(rules[j], n)
    ensures k.None? ==> forall j | 0 <= j < |rules| :: !Covers(rules[j], n)
  {
    if rules == [] then None
    else if Covers(rules[0], n) then Some(0)
    else match FirstMatch(rules[1..], n)
      case None => None
      case Some(k) => Some(k + 1)
  }

  /** What the first rule covering n says, if any rule does. */
  function Lookup(rules: seq<Rule>, n: int): Option<CodeInfo>
  {
    match FirstMatch(rules, n)
    case None => None
    case Some(k) => Some(rules[k].info)
  }

  /**
   * The classification of a code number: always a known tag, and the general
   * answer exactly outside 1..999.
   */
  function Classify(n: int): (info: CodeInfo)
    ensures info.system in Systems
    ensures info.system == "GENERAL" <==> !(1 <= n <= 999)
  {
    TableAnswers(n);
    match Lookup(Rules(), n)
    case None => General
    case Some(info) => info
  }

  // ---------------------------------------------------------------------
  // First-match lemmas
  // ---------------------------------------------------------------------

  /** A covering rule with no covering rule before it is the first match. */
  lemma FirstIs(rules: seq<Rule>, n: int, k: nat)
    requires k < |rules| && Covers(rules[k], n)
    requires forall j | 0 <= j < k :: !Covers(rules[j], n)
    ensures FirstMatch(rules, n) == Some(k)
    ensures Lookup(rules, n) == Some(rules[k].info)
  {
  }

  /**
   * A rule whose range lies inside the range of an earlier rule is never the
   * first match, whatever the number.
   */
  lemma NeverFires(rules: seq<Rule>, j: nat, k: nat, n: int)
    requires j < k < |rules|
    requires rules[j].lo <= rules[k].lo && rules[k].hi <= rules[j].hi
    ensures FirstMatch(rules, n) != Some(k)
  {
    if FirstMatch(rules, n) == Some(k) {
      assert Covers(rules[j], n);
      assert false;
    }
  }

  /** The rules of a list are tried before the rules appended to it. */
  lemma {:induction false} LookupAppend(a: seq<Rule>, b: seq<Rule>, n: int)
    ensures Lookup(a + b, n) == if Lookup(a, n).Some? then Lookup(a, n) else Lookup(b, n)
  {
    if a == [] {
      assert a + b == b;
    } else {
      assert (a + b)[1..] == a[1..] + b;
      LookupAppend(a[1..], b, n);
    }
  }

  /** Only chunk h can hold a rule covering n, so the lookup in the concatenation is the lookup in that chunk. */
  lemma {:induction false} LookupConcat(chunks: seq<seq<Rule>>, h: nat, n: int)
    requires h < |chunks|
    requires forall i | 0 <= i < |chunks| && i != h :: Lookup(chunks[i], n) == None
    ensures Lookup(Concat(chunks), n) == Lookup(chunks[h], n)
  {
    LookupAppend(chunks[0], Concat(chunks[1..]), n);
    var rest := chunks[1..];
    if h > 0 {
      assert rest[h - 1] == chunks[h];
      forall i | 0 <= i < |rest| && i != h - 1
        ensures Lookup(rest[i], n) == None
      {
        assert rest[i] == chunks[i + 1];
      }
      LookupConcat(rest, h - 1, n);
    } else {
      forall i | 0 <= i < |rest|
        ensures Lookup(rest[i], n) == None
      {
        assert rest[i] == chunks[i + 1];
      }
      LookupConcatNone(rest, n);
    }
  }

  /** No chunk holds a rule covering n, so neither does the concatenation. */
  lemma {:induction false} LookupConcatNone(chunks: seq<seq<Rule>>, n: int)
    requires forall i | 0 <= i < |chunks| :: Lookup(chunks[i], n) == None
    ensures Lookup(Concat(chunks), n) == None
  {
    if chunks != [] {
      LookupAppend(chunks[0], Concat(chunks[1..]), n);
      LookupConcatNone(chunks[1..], n);
    }
  }

  // ---------------------------------------------------------------------
  // Where the rules lie
  // ---------------------------------------------------------------------

  /**
   * Every rule of the chunk lies in lo..hi, has the given engine flag, and a
   * known tag other than GENERAL, which is TRANSMISION exactly when the rule
   * is outside the engine's scope.
   */
  predicate Placed(chunk: seq<Rule>, lo: int, hi: int, engine: bool)
  {
    forall i | 0 <= i < |chunk| ::
      lo <= chunk[i].lo <= chunk[i].hi <= hi && chunk[i].info.engine == engine
      && chunk[i].info.system in Systems && chunk[i].info.system != "GENERAL"
      && (chunk[i].info.system == "TRANSMISION" <==> !engine)
  }

  function ChunkLo(h: nat): int
  {
    if h == 0 then 1 else 100 * h
  }

  function ChunkHi(h: nat): int
  {
    if h >= 7 then 999 else 100 * h + 99
  }

  /** The chunk a number in 1..999 falls into. */
  function ChunkOf(n: int): (h: nat)
    requires 1 <= n <= 999
    ensures h < 8 && ChunkLo(h) <= n <= ChunkHi(h)
  {
    if n >= 700 then 7 else n / 100
  }

  lemma Placed0() ensures Placed(Rules0xx, 1, 99, true) {}
  lemma Placed1() ensures Placed(Rules1xx, 100, 199, true) {}
  lemma Placed2() ensures Placed(Rules2xx, 200, 299, true) {}
  lemma Placed3() ensures Placed(Rules3xx, 300, 399, true) {}
  lemma Placed4() ensures Placed(Rules4xx, 400, 499, true) {}
  lemma Placed5() ensures Placed(Rules5xx, 500, 599, true) {}
  lemma Placed6() ensures Placed(Rules6xx, 600, 699, true) {}

  /** Each chunk of the detailed tier stays within its hundred; only the transmission rule is outside the engine's scope. */
  lemma ChunkPlaced(h: nat)
    requires h < |Hundreds|
    ensures Placed(Hundreds[h], ChunkLo(h), ChunkHi(h), h < 7)
  {
    if h == 0 { Placed0(); }
    else if h == 1 { Placed1(); }
    else if h == 2 { Placed2(); }
    else if h == 3 { Placed3(); }
    else if h == 4 { Placed4(); }
    else if h == 5 { Placed5(); }
    else if h == 6 { Placed6(); }
  }

  /** A chunk placed in lo..hi has nothing to say about numbers outside lo..hi. */
  lemma PlacedMisses(chunk: seq<Rule>, lo: int, hi: int, engine: bool, n: int)
    requires Placed(chunk, lo, hi, engine)
    requires n < lo || hi < n
    ensures Lookup(chunk, n) == None
  {
  }

  /** A placed chunk answers with an info carrying its engine flag and a known tag. */
  lemma PlacedAnswer(chunk: seq<Rule>, lo: int, hi: int, engine: bool, n: int)
    requires Placed(chunk, lo, hi, engine)
    requires Lookup(chunk, n).Some?
    ensures lo <= n <= hi
    ensures Lookup(chunk, n).value.engine == engine
    ensures Lookup(chunk, n).value.system in Systems - {"GENERAL"}
    ensures Lookup(chunk, n).value.system == "TRANSMISION" <==> !engine
  {
    var k := FirstMatch(chunk, n).value;
    assert chunk[k].info == Lookup(chunk, n).value;
  }

  /** The detailed tier answers for n exactly as the chunk of n's hundred does. */
  lemma DetailedByChunk(n: int)
    requires 1 <= n <= 999
    ensures Lookup(Concat(Hundreds), n) == Lookup(Hundreds[ChunkOf(n)], n)
  {
    var h := ChunkOf(n);
    forall i | 0 <= i < |Hundreds| && i != h
      ensures Lookup(Hundreds[i], n) == None
    {
      ChunkPlaced(i);
      PlacedMisses(Hundreds[i], ChunkLo(i), ChunkHi(i), i < 7, n);
    }
    LookupConcat(Hundreds, h, n);
  }

  /**
   * The rules for n are those of the chunk of n's hundred, and after them
   * the coarse tier.
   */
  lemma RulesByChunk(n: int)
    requires 1 <= n <= 999
    ensures var chunk := Lookup(Hundreds[ChunkOf(n)], n);
      Lookup(Rules(), n) == if chunk.Some? then chunk else Lookup(Fallback, n)
  {
    LookupAppend(Concat(Hundreds), Fallback, n);
    DetailedByChunk(n);
  }

  lemma FallbackPlaced() ensures Placed(Fallback, 1, 699, true) {}

  /** The coarse tier answers for every number in 1..699 with the rule of its hundred. */
  lemma FallbackBand(n: int)
    requires 1 <= n <= 699
    ensures Lookup(Fallback, n) == Some(Fallback[if n < 200 then 0 else n / 100 - 1].info)
  {
    FirstIs(Fallback, n, if n < 200 then 0 else n / 100 - 1);
  }

  // ---------------------------------------------------------------------
  // Scope
  // ---------------------------------------------------------------------

  /**
   * Every number in 1..999 is covered by some rule, and no other number is;
   * every answer carries a known tag other than GENERAL.
   */
  lemma TableAnswers(n: int)
    ensures Lookup(Rules(), n).Some? <==> 1 <= n <= 999
    ensures Lookup(Rules(), n).Some? ==> Lookup(Rules(), n).value.system in Systems - {"GENERAL"}
  {
    if 1 <= n <= 999 {
      var h := ChunkOf(n);
      RulesByChunk(n);
      ChunkPlaced(h);
      if Lookup(Hundreds[h], n).Some? {
        PlacedAnswer(Hundreds[h], ChunkLo(h), ChunkHi(h), h < 7, n);
      } else {
        FallbackPlaced();
        FallbackBand(n);
      }
    } else {
      OutOfRange(n);
    }
  }

  /** No rule covers a number outside 1..999. */
  lemma OutOfRange(n: int)
    requires !(1 <= n <= 999)
    ensures Lookup(Rules(), n) == None
  {
    forall i | 0 <= i < |Hundreds|
      ensures Lookup(Hundreds[i], n) == None
    {
      ChunkPlaced(i);
      PlacedMisses(Hundreds[i], ChunkLo(i), ChunkHi(i), i < 7, n);
    }
    LookupConcatNone(Hundreds, n);
    FallbackPlaced();
    PlacedMisses(Fallback, 1, 699, true, n);
    LookupAppend(Concat(Hundreds), Fallback, n);
  }

  /** Every code in 700..999 is a transmission code, outside the engine's scope. */
  lemma TransmissionCodes(n: int)
    requires 700 <= n <= 999
    ensures Classify(n) == Transmission.info
  {
    RulesByChunk(n);
    FirstIs([Transmission], n, 0);
  }

  /** Every code in 1..699 is within the engine's scope. */
  lemma EngineCodes(n: int)
    requires 1 <= n <= 699
    ensures Classify(n).engine && Classify(n).system != "TRANSMISION"
  {
    var h := ChunkOf(n);
    RulesByChunk(n);
    ChunkPlaced(h);
    if Lookup(Hundreds[h], n).Some? {
      PlacedAnswer(Hundreds[h], ChunkLo(h), ChunkHi(h), true, n);
    } else {
      FallbackBand(n);
      FallbackPlaced();
      PlacedAnswer(Fallback, 1, 699, true, n);
    }
  }

  /** A code is outside the engine's scope exactly when it lies in 700..999, and then it is a transmission code. */
  lemma EngineScope(n: int)
    ensures !Classify(n).engine <==> 700 <= n <= 999
    ensures Classify(n).system == "TRANSMISION" <==> 700 <= n <= 999
  {
    if 700 <= n <= 999 {
      TransmissionCodes(n);
    } else if 1 <= n <= 699 {
      EngineCodes(n);
    } else {
      OutOfRange(n);
    }
  }

  // ---------------------------------------------------------------------
  // First-match order
  // ---------------------------------------------------------------------

  /**
   * The exact rules for 171, 172, 174 and 175 lie inside 170..179, and the
   * knock and CKP rules inside 301..339, each behind that range: whatever the
   * code, none of them is the first match.
   */
  lemma ShadowedRulesNeverFire(n: int)
    ensures FirstMatch(Rules1xx, n) !in {Some(7), Some(8), Some(9), Some(10)}
    ensures FirstMatch(Rules3xx, n) !in {Some(2), Some(3)}
  {
    NeverFires(Rules1xx, 6, 7, n);
    NeverFires(Rules1xx, 6, 8, n);
    NeverFires(Rules1xx, 6, 9, n);
    NeverFires(Rules1xx, 6, 10, n);
    NeverFires(Rules3xx, 1, 2, n);
    NeverFires(Rules3xx, 1, 3, n);
  }

  const FuelTrim := CodeInfo("FUEL_PRESSURE", "Trim de combustible fuera de rango (B1/B2)", true)
  const CylinderMisfire := CodeInfo("MISFIRE", "Misfire cilindro específico", true)

  /** All of 170..179, the lean and rich mixture codes 171/172/174/175 included, are fuel trim codes. */
  lemma FuelTrimRange(n: int)
    requires 170 <= n <= 179
    ensures Classify(n) == FuelTrim
  {
    RulesByChunk(n);
    FirstIs(Rules1xx, n, 6);
  }

  /** All of 301..339, the knock codes 325..329 and CKP codes 335..339 included, are single-cylinder misfires. */
  lemma CylinderMisfireRange(n: int)
    requires 301 <= n <= 339
    ensures Classify(n) == CylinderMisfire
  {
    RulesByChunk(n);
    FirstIs(Rules3xx, n, 1);
  }

  /** 300 has its own rule, tried before 301..339. */
  lemma RandomMisfire()
    ensures Classify(300) == CodeInfo("MISFIRE", "Misfire aleatorio/múltiple (P0300)", true)
    ensures Classify(300) != CylinderMisfire
  {
    RulesByChunk(300);
    FirstIs(Rules3xx, 300, 0);
  }

  /** The two catalyst codes, one per bank. */
  lemma CatalystCodes()
    ensures Classify(420) == CodeInfo("CAT", "Catalizador por debajo del umbral (B1)", true)
    ensures Classify(430) == CodeInfo("CAT", "Catalizador por debajo del umbral (B2)", true)
  {
    RulesByChunk(420);
    FirstIs(Rules4xx, 420, 4);
    RulesByChunk(430);
    FirstIs(Rules4xx, 430, 5);
  }

  // ---------------------------------------------------------------------
  // The coarse tier
  // ---------------------------------------------------------------------

  /** The numbers in 1..699 that no rule of the detailed tier covers. */
  predicate InGap(n: int)
  {
    5 <= n <= 29 || 40 <= n <= 99
    || 220 <= n <= 229 || 270 <= n <= 279
    || 370 <= n <= 399
    || 403 <= n <= 409 || 421 <= n <= 429 || 431 <= n <= 439 || 470 <= n <= 479 || 490 <= n <= 499
    || 501 <= n <= 504 || 506 <= n <= 519 || 530 <= n <= 549 || 570 <= n <= 599
    || 630 <= n <= 649 || 651 <= n <= 679 || 690 <= n <= 699
  }

  lemma Gaps0(n: int)
    requires 1 <= n <= 99
    ensures Lookup(Rules0xx, n).None? <==> InGap(n)
  {
    var c := Rules0xx;
    if Lookup(c, n).None? {
      assert !Covers(c[0], n) && !Covers(c[1], n);
    } else {
      assert Covers(c[FirstMatch(c, n).value], n);
    }
  }

  /** The detailed tier leaves no gap in 100..199. */
  lemma Gaps1(n: int)
    requires 100 <= n <= 199
    ensures Lookup(Rules1xx, n).Some? && !InGap(n)
  {
    var c := Rules1xx;
    var j := if n <= 104 then 0 else if n <= 109 then 1 else if n <= 114 then 2 else if n <= 119 then 3
      else if n <= 129 then 4 else if n <= 169 then 5 else if n <= 179 then 6 else if n <= 189 then 11 else 12;
    assert Covers(c[j], n);
  }

  lemma Gaps2(n: int)
    requires 200 <= n <= 299
    ensures Lookup(Rules2xx, n).None? <==> InGap(n)
  {
    var c := Rules2xx;
    if Lookup(c, n).None? {
      assert !Covers(c[0], n) && !Covers(c[1], n) && !Covers(c[2], n) && !Covers(c[3], n) && !Covers(c[4], n) && !Covers(c[5], n) && !Covers(c[6], n);
    } else {
      assert Covers(c[FirstMatch(c, n).value], n);
    }
  }

  lemma Gaps3(n: int)
    requires 300 <= n <= 399
    ensures Lookup(Rules3xx, n).None? <==> InGap(n)
  {
    var c := Rules3xx;
    if Lookup(c, n).None? {
      assert !Covers(c[0], n) && !Covers(c[1], n) && !Covers(c[2], n) && !Covers(c[3], n) && !Covers(c[4], n) && !Covers(c[5], n);
    } else {
      assert Covers(c[FirstMatch(c, n).value], n);
    }
  }

  lemma Gaps4(n: int)
    requires 400 <= n <= 499
    ensures Lookup(Rules4xx, n).None? <==> InGap(n)
  {
    var c := Rules4xx;
    if Lookup(c, n).None? {
      assert !Covers(c[0], n) && !Covers(c[1], n) && !Covers(c[2], n) && !Covers(c[3], n) && !Covers(c[4], n) && !Covers(c[5], n) && !Covers(c[6], n) && !Covers(c[7], n) && !Covers(c[8], n);
    } else {
      assert Covers(c[FirstMatch(c, n).value], n);
    }
  }

  lemma Gaps5(n: int)
    requires 500 <= n <= 599
    ensures Lookup(Rules5xx, n).None? <==> InGap(n)
  {
    var c := Rules5xx;
    if Lookup(c, n).None? {
      assert !Covers(c[0], n) && !Covers(c[1], n) && !Covers(c[2], n) && !Covers(c[3], n) && !Covers(c[4], n);
    } else {
      assert Covers(c[FirstMatch(c, n).value], n);
    }
  }

  lemma Gaps6(n: int)
    requires 600 <= n <= 699
    ensures Lookup(Rules6xx, n).None? <==> InGap(n)
  {
    var c := Rules6xx;
    if Lookup(c, n).None? {
      assert !Covers(c[0], n) && !Covers(c[1], n) && !Covers(c[2], n) && !Covers(c[3], n) && !Covers(c[4], n);
    } else {
      assert Covers(c[FirstMatch(c, n).value], n);
    }
  }

  /**
   * A code in 1..699 reaches the coarse tier exactly when it lies in a gap of
   * the detailed tier, and there it gets the rule of its hundred.
   */
  lemma FallbackExactlyInGaps(n: int)
    requires 1 <= n <= 699
    ensures Classify(n) == Fallback[if n < 200 then 0 else n / 100 - 1].info <== InGap(n)
    ensures InGap(n) <==> Lookup(Hundreds[ChunkOf(n)], n).None?
  {
    RulesByChunk(n);
    FallbackBand(n);
    var h := ChunkOf(n);
    if h == 0 { Gaps0(n); }
    else if h == 1 { Gaps1(n); }
    else if h == 2 { Gaps2(n); }
    else if h == 3 { Gaps3(n); }
    else if h == 4 { Gaps4(n); }
    else if h == 5 { Gaps5(n); }
    else { Gaps6(n); }
  }

  /** Gap codes take the tag of their hundred. */
  lemma FallbackExamples()
    ensures Classify(5).system == "FUEL_PRESSURE" && Classify(225).system == "INJECTOR"
    ensures Classify(380).system == "MISFIRE" && Classify(405).system == "EGR"
    ensures Classify(575).system == "IDLE/VSS" && Classify(695).system == "ECU/REF"
  {
    FallbackExactlyInGaps(5);
    FallbackExactlyInGaps(225);
    FallbackExactlyInGaps(380);
    FallbackExactlyInGaps(405);
    FallbackExactlyInGaps(575);
    FallbackExactlyInGaps(695);
  }

  /** The edges of the classified range: 1..699 engine, 700..999 transmission, the rest general. */
  lemma ScopeBoundaries()
    ensures Classify(0) == General && Classify(1000) == General
    ensures Classify(1).engine && Classify(699).system == "ECU/REF" && Classify(699).engine
    ensures Classify(700) == Transmission.info && Classify(999) == Transmission.info
  {
    OutOfRange(0);
    OutOfRange(1000);
    EngineCodes(1);
    FallbackExactlyInGaps(699);
    TransmissionCodes(700);
    TransmissionCodes(999);
  }

  /** Both sides of the first detailed ranges: a detailed rule inside, the coarse tier just outside. */
  lemma RangeBoundaries()
    ensures Classify(4).desc == "Regulador de volumen de combustible — circuito/función"
    ensures Classify(5).desc == "Medición de aire/combustible — circuito/rango"
    ensures Classify(29) == Classify(5) && Classify(40) == Classify(5) && Classify(99) == Classify(5)
    ensures Classify(30).system == "O2_HEATER" && Classify(39).system == "O2_HEATER"
  {
    RulesByChunk(4);
    FirstIs(Rules0xx, 4, 0);
    FallbackExactlyInGaps(5);
    FallbackExactlyInGaps(29);
    FallbackExactlyInGaps(40);
    FallbackExactlyInGaps(99);
    RulesByChunk(30);
    FirstIs(Rules0xx, 30, 1);
    RulesByChunk(39);
    FirstIs(Rules0xx, 39, 1);
  }

  /** Both sides of the end of the injector range. */
  lemma InjectorBoundary()
    ensures Classify(219).desc == "Circuito/control de inyectores"
    ensures Classify(220).desc == "Inyección/boost — circuito/desempeño"
  {
    RulesByChunk(219);
    FirstIs(Rules2xx, 219, 0);
    FallbackExactlyInGaps(220);
  }

  /** Both sides of the end of the coil range. */
  lemma CoilBoundary()
    ensures Classify(369).desc == "Bobinas/primario-secundario — circuito"
    ensures Classify(370).desc == "Encendido/sincronismo — fallas"
  {
    RulesByChunk(369);
    FirstIs(Rules3xx, 369, 5);
    FallbackExactlyInGaps(370);
  }
}
