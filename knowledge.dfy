/**
 * The workshop knowledge base: a description of each subsystem, a list of
 * diagnostic steps per subsystem and a list of recommendations per
 * subsystem, each looked up by the subsystem tag with a fallback for a tag
 * the table lacks. Each step and each recommendation is a constructor whose
 * text is given once; the lists are lists of those constructors.
 */
module Knowledge {
  import opened Wrappers
  import opened Classifier

  /** What each subsystem covers: every known tag has a description, and no other tag. */
  function Description(system: string): (text: Option<string>)
    ensures text.Some? <==> system in Systems
  {
    match system
    case "FUEL_PRESSURE" => Some("Sistema de combustible/mezcla: presión de riel, bomba, regulador y correlaciones MAF/MAP.")
    case "MAF" => Some("Medición de flujo de aire (MAF) y correlaciones de mezcla.")
    case "MAP" => Some("Presión absoluta múltiple (MAP) y barométrica (BARO).")
    case "ECT/IAT" => Some("Temperaturas de motor y admisión (sensores NTC).")
    case "TPS/APP/ETC" => Some("Posición de mariposa, pedal y cuerpo electrónico de aceleración.")
    case "INJECTOR" => Some("Control de inyectores, alimentación y balance.")
    case "MISFIRE" => Some("Encendido, misfires, knock y sincronismo.")
    case "CKP/CMP" => Some("Sensores de posición cigüeñal/árbol de levas.")
    case "O2_HEATER" => Some("Circuitos de calefactor de sondas lambda.")
    case "O2_SENSOR" => Some("Señal de sondas (rich/lean, respuesta).")
    case "CAT" => Some("Eficiencia del catalizador y contrapresión.")
    case "EVAP" => Some("Control de vapores de combustible y estanqueidad.")
    case "EGR" => Some("Recirculación de gases y control de emisiones.")
    case "IDLE/VSS" => Some("Ralentí, velocidad y cargas auxiliares.")
    case "ECU/REF" => Some("ECU, comunicación y referencias de 5 V.")
    case "TRANSMISION" => Some("Códigos TCM/transmisión (referencia — fuera del alcance motor).")
    case "GENERAL" => Some("Powertrain (general).")
    case _ => None
  }

  /** The description shown for a tag: its entry, or the tag itself when it has none. */
  function SystemText(system: string): (text: string)
    ensures system in Systems ==> Description(system) == Some(text)
    ensures system !in Systems ==> text == system
  {
    match Description(system)
    case Some(text) => text
    case None => system
  }

  // ---------------------------------------------------------------------
  // Diagnostic steps
  // ---------------------------------------------------------------------

  /** Every diagnostic step the knowledge base knows, the four generic ones last. */
  datatype Step =
    | MafWiring
    | MafReference
    | MafVoltage
    | MafFlow
    | MafIntakeLeaks
    | MafCleaning
    | MafContinuity
    | MapHose
    | MapReference
    | MapVoltage
    | MapVersusMaf
    | MapVacuum
    | NtcResistance
    | NtcSupply
    | EctVersusIat
    | NtcWiring
    | HeaterResistance
    | HeaterSupply
    | HeaterFuse
    | SensorSwing
    | PropaneTest
    | SensorResponse
    | UpstreamVersusDownstream
    | PriorFaults
    | ExhaustBackpressure
    | FuelCap
    | SmokeTest
    | PurgeValve
    | EgrCarbon
    | EgrCommand
    | EgrPosition
    | RailPressure
    | PumpFlow
    | PressureRegulator
    | NoidPulse
    | CoilResistance
    | InjectorBalance
    | SwapIgnition
    | CompressionTest
    | MixtureCheck
    | CkpConnector
    | CkpResistance
    | ReluctorGap
    | ThrottleSupply
    | ThrottleSweep
    | ThrottleBaseline
    | IdleControl
    | IdleVacuumLeaks
    | SpeedSignal
    | SharedReference
    | MainRelay
    | CanBus
    | VisualInspection
    | SupplyAndGround
    | LiveData
    | LoadTests

  /** The text of each step, as the workshop sees it. */
  function StepText(item: Step): string
  {
    match item
    case MafWiring => "Verificar conector, terminales y masa del sensor MAF."
    case MafReference => "Comprobar referencia 5 V (KOEO)."
    case MafVoltage => "Medir señal MAF: 0.8–1.2 V en ralentí; sube hasta 4.0–4.5 V a 4.000 rpm."
    case MafFlow => "Observar g/s en vivo: 2–7 g/s en ralentí (1.6–2.0 L), proporcional a cilindrada."
    case MafIntakeLeaks => "Inspeccionar fugas de admisión antes del MAF y filtro obstruido."
    case MafCleaning => "Limpiar con limpiador específico (no tocar hilo)."
    case MafContinuity => "Probar continuidad hasta ECU si la señal es plana o errática."
    case MapHose => "Revisar manguera de vacío (si aplica) y conector."
    case MapReference => "Confirmar 5 V de referencia (KOEO)."
    case MapVoltage => "Medir señal MAP: KOEO ≈ 4.5–5.0 V; ralentí ≈ 0.9–1.5 V."
    case MapVersusMaf => "Comparar MAP–MAF: incoherencia sugiere fuga o sensor defectuoso."
    case MapVacuum => "Verificar vacío motor: 18–22 inHg aprox. en ralentí."
    case NtcResistance => "Medir resistencia NTC: 20°C ≈ 2–3 kΩ; 80°C ≈ 300–500 Ω."
    case NtcSupply => "Confirmar 5 V y masa."
    case EctVersusIat => "Comparar ECT con IAT en frío (similares, <3°C)."
    case NtcWiring => "Revisar continuidad y conectores sulfatados si hay saltos en la lectura."
    case HeaterResistance => "Medir resistencia del calefactor: 8–14 Ω."
    case HeaterSupply => "Verificar 12 V al calefactor (KOEO) y masa del circuito."
    case HeaterFuse => "Controlar fusible del circuito HO2S Heater."
    case SensorSwing => "Observar sonda estrecha: 0.10–0.90 V oscilante en lazo cerrado."
    case PropaneTest => "Si fija pobre/rica, confirmar con test de propano y descartar fugas."
    case SensorResponse => "Chequear respuesta: forzar enriquecimiento y observar cambio rápido."
    case UpstreamVersusDownstream => "Comparar O₂ upstream vs downstream (downstream debe oscilar menos)."
    case PriorFaults => "Descartar misfire/mezcla rica previa antes de reemplazar catalizador."
    case ExhaustBackpressure => "Medir contrapresión de escape si hay sospecha de obstrucción."
    case FuelCap => "Inspeccionar tapa de combustible (sellado correcto)."
    case SmokeTest => "Realizar test de humo (líneas, canister, válvulas)."
    case PurgeValve => "Revisar válvula de purga: trabada abierta → mezcla pobre inestable."
    case EgrCarbon => "Inspeccionar carbón en conductos y válvula EGR."
    case EgrCommand => "Comandar EGR con escáner: apertura excesiva casi apaga en ralentí."
    case EgrPosition => "Verificar que el sensor de posición EGR refleje el comando."
    case RailPressure => "Medir presión con manómetro: comparar con especificación (ej.: 3.0–3.5 bar multipunto)."
    case PumpFlow => "Probar caudal de bomba y caída de voltaje en alimentación."
    case PressureRegulator => "Controlar regulador de presión y retorno obstruido."
    case NoidPulse => "Comprobar pulso con lámpara noid."
    case CoilResistance => "Medir resistencia de bobina: 12–16 Ω (alta impedancia)."
    case InjectorBalance => "Realizar balance de inyectores (caída de presión similar)."
    case SwapIgnition => "Identificar cilindro; intercambiar bobina/bujía para ver si el fallo se traslada."
    case CompressionTest => "Realizar prueba de compresión/fugas (variación ≤ ±10%)."
    case MixtureCheck => "Verificar mezcla: fugas de vacío, MAF/MAP y presión de combustible."
    case CkpConnector => "Inspeccionar conector y presencia de limaduras en sensor CKP."
    case CkpResistance => "Medir: inductivo 500–1.500 Ω; Hall 5 V y señal cuadrada."
    case ReluctorGap => "Ajustar distancia al reluctor y confirmar correlación CKP–CMP."
    case ThrottleSupply => "Verificar 5 V de referencia y masa."
    case ThrottleSweep => "Observar TPS: barrido 0.5 V → 4.5 V sin saltos."
    case ThrottleBaseline => "Realizar aprendizaje/baseline del cuerpo electrónico; limpiar si hay suciedad."
    case IdleControl => "Revisar IAC/ETC: pasos o % coherentes con velocidad de ralentí."
    case IdleVacuumLeaks => "Detectar fugas de vacío (mangueras, PCV) si hay rpm elevadas."
    case SpeedSignal => "Confirmar VSS coherente con velocidad real."
    case SharedReference => "Comprobar líneas de 5 V comunes (un sensor en corto tumba el bus)."
    case MainRelay => "Verificar relé principal y masas de ECU (caída < 0.2 V)."
    case CanBus => "Comprobar continuidad CAN y terminaciones."
    case VisualInspection => "Inspección visual y eléctrica básica."
    case SupplyAndGround => "Verificar 5 V, masa y continuidad."
    case LiveData => "Datos en vivo y correlaciones."
    case LoadTests => "Pruebas de carga."
  }

  /** The steps of the tags that have a list of their own; TRANSMISION and GENERAL have none. */
  function OwnSteps(system: string): Option<seq<Step>>
  {
    match system
    case "MAF" => Some([MafWiring, MafReference, MafVoltage, MafFlow, MafIntakeLeaks, MafCleaning, MafContinuity])
    case "MAP" => Some([MapHose, MapReference, MapVoltage, MapVersusMaf, MapVacuum])
    case "ECT/IAT" => Some([NtcResistance, NtcSupply, EctVersusIat, NtcWiring])
    case "O2_HEATER" => Some([HeaterResistance, HeaterSupply, HeaterFuse])
    case "O2_SENSOR" => Some([SensorSwing, PropaneTest, SensorResponse])
    case "CAT" => Some([UpstreamVersusDownstream, PriorFaults, ExhaustBackpressure])
    case "EVAP" => Some([FuelCap, SmokeTest, PurgeValve])
    case "EGR" => Some([EgrCarbon, EgrCommand, EgrPosition])
    case "FUEL_PRESSURE" => Some([RailPressure, PumpFlow, PressureRegulator])
    case "INJECTOR" => Some([NoidPulse, CoilResistance, InjectorBalance])
    case "MISFIRE" => Some([SwapIgnition, CompressionTest, MixtureCheck])
    case "CKP/CMP" => Some([CkpConnector, CkpResistance, ReluctorGap])
    case "TPS/APP/ETC" => Some([ThrottleSupply, ThrottleSweep, ThrottleBaseline])
    case "IDLE/VSS" => Some([IdleControl, IdleVacuumLeaks, SpeedSignal])
    case "ECU/REF" => Some([SharedReference, MainRelay, CanBus])
    case _ => None
  }

  /** The steps for a tag without a list of its own. */
  const GenericSteps: seq<Step> := [VisualInspection, SupplyAndGround, LiveData, LoadTests]

  /** The texts of a list of steps, in order. */
  function StepTexts(steps: seq<Step>): seq<string>
  {
    seq(|steps|, i requires 0 <= i < |steps| => StepText(steps[i]))
  }

  /** The steps listed for a tag, before any extra step. */
  function StepTemplate(system: string): (steps: seq<string>)
    ensures |steps| >= 3
  {
    match OwnSteps(system)
    case Some(steps) => StepTexts(steps)
    case None => StepTexts(GenericSteps)
  }

  /**
   * The steps for a tag, with a non-empty extra step added at the end. The
   * table is built afresh on every call, so adding the step changes no later
   * answer.
   */
  method DiagnosticSteps(system: string, extra: string) returns (steps: seq<string>)
    ensures extra == [] ==> steps == StepTemplate(system)
    ensures extra != [] ==> |steps| == |StepTemplate(system)| + 1
    ensures extra != [] ==> steps[..|steps| - 1] == StepTemplate(system) && steps[|steps| - 1] == extra
  {
    var own := OwnSteps(system);
    if own.Some? {
      steps := StepTexts(own.value);
    } else {
      steps := StepTexts(GenericSteps);
    }
    if extra != [] {
      steps := steps + [extra];
    }
  }

  // ---------------------------------------------------------------------
  // Recommendations
  // ---------------------------------------------------------------------

  /** Every recommendation the knowledge base knows. */
  datatype Recommendation =
    | CleanMaf
    | CompareAirflow
    | MafSupplyDrop
    | ReplaceHoses
    | MapVersusBaro
    | VacuumPumpCurve
    | NtcHotCold
    | EctIatAtStart
    | Thermostat
    | HeaterFuses
    | ReplaceOpenSensor
    | ForcedRichResponse
    | ExhaustLeaks
    | EngineGrounds
    | UpstreamCauses
    | ConfirmBackpressure
    | SmokeSeal
    | ReplaceCap
    | Decarbonize
    | CommandEgr
    | StaticDynamicPressure
    | FlowAndDrop
    | UltrasonicCleaning
    | ReplaceOddInjector
    | SwapToIsolate
    | CylinderLeakage
    | AdjustGap
    | Oscilloscope
    | ThrottleLearn
    | PedalCorrelation
    | SealVacuum
    | CarbonBuildup
    | IsolateShorts
    | RelayAndGrounds
    | FreezeFrame
    | UpdateSoftware
    | ScanTcm

  /** The text of each recommendation, as the workshop sees it. */
  function RecommendationText(item: Recommendation): string
  {
    match item
    case CleanMaf => "Limpiar MAF con aerosol específico; **no** tocar el hilo."
    case CompareAirflow => "Comparar g/s con cilindrada y RPM; **descartar** fugas antes del MAF."
    case MafSupplyDrop => "Medir caída de voltaje en masa y 5 V; **reparar** falsos contactos."
    case ReplaceHoses => "Controlar manguera y puertos de vacío; **reemplazar** si están cuarteados."
    case MapVersusBaro => "Comparar MAP con BARO al KOEO; **calibrar** si difiere mucho."
    case VacuumPumpCurve => "Testear con bomba de vacío (si aplica) y **observar** la curva de salida."
    case NtcHotCold => "Medir resistencia en frío y caliente; **sustituir** si queda fuera de tabla."
    case EctIatAtStart => "Comparar ECT vs IAT al arranque; **investigar** diferencias >3°C."
    case Thermostat => "Controlar estado del termostato si la temperatura es errática."
    case HeaterFuses => "Verificar fusibles y **reparar** masa floja del calefactor."
    case ReplaceOpenSensor => "Medir resistencia; **reemplazar** sonda si está abierta o en corto."
    case ForcedRichResponse => "Forzar enriquecimiento y **confirmar** respuesta rápida."
    case ExhaustLeaks => "Inspeccionar **fugas de escape** antes del sensor; **sellar** juntas."
    case EngineGrounds => "Revisar masas de motor y **limpiar** puntos de unión."
    case UpstreamCauses => "Analizar causas **upstream** (misfire/mezcla) antes de **reemplazar** el catalizador."
    case ConfirmBackpressure => "Medir contrapresión; **confirmar** obstrucción."
    case SmokeSeal => "**Testear** estanqueidad con humo; **reparar** mangueras y válvulas."
    case ReplaceCap => "Verificar tapa de combustible; **sustituir** si no sella."
    case Decarbonize => "Descarbonizar conductos y **verificar** asiento de la válvula."
    case CommandEgr => "Usar el escáner para **comandar** y **evaluar** la respuesta del motor."
    case StaticDynamicPressure => "Medir presión estática y dinámica; **comparar** con especificación."
    case FlowAndDrop => "Realizar prueba de caudal y **verificar** caída de voltaje en cables."
    case UltrasonicCleaning => "**Ultrasonido** y limpieza si hay desbalance."
    case ReplaceOddInjector => "Medir resistencia y **sustituir** el que difiera claramente."
    case SwapToIsolate => "**Intercambiar** componentes (bobina/bujía) para aislar el cilindro."
    case CylinderLeakage => "**Comprobar** compresión y fugas de cilindro."
    case AdjustGap => "**Ajustar** luz al reluctor y **verificar** alineación de marcas."
    case Oscilloscope => "**Observar** señal con osciloscopio si está disponible."
    case ThrottleLearn => "**Realizar** aprendizaje del cuerpo; **limpiar** mariposa si pega."
    case PedalCorrelation => "**Verificar** correlación APP1/APP2 y **reparar** cableado si hay salto."
    case SealVacuum => "**Sellar** fugas de vacío y **comprobar** PCV."
    case CarbonBuildup => "**Revisar** acumulación de carbón en cuerpo/IAC."
    case IsolateShorts => "**Aislar** sensores en corto en la línea de 5 V desconectándolos uno a uno."
    case RelayAndGrounds => "**Verificar** relé principal y **limpiar** masas de ECU."
    case FreezeFrame => "**Registrar** datos freeze frame y **comparar** con síntomas del cliente."
    case UpdateSoftware => "**Actualizar** software ECU si existe boletín aplicable."
    case ScanTcm => "**Escanear** TCM y **corroborar** señales de par desde ECU motor."
  }

  /** The recommendations of each tag, GENERAL and TRANSMISION included. */
  function OwnRecommendations(system: string): Option<seq<Recommendation>>
  {
    match system
    case "MAF" => Some([CleanMaf, CompareAirflow, MafSupplyDrop])
    case "MAP" => Some([ReplaceHoses, MapVersusBaro, VacuumPumpCurve])
    case "ECT/IAT" => Some([NtcHotCold, EctIatAtStart, Thermostat])
    case "O2_HEATER" => Some([HeaterFuses, ReplaceOpenSensor])
    case "O2_SENSOR" => Some([ForcedRichResponse, ExhaustLeaks, EngineGrounds])
    case "CAT" => Some([UpstreamCauses, ConfirmBackpressure])
    case "EVAP" => Some([SmokeSeal, ReplaceCap])
    case "EGR" => Some([Decarbonize, CommandEgr])
    case "FUEL_PRESSURE" => Some([StaticDynamicPressure, FlowAndDrop])
    case "INJECTOR" => Some([UltrasonicCleaning, ReplaceOddInjector])
    case "MISFIRE" => Some([SwapToIsolate, CylinderLeakage])
    case "CKP/CMP" => Some([AdjustGap, Oscilloscope])
    case "TPS/APP/ETC" => Some([ThrottleLearn, PedalCorrelation])
    case "IDLE/VSS" => Some([SealVacuum, CarbonBuildup])
    case "ECU/REF" => Some([IsolateShorts, RelayAndGrounds])
    case "GENERAL" => Some([FreezeFrame, UpdateSoftware])
    case "TRANSMISION" => Some([ScanTcm])
    case _ => None
  }

  /** The texts of a list of recommendations, in order. */
  function RecommendationTexts(items: seq<Recommendation>): seq<string>
  {
    seq(|items|, i requires 0 <= i < |items| => RecommendationText(items[i]))
  }

  /** The recommendations for a tag: its own list, or the GENERAL one. */
  function Recommendations(system: string): (items: seq<string>)
    ensures |items| >= 1
  {
    match OwnRecommendations(system)
    case Some(items) => RecommendationTexts(items)
    case None => RecommendationTexts(OwnRecommendations("GENERAL").value)
  }

  // ---------------------------------------------------------------------
  // Lemmas
  // ---------------------------------------------------------------------

  /**
   * Every tag of the engine's scope has steps of its own; TRANSMISION and
   * GENERAL, like any unknown tag, get the generic four steps.
   */
  lemma StepCoverage()
    ensures forall s :: OwnSteps(s).Some? <==> s in Systems && s != "TRANSMISION" && s != "GENERAL"
    ensures forall s | OwnSteps(s).None? :: StepTemplate(s) == StepTexts(GenericSteps)
    ensures |GenericSteps| == 4
  {
  }

  /** Every known tag has recommendations of its own; an unknown tag gets the GENERAL ones. */
  lemma RecommendationCoverage()
    ensures forall s :: OwnRecommendations(s).Some? <==> s in Systems
    ensures forall s | s !in Systems :: Recommendations(s) == Recommendations("GENERAL")
  {
  }
}
