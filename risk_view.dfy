/**
 * The risk view (src/screens/RiskViewScreen.tsx): it loads the last stored
 * humidity/tilt reading and classifies it with an ordered, first-match
 * threshold rule.
 */
module RiskView {
  import opened Wrappers
  import opened Storage

  const ReadingsKey: string := "leituras"

  /** Thresholds of the rule: "above" is strict, "at" includes the bound. */
  const HumidityHighAbove: real := 80.0
  const TiltHighAbove: real := 30.0
  const HumidityModerateAt: real := 60.0
  const TiltModerateAt: real := 15.0

  const NoDataLabel: string := "Sem dados"
  const HighLabel: string := "\U{1F525} Risco Alto"
  const ModerateLabel: string := "\U{26A0}\U{FE0F} Risco Moderado"
  const LowLabel: string := "\U{1F33F} Risco Baixo"

  /** One stored reading: humidity in percent and tilt in degrees. */
  datatype Metrics = Metrics(humidity: real, tilt: real)

  datatype Level = Low | Moderate | High

  /** The order of the levels: Low < Moderate < High. */
  function Rank(l: Level): nat {
    match l
    case Low => 0
    case Moderate => 1
    case High => 2
  }

  /** The rule of `calcularRisco`, evaluated top to bottom, first match wins. */
  function Classify(m: Metrics): Level {
    if m.humidity > HumidityHighAbove || m.tilt > TiltHighAbove then High
    else if m.humidity >= HumidityModerateAt || m.tilt >= TiltModerateAt then Moderate
    else Low
  }

  /** The text `calcularRisco` returns: "Sem dados" without data, else the level's label. */
  function RiskLabel(data: Option<Metrics>): (text: string)
    ensures data.None? <==> text == NoDataLabel
  {
    match data
    case None => NoDataLabel
    case Some(m) =>
      match Classify(m)
      case High => HighLabel
      case Moderate => ModerateLabel
      case Low => LowLabel
  }

  // ---------------------------------------------------------------------------
  // An independent reading of the rule

  /** The level a single signal alone would give, with its two thresholds. */
  function SignalLevel(x: real, moderateAt: real, highAbove: real): Level {
    if x > highAbove then High else if x >= moderateAt then Moderate else Low
  }

  function Worse(a: Level, b: Level): (w: Level)
    ensures Rank(w) >= Rank(a) && Rank(w) >= Rank(b)
    ensures w == a || w == b
  {
    if Rank(a) >= Rank(b) then a else b
  }

  /**
   * The ordered rule equals "the worse of the two per-signal levels": the
   * first-match chain introduces no interaction between humidity and tilt.
   */
  lemma ClassifyIsWorseSignal(m: Metrics)
    ensures Classify(m) == Worse(SignalLevel(m.humidity, HumidityModerateAt, HumidityHighAbove),
                                 SignalLevel(m.tilt, TiltModerateAt, TiltHighAbove))
  {
  }

  /** High exactly when humidity exceeds 80 or tilt exceeds 30. */
  lemma HighIff(m: Metrics)
    ensures Classify(m) == High <==> m.humidity > 80.0 || m.tilt > 30.0
  {
  }

  /** Moderate exactly when neither High bound is exceeded but humidity reaches 60 or tilt reaches 15. */
  lemma ModerateIff(m: Metrics)
    ensures Classify(m) == Moderate <==>
              m.humidity <= 80.0 && m.tilt <= 30.0 && (m.humidity >= 60.0 || m.tilt >= 15.0)
  {
  }

  /** Low exactly when humidity is below 60 and tilt below 15. */
  lemma LowIff(m: Metrics)
    ensures Classify(m) == Low <==> m.humidity < 60.0 && m.tilt < 15.0
  {
  }

  /** The boundaries: the High bounds are strict, the Moderate bounds inclusive. */
  lemma Boundaries(tilt: real)
    requires tilt < 15.0
    ensures Classify(Metrics(80.0, tilt)) == Moderate
    ensures Classify(Metrics(80.0001, tilt)) == High
    ensures Classify(Metrics(60.0, tilt)) == Moderate
    ensures Classify(Metrics(59.999, tilt)) == Low
    ensures Classify(Metrics(0.0, 30.0)) == Moderate
    ensures Classify(Metrics(0.0, 30.5)) == High
  {
  }

  /** Raising either signal never lowers the level. */
  lemma ClassifyMonotone(a: Metrics, b: Metrics)
    requires a.humidity <= b.humidity && a.tilt <= b.tilt
    ensures Rank(Classify(a)) <= Rank(Classify(b))
  {
  }

  /** The three labels are distinct, so the text shown identifies the level. */
  lemma LabelIdentifiesLevel(a: Metrics, b: Metrics)
    requires RiskLabel(Some(a)) == RiskLabel(Some(b))
    ensures Classify(a) == Classify(b)
  {
    assert HighLabel[0] != ModerateLabel[0] && HighLabel[0] != LowLabel[0] && ModerateLabel[0] != LowLabel[0];
  }

  // ---------------------------------------------------------------------------
  // Loading the last reading

  /**
   * `JSON.parse` of the stored text as an array of readings: None when the
   * text does not parse, or does not parse to an array of readings.
   */
  type Decoder = string -> Option<seq<Metrics>>

  /**
   * What `carregarUltimaLeitura` finds: the last element of the stored list.
   * A missing or empty stored value is skipped; a parse error, or an empty
   * list (whose last element is undefined, so reading its fields throws),
   * is caught; in all three cases no reading is found.
   */
  function LastReading(stored: Option<string>, decode: Decoder): (found: Option<Metrics>)
    ensures found.Some? <==> Truthy(stored) && decode(stored.value).Some? && |decode(stored.value).value| > 0
    ensures found.Some? ==> found.value == decode(stored.value).value[|decode(stored.value).value| - 1]
  {
    if !Truthy(stored) then None
    else match decode(stored.value)
      case None => None
      case Some(all) => if |all| == 0 then None else Some(all[|all| - 1])
  }

  /** What the screen shows: a spinner while loading, then the reading with its risk, or "no reading". */
  datatype View = Spinner | NoReading | Shown(humidity: real, tilt: real, riskText: string)

  function Render(loading: bool, data: Option<Metrics>): (v: View)
    ensures v.Spinner? <==> loading
    ensures v.NoReading? <==> !loading && data.None?
    ensures v.Shown? ==> v.riskText == RiskLabel(data) && v.riskText != NoDataLabel
  {
    if loading then Spinner
    else match data
      case None => NoReading
      case Some(m) => Shown(m.humidity, m.tilt, RiskLabel(data))
  }

  class RiskViewScreen {
    var data: Option<Metrics>
    var loading: bool
    const store: KeyValueStore

    /** The screen starts with no data and the spinner on. */
    constructor (store: KeyValueStore)
      ensures data == None && loading && this.store == store
    {
      data := None;
      loading := true;
      this.store := store;
    }

    /** The mount effect: take the last stored reading if there is one; loading ends on every path. */
    method LoadLastReading(decode: Decoder)
      modifies this
      ensures data == (if LastReading(Lookup(store.items, ReadingsKey), decode).Some?
                       then LastReading(Lookup(store.items, ReadingsKey), decode) else old(data))
      ensures !loading
    {
      var stored := store.GetItem(ReadingsKey);
      if Truthy(stored) {
        var parsed := decode(stored.value);
        if parsed.Some? && |parsed.value| > 0 {
          var last := parsed.value[|parsed.value| - 1];
          data := Some(Metrics(last.humidity, last.tilt));
        }
      }
      loading := false;
    }
  }
}
