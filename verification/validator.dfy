/** The integrated-response validator: three groups of checks (required
    fields, data types, business rules) each append their violations to one
    list; validation passes when the list is empty and otherwise fails with
    every collected message. The duplicate scan reports repeated takeaways
    and risks as warnings.

    The response record is inferred from the fields the validator reads.
    `undefined` is `None` (or an explicit `...Undefined` constructor), and
    a field whose type the validator tests may also hold a value of the
    wrong type. */
module ResponseValidator {
  import opened Basics
  import opened Executives

  /** `overallConfidence`: undefined, a finite number, the number `NaN`
      (whose `typeof` is `'number'` and which compares false with
      everything), or a value of another type, together with what `<`
      coerces it to (`None` for `NaN`). */
  datatype Confidence = ConfidenceUndefined | Number(x: real) | NotANumber | NonNumber(coerced: Option<real>)

  /** A list field: undefined, `null`, an array of strings, a string
      (whose `length` is its own), or another value that is not an array
      and whose `length` is undefined (a number, a boolean, a plain
      object). */
  datatype ListField = ListUndefined | Null | List(items: seq<string>) | Text(s: string) | NotList

  /** `timestamp`: undefined, a `Date` instance, or anything else. */
  datatype Stamp = StampUndefined | DateObject | NotDate

  /** The metrics block; `timeline` is `None` unless it holds a string. */
  datatype Metrics = Metrics(kpis: ListField, targets: ListField, timeline: Option<string>)

  datatype MarketingStrategy = MarketingStrategy(metrics: Option<Metrics>)

  datatype ActionPlan = ActionPlan(immediate: Option<seq<string>>, shortTerm: Option<seq<string>>, longTerm: Option<seq<string>>)

  datatype IntegratedResponse = IntegratedResponse(
    summaries: Option<string>,
    overallConfidence: Confidence,
    keyTakeaways: ListField,
    consolidatedRisks: ListField,
    vision: Option<string>,
    strategicDirection: Option<seq<string>>,
    masterActionPlan: Option<ActionPlan>,
    contributingAgents: Option<seq<AgentType>>,
    timestamp: Stamp,
    marketingStrategy: Option<MarketingStrategy>)

  /** The result of `validateIntegratedResponse`: `true`, a `ValidationError`
      carrying the messages, or a `TypeError` thrown while checking. */
  datatype Verdict = Valid | Invalid(errors: seq<string>) | Crashed

  function ErrorsOf(v: Verdict): seq<string> {
    if v.Invalid? then v.errors else []
  }

  // The validator's messages.
  const ConfidenceRangeMsg: string := "Overall confidence must be a number between 0 and 1"
  const TimestampMsg: string := "Timestamp must be a valid Date object"
  const TakeawaysArrayMsg: string := "Key takeaways must be an array"
  const RisksArrayMsg: string := "Consolidated risks must be an array"
  const KpisMsg: string := "Marketing metrics KPIs must be an array"
  const TargetsMsg: string := "Marketing metrics targets must be an array"
  const TimelineMsg: string := "Marketing metrics timeline must be a string"
  const LowConfidenceMsg: string := "Overall confidence is too low for a reliable response"
  const NoTakeawayMsg: string := "Must have at least one key takeaway"
  const NoDirectionMsg: string := "Must have at least one strategic direction"
  const EmptyPlanMsg: string := "Action plan must contain at least one action item"
  const NoStrategyMsg: string := "Strategy agent must be included in contributing agents"
  const NoMarketingStrategyMsg: string := "Marketing strategy must be present when Marketing agent contributes"
  const MissingFieldPrefix: string := "Missing required field: "
  const MissingTimeframePrefix: string := "Missing required action plan timeframe: "

  // ---------------------------------------------------------------------
  // The validator as the source structures it.

  const RequiredFields: seq<string> := [
    "summaries", "overallConfidence", "keyTakeaways", "consolidatedRisks", "vision",
    "strategicDirection", "masterActionPlan", "contributingAgents", "timestamp"]

  const Timeframes: seq<string> := ["immediate", "shortTerm", "longTerm"]

  /** `response[name] === undefined`; a name the record lacks reads as
      undefined. */
  predicate UndefinedField(r: IntegratedResponse, name: string) {
    match name
    case "summaries" => r.summaries.None?
    case "overallConfidence" => r.overallConfidence.ConfidenceUndefined?
    case "keyTakeaways" => r.keyTakeaways.ListUndefined?
    case "consolidatedRisks" => r.consolidatedRisks.ListUndefined?
    case "vision" => r.vision.None?
    case "strategicDirection" => r.strategicDirection.None?
    case "masterActionPlan" => r.masterActionPlan.None?
    case "contributingAgents" => r.contributingAgents.None?
    case "timestamp" => r.timestamp.StampUndefined?
    case _ => true
  }

  function MissingFields(r: IntegratedResponse, fields: seq<string>): seq<string> {
    if |fields| == 0 then []
    else
      (if UndefinedField(r, fields[0]) then [MissingFieldPrefix + fields[0]] else [])
      + MissingFields(r, fields[1..])
  }

  /** `masterActionPlan[name]`. */
  function Bucket(p: ActionPlan, name: string): Option<seq<string>> {
    match name
    case "immediate" => p.immediate
    case "shortTerm" => p.shortTerm
    case "longTerm" => p.longTerm
    case _ => None
  }

  function MissingTimeframes(p: ActionPlan, names: seq<string>): seq<string> {
    if |names| == 0 then []
    else
      (if Bucket(p, names[0]).None? then [MissingTimeframePrefix + names[0]] else [])
      + MissingTimeframes(p, names[1..])
  }

  /** No field message exactly when no field is undefined. */
  lemma {:induction false} MissingFieldsEmptyIff(r: IntegratedResponse, fields: seq<string>)
    ensures MissingFields(r, fields) == [] <==> forall f :: f in fields ==> !UndefinedField(r, f)
    decreases |fields|
  {
    if |fields| > 0 {
      MissingFieldsEmptyIff(r, fields[1..]);
      assert forall f :: f in fields <==> f == fields[0] || f in fields[1..];
    }
  }

  /** No timeframe message exactly when every named bucket is defined. */
  lemma {:induction false} MissingTimeframesEmptyIff(p: ActionPlan, names: seq<string>)
    ensures MissingTimeframes(p, names) == [] <==> forall t :: t in names ==> Bucket(p, t).Some?
    decreases |names|
  {
    if |names| > 0 {
      MissingTimeframesEmptyIff(p, names[1..]);
      assert forall t :: t in names <==> t == names[0] || t in names[1..];
    }
  }

  /** `validateRequiredFields`: silent exactly when every required field is
      defined and, if there is an action plan, so are its three
      timeframes. */
  function RequiredFieldErrors(r: IntegratedResponse): (errs: seq<string>)
    ensures errs == [] <==>
      (forall f :: f in RequiredFields ==> !UndefinedField(r, f))
      && (r.masterActionPlan.Some? ==> forall t :: t in Timeframes ==> Bucket(r.masterActionPlan.value, t).Some?)
  {
    MissingFieldsEmptyIff(r, RequiredFields);
    match r.masterActionPlan
    case Some(p) =>
      MissingTimeframesEmptyIff(p, Timeframes);
      MissingFields(r, RequiredFields) + MissingTimeframes(p, Timeframes)
    case None =>
      MissingFields(r, RequiredFields) + []
  }

  function MetricsErrors(m: Metrics): seq<string> {
    (if !m.kpis.List? then [KpisMsg] else [])
    + (if !m.targets.List? then [TargetsMsg] else [])
    + (if m.timeline.None? then [TimelineMsg] else [])
  }

  /** `typeof c !== 'number' || c < 0 || c > 1`: `NaN` gets through, since
      it is a number and both comparisons are false. */
  predicate OutOfRange(c: Confidence) {
    match c
    case Number(x) => x < 0.0 || x > 1.0
    case NotANumber => false
    case _ => true
  }

  /** The checks of `validateDataTypes` that cannot throw. */
  function BaseTypeErrors(r: IntegratedResponse): seq<string> {
    (if OutOfRange(r.overallConfidence) then [ConfidenceRangeMsg] else [])
    + (if !r.timestamp.DateObject? then [TimestampMsg] else [])
    + (if !r.keyTakeaways.List? then [TakeawaysArrayMsg] else [])
    + (if !r.consolidatedRisks.List? then [RisksArrayMsg] else [])
  }

  /** `validateDataTypes` as written: a marketing strategy without `metrics`
      throws when `metrics.kpis` is read (`None`); otherwise it collects
      what the guarded check does. */
  function DataTypeErrorsAsWritten(r: IntegratedResponse): (o: Option<seq<string>>)
    ensures o.None? <==> r.marketingStrategy.Some? && r.marketingStrategy.value.metrics.None?
    ensures o.Some? ==> o.value == DataTypeErrors(r)
  {
    match r.marketingStrategy
    case None => Some(BaseTypeErrors(r))
    case Some(ms) =>
      match ms.metrics
      case None => None
      case Some(m) => Some(BaseTypeErrors(r) + MetricsErrors(m))
  }

  /** JavaScript's `value < bound`: undefined and `NaN` compare false. */
  predicate LessThan(c: Confidence, bound: real) {
    match c
    case ConfidenceUndefined => false
    case NotANumber => false
    case Number(x) => x < bound
    case NonNumber(v) => v.Some? && v.value < bound
  }

  /** `immediate.length === 0 && shortTerm.length === 0 && longTerm.length
      === 0` as written: reading `length` of an undefined bucket throws
      (`None`), but only for the buckets the short-circuit reaches. */
  function PlanEmptyAsWritten(p: ActionPlan): (e: Option<bool>)
    ensures e.Some? ==> e.value == PlanEmpty(p)
    ensures p.immediate.Some? && p.shortTerm.Some? && p.longTerm.Some? ==> e.Some?
    ensures p.immediate.None? ==> e.None?
  {
    match p.immediate
    case None => None
    case Some(i) =>
      if |i| != 0 then Some(false)
      else match p.shortTerm
        case None => None
        case Some(s) =>
          if |s| != 0 then Some(false)
          else match p.longTerm
            case None => None
            case Some(l) => Some(|l| == 0)
  }

  function AgentErrors(agents: seq<AgentType>, ms: Option<MarketingStrategy>): seq<string> {
    (if Strategy !in agents then [NoStrategyMsg] else [])
    + (if Marketing in agents && ms.None? then [NoMarketingStrategyMsg] else [])
  }

  /** Reading `length` of the field throws: it is undefined or `null`. */
  predicate LengthThrows(f: ListField) {
    f.ListUndefined? || f.Null?
  }

  /** `field.length === 0` on a field whose `length` can be read: an empty
      array or an empty string. Any other value's `length` is a positive
      number or undefined. */
  predicate LengthIsZero(f: ListField) {
    (f.List? && |f.items| == 0) || (f.Text? && |f.s| == 0)
  }

  /** `validateBusinessLogic` as written: it reads `keyTakeaways.length`,
      `strategicDirection.length`, the action-plan buckets and
      `contributingAgents.includes` without looking first, so any of them
      undefined throws (`None`), and so does a `null` takeaway list. When
      it does not throw it collects what the guarded check does. */
  function BusinessErrorsAsWritten(r: IntegratedResponse): (o: Option<seq<string>>)
    ensures LengthThrows(r.keyTakeaways) || r.strategicDirection.None? || r.masterActionPlan.None? || r.contributingAgents.None?
      ==> o.None?
    ensures !LengthThrows(r.keyTakeaways) && r.strategicDirection.Some? && r.contributingAgents.Some?
      && r.masterActionPlan.Some? && r.masterActionPlan.value.immediate.Some?
      && r.masterActionPlan.value.shortTerm.Some? && r.masterActionPlan.value.longTerm.Some?
      ==> o.Some?
    ensures o.Some? ==> o.value == BusinessErrors(r)
  {
    var low := if LessThan(r.overallConfidence, 0.4) then [LowConfidenceMsg] else [];
    if LengthThrows(r.keyTakeaways) || r.strategicDirection.None? || r.masterActionPlan.None? then None
    else
      var noTakeaway := if LengthIsZero(r.keyTakeaways) then [NoTakeawayMsg] else [];
      var noDirection := if |r.strategicDirection.value| == 0 then [NoDirectionMsg] else [];
      match PlanEmptyAsWritten(r.masterActionPlan.value)
      case None => None
      case Some(empty) =>
        var emptyPlan := if empty then [EmptyPlanMsg] else [];
        match r.contributingAgents
        case None => None
        case Some(agents) => Some(low + noTakeaway + noDirection + emptyPlan + AgentErrors(agents, r.marketingStrategy))
  }

  function Conclude(errors: seq<string>): (v: Verdict)
    ensures v.Valid? <==> |errors| == 0
    ensures v.Invalid? ==> v.errors == errors
    ensures !v.Crashed?
  {
    if |errors| > 0 then Invalid(errors) else Valid
  }

  /** `validateIntegratedResponse` as written: all three groups run in
      order, but a `TypeError` in either of the last two escapes and the
      collected messages are lost. A response the required-field group
      accepts throws only on a `null` takeaway list or a marketing strategy
      without metrics; whenever the code does not throw, it reaches the
      guarded validator's verdict. */
  function ValidateAsWritten(r: IntegratedResponse): (v: Verdict)
    ensures LengthThrows(r.keyTakeaways) || r.strategicDirection.None? || r.masterActionPlan.None? || r.contributingAgents.None?
      || (r.marketingStrategy.Some? && r.marketingStrategy.value.metrics.None?)
      ==> v.Crashed?
    ensures RequiredFieldErrors(r) == [] && r.keyTakeaways != Null
      && (r.marketingStrategy.Some? ==> r.marketingStrategy.value.metrics.Some?)
      ==> !v.Crashed?
    ensures !v.Crashed? ==> v == Validate(r)
  {
    CompleteResponseDoesNotThrow(r);
    var required := RequiredFieldErrors(r);
    match DataTypeErrorsAsWritten(r)
    case None => Crashed
    case Some(types) =>
      match BusinessErrorsAsWritten(r)
      case None => Crashed
      case Some(business) => Conclude(required + types + business)
  }

  // ---------------------------------------------------------------------
  // The validator with every read guarded: an undefined field is reported
  // by the required-field group and skipped by the later checks.

  /** A missing `metrics` block is read as an empty one. */
  function DataTypeErrors(r: IntegratedResponse): seq<string> {
    match r.marketingStrategy
    case None => BaseTypeErrors(r)
    case Some(ms) => BaseTypeErrors(r) + MetricsErrors(ms.metrics.GetOr(Metrics(ListUndefined, ListUndefined, None)))
  }

  /** An undefined bucket holds no action item. */
  predicate PlanEmpty(p: ActionPlan) {
    (p.immediate.None? || |p.immediate.value| == 0)
    && (p.shortTerm.None? || |p.shortTerm.value| == 0)
    && (p.longTerm.None? || |p.longTerm.value| == 0)
  }

  function BusinessErrors(r: IntegratedResponse): seq<string> {
    (if LessThan(r.overallConfidence, 0.4) then [LowConfidenceMsg] else [])
    + (if LengthIsZero(r.keyTakeaways) then [NoTakeawayMsg] else [])
    + (if r.strategicDirection.Some? && |r.strategicDirection.value| == 0 then [NoDirectionMsg] else [])
    + (if r.masterActionPlan.Some? && PlanEmpty(r.masterActionPlan.value) then [EmptyPlanMsg] else [])
    + (match r.contributingAgents
       case None => []
       case Some(agents) => AgentErrors(agents, r.marketingStrategy))
  }

  /** `validateIntegratedResponse` with guarded reads: never throws. */
  function Validate(r: IntegratedResponse): (v: Verdict)
    ensures !v.Crashed?
    ensures v.Valid? <==> |RequiredFieldErrors(r) + DataTypeErrors(r) + BusinessErrors(r)| == 0
  {
    Conclude(RequiredFieldErrors(r) + DataTypeErrors(r) + BusinessErrors(r))
  }

  /** A response the required-field group accepts has every field the
      business check reads, and every timeframe. */
  lemma CompleteResponseDoesNotThrow(r: IntegratedResponse)
    ensures RequiredFieldErrors(r) == [] ==>
      !r.keyTakeaways.ListUndefined? && r.strategicDirection.Some? && r.contributingAgents.Some?
      && r.masterActionPlan.Some? && r.masterActionPlan.value.immediate.Some?
      && r.masterActionPlan.value.shortTerm.Some? && r.masterActionPlan.value.longTerm.Some?
  {
    if RequiredFieldErrors(r) == [] {
      BusinessFieldsRequired();
      assert !UndefinedField(r, "masterActionPlan");
    }
  }

  /** The fields the business check reads are all required. */
  lemma BusinessFieldsRequired()
    ensures "keyTakeaways" in RequiredFields && "strategicDirection" in RequiredFields
    ensures "masterActionPlan" in RequiredFields && "contributingAgents" in RequiredFields
    ensures "immediate" in Timeframes && "shortTerm" in Timeframes && "longTerm" in Timeframes
  {
  }

  /** A response without an action plan: the required-field check reports
      it, then the business check throws and the report is lost. The
      guarded validator reports the missing field. */
  lemma MissingPlanThrows(r: IntegratedResponse)
    requires r.masterActionPlan.None?
    ensures ValidateAsWritten(r) == Crashed
    ensures Validate(r).Invalid? && MissingFieldPrefix + "masterActionPlan" in Validate(r).errors
  {
    assert BusinessErrorsAsWritten(r) == None;
    MissingFieldReported(r, RequiredFields, 6);
    assert MissingFieldPrefix + "masterActionPlan" in RequiredFieldErrors(r);
  }

  /** An undefined required field is always among the required-field
      messages. */
  lemma {:induction false} MissingFieldReported(r: IntegratedResponse, fields: seq<string>, k: nat)
    requires k < |fields| && UndefinedField(r, fields[k])
    ensures MissingFieldPrefix + fields[k] in MissingFields(r, fields)
    decreases k
  {
    if k > 0 {
      MissingFieldReported(r, fields[1..], k - 1);
      assert fields[1..][k - 1] == fields[k];
    }
  }

  /** An otherwise well-formed response that lacks only its action plan. */
  const NoPlan: IntegratedResponse := IntegratedResponse(
    Some("summary"), Number(0.8), List(["grow"]), List(["churn"]), Some("vision"),
    Some(["expand"]), None, Some([Strategy]), DateObject, None)

  lemma NoPlanThrows()
    ensures ValidateAsWritten(NoPlan) == Crashed
    ensures MissingFieldPrefix + "masterActionPlan" in ErrorsOf(Validate(NoPlan))
  {
    MissingPlanThrows(NoPlan);
  }

  // ---------------------------------------------------------------------
  // Reference: the rule table. Each rule is stated on its own, in the
  // response's terms, and the validator must report exactly the broken
  // rules, in table order.

  datatype Field = Summaries | OverallConfidence | KeyTakeaways | ConsolidatedRisks | Vision
    | StrategicDirection | MasterActionPlan | ContributingAgents | Timestamp

  datatype Timeframe = Immediate | ShortTerm | LongTerm

  datatype Rule =
    | Required(field: Field)
    | HasTimeframe(timeframe: Timeframe)
    | ConfidenceInRange | TimestampIsDate | TakeawaysAreArray | RisksAreArray
    | KpisAreArray | TargetsAreArray | TimelineIsString
    | ConfidenceHighEnough | HasTakeaway | HasDirection | PlanHasItem
    | StrategyContributes | MarketingHasStrategy

  function FieldName(f: Field): string {
    match f
    case Summaries => "summaries"
    case OverallConfidence => "overallConfidence"
    case KeyTakeaways => "keyTakeaways"
    case ConsolidatedRisks => "consolidatedRisks"
    case Vision => "vision"
    case StrategicDirection => "strategicDirection"
    case MasterActionPlan => "masterActionPlan"
    case ContributingAgents => "contributingAgents"
    case Timestamp => "timestamp"
  }

  function TimeframeName(t: Timeframe): string {
    match t
    case Immediate => "immediate"
    case ShortTerm => "shortTerm"
    case LongTerm => "longTerm"
  }

  predicate Defined(r: IntegratedResponse, f: Field) {
    match f
    case Summaries => r.summaries != None
    case OverallConfidence => r.overallConfidence != ConfidenceUndefined
    case KeyTakeaways => r.keyTakeaways != ListUndefined
    case ConsolidatedRisks => r.consolidatedRisks != ListUndefined
    case Vision => r.vision != None
    case StrategicDirection => r.strategicDirection != None
    case MasterActionPlan => r.masterActionPlan != None
    case ContributingAgents => r.contributingAgents != None
    case Timestamp => r.timestamp != StampUndefined
  }

  /** The metrics a marketing strategy carries, read as empty when absent. */
  function MetricsOf(ms: MarketingStrategy): Metrics {
    if ms.metrics.Some? then ms.metrics.value else Metrics(ListUndefined, ListUndefined, None)
  }

  /** The value is, or coerces to, a number below the bound. */
  predicate CoercesBelow(c: Confidence, bound: real) {
    (c.Number? && c.x < bound) || (c.NonNumber? && c.coerced.Some? && c.coerced.value < bound)
  }

  predicate Broken(r: IntegratedResponse, rule: Rule) {
    match rule
    case Required(f) => !Defined(r, f)
    case HasTimeframe(t) =>
      r.masterActionPlan.Some?
      && (match t
          case Immediate => r.masterActionPlan.value.immediate.None?
          case ShortTerm => r.masterActionPlan.value.shortTerm.None?
          case LongTerm => r.masterActionPlan.value.longTerm.None?)
    case ConfidenceInRange =>
      !(r.overallConfidence.Number? && 0.0 <= r.overallConfidence.x <= 1.0) && r.overallConfidence != NotANumber
    case TimestampIsDate => r.timestamp != DateObject
    case TakeawaysAreArray => !r.keyTakeaways.List?
    case RisksAreArray => !r.consolidatedRisks.List?
    case KpisAreArray => r.marketingStrategy.Some? && !MetricsOf(r.marketingStrategy.value).kpis.List?
    case TargetsAreArray => r.marketingStrategy.Some? && !MetricsOf(r.marketingStrategy.value).targets.List?
    case TimelineIsString => r.marketingStrategy.Some? && MetricsOf(r.marketingStrategy.value).timeline == None
    case ConfidenceHighEnough => CoercesBelow(r.overallConfidence, 0.4)
    case HasTakeaway => r.keyTakeaways == List([]) || r.keyTakeaways == Text([])
    case HasDirection => r.strategicDirection == Some([])
    case PlanHasItem =>
      r.masterActionPlan.Some?
      && var p := r.masterActionPlan.value;
      p.immediate.GetOr([]) == [] && p.shortTerm.GetOr([]) == [] && p.longTerm.GetOr([]) == []
    case StrategyContributes => r.contributingAgents.Some? && Strategy !in r.contributingAgents.value
    case MarketingHasStrategy =>
      r.contributingAgents.Some? && Marketing in r.contributingAgents.value && r.marketingStrategy == None
  }

  function Message(rule: Rule): string {
    match rule
    case Required(f) => MissingFieldPrefix + FieldName(f)
    case HasTimeframe(t) => MissingTimeframePrefix + TimeframeName(t)
    case ConfidenceInRange => ConfidenceRangeMsg
    case TimestampIsDate => TimestampMsg
    case TakeawaysAreArray => TakeawaysArrayMsg
    case RisksAreArray => RisksArrayMsg
    case KpisAreArray => KpisMsg
    case TargetsAreArray => TargetsMsg
    case TimelineIsString => TimelineMsg
    case ConfidenceHighEnough => LowConfidenceMsg
    case HasTakeaway => NoTakeawayMsg
    case HasDirection => NoDirectionMsg
    case PlanHasItem => EmptyPlanMsg
    case StrategyContributes => NoStrategyMsg
    case MarketingHasStrategy => NoMarketingStrategyMsg
  }

  const FieldRules: seq<Rule> := [
    Required(Summaries), Required(OverallConfidence), Required(KeyTakeaways), Required(ConsolidatedRisks),
    Required(Vision), Required(StrategicDirection), Required(MasterActionPlan), Required(ContributingAgents),
    Required(Timestamp)]

  const TimeframeRules: seq<Rule> := [HasTimeframe(Immediate), HasTimeframe(ShortTerm), HasTimeframe(LongTerm)]

  const RequiredRules: seq<Rule> := FieldRules + TimeframeRules

  const TypeRules: seq<Rule> := [
    ConfidenceInRange, TimestampIsDate, TakeawaysAreArray, RisksAreArray,
    KpisAreArray, TargetsAreArray, TimelineIsString]

  const BusinessRules: seq<Rule> := [
    ConfidenceHighEnough, HasTakeaway, HasDirection, PlanHasItem, StrategyContributes, MarketingHasStrategy]

  /** Every rule, in the order the validator checks them. */
  const Rules: seq<Rule> := RequiredRules + TypeRules + BusinessRules

  /** The message of one rule, when it is broken. */
  function Single(r: IntegratedResponse, rule: Rule): seq<string> {
    if Broken(r, rule) then [Message(rule)] else []
  }

  /** The messages of the broken rules among `rules`, in order. */
  function Expected(r: IntegratedResponse, rules: seq<Rule>): (msgs: seq<string>)
    ensures |msgs| <= |rules|
  {
    if |rules| == 0 then [] else Single(r, rules[0]) + Expected(r, rules[1..])
  }

  lemma ExpectedFrom(r: IntegratedResponse, rules: seq<Rule>, k: nat)
    requires k < |rules|
    ensures Expected(r, rules[k..]) == Single(r, rules[k]) + Expected(r, rules[k + 1..])
  {
    assert rules[k..][1..] == rules[k + 1..];
  }

  lemma {:induction false} ExpectedAppend(r: IntegratedResponse, a: seq<Rule>, b: seq<Rule>)
    ensures Expected(r, a + b) == Expected(r, a) + Expected(r, b)
    decreases |a|
  {
    if |a| == 0 {
      assert a + b == b;
    } else {
      assert (a + b)[0] == a[0];
      assert (a + b)[1..] == a[1..] + b;
      ExpectedAppend(r, a[1..], b);
      ConcatAssoc(Single(r, a[0]), Expected(r, a[1..]), Expected(r, b));
    }
  }

  lemma ConcatAssoc(x: seq<string>, y: seq<string>, z: seq<string>)
    ensures x + (y + z) == (x + y) + z
  {
  }

  lemma MissingFieldsFrom(r: IntegratedResponse, fields: seq<string>, k: nat)
    requires k < |fields|
    ensures MissingFields(r, fields[k..])
      == (if UndefinedField(r, fields[k]) then [MissingFieldPrefix + fields[k]] else [])
         + MissingFields(r, fields[k + 1..])
  {
    assert fields[k..][1..] == fields[k + 1..];
  }

  lemma FieldRuleAgrees(r: IntegratedResponse, k: nat)
    requires k < 9
    ensures (if UndefinedField(r, RequiredFields[k]) then [MissingFieldPrefix + RequiredFields[k]] else [])
      == Single(r, FieldRules[k])
  {
    if k == 0 {} else if k == 1 {} else if k == 2 {} else if k == 3 {} else if k == 4 {}
    else if k == 5 {} else if k == 6 {} else if k == 7 {} else {}
  }

  lemma {:induction false} FieldRulesFrom(r: IntegratedResponse, k: nat)
    requires k <= 9
    ensures MissingFields(r, RequiredFields[k..]) == Expected(r, FieldRules[k..])
    decreases 9 - k
  {
    if k < 9 {
      FieldRulesFrom(r, k + 1);
      MissingFieldsFrom(r, RequiredFields, k);
      ExpectedFrom(r, FieldRules, k);
      FieldRuleAgrees(r, k);
    }
  }

  lemma MissingTimeframesCons(p: ActionPlan, x: string, rest: seq<string>)
    ensures MissingTimeframes(p, [x] + rest)
      == (if Bucket(p, x).None? then [MissingTimeframePrefix + x] else []) + MissingTimeframes(p, rest)
  {
    assert ([x] + rest)[1..] == rest;
  }

  lemma TimeframeRulesAsChecks(r: IntegratedResponse)
    ensures r.masterActionPlan.None? ==>
      Single(r, HasTimeframe(Immediate)) == [] && Single(r, HasTimeframe(ShortTerm)) == [] && Single(r, HasTimeframe(LongTerm)) == []
    ensures r.masterActionPlan.Some? ==>
      var p := r.masterActionPlan.value;
      Single(r, HasTimeframe(Immediate)) == (if Bucket(p, "immediate").None? then [MissingTimeframePrefix + "immediate"] else [])
      && Single(r, HasTimeframe(ShortTerm)) == (if Bucket(p, "shortTerm").None? then [MissingTimeframePrefix + "shortTerm"] else [])
      && Single(r, HasTimeframe(LongTerm)) == (if Bucket(p, "longTerm").None? then [MissingTimeframePrefix + "longTerm"] else [])
  {
  }

  lemma TimeframeRulesMatch(r: IntegratedResponse)
    ensures (match r.masterActionPlan
             case Some(p) => MissingTimeframes(p, Timeframes)
             case None => []) == Expected(r, TimeframeRules)
  {
    var s0, s1, s2 := Single(r, HasTimeframe(Immediate)), Single(r, HasTimeframe(ShortTerm)), Single(r, HasTimeframe(LongTerm));
    ExpectedOne(r, HasTimeframe(LongTerm));
    ExpectedCons(r, HasTimeframe(ShortTerm), [HasTimeframe(LongTerm)]);
    ExpectedCons(r, HasTimeframe(Immediate), [HasTimeframe(ShortTerm), HasTimeframe(LongTerm)]);
    assert TimeframeRules == [HasTimeframe(Immediate), HasTimeframe(ShortTerm), HasTimeframe(LongTerm)];
    TimeframeRulesAsChecks(r);
    if r.masterActionPlan.Some? {
      var p := r.masterActionPlan.value;
      MissingTimeframesCons(p, "longTerm", []);
      MissingTimeframesCons(p, "shortTerm", ["longTerm"]);
      MissingTimeframesCons(p, "immediate", ["shortTerm", "longTerm"]);
      assert Timeframes == ["immediate"] + ["shortTerm", "longTerm"];
      assert ["shortTerm"] + ["longTerm"] == ["shortTerm", "longTerm"];
      assert ["longTerm"] + [] == ["longTerm"];
    }
  }

  lemma RequiredGroupMatches(r: IntegratedResponse)
    ensures RequiredFieldErrors(r) == Expected(r, RequiredRules)
  {
    FieldRulesFrom(r, 0);
    assert RequiredFields[0..] == RequiredFields && FieldRules[0..] == FieldRules;
    TimeframeRulesMatch(r);
    ExpectedAppend(r, FieldRules, TimeframeRules);
  }

  lemma ExpectedCons(r: IntegratedResponse, x: Rule, rest: seq<Rule>)
    ensures Expected(r, [x] + rest) == Single(r, x) + Expected(r, rest)
  {
    assert ([x] + rest)[1..] == rest;
  }

  lemma ExpectedOne(r: IntegratedResponse, x: Rule)
    ensures Expected(r, [x]) == Single(r, x)
  {
    ExpectedCons(r, x, []);
    assert [x] + [] == [x];
  }

  /** Each type rule fires exactly where its check in `DataTypeErrors` does. */
  lemma TypeRulesAsChecks(r: IntegratedResponse)
    ensures Single(r, ConfidenceInRange) == (if OutOfRange(r.overallConfidence) then [ConfidenceRangeMsg] else [])
    ensures Single(r, TimestampIsDate) == (if !r.timestamp.DateObject? then [TimestampMsg] else [])
    ensures Single(r, TakeawaysAreArray) == (if !r.keyTakeaways.List? then [TakeawaysArrayMsg] else [])
    ensures Single(r, RisksAreArray) == (if !r.consolidatedRisks.List? then [RisksArrayMsg] else [])
    ensures r.marketingStrategy.None? ==> Single(r, KpisAreArray) == [] && Single(r, TargetsAreArray) == [] && Single(r, TimelineIsString) == []
    ensures r.marketingStrategy.Some? ==>
      var m := MetricsOf(r.marketingStrategy.value);
      Single(r, KpisAreArray) == (if !m.kpis.List? then [KpisMsg] else [])
      && Single(r, TargetsAreArray) == (if !m.targets.List? then [TargetsMsg] else [])
      && Single(r, TimelineIsString) == (if m.timeline.None? then [TimelineMsg] else [])
  {
  }

  lemma TypeRulesUnrolled(r: IntegratedResponse)
    ensures Expected(r, TypeRules)
      == Single(r, ConfidenceInRange) + Single(r, TimestampIsDate) + Single(r, TakeawaysAreArray) + Single(r, RisksAreArray)
         + (Single(r, KpisAreArray) + Single(r, TargetsAreArray) + Single(r, TimelineIsString))
  {
    ExpectedOne(r, TimelineIsString);
    ExpectedCons(r, TargetsAreArray, [TimelineIsString]);
    ExpectedCons(r, KpisAreArray, [TargetsAreArray, TimelineIsString]);
    ExpectedCons(r, RisksAreArray, [KpisAreArray, TargetsAreArray, TimelineIsString]);
    ExpectedCons(r, TakeawaysAreArray, [RisksAreArray, KpisAreArray, TargetsAreArray, TimelineIsString]);
    ExpectedCons(r, TimestampIsDate, [TakeawaysAreArray, RisksAreArray, KpisAreArray, TargetsAreArray, TimelineIsString]);
    ExpectedCons(r, ConfidenceInRange, [TimestampIsDate, TakeawaysAreArray, RisksAreArray, KpisAreArray, TargetsAreArray, TimelineIsString]);
    assert TypeRules == [ConfidenceInRange, TimestampIsDate, TakeawaysAreArray, RisksAreArray, KpisAreArray, TargetsAreArray, TimelineIsString];
    ConcatSeven(Single(r, ConfidenceInRange), Single(r, TimestampIsDate), Single(r, TakeawaysAreArray), Single(r, RisksAreArray),
      Single(r, KpisAreArray), Single(r, TargetsAreArray), Single(r, TimelineIsString));
  }

  lemma TypeGroupMatches(r: IntegratedResponse)
    ensures DataTypeErrors(r) == Expected(r, TypeRules)
  {
    TypeRulesUnrolled(r);
    TypeRulesAsChecks(r);
    var base := Single(r, ConfidenceInRange) + Single(r, TimestampIsDate) + Single(r, TakeawaysAreArray) + Single(r, RisksAreArray);
    var metrics := Single(r, KpisAreArray) + Single(r, TargetsAreArray) + Single(r, TimelineIsString);
    assert BaseTypeErrors(r) == base;
    if r.marketingStrategy.Some? {
      assert MetricsErrors(MetricsOf(r.marketingStrategy.value)) == metrics;
    } else {
      assert metrics == [];
    }
  }

  lemma ConcatSeven(s0: seq<string>, s1: seq<string>, s2: seq<string>, s3: seq<string>, s4: seq<string>, s5: seq<string>, s6: seq<string>)
    ensures s0 + (s1 + (s2 + (s3 + (s4 + (s5 + s6))))) == s0 + s1 + s2 + s3 + (s4 + s5 + s6)
  {
  }

  /** Each business rule fires exactly where its check in `BusinessErrors` does. */
  lemma BusinessRulesAsChecks(r: IntegratedResponse)
    ensures Single(r, ConfidenceHighEnough) == (if LessThan(r.overallConfidence, 0.4) then [LowConfidenceMsg] else [])
    ensures Single(r, HasTakeaway) == (if LengthIsZero(r.keyTakeaways) then [NoTakeawayMsg] else [])
    ensures Single(r, HasDirection) == (if r.strategicDirection.Some? && |r.strategicDirection.value| == 0 then [NoDirectionMsg] else [])
    ensures Single(r, PlanHasItem) == (if r.masterActionPlan.Some? && PlanEmpty(r.masterActionPlan.value) then [EmptyPlanMsg] else [])
  {
  }

  /** The two agent rules fire exactly where `AgentErrors` reports. */
  lemma AgentRulesAsChecks(r: IntegratedResponse)
    ensures r.contributingAgents.None? ==> Single(r, StrategyContributes) == [] && Single(r, MarketingHasStrategy) == []
    ensures r.contributingAgents.Some? ==>
      Single(r, StrategyContributes) + Single(r, MarketingHasStrategy) == AgentErrors(r.contributingAgents.value, r.marketingStrategy)
  {
  }

  lemma BusinessGroupMatches(r: IntegratedResponse)
    ensures BusinessErrors(r) == Expected(r, BusinessRules)
  {
    var s0, s1, s2 := Single(r, ConfidenceHighEnough), Single(r, HasTakeaway), Single(r, HasDirection);
    var s3, s4, s5 := Single(r, PlanHasItem), Single(r, StrategyContributes), Single(r, MarketingHasStrategy);
    ExpectedOne(r, MarketingHasStrategy);
    ExpectedCons(r, StrategyContributes, [MarketingHasStrategy]);
    ExpectedCons(r, PlanHasItem, [StrategyContributes, MarketingHasStrategy]);
    ExpectedCons(r, HasDirection, [PlanHasItem, StrategyContributes, MarketingHasStrategy]);
    ExpectedCons(r, HasTakeaway, [HasDirection, PlanHasItem, StrategyContributes, MarketingHasStrategy]);
    ExpectedCons(r, ConfidenceHighEnough, [HasTakeaway, HasDirection, PlanHasItem, StrategyContributes, MarketingHasStrategy]);
    BusinessRulesAsChecks(r);
    AgentRulesAsChecks(r);
    assert BusinessRules == [ConfidenceHighEnough, HasTakeaway, HasDirection, PlanHasItem, StrategyContributes, MarketingHasStrategy];
    ConcatSix(s0, s1, s2, s3, s4, s5);
  }

  lemma ConcatSix(s0: seq<string>, s1: seq<string>, s2: seq<string>, s3: seq<string>, s4: seq<string>, s5: seq<string>)
    ensures s0 + (s1 + (s2 + (s3 + (s4 + s5)))) == s0 + s1 + s2 + s3 + (s4 + s5)
  {
  }

  /** The guarded validator reports exactly the broken rules, in table
      order, and passes exactly when no rule is broken. */
  lemma ValidateMatchesRules(r: IntegratedResponse)
    ensures ErrorsOf(Validate(r)) == Expected(r, Rules)
    ensures Validate(r) == Valid <==> Expected(r, Rules) == []
  {
    RequiredGroupMatches(r);
    TypeGroupMatches(r);
    BusinessGroupMatches(r);
    ExpectedAppend(r, RequiredRules, TypeRules);
    ExpectedAppend(r, RequiredRules + TypeRules, BusinessRules);
  }

  lemma {:induction false} ExpectedEmptyIff(r: IntegratedResponse, rules: seq<Rule>)
    ensures Expected(r, rules) == [] <==> forall i :: 0 <= i < |rules| ==> !Broken(r, rules[i])
    decreases |rules|
  {
    if |rules| > 0 {
      ExpectedEmptyIff(r, rules[1..]);
      assert forall i :: 1 <= i < |rules| ==> rules[i] == rules[1..][i - 1];
    }
  }

  lemma {:induction false} BrokenRuleReported(r: IntegratedResponse, rules: seq<Rule>, i: nat)
    requires i < |rules| && Broken(r, rules[i])
    ensures Message(rules[i]) in Expected(r, rules)
    decreases |rules|
  {
    if i > 0 {
      BrokenRuleReported(r, rules[1..], i - 1);
    }
  }

  /** Validation passes if and only if no rule is broken; otherwise every
      broken rule's message is among the errors, since no group stops the
      others. */
  lemma ValidIffNoRuleBroken(r: IntegratedResponse)
    ensures Validate(r) == Valid <==> forall i :: 0 <= i < |Rules| ==> !Broken(r, Rules[i])
    ensures forall i :: 0 <= i < |Rules| && Broken(r, Rules[i]) ==> Message(Rules[i]) in ErrorsOf(Validate(r))
  {
    ValidateMatchesRules(r);
    ExpectedEmptyIff(r, Rules);
    forall i | 0 <= i < |Rules| && Broken(r, Rules[i])
      ensures Message(Rules[i]) in ErrorsOf(Validate(r))
    {
      BrokenRuleReported(r, Rules, i);
    }
  }

  /** A negative confidence breaks both the range rule and the threshold
      rule, and both messages are reported. */
  lemma NegativeConfidenceReportedTwice(r: IntegratedResponse, x: real)
    requires r.overallConfidence == Number(x) && x < 0.0
    ensures ConfidenceRangeMsg in ErrorsOf(Validate(r))
    ensures LowConfidenceMsg in ErrorsOf(Validate(r))
  {
    RuleReported(r, ConfidenceInRange);
    RuleReported(r, ConfidenceHighEnough);
  }

  /** A `NaN` confidence is judged exactly as a confidence of one half: it
      passes the range check and the threshold, by both validators. */
  lemma NaNConfidencePasses(r: IntegratedResponse)
    requires r.overallConfidence == NotANumber
    ensures Validate(r) == Validate(r.(overallConfidence := Number(0.5)))
    ensures ValidateAsWritten(r) == ValidateAsWritten(r.(overallConfidence := Number(0.5)))
  {
    var half := r.(overallConfidence := Number(0.5));
    assert MissingFields(r, RequiredFields) == MissingFields(half, RequiredFields) by {
      SameDefinedFields(r, half, RequiredFields);
    }
    assert RequiredFieldErrors(r) == RequiredFieldErrors(half);
    assert BaseTypeErrors(r) == BaseTypeErrors(half);
    assert DataTypeErrors(r) == DataTypeErrors(half);
    assert BusinessErrors(r) == BusinessErrors(half);
    assert DataTypeErrorsAsWritten(r) == DataTypeErrorsAsWritten(half);
    assert BusinessErrorsAsWritten(r) == BusinessErrorsAsWritten(half);
  }

  /** Two responses that agree on which fields are undefined miss the
      same required fields. */
  lemma {:induction false} SameDefinedFields(r: IntegratedResponse, q: IntegratedResponse, fields: seq<string>)
    requires forall f :: UndefinedField(r, f) == UndefinedField(q, f)
    ensures MissingFields(r, fields) == MissingFields(q, fields)
    decreases |fields|
  {
    if |fields| > 0 {
      SameDefinedFields(r, q, fields[1..]);
    }
  }

  /** A `null` takeaway list is not reported missing, since only undefined
      is; the type check reports it, and then the code as written throws
      reading its `length`, losing the report. */
  lemma NullTakeawaysThrow(r: IntegratedResponse)
    requires r.keyTakeaways == Null
    ensures ValidateAsWritten(r) == Crashed
    ensures TakeawaysArrayMsg in ErrorsOf(Validate(r))
  {
    assert LengthThrows(r.keyTakeaways);
    RuleReported(r, TakeawaysAreArray);
  }

  /** A broken rule's message is among the guarded validator's errors. */
  lemma RuleReported(r: IntegratedResponse, rule: Rule)
    requires rule in Rules && Broken(r, rule)
    ensures Message(rule) in ErrorsOf(Validate(r))
  {
    var i :| 0 <= i < |Rules| && Rules[i] == rule;
    ValidateMatchesRules(r);
    BrokenRuleReported(r, Rules, i);
  }

  /** An empty string as the takeaway list is not an array and has length
      zero, so both messages are reported, by both validators. */
  lemma EmptyTextTakeawaysReportedTwice(r: IntegratedResponse)
    requires r.keyTakeaways == Text([])
    ensures TakeawaysArrayMsg in ErrorsOf(Validate(r)) && NoTakeawayMsg in ErrorsOf(Validate(r))
    ensures !ValidateAsWritten(r).Crashed? ==>
      TakeawaysArrayMsg in ErrorsOf(ValidateAsWritten(r)) && NoTakeawayMsg in ErrorsOf(ValidateAsWritten(r))
  {
    RuleReported(r, TakeawaysAreArray);
    RuleReported(r, HasTakeaway);
    var v := ValidateAsWritten(r);
  }

  // ---------------------------------------------------------------------
  // Duplicate scan.

  /** `array.indexOf(x)`. */
  function IndexOfItem(xs: seq<string>, x: string): (i: int)
    ensures -1 <= i < |xs|
    ensures i == -1 <==> x !in xs
    ensures i >= 0 ==> xs[i] == x
  {
    if |xs| == 0 then -1
    else if xs[0] == x then 0
    else
      var k := IndexOfItem(xs[1..], x);
      assert xs == [xs[0]] + xs[1..];
      if k == -1 then -1 else k + 1
  }

  /** `indexOf` finds the first occurrence. */
  lemma {:induction false} IndexOfItemFirst(xs: seq<string>, x: string)
    ensures IndexOfItem(xs, x) >= 0 ==> x !in xs[..IndexOfItem(xs, x)]
  {
    if |xs| > 0 && xs[0] != x {
      IndexOfItemFirst(xs[1..], x);
      var k := IndexOfItem(xs[1..], x);
      if k >= 0 {
        assert xs[..k + 1] == [xs[0]] + xs[1..][..k];
      }
    }
  }

  /** The filter of `findDuplicates` over the first `n` positions. */
  function DuplicatesUpTo(xs: seq<string>, n: nat): seq<string>
    requires n <= |xs|
  {
    if n == 0 then []
    else DuplicatesUpTo(xs, n - 1) + (if IndexOfItem(xs, xs[n - 1]) != n - 1 then [xs[n - 1]] else [])
  }

  /** `findDuplicates`: the elements whose first index is not their own
      position, in order. */
  function FindDuplicates(xs: seq<string>): seq<string> {
    DuplicatesUpTo(xs, |xs|)
  }

  /** Position `i` is kept exactly when its value already occurred earlier. */
  lemma RepeatAt(xs: seq<string>, i: nat)
    requires i < |xs|
    ensures IndexOfItem(xs, xs[i]) != i <==> xs[i] in xs[..i]
  {
    var k := IndexOfItem(xs, xs[i]);
    IndexOfItemFirst(xs, xs[i]);
    if xs[i] in xs[..i] {
      assert k < i;
    } else {
      assert xs[..i + 1][i] == xs[i];
    }
  }

  /** Reference: the values that already occurred earlier in `p`, in order. */
  function Repeats(p: seq<string>): seq<string> {
    if |p| == 0 then [] else Repeats(p[..|p| - 1]) + (if p[|p| - 1] in p[..|p| - 1] then [p[|p| - 1]] else [])
  }

  /** The `indexOf` filter keeps exactly the repeats. */
  lemma {:induction false} DuplicatesAreRepeats(xs: seq<string>, n: nat)
    requires n <= |xs|
    ensures DuplicatesUpTo(xs, n) == Repeats(xs[..n])
  {
    if n > 0 {
      DuplicatesAreRepeats(xs, n - 1);
      RepeatAt(xs, n - 1);
      assert xs[..n][..n - 1] == xs[..n - 1];
    }
  }

  lemma SnocCount(p: seq<string>, x: string)
    requires |p| > 0
    ensures multiset(p)[x] == multiset(p[..|p| - 1])[x] + (if p[|p| - 1] == x then 1 else 0)
    ensures p[|p| - 1] == x ==> (p[|p| - 1] in p[..|p| - 1] <==> multiset(p[..|p| - 1])[x] > 0)
  {
    assert p == p[..|p| - 1] + [p[|p| - 1]];
  }

  lemma RepeatsStep(p: seq<string>, x: string)
    requires |p| > 0
    ensures multiset(Repeats(p))[x]
         == multiset(Repeats(p[..|p| - 1]))[x] + (if p[|p| - 1] == x && p[|p| - 1] in p[..|p| - 1] then 1 else 0)
  {
  }

  /** One more position: a repeat adds one report and one occurrence, a
      first occurrence adds only the occurrence. */
  lemma CountStep(reported: int, count: nat, hit: bool, seen: bool)
    requires reported == (if count == 0 then 0 else count - 1)
    requires hit ==> (seen <==> count > 0)
    ensures reported + (if hit && seen then 1 else 0)
         == (if count + (if hit then 1 else 0) == 0 then 0 else count + (if hit then 1 else 0) - 1)
  {
  }

  lemma {:induction false} RepeatsCount(p: seq<string>, x: string)
    ensures multiset(Repeats(p))[x] == if multiset(p)[x] == 0 then 0 else multiset(p)[x] - 1
  {
    if |p| > 0 {
      var q := p[..|p| - 1];
      RepeatsCount(q, x);
      RepeatsStep(p, x);
      SnocCount(p, x);
      CountStep(multiset(Repeats(q))[x], multiset(q)[x], p[|p| - 1] == x, p[|p| - 1] in q);
    }
  }

  /** A value that occurs `k` times is reported `k - 1` times (and a value
      that does not occur, never). */
  lemma DuplicateCount(xs: seq<string>, x: string)
    ensures multiset(FindDuplicates(xs))[x] == if multiset(xs)[x] == 0 then 0 else multiset(xs)[x] - 1
  {
    DuplicatesAreRepeats(xs, |xs|);
    assert xs[..|xs|] == xs;
    RepeatsCount(xs, x);
  }

  predicate NoRepeats(xs: seq<string>) {
    forall i, j :: 0 <= i < j < |xs| ==> xs[i] != xs[j]
  }

  lemma {:induction false} NoRepeatsIff(p: seq<string>)
    ensures Repeats(p) == [] <==> NoRepeats(p)
  {
    if |p| > 0 {
      var q := p[..|p| - 1];
      var e := p[|p| - 1];
      NoRepeatsIff(q);
      if NoRepeats(p) {
        assert NoRepeats(q);
        assert e !in q;
      } else {
        var i, j :| 0 <= i < j < |p| && p[i] == p[j];
        if j == |p| - 1 {
          assert q[i] == e;
        } else {
          assert q[i] == q[j];
        }
      }
    }
  }

  /** The scan finds nothing exactly when the list has no repeated value. */
  lemma NoDuplicatesIff(xs: seq<string>)
    ensures FindDuplicates(xs) == [] <==> NoRepeats(xs)
  {
    DuplicatesAreRepeats(xs, |xs|);
    assert xs[..|xs|] == xs;
    NoRepeatsIff(xs);
  }

  /** `checkForDuplicates`: one warning per list with repeats. It reads both
      lists with `filter`, so a list that is not an array throws (`None`). */
  function CheckForDuplicates(r: IntegratedResponse): (warnings: Option<seq<string>>)
    ensures warnings.Some? <==> r.keyTakeaways.List? && r.consolidatedRisks.List?
    ensures warnings.Some? ==> |warnings.value| <= 2
  {
    match (r.keyTakeaways, r.consolidatedRisks)
    case (List(takeaways), List(risks)) =>
      var dupTakeaways := FindDuplicates(takeaways);
      var dupRisks := FindDuplicates(risks);
      Some((if |dupTakeaways| > 0 then ["Duplicate key takeaways found: " + Join(dupTakeaways, ", ")] else [])
        + (if |dupRisks| > 0 then ["Duplicate risks found: " + Join(dupRisks, ", ")] else []))
    case _ => None
  }

  /** On a response that passed validation the scan runs to the end, and
      it warns about nothing exactly when neither list repeats a value. */
  lemma DuplicateWarnings(r: IntegratedResponse)
    requires Validate(r) == Valid
    ensures CheckForDuplicates(r).Some?
    ensures CheckForDuplicates(r).value == [] <==> NoRepeats(r.keyTakeaways.items) && NoRepeats(r.consolidatedRisks.items)
  {
    ValidListsAreArrays(r);
    NoDuplicatesIff(r.keyTakeaways.items);
    NoDuplicatesIff(r.consolidatedRisks.items);
  }

  lemma ValidListsAreArrays(r: IntegratedResponse)
    requires Validate(r) == Valid
    ensures r.keyTakeaways.List? && r.consolidatedRisks.List?
  {
    ValidIffNoRuleBroken(r);
    assert !Broken(r, Rules[14]) && !Broken(r, Rules[15]);
  }
}
