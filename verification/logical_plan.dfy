/** Translation of a Spark Connect relation into a logical plan
    (`to_logical_plan`, `tail`, `range`): field validation, dispatch on the
    relation type, and the context attached to every failure. */
module Translation {
  import opened Results
  import opened Errors

  newtype i64 = x: int | -0x8000_0000_0000_0000 <= x < 0x8000_0000_0000_0000
  newtype i32 = x: int | -0x8000_0000 <= x < 0x8000_0000

  /** Optional per-relation metadata; translation only logs it. */
  datatype RelationCommon = RelationCommon(sourceInfo: string, planId: Option<i64>)

  datatype Relation = Relation(common: Option<RelationCommon>, relType: Option<RelType>)

  /** The relation types the translator recognises; every other Spark Connect
      variant is represented by its name. */
  datatype RelType =
    | Range(start: Option<i64>, end: i64, step: i64, numPartitions: Option<i32>)
    | Tail(input: Option<Relation>, limit: i32)
    | OtherRelType(variant: string)

  /** The logical plans translation builds: a table scan over a
      `RangeScanOperator`, and a tail node applied to a translated input. */
  datatype Plan =
    | RangeScan(start: i64, end: i64, step: nat)
    | TailOf(input: Plan, limit: i32)

  /** Which step of building the range scan through the Python runtime failed, if any. */
  datatype ScanOutcome =
    | ImportFailed(cause: Error)     // importing `daft.io._range`
    | LookupFailed(cause: Error)     // looking up `RangeScanOperator`
    | ConstructFailed(cause: Error)  // calling `RangeScanOperator(start, end, step)`
    | HandleFailed(cause: Error)     // wrapping the Python object in a scan-operator handle
    | TableScanFailed(cause: Error)  // building the table-scan plan from the handle
    | Created

  /** Whether the `python` feature is compiled in, and how the Python runtime
      answers a range-scan request. */
  datatype Capabilities = Capabilities(pythonFeature: bool, rangeScan: (i64, i64, nat) -> ScanOutcome)

  const RangeContext := "Failed to apply range to logical plan"
  const TailContext := "Failed to apply tail to logical plan"
  const UnsupportedPrefix := "Unsupported relation type: "
  const PythonRequired := "Range operations require Python feature to be enabled"
  const StepConversionContext := "step must be a positive integer"
  const TryFromIntMessage := "out of range integral type conversion attempted"
  const StepPositive := "step must be greater than 0"
  const CreateScanContext := "Failed to create range scan"

  /** `to_logical_plan`. */
  function ToLogicalPlan(rel: Relation, caps: Capabilities): (r: Result<Plan, Error>)
    ensures r.Ok? ==> rel.relType.Some? && !rel.relType.value.OtherRelType?
    ensures r.Err? && rel.relType.Some? && rel.relType.value.Range? ==> |r.error.context| > 0 && r.error.context[0] == RangeContext
    ensures r.Err? && rel.relType.Some? && rel.relType.value.Tail? ==> |r.error.context| > 0 && r.error.context[0] == TailContext
    decreases rel
  {
    match rel.relType
    case None => Err(Error(MissingField, "Relation type is required", []))
    case Some(Range(start, end, step, numPartitions)) => WrapErr(TranslateRange(start, end, step, numPartitions, caps), RangeContext)
    case Some(Tail(input, limit)) => WrapErr(TranslateTail(input, limit, caps), TailContext)
    case Some(OtherRelType(variant)) => Err(Error(UnsupportedOperation, UnsupportedPrefix + variant, []))
  }

  /** `tail`: the input is required and is translated first; the tail node
      itself is applied without further checks. */
  function TranslateTail(input: Option<Relation>, limit: i32, caps: Capabilities): (r: Result<Plan, Error>)
    ensures input.None? ==> r.Err? && r.error.kind == MissingField
    ensures r.Ok? ==> input.Some? && ToLogicalPlan(input.value, caps).Ok?
                      && r.value == TailOf(ToLogicalPlan(input.value, caps).value, limit)
    ensures input.Some? && ToLogicalPlan(input.value, caps).Err? ==> r == Err(ToLogicalPlan(input.value, caps).error)
    decreases input
  {
    match input
    case None => Err(Error(MissingField, "Input is required", []))
    case Some(rel) =>
      var plan :- ToLogicalPlan(rel, caps);
      Ok(TailOf(plan, limit))
  }

  /** `range`: fails outright without the `python` feature; otherwise defaults
      `start` to 0, ignores `num_partitions`, and insists on a positive step
      before asking the Python runtime for the scan. */
  function TranslateRange(start: Option<i64>, end: i64, step: i64, numPartitions: Option<i32>, caps: Capabilities): (r: Result<Plan, Error>)
    ensures r.Ok? ==> caps.pythonFeature && step >= 1 && r.value == RangeScan(start.GetOr(0), end, step as nat)
    ensures caps.pythonFeature && step <= 0 ==> r.Err? && r.error.kind == InvalidArgument
  {
    if !caps.pythonFeature then Err(Error(UnsupportedOperation, PythonRequired, []))
    else
      var start := start.GetOr(0);
      if step < 0 then Err(Error(InvalidArgument, TryFromIntMessage, [StepConversionContext]))
      else if step == 0 then Err(Error(InvalidArgument, StepPositive, []))
      else WrapErr(CreateRangeScan(start, end, step as nat, caps.rangeScan(start, end, step as nat)), CreateScanContext)
  }

  /** The Python block of `range`, with the context each failing step adds. */
  function CreateRangeScan(start: i64, end: i64, step: nat, outcome: ScanOutcome): (r: Result<Plan, Error>)
    ensures r.Ok? <==> outcome.Created?
    ensures r.Ok? ==> r.value == RangeScan(start, end, step)
    ensures r.Err? ==> r.error.kind == outcome.cause.kind && r.error.message == outcome.cause.message
  {
    match outcome
    case ImportFailed(e) => Err(Wrap(e, "Failed to import range module"))
    case LookupFailed(e) => Err(Wrap(e, "Failed to get range function"))
    case ConstructFailed(e) => Err(Wrap(e, "Failed to create range scan operator"))
    case HandleFailed(e) => Err(e)
    case TableScanFailed(e) => Err(e)
    case Created => Ok(RangeScan(start, end, step))
  }

  /** The relation with every field translation ignores reset: `common`
      metadata and `num_partitions` dropped at every level, and an absent
      `start` made explicit as 0. */
  function Canonical(rel: Relation): Relation
    decreases rel
  {
    match rel.relType
    case None => Relation(None, None)
    case Some(Range(start, end, step, _)) => Relation(None, Some(Range(Some(start.GetOr(0)), end, step, None)))
    case Some(Tail(None, limit)) => Relation(None, Some(Tail(None, limit)))
    case Some(Tail(Some(input), limit)) => Relation(None, Some(Tail(Some(Canonical(input)), limit)))
    case Some(OtherRelType(variant)) => Relation(None, Some(OtherRelType(variant)))
  }

  /** A plan translation can produce: every range step is a positive `i64`. */
  predicate ValidPlan(p: Plan) {
    match p
    case RangeScan(_, _, step) => 0 < step < 0x8000_0000_0000_0000
    case TailOf(input, _) => ValidPlan(input)
  }

  /** The canonical relation a plan comes from: the inverse of translation. */
  function ToRelation(p: Plan): Relation
    requires ValidPlan(p)
  {
    match p
    case RangeScan(start, end, step) => Relation(None, Some(Range(Some(start), end, step as i64, None)))
    case TailOf(input, limit) => Relation(None, Some(Tail(Some(ToRelation(input)), limit)))
  }

  /** The Python runtime builds the range scan of every leaf of `p`. */
  predicate ScansCreated(p: Plan, caps: Capabilities) {
    match p
    case RangeScan(start, end, step) => caps.rangeScan(start, end, step).Created?
    case TailOf(input, _) => ScansCreated(input, caps)
  }

  /** When translation succeeds, written independently of it: the relation
      type is present at every level, every `Tail` has an input, the chain
      ends in a `Range` with the `python` feature, a step of at least 1 and a
      scan the Python runtime creates. */
  predicate Translatable(rel: Relation, caps: Capabilities)
    decreases rel
  {
    match rel.relType
    case None => false
    case Some(Range(start, end, step, _)) =>
      caps.pythonFeature && step >= 1 && caps.rangeScan(start.GetOr(0), end, step as nat).Created?
    case Some(Tail(None, _)) => false
    case Some(Tail(Some(input), _)) => Translatable(input, caps)
    case Some(OtherRelType(_)) => false
  }

  /** The `Tail` limits from the outermost relation down, and the first
      relation that is not a `Tail` with an input. */
  function TailChain(rel: Relation): (r: (seq<i32>, Relation))
    decreases rel
  {
    match rel.relType
    case Some(Tail(Some(input), limit)) =>
      var (limits, bottom) := TailChain(input);
      ([limit] + limits, bottom)
    case _ => ([], rel)
  }

  /** Applies the tail nodes `limits` (outermost first) on top of `inner`; on
      failure, adds one tail context per level instead. */
  function ApplyTails(inner: Result<Plan, Error>, limits: seq<i32>): Result<Plan, Error>
    decreases |limits|
  {
    if |limits| == 0 then inner
    else
      match ApplyTails(inner, limits[1..])
      case Ok(p) => Ok(TailOf(p, limits[0]))
      case Err(e) => Err(Wrap(e, TailContext))
  }

  /** A relation without a relation type fails with no added context. */
  lemma MissingRelationTypeFails(rel: Relation, caps: Capabilities)
    requires rel.relType.None?
    ensures ToLogicalPlan(rel, caps) == Err(Error(MissingField, "Relation type is required", []))
  {
  }

  /** Any relation type other than Range and Tail is rejected, naming the variant. */
  lemma UnsupportedRelationTypeFails(rel: Relation, caps: Capabilities)
    requires rel.relType.Some? && rel.relType.value.OtherRelType?
    ensures var r := ToLogicalPlan(rel, caps);
            && r.Err? && r.error.kind == UnsupportedOperation && r.error.context == []
            && r.error.message == UnsupportedPrefix + rel.relType.value.variant
  {
  }

  /** A Tail without an input fails with the missing-input error wrapped in the tail context. */
  lemma TailWithoutInputFails(rel: Relation, caps: Capabilities)
    requires rel.relType.Some? && rel.relType.value.Tail? && rel.relType.value.input.None?
    ensures ToLogicalPlan(rel, caps) == Err(Error(MissingField, "Input is required", [TailContext]))
  {
    assert [TailContext] + [] == [TailContext];
  }

  /** Without the `python` feature every Range fails, before any field is examined. */
  lemma RangeRequiresPython(rel: Relation, caps: Capabilities)
    requires rel.relType.Some? && rel.relType.value.Range? && !caps.pythonFeature
    ensures ToLogicalPlan(rel, caps) == Err(Error(UnsupportedOperation, PythonRequired, [RangeContext]))
  {
    assert [RangeContext] + [] == [RangeContext];
  }

  /** With the `python` feature, a negative step fails at the conversion to
      `usize`, a zero step fails the positivity check, and only a step of at
      least 1 can succeed. */
  lemma RangeStepValidation(rel: Relation, caps: Capabilities)
    requires rel.relType.Some? && rel.relType.value.Range? && caps.pythonFeature
    ensures var step := rel.relType.value.step;
            && (step < 0 ==> ToLogicalPlan(rel, caps) == Err(Error(InvalidArgument, TryFromIntMessage, [RangeContext, StepConversionContext])))
            && (step == 0 ==> ToLogicalPlan(rel, caps) == Err(Error(InvalidArgument, StepPositive, [RangeContext])))
            && (ToLogicalPlan(rel, caps).Ok? ==> step >= 1)
  {
    assert [RangeContext] + [] == [RangeContext];
    assert [RangeContext] + [StepConversionContext] == [RangeContext, StepConversionContext];
  }

  /** Every failure of a Range or a Tail carries that operation's context outermost. */
  lemma FailuresAreWrapped(rel: Relation, caps: Capabilities)
    requires rel.relType.Some? && (rel.relType.value.Range? || rel.relType.value.Tail?)
    requires ToLogicalPlan(rel, caps).Err?
    ensures var ctx := ToLogicalPlan(rel, caps).error.context;
            |ctx| > 0 && ctx[0] == (if rel.relType.value.Range? then RangeContext else TailContext)
  {
  }

  /** A successful Range builds the scan over `[start, end)` with `start`
      defaulting to 0, whatever `num_partitions` says. */
  lemma RangeBuildsScan(rel: Relation, caps: Capabilities)
    requires rel.relType.Some? && rel.relType.value.Range?
    requires ToLogicalPlan(rel, caps).Ok?
    ensures var Range(start, end, step, _) := rel.relType.value;
            ToLogicalPlan(rel, caps).value == RangeScan(start.GetOr(0), end, step as nat)
  {
  }

  /** Translation never looks at `common` metadata or `num_partitions`, nor
      tells an absent `start` from 0, at any depth. */
  lemma {:induction false} TranslationIgnoresHints(rel: Relation, caps: Capabilities)
    ensures ToLogicalPlan(Canonical(rel), caps) == ToLogicalPlan(rel, caps)
    decreases rel
  {
    match rel.relType
    case Some(Tail(Some(input), limit)) =>
      TranslationIgnoresHints(input, caps);
    case _ =>
  }

  /** Translation succeeds exactly on the translatable relations. */
  lemma {:induction false} TranslationSucceedsIff(rel: Relation, caps: Capabilities)
    ensures ToLogicalPlan(rel, caps).Ok? <==> Translatable(rel, caps)
    decreases rel
  {
    match rel.relType
    case Some(Tail(Some(input), limit)) =>
      TranslationSucceedsIff(input, caps);
    case _ =>
  }

  /** A Tail translates its input first: the result is the bottom relation's
      translation with one tail node, or one tail context, per level; a
      failure below propagates upwards. */
  lemma {:induction false} TailTranslatesInputFirst(rel: Relation, caps: Capabilities)
    ensures var (limits, bottom) := TailChain(rel);
            ToLogicalPlan(rel, caps) == ApplyTails(ToLogicalPlan(bottom, caps), limits)
    decreases rel
  {
    match rel.relType
    case Some(Tail(Some(input), limit)) =>
      TailTranslatesInputFirst(input, caps);
      var (limits, bottom) := TailChain(input);
      assert TailChain(rel) == ([limit] + limits, bottom);
      assert ([limit] + limits)[1..] == limits;
    case _ =>
  }

  /** Translation loses nothing but what it ignores: a translated plan is
      valid and gives back the canonical form of its relation. */
  lemma {:induction false} TranslationInverse(rel: Relation, caps: Capabilities)
    requires ToLogicalPlan(rel, caps).Ok?
    ensures ValidPlan(ToLogicalPlan(rel, caps).value)
    ensures ToRelation(ToLogicalPlan(rel, caps).value) == Canonical(rel)
    decreases rel
  {
    match rel.relType
    case Some(Tail(Some(input), limit)) =>
      TranslationInverse(input, caps);
    case _ =>
  }

  /** Every valid plan is the translation of its relation, provided the
      `python` feature is on and the Python runtime creates its scans. */
  lemma {:induction false} PlanRoundTrip(p: Plan, caps: Capabilities)
    requires ValidPlan(p) && caps.pythonFeature && ScansCreated(p, caps)
    ensures ToLogicalPlan(ToRelation(p), caps) == Ok(p)
  {
    match p
    case RangeScan(_, _, _) =>
    case TailOf(input, _) =>
      PlanRoundTrip(input, caps);
  }
}
