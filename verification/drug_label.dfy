/**
 * The normalisation of an OpenFDA drug-label record into the six-field
 * summary shown on the drug card (`simplifyDrugData` in script.js).
 *
 * Every field of the summary is an `||` chain over optional-chained
 * lookups (`rawData.purpose?.[0] || rawData.indications_and_usage?.[0] || "..."`),
 * so the model is built from two pieces: `Head`, the `?.[0]` lookup of an
 * optional array, and `OrChain`, JavaScript's `||` over a list of operands
 * that ends in a constant string.
 */
module DrugLabel {
  import opened Wrappers

  /** The default for the names, the purpose and the side effects. */
  const NotAvailable: string := "Information not available"
  /** The default for the warnings. */
  const NoneListed: string := "None listed"
  /** The default for the dosage. */
  const ConsultDoctor: string := "Consult your doctor"

  /** The `openfda` sub-record of a label: `brand_name` and `generic_name`. */
  datatype OpenFda = OpenFda(brandName: Option<seq<string>>, genericName: Option<seq<string>>)

  /**
   * A label record as `fetchDrugData` hands it on: either the first entry of
   * the API's `results`, or the object `{error: message}` built when the
   * request failed. Each array-valued field may be missing. The OpenFDA keys
   * are `purpose`, `indications_and_usage`, `warnings`, `boxed_warning`,
   * `adverse_reactions` and `dosage_and_administration`.
   */
  datatype RawRecord = RawRecord(
    openfda: Option<OpenFda>,
    purpose: Option<seq<string>>,
    indicationsAndUsage: Option<seq<string>>,
    warnings: Option<seq<string>>,
    boxedWarning: Option<seq<string>>,
    adverseReactions: Option<seq<string>>,
    dosageAndAdministration: Option<seq<string>>,
    error: Option<string>)

  /** The simplified record the card is drawn from; it has no `error` field. */
  datatype Summary = Summary(
    brandName: string,
    genericName: string,
    purpose: string,
    warnings: string,
    sideEffects: string,
    dosage: string)

  /** The record built at script.js:25 when fetching fails: only `error` is set. */
  function ErrorRecord(message: string): (r: RawRecord)
    ensures r.error == Some(message)
    ensures r.openfda == None && r.purpose == None && r.indicationsAndUsage == None
    ensures r.warnings == None && r.boxedWarning == None
    ensures r.adverseReactions == None && r.dosageAndAdministration == None
  {
    RawRecord(None, None, None, None, None, None, None, Some(message))
  }

  /** The summary in which every field took its default. */
  const DefaultSummary: Summary :=
    Summary(NotAvailable, NotAvailable, NotAvailable, NoneListed, NotAvailable, ConsultDoctor)

  /** JavaScript truthiness of a string-or-undefined value: `undefined` and `""` are falsy. */
  predicate Truthy(v: Option<string>) {
    v.Some? && v.value != ""
  }

  /** `field?.[0]`: undefined when the array is missing or empty, its first element otherwise. */
  function Head(field: Option<seq<string>>): (h: Option<string>)
    ensures h.Some? <==> field.Some? && |field.value| > 0
    ensures h.Some? ==> h.value == field.value[0]
  {
    match field
    case None => None
    case Some(xs) => if |xs| == 0 then None else Some(xs[0])
  }

  /** `rawData.openfda?.brand_name?.[0]` */
  function BrandHead(raw: RawRecord): Option<string> {
    if raw.openfda.None? then None else Head(raw.openfda.value.brandName)
  }

  /** `rawData.openfda?.generic_name?.[0]` */
  function GenericHead(raw: RawRecord): Option<string> {
    if raw.openfda.None? then None else Head(raw.openfda.value.genericName)
  }

  /**
   * `operands[0] || operands[1] || ... || fallback`: the first truthy operand,
   * or the fallback when every operand is falsy.
   */
  function OrChain(operands: seq<Option<string>>, fallback: string): (r: string)
    ensures r == fallback || exists i :: 0 <= i < |operands| && Truthy(operands[i]) && operands[i].value == r
    ensures fallback != "" ==> r != ""
    decreases |operands|
  {
    if operands == [] then fallback
    else if Truthy(operands[0]) then operands[0].value
    else
      var r := OrChain(operands[1..], fallback);
      assert r != fallback ==> exists i :: 1 <= i < |operands| && Truthy(operands[i]) && operands[i].value == r by {
        if r != fallback {
          var j :| 0 <= j < |operands[1..]| && Truthy(operands[1..][j]) && operands[1..][j].value == r;
          assert operands[j + 1] == operands[1..][j];
        }
      }
      r
  }

  /** The operator never looks past the first truthy operand. */
  lemma {:induction false} OrChainFirstTruthy(operands: seq<Option<string>>, fallback: string, k: nat)
    requires k < |operands| && Truthy(operands[k])
    requires forall j :: 0 <= j < k ==> !Truthy(operands[j])
    ensures OrChain(operands, fallback) == operands[k].value
    decreases k
  {
    if k > 0 {
      assert !Truthy(operands[0]);
      OrChainFirstTruthy(operands[1..], fallback, k - 1);
    }
  }

  /** When every operand is falsy, the chain yields its fallback. */
  lemma {:induction false} OrChainAllFalsy(operands: seq<Option<string>>, fallback: string)
    requires forall j :: 0 <= j < |operands| ==> !Truthy(operands[j])
    ensures OrChain(operands, fallback) == fallback
    decreases |operands|
  {
    if operands != [] {
      assert !Truthy(operands[0]);
      OrChainAllFalsy(operands[1..], fallback);
    }
  }

  /** Two operand lists that agree on truthiness and on their truthy values give the same result. */
  lemma {:induction false} OrChainDependsOnTruthyValues(a: seq<Option<string>>, b: seq<Option<string>>, fallback: string)
    requires |a| == |b|
    requires forall j :: 0 <= j < |a| ==> (Truthy(a[j]) <==> Truthy(b[j]))
    requires forall j :: 0 <= j < |a| && Truthy(a[j]) ==> a[j] == b[j]
    ensures OrChain(a, fallback) == OrChain(b, fallback)
    decreases |a|
  {
    if a != [] {
      assert Truthy(a[0]) <==> Truthy(b[0]);
      if !Truthy(a[0]) {
        OrChainDependsOnTruthyValues(a[1..], b[1..], fallback);
      }
    }
  }

  /** `simplifyDrugData(rawData)`: each summary field is an `||` chain ending in its default. */
  function Simplify(raw: RawRecord): (s: Summary)
    ensures s.brandName != "" && s.genericName != "" && s.purpose != ""
    ensures s.warnings != "" && s.sideEffects != "" && s.dosage != ""
  {
    Summary(
      OrChain([BrandHead(raw)], NotAvailable),
      OrChain([GenericHead(raw)], NotAvailable),
      OrChain([Head(raw.purpose), Head(raw.indicationsAndUsage)], NotAvailable),
      OrChain([Head(raw.warnings), Head(raw.boxedWarning)], NoneListed),
      OrChain([Head(raw.adverseReactions)], NotAvailable),
      OrChain([Head(raw.dosageAndAdministration)], ConsultDoctor))
  }

  /** A field whose array exists and starts with a non-empty string. */
  predicate Present(field: Option<seq<string>>) {
    field.Some? && |field.value| > 0 && field.value[0] != ""
  }

  /** `openfda.brand_name[0]` when it is there and non-empty, "Information not available" otherwise. */
  lemma BrandNameRule(raw: RawRecord)
    ensures raw.openfda.Some? && Present(raw.openfda.value.brandName) ==>
      Simplify(raw).brandName == raw.openfda.value.brandName.value[0]
    ensures !(raw.openfda.Some? && Present(raw.openfda.value.brandName)) ==>
      Simplify(raw).brandName == NotAvailable
  {
    if raw.openfda.Some? && Present(raw.openfda.value.brandName) {
      OrChainFirstTruthy([BrandHead(raw)], NotAvailable, 0);
    } else {
      OrChainAllFalsy([BrandHead(raw)], NotAvailable);
    }
  }

  /** The same rule for `openfda.generic_name[0]`. */
  lemma GenericNameRule(raw: RawRecord)
    ensures raw.openfda.Some? && Present(raw.openfda.value.genericName) ==>
      Simplify(raw).genericName == raw.openfda.value.genericName.value[0]
    ensures !(raw.openfda.Some? && Present(raw.openfda.value.genericName)) ==>
      Simplify(raw).genericName == NotAvailable
  {
    if raw.openfda.Some? && Present(raw.openfda.value.genericName) {
      OrChainFirstTruthy([GenericHead(raw)], NotAvailable, 0);
    } else {
      OrChainAllFalsy([GenericHead(raw)], NotAvailable);
    }
  }

  /** `purpose[0]` wins; `indications_and_usage[0]` is consulted only when it is missing or empty. */
  lemma PurposePrecedence(raw: RawRecord)
    ensures Present(raw.purpose) ==> Simplify(raw).purpose == raw.purpose.value[0]
    ensures !Present(raw.purpose) && Present(raw.indicationsAndUsage) ==>
      Simplify(raw).purpose == raw.indicationsAndUsage.value[0]
    ensures !Present(raw.purpose) && !Present(raw.indicationsAndUsage) ==>
      Simplify(raw).purpose == NotAvailable
  {
    var ops := [Head(raw.purpose), Head(raw.indicationsAndUsage)];
    if Present(raw.purpose) {
      OrChainFirstTruthy(ops, NotAvailable, 0);
    } else if Present(raw.indicationsAndUsage) {
      OrChainFirstTruthy(ops, NotAvailable, 1);
    } else {
      OrChainAllFalsy(ops, NotAvailable);
    }
  }

  /** `warnings[0]` wins, then `boxed_warning[0]`, then "None listed". */
  lemma WarningsPrecedence(raw: RawRecord)
    ensures Present(raw.warnings) ==> Simplify(raw).warnings == raw.warnings.value[0]
    ensures !Present(raw.warnings) && Present(raw.boxedWarning) ==>
      Simplify(raw).warnings == raw.boxedWarning.value[0]
    ensures !Present(raw.warnings) && !Present(raw.boxedWarning) ==>
      Simplify(raw).warnings == NoneListed
  {
    var ops := [Head(raw.warnings), Head(raw.boxedWarning)];
    if Present(raw.warnings) {
      OrChainFirstTruthy(ops, NoneListed, 0);
    } else if Present(raw.boxedWarning) {
      OrChainFirstTruthy(ops, NoneListed, 1);
    } else {
      OrChainAllFalsy(ops, NoneListed);
    }
  }

  /** `adverse_reactions[0]` or "Information not available"; `dosage_and_administration[0]` or "Consult your doctor". */
  lemma SideEffectsAndDosageDefaults(raw: RawRecord)
    ensures Present(raw.adverseReactions) ==> Simplify(raw).sideEffects == raw.adverseReactions.value[0]
    ensures !Present(raw.adverseReactions) ==> Simplify(raw).sideEffects == NotAvailable
    ensures Present(raw.dosageAndAdministration) ==>
      Simplify(raw).dosage == raw.dosageAndAdministration.value[0]
    ensures !Present(raw.dosageAndAdministration) ==> Simplify(raw).dosage == ConsultDoctor
  {
    var se := [Head(raw.adverseReactions)];
    var dose := [Head(raw.dosageAndAdministration)];
    if Present(raw.adverseReactions) {
      OrChainFirstTruthy(se, NotAvailable, 0);
    } else {
      OrChainAllFalsy(se, NotAvailable);
    }
    if Present(raw.dosageAndAdministration) {
      OrChainFirstTruthy(dose, ConsultDoctor, 0);
    } else {
      OrChainAllFalsy(dose, ConsultDoctor);
    }
  }

  /** Two optional arrays that are both absent-or-empty, or both start with the same element. */
  predicate SameFirst(a: Option<seq<string>>, b: Option<seq<string>>) {
    && ((a.Some? && |a.value| > 0) <==> (b.Some? && |b.value| > 0))
    && (a.Some? && |a.value| > 0 ==> a.value[0] == b.value[0])
  }

  /** Records that differ only past index 0 of their arrays (and in `error`). */
  predicate SameFirstElements(x: RawRecord, y: RawRecord) {
    && (x.openfda.Some? <==> y.openfda.Some?)
    && (x.openfda.Some? ==>
          SameFirst(x.openfda.value.brandName, y.openfda.value.brandName) &&
          SameFirst(x.openfda.value.genericName, y.openfda.value.genericName))
    && SameFirst(x.purpose, y.purpose)
    && SameFirst(x.indicationsAndUsage, y.indicationsAndUsage)
    && SameFirst(x.warnings, y.warnings)
    && SameFirst(x.boxedWarning, y.boxedWarning)
    && SameFirst(x.adverseReactions, y.adverseReactions)
    && SameFirst(x.dosageAndAdministration, y.dosageAndAdministration)
  }

  /** Only the first element of each array matters; the `error` field is ignored. */
  lemma OnlyFirstElementsMatter(x: RawRecord, y: RawRecord)
    requires SameFirstElements(x, y)
    ensures Simplify(x) == Simplify(y)
  {
    assert Head(x.purpose) == Head(y.purpose);
    assert Head(x.indicationsAndUsage) == Head(y.indicationsAndUsage);
    assert Head(x.warnings) == Head(y.warnings);
    assert Head(x.boxedWarning) == Head(y.boxedWarning);
    assert Head(x.adverseReactions) == Head(y.adverseReactions);
    assert Head(x.dosageAndAdministration) == Head(y.dosageAndAdministration);
    assert BrandHead(x) == BrandHead(y);
    assert GenericHead(x) == GenericHead(y);
  }

  /** Overwriting an element past index 0 of the `purpose` array changes nothing. */
  lemma LaterPurposeEntriesIgnored(raw: RawRecord, k: nat, v: string)
    requires raw.purpose.Some? && 0 < k < |raw.purpose.value|
    ensures Simplify(raw.(purpose := Some(raw.purpose.value[k := v]))) == Simplify(raw)
  {
    OnlyFirstElementsMatter(raw.(purpose := Some(raw.purpose.value[k := v])), raw);
  }

  /** An empty first `purpose` entry falls through exactly as a missing `purpose` array does. */
  lemma EmptyPurposeLikeMissing(raw: RawRecord, rest: seq<string>)
    ensures Simplify(raw.(purpose := Some([""] + rest))) == Simplify(raw.(purpose := None))
  {
    var x, y := raw.(purpose := Some([""] + rest)), raw.(purpose := None);
    OrChainDependsOnTruthyValues(
      [Head(x.purpose), Head(x.indicationsAndUsage)],
      [Head(y.purpose), Head(y.indicationsAndUsage)],
      NotAvailable);
  }

  /** A record with no present field normalises to the all-defaults summary. */
  lemma NothingPresentGivesDefaults(raw: RawRecord)
    requires raw.openfda.None? || (!Present(raw.openfda.value.brandName) && !Present(raw.openfda.value.genericName))
    requires !Present(raw.purpose) && !Present(raw.indicationsAndUsage)
    requires !Present(raw.warnings) && !Present(raw.boxedWarning)
    requires !Present(raw.adverseReactions) && !Present(raw.dosageAndAdministration)
    ensures Simplify(raw) == DefaultSummary
  {
    BrandNameRule(raw);
    GenericNameRule(raw);
    PurposePrecedence(raw);
    WarningsPrecedence(raw);
    SideEffectsAndDosageDefaults(raw);
  }

  /** The `{error: message}` record of a failed fetch normalises to the defaults; the message is lost. */
  lemma ErrorRecordDiscarded(message: string)
    ensures Simplify(ErrorRecord(message)) == DefaultSummary
  {
    NothingPresentGivesDefaults(ErrorRecord(message));
  }
}
