/**
 `DocumentForm`: the choice list of document types and `update_fields`,
 which first makes all 22 detail fields optional and then makes required
 the fields of the section that belongs to the chosen type.
 */
module DocumentForms {
  import opened Digits

  /** The 22 detail fields, in declaration order. */
  datatype Field =
    | SerialNumber | StartDate | EndDate
    | InsurancePolicyNumber | InsuranceCompanyName | PolicyStartDate | PolicyExpiryDate | PolicyCoverageAmount
    | EmissionCertificateNumber | EmissionStartDate | EmissionEndDate
    | PermitNumber | IssuingAuthority | PermitStartDate | PermitEndDate
    | FitnessCertificateNumber | FitnessIssuingAuthority | FitnessStartDate | FitnessEndDate
    | RoadTaxReceiptNumber | RoadTaxAmount | RoadTaxPaymentDate

  /**
   A field's validator list: `[Optional()]`, `[DataRequired()]`, or
   `[DataRequired(), Regexp(r'^\d{16}$')]`.
   */
  datatype Validator = Optional | Required | Required16Digits

  /** The `document_type` select's choices. */
  const DOCUMENT_TYPE_CHOICES: seq<string> :=
    ["Insurance", "Emission Certificate", "Permit", "Fitness Certificate", "Road Tax"]

  /** The arms of the `if`/`elif` chain in `update_fields`. */
  datatype Branch = InsuranceBranch | EmissionBranch | PermitBranch | FitnessBranch | RoadTaxBranch | Fallback

  /** Which arm a document type takes. */
  function BranchOf(documentType: string): Branch
  {
    if documentType == "Insurance" then InsuranceBranch
    else if documentType == "Emission Certificate" then EmissionBranch
    else if documentType == "Permit" then PermitBranch
    else if documentType == "Fitness Certificate" then FitnessBranch
    else if documentType == "Road Tax" then RoadTaxBranch
    else Fallback
  }

  /**
   The block of the form a field is declared in, named by the arm it belongs
   to: the insurance, emission, permit, fitness and road-tax blocks, and the
   common serial number and dates, which belong to the fallback arm.
   */
  function Section(f: Field): Branch
  {
    match f
    case SerialNumber | StartDate | EndDate => Fallback
    case InsurancePolicyNumber | InsuranceCompanyName | PolicyStartDate | PolicyExpiryDate
      | PolicyCoverageAmount => InsuranceBranch
    case EmissionCertificateNumber | EmissionStartDate | EmissionEndDate => EmissionBranch
    case PermitNumber | IssuingAuthority | PermitStartDate | PermitEndDate => PermitBranch
    case FitnessCertificateNumber | FitnessIssuingAuthority | FitnessStartDate | FitnessEndDate => FitnessBranch
    case RoadTaxReceiptNumber | RoadTaxAmount | RoadTaxPaymentDate => RoadTaxBranch
  }

  /**
   The validators a field should carry once the arm `b` has run: required
   exactly when the field is declared in that arm's block, and for the
   insurance policy number also sixteen digits; optional otherwise.
   */
  function ValidatorFor(b: Branch, f: Field): Validator
  {
    if Section(f) != b then Optional
    else if f == InsurancePolicyNumber then Required16Digits
    else Required
  }

  /** The required fields of each document type, written out. */
  lemma RequiredFieldsByType(f: Field)
    ensures ValidatorFor(BranchOf("Insurance"), f) != Optional <==>
      f in {InsurancePolicyNumber, InsuranceCompanyName, PolicyStartDate, PolicyExpiryDate, PolicyCoverageAmount}
    ensures ValidatorFor(BranchOf("Emission Certificate"), f) != Optional <==>
      f in {EmissionCertificateNumber, EmissionStartDate, EmissionEndDate}
    ensures ValidatorFor(BranchOf("Permit"), f) != Optional <==>
      f in {PermitNumber, IssuingAuthority, PermitStartDate, PermitEndDate}
    ensures ValidatorFor(BranchOf("Fitness Certificate"), f) != Optional <==>
      f in {FitnessCertificateNumber, FitnessIssuingAuthority, FitnessStartDate, FitnessEndDate}
    ensures ValidatorFor(BranchOf("Road Tax"), f) != Optional <==>
      f in {RoadTaxReceiptNumber, RoadTaxAmount, RoadTaxPaymentDate}
    ensures forall other :: other !in DOCUMENT_TYPE_CHOICES ==>
      (ValidatorFor(BranchOf(other), f) != Optional <==> f in {SerialNumber, StartDate, EndDate})
  {
    forall other | other !in DOCUMENT_TYPE_CHOICES
      ensures BranchOf(other) == Fallback
    {
      FallbackIffNotAChoice(other);
    }
  }

  /** The 16-digit rule applies to the insurance policy number of an Insurance document and nowhere else. */
  lemma SixteenDigitRuleOnlyForPolicyNumber(documentType: string, f: Field)
    ensures ValidatorFor(BranchOf(documentType), f) == Required16Digits
        <==> documentType == "Insurance" && f == InsurancePolicyNumber
  {
  }

  /**
   The five named arms are the five choices, each its own arm, so the
   fallback is taken exactly for a value outside the choice list.
   */
  lemma FallbackIffNotAChoice(documentType: string)
    ensures BranchOf(documentType) == Fallback <==> documentType !in DOCUMENT_TYPE_CHOICES
    ensures forall i, j :: 0 <= i < j < |DOCUMENT_TYPE_CHOICES| ==>
      BranchOf(DOCUMENT_TYPE_CHOICES[i]) != BranchOf(DOCUMENT_TYPE_CHOICES[j])
  {
    if documentType in DOCUMENT_TYPE_CHOICES {
      var i :| 0 <= i < |DOCUMENT_TYPE_CHOICES| && DOCUMENT_TYPE_CHOICES[i] == documentType;
      assert i == 0 || i == 1 || i == 2 || i == 3 || i == 4;
    }
  }

  /**
   What a field received: nothing (missing, empty or only blanks), a value
   that its type could not parse (a date not in `%Y-%m-%d`, a number that is
   not one), a number that parses to zero (only the two amount fields, which
   are `FloatField`s, can receive it), or any other parsed value whose
   submitted text is `text`.
   */
  datatype Input = Blank | Malformed | Zero | Given(text: string)

  /**
   One field's validators pass. `DataRequired` tests whether the parsed data
   is truthy, so it rejects a blank entry and an amount of zero alike;
   `Optional` stops the chain on a blank entry and lets any parsed value
   through, zero included.
   */
  predicate Accepts(v: Validator, input: Input)
  {
    match v
    case Optional => !input.Malformed?
    case Required => input.Given?
    case Required16Digits => input.Given? && ExactDigits(input.text, 16)
  }

  /** Every detail field passes under the validators set for `documentType`. */
  predicate DetailsAccepted(documentType: string, inputs: Field -> Input)
  {
    forall f :: Accepts(ValidatorFor(BranchOf(documentType), f), inputs(f))
  }

  /**
   The details of a submission pass exactly when nothing is malformed, every
   field of the chosen type's block is given as a non-blank, non-zero value,
   and for Insurance the policy number is sixteen digits.
   */
  lemma DetailsAcceptedIff(documentType: string, inputs: Field -> Input)
    ensures DetailsAccepted(documentType, inputs) <==>
      && (forall f :: !inputs(f).Malformed?)
      && (forall f :: Section(f) == BranchOf(documentType) ==> inputs(f).Given?)
      && (documentType == "Insurance" ==> ExactDigits(inputs(InsurancePolicyNumber).text, 16))
  {
    if documentType == "Insurance" && DetailsAccepted(documentType, inputs) {
      assert Accepts(ValidatorFor(InsuranceBranch, InsurancePolicyNumber), inputs(InsurancePolicyNumber));
    }
  }

  /**
   A zero coverage amount or road-tax amount counts as missing once the
   amount is required, and passes while the field is still optional.
   */
  lemma ZeroAmountRejected(inputs: Field -> Input)
    requires inputs(PolicyCoverageAmount) == Zero && inputs(RoadTaxAmount) == Zero
    ensures !DetailsAccepted("Insurance", inputs)
    ensures !DetailsAccepted("Road Tax", inputs)
    ensures Accepts(ValidatorFor(BranchOf("Permit"), PolicyCoverageAmount), inputs(PolicyCoverageAmount))
  {
    assert !Accepts(ValidatorFor(BranchOf("Insurance"), PolicyCoverageAmount), inputs(PolicyCoverageAmount));
    assert !Accepts(ValidatorFor(BranchOf("Road Tax"), RoadTaxAmount), inputs(RoadTaxAmount));
  }

  /**
   As written, the policy-number pattern also passes sixteen digits followed
   by a newline; the intended rule rejects that entry.
   */
  lemma PolicyNumberTrailingNewline()
    ensures RegexAccepts("1234567890123456\n", 16)
    ensures !Accepts(Required16Digits, Given("1234567890123456\n"))
    ensures Accepts(Required16Digits, Given("1234567890123456"))
  {
  }

  /** The `validators` attribute of each of the 22 detail fields. */
  datatype FieldValidators = FieldValidators(
    serialNumber: Validator, startDate: Validator, endDate: Validator,
    insurancePolicyNumber: Validator, insuranceCompanyName: Validator, policyStartDate: Validator, policyExpiryDate: Validator, policyCoverageAmount: Validator,
    emissionCertificateNumber: Validator, emissionStartDate: Validator, emissionEndDate: Validator,
    permitNumber: Validator, issuingAuthority: Validator, permitStartDate: Validator, permitEndDate: Validator,
    fitnessCertificateNumber: Validator, fitnessIssuingAuthority: Validator, fitnessStartDate: Validator, fitnessEndDate: Validator,
    roadTaxReceiptNumber: Validator, roadTaxAmount: Validator, roadTaxPaymentDate: Validator)
  {
    /** The validators attached to `f`. */
    function Get(f: Field): Validator
    {
      match f
      case SerialNumber => serialNumber
      case StartDate => startDate
      case EndDate => endDate
      case InsurancePolicyNumber => insurancePolicyNumber
      case InsuranceCompanyName => insuranceCompanyName
      case PolicyStartDate => policyStartDate
      case PolicyExpiryDate => policyExpiryDate
      case PolicyCoverageAmount => policyCoverageAmount
      case EmissionCertificateNumber => emissionCertificateNumber
      case EmissionStartDate => emissionStartDate
      case EmissionEndDate => emissionEndDate
      case PermitNumber => permitNumber
      case IssuingAuthority => issuingAuthority
      case PermitStartDate => permitStartDate
      case PermitEndDate => permitEndDate
      case FitnessCertificateNumber => fitnessCertificateNumber
      case FitnessIssuingAuthority => fitnessIssuingAuthority
      case FitnessStartDate => fitnessStartDate
      case FitnessEndDate => fitnessEndDate
      case RoadTaxReceiptNumber => roadTaxReceiptNumber
      case RoadTaxAmount => roadTaxAmount
      case RoadTaxPaymentDate => roadTaxPaymentDate
    }
  }

  /** Every field holds `[Optional()]`: the declared state, and the state after the reset. */
  const ALL_OPTIONAL: FieldValidators :=
    FieldValidators(
      Optional, Optional, Optional,
      Optional, Optional, Optional, Optional, Optional,
      Optional, Optional, Optional,
      Optional, Optional, Optional, Optional,
      Optional, Optional, Optional, Optional,
      Optional, Optional, Optional)

  /** The state each arm leaves behind, field by field. */
  function ArmState(b: Branch): FieldValidators
  {
    match b
    case InsuranceBranch =>
      ALL_OPTIONAL.(
        insurancePolicyNumber := Required16Digits,
        insuranceCompanyName := Required,
        policyStartDate := Required,
        policyExpiryDate := Required,
        policyCoverageAmount := Required)
    case EmissionBranch =>
      ALL_OPTIONAL.(
        emissionCertificateNumber := Required,
        emissionStartDate := Required,
        emissionEndDate := Required)
    case PermitBranch =>
      ALL_OPTIONAL.(
        permitNumber := Required,
        issuingAuthority := Required,
        permitStartDate := Required,
        permitEndDate := Required)
    case FitnessBranch =>
      ALL_OPTIONAL.(
        fitnessCertificateNumber := Required,
        fitnessIssuingAuthority := Required,
        fitnessStartDate := Required,
        fitnessEndDate := Required)
    case RoadTaxBranch =>
      ALL_OPTIONAL.(
        roadTaxReceiptNumber := Required,
        roadTaxAmount := Required,
        roadTaxPaymentDate := Required)
    case Fallback =>
      ALL_OPTIONAL.(
        serialNumber := Required,
        startDate := Required,
        endDate := Required)
  }

  /** The arms as written agree, field by field, with the block rule. */
  lemma ArmStateGet(b: Branch, f: Field)
    ensures ArmState(b).Get(f) == ValidatorFor(b, f)
  {
    match f
    case SerialNumber =>
    case StartDate =>
    case EndDate =>
    case InsurancePolicyNumber =>
    case InsuranceCompanyName =>
    case PolicyStartDate =>
    case PolicyExpiryDate =>
    case PolicyCoverageAmount =>
    case EmissionCertificateNumber =>
    case EmissionStartDate =>
    case EmissionEndDate =>
    case PermitNumber =>
    case IssuingAuthority =>
    case PermitStartDate =>
    case PermitEndDate =>
    case FitnessCertificateNumber =>
    case FitnessIssuingAuthority =>
    case FitnessStartDate =>
    case FitnessEndDate =>
    case RoadTaxReceiptNumber =>
    case RoadTaxAmount =>
    case RoadTaxPaymentDate =>
  }

  /** One form's detail-field validators. */
  class DocumentForm {
    var fields: FieldValidators

    /** Every detail field is declared with `[Optional()]`. */
    constructor ()
      ensures fields == ALL_OPTIONAL
    {
      fields := ALL_OPTIONAL;
    }

    /** The first half of `update_fields`: every detail field back to `[Optional()]`. */
    method ResetValidators()
      modifies this
      ensures fields == ALL_OPTIONAL
    {
      fields := fields.(serialNumber := Optional);
      fields := fields.(startDate := Optional);
      fields := fields.(endDate := Optional);
      fields := fields.(insurancePolicyNumber := Optional);
      fields := fields.(insuranceCompanyName := Optional);
      fields := fields.(policyStartDate := Optional);
      fields := fields.(policyExpiryDate := Optional);
      fields := fields.(policyCoverageAmount := Optional);
      fields := fields.(emissionCertificateNumber := Optional);
      fields := fields.(emissionStartDate := Optional);
      fields := fields.(emissionEndDate := Optional);
      fields := fields.(permitNumber := Optional);
      fields := fields.(issuingAuthority := Optional);
      fields := fields.(permitStartDate := Optional);
      fields := fields.(permitEndDate := Optional);
      fields := fields.(fitnessCertificateNumber := Optional);
      fields := fields.(fitnessIssuingAuthority := Optional);
      fields := fields.(fitnessStartDate := Optional);
      fields := fields.(fitnessEndDate := Optional);
      fields := fields.(roadTaxReceiptNumber := Optional);
      fields := fields.(roadTaxAmount := Optional);
      fields := fields.(roadTaxPaymentDate := Optional);
    }

    /**
     `update_fields`. The result depends on `documentType` alone, not on the
     state before the call: repeating a call changes nothing, and of two calls
     the later one decides.
     */
    method UpdateFields(documentType: string)
      modifies this
      ensures fields == ArmState(BranchOf(documentType))
      ensures forall f :: fields.Get(f) == ValidatorFor(BranchOf(documentType), f)
    {
      ResetValidators();

      match BranchOf(documentType) {
        case InsuranceBranch =>
          fields := fields.(serialNumber := Optional);
          fields := fields.(insurancePolicyNumber := Required16Digits);
          fields := fields.(insuranceCompanyName := Required);
          fields := fields.(policyStartDate := Required);
          fields := fields.(policyExpiryDate := Required);
          fields := fields.(policyCoverageAmount := Required);
          assert fields == ArmState(InsuranceBranch);
        case EmissionBranch =>
          fields := fields.(emissionCertificateNumber := Required);
          fields := fields.(emissionStartDate := Required);
          fields := fields.(emissionEndDate := Required);
          assert fields == ArmState(EmissionBranch);
        case PermitBranch =>
          fields := fields.(permitNumber := Required);
          fields := fields.(issuingAuthority := Required);
          fields := fields.(permitStartDate := Required);
          fields := fields.(permitEndDate := Required);
          assert fields == ArmState(PermitBranch);
        case FitnessBranch =>
          fields := fields.(fitnessCertificateNumber := Required);
          fields := fields.(fitnessIssuingAuthority := Required);
          fields := fields.(fitnessStartDate := Required);
          fields := fields.(fitnessEndDate := Required);
          assert fields == ArmState(FitnessBranch);
        case RoadTaxBranch =>
          fields := fields.(roadTaxReceiptNumber := Required);
          fields := fields.(roadTaxAmount := Required);
          fields := fields.(roadTaxPaymentDate := Required);
          assert fields == ArmState(RoadTaxBranch);
        case Fallback =>
          fields := fields.(serialNumber := Required);
          fields := fields.(startDate := Required);
          fields := fields.(endDate := Required);
          assert fields == ArmState(Fallback);
      }
      forall f
        ensures fields.Get(f) == ValidatorFor(BranchOf(documentType), f)
      {
        ArmStateGet(BranchOf(documentType), f);
      }
    }
  }

  /** Two calls in a row: the second call's type alone decides the state. */
  method UpdateTwice(form: DocumentForm, first: string, second: string)
    modifies form
    ensures form.fields == ArmState(BranchOf(second))
  {
    form.UpdateFields(first);
    form.UpdateFields(second);
  }
}
