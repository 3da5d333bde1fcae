/**
 * The plugin configuration form and its validator (`ConfigurationModelValidator`).
 * Six rules, three per mode; the rules of the mode not selected are switched off by
 * their `When` guard. Every rule is evaluated, and the failures are reported in the
 * order the rules are declared.
 */
module ConfigurationValidation {
  import opened Wrappers
  import opened Text

  /** The fields of the configuration form the validator reads (a null text is `None`). */
  datatype ConfigurationModel = ConfigurationModel(
    isTestMode: bool,
    testProjectId: Option<string>,
    testSecretKey: Option<string>,
    productionProjectId: Option<string>,
    productionSecretKey: Option<string>)

  /** A failed rule; `test` tells whether it is a rule of the test or the production fields. */
  datatype ConfigurationError =
    | ProjectIdRequired(test: bool)
    | ProjectIdShouldBeNumeric(test: bool)
    | SecretKeyRequired(test: bool)

  /** The locale resource that holds the message of each failure. */
  function ResourceName(e: ConfigurationError): (name: string)
    ensures |name| > 0
  {
    match e
    case ProjectIdRequired(true) => "Plugins.Payments.Ecommpay.Fields.TestProjectId.Required"
    case ProjectIdShouldBeNumeric(true) => "Plugins.Payments.Ecommpay.Fields.TestProjectId.ShouldBeNumeric"
    case SecretKeyRequired(true) => "Plugins.Payments.Ecommpay.Fields.TestSecretKey.Required"
    case ProjectIdRequired(false) => "Plugins.Payments.Ecommpay.Fields.ProductionProjectId.Required"
    case ProjectIdShouldBeNumeric(false) => "Plugins.Payments.Ecommpay.Fields.ProductionProjectId.ShouldBeNumeric"
    case SecretKeyRequired(false) => "Plugins.Payments.Ecommpay.Fields.ProductionSecretKey.Required"
  }

  /** FluentValidation `NotEmpty` on a string: not null, not empty and not only white space. */
  predicate NotEmpty(s: Option<string>) {
    !IsNullOrWhiteSpace(s)
  }

  /** `Must(value => int.TryParse(value, out _))`. */
  predicate IsNumeric(s: Option<string>) {
    TryParseInt32(s).Some?
  }

  /** A rule: when `active`, report `error` unless `holds`. */
  function Rule(active: bool, holds: bool, error: ConfigurationError): seq<ConfigurationError> {
    if active && !holds then [error] else []
  }

  function ActiveProjectId(m: ConfigurationModel): Option<string> {
    if m.isTestMode then m.testProjectId else m.productionProjectId
  }

  function ActiveSecretKey(m: ConfigurationModel): Option<string> {
    if m.isTestMode then m.testSecretKey else m.productionSecretKey
  }

  /**
   * `Validate(model).Errors`. Only the fields of the selected mode are examined, and the
   * model is valid exactly when the selected project id is present and numeric and the
   * selected secret key is present.
   */
  function Validate(m: ConfigurationModel): (errors: seq<ConfigurationError>)
    ensures forall i :: 0 <= i < |errors| ==> errors[i].test == m.isTestMode
    ensures |errors| == 0 <==>
              NotEmpty(ActiveProjectId(m)) && IsNumeric(ActiveProjectId(m)) && NotEmpty(ActiveSecretKey(m))
    ensures ProjectIdRequired(m.isTestMode) in errors <==> !NotEmpty(ActiveProjectId(m))
    ensures ProjectIdShouldBeNumeric(m.isTestMode) in errors <==> !IsNumeric(ActiveProjectId(m))
    ensures SecretKeyRequired(m.isTestMode) in errors <==> !NotEmpty(ActiveSecretKey(m))
  {
    Rule(m.isTestMode, NotEmpty(m.testProjectId), ProjectIdRequired(true))
    + Rule(m.isTestMode, IsNumeric(m.testProjectId), ProjectIdShouldBeNumeric(true))
    + Rule(m.isTestMode, NotEmpty(m.testSecretKey), SecretKeyRequired(true))
    + Rule(!m.isTestMode, NotEmpty(m.productionProjectId), ProjectIdRequired(false))
    + Rule(!m.isTestMode, IsNumeric(m.productionProjectId), ProjectIdShouldBeNumeric(false))
    + Rule(!m.isTestMode, NotEmpty(m.productionSecretKey), SecretKeyRequired(false))
  }

  predicate IsValid(m: ConfigurationModel) {
    |Validate(m)| == 0
  }

  /** The fields of the mode not selected never affect the outcome. */
  lemma InactiveFieldsIgnored(m: ConfigurationModel, testProjectId: Option<string>, testSecretKey: Option<string>,
                              productionProjectId: Option<string>, productionSecretKey: Option<string>)
    ensures m.isTestMode ==>
              Validate(m) == Validate(m.(productionProjectId := productionProjectId, productionSecretKey := productionSecretKey))
    ensures !m.isTestMode ==>
              Validate(m) == Validate(m.(testProjectId := testProjectId, testSecretKey := testSecretKey))
  {
  }

  // ---------------------------------------------------------------------------
  // A blank project id fails both project-id rules

  lemma {:induction false} TrimStartChars(s: string)
    ensures forall c :: c in TrimStartNumberWhite(s) ==> c in s
    decreases |s|
  {
    if |s| > 0 && IsNumberWhite(s[0]) {
      TrimStartChars(s[1..]);
    }
  }

  lemma {:induction false} TrimEndChars(s: string)
    ensures forall c :: c in TrimEndNumberWhite(s) ==> c in s
    decreases |s|
  {
    if |s| > 0 && IsNumberWhite(s[|s| - 1]) {
      TrimEndChars(s[..|s| - 1]);
    }
  }

  /** A blank text is not an integer: after trimming, nothing that is a sign or a digit is left. */
  lemma BlankNotNumeric(s: Option<string>)
    requires IsNullOrWhiteSpace(s)
    ensures !IsNumeric(s)
  {
    if s.Some? {
      TrimStartChars(s.value);
      TrimEndChars(TrimStartNumberWhite(s.value));
      var t := TrimEndNumberWhite(TrimStartNumberWhite(s.value));
      assert forall c :: c in t ==> IsWhiteSpace(c);
      if |t| > 0 {
        assert t[0] in t;
        assert t[0] != '-' && t[0] != '+' && !IsDigit(t[0]);
      }
    }
  }

  /** The rules are independent: an empty or blank project id is reported as missing and as not numeric. */
  lemma BlankProjectIdBothErrors(m: ConfigurationModel)
    requires IsNullOrWhiteSpace(ActiveProjectId(m))
    ensures ProjectIdRequired(m.isTestMode) in Validate(m)
    ensures ProjectIdShouldBeNumeric(m.isTestMode) in Validate(m)
    ensures |Validate(m)| >= 2
  {
    BlankNotNumeric(ActiveProjectId(m));
  }
}
