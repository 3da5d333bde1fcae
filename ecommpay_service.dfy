/**
 * `EcommpayService`: the payment page builders for the two payment flows, the
 * merchant-initiated refund, and the webhook that reconciles orders with the payments
 * ECommPay reports.
 *
 * The functions in this module state what each operation produces from the settings,
 * the collaborators and the current orders; the methods of `EcommpayService` build
 * the same results step by step, as the service does, and are proved to agree with
 * them.
 */
module EcommpayServices {
  import opened Wrappers
  import opened Text
  import opened Dictionaries
  import opened Json
  import opened Signer
  import opened ConfigurationValidation
  import opened PaymentFlowTypes
  import opened Decimals
  import opened Models
  import opened Orders

  // ---------------------------------------------------------------------------
  // Settings and collaborators

  /** The plugin settings the service reads. */
  datatype EcommpayPaymentSettings = EcommpayPaymentSettings(
    isTestMode: bool,
    testProjectId: Int32,
    testSecretKey: Option<string>,
    productionProjectId: Int32,
    productionSecretKey: Option<string>,
    /** The additional parameter groups to send; `None` is a null list. */
    additionalParameterSystemNames: Option<seq<string>>,
    paymentFlowType: PaymentFlowType)

  /** The customer form fields the store has switched on (`CustomerSettings`). */
  datatype CustomerSettings = CustomerSettings(
    firstNameEnabled: bool,
    lastNameEnabled: bool,
    phoneEnabled: bool,
    dateOfBirthEnabled: bool,
    countryEnabled: bool,
    stateProvinceEnabled: bool,
    cityEnabled: bool,
    streetAddressEnabled: bool,
    zipPostalCodeEnabled: bool)

  /** A customer's generic attributes; an integer attribute that is not set reads as 0. */
  datatype CustomerAttributes = CustomerAttributes(
    firstName: Option<string>,
    lastName: Option<string>,
    phone: Option<string>,
    dateOfBirth: Option<string>,
    countryId: int,
    stateProvinceId: int,
    city: Option<string>,
    streetAddress: Option<string>,
    zipPostalCode: Option<string>)

  datatype Customer = Customer(id: int, email: string, billingAddressId: Option<int>, attributes: CustomerAttributes)

  datatype Address = Address(
    countryId: Option<int>,
    stateProvinceId: Option<int>,
    city: Option<string>,
    address1: Option<string>,
    zipPostalCode: Option<string>)

  datatype Country = Country(twoLetterIsoCode: string)

  datatype StateProvince = StateProvince(name: string, abbreviation: string)

  datatype Currency = Currency(currencyCode: string)

  /** `JsonConvert.DeserializeObject<WebHookRequest>`: it throws, or gives a request that may be null. */
  datatype Deserialized = DeserializationFailed | Deserialized(request: Option<WebHookRequest>)

  /** Framework and library calls. */
  datatype Platform = Platform(
    /** `ILocalizationService.GetResourceAsync`. */
    localize: string -> string,
    /** `decimal.ToString()` in the current culture. */
    formatDecimal: real -> string,
    /** `Environment.NewLine`. */
    newLine: string,
    /** `Guid.TryParse`; `None` where it fails (a null text included). */
    parseGuid: Option<string> -> Option<Guid>,
    /** `Guid.ToString()`. */
    formatGuid: Guid -> string,
    /** `DateTime.TryParse` of the text, then `ToString("dd-MM-yyyy")`; `None` where the parse fails. */
    formatDateOfBirth: Option<string> -> Option<string>,
    deserializeWebHook: string -> Deserialized,
    /** `IUrlHelper.RouteUrl(routeName, new { orderId }, protocol)`. */
    routeUrl: (string, int) -> string,
    /** `DateTime.UtcNow` when a webhook is handled, in ticks: the clock is read once per call. */
    utcNow: int)

  /** Everything the service reads and does not change. */
  datatype Environment = Environment(
    settings: EcommpayPaymentSettings,
    customerSettings: CustomerSettings,
    primaryStoreCurrencyId: int,
    currencies: int -> Option<Currency>,
    customers: int -> Option<Customer>,
    addresses: int -> Option<Address>,
    countries: int -> Option<Country>,
    stateProvinces: int -> Option<StateProvince>,
    platform: Platform,
    signer: Primitives)

  const PaymentPageHost: string := "https://paymentpage.ecommpay.com"
  const PaymentPageUrl: string := PaymentPageHost + "/payment"
  const ContainerName: string := "ecommpay-payment-container"
  const PersonalDataSystemName: string := "customer.personaldata"
  const BillingAddressSystemName: string := "customer.billingaddress"
  const OrderDetailsRouteName: string := "OrderDetails"
  const CheckoutCompletedRouteName: string := "CheckoutCompleted"

  const NoCurrentCustomerMessage: string := "Cannot get the current customer."
  const CartEmptyMessage: string := "Cart is empty."
  const CartTotalMessage: string := "Cart total should be greater then 0."
  const SignatureFailedMessage: string :=
    "Error when generating the signature. Check to the secret key is valid in plugin settings."
  const InvalidSignatureMessage: string :=
    "Invalid signature verification. Make sure that the correct 'Secret key' is specified in the plugin settings."
  const DeserializationMessage: string :=
    "Invalid the deserialization of the 'HttpRequest.Body' to the 'WebHookRequest'."

  function CurrencyNotFoundMessage(id: int): string {
    "The primary store currency with ID: '" + IntToString(id) + "' not found."
  }

  function CustomerNotFoundMessage(id: int): string {
    "The customer with id '" + IntToString(id) + "' not found."
  }

  function RefundNotCreatedMessage(customOrderNumber: string): string {
    "Cannot create the refund for the order '" + customOrderNumber + "'. The ECommpay endpoint isn't responding."
  }

  function OrderNotFoundMessage(env: Environment, g: Guid): string {
    "The order not found by the specified payment ID '" + env.platform.formatGuid(g) + "'."
  }

  // ---------------------------------------------------------------------------
  // Configuration (ValidateAsync, GetSecretKey)

  /** The configuration form filled from the settings: the project ids as `int.ToString()`. */
  function ConfigurationModelOf(s: EcommpayPaymentSettings): ConfigurationModel {
    ConfigurationModel(
      s.isTestMode,
      Some(IntToString(s.testProjectId as int)), s.testSecretKey,
      Some(IntToString(s.productionProjectId as int)), s.productionSecretKey)
  }

  /** The localised message of each validation error, in order. */
  function Messages(platform: Platform, errors: seq<ConfigurationError>): (ms: seq<string>)
    ensures |ms| == |errors|
    ensures forall i :: 0 <= i < |errors| ==> ms[i] == platform.localize(ResourceName(errors[i]))
  {
    if |errors| == 0 then [] else [platform.localize(ResourceName(errors[0]))] + Messages(platform, errors[1..])
  }

  /** `GetSecretKey()`: the key of the selected mode. */
  function GetSecretKey(s: EcommpayPaymentSettings): Option<string> {
    if s.isTestMode then s.testSecretKey else s.productionSecretKey
  }

  /** The project id of the selected mode. */
  function SelectedProjectId(s: EcommpayPaymentSettings): Int32 {
    if s.isTestMode then s.testProjectId else s.productionProjectId
  }

  /**
   * What the validator finds on the form filled from the settings, in closed form: the
   * stored project ids are integers, so their text passes both project-id rules, and only
   * the secret-key rule of the selected mode can fail (`SettingsErrorsAreValidatorErrors`).
   */
  function SettingsErrors(s: EcommpayPaymentSettings): seq<ConfigurationError> {
    if NotEmpty(GetSecretKey(s)) then [] else [SecretKeyRequired(s.isTestMode)]
  }

  /** The messages `ValidateAsync` returns. */
  function ValidationMessages(env: Environment): seq<string> {
    Messages(env.platform, SettingsErrors(env.settings))
  }

  /** `ValidateAsync().IsValid`. */
  predicate ConfigurationValid(env: Environment) {
    NotEmpty(GetSecretKey(env.settings))
  }

  /** The closed form is exactly what the six rules of the validator report on the settings. */
  lemma SettingsErrorsAreValidatorErrors(s: EcommpayPaymentSettings)
    ensures Validate(ConfigurationModelOf(s)) == SettingsErrors(s)
  {
    Int32RoundTrip(s.testProjectId as int);
    Int32RoundTrip(s.productionProjectId as int);
    IntToStringNotBlank(s.testProjectId as int);
    IntToStringNotBlank(s.productionProjectId as int);
  }

  /**
   * The settings are valid for the validator exactly when the secret key of the selected
   * mode is present and not blank, and exactly when there is no validation message.
   */
  lemma ConfigurationValidIffValidator(env: Environment)
    ensures ConfigurationValid(env) <==> IsValid(ConfigurationModelOf(env.settings))
    ensures ConfigurationValid(env) <==> |ValidationMessages(env)| == 0
    ensures ValidationMessages(env) == Messages(env.platform, Validate(ConfigurationModelOf(env.settings)))
  {
    SettingsErrorsAreValidatorErrors(env.settings);
  }

  /** The secret key of a valid configuration. */
  function SecretKey(env: Environment): (key: string)
    requires ConfigurationValid(env)
    ensures GetSecretKey(env.settings) == Some(key) && !IsBlank(key)
  {
    GetSecretKey(env.settings).value
  }

  // ---------------------------------------------------------------------------
  // Query parameters

  /** Each name paired with the value at the same position. */
  function Zip(names: seq<string>, values: seq<string>): (e: seq<Entry>)
    requires |names| == |values|
    ensures |e| == |names|
  {
    if |names| == 0 then [] else [(names[0], values[0])] + Zip(names[1..], values[1..])
  }

  lemma {:induction false} ZipAt(names: seq<string>, values: seq<string>, i: nat)
    requires |names| == |values| && i < |names|
    ensures Zip(names, values)[i] == (names[i], values[i])
  {
    if i > 0 {
      ZipAt(names[1..], values[1..], i - 1);
    }
  }

  /** The values that are present, each under its name, in order. */
  function Present(names: seq<string>, values: seq<Option<string>>): seq<Entry>
    requires |names| == |values|
  {
    if |names| == 0 then []
    else (if values[0].Some? then [(names[0], values[0].value)] else []) + Present(names[1..], values[1..])
  }

  predicate Distinct(names: seq<string>) {
    forall i, j :: 0 <= i < j < |names| ==> names[i] != names[j]
  }

  /** No name of `a` is a name of `b`. */
  predicate Disjoint(a: seq<string>, b: seq<string>) {
    forall k :: k in a ==> k !in b
  }

  lemma DistinctTail(names: seq<string>)
    requires |names| > 0 && Distinct(names)
    ensures Distinct(names[1..]) && names[0] !in names[1..]
  {
    forall i | 0 <= i < |names[1..]| ensures names[1..][i] != names[0] {
      assert names[1..][i] == names[i + 1];
    }
  }

  lemma SingleKeys(x: Entry)
    ensures Keys([x]) == {x.0} && NoDupKeys([x])
  {
    assert [x][1..] == [];
  }

  lemma {:induction false} ZipKeys(names: seq<string>, values: seq<string>)
    requires |names| == |values|
    ensures forall k :: k in Keys(Zip(names, values)) <==> k in names
    ensures Distinct(names) ==> NoDupKeys(Zip(names, values))
  {
    if |names| > 0 {
      var head := [(names[0], values[0])];
      var tail := Zip(names[1..], values[1..]);
      ZipKeys(names[1..], values[1..]);
      SingleKeys((names[0], values[0]));
      KeysConcat(head, tail);
      assert forall k :: k in names <==> k == names[0] || k in names[1..];
      if Distinct(names) {
        DistinctTail(names);
        NoDupConcat(head, tail);
      }
    }
  }

  lemma {:induction false} PresentKeys(names: seq<string>, values: seq<Option<string>>)
    requires |names| == |values|
    ensures forall k :: k in Keys(Present(names, values)) ==> k in names
    ensures Distinct(names) ==> NoDupKeys(Present(names, values))
  {
    if |names| > 0 {
      var head := if values[0].Some? then [(names[0], values[0].value)] else [];
      var tail := Present(names[1..], values[1..]);
      PresentKeys(names[1..], values[1..]);
      if values[0].Some? {
        SingleKeys((names[0], values[0].value));
      }
      KeysConcat(head, tail);
      assert forall k :: k in names <==> k == names[0] || k in names[1..];
      if Distinct(names) {
        DistinctTail(names);
        NoDupConcat(head, tail);
      }
    }
  }

  /** The next entry of a dictionary is fresh in what comes before it. */
  lemma NextFresh(a: seq<Entry>, x: Entry, b: seq<Entry>)
    requires NoDupKeys(a + ([x] + b))
    ensures x.0 !in Keys(a) && NoDupKeys(a + [x])
  {
    var e := a + ([x] + b);
    PrefixFresh(e, |a|);
    assert e[..|a|] == a && e[|a|] == x;
    assert e == (a + [x]) + b;
    PrefixNoDup(a + [x], b);
  }

  // The names each part of a payment page query uses.
  const CommonNames: seq<string> := ["payment_currency", "project_id", "card_operation_type"]
  const IframeNames: seq<string> :=
    ["customer_id", "customer_account_number", "payment_id", "payment_amount", "target_element"]
  const NewBrowserTabNames: seq<string> :=
    ["customer_id", "customer_account_number", "payment_id", "payment_amount", "redirect",
     "merchant_success_url", "merchant_fail_url", "merchant_return_url"]
  const PersonalDataNames: seq<string> :=
    ["customer_email", "customer_first_name", "customer_last_name", "customer_phone", "customer_day_of_birth",
     "customer_country", "customer_state", "customer_city", "customer_address", "customer_zip"]
  const BillingAddressNames: seq<string> :=
    ["billing_country", "billing_region_code", "billing_city", "billing_address", "billing_postal"]

  /** Within each part the names are different. */
  lemma NamesDistinct()
    ensures Distinct(CommonNames) && Distinct(IframeNames) && Distinct(NewBrowserTabNames)
    ensures Distinct(PersonalDataNames) && Distinct(BillingAddressNames)
  {
  }

  /** The common and the additional parameters share no name, and none is `signature`. */
  lemma GroupNamesDisjoint()
    ensures Disjoint(PersonalDataNames, BillingAddressNames)
    ensures Disjoint(PersonalDataNames, CommonNames) && Disjoint(BillingAddressNames, CommonNames)
    ensures SignatureKey !in CommonNames && SignatureKey !in PersonalDataNames && SignatureKey !in BillingAddressNames
  {
  }

  /** The iframe parameters are named apart from the common and the additional ones, and from `signature`. */
  lemma IframeNamesDisjoint()
    ensures Disjoint(CommonNames, IframeNames)
    ensures Disjoint(PersonalDataNames, IframeNames) && Disjoint(BillingAddressNames, IframeNames)
    ensures SignatureKey !in IframeNames
  {
  }

  /** The new-tab parameters are named apart from the common and the additional ones, and from `signature`. */
  lemma NewBrowserTabNamesDisjoint()
    ensures Disjoint(CommonNames, NewBrowserTabNames)
    ensures Disjoint(PersonalDataNames, NewBrowserTabNames) && Disjoint(BillingAddressNames, NewBrowserTabNames)
    ensures SignatureKey !in NewBrowserTabNames
  {
    PersonalDataApartFromNewBrowserTab();
  }

  lemma PersonalDataApartFromNewBrowserTab()
    ensures Disjoint(PersonalDataNames, NewBrowserTabNames)
  {
  }

  // ---------------------------------------------------------------------------
  // Common query preparation (PrepareCommonQueryAsync)

  function CurrencyErrors(env: Environment): seq<string> {
    if env.currencies(env.primaryStoreCurrencyId).None? then [CurrencyNotFoundMessage(env.primaryStoreCurrencyId)] else []
  }

  /** The errors met before anything is sent: invalid settings, then a missing store currency. */
  function SetupErrors(env: Environment): seq<string> {
    ValidationMessages(env) + CurrencyErrors(env)
  }

  /** Nothing is sent unless the settings are valid and the store currency exists. */
  predicate Ready(env: Environment) {
    ConfigurationValid(env) && env.currencies(env.primaryStoreCurrencyId).Some?
  }

  /** The setup errors are empty exactly when nothing stops the call, and list every validation message. */
  lemma SetupErrorsIff(env: Environment)
    ensures Ready(env) <==> |SetupErrors(env)| == 0
    ensures SetupErrors(env)[..|ValidationMessages(env)|] == ValidationMessages(env)
    ensures !ConfigurationValid(env) ==> |SetupErrors(env)| >= |ValidationMessages(env)| > 0
  {
  }

  function StoreCurrency(env: Environment): Currency
    requires Ready(env)
  {
    env.currencies(env.primaryStoreCurrencyId).value
  }

  /** The values of the common parameters: currency, project, operation type. */
  function CommonValues(env: Environment): seq<string>
    requires Ready(env)
  {
    [StoreCurrency(env).currencyCode, IntToString(SelectedProjectId(env.settings) as int), "sale"]
  }

  function CommonQuery(env: Environment): seq<Entry>
    requires Ready(env)
  {
    Zip(CommonNames, CommonValues(env))
  }

  // ---------------------------------------------------------------------------
  // Additional parameters (PrepareAdditionalParametersAsync)

  /** A text attribute, sent when its field is enabled and the text is not blank. */
  function NonBlank(enabled: bool, value: Option<string>): Option<string> {
    if enabled && !IsNullOrWhiteSpace(value) then value else None
  }

  /** The values of the `customer.personaldata` group, one per name of `PersonalDataNames`. */
  function PersonalDataValues(env: Environment, c: Customer): (values: seq<Option<string>>)
    ensures |values| == |PersonalDataNames|
  {
    var cs := env.customerSettings;
    var a := c.attributes;
    var birth := env.platform.formatDateOfBirth(a.dateOfBirth);
    var country := env.countries(a.countryId);
    var state := env.stateProvinces(a.stateProvinceId);
    [Some(c.email),
     NonBlank(cs.firstNameEnabled, a.firstName),
     NonBlank(cs.lastNameEnabled, a.lastName),
     NonBlank(cs.phoneEnabled, a.phone),
     if cs.dateOfBirthEnabled then birth else None,
     if cs.countryEnabled && country.Some? then Some(country.value.twoLetterIsoCode) else None,
     if cs.stateProvinceEnabled && state.Some? then Some(state.value.name) else None,
     NonBlank(cs.cityEnabled, a.city),
     NonBlank(cs.streetAddressEnabled, a.streetAddress),
     NonBlank(cs.zipPostalCodeEnabled, a.zipPostalCode)]
  }

  /** The values of the `customer.billingaddress` group, one per name of `BillingAddressNames`. */
  function BillingAddressValues(env: Environment, a: Address): (values: seq<Option<string>>)
    ensures |values| == |BillingAddressNames|
  {
    var country := if a.countryId.Some? then env.countries(a.countryId.value) else None;
    var state := if a.stateProvinceId.Some? then env.stateProvinces(a.stateProvinceId.value) else None;
    [if country.Some? then Some(country.value.twoLetterIsoCode) else None,
     if state.Some? then Some(state.value.abbreviation) else None,
     NonBlank(true, a.city),
     NonBlank(true, a.address1),
     NonBlank(true, a.zipPostalCode)]
  }

  function PersonalDataParameters(env: Environment, c: Customer): seq<Entry> {
    Present(PersonalDataNames, PersonalDataValues(env, c))
  }

  /** Nothing without a billing address. */
  function BillingAddressParameters(env: Environment, address: Option<Address>): seq<Entry> {
    if address.None? then [] else Present(BillingAddressNames, BillingAddressValues(env, address.value))
  }

  function ParameterGroup(env: Environment, name: string, c: Customer, address: Option<Address>): seq<Entry> {
    if name == PersonalDataSystemName then PersonalDataParameters(env, c)
    else if name == BillingAddressSystemName then BillingAddressParameters(env, address)
    else []
  }

  function ParameterGroups(env: Environment, names: seq<string>, c: Customer, address: Option<Address>): seq<Entry> {
    if |names| == 0 then [] else ParameterGroup(env, names[0], c, address) + ParameterGroups(env, names[1..], c, address)
  }

  lemma ParameterGroupsStep(env: Environment, names: seq<string>, i: nat, c: Customer, address: Option<Address>)
    requires i < |names|
    ensures ParameterGroups(env, names[i..], c, address)
            == ParameterGroup(env, names[i], c, address) + ParameterGroups(env, names[i + 1..], c, address)
  {
    assert names[i..][1..] == names[i + 1..];
  }

  /** The parameters of the groups named in the settings, in the order they are named. */
  function AdditionalParameters(env: Environment, c: Customer, address: Option<Address>): seq<Entry> {
    match env.settings.additionalParameterSystemNames
    case None => []
    case Some(names) => if |names| == 0 then [] else ParameterGroups(env, names, c, address)
  }

  /** Each group sends every parameter at most once, under one of its own names. */
  lemma GroupKeys(env: Environment, c: Customer, address: Option<Address>)
    ensures NoDupKeys(PersonalDataParameters(env, c))
    ensures forall k :: k in Keys(PersonalDataParameters(env, c)) ==> k in PersonalDataNames
    ensures NoDupKeys(BillingAddressParameters(env, address))
    ensures forall k :: k in Keys(BillingAddressParameters(env, address)) ==> k in BillingAddressNames
  {
    NamesDistinct();
    PresentKeys(PersonalDataNames, PersonalDataValues(env, c));
    if address.Some? {
      PresentKeys(BillingAddressNames, BillingAddressValues(env, address.value));
    }
  }

  /** `x` occurs at most once in `names`. */
  predicate AtMostOnce(names: seq<string>, x: string) {
    forall i, j :: 0 <= i < j < |names| && names[i] == x ==> names[j] != x
  }

  lemma AtMostOnceTail(names: seq<string>, x: string)
    requires |names| > 0 && AtMostOnce(names, x)
    ensures AtMostOnce(names[1..], x)
    ensures names[0] == x ==> x !in names[1..]
  {
    var rest := names[1..];
    forall i, j | 0 <= i < j < |rest| && rest[i] == x ensures rest[j] != x {
      assert rest[i] == names[i + 1] && rest[j] == names[j + 1];
    }
    forall i | 0 <= i < |rest| && names[0] == x ensures rest[i] != x {
      assert rest[i] == names[i + 1];
    }
  }

  /** The names the groups in `names` may send. */
  predicate GroupName(names: seq<string>, k: string) {
    (PersonalDataSystemName in names && k in PersonalDataNames)
    || (BillingAddressSystemName in names && k in BillingAddressNames)
  }

  /** Whatever groups are named, only their names are sent; naming each group at most once sends each name at most once. */
  lemma {:induction false} ParameterGroupsKeys(env: Environment, names: seq<string>, c: Customer, address: Option<Address>)
    ensures forall k :: k in Keys(ParameterGroups(env, names, c, address)) ==> GroupName(names, k)
    ensures AtMostOnce(names, PersonalDataSystemName) && AtMostOnce(names, BillingAddressSystemName) ==>
              NoDupKeys(ParameterGroups(env, names, c, address))
  {
    if |names| > 0 {
      var rest := names[1..];
      var head := ParameterGroup(env, names[0], c, address);
      var tail := ParameterGroups(env, rest, c, address);
      ParameterGroupsKeys(env, rest, c, address);
      GroupKeys(env, c, address);
      KeysConcat(head, tail);
      assert forall x :: x in names <==> x == names[0] || x in rest;
      if AtMostOnce(names, PersonalDataSystemName) && AtMostOnce(names, BillingAddressSystemName) {
        AtMostOnceTail(names, PersonalDataSystemName);
        AtMostOnceTail(names, BillingAddressSystemName);
        GroupNamesDisjoint();
        forall k | k in Keys(head) ensures k !in Keys(tail) {
        }
        NoDupConcat(head, tail);
      }
    }
  }

  /**
   * The additional parameters use only the personal-data and billing-address names, and
   * naming each group at most once is enough for them to be added without a duplicate
   * name (`Dictionary.Add` would throw on one).
   */
  lemma AdditionalParametersKeys(env: Environment, c: Customer, address: Option<Address>)
    ensures forall k :: k in Keys(AdditionalParameters(env, c, address)) ==> k in PersonalDataNames || k in BillingAddressNames
    ensures env.settings.additionalParameterSystemNames.Some? ==>
              AtMostOnce(env.settings.additionalParameterSystemNames.value, PersonalDataSystemName)
              && AtMostOnce(env.settings.additionalParameterSystemNames.value, BillingAddressSystemName)
              ==> NoDupKeys(AdditionalParameters(env, c, address))
    ensures env.settings.additionalParameterSystemNames.None? ==> AdditionalParameters(env, c, address) == []
  {
    if env.settings.additionalParameterSystemNames.Some? {
      ParameterGroupsKeys(env, env.settings.additionalParameterSystemNames.value, c, address);
    }
  }

  /**
   * Naming at most once is needed: settings that name `customer.personaldata` twice send
   * `customer_email` twice, and the second `Query.Add` throws.
   */
  lemma PersonalDataTwiceDuplicates(env: Environment, c: Customer, address: Option<Address>)
    requires env.settings.additionalParameterSystemNames == Some([PersonalDataSystemName, PersonalDataSystemName])
    ensures !NoDupKeys(AdditionalParameters(env, c, address))
  {
    var p := PersonalDataParameters(env, c);
    var names := [PersonalDataSystemName, PersonalDataSystemName];
    assert p == [("customer_email", c.email)] + Present(PersonalDataNames[1..], PersonalDataValues(env, c)[1..]);
    assert names[1..] == [PersonalDataSystemName] && names[1..][1..] == [];
    assert ParameterGroups(env, names[1..][1..], c, address) == [];
    assert ParameterGroups(env, names[1..], c, address) == p + [];
    assert ParameterGroups(env, names, c, address) == p + (p + []);
    var q := AdditionalParameters(env, c, address);
    assert q[0] == p[0] && q[|p|] == p[0];
  }

  // ---------------------------------------------------------------------------
  // Signature (PrepareSignature)

  /** The query with `signature` appended: the signature of every parameter before it. */
  function Signed(env: Environment, q: seq<Entry>): seq<Entry>
    requires ConfigurationValid(env)
  {
    q + [(SignatureKey, GenerateSignature(env.signer, SecretKey(env), q))]
  }

  /** A signed query is accepted by the validator under the same key, and stays a dictionary. */
  lemma SignedQueryChecks(env: Environment, q: seq<Entry>)
    requires ConfigurationValid(env)
    requires NoDupKeys(q) && SignatureKey !in Keys(q)
    ensures CheckSignature(env.signer, SecretKey(env), Signed(env, q))
    ensures NoDupKeys(Signed(env, q))
  {
    SignedParametersValidate(env.signer, SecretKey(env), q);
    PutAbsent(q, SignatureKey, GenerateSignature(env.signer, SecretKey(env), q));
    PutNoDup(q, SignatureKey, GenerateSignature(env.signer, SecretKey(env), q));
  }

  /** The entries at the positions of a dictionary are what it looks up. */
  lemma LookupAt(e: seq<Entry>, i: nat)
    requires NoDupKeys(e) && i < |e|
    ensures Lookup(e, e[i].0) == Some(e[i].1)
  {
    if i > 0 {
      assert e[1..][i - 1] == e[i];
      LookupAt(e[1..], i - 1);
    }
  }

  /**
   * The common parameters, then the parameters of one flow (named by `names`), then the
   * additional parameters: each name once, and no `signature`.
   */
  lemma UnsignedQueryDistinct(cv: seq<string>, names: seq<string>, values: seq<string>, extra: seq<Entry>)
    requires |cv| == |CommonNames| && |names| == |values|
    requires Distinct(names) && Disjoint(CommonNames, names)
    requires Disjoint(PersonalDataNames, names) && Disjoint(BillingAddressNames, names) && SignatureKey !in names
    requires NoDupKeys(extra)
    requires forall k :: k in Keys(extra) ==> k in PersonalDataNames || k in BillingAddressNames
    ensures NoDupKeys(Zip(CommonNames, cv) + Zip(names, values) + extra)
    ensures SignatureKey !in Keys(Zip(CommonNames, cv) + Zip(names, values) + extra)
  {
    NamesDistinct();
    GroupNamesDisjoint();
    var common := Zip(CommonNames, cv);
    var own := Zip(names, values);
    ZipKeys(CommonNames, cv);
    ZipKeys(names, values);
    KeysConcat(common, own);
    NoDupConcat(common, own);
    KeysConcat(common + own, extra);
    NoDupConcat(common + own, extra);
  }

  // ---------------------------------------------------------------------------
  // Iframe payment page (CreateIframePaymentPageModelAsync)

  /** The checkout state the iframe page is built from. */
  datatype CheckoutContext = CheckoutContext(
    /** The GUID `GenerateOrderGuid` chose for the order about to be placed. */
    orderGuid: Guid,
    customer: Option<Customer>,
    /** The number of items in the cart; `None` for a null cart. */
    cart: Option<nat>,
    /** The cart total the totals service computes. */
    cartTotal: Option<real>)

  function IframeErrors(env: Environment, ctx: CheckoutContext): seq<string> {
    var errors := SetupErrors(env) + (if ctx.customer.None? then [NoCurrentCustomerMessage] else []);
    if |errors| > 0 then errors
    else if ctx.cart.None? || ctx.cart.value == 0 then [CartEmptyMessage]
    else if ctx.cartTotal.None? || ctx.cartTotal.value == 0.0 then [CartTotalMessage]
    else []
  }

  predicate IframeReady(env: Environment, ctx: CheckoutContext) {
    Ready(env) && ctx.customer.Some? && ctx.cart.Some? && ctx.cart.value != 0
    && ctx.cartTotal.Some? && ctx.cartTotal.value != 0.0
  }

  /** `GetCustomerBillingAddressAsync`. */
  function BillingAddressOf(env: Environment, c: Customer): Option<Address> {
    if c.billingAddressId.Some? then env.addresses(c.billingAddressId.value) else None
  }

  /** The values of the iframe parameters, one per name of `IframeNames`. */
  function IframeValues(env: Environment, ctx: CheckoutContext): seq<string>
    requires IframeReady(env, ctx)
  {
    var c := ctx.customer.value;
    [IntToString(c.id), c.email, env.platform.formatGuid(ctx.orderGuid),
     IntToString(ToMinorUnits(ctx.cartTotal.value)), ContainerName]
  }

  function IframeAdditionalParameters(env: Environment, ctx: CheckoutContext): seq<Entry>
    requires ctx.customer.Some?
  {
    AdditionalParameters(env, ctx.customer.value, BillingAddressOf(env, ctx.customer.value))
  }

  /** The iframe page query before it is signed. */
  function IframeUnsignedQuery(env: Environment, ctx: CheckoutContext): seq<Entry>
    requires IframeReady(env, ctx)
  {
    CommonQuery(env) + Zip(IframeNames, IframeValues(env, ctx)) + IframeAdditionalParameters(env, ctx)
  }

  /** The query of the iframe page: empty, the common parameters only, or the whole signed query. */
  function IframeQuery(env: Environment, ctx: CheckoutContext): seq<Entry> {
    if !Ready(env) then []
    else if !IframeReady(env, ctx) then CommonQuery(env)
    else Signed(env, IframeUnsignedQuery(env, ctx))
  }

  /** The throws the iframe builder does not catch: an amount outside `int`, a duplicate parameter name. */
  predicate IframeBuildable(env: Environment, ctx: CheckoutContext) {
    IframeReady(env, ctx) ==> FitsInt32(ctx.cartTotal.value * 100.0) && NoDupKeys(IframeAdditionalParameters(env, ctx))
  }

  /** The iframe page is ready exactly when it is built without an error. */
  lemma IframeErrorsIff(env: Environment, ctx: CheckoutContext)
    ensures IframeReady(env, ctx) <==> |IframeErrors(env, ctx)| == 0
    ensures Ready(env) && ctx.customer.None? ==> IframeErrors(env, ctx) == [NoCurrentCustomerMessage]
    ensures Ready(env) && ctx.customer.Some? && (ctx.cart.None? || ctx.cart == Some(0)) ==>
              IframeErrors(env, ctx) == [CartEmptyMessage]
    ensures !Ready(env) ==> SetupErrors(env) <= IframeErrors(env, ctx)
  {
  }

  /** The unsigned iframe query holds each name once, and no `signature`. */
  lemma IframeUnsignedDistinct(env: Environment, ctx: CheckoutContext)
    requires IframeReady(env, ctx) && IframeBuildable(env, ctx)
    ensures NoDupKeys(IframeUnsignedQuery(env, ctx)) && SignatureKey !in Keys(IframeUnsignedQuery(env, ctx))
  {
    var c := ctx.customer.value;
    NamesDistinct();
    IframeNamesDisjoint();
    AdditionalParametersKeys(env, c, BillingAddressOf(env, c));
    UnsignedQueryDistinct(CommonValues(env), IframeNames, IframeValues(env, ctx), IframeAdditionalParameters(env, ctx));
  }

  /**
   * A successful iframe page: the query holds each name once, its last entry is the
   * `signature` of every entry before it, the amount is the cart total in minor units
   * (truncated), and the project id is the one of the selected mode.
   */
  lemma IframeQuerySigned(env: Environment, ctx: CheckoutContext)
    requires IframeReady(env, ctx) && IframeBuildable(env, ctx)
    ensures ConfigurationValid(env)
    ensures var q := IframeQuery(env, ctx);
            && NoDupKeys(q)
            && CheckSignature(env.signer, SecretKey(env), q)
            && q[|q| - 1] == (SignatureKey, GenerateSignature(env.signer, SecretKey(env), q[..|q| - 1]))
            && Lookup(q, "payment_amount") == Some(IntToString(ToMinorUnits(ctx.cartTotal.value)))
            && Lookup(q, "project_id") == Some(IntToString(SelectedProjectId(env.settings) as int))
  {
    var u := IframeUnsignedQuery(env, ctx);
    IframeUnsignedDistinct(env, ctx);
    SignedQueryChecks(env, u);
    var q := Signed(env, u);
    var own := Zip(IframeNames, IframeValues(env, ctx));
    assert q[..|q| - 1] == u;
    ZipAt(IframeNames, IframeValues(env, ctx), 3);
    ZipAt(CommonNames, CommonValues(env), 1);
    assert q[6] == own[3] == ("payment_amount", IntToString(ToMinorUnits(ctx.cartTotal.value)));
    assert q[1] == CommonQuery(env)[1] == ("project_id", IntToString(SelectedProjectId(env.settings) as int));
    LookupAt(q, 6);
    LookupAt(q, 1);
  }

  /** A page that fails is never signed: it carries the common parameters at most. */
  lemma IframeQueryUnsignedOnError(env: Environment, ctx: CheckoutContext)
    requires !IframeReady(env, ctx)
    ensures IframeQuery(env, ctx) == [] || IframeQuery(env, ctx) == CommonQuery(env)
    ensures SignatureKey !in Keys(IframeQuery(env, ctx))
  {
    if Ready(env) {
      ZipKeys(CommonNames, CommonValues(env));
      GroupNamesDisjoint();
    }
  }

  // ---------------------------------------------------------------------------
  // New browser tab payment page (CreateNewBrowserTabPaymentPageModelAsync)

  function NewBrowserTabErrors(env: Environment, order: Order): seq<string> {
    SetupErrors(env)
    + (if env.customers(order.customerId).None? then [CustomerNotFoundMessage(order.customerId)] else [])
  }

  predicate NewBrowserTabReady(env: Environment, order: Order) {
    Ready(env) && env.customers(order.customerId).Some?
  }

  /** The values of the new-tab parameters, one per name of `NewBrowserTabNames`. */
  function NewBrowserTabValues(env: Environment, order: Order): seq<string>
    requires NewBrowserTabReady(env, order)
  {
    var c := env.customers(order.customerId).value;
    var callbackUrl := env.platform.routeUrl(OrderDetailsRouteName, order.id);
    var successfulUrl := env.platform.routeUrl(CheckoutCompletedRouteName, order.id);
    [IntToString(c.id), c.email, env.platform.formatGuid(order.orderGuid),
     IntToString(ToMinorUnits(order.orderTotal)), "1", successfulUrl, callbackUrl, callbackUrl]
  }

  function NewBrowserTabAdditionalParameters(env: Environment, order: Order): seq<Entry>
    requires env.customers(order.customerId).Some?
  {
    AdditionalParameters(env, env.customers(order.customerId).value, env.addresses(order.billingAddressId))
  }

  function NewBrowserTabUnsignedQuery(env: Environment, order: Order): seq<Entry>
    requires NewBrowserTabReady(env, order)
  {
    CommonQuery(env) + Zip(NewBrowserTabNames, NewBrowserTabValues(env, order))
    + NewBrowserTabAdditionalParameters(env, order)
  }

  function NewBrowserTabQuery(env: Environment, order: Order): seq<Entry> {
    if !Ready(env) then []
    else if !NewBrowserTabReady(env, order) then CommonQuery(env)
    else Signed(env, NewBrowserTabUnsignedQuery(env, order))
  }

  predicate NewBrowserTabBuildable(env: Environment, order: Order) {
    NewBrowserTabReady(env, order) ==>
      FitsInt32(order.orderTotal * 100.0) && NoDupKeys(NewBrowserTabAdditionalParameters(env, order))
  }

  /** The new-tab page is ready exactly when it is built without an error. */
  lemma NewBrowserTabErrorsIff(env: Environment, order: Order)
    ensures NewBrowserTabReady(env, order) <==> |NewBrowserTabErrors(env, order)| == 0
    ensures Ready(env) && env.customers(order.customerId).None? ==>
              NewBrowserTabErrors(env, order) == [CustomerNotFoundMessage(order.customerId)]
    ensures SetupErrors(env) <= NewBrowserTabErrors(env, order)
  {
  }

  /** The unsigned new-tab query holds each name once, and no `signature`. */
  lemma NewBrowserTabUnsignedDistinct(env: Environment, order: Order)
    requires NewBrowserTabReady(env, order) && NewBrowserTabBuildable(env, order)
    ensures NoDupKeys(NewBrowserTabUnsignedQuery(env, order)) && SignatureKey !in Keys(NewBrowserTabUnsignedQuery(env, order))
  {
    var c := env.customers(order.customerId).value;
    NamesDistinct();
    NewBrowserTabNamesDisjoint();
    AdditionalParametersKeys(env, c, env.addresses(order.billingAddressId));
    UnsignedQueryDistinct(CommonValues(env), NewBrowserTabNames, NewBrowserTabValues(env, order),
                          NewBrowserTabAdditionalParameters(env, order));
  }

  /**
   * A successful new-tab page: signed last over everything before it, `redirect` is
   * `1`, the customer fails and returns to the same order page, and the amount is the
   * order total in minor units.
   */
  lemma NewBrowserTabQuerySigned(env: Environment, order: Order)
    requires NewBrowserTabReady(env, order) && NewBrowserTabBuildable(env, order)
    ensures ConfigurationValid(env)
    ensures var q := NewBrowserTabQuery(env, order);
            && NoDupKeys(q)
            && CheckSignature(env.signer, SecretKey(env), q)
            && q[|q| - 1] == (SignatureKey, GenerateSignature(env.signer, SecretKey(env), q[..|q| - 1]))
            && Lookup(q, "redirect") == Some("1")
            && Lookup(q, "merchant_fail_url") == Lookup(q, "merchant_return_url")
            && Lookup(q, "merchant_fail_url") == Some(env.platform.routeUrl(OrderDetailsRouteName, order.id))
            && Lookup(q, "payment_amount") == Some(IntToString(ToMinorUnits(order.orderTotal)))
  {
    var u := NewBrowserTabUnsignedQuery(env, order);
    NewBrowserTabUnsignedDistinct(env, order);
    SignedQueryChecks(env, u);
    var q := Signed(env, u);
    var own := Zip(NewBrowserTabNames, NewBrowserTabValues(env, order));
    var callbackUrl := env.platform.routeUrl(OrderDetailsRouteName, order.id);
    assert q[..|q| - 1] == u;
    ZipAt(NewBrowserTabNames, NewBrowserTabValues(env, order), 3);
    ZipAt(NewBrowserTabNames, NewBrowserTabValues(env, order), 4);
    ZipAt(NewBrowserTabNames, NewBrowserTabValues(env, order), 6);
    ZipAt(NewBrowserTabNames, NewBrowserTabValues(env, order), 7);
    assert q[6] == own[3] == ("payment_amount", IntToString(ToMinorUnits(order.orderTotal)));
    assert q[7] == own[4] == ("redirect", "1");
    assert q[9] == own[6] == ("merchant_fail_url", callbackUrl);
    assert q[10] == own[7] == ("merchant_return_url", callbackUrl);
    LookupAt(q, 6);
    LookupAt(q, 7);
    LookupAt(q, 9);
    LookupAt(q, 10);
  }

  // ---------------------------------------------------------------------------
  // Refund (RefundOrderAsync)

  /** The outcome of the refund call: a response, a null response, or an `ApiException`. */
  datatype RefundReply = Replied(response: CreateRefundResponse) | NoResponse | Failed(message: string)

  /** What a call returns: its success flag and its error messages. */
  datatype Outcome = Outcome(success: bool, errors: seq<string>)

  /** The refund request before it is signed; `amount` is `None` for a full refund. */
  function RefundRequest(env: Environment, order: Order, amount: Option<real>): (r: CreateRefundRequest)
    requires Ready(env)
    requires amount.Some? ==> FitsInt32(amount.value * 100.0)
    ensures r.general.Some? && r.payment.Some?
    ensures r.general.value.projectId == SelectedProjectId(env.settings)
    ensures r.general.value.paymentId == order.captureTransactionId && r.general.value.signature.None?
    ensures r.payment.value.amount.Some? <==> amount.Some?
    ensures r.payment.value.currency.Some? <==> amount.Some?
    ensures amount.Some? ==> (r.payment.value.amount.value as int == ToMinorUnits(amount.value)
                              && r.payment.value.currency == Some(StoreCurrency(env).currencyCode))
  {
    var payment := RefundPaymentPayload(None, None, Some("Refund for the order '" + order.customOrderNumber + "'."));
    CreateRefundRequest(
      Some(RefundGeneralPayload(SelectedProjectId(env.settings), order.captureTransactionId, None)),
      Some(if amount.Some?
           then payment.(amount := Some(ToMinorUnits(amount.value) as Int32), currency := Some(StoreCurrency(env).currencyCode))
           else payment))
  }

  function RefundSignature(env: Environment, order: Order, amount: Option<real>): Option<string>
    requires Ready(env)
    requires amount.Some? ==> FitsInt32(amount.value * 100.0)
  {
    ObjectSignature(env.signer, SecretKey(env), RefundRequestJson(RefundRequest(env, order, amount)))
  }

  function SignedRefundRequest(env: Environment, order: Order, amount: Option<real>): CreateRefundRequest
    requires Ready(env)
    requires amount.Some? ==> FitsInt32(amount.value * 100.0)
    requires RefundSignature(env, order, amount).Some?
  {
    var r := RefundRequest(env, order, amount);
    r.(general := Some(r.general.value.(signature := RefundSignature(env, order, amount))))
  }

  /** `RefundOrderAsync`'s result, for an endpoint that answers each request with `respond`. */
  function RefundOrderOutcome(env: Environment, respond: CreateRefundRequest -> RefundReply, order: Order, amount: Option<real>): (r: Outcome)
    requires Ready(env) && amount.Some? ==> FitsInt32(amount.value * 100.0)
    ensures !Ready(env) ==> r == Outcome(false, SetupErrors(env))
    ensures r.success <==>
              Ready(env) && RefundSignature(env, order, amount).Some?
              && respond(SignedRefundRequest(env, order, amount)).Replied?
    ensures r.success ==> r.errors == []
  {
    if !Ready(env) then Outcome(false, SetupErrors(env))
    else if RefundSignature(env, order, amount).None? then Outcome(false, [SignatureFailedMessage])
    else match respond(SignedRefundRequest(env, order, amount))
      case Replied(_) => Outcome(true, [])
      case NoResponse => Outcome(false, [RefundNotCreatedMessage(order.customOrderNumber)])
      case Failed(message) => Outcome(false, [message])
  }

  /**
   * The null-signature branch of the refund can only be taken if the JSON library does
   * not give back the object it wrote: the serialised request always has a `general`
   * member, so it flattens.
   */
  lemma RefundSignatureExists(env: Environment, order: Order, amount: Option<real>)
    requires Ready(env)
    requires amount.Some? ==> FitsInt32(amount.value * 100.0)
    requires var j := RefundRequestJson(RefundRequest(env, order, amount));
             env.signer.parseObject(env.signer.serialize(j)) == Some(j)
    ensures RefundSignature(env, order, amount).Some?
  {
  }

  /** The refund endpoint: it records every request and answers with `respond`. */
  class EcommpayApi {
    var sent: seq<CreateRefundRequest>
    const respond: CreateRefundRequest -> RefundReply

    constructor (respond: CreateRefundRequest -> RefundReply)
      ensures sent == [] && this.respond == respond
    {
      sent := [];
      this.respond := respond;
    }

    /** `CreateRefundAsync`: POST `/v2/payment/card/refund`. */
    method CreateRefundAsync(request: CreateRefundRequest) returns (reply: RefundReply)
      modifies this
      ensures sent == old(sent) + [request]
      ensures reply == respond(request)
    {
      sent := sent + [request];
      reply := respond(request);
    }
  }

  // ---------------------------------------------------------------------------
  // Webhook (ProcessWebHookRequestAsync and its handlers)

  /** A call's outcome and what it leaves in the order store. */
  datatype Effect = Effect(outcome: Outcome, orders: map<Guid, Order>, calls: seq<StoreCall>)

  function PaymentId(r: WebHookRequest): Option<string> {
    if r.payment.Some? then r.payment.value.id else None
  }

  /** `request?.Operation?.Type`. */
  function OperationType(r: Option<WebHookRequest>): Option<string> {
    if r.Some? && r.value.operation.Some? then r.value.operation.value.operationType else None
  }

  /** `ProcessSaleOperationAsync`. */
  function SaleEffect(env: Environment, op: OrderProcessing, r: WebHookRequest, orders: map<Guid, Order>): Effect
    requires r.operation.Some?
  {
    var untouched := Effect(Outcome(true, []), orders, []);
    var g := env.platform.parseGuid(PaymentId(r));
    if r.operation.value.status != Some("success") then untouched
    else if g.None? then untouched
    else if g.value !in orders then Effect(Outcome(false, [OrderNotFoundMessage(env, g.value)]), orders, [])
    else
      var order := orders[g.value];
      if order.deleted || !op.canMarkOrderAsPaid(order) then untouched
      else
        var captured := order.(captureTransactionId := Some(env.platform.formatGuid(g.value)));
        Effect(Outcome(true, []), orders[g.value := op.markedAsPaid(captured)], [MarkOrderAsPaid(captured)])
  }

  /** The amount of a refund callback: `sum_initial` in major units. */
  function RefundAmount(sum: TransactionSum): real {
    sum.amount as real / 100.0
  }

  /** The audit note every refund callback for a known order leaves. */
  function RefundNote(env: Environment, order: Order, operation: WebHookOperationPayload, sum: TransactionSum): OrderNote {
    var nl := env.platform.newLine;
    OrderNote(
      order.id,
      "The refund reqest is processed with status '" + operation.status.GetOr("") + "'." + nl
      + "The code '" + operation.code.GetOr("") + "'." + nl
      + "The message '" + operation.message.GetOr("") + "'." + nl
      + "The amount '" + env.platform.formatDecimal(RefundAmount(sum)) + " " + sum.currency.GetOr("") + "'.",
      false,
      env.platform.utcNow)
  }

  /** `ProcessRefundOperationAsync`. */
  function RefundEffect(env: Environment, op: OrderProcessing, r: WebHookRequest, orders: map<Guid, Order>): Effect
    requires r.operation.Some?
  {
    var untouched := Effect(Outcome(true, []), orders, []);
    var operation := r.operation.value;
    var g := env.platform.parseGuid(PaymentId(r));
    if g.None? then untouched
    else if g.value !in orders then Effect(Outcome(false, [OrderNotFoundMessage(env, g.value)]), orders, [])
    else
      var order := orders[g.value];
      if order.deleted || operation.initialSum.None? then untouched
      else
        var amount := RefundAmount(operation.initialSum.value);
        var noted := [InsertOrderNote(RefundNote(env, order, operation, operation.initialSum.value))];
        if operation.status != Some("success") then Effect(Outcome(true, []), orders, noted)
        else if order.orderTotal == amount then
          if op.canRefundOffline(order)
          then Effect(Outcome(true, []), orders[g.value := op.refundedOffline(order)], noted + [RefundOffline(order)])
          else Effect(Outcome(true, []), orders, noted)
        else
          if op.canPartiallyRefundOffline(order, amount)
          then Effect(Outcome(true, []), orders[g.value := op.partiallyRefundedOffline(order, amount)],
                      noted + [PartiallyRefundOffline(order, amount)])
          else Effect(Outcome(true, []), orders, noted)
  }

  /** `ProcessWebHookRequestAsync` on the raw body of the callback. */
  function WebHookEffect(env: Environment, op: OrderProcessing, rawBody: string, orders: map<Guid, Order>): Effect {
    if !ConfigurationValid(env) then Effect(Outcome(false, ValidationMessages(env)), orders, [])
    else if !SignatureValid(env.signer, SecretKey(env), Some(rawBody)) then
      Effect(Outcome(false, [InvalidSignatureMessage]), orders, [])
    else match env.platform.deserializeWebHook(rawBody)
      case DeserializationFailed => Effect(Outcome(false, [DeserializationMessage]), orders, [])
      case Deserialized(request) =>
        var t := OperationType(request);
        if t == Some("sale") then SaleEffect(env, op, request.value, orders)
        else if t == Some("refund") then RefundEffect(env, op, request.value, orders)
        else Effect(Outcome(true, []), orders, [])
  }

  // Properties of the webhook

  /** Passing the gates: valid settings, an accepted signature, and a body that deserialises. */
  predicate Accepted(env: Environment, rawBody: string) {
    ConfigurationValid(env)
    && SignatureValid(env.signer, SecretKey(env), Some(rawBody))
    && env.platform.deserializeWebHook(rawBody).Deserialized?
  }

  /**
   * The gates of the webhook: invalid settings report the validation messages, a
   * signature that does not verify is rejected, and a call that fails leaves the orders
   * alone and always says why.
   */
  lemma WebHookGates(env: Environment, op: OrderProcessing, rawBody: string, orders: map<Guid, Order>)
    ensures var e := WebHookEffect(env, op, rawBody, orders);
            && (!ConfigurationValid(env) ==>
                  e == Effect(Outcome(false, ValidationMessages(env)), orders, []) && |ValidationMessages(env)| > 0)
            && (ConfigurationValid(env) && !SignatureValid(env.signer, SecretKey(env), Some(rawBody)) ==>
                  e == Effect(Outcome(false, [InvalidSignatureMessage]), orders, []))
            && (!e.outcome.success ==> e.orders == orders && e.calls == [] && |e.outcome.errors| > 0)
            && (e.calls != [] ==> Accepted(env, rawBody))
  {
  }

  /** An accepted callback that is neither a sale nor a refund succeeds and changes nothing. */
  lemma OtherOperationsIgnored(env: Environment, op: OrderProcessing, rawBody: string, orders: map<Guid, Order>)
    requires Accepted(env, rawBody)
    requires OperationType(env.platform.deserializeWebHook(rawBody).request) !in {Some("sale"), Some("refund")}
    ensures WebHookEffect(env, op, rawBody, orders) == Effect(Outcome(true, []), orders, [])
  {
  }

  /** The five conditions under which a sale callback marks its order as paid. */
  predicate SaleApplies(env: Environment, op: OrderProcessing, r: WebHookRequest, orders: map<Guid, Order>)
    requires r.operation.Some?
  {
    var g := env.platform.parseGuid(PaymentId(r));
    && r.operation.value.status == Some("success")
    && g.Some?
    && g.value in orders
    && !orders[g.value].deleted
    && op.canMarkOrderAsPaid(orders[g.value])
  }

  /**
   * A sale callback acts exactly when all five conditions hold: it then records the
   * GUID text as the capture transaction id and marks that order as paid; otherwise the
   * store is untouched. It fails only when the GUID names no order.
   */
  lemma SaleActsOnlyWhenApplicable(env: Environment, op: OrderProcessing, r: WebHookRequest, orders: map<Guid, Order>)
    requires r.operation.Some?
    ensures var e := SaleEffect(env, op, r, orders);
            && (e.calls != [] <==> SaleApplies(env, op, r, orders))
            && (!SaleApplies(env, op, r, orders) ==> e.orders == orders)
            && (SaleApplies(env, op, r, orders) ==>
                  var g := env.platform.parseGuid(PaymentId(r)).value;
                  var captured := orders[g].(captureTransactionId := Some(env.platform.formatGuid(g)));
                  e.calls == [MarkOrderAsPaid(captured)] && e.orders == orders[g := op.markedAsPaid(captured)])
            && (!e.outcome.success <==>
                  r.operation.value.status == Some("success")
                  && env.platform.parseGuid(PaymentId(r)).Some?
                  && env.platform.parseGuid(PaymentId(r)).value !in orders)
  {
  }

  /**
   * A sale callback delivered twice acts once: when an order marked as paid can not be
   * marked again, the second delivery leaves the store as the first left it.
   */
  lemma SaleIdempotent(env: Environment, op: OrderProcessing, r: WebHookRequest, orders: map<Guid, Order>)
    requires r.operation.Some?
    requires MarkAsPaidOnce(op)
    ensures var first := SaleEffect(env, op, r, orders);
            var second := SaleEffect(env, op, r, first.orders);
            second.orders == first.orders && second.calls == [] && second.outcome == first.outcome
  {
    var first := SaleEffect(env, op, r, orders);
    if SaleApplies(env, op, r, orders) {
      var g := env.platform.parseGuid(PaymentId(r)).value;
      var captured := orders[g].(captureTransactionId := Some(env.platform.formatGuid(g)));
      assert first.orders[g] == op.markedAsPaid(captured);
      assert !op.canMarkOrderAsPaid(op.markedAsPaid(captured));
    }
  }

  /** The same, for the whole webhook: redelivering a sale callback changes nothing more. */
  lemma WebHookSaleIdempotent(env: Environment, op: OrderProcessing, rawBody: string, orders: map<Guid, Order>)
    requires MarkAsPaidOnce(op)
    requires Accepted(env, rawBody)
    requires OperationType(env.platform.deserializeWebHook(rawBody).request) == Some("sale")
    ensures var first := WebHookEffect(env, op, rawBody, orders);
            var second := WebHookEffect(env, op, rawBody, first.orders);
            second.orders == first.orders && second.calls == [] && second.outcome == first.outcome
  {
    var request := env.platform.deserializeWebHook(rawBody).request.value;
    SaleIdempotent(env, op, request, orders);
  }

  /** The conditions under which a refund callback writes its audit note. */
  predicate RefundNoted(env: Environment, r: WebHookRequest, orders: map<Guid, Order>)
    requires r.operation.Some?
  {
    var g := env.platform.parseGuid(PaymentId(r));
    g.Some? && g.value in orders && !orders[g.value].deleted && r.operation.value.initialSum.Some?
  }

  /**
   * A refund callback for a known, live order with an amount always writes the audit
   * note first, whatever its status; only a `success` status goes on to a refund.
   */
  lemma RefundNoteAlwaysFirst(env: Environment, op: OrderProcessing, r: WebHookRequest, orders: map<Guid, Order>)
    requires r.operation.Some?
    ensures var e := RefundEffect(env, op, r, orders);
            && (RefundNoted(env, r, orders) <==> |e.calls| > 0)
            && (RefundNoted(env, r, orders) ==>
                  var g := env.platform.parseGuid(PaymentId(r)).value;
                  var sum := r.operation.value.initialSum.value;
                  e.calls[0] == InsertOrderNote(RefundNote(env, orders[g], r.operation.value, sum)))
            && (|e.calls| > 1 ==> r.operation.value.status == Some("success"))
            && (|e.calls| <= 1 ==> e.orders == orders)
  {
  }

  /**
   * The transition of a successful refund callback: a full refund when the amount
   * equals the order total exactly and the full refund is allowed, a partial refund when
   * it differs and the partial refund is allowed, and nothing (still a success) when the
   * chosen refund is not allowed.
   */
  lemma RefundTransition(env: Environment, op: OrderProcessing, r: WebHookRequest, orders: map<Guid, Order>)
    requires r.operation.Some?
    requires RefundNoted(env, r, orders) && r.operation.value.status == Some("success")
    ensures var e := RefundEffect(env, op, r, orders);
            var g := env.platform.parseGuid(PaymentId(r)).value;
            var order := orders[g];
            var amount := RefundAmount(r.operation.value.initialSum.value);
            && e.outcome == Outcome(true, [])
            && (order.orderTotal == amount && op.canRefundOffline(order) ==>
                  e.calls[1..] == [RefundOffline(order)] && e.orders == orders[g := op.refundedOffline(order)])
            && (order.orderTotal != amount && op.canPartiallyRefundOffline(order, amount) ==>
                  e.calls[1..] == [PartiallyRefundOffline(order, amount)]
                  && e.orders == orders[g := op.partiallyRefundedOffline(order, amount)])
            && ((if order.orderTotal == amount then !op.canRefundOffline(order) else !op.canPartiallyRefundOffline(order, amount))
                ==> |e.calls| == 1 && e.orders == orders)
  {
  }

  /** Refund callbacks fail only for a GUID that names no order. */
  lemma RefundFailsOnlyWhenNotFound(env: Environment, op: OrderProcessing, r: WebHookRequest, orders: map<Guid, Order>)
    requires r.operation.Some?
    ensures !RefundEffect(env, op, r, orders).outcome.success <==>
              env.platform.parseGuid(PaymentId(r)).Some? && env.platform.parseGuid(PaymentId(r)).value !in orders
  {
  }

  // ---------------------------------------------------------------------------
  // The service

  class EcommpayService {
    const env: Environment
    const store: OrderStore
    const api: EcommpayApi

    constructor (env: Environment, store: OrderStore, api: EcommpayApi)
      ensures this.env == env && this.store == store && this.api == api
    {
      this.env := env;
      this.store := store;
      this.api := api;
    }

    /** `ValidateAsync`: the validator run on the configuration form filled from the settings. */
    method ValidateAsync() returns (isValid: bool, errors: seq<string>)
      ensures isValid == ConfigurationValid(env) && errors == ValidationMessages(env)
      ensures isValid <==> |errors| == 0
    {
      var result := Validate(ConfigurationModelOf(env.settings));
      SettingsErrorsAreValidatorErrors(env.settings);
      isValid := |result| == 0;
      errors := Messages(env.platform, result);
    }

    /** `Errors.Add` of each message, in order. */
    method AddErrors(model: CreatePaymentPageModel, messages: seq<string>)
      requires model.errors.Some?
      modifies model
      ensures model.errors == Some(old(model.errors.value) + messages)
      ensures model.query == old(model.query) && model.baseUrl == old(model.baseUrl)
    {
      ghost var before := model.errors.value;
      var i := 0;
      assert before + messages[..0] == before;
      while i < |messages|
        invariant 0 <= i <= |messages|
        invariant model.errors == Some(before + messages[..i])
        invariant model.query == old(model.query) && model.baseUrl == old(model.baseUrl)
      {
        assert before + messages[..i + 1] == (before + messages[..i]) + [messages[i]];
        model.AddError(messages[i]);
        i := i + 1;
      }
      assert messages[..i] == messages;
    }

    /** `Query.Add` of each name with its value, in order. */
    method AddParameters(model: CreatePaymentPageModel, names: seq<string>, values: seq<string>)
      requires |names| == |values|
      requires model.Valid() && NoDupKeys(model.query + Zip(names, values))
      modifies model
      ensures model.query == old(model.query) + Zip(names, values)
      ensures model.errors == old(model.errors) && model.baseUrl == old(model.baseUrl) && model.Valid()
    {
      ghost var target := model.query + Zip(names, values);
      var j := 0;
      while j < |names|
        invariant 0 <= j <= |names|
        invariant model.Valid()
        invariant model.query + Zip(names[j..], values[j..]) == target
        invariant model.errors == old(model.errors) && model.baseUrl == old(model.baseUrl)
      {
        assert names[j..][1..] == names[j + 1..] && values[j..][1..] == values[j + 1..];
        NextFresh(model.query, (names[j], values[j]), Zip(names[j + 1..], values[j + 1..]));
        model.AddQueryParameter(names[j], values[j]);
        j := j + 1;
      }
      assert model.query == target;
    }

    /** `Query.Add` of each value that is present, under its name, in order. */
    method AddPresent(model: CreatePaymentPageModel, names: seq<string>, values: seq<Option<string>>)
      requires |names| == |values|
      requires model.Valid() && NoDupKeys(model.query + Present(names, values))
      modifies model
      ensures model.query == old(model.query) + Present(names, values)
      ensures model.errors == old(model.errors) && model.baseUrl == old(model.baseUrl) && model.Valid()
    {
      ghost var target := model.query + Present(names, values);
      var j := 0;
      while j < |names|
        invariant 0 <= j <= |names|
        invariant model.Valid()
        invariant model.query + Present(names[j..], values[j..]) == target
        invariant model.errors == old(model.errors) && model.baseUrl == old(model.baseUrl)
      {
        assert names[j..][1..] == names[j + 1..] && values[j..][1..] == values[j + 1..];
        if values[j].Some? {
          NextFresh(model.query, (names[j], values[j].value), Present(names[j + 1..], values[j + 1..]));
          model.AddQueryParameter(names[j], values[j].value);
        }
        j := j + 1;
      }
      assert model.query == target;
    }

    /** `PrepareCommonQueryAsync`: the setup errors, or else the common parameters. */
    method PrepareCommonQueryAsync(model: CreatePaymentPageModel)
      requires model.errors == Some([]) && model.query == [] && model.Valid()
      modifies model
      ensures model.errors == Some(SetupErrors(env))
      ensures model.query == (if Ready(env) then CommonQuery(env) else [])
      ensures model.baseUrl == old(model.baseUrl) && model.Valid()
    {
      var isValid, messages := ValidateAsync();
      if !isValid {
        AddErrors(model, messages);
        assert [] + messages == messages;
      }
      assert model.errors == Some(ValidationMessages(env));
      var storeCurrency := env.currencies(env.primaryStoreCurrencyId);
      if storeCurrency.None? {
        model.AddError(CurrencyNotFoundMessage(env.primaryStoreCurrencyId));
      } else {
        assert ValidationMessages(env) + [] == ValidationMessages(env);
      }
      assert model.errors == Some(SetupErrors(env));
      if |model.errors.value| > 0 {
        assert !Ready(env);
        return;
      }
      var projectId := if env.settings.isTestMode then env.settings.testProjectId else env.settings.productionProjectId;
      NamesDistinct();
      ZipKeys(CommonNames, CommonValues(env));
      assert model.query + Zip(CommonNames, CommonValues(env)) == CommonQuery(env);
      AddParameters(model, CommonNames, [storeCurrency.value.currencyCode, IntToString(projectId as int), "sale"]);
    }

    /** One pass of the loop of `PrepareAdditionalParametersAsync`: the parameters of the group `name`. */
    method AddGroup(model: CreatePaymentPageModel, name: string, billingAddress: Option<Address>, customer: Customer)
      requires model.Valid() && NoDupKeys(model.query + ParameterGroup(env, name, customer, billingAddress))
      modifies model
      ensures model.query == old(model.query) + ParameterGroup(env, name, customer, billingAddress)
      ensures model.errors == old(model.errors) && model.baseUrl == old(model.baseUrl) && model.Valid()
    {
      if name == PersonalDataSystemName {
        AddPresent(model, PersonalDataNames, PersonalDataValues(env, customer));
      } else if name == BillingAddressSystemName {
        if billingAddress.Some? {
          AddPresent(model, BillingAddressNames, BillingAddressValues(env, billingAddress.value));
        } else {
          assert model.query + [] == model.query;
        }
      } else {
        assert model.query + [] == model.query;
      }
    }

    /** `PrepareAdditionalParametersAsync`: the groups named in the settings, in order. */
    method PrepareAdditionalParametersAsync(model: CreatePaymentPageModel, billingAddress: Option<Address>, customer: Customer)
      requires model.Valid() && NoDupKeys(model.query + AdditionalParameters(env, customer, billingAddress))
      modifies model
      ensures model.query == old(model.query) + AdditionalParameters(env, customer, billingAddress)
      ensures model.errors == old(model.errors) && model.baseUrl == old(model.baseUrl) && model.Valid()
    {
      var systemNames := env.settings.additionalParameterSystemNames;
      if systemNames.Some? && |systemNames.value| > 0 {
        var names := systemNames.value;
        ghost var target := model.query + ParameterGroups(env, names, customer, billingAddress);
        var i := 0;
        while i < |names|
          invariant 0 <= i <= |names|
          invariant model.Valid()
          invariant model.query + ParameterGroups(env, names[i..], customer, billingAddress) == target
          invariant model.errors == old(model.errors) && model.baseUrl == old(model.baseUrl)
        {
          ghost var group := ParameterGroup(env, names[i], customer, billingAddress);
          ghost var rest := ParameterGroups(env, names[i + 1..], customer, billingAddress);
          ParameterGroupsStep(env, names, i, customer, billingAddress);
          assert model.query + group + rest == target;
          PrefixNoDup(model.query + group, rest);
          AddGroup(model, names[i], billingAddress, customer);
          i := i + 1;
        }
        assert model.query == target;
      }
    }

    /** `PrepareSignature`: appends the signature of the query so far. */
    method PrepareSignature(model: CreatePaymentPageModel)
      requires ConfigurationValid(env)
      requires model.Valid() && SignatureKey !in Keys(model.query)
      modifies model
      ensures model.query == Signed(env, old(model.query))
      ensures model.errors == old(model.errors) && model.baseUrl == old(model.baseUrl) && model.Valid()
    {
      var secretKey := GetSecretKey(env.settings);
      model.AddQueryParameter(SignatureKey, GenerateSignature(env.signer, secretKey.value, model.query));
    }

    /** The rest of `CreateIframePaymentPageModelAsync` once every check has passed. */
    method FillIframeQuery(model: CreatePaymentPageModel, ctx: CheckoutContext, paymentAmount: int)
      requires IframeReady(env, ctx) && IframeBuildable(env, ctx)
      requires paymentAmount == ToMinorUnits(ctx.cartTotal.value)
      requires model.Valid() && model.query == CommonQuery(env)
      modifies model
      ensures model.query == IframeQuery(env, ctx) && model.Valid()
      ensures model.errors == old(model.errors) && model.baseUrl == Some(PaymentPageHost)
    {
      model.baseUrl := Some(PaymentPageHost);
      var c := ctx.customer.value;
      var billingAddress := BillingAddressOf(env, c);
      IframeUnsignedDistinct(env, ctx);
      PrefixNoDup(CommonQuery(env) + Zip(IframeNames, IframeValues(env, ctx)), IframeAdditionalParameters(env, ctx));
      AddParameters(model, IframeNames,
        [IntToString(c.id), c.email, env.platform.formatGuid(ctx.orderGuid), IntToString(paymentAmount), ContainerName]);
      PrepareAdditionalParametersAsync(model, billingAddress, c);
      assert model.query == IframeUnsignedQuery(env, ctx);
      PrepareSignature(model);
    }

    /** `CreateIframePaymentPageModelAsync` for the checkout `ctx`. */
    method CreateIframePaymentPageModelAsync(ctx: CheckoutContext) returns (model: CreatePaymentPageModel)
      requires IframeBuildable(env, ctx)
      ensures fresh(model) && model.Valid()
      ensures model.errors == Some(IframeErrors(env, ctx))
      ensures model.query == IframeQuery(env, ctx)
      ensures model.baseUrl == (if IframeReady(env, ctx) then Some(PaymentPageHost) else None)
      ensures model.Success() <==> IframeReady(env, ctx)
    {
      model := new CreatePaymentPageModel();
      PrepareCommonQueryAsync(model);
      var customer := ctx.customer;
      if customer.None? {
        model.AddError(NoCurrentCustomerMessage);
      } else {
        assert SetupErrors(env) + [] == SetupErrors(env);
      }
      SetupErrorsIff(env);
      if |model.errors.value| > 0 {
        return;
      }
      assert model.errors == Some([]);
      var paymentAmount := 0;
      var cart := ctx.cart;
      if cart.None? || cart.value == 0 {
        model.AddError(CartEmptyMessage);
        assert [] + [CartEmptyMessage] == [CartEmptyMessage];
      } else {
        var subTotal := ctx.cartTotal;
        if subTotal.None? || subTotal.value == 0.0 {
          model.AddError(CartTotalMessage);
          assert [] + [CartTotalMessage] == [CartTotalMessage];
        } else {
          paymentAmount := Truncate(subTotal.value * 100.0);
        }
      }
      if |model.errors.value| > 0 {
        return;
      }
      FillIframeQuery(model, ctx, paymentAmount);
    }

    /** The rest of `CreateNewBrowserTabPaymentPageModelAsync` once every check has passed. */
    method FillNewBrowserTabQuery(model: CreatePaymentPageModel, order: Order)
      requires NewBrowserTabReady(env, order) && NewBrowserTabBuildable(env, order)
      requires model.Valid() && model.query == CommonQuery(env)
      modifies model
      ensures model.query == NewBrowserTabQuery(env, order) && model.Valid()
      ensures model.errors == old(model.errors) && model.baseUrl == Some(PaymentPageUrl)
    {
      var callbackUrl := env.platform.routeUrl(OrderDetailsRouteName, order.id);
      var successfulUrl := env.platform.routeUrl(CheckoutCompletedRouteName, order.id);
      model.baseUrl := Some(PaymentPageUrl);
      var c := env.customers(order.customerId).value;
      var billingAddress := env.addresses(order.billingAddressId);
      NewBrowserTabUnsignedDistinct(env, order);
      PrefixNoDup(CommonQuery(env) + Zip(NewBrowserTabNames, NewBrowserTabValues(env, order)),
                  NewBrowserTabAdditionalParameters(env, order));
      AddParameters(model, NewBrowserTabNames,
        [IntToString(c.id), c.email, env.platform.formatGuid(order.orderGuid),
         IntToString(Truncate(order.orderTotal * 100.0)), "1", successfulUrl, callbackUrl, callbackUrl]);
      PrepareAdditionalParametersAsync(model, billingAddress, c);
      assert model.query == NewBrowserTabUnsignedQuery(env, order);
      PrepareSignature(model);
    }

    /** `CreateNewBrowserTabPaymentPageModelAsync` for a placed order. */
    method CreateNewBrowserTabPaymentPageModelAsync(order: Order) returns (model: CreatePaymentPageModel)
      requires NewBrowserTabBuildable(env, order)
      ensures fresh(model) && model.Valid()
      ensures model.errors == Some(NewBrowserTabErrors(env, order))
      ensures model.query == NewBrowserTabQuery(env, order)
      ensures model.baseUrl == (if NewBrowserTabReady(env, order) then Some(PaymentPageUrl) else None)
      ensures model.Success() <==> NewBrowserTabReady(env, order)
    {
      model := new CreatePaymentPageModel();
      PrepareCommonQueryAsync(model);
      var customer := env.customers(order.customerId);
      if customer.None? {
        model.AddError(CustomerNotFoundMessage(order.customerId));
      } else {
        assert SetupErrors(env) + [] == SetupErrors(env);
      }
      SetupErrorsIff(env);
      if |model.errors.value| > 0 {
        return;
      }
      FillNewBrowserTabQuery(model, order);
    }

    /** `RefundOrderAsync`: `amountToRefund` is `None` for a full refund. */
    method RefundOrderAsync(order: Order, amountToRefund: Option<real>) returns (success: bool, errors: seq<string>)
      requires Ready(env) && amountToRefund.Some? ==> FitsInt32(amountToRefund.value * 100.0)
      modifies api
      ensures Outcome(success, errors) == RefundOrderOutcome(env, api.respond, order, amountToRefund)
      ensures api.sent == old(api.sent)
                          + (if Ready(env) && RefundSignature(env, order, amountToRefund).Some?
                             then [SignedRefundRequest(env, order, amountToRefund)] else [])
    {
      errors := [];
      var isValid, messages := ValidateAsync();
      if !isValid {
        errors := errors + messages;
      }
      var storeCurrency := env.currencies(env.primaryStoreCurrencyId);
      if storeCurrency.None? {
        errors := errors + [CurrencyNotFoundMessage(env.primaryStoreCurrencyId)];
      }
      SetupErrorsIff(env);
      if |errors| > 0 {
        return false, errors;
      }
      assert errors == [];
      success, errors := SendRefundAsync(order, amountToRefund, storeCurrency.value);
    }

    /** The rest of `RefundOrderAsync` once the settings and the store currency are found good. */
    method SendRefundAsync(order: Order, amountToRefund: Option<real>, storeCurrency: Currency)
      returns (success: bool, errors: seq<string>)
      requires Ready(env) && storeCurrency == StoreCurrency(env)
      requires amountToRefund.Some? ==> FitsInt32(amountToRefund.value * 100.0)
      modifies api
      ensures Outcome(success, errors) == RefundOrderOutcome(env, api.respond, order, amountToRefund)
      ensures api.sent == old(api.sent)
                          + (if RefundSignature(env, order, amountToRefund).Some?
                             then [SignedRefundRequest(env, order, amountToRefund)] else [])
    {
      errors := [];
      var request := CreateRefundRequest(
        Some(RefundGeneralPayload(
          if env.settings.isTestMode then env.settings.testProjectId else env.settings.productionProjectId,
          order.captureTransactionId, None)),
        Some(RefundPaymentPayload(None, None, Some("Refund for the order '" + order.customOrderNumber + "'."))));
      if amountToRefund.Some? {
        var payment := request.payment.value.(amount := Some(Truncate(amountToRefund.value * 100.0) as Int32),
                                              currency := Some(storeCurrency.currencyCode));
        request := request.(payment := Some(payment));
      }
      assert request == RefundRequest(env, order, amountToRefund);
      var signature := GenerateObjectSignature(env.signer, GetSecretKey(env.settings).value, RefundRequestJson(request));
      if signature.None? {
        return false, errors + [SignatureFailedMessage];
      }
      request := request.(general := Some(request.general.value.(signature := signature)));
      var reply := api.CreateRefundAsync(request);
      match reply
      case Replied(_) => success := true;
      case NoResponse => success, errors := false, errors + [RefundNotCreatedMessage(order.customOrderNumber)];
      case Failed(message) => success, errors := false, errors + [message];
    }

    /** `ProcessWebHookRequestAsync` on the raw body of the callback. */
    method ProcessWebHookRequestAsync(rawBody: string) returns (success: bool, errors: seq<string>)
      modifies store
      ensures var e := WebHookEffect(env, store.processing, rawBody, old(store.orders));
              && Outcome(success, errors) == e.outcome
              && store.orders == e.orders
              && store.calls == old(store.calls) + e.calls
    {
      var isValid, messages := ValidateAsync();
      if !isValid {
        return false, messages;
      }
      var secretKey := GetSecretKey(env.settings);
      var valid := ValidateSignature(env.signer, secretKey.value, Some(rawBody));
      if !valid {
        return false, [InvalidSignatureMessage];
      }
      var deserialized := env.platform.deserializeWebHook(rawBody);
      if deserialized.DeserializationFailed? {
        return false, [DeserializationMessage];
      }
      var request := deserialized.request;
      var operationType := OperationType(request);
      if operationType == Some("sale") {
        success, errors := ProcessSaleOperationAsync(request.value);
      } else if operationType == Some("refund") {
        success, errors := ProcessRefundOperationAsync(request.value);
      } else {
        success, errors := true, [];
      }
    }

    /** `ProcessSaleOperationAsync`. */
    method ProcessSaleOperationAsync(request: WebHookRequest) returns (success: bool, errors: seq<string>)
      requires request.operation.Some?
      modifies store
      ensures var e := SaleEffect(env, store.processing, request, old(store.orders));
              && Outcome(success, errors) == e.outcome
              && store.orders == e.orders
              && store.calls == old(store.calls) + e.calls
    {
      if request.operation.value.status != Some("success") {
        return true, [];
      }
      var orderGuid := env.platform.parseGuid(PaymentId(request));
      if orderGuid.None? {
        return true, [];
      }
      var order := store.GetOrderByGuid(orderGuid.value);
      if order.None? {
        return false, [OrderNotFoundMessage(env, orderGuid.value)];
      }
      if order.value.deleted || !store.processing.canMarkOrderAsPaid(order.value) {
        return true, [];
      }
      var captured := order.value.(captureTransactionId := Some(env.platform.formatGuid(orderGuid.value)));
      store.MarkOrderAsPaidAsync(orderGuid.value, captured);
      return true, [];
    }

    /** `ProcessRefundOperationAsync`. */
    method ProcessRefundOperationAsync(request: WebHookRequest) returns (success: bool, errors: seq<string>)
      requires request.operation.Some?
      modifies store
      ensures var e := RefundEffect(env, store.processing, request, old(store.orders));
              && Outcome(success, errors) == e.outcome
              && store.orders == e.orders
              && store.calls == old(store.calls) + e.calls
    {
      var orderGuid := env.platform.parseGuid(PaymentId(request));
      if orderGuid.None? {
        return true, [];
      }
      var order := store.GetOrderByGuid(orderGuid.value);
      if order.None? {
        return false, [OrderNotFoundMessage(env, orderGuid.value)];
      }
      var operation := request.operation.value;
      if order.value.deleted || operation.initialSum.None? {
        return true, [];
      }
      var amountToRefund := RefundAmount(operation.initialSum.value);
      store.InsertOrderNoteAsync(RefundNote(env, order.value, operation, operation.initialSum.value));
      if operation.status != Some("success") {
        return true, [];
      }
      if order.value.orderTotal == amountToRefund {
        if store.processing.canRefundOffline(order.value) {
          store.RefundOfflineAsync(orderGuid.value, order.value);
        }
      } else {
        if store.processing.canPartiallyRefundOffline(order.value, amountToRefund) {
          store.PartiallyRefundOfflineAsync(orderGuid.value, order.value, amountToRefund);
        }
      }
      return true, [];
    }
  }
}
