# ECommPay payment plugin for nopCommerce: a verified model

This project models the core of the ECommPay payment plugin for nopCommerce, in Dafny.

- **The signer.** It flattens a JSON object into a `path → text` dictionary. Paths are joined with `:`, array items are indexed, booleans become `1`/`0` and null becomes the empty text. It then renders each entry as `key:value`, sorts the renderings, joins them with `;` and signs the result with HMAC-SHA512. A payload is accepted when its top-level `signature` entry equals the signature of every other entry.
- **The configuration validator.** Six rules, three per mode, produce the list of configuration errors.
- **The service:**
  - the two payment-page query builders (iframe and new browser tab);
  - the merchant-initiated refund request;
  - the webhook, which checks the configuration, then the signature, then dispatches on `sale`, `refund` or anything else, and reconciles the order store.
- **The data carried to and from ECommPay**, the payment page model with its derived `Success`, and the map from payment flow to payment method type.

The collaborators the service drives (order repository, order processing, currencies, customers, addresses, countries, localisation, GUIDs, URLs, JSON, HMAC) are given as functions carried in records. This means every property holds for every behaviour of those collaborators that meets the stated preconditions. The order store is a class that records every state-changing call made on it.

Modules, one file each:

| file | module | models |
|---|---|---|
| `wrappers.dfy` | `Wrappers` | `Option` |
| `text.dfy` | `Text` | `string.IsNullOrWhiteSpace`, `Contains`, `int.ToString`, `int.TryParse`, 32-bit bounds |
| `dictionaries.dfy` | `Dictionaries` | `Dictionary<string, string>` as an insertion-ordered sequence of entries, and a mutable `StringDictionary` |
| `sorting.dfy` | `Sorting` | `OrderBy` under an abstract total order on strings |
| `json.dfy` | `Json` | the JSON token tree |
| `signer.dfy` | `Signer` | `Signer.cs` |
| `configuration_validator.dfy` | `ConfigurationValidation` | `ConfigurationModelValidator.cs` |
| `payment_flow_type.dfy` | `PaymentFlowTypes` | `PaymentFlowTypeExtensions.cs` |
| `decimals.dfy` | `Decimals` | `decimal` as an exact rational, and the truncating `(int)` cast |
| `models.dfy` | `Models` | the DTOs of `Models/` and `CreatePaymentPageModel` |
| `orders.dfy` | `Orders` | the order store and order processing the service calls |
| `ecommpay_service.dfy` | `EcommpayServices` | `EcommpayService.cs` and the refund endpoint |

The service file has two layers:
- plain functions state what each operation produces from the settings, the collaborators and the current orders;
- the methods of the class `EcommpayService` build the same results step by step, with the source's early returns, and their `ensures` tie the new state to those functions.

The lemmas beside the functions state what the plugin promises.

## Notes on the code

Four behaviours of the code that a reader might not expect, all modelled as written:
- **Minor units.** The amount in minor units is `(int)(amount * 100)`, which truncates toward zero (`EcommpayService.cs:172,225,280`). It does not round.
- **Cart total.** Only a cart total of exactly zero, or a null total, is rejected (`EcommpayService.cs:169`). A negative total is not rejected.
- **Object signing.** It removes only the first key that contains `signature` (`Signer.cs:96-100`), not every such key.
- **Settings.** The settings record has the fields the service reads: the test project id, the test secret key and the additional parameter system names (`EcommpayService.cs:125-129,468`).

## Model

| member | source | states |
|---|---|---|
| Text.ContainsAt | Nop.Plugin.Payments.ECommPay/Helpers/Signer.cs:96-98 | an occurrence of `sub` at some position makes `Contains` true |
| Text.ContainsWitness | Nop.Plugin.Payments.ECommPay/Helpers/Signer.cs:96-98 | when `Contains` holds there is a position where `sub` occurs (the converse of ContainsAt) |
| Text.NatToStringDigits | Nop.Plugin.Payments.ECommPay/Services/EcommpayService.cs:183 | the decimal rendering of a natural number is non-empty, consists of digits only and denotes the number |
| Text.Int32RoundTrip | Nop.Plugin.Payments.ECommPay/Areas/Admin/Validators/ConfigurationModelValidator.cs:22-25 | `int.TryParse` of `int.ToString()` of any 32-bit integer gives that integer back |
| Text.IntToStringNotBlank | Nop.Plugin.Payments.ECommPay/Services/EcommpayService.cs:126-128 | a project id rendered with `int.ToString()` is never null, empty or white space |
| Text.IsNullOrWhiteSpace | Nop.Plugin.Payments.ECommPay/Helpers/Signer.cs:29 | `string.IsNullOrWhiteSpace`; a predicate, stated through `Signer.ValidateSignature` (a blank payload is rejected) and `Text.IntToStringNotBlank` |
| Text.TryParseInt32 | Nop.Plugin.Payments.ECommPay/Areas/Admin/Validators/ConfigurationModelValidator.cs:23 | `int.TryParse`; what it accepts is stated by `Text.Int32RoundTrip` (every rendered `int` parses back) and `ConfigurationValidation.BlankNotNumeric` (a blank text never parses) |
| Dictionaries.KeysIndex | Nop.Plugin.Payments.ECommPay/Models/CreatePaymentPageModel.cs:31 | the keys of a dictionary are exactly the keys at its positions |
| Dictionaries.LookupSome | Nop.Plugin.Payments.ECommPay/Helpers/Signer.cs:36 | `TryGetValue` finds a value exactly when the key is present, and the pair found is an entry |
| Dictionaries.PutKeys | Nop.Plugin.Payments.ECommPay/Helpers/Signer.cs:158 | after `d[k] = v` the keys are the old keys plus `k` |
| Dictionaries.PutAbsent | Nop.Plugin.Payments.ECommPay/Helpers/Signer.cs:158 | writing a key that is absent appends the entry at the end |
| Dictionaries.PutNoDup | Nop.Plugin.Payments.ECommPay/Helpers/Signer.cs:158 | the indexer setter keeps every key once |
| Dictionaries.PutLookup | Nop.Plugin.Payments.ECommPay/Helpers/Signer.cs:158 | after `d[k] = v`, `k` reads `v` (an existing value is overwritten) and every other key reads as before |
| Dictionaries.PutAllConcat | Nop.Plugin.Payments.ECommPay/Helpers/Signer.cs:124-126 | two runs of writes in a row equal the one run of both |
| Dictionaries.PutAllNoDup | Nop.Plugin.Payments.ECommPay/Helpers/Signer.cs:124-126 | any run of writes keeps every key once |
| Dictionaries.PutAllKeys | Nop.Plugin.Payments.ECommPay/Helpers/Signer.cs:124-126 | after a run of writes the keys are the old keys and every key written |
| Dictionaries.NoDupConcat | Nop.Plugin.Payments.ECommPay/Models/CreatePaymentPageModel.cs:31 | two dictionaries with disjoint keys, one after the other, still hold each key once |
| Dictionaries.PrefixFresh | Nop.Plugin.Payments.ECommPay/Models/CreatePaymentPageModel.cs:31 | the next key of a dictionary is not among the keys before it |
| Dictionaries.PrefixNoDup | Nop.Plugin.Payments.ECommPay/Models/CreatePaymentPageModel.cs:31 | every prefix of a dictionary is a dictionary |
| Dictionaries.WithoutAbsent | Nop.Plugin.Payments.ECommPay/Helpers/Signer.cs:39 | removing an absent key changes nothing |
| Dictionaries.WithoutAppended | Nop.Plugin.Payments.ECommPay/Helpers/Signer.cs:39 | removing the key that was appended last gives back the dictionary before the append |
| Dictionaries.LookupAppended | Nop.Plugin.Payments.ECommPay/Helpers/Signer.cs:36 | a key appended last reads as the value appended with it |
| Dictionaries.ToMapMembers | Nop.Plugin.Payments.ECommPay/Helpers/Signer.cs:52 | the entries of a dictionary are exactly the pairs of its map |
| Dictionaries.SameMapSameEntries | Nop.Plugin.Payments.ECommPay/Helpers/Signer.cs:60-61 | two dictionaries with the same map hold the same entries, in whatever order |
| Dictionaries.WithoutKeys | Nop.Plugin.Payments.ECommPay/Helpers/Signer.cs:39 | after `Remove(k)` the keys are the old keys less `k` |
| Dictionaries.WithoutNoDup | Nop.Plugin.Payments.ECommPay/Helpers/Signer.cs:39 | `Remove` keeps every key once |
| Dictionaries.StringDictionary.Set | Nop.Plugin.Payments.ECommPay/Helpers/Signer.cs:158 | the entries become the old entries with `k` overwritten or appended, and stay a dictionary |
| Dictionaries.StringDictionary.Remove | Nop.Plugin.Payments.ECommPay/Helpers/Signer.cs:39 | the entries become the old entries less the one under `k`, and stay a dictionary |
| Sorting.InsertMultiset | Nop.Plugin.Payments.ECommPay/Helpers/Signer.cs:62 | inserting adds exactly that one string |
| Sorting.InsertSorted | Nop.Plugin.Payments.ECommPay/Helpers/Signer.cs:62 | inserting into a sorted sequence keeps it sorted |
| Sorting.SortPermutation | Nop.Plugin.Payments.ECommPay/Helpers/Signer.cs:62 | `OrderBy` keeps every rendering with its multiplicity |
| Sorting.SortSorted | Nop.Plugin.Payments.ECommPay/Helpers/Signer.cs:62 | the result of `OrderBy` is in ascending order |
| Sorting.SortedHeadLeast | Nop.Plugin.Payments.ECommPay/Helpers/Signer.cs:62 | the first string of a sorted sequence is ordered before every string in it |
| Sorting.SortedUnique | Nop.Plugin.Payments.ECommPay/Helpers/Signer.cs:62 | under a total order, two sorted sequences with the same strings are equal |
| Sorting.SortPermutationInvariant | Nop.Plugin.Payments.ECommPay/Helpers/Signer.cs:60-62 | the sorted renderings depend only on which renderings there are, not on their order |
| Signer.AddParameter | Nop.Plugin.Payments.ECommPay/Helpers/Signer.cs:131-176 | the dictionary becomes the old one with the writes of the value applied in order: members under `name:key`, items under `name:i`, nothing for an empty array, the text of a scalar, `1`/`0`, the formatted date, `""` for null, nothing for other token types |
| Signer.Writes | Nop.Plugin.Payments.ECommPay/Helpers/Signer.cs:131-176 | the writes of `AddParameter`, one case per token type; `Signer.AddParameter` is proved to perform exactly them, and `Signer.WritesPaths` bounds the paths they write |
| Signer.Flatten | Nop.Plugin.Payments.ECommPay/Helpers/Signer.cs:109-129 | a flattening that succeeds holds each path once |
| Signer.GetParametersFromJson | Nop.Plugin.Payments.ECommPay/Helpers/Signer.cs:109-129 | null exactly when the text does not parse or the object has no members; otherwise a new dictionary holding the flattening |
| Signer.WritesPaths | Nop.Plugin.Payments.ECommPay/Helpers/Signer.cs:133-176 | every key written for a value under `name` is `name` itself or a path below it |
| Signer.MemberWritesPaths | Nop.Plugin.Payments.ECommPay/Helpers/Signer.cs:135-138 | every key written for the members of an object lies below one of the member paths |
| Signer.ItemWritesPaths | Nop.Plugin.Payments.ECommPay/Helpers/Signer.cs:140-148 | every key written for the items of an array lies below the array's path |
| Signer.TopLevelSignatureKey | Nop.Plugin.Payments.ECommPay/Helpers/Signer.cs:124-126 | an object with no top-level member named `signature` flattens without a `signature` key, whatever nested `…:signature` paths it has |
| Signer.ValidateSignature | Nop.Plugin.Payments.ECommPay/Helpers/Signer.cs:24-44 | the result is the acceptance predicate; it is false for a null or blank payload and for one that does not flatten, and true only when a top-level `signature` entry exists |
| Signer.SignatureValid | Nop.Plugin.Payments.ECommPay/Helpers/Signer.cs:24-44 | the acceptance predicate; `Signer.ValidateSignature` computes it, `Signer.NestedSignatureRejected` and `Signer.SignedObjectValidates` state when it fails and when it holds |
| Signer.NestedSignatureRejected | Nop.Plugin.Payments.ECommPay/Helpers/Signer.cs:36-37 | a payload whose object has no top-level `signature` member is rejected |
| Signer.SignedParametersValidate | Nop.Plugin.Payments.ECommPay/Helpers/Signer.cs:39-43 | a dictionary without `signature`, given `signature` = its own signature, is accepted under the same key |
| Signer.CheckSignatureExact | Nop.Plugin.Payments.ECommPay/Helpers/Signer.cs:39-43 | such a dictionary is accepted exactly when the `signature` value equals the signature of the other entries |
| Signer.CanonicalString | Nop.Plugin.Payments.ECommPay/Helpers/Signer.cs:60-64 | the signed text, the sorted `key:value` renderings joined by `;`; `Sorting.SortPermutationInvariant` and `Signer.RenderAllMultiset` make it independent of entry order |
| Signer.GenerateSignature | Nop.Plugin.Payments.ECommPay/Helpers/Signer.cs:52-72 | the HMAC of the canonical text; `Signer.GenerateSignatureOrderInvariant` and `Signer.SameContentsSameSignature` state that it depends only on the contents, `Signer.SignedParametersValidate` that it is accepted |
| Signer.SignedObjectValidates | Nop.Plugin.Payments.ECommPay/Helpers/Signer.cs:24-44 | round trip over JSON: an object sent with a top-level `signature` member holding the signature of its own flattening is accepted |
| Signer.RenderAllMultiset | Nop.Plugin.Payments.ECommPay/Helpers/Signer.cs:60-61 | entries that are a permutation of each other render to renderings that are a permutation of each other |
| Signer.GenerateSignatureOrderInvariant | Nop.Plugin.Payments.ECommPay/Helpers/Signer.cs:52-72 | the signature does not depend on the order of the entries |
| Signer.SameContentsSameSignature | Nop.Plugin.Payments.ECommPay/Helpers/Signer.cs:52-72 | two dictionaries with the same contents have the same signature |
| Signer.FirstKeyContaining | Nop.Plugin.Payments.ECommPay/Helpers/Signer.cs:96-98 | `None` exactly when no key contains the text; otherwise a key that contains it and no earlier key does |
| Signer.SigningParametersRemoveFirst | Nop.Plugin.Payments.ECommPay/Helpers/Signer.cs:96-100 | object signing removes nothing when no key contains `signature`, else exactly the first such key; the rest stays a dictionary |
| Signer.GenerateObjectSignature | Nop.Plugin.Payments.ECommPay/Helpers/Signer.cs:80-103 | null when the serialised object does not flatten; otherwise the signature of the flattening less the first key containing `signature` |
| Signer.ObjectSignature | Nop.Plugin.Payments.ECommPay/Helpers/Signer.cs:80-103 | the object-signing result; `Signer.GenerateObjectSignature` computes it and `Signer.SigningParametersRemoveFirst` states which entry it leaves out |
| ConfigurationValidation.ResourceName | Nop.Plugin.Payments.ECommPay/Areas/Admin/Validators/ConfigurationModelValidator.cs:15-46 | every rule reports a non-empty locale resource name |
| ConfigurationValidation.Validate | Nop.Plugin.Payments.ECommPay/Areas/Admin/Validators/ConfigurationModelValidator.cs:15-46 | every error is of the selected mode; the list is empty exactly when the active project id is not empty and parses as an `int` and the active secret key is not empty; each of the three errors is present exactly when its rule fails |
| ConfigurationValidation.InactiveFieldsIgnored | Nop.Plugin.Payments.ECommPay/Areas/Admin/Validators/ConfigurationModelValidator.cs:17-45 | changing the fields of the mode not selected never changes the errors |
| ConfigurationValidation.BlankNotNumeric | Nop.Plugin.Payments.ECommPay/Areas/Admin/Validators/ConfigurationModelValidator.cs:22-25 | a null or blank project id never parses as an `int` |
| ConfigurationValidation.BlankProjectIdBothErrors | Nop.Plugin.Payments.ECommPay/Areas/Admin/Validators/ConfigurationModelValidator.cs:17-25 | the rules are independent: a blank active project id is reported both as missing and as not numeric |
| PaymentFlowTypes.ToPaymentMethodType | Nop.Plugin.Payments.ECommPay/Extensions/PaymentFlowTypeExtensions.cs:19-27 | `Iframe` gives `Standard` and `NewBrowserTab` gives `Redirection`, both directions; an undeclared value is refused by the precondition (the source throws) |
| PaymentFlowTypes.ToPaymentMethodTypeInjective | Nop.Plugin.Payments.ECommPay/Extensions/PaymentFlowTypeExtensions.cs:23-24 | the two declared flows map to different method types |
| Decimals.Truncate | Nop.Plugin.Payments.ECommPay/Services/EcommpayService.cs:172 | `(int)x` is the integer part of `x`, rounded toward zero, for either sign |
| Decimals.ToMinorUnitsTruncates | Nop.Plugin.Payments.ECommPay/Services/EcommpayService.cs:172 | a non-negative amount converts to the whole cents at or below it: a fraction of a cent is dropped |
| Decimals.WholeCentsExact | Nop.Plugin.Payments.ECommPay/Services/EcommpayService.cs:280 | an amount with whole cents converts exactly |
| Decimals.ToMinorUnitsExamples | Nop.Plugin.Payments.ECommPay/Services/EcommpayService.cs:225 | 19.99 converts to 1999, and 10.999 to 1099 rather than 1100 |
| Models.RefundRequestJson | Nop.Plugin.Payments.ECommPay/Models/CreateRefundRequest.cs:15-22 | the serialised request is an object whose first member is `general` when that payload is present, and empty when both payloads are null |
| Models.CreatePaymentPageModel.constructor | Nop.Plugin.Payments.ECommPay/Models/CreatePaymentPageModel.cs:16-31 | a new model has no errors, no base URL and an empty query, so it succeeds |
| Models.CreatePaymentPageModel.AddError | Nop.Plugin.Payments.ECommPay/Models/CreatePaymentPageModel.cs:16-21 | the error is appended, nothing else changes, and the model no longer succeeds |
| Models.CreatePaymentPageModel.AddQueryParameter | Nop.Plugin.Payments.ECommPay/Models/CreatePaymentPageModel.cs:31 | a new name is appended with its value and the query still holds each name once |
| Models.CreatePaymentPageModel.Success | Nop.Plugin.Payments.ECommPay/Models/CreatePaymentPageModel.cs:16 | no error list or an empty one; the constructor and `AddError` state that a new model succeeds and that any error ends success, and the two page builders that success holds exactly when the page is ready |
| Orders.OrderStore.GetOrderByGuid | Nop.Plugin.Payments.ECommPay/Services/EcommpayService.cs:374 | an order is found exactly when the GUID is stored, and it is the stored order |
| Orders.OrderStore.MarkOrderAsPaidAsync | Nop.Plugin.Payments.ECommPay/Services/EcommpayService.cs:387-388 | the order, as changed by the caller, is stored marked as paid, and the call is recorded |
| Orders.OrderStore.RefundOfflineAsync | Nop.Plugin.Payments.ECommPay/Services/EcommpayService.cs:431-432 | the order is stored refunded and the call is recorded |
| Orders.OrderStore.PartiallyRefundOfflineAsync | Nop.Plugin.Payments.ECommPay/Services/EcommpayService.cs:436-437 | the order is stored partially refunded by the amount and the call is recorded |
| Orders.OrderStore.InsertOrderNoteAsync | Nop.Plugin.Payments.ECommPay/Services/EcommpayService.cs:415-424 | the note is recorded and no order changes |
| EcommpayServices.Messages | Nop.Plugin.Payments.ECommPay/Services/EcommpayService.cs:132 | one message for each validation error, in order: message `i` is the localised resource of error `i` |
| EcommpayServices.SettingsErrorsAreValidatorErrors | Nop.Plugin.Payments.ECommPay/Services/EcommpayService.cs:119-133 | the validator run on the form filled from the settings reports exactly the missing secret key of the selected mode: project ids rendered from integers always pass |
| EcommpayServices.ConfigurationValidIffValidator | Nop.Plugin.Payments.ECommPay/Services/EcommpayService.cs:119-133 | `ValidateAsync` says valid exactly when the validator does, exactly when no message is returned, and the messages are those of the validator's errors |
| EcommpayServices.SecretKey | Nop.Plugin.Payments.ECommPay/Services/EcommpayService.cs:588-593 | a valid configuration has the secret key of the selected mode, and it is not blank |
| EcommpayServices.GetSecretKey | Nop.Plugin.Payments.ECommPay/Services/EcommpayService.cs:588-593 | the key of the selected mode; `EcommpayServices.SecretKey` and `EcommpayServices.SettingsErrorsAreValidatorErrors` state that the settings are valid exactly when it is not blank |
| EcommpayServices.GroupNamesDisjoint | Nop.Plugin.Payments.ECommPay/Services/EcommpayService.cs:459-566 | the common, personal data and billing address parameters have different names, none of them `signature` |
| EcommpayServices.IframeNamesDisjoint | Nop.Plugin.Payments.ECommPay/Services/EcommpayService.cs:180-184 | the iframe parameters are named apart from the common and the additional ones and from `signature` |
| EcommpayServices.NewBrowserTabNamesDisjoint | Nop.Plugin.Payments.ECommPay/Services/EcommpayService.cs:222-229 | the new-tab parameters are named apart from the common and the additional ones and from `signature` |
| EcommpayServices.SetupErrorsIff | Nop.Plugin.Payments.ECommPay/Services/EcommpayService.cs:445-457 | the setup errors are empty exactly when the settings are valid and the store currency exists; they start with every validation message |
| EcommpayServices.PersonalDataValues | Nop.Plugin.Payments.ECommPay/Services/EcommpayService.cs:472-538 | one value per personal-data name, in the order the source adds them; `EcommpayServices.GroupKeys` states that the group sends only its own names, each once |
| EcommpayServices.BillingAddressValues | Nop.Plugin.Payments.ECommPay/Services/EcommpayService.cs:541-567 | one value per billing-address name; `EcommpayServices.GroupKeys` states that the group sends only its own names, each once, and none without an address |
| EcommpayServices.GroupKeys | Nop.Plugin.Payments.ECommPay/Services/EcommpayService.cs:472-567 | each parameter group sends each of its own names at most once and no other name |
| EcommpayServices.ParameterGroupsKeys | Nop.Plugin.Payments.ECommPay/Services/EcommpayService.cs:468-571 | only the names of the groups listed are sent; listing each group at most once sends each name at most once |
| EcommpayServices.AdditionalParametersKeys | Nop.Plugin.Payments.ECommPay/Services/EcommpayService.cs:466-571 | the additional parameters carry only group names, each once when each group is listed once, and nothing when the list is null |
| EcommpayServices.PersonalDataTwiceDuplicates | Nop.Plugin.Payments.ECommPay/Services/EcommpayService.cs:470-474 | settings that name `customer.personaldata` twice send `customer_email` twice, so the source's second `Query.Add` throws |
| EcommpayServices.SignedQueryChecks | Nop.Plugin.Payments.ECommPay/Services/EcommpayService.cs:573-576 | a query signed by the service is accepted by the signer's check under the same key and still holds each name once |
| EcommpayServices.IframeErrors | Nop.Plugin.Payments.ECommPay/Services/EcommpayService.cs:152-176 | the errors of the iframe page; `EcommpayServices.IframeErrorsIff` states when and which |
| EcommpayServices.IframeQuery | Nop.Plugin.Payments.ECommPay/Services/EcommpayService.cs:139-192 | the query of the iframe page; `EcommpayServices.IframeQuerySigned` and `EcommpayServices.IframeQueryUnsignedOnError` state it on success and on failure |
| EcommpayServices.IframeErrorsIff | Nop.Plugin.Payments.ECommPay/Services/EcommpayService.cs:152-176 | the iframe page has no error exactly when it is ready; a missing customer gives its one message, an empty cart its one message, and setup errors come first |
| EcommpayServices.IframeUnsignedDistinct | Nop.Plugin.Payments.ECommPay/Services/EcommpayService.cs:178-187 | the unsigned iframe query holds each name once and no `signature`, so no `Query.Add` throws |
| EcommpayServices.IframeQuerySigned | Nop.Plugin.Payments.ECommPay/Services/EcommpayService.cs:178-191 | on success the query is a dictionary accepted by the signer, its last entry is `signature` over every entry before it, `payment_amount` is the truncated cart total in cents and `project_id` is that of the selected mode |
| EcommpayServices.IframeQueryUnsignedOnError | Nop.Plugin.Payments.ECommPay/Services/EcommpayService.cs:154-176 | a failed iframe page carries no parameter or only the common ones, and never a signature |
| EcommpayServices.NewBrowserTabErrors | Nop.Plugin.Payments.ECommPay/Services/EcommpayService.cs:206-213 | the errors of the new-tab page; `EcommpayServices.NewBrowserTabErrorsIff` states when and which |
| EcommpayServices.NewBrowserTabQuery | Nop.Plugin.Payments.ECommPay/Services/EcommpayService.cs:199-237 | the query of the new-tab page; `EcommpayServices.NewBrowserTabQuerySigned` states it on success |
| EcommpayServices.NewBrowserTabErrorsIff | Nop.Plugin.Payments.ECommPay/Services/EcommpayService.cs:206-213 | the new-tab page has no error exactly when it is ready; a missing customer gives its one message, and setup errors come first |
| EcommpayServices.NewBrowserTabUnsignedDistinct | Nop.Plugin.Payments.ECommPay/Services/EcommpayService.cs:220-232 | the unsigned new-tab query holds each name once and no `signature` |
| EcommpayServices.NewBrowserTabQuerySigned | Nop.Plugin.Payments.ECommPay/Services/EcommpayService.cs:220-236 | on success the query is accepted by the signer with `signature` last over every entry before it, `redirect` is `1`, `merchant_fail_url` equals `merchant_return_url` (the order details URL), and `payment_amount` is the truncated order total in cents |
| EcommpayServices.RefundRequest | Nop.Plugin.Payments.ECommPay/Services/EcommpayService.cs:263-282 | both payloads are present, the project id is that of the selected mode, the payment id is the capture transaction id, no signature yet; amount and currency are set exactly for a partial refund, as the truncated cents and the store currency code |
| EcommpayServices.RefundSignatureExists | Nop.Plugin.Payments.ECommPay/Services/EcommpayService.cs:284-289 | when the JSON library reads back the object it wrote, the refund request always has a signature |
| EcommpayServices.RefundOrderOutcome | Nop.Plugin.Payments.ECommPay/Services/EcommpayService.cs:245-310 | setup errors give failure with those errors; success exactly when the request is signed and the endpoint replies; a success carries no error |
| EcommpayServices.EcommpayApi.CreateRefundAsync | Nop.Plugin.Payments.ECommPay/Services/EcommpayApi.cs:26-32 | the request is recorded as sent and the endpoint's answer to it is returned |
| EcommpayServices.WebHookEffect | Nop.Plugin.Payments.ECommPay/Services/EcommpayService.cs:317-357 | the webhook's outcome and store effect; `EcommpayServices.WebHookGates`, `EcommpayServices.OtherOperationsIgnored` and `EcommpayServices.WebHookSaleIdempotent` state it |
| EcommpayServices.SaleEffect | Nop.Plugin.Payments.ECommPay/Services/EcommpayService.cs:363-391 | the sale handler; `EcommpayServices.SaleActsOnlyWhenApplicable` and `EcommpayServices.SaleIdempotent` state it |
| EcommpayServices.RefundNote | Nop.Plugin.Payments.ECommPay/Services/EcommpayService.cs:415-424 | the audit note: order id, the status, code, message and amount text, not shown to the customer, stamped with the clock reading; `EcommpayServices.RefundNoteAlwaysFirst` states when it is written |
| EcommpayServices.RefundEffect | Nop.Plugin.Payments.ECommPay/Services/EcommpayService.cs:393-441 | the refund handler; `EcommpayServices.RefundNoteAlwaysFirst`, `EcommpayServices.RefundTransition` and `EcommpayServices.RefundFailsOnlyWhenNotFound` state it |
| EcommpayServices.WebHookGates | Nop.Plugin.Payments.ECommPay/Services/EcommpayService.cs:324-338 | invalid settings return the validation messages, a bad signature returns its one message, before the body is read; a failure changes no order, calls nothing and says why; any call on the store needs every gate passed |
| EcommpayServices.OtherOperationsIgnored | Nop.Plugin.Payments.ECommPay/Services/EcommpayService.cs:351-356 | an accepted callback that is neither `sale` nor `refund` (or has no operation) succeeds with no error and changes nothing |
| EcommpayServices.SaleActsOnlyWhenApplicable | Nop.Plugin.Payments.ECommPay/Services/EcommpayService.cs:363-391 | a sale callback acts exactly when the status is `success`, the id parses, the order exists, is not deleted and can be marked as paid; it then stores the GUID text as capture id and marks that order paid; it fails exactly when the GUID names no order |
| EcommpayServices.SaleIdempotent | Nop.Plugin.Payments.ECommPay/Services/EcommpayService.cs:384-388 | when a paid order can not be marked as paid again, a second delivery of a sale callback changes nothing and returns the same outcome |
| EcommpayServices.WebHookSaleIdempotent | Nop.Plugin.Payments.ECommPay/Services/EcommpayService.cs:317-357 | the same for the whole webhook on an accepted sale callback |
| EcommpayServices.RefundNoteAlwaysFirst | Nop.Plugin.Payments.ECommPay/Services/EcommpayService.cs:397-427 | a refund callback for a found, live order with an amount writes the audit note first, whatever the status, and only then; only `success` goes further; otherwise the orders are untouched |
| EcommpayServices.RefundTransition | Nop.Plugin.Payments.ECommPay/Services/EcommpayService.cs:413-440 | on `success`: a full refund when the amount equals the order total exactly and it is allowed, a partial one when it differs and that is allowed, and no change (still a success) when the guard is false |
| EcommpayServices.RefundFailsOnlyWhenNotFound | Nop.Plugin.Payments.ECommPay/Services/EcommpayService.cs:397-405 | a refund callback fails exactly when its GUID parses but names no order |
| EcommpayServices.EcommpayService.ValidateAsync | Nop.Plugin.Payments.ECommPay/Services/EcommpayService.cs:119-133 | returns the validity and the messages of the configuration, valid exactly when there is no message |
| EcommpayServices.EcommpayService.AddErrors | Nop.Plugin.Payments.ECommPay/Services/EcommpayService.cs:448-449 | each message is appended in order; the query and the base URL are unchanged |
| EcommpayServices.EcommpayService.AddParameters | Nop.Plugin.Payments.ECommPay/Services/EcommpayService.cs:180-184 | each name is appended with its value, in order, and the query stays a dictionary |
| EcommpayServices.EcommpayService.AddPresent | Nop.Plugin.Payments.ECommPay/Services/EcommpayService.cs:545-566 | each value that is present is appended under its name, in order |
| EcommpayServices.EcommpayService.PrepareCommonQueryAsync | Nop.Plugin.Payments.ECommPay/Services/EcommpayService.cs:443-464 | the errors become the setup errors; the query is the three common parameters when there is none, empty otherwise |
| EcommpayServices.EcommpayService.AddGroup | Nop.Plugin.Payments.ECommPay/Services/EcommpayService.cs:472-568 | one pass of the loop appends the parameters of the named group (none for an unknown name or a missing billing address) |
| EcommpayServices.EcommpayService.PrepareAdditionalParametersAsync | Nop.Plugin.Payments.ECommPay/Services/EcommpayService.cs:466-571 | the query gains the parameters of every listed group, in the order listed, and nothing else changes |
| EcommpayServices.EcommpayService.PrepareSignature | Nop.Plugin.Payments.ECommPay/Services/EcommpayService.cs:573-576 | `signature`, the signature of the query so far, is appended |
| EcommpayServices.EcommpayService.FillIframeQuery | Nop.Plugin.Payments.ECommPay/Services/EcommpayService.cs:178-189 | after every check passes, the query becomes the signed iframe query and the base URL the payment page host |
| EcommpayServices.EcommpayService.CreateIframePaymentPageModelAsync | Nop.Plugin.Payments.ECommPay/Services/EcommpayService.cs:139-192 | the model's errors, query and base URL are those the iframe functions give, and it succeeds exactly when the page is ready |
| EcommpayServices.EcommpayService.FillNewBrowserTabQuery | Nop.Plugin.Payments.ECommPay/Services/EcommpayService.cs:220-234 | after every check passes, the query becomes the signed new-tab query and the base URL the payment page URL |
| EcommpayServices.EcommpayService.CreateNewBrowserTabPaymentPageModelAsync | Nop.Plugin.Payments.ECommPay/Services/EcommpayService.cs:199-237 | the model's errors, query and base URL are those the new-tab functions give, and it succeeds exactly when the page is ready |
| EcommpayServices.EcommpayService.RefundOrderAsync | Nop.Plugin.Payments.ECommPay/Services/EcommpayService.cs:245-261 | the outcome is `RefundOrderOutcome`; only a request that passed every check is sent, at most one |
| EcommpayServices.EcommpayService.SendRefundAsync | Nop.Plugin.Payments.ECommPay/Services/EcommpayService.cs:263-309 | builds, signs and sends the request, with the outcome of `RefundOrderOutcome` |
| EcommpayServices.EcommpayService.ProcessWebHookRequestAsync | Nop.Plugin.Payments.ECommPay/Services/EcommpayService.cs:317-357 | the outcome, the orders and the calls on the store are those of the webhook function on the raw body |
| EcommpayServices.EcommpayService.ProcessSaleOperationAsync | Nop.Plugin.Payments.ECommPay/Services/EcommpayService.cs:363-391 | the outcome, the orders and the calls on the store are those of the sale function |
| EcommpayServices.EcommpayService.ProcessRefundOperationAsync | Nop.Plugin.Payments.ECommPay/Services/EcommpayService.cs:393-441 | the outcome, the orders and the calls on the store are those of the refund function |

## Left out

- HMAC-SHA512, the UTF-8 encoding and Base64 (`Signer.cs:65-71`) are one function of the key and the signed text, carried in `Signer.Primitives`. Nothing is assumed about it.
- The string comparer of `OrderBy` (`Signer.cs:62`) is culture-sensitive. It is an abstract comparison. The order-invariance lemmas require it to be a total order.
- `JObject.Parse` and `JsonConvert.SerializeObject` are functions between text and the JSON tree. `JsonConvert.DeserializeObject<WebHookRequest>` is a function that fails, or gives a request that may be null. Their text formats are not modelled.
- Date formatting, `decimal.ToString()`, `Environment.NewLine`, `Guid.TryParse`, `Guid.ToString()`, `DateTime.TryParse` with `dd-MM-yyyy` and `IUrlHelper.RouteUrl` are given as functions in `Platform`.
- HTTP requests and the refund endpoint, `BaseHttpClient.cs`, are not part of this model. The endpoint's answer to a request is a function: a response, no response, or an `ApiException` with its message.
- The session writes, the order GUID generation, the request protocol, `QueryHelpers.AddQueryString` (`CreatePaymentPageModel.Url`) and the localisation service are not modelled. The GUID and the localised texts are inputs.
- async/await is modelled as sequential calls, and there is no concurrency.
- The clock read `DateTime.UtcNow` of the refund note (`EcommpayService.cs:419`) is one value per webhook call, `Platform.utcNow`. One call reads the clock once, so the model does not capture time passing between reads.
- `int.ToString()` and `int.TryParse` run in the current culture. The model fixes the invariant culture: an ASCII `-` sign, no group separators, and `+`/`-` as the signs `int.TryParse` accepts.
- The thrown exceptions are preconditions:
  - `ArgumentNullException` for null arguments;
  - `OverflowException` of the `(int)` amount cast (`FitsInt32`);
  - `Dictionary.Add` on a name already present. The name lemmas show that the fixed parameters never clash, and `AdditionalParametersKeys` that the additional ones do not when each group is named at most once in the settings. A group named twice makes the source throw (`PersonalDataTwiceDuplicates`), and `IframeBuildable` and `NewBrowserTabBuildable` exclude that case;
  - `InvalidOperationException` of `ToPaymentMethodType`.
- The customer e-mail is an ordinary string: a null e-mail is not distinguished from an empty one.
- The settings record holds only the fields the service reads. The admin controller, view components, route providers, dependency registration, plugin installation and `CanRePostProcessPaymentAsync` (which reads the clock) are not part of this model.
- `EcommpayServices.EcommpayService.RefundOrderAsync` and `EcommpayServices.EcommpayService.CreateIframePaymentPageModelAsync` delegate their last stretch to `SendRefundAsync` and `FillIframeQuery`, and `CreateNewBrowserTabPaymentPageModelAsync` delegates to `FillNewBrowserTabQuery`. The loop body of `PrepareAdditionalParametersAsync` is `AddGroup`. The statements are the source's, in the source's order; only the method boundary is new.
- `EcommpayServices.ConfigurationValid` is stated as "the secret key of the selected mode is not empty", and `SettingsErrorsAreValidatorErrors` proves this equal to what the validator reports on the form built from the settings.
- `Signer.Flatten`: its own contract states only that each path occurs once. What it computes is stated through `Signer.AddParameter`, `Signer.GetParametersFromJson` and the path lemmas.
