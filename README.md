# finab core, modelled in Dafny

`finab` fetches transactions from the FinWise API and budgets and transactions from the
YNAB API. This project models the logic it adds to those SDK calls:

- **FinWise fetch and filter** (`FinWiseClient.get_transactions`). The decoded response
  must be a list. Every element is validated into a `Transaction`, all or nothing. The
  records are then kept by the calendar date of their `date` field. Both bounds are
  inclusive and either may be absent.
- **The `Amount` / `Transaction` schema** (`models.py`). It has required fields, optional
  fields that default to None, and list fields that default to empty. Every field is read
  from its camelCase wire name.
- **The YNAB client** (`YNABClient`):
  - choosing the access token: the explicit key, then the environment, then an error;
  - removing a `bearer ` prefix in any letter case, then the surrounding whitespace;
  - configuring the SDK's `api_key` / `api_key_prefix` slots;
  - the `since_date` keyword passed upstream and the client-side end-date filter;
  - taking `data.budgets` out of the decoded `get_budgets` document.

Modules, one per file:

| module | models |
|---|---|
| `Wrappers` | `Option` (Python `None`) and `Result` (a raised exception) |
| `Json` | a decoded JSON value and the Python type it decodes to |
| `Dates` | dates as day numbers; a datetime as a day plus a time of day |
| `Filtering` | the list-comprehension filter `[x for x in s if p(x)]` and its exactness |
| `Strings` | `str.lower`, `str.startswith` and `str.strip` |
| `Models` | `Amount`, `Transaction` and `Transaction.model_validate` |
| `FinWise` | `FinWiseClient.get_transactions` |
| `Ynab` | `YNABClient`: token, configuration, `get_transactions`, `get_budgets` |

The validating library's coercion of a JSON value to `bool`, `datetime` or `Decimal` is
a parameter, `Models.Coercion`: a function per type that returns `None` when the value
does not coerce. Everything else the validator does is modelled:

- a field with an alias is read only under that alias;
- unknown keys are ignored;
- `Optional[...]` accepts `null`;
- `List[Any]` needs a JSON array and defaults to the empty list;
- a `str` field accepts only a JSON string;
- every failing field is reported, in declaration order, and located by its path of wire
  names.

The two YNAB SDK calls are parameters. `Ynab.TransactionsApi` is the list of transactions
returned for a budget id and keyword arguments. `Ynab.ExtractBudgets` starts from the
decoded response document.

How the code reports errors and treats whitespace:

- The missing-token error is Python's `ValueError`, here `Ynab.ConfigurationError`.
- After the `bearer ` prefix is removed, surrounding whitespace is stripped too.
- A non-list FinWise response raises `ValueError`, here `FinWise.FetchError.FormatError`.
  Its message is `Unexpected response format from FinWise API: <class '…'>`.

## Model

| member | source | states |
|---|---|---|
| Json.TypeRepr | src/finab/client.py:35-37 | the type in the error message has the form `<class '…'>` around the Python type name of the value |
| Json.PythonTypeName | src/finab/client.py:36 | the type name of each kind of JSON value starts with a letter that no other kind's name starts with |
| Json.TypeReprNamesKind | src/finab/client.py:35-37 | two values print the same type in the error message exactly when they are of the same kind (null, bool, int, float, str, list, dict) |
| Filtering.Filter | src/finab/client.py:27-31 | a filtered list is no longer than its input, and every element kept is in the input and satisfies the predicate |
| Filtering.FilterAtSelected | src/finab/client.py:27-31 | the k-th kept element is the input element at the k-th selected position |
| Filtering.SelectedIncreasing | src/finab/client.py:27-31 | the selected positions are strictly increasing, so relative order is kept |
| Filtering.SelectedExactly | src/finab/client.py:27-31 | a position is selected exactly when its element satisfies the predicate |
| Filtering.FilterSelectsExactly | src/finab/client.py:27-31 | the filter result is exactly the subsequence at the positions satisfying the predicate, in order |
| Filtering.FilterMembership | src/finab/client.py:27-31 | a value is in the result iff it is in the input and satisfies the predicate |
| Filtering.FilterKeepsAll | src/finab/client.py:27-31 | a predicate true on every element leaves the list unchanged |
| Filtering.FilterIdempotent | src/finab/client.py:27-31 | filtering twice with one predicate equals filtering once |
| Filtering.FilterThenFilter | src/finab/client.py:27-31 | two comprehensions in a row equal one comprehension on the conjunction |
| Filtering.FilterExtensional | src/finab/client.py:27-31 | predicates that agree on every element filter alike |
| Strings.StripLeading | src/finab/ynab_client.py:33 | the result is a suffix of the input; only whitespace is dropped; it does not start with whitespace |
| Strings.StripTrailing | src/finab/ynab_client.py:33 | the result is a prefix of the input; only whitespace is dropped; it does not end with whitespace |
| Strings.Strip | src/finab/ynab_client.py:33 | the result is a slice of the input with only whitespace around it, and is empty or bounded by non-whitespace |
| Strings.StripIdempotent | src/finab/ynab_client.py:33 | stripping twice equals stripping once |
| Strings.FramedUnique | src/finab/ynab_client.py:33 | at most one slice is whitespace-framed and bounded by non-whitespace |
| Strings.StripUnique | src/finab/ynab_client.py:33 | any whitespace-framed slice bounded by non-whitespace is the strip result |
| Strings.StripPadded | src/finab/ynab_client.py:33 | a token padded with whitespace on both sides strips to that token |
| Strings.LowerCharIs | src/finab/ynab_client.py:32 | a character lower-cases to a given lower-case letter exactly when it is that letter or its upper-case form, and to a space only when it is a space |
| Models.AmountErrors | src/finab/models.py:7-9 | an `Amount` validates with no errors iff it is an object with a coercible `amount` and a string `currencyCode`; a missing-key error names an absent key |
| Models.ValueErrors | src/finab/models.py:13-44 | a present value of a declared type can lack a key only when it is the nested `amount` object, and only one level down |
| Models.DeclErrors | src/finab/models.py:13-44 | each error of a field is located under its wire name; a missing error arises only for an absent required field, and an absent required field always gets one |
| Models.FieldErrors | src/finab/models.py:12-44 | every error of the record is located under one of the declared wire names |
| Models.AllDeclOk | src/finab/models.py:12-44 | a record with no errors in any one field has no errors at all |
| Models.ReadableNoErrors | src/finab/models.py:12-44 | an object whose every field is present or absent as declared, and of its declared type, has no errors |
| Models.MissingExactly | src/finab/models.py:13-44 | a field is reported missing iff it is required and its wire name is absent |
| Models.FieldErrorsReadOnlyKeys | src/finab/models.py:13-44 | two objects that agree on the declared wire names have the same errors |
| Models.NoFieldErrors | src/finab/models.py:13-44 | a record with no errors has no errors in any one field |
| Models.NoErrorsReadable | src/finab/models.py:13-44 | an object without errors can be read field by field into a `Transaction` |
| Models.Validate | src/finab/models.py:12-44 | success implies a JSON object that holds every required wire name; failure carries at least one error |
| Models.WellFormedValidates | src/finab/models.py:12-44 | an object satisfying `ReadableHead`, `ReadableMiddle` and `ReadableTail` (every required field present, every field present or absent as declared and of its declared type) validates, to the record read field by field from its wire names |
| Models.MissingRequiredReported | src/finab/models.py:13-28 | a required field is absent iff validation fails reporting that field missing |
| Models.NamedFieldsRequired | src/finab/models.py:13-28 | `id`, `createdAt`, `updatedAt`, `description`, `accountId`, `amount`, `date`, `userId` and `needsReview` are all required |
| Models.OnlyNamedFieldsRequired | src/finab/models.py:12-44 | no other field is required |
| Models.DeclErrorsIncluded | src/finab/models.py:12-44 | every error of a single field appears among the record's errors |
| Models.ErrorsFailValidation | src/finab/models.py:12-44 | any field error makes validation fail, and the error is reported |
| Models.AmountMissingInDecl | src/finab/models.py:7-19 | a key missing from the nested `amount` object is reported at location `amount.<key>` |
| Models.AmountNeedsBothFields | src/finab/models.py:7-19 | a nested `amount` without `amount` or without `currencyCode` fails the whole record, reporting `amount.<key>` missing |
| Models.ValidatedIsBuilt | src/finab/models.py:12-44 | a validated record is the one read field by field from the object |
| Models.AbsentTextFieldsDefault | src/finab/models.py:17-44 | each absent optional string field validates to None |
| Models.AbsentOtherFieldsDefault | src/finab/models.py:29-41 | absent `transactionTags` and `fileRecords` validate to `[]`; each other absent optional field validates to None |
| Models.FieldsReadFromWireNames | src/finab/models.py:9-28 | each required field of the record is the value under its camelCase key, e.g. `accountId`, and `amount.currencyCode` |
| Models.OnlyWireNamesRead | src/finab/models.py:12-44 | objects that agree on the wire names validate alike, so other keys such as snake_case names are ignored |
| FinWise.ValidateAll | src/finab/client.py:25 | success iff every element validates, giving one record per element in order; otherwise it fails with the error of the first invalid element |
| FinWise.GetTransactions | src/finab/client.py:13-37 | a format error iff the response is not a list, with the message naming its type; any other failure is a validation failure |
| FinWise.OnOrAfter | src/finab/client.py:27-28 | without a start date the list is unchanged; with one, every record kept is from the list and dated on or after it |
| FinWise.OnOrBefore | src/finab/client.py:30-31 | without an end date the list is unchanged; with one, every record kept is from the list and dated on or before it |
| FinWise.ApplyBounds | src/finab/client.py:27-31 | every record kept by both filters is from the list and inside the window |
| FinWise.ApplyBoundsIsWindow | src/finab/client.py:27-31 | the two date filters together keep exactly the records inside the inclusive window |
| FinWise.NonListRejected | src/finab/client.py:24-37 | a response is rejected with the format error iff it is not a list |
| FinWise.InvalidElementFailsAll | src/finab/client.py:25 | one invalid element fails the whole call with the first invalid element's error |
| FinWise.ValidListSucceeds | src/finab/client.py:25-33 | a list whose elements all validate yields records |
| FinWise.NoBoundsOnePerElement | src/finab/client.py:25-33 | without bounds there is one record per element, in order |
| FinWise.ResultsWithinBounds | src/finab/client.py:27-31 | every record returned has a date on or after the start and on or before the end |
| FinWise.ResultIsExactWindow | src/finab/client.py:25-31 | the result is exactly the subsequence of validated records whose date lies in the window, in order |
| FinWise.SameDayKeptTogether | src/finab/client.py:28-31 | two validated records on the same calendar day are both kept or both dropped |
| FinWise.SameDayInWindow | src/finab/client.py:28-31 | the window filter keeps two records on the same calendar day together |
| FinWise.BoundsIdempotent | src/finab/client.py:27-31 | filtering the result again with the same bounds changes nothing |
| Ynab.ResolveKey | src/finab/ynab_client.py:26-30 | fails iff neither the key nor the environment value is non-empty; an explicit non-empty key wins; a found key is non-empty |
| Ynab.NormalizeKey | src/finab/ynab_client.py:32-33 | with the prefix, the result is the rest after seven characters with whitespace trimmed; without it, the key is unchanged |
| Ynab.HasBearerPrefix | src/finab/ynab_client.py:32 | the prefix test holds iff the key begins with `bearer `, each letter in either case |
| Ynab.BearerAnyCase | src/finab/ynab_client.py:32 | `key.lower().startswith("bearer ")` holds iff the first seven characters spell `bearer ` in any mixture of cases |
| Ynab.BearerStripped | src/finab/ynab_client.py:32-33 | seven characters lower-casing to `bearer `, followed by `k`, store `strip(k)` |
| Ynab.BearerPaddingDropped | src/finab/ynab_client.py:32-33 | the token after the prefix is kept exactly, whatever whitespace pads it |
| Ynab.BearerSpellings | src/finab/ynab_client.py:32 | `Bearer ` and `bearer ` both match the prefix |
| Ynab.CapitalBearerExample | src/finab/ynab_client.py:32-33 | `Bearer abc123` stores `abc123` |
| Ynab.LowerBearerExample | src/finab/ynab_client.py:32-33 | `bearer abc123` stores `abc123` |
| Ynab.PlainKeyExample | src/finab/ynab_client.py:32 | `abc123` is stored unchanged |
| Ynab.BareBearerAccepted | src/finab/ynab_client.py:26-33 | `Bearer ` passes the emptiness check and stores the empty token |
| Ynab.Configuration.constructor | src/finab/ynab_client.py:35 | a fresh configuration has empty token slots |
| Ynab.Client.Init | src/finab/ynab_client.py:32-48 | the stored key is the normalised key; the configuration's `bearer` slot holds it and the prefix slot is exactly `Bearer` |
| Ynab.Client.Create | src/finab/ynab_client.py:15-50 | construction fails with the missing-token message iff no non-empty key is found; otherwise the client holds the normalised chosen key |
| Ynab.SinceArgs | src/finab/ynab_client.py:85-87 | `since_date` is passed iff a start date is given, it holds that date, and no other keyword is passed |
| Ynab.Client.GetTransactions | src/finab/ynab_client.py:65-97 | the result is the upstream list for `SinceArgs(start)`, filtered by the end date when one is given |
| Ynab.UpToEnd | src/finab/ynab_client.py:94-95 | every transaction kept is from the upstream list and, with an end date, dated on or before it |
| Ynab.NoEndUnchanged | src/finab/ynab_client.py:94-97 | without an end date the upstream list is returned unchanged, with no start-date filter |
| Ynab.UpToEndExact | src/finab/ynab_client.py:94-95 | with an end date the result is exactly the upstream transactions dated on or before it, in upstream order |
| Ynab.UpToEndIdempotent | src/finab/ynab_client.py:94-95 | applying the end-date filter twice equals applying it once |
| Ynab.Namespaces | src/finab/ynab_client.py:63 | succeeds iff every element is an object, giving one record per element with that element's fields; otherwise a `TypeError` naming the type of the first element that is not an object |
| Ynab.BudgetRecords | src/finab/ynab_client.py:63 | a list gives its elements' records; an empty object or string gives none |
| Ynab.ExtractBudgets | src/finab/ynab_client.py:59-63 | `data["data"]["budgets"]`: a `TypeError` for a value that is not an object, a `KeyError` for a missing `data` or `budgets`, and otherwise the records of the `budgets` value |
| Ynab.BudgetsOnePerElement | src/finab/ynab_client.py:62-63 | a list of objects under `data.budgets` gives one record per element, in order |
| Ynab.OnlyBudgetsRead | src/finab/ynab_client.py:60-63 | documents that agree on `data.budgets` give the same result, whatever their sibling fields |
| Ynab.MissingKeyRaises | src/finab/ynab_client.py:63 | a missing `data` or `budgets` key raises `KeyError` for that key |

## Left out

- Ynab.Configuration.constructor: that a fresh `ynab_api.Configuration()` has empty `api_key` and `api_key_prefix` dicts is assumed; the SDK is not part of this model. `Ynab.Client.Init`'s exact slot maps rest on that assumption.
- HTTP and SDK calls are parameters: `FinWise()._transport.get`, `ynab_api.ApiClient` and `BudgetsApi` / `TransactionsApi`. Transport errors are not modelled.
- `load_dotenv` and `os.getenv` are not modelled. The environment value is an `Option<string>` parameter.
- The certifi certificate setup and `client_side_validation = False` are library configuration with no logic of their own.
- The SDK builds the `Authorization` header from the prefix and key slots. That step is SDK code and is not modelled.
- `json.loads` is not modelled. `Ynab.ExtractBudgets` starts from the decoded document.
- The validator's rules for coercing JSON values to `bool`, `datetime` and `Decimal` are the `Models.Coercion` parameter.
- Time zones are not modelled. A datetime is a day number plus a time of day.
- Strings.Lower: folds case only for ASCII letters, unlike Python's full Unicode `lower()`. The one comparison that uses it, the `bearer ` prefix, gets the same answer: no non-ASCII character lower-cases to any of the characters of `bearer `.
- Ynab.BudgetRecords: states only the success cases. For a non-empty object or string, or a scalar, its body models the `TypeError`. The texts of Python's exception messages are not modelled; only the exception type and the type name matter.
- Models.Validate: a non-object input gets a single error with an empty location. The validator's exact error types and messages are not modelled.
- `src/finab/main.py` and the `__main__` block of `ynab_client.py` only print and orchestrate. They are not part of this model.
