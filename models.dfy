/** The FinWise `Amount` and `Transaction` records and the validation that builds them from a
    decoded JSON object: required fields, optional fields that default to None, list fields
    that default to empty, each read from its camelCase wire name. */
module Models {
  import opened Wrappers
  import opened Json
  import opened Dates

  /** A decimal number, `coefficient * 10^exponent`. */
  datatype Decimal = Decimal(coefficient: int, exponent: int)

  datatype Amount = Amount(amount: Decimal, currencyCode: string)

  datatype Transaction = Transaction(
    id: string,
    createdAt: Datetime,
    updatedAt: Datetime,
    description: string,
    originalDescription: Option<string>,
    accountId: string,
    amount: Amount,
    date: Datetime,
    transactionCategoryId: Option<string>,
    originalTransactionCategoryId: Option<string>,
    merchantId: Option<string>,
    originalMerchantId: Option<string>,
    userId: string,
    needsReview: bool,
    transactionTags: seq<Json>,
    fileRecords: seq<Json>,
    parentTransactionId: Option<string>,
    splits: Option<Json>,
    isManual: Option<bool>,
    isTransfer: Option<bool>,
    notes: Option<string>,
    archivedAt: Option<Datetime>,
    effectiveDate: Option<Datetime>,
    dataImportId: Option<string>,
    isPending: Option<bool>,
    pendingTransactionId: Option<string>,
    internalNotes: Option<string>,
    originalAccountId: Option<string>)

  /** The validator's type coercion for `bool`, `datetime` and `Decimal` values, whose rules
      belong to the validation library: `None` means the value does not coerce. */
  datatype Coercion = Coercion(
    toBool: Json -> Option<bool>,
    toDatetime: Json -> Option<Datetime>,
    toDecimal: Json -> Option<Decimal>)

  /** The declared type of a field. `str` accepts a JSON string only, `List[Any]` a JSON
      array only, `Any` every value; the nested `Amount` is validated as a record. */
  datatype FieldType = StrField | BoolField | DatetimeField | AmountField | AnyField | ListField

  /** Whether a field is required, `Optional[...] = None`, or a list with an empty default. */
  datatype Presence = Required | Nullable | DefaultEmpty

  /** One field declaration, under its wire name (the alias where one is declared). */
  datatype FieldDecl = FieldDecl(key: string, ty: FieldType, presence: Presence)

  /** The declarations of `Transaction`, in declaration order. */
  const TransactionFields: seq<FieldDecl> := [
      FieldDecl("id", StrField, Required),
      FieldDecl("createdAt", DatetimeField, Required),
      FieldDecl("updatedAt", DatetimeField, Required),
      FieldDecl("description", StrField, Required),
      FieldDecl("originalDescription", StrField, Nullable),
      FieldDecl("accountId", StrField, Required),
      FieldDecl("amount", AmountField, Required),
      FieldDecl("date", DatetimeField, Required),
      FieldDecl("transactionCategoryId", StrField, Nullable),
      FieldDecl("originalTransactionCategoryId", StrField, Nullable),
      FieldDecl("merchantId", StrField, Nullable),
      FieldDecl("originalMerchantId", StrField, Nullable),
      FieldDecl("userId", StrField, Required),
      FieldDecl("needsReview", BoolField, Required),
      FieldDecl("transactionTags", ListField, DefaultEmpty),
      FieldDecl("fileRecords", ListField, DefaultEmpty),
      FieldDecl("parentTransactionId", StrField, Nullable),
      FieldDecl("splits", AnyField, Nullable),
      FieldDecl("isManual", BoolField, Nullable),
      FieldDecl("isTransfer", BoolField, Nullable),
      FieldDecl("notes", StrField, Nullable),
      FieldDecl("archivedAt", DatetimeField, Nullable),
      FieldDecl("effectiveDate", DatetimeField, Nullable),
      FieldDecl("dataImportId", StrField, Nullable),
      FieldDecl("isPending", BoolField, Nullable),
      FieldDecl("pendingTransactionId", StrField, Nullable),
      FieldDecl("internalNotes", StrField, Nullable),
      FieldDecl("originalAccountId", StrField, Nullable)
    ]

  datatype ErrorKind = Missing | InvalidValue

  /** One failed field, located by its path of wire names. */
  datatype FieldError = FieldError(loc: seq<string>, kind: ErrorKind)

  /** Every field error of one record, in field declaration order. */
  datatype ValidationError = ValidationError(errors: seq<FieldError>)

  /** The wire names of the declared fields. */
  function KeysOf(fs: seq<FieldDecl>): set<string>
  {
    set i | 0 <= i < |fs| :: fs[i].key
  }

  /** The wire names of the required declarations. */
  function RequiredKeysOf(fs: seq<FieldDecl>): set<string>
  {
    set i | 0 <= i < |fs| && fs[i].presence == Required :: fs[i].key
  }

  const WireNames: set<string> := KeysOf(TransactionFields)

  const RequiredKeys: set<string> := RequiredKeysOf(TransactionFields)

  /** Puts `key` in front of the location of every error of a nested value. */
  function Under(key: string, errs: seq<FieldError>): (r: seq<FieldError>)
    ensures |r| == |errs|
    ensures forall k :: 0 <= k < |errs| ==> r[k] == FieldError([key] + errs[k].loc, errs[k].kind)
  {
    seq(|errs|, k requires 0 <= k < |errs| => FieldError([key] + errs[k].loc, errs[k].kind))
  }

  /** The errors of a required field of `Amount`, located relative to the `Amount` object. */
  function RequiredErrors(o: map<string, Json>, key: string, valid: bool): seq<FieldError>
  {
    if key !in o then [FieldError([key], Missing)]
    else if valid then []
    else [FieldError([key], InvalidValue)]
  }

  /** `Amount.model_validate`: the value must be an object holding both a `Decimal`
      `amount` and a string `currencyCode`. */
  function AmountErrors(v: Json, c: Coercion): (r: seq<FieldError>)
    ensures r == [] <==> v.JObj? && "amount" in v.fields && c.toDecimal(v.fields["amount"]).Some?
                         && "currencyCode" in v.fields && v.fields["currencyCode"].JStr?
    ensures forall e :: e in r && e.kind == Missing ==>
      v.JObj? && e.loc in [["amount"], ["currencyCode"]] && e.loc[0] !in v.fields
  {
    if !v.JObj? then [FieldError([], InvalidValue)]
    else
      var o := v.fields;
      RequiredErrors(o, "amount", "amount" in o && c.toDecimal(o["amount"]).Some?)
      + RequiredErrors(o, "currencyCode", "currencyCode" in o && o["currencyCode"].JStr?)
  }

  /** The errors of a present value of the given type, located relative to the value. */
  function ValueErrors(v: Json, ty: FieldType, c: Coercion): (r: seq<FieldError>)
    ensures forall e :: e in r && e.kind == Missing ==> ty == AmountField && |e.loc| == 1
  {
    match ty
    case StrField => if v.JStr? then [] else [FieldError([], InvalidValue)]
    case BoolField => if c.toBool(v).Some? then [] else [FieldError([], InvalidValue)]
    case DatetimeField => if c.toDatetime(v).Some? then [] else [FieldError([], InvalidValue)]
    case AmountField => AmountErrors(v, c)
    case AnyField => []
    case ListField => if v.JArr? then [] else [FieldError([], InvalidValue)]
  }

  /** The errors of one declared field of the object `o`: absent is an error only for a
      required field, `null` is accepted by an optional one, and any other value must
      validate against the declared type. */
  function DeclErrors(o: map<string, Json>, c: Coercion, f: FieldDecl): (r: seq<FieldError>)
    ensures forall e :: e in r ==> |e.loc| >= 1 && e.loc[0] == f.key
    ensures forall e :: e in r && e.kind == Missing && |e.loc| == 1 ==> f.presence == Required && f.key !in o
    ensures f.key !in o && f.presence == Required ==> FieldError([f.key], Missing) in r
  {
    if f.key !in o then (if f.presence == Required then [FieldError([f.key], Missing)] else [])
    else if f.presence == Nullable && o[f.key].JNull? then []
    else Under(f.key, ValueErrors(o[f.key], f.ty, c))
  }

  /** The errors of all the declared fields, in declaration order. */
  function FieldErrors(o: map<string, Json>, c: Coercion, fs: seq<FieldDecl>): (r: seq<FieldError>)
    ensures forall e :: e in r ==> |e.loc| >= 1 && e.loc[0] in KeysOf(fs)
  {
    if fs == [] then []
    else
      KeysOfCons(fs);
      DeclErrors(o, c, fs[0]) + FieldErrors(o, c, fs[1..])
  }

  /** No errors at all means no errors in any one declaration. */
  lemma {:induction false} NoFieldErrors(o: map<string, Json>, c: Coercion, fs: seq<FieldDecl>)
    requires FieldErrors(o, c, fs) == []
    ensures forall i :: 0 <= i < |fs| ==> DeclErrors(o, c, fs[i]) == []
  {
    if fs != [] {
      NoFieldErrors(o, c, fs[1..]);
      forall i | 0 < i < |fs| ensures DeclErrors(o, c, fs[i]) == [] {
        assert fs[i] == fs[1..][i - 1];
      }
    }
  }

  lemma RequiredKeysOfCons(fs: seq<FieldDecl>)
    requires fs != []
    ensures RequiredKeysOf(fs) == (if fs[0].presence == Required then {fs[0].key} else {}) + RequiredKeysOf(fs[1..])
  {
    var rest := RequiredKeysOf(fs[1..]);
    forall k | k in rest ensures k in RequiredKeysOf(fs) {
      var i :| 0 <= i < |fs[1..]| && fs[1..][i].presence == Required && fs[1..][i].key == k;
      assert fs[i + 1] == fs[1..][i];
    }
    forall k | k in RequiredKeysOf(fs) && !(fs[0].presence == Required && k == fs[0].key) ensures k in rest {
      var i :| 0 <= i < |fs| && fs[i].presence == Required && fs[i].key == k;
      assert i > 0;
      assert fs[1..][i - 1] == fs[i];
    }
  }

  lemma KeysOfCons(fs: seq<FieldDecl>)
    requires fs != []
    ensures KeysOf(fs) == {fs[0].key} + KeysOf(fs[1..])
  {
    var rest := KeysOf(fs[1..]);
    forall k | k in rest ensures k in KeysOf(fs) {
      var i :| 0 <= i < |fs[1..]| && fs[1..][i].key == k;
      assert fs[i + 1] == fs[1..][i];
    }
    forall k | k in KeysOf(fs) && k != fs[0].key ensures k in rest {
      var i :| 0 <= i < |fs| && fs[i].key == k;
      assert i > 0;
      assert fs[1..][i - 1] == fs[i];
    }
  }

  /** A top-level field is reported missing exactly when it is required and absent. */
  lemma {:induction false} MissingExactly(o: map<string, Json>, c: Coercion, fs: seq<FieldDecl>, key: string)
    ensures FieldError([key], Missing) in FieldErrors(o, c, fs) <==> key in RequiredKeysOf(fs) && key !in o
  {
    if fs != [] {
      MissingExactly(o, c, fs[1..], key);
      RequiredKeysOfCons(fs);
      var f := fs[0];
      if f.key == key && f.presence == Required && key !in o {
        assert FieldError([key], Missing) in DeclErrors(o, c, f);
      }
    }
  }

  /** Two objects that agree on the declared wire names have the same field errors. */
  lemma {:induction false} FieldErrorsReadOnlyKeys(o1: map<string, Json>, o2: map<string, Json>, c: Coercion, fs: seq<FieldDecl>)
    requires forall k :: k in KeysOf(fs) ==> (k in o1 <==> k in o2)
    requires forall k :: k in KeysOf(fs) && k in o1 ==> o1[k] == o2[k]
    ensures FieldErrors(o1, c, fs) == FieldErrors(o2, c, fs)
  {
    if fs != [] {
      KeysOfCons(fs);
      FieldErrorsReadOnlyKeys(o1, o2, c, fs[1..]);
    }
  }

  /** What an object without field errors holds, field by field: the fields `id` to `date`. */
  ghost predicate ReadableHead(o: map<string, Json>, c: Coercion)
  {
    && "id" in o && o["id"].JStr?
    && "createdAt" in o && c.toDatetime(o["createdAt"]).Some?
    && "updatedAt" in o && c.toDatetime(o["updatedAt"]).Some?
    && "description" in o && o["description"].JStr?
    && OptionalStrOk(o, "originalDescription")
    && "accountId" in o && o["accountId"].JStr?
    && "amount" in o && AmountErrors(o["amount"], c) == []
    && "date" in o && c.toDatetime(o["date"]).Some?
  }

  /** The fields `transactionCategoryId` to `fileRecords`. */
  ghost predicate ReadableMiddle(o: map<string, Json>, c: Coercion)
  {
    && OptionalStrOk(o, "transactionCategoryId")
    && OptionalStrOk(o, "originalTransactionCategoryId")
    && OptionalStrOk(o, "merchantId")
    && OptionalStrOk(o, "originalMerchantId")
    && "userId" in o && o["userId"].JStr?
    && "needsReview" in o && c.toBool(o["needsReview"]).Some?
    && ListOk(o, "transactionTags")
    && ListOk(o, "fileRecords")
  }

  /** The other optional fields, `parentTransactionId` to `originalAccountId`. */
  ghost predicate ReadableTail(o: map<string, Json>, c: Coercion)
  {
    && OptionalStrOk(o, "parentTransactionId")
    && OptionalOk(o, "isManual", c.toBool)
    && OptionalOk(o, "isTransfer", c.toBool)
    && OptionalStrOk(o, "notes")
    && OptionalOk(o, "archivedAt", c.toDatetime)
    && OptionalOk(o, "effectiveDate", c.toDatetime)
    && OptionalStrOk(o, "dataImportId")
    && OptionalOk(o, "isPending", c.toBool)
    && OptionalStrOk(o, "pendingTransactionId")
    && OptionalStrOk(o, "internalNotes")
    && OptionalStrOk(o, "originalAccountId")
  }

  ghost predicate OptionalStrOk(o: map<string, Json>, key: string)
  {
    key in o && !o[key].JNull? ==> o[key].JStr?
  }

  ghost predicate OptionalOk<T>(o: map<string, Json>, key: string, coerce: Json -> Option<T>)
  {
    key in o && !o[key].JNull? ==> coerce(o[key]).Some?
  }

  ghost predicate ListOk(o: map<string, Json>, key: string)
  {
    key in o ==> o[key].JArr?
  }

  lemma NoErrorsReadableHead(o: map<string, Json>, c: Coercion)
    requires forall i :: 0 <= i < |TransactionFields| ==> DeclErrors(o, c, TransactionFields[i]) == []
    ensures ReadableHead(o, c)
  {
    var fs := TransactionFields;
    assert DeclErrors(o, c, fs[0]) == [];
    assert DeclErrors(o, c, fs[1]) == [];
    assert DeclErrors(o, c, fs[2]) == [];
    assert DeclErrors(o, c, fs[3]) == [];
    assert DeclErrors(o, c, fs[4]) == [];
    assert DeclErrors(o, c, fs[5]) == [];
    assert DeclErrors(o, c, fs[6]) == [];
    assert DeclErrors(o, c, fs[7]) == [];
  }

  lemma NoErrorsReadableMiddle(o: map<string, Json>, c: Coercion)
    requires forall i :: 0 <= i < |TransactionFields| ==> DeclErrors(o, c, TransactionFields[i]) == []
    ensures ReadableMiddle(o, c)
  {
    var fs := TransactionFields;
    assert DeclErrors(o, c, fs[8]) == [];
    assert DeclErrors(o, c, fs[9]) == [];
    assert DeclErrors(o, c, fs[10]) == [];
    assert DeclErrors(o, c, fs[11]) == [];
    assert DeclErrors(o, c, fs[12]) == [];
    assert DeclErrors(o, c, fs[13]) == [];
    assert DeclErrors(o, c, fs[14]) == [];
    assert DeclErrors(o, c, fs[15]) == [];
  }

  lemma NoErrorsReadableTail(o: map<string, Json>, c: Coercion)
    requires forall i :: 0 <= i < |TransactionFields| ==> DeclErrors(o, c, TransactionFields[i]) == []
    ensures ReadableTail(o, c)
  {
    var fs := TransactionFields;
    assert DeclErrors(o, c, fs[16]) == [];
    assert DeclErrors(o, c, fs[17]) == [];
    assert DeclErrors(o, c, fs[18]) == [];
    assert DeclErrors(o, c, fs[19]) == [];
    assert DeclErrors(o, c, fs[20]) == [];
    assert DeclErrors(o, c, fs[21]) == [];
    assert DeclErrors(o, c, fs[22]) == [];
    assert DeclErrors(o, c, fs[23]) == [];
    assert DeclErrors(o, c, fs[24]) == [];
    assert DeclErrors(o, c, fs[25]) == [];
    assert DeclErrors(o, c, fs[26]) == [];
    assert DeclErrors(o, c, fs[27]) == [];
  }

  /** An object without field errors can be read field by field. */
  lemma NoErrorsReadable(o: map<string, Json>, c: Coercion)
    requires FieldErrors(o, c, TransactionFields) == []
    ensures ReadableHead(o, c) && ReadableMiddle(o, c) && ReadableTail(o, c)
  {
    NoFieldErrors(o, c, TransactionFields);
    NoErrorsReadableHead(o, c);
    NoErrorsReadableMiddle(o, c);
    NoErrorsReadableTail(o, c);
  }

  /** No errors in any one declaration means no errors at all. */
  lemma {:induction false} AllDeclOk(o: map<string, Json>, c: Coercion, fs: seq<FieldDecl>)
    requires forall i :: 0 <= i < |fs| ==> DeclErrors(o, c, fs[i]) == []
    ensures FieldErrors(o, c, fs) == []
  {
    if fs != [] {
      assert DeclErrors(o, c, fs[0]) == [];
      forall i | 0 <= i < |fs[1..]| ensures DeclErrors(o, c, fs[1..][i]) == [] {
        assert fs[1..][i] == fs[i + 1];
      }
      AllDeclOk(o, c, fs[1..]);
    }
  }

  /** An object that can be read field by field has no field errors. */
  lemma ReadableNoErrors(o: map<string, Json>, c: Coercion)
    requires ReadableHead(o, c) && ReadableMiddle(o, c) && ReadableTail(o, c)
    ensures FieldErrors(o, c, TransactionFields) == []
  {
    var fs := TransactionFields;
    forall i | 0 <= i < |fs| ensures DeclErrors(o, c, fs[i]) == [] {
      if i < 8 {} else if i < 16 {} else {}
    }
    AllDeclOk(o, c, fs);
  }

  /** The value under `key`, if the object has one. */
  function Lookup(o: map<string, Json>, key: string): Option<Json>
  {
    if key in o then Some(o[key]) else None
  }

  function ReadStr(v: Option<Json>): string
    requires v.Some? && v.value.JStr?
  {
    v.value.s
  }

  function ReadDatetime(v: Option<Json>, c: Coercion): Datetime
    requires v.Some? && c.toDatetime(v.value).Some?
  {
    c.toDatetime(v.value).value
  }

  function ReadBool(v: Option<Json>, c: Coercion): bool
    requires v.Some? && c.toBool(v.value).Some?
  {
    c.toBool(v.value).value
  }

  function ReadOptionalStr(v: Option<Json>): Option<string>
    requires v.Some? && !v.value.JNull? ==> v.value.JStr?
  {
    if v.None? || v.value.JNull? then None else Some(v.value.s)
  }

  function ReadOptionalDatetime(v: Option<Json>, c: Coercion): Option<Datetime>
    requires v.Some? && !v.value.JNull? ==> c.toDatetime(v.value).Some?
  {
    if v.None? || v.value.JNull? then None else c.toDatetime(v.value)
  }

  function ReadOptionalBool(v: Option<Json>, c: Coercion): Option<bool>
    requires v.Some? && !v.value.JNull? ==> c.toBool(v.value).Some?
  {
    if v.None? || v.value.JNull? then None else c.toBool(v.value)
  }

  function ReadAny(v: Option<Json>): Option<Json>
  {
    if v.None? || v.value.JNull? then None else v
  }

  function ReadList(v: Option<Json>): seq<Json>
    requires v.Some? ==> v.value.JArr?
  {
    if v.None? then [] else v.value.items
  }

  function ReadAmount(v: Option<Json>, c: Coercion): Amount
    requires v.Some? && AmountErrors(v.value, c) == []
  {
    var a := v.value.fields;
    Amount(c.toDecimal(a["amount"]).value, a["currencyCode"].s)
  }

  /** The record an object without field errors validates to. */
  function Build(o: map<string, Json>, c: Coercion): Transaction
    requires ReadableHead(o, c) && ReadableMiddle(o, c) && ReadableTail(o, c)
  {
    Transaction(
      ReadStr(Lookup(o, "id")),
      ReadDatetime(Lookup(o, "createdAt"), c),
      ReadDatetime(Lookup(o, "updatedAt"), c),
      ReadStr(Lookup(o, "description")),
      ReadOptionalStr(Lookup(o, "originalDescription")),
      ReadStr(Lookup(o, "accountId")),
      ReadAmount(Lookup(o, "amount"), c),
      ReadDatetime(Lookup(o, "date"), c),
      ReadOptionalStr(Lookup(o, "transactionCategoryId")),
      ReadOptionalStr(Lookup(o, "originalTransactionCategoryId")),
      ReadOptionalStr(Lookup(o, "merchantId")),
      ReadOptionalStr(Lookup(o, "originalMerchantId")),
      ReadStr(Lookup(o, "userId")),
      ReadBool(Lookup(o, "needsReview"), c),
      ReadList(Lookup(o, "transactionTags")),
      ReadList(Lookup(o, "fileRecords")),
      ReadOptionalStr(Lookup(o, "parentTransactionId")),
      ReadAny(Lookup(o, "splits")),
      ReadOptionalBool(Lookup(o, "isManual"), c),
      ReadOptionalBool(Lookup(o, "isTransfer"), c),
      ReadOptionalStr(Lookup(o, "notes")),
      ReadOptionalDatetime(Lookup(o, "archivedAt"), c),
      ReadOptionalDatetime(Lookup(o, "effectiveDate"), c),
      ReadOptionalStr(Lookup(o, "dataImportId")),
      ReadOptionalBool(Lookup(o, "isPending"), c),
      ReadOptionalStr(Lookup(o, "pendingTransactionId")),
      ReadOptionalStr(Lookup(o, "internalNotes")),
      ReadOptionalStr(Lookup(o, "originalAccountId")))
  }

  /** `Transaction.model_validate`: a record when no declared field has an error, otherwise
      the errors of every field, in declaration order. Only a JSON object can validate. */
  function Validate(v: Json, c: Coercion): (r: Result<Transaction, ValidationError>)
    ensures r.Success? ==> v.JObj? && RequiredKeys <= v.fields.Keys
    ensures r.Failure? ==> r.error.errors != []
  {
    if !v.JObj? then Failure(ValidationError([FieldError([], InvalidValue)]))
    else
      var errs := FieldErrors(v.fields, c, TransactionFields);
      if errs == [] then
        assert forall k :: k in RequiredKeys ==> k in v.fields by {
          forall k | k in RequiredKeys ensures k in v.fields {
            MissingExactly(v.fields, c, TransactionFields, k);
          }
        }
        NoErrorsReadable(v.fields, c);
        Success(Build(v.fields, c))
      else Failure(ValidationError(errs))
  }

  /** A required field is reported missing exactly when its wire name is absent. */
  lemma MissingRequiredReported(obj: map<string, Json>, c: Coercion, key: string)
    requires key in RequiredKeys
    ensures var r := Validate(JObj(obj), c);
      key !in obj <==> r.Failure? && FieldError([key], Missing) in r.error.errors
  {
    MissingExactly(obj, c, TransactionFields, key);
  }

  /** The errors of each declaration appear among the record's errors. */
  lemma {:induction false} DeclErrorsIncluded(o: map<string, Json>, c: Coercion, fs: seq<FieldDecl>, i: nat)
    requires i < |fs|
    ensures forall e :: e in DeclErrors(o, c, fs[i]) ==> e in FieldErrors(o, c, fs)
  {
    if i > 0 {
      DeclErrorsIncluded(o, c, fs[1..], i - 1);
    }
  }

  /** The missing key of a nested `amount` object is reported under `amount`. */
  lemma AmountMissingInDecl(obj: map<string, Json>, c: Coercion, key: string)
    requires key == "amount" || key == "currencyCode"
    requires "amount" in obj && obj["amount"].JObj? && key !in obj["amount"].fields
    ensures FieldError(["amount", key], Missing) in DeclErrors(obj, c, FieldDecl("amount", AmountField, Required))
  {
    var a := obj["amount"].fields;
    var errs := AmountErrors(obj["amount"], c);
    var k := if key == "amount" then 0 else |RequiredErrors(a, "amount", "amount" in a && c.toDecimal(a["amount"]).Some?)|;
    assert errs[k] == FieldError([key], Missing);
    assert DeclErrors(obj, c, FieldDecl("amount", AmountField, Required))[k] == FieldError(["amount", key], Missing);
  }

  /** A nested `amount` object without `amount` or without `currencyCode` fails the record,
      with the missing key reported under `amount`. */
  lemma AmountNeedsBothFields(obj: map<string, Json>, c: Coercion, key: string)
    requires key == "amount" || key == "currencyCode"
    requires "amount" in obj && obj["amount"].JObj? && key !in obj["amount"].fields
    ensures var r := Validate(JObj(obj), c);
      r.Failure? && FieldError(["amount", key], Missing) in r.error.errors
  {
    AmountMissingInDecl(obj, c, key);
    AmountDeclared();
    DeclErrorsIncluded(obj, c, TransactionFields, 6);
    ErrorsFailValidation(obj, c, FieldError(["amount", key], Missing));
  }

  lemma AmountDeclared()
    ensures 6 < |TransactionFields| && TransactionFields[6] == FieldDecl("amount", AmountField, Required)
  {
  }

  /** Every field error of an object is among the errors its validation fails with. */
  lemma ErrorsFailValidation(obj: map<string, Json>, c: Coercion, e: FieldError)
    requires e in FieldErrors(obj, c, TransactionFields)
    ensures var r := Validate(JObj(obj), c); r.Failure? && e in r.error.errors
  {
  }

  /** An object whose every declared field is present or absent as its declaration allows,
      and of its declared type, validates, to the record read field by field. */
  lemma WellFormedValidates(o: map<string, Json>, c: Coercion)
    requires ReadableHead(o, c) && ReadableMiddle(o, c) && ReadableTail(o, c)
    ensures Validate(JObj(o), c) == Success(Build(o, c))
  {
    ReadableNoErrors(o, c);
  }

  /** A validated record is the one built from the object's fields. */
  lemma ValidatedIsBuilt(obj: map<string, Json>, c: Coercion, t: Transaction)
    requires Validate(JObj(obj), c) == Success(t)
    ensures ReadableHead(obj, c) && ReadableMiddle(obj, c) && ReadableTail(obj, c)
    ensures t == Build(obj, c)
  {
    NoErrorsReadable(obj, c);
  }

  /** Absent optional text fields validate to None. */
  lemma AbsentTextFieldsDefault(obj: map<string, Json>, c: Coercion, t: Transaction)
    requires Validate(JObj(obj), c) == Success(t)
    ensures "originalDescription" !in obj ==> t.originalDescription == None
    ensures "transactionCategoryId" !in obj ==> t.transactionCategoryId == None
    ensures "originalTransactionCategoryId" !in obj ==> t.originalTransactionCategoryId == None
    ensures "merchantId" !in obj ==> t.merchantId == None
    ensures "originalMerchantId" !in obj ==> t.originalMerchantId == None
    ensures "parentTransactionId" !in obj ==> t.parentTransactionId == None
    ensures "notes" !in obj ==> t.notes == None
    ensures "dataImportId" !in obj ==> t.dataImportId == None
    ensures "pendingTransactionId" !in obj ==> t.pendingTransactionId == None
    ensures "internalNotes" !in obj ==> t.internalNotes == None
    ensures "originalAccountId" !in obj ==> t.originalAccountId == None
  {
    ValidatedIsBuilt(obj, c, t);
  }

  /** Absent optional flags, dates and `splits` validate to None, absent lists to empty. */
  lemma AbsentOtherFieldsDefault(obj: map<string, Json>, c: Coercion, t: Transaction)
    requires Validate(JObj(obj), c) == Success(t)
    ensures "transactionTags" !in obj ==> t.transactionTags == []
    ensures "fileRecords" !in obj ==> t.fileRecords == []
    ensures "splits" !in obj ==> t.splits == None
    ensures "isManual" !in obj ==> t.isManual == None
    ensures "isTransfer" !in obj ==> t.isTransfer == None
    ensures "archivedAt" !in obj ==> t.archivedAt == None
    ensures "effectiveDate" !in obj ==> t.effectiveDate == None
    ensures "isPending" !in obj ==> t.isPending == None
  {
    ValidatedIsBuilt(obj, c, t);
  }

  /** Every required field of a validated record comes from its camelCase wire name. */
  lemma FieldsReadFromWireNames(obj: map<string, Json>, c: Coercion, t: Transaction)
    requires Validate(JObj(obj), c) == Success(t)
    ensures {"id", "createdAt", "updatedAt", "description", "accountId", "amount", "date", "userId", "needsReview"} <= obj.Keys
    ensures obj["id"] == JStr(t.id)
    ensures c.toDatetime(obj["createdAt"]) == Some(t.createdAt)
    ensures c.toDatetime(obj["updatedAt"]) == Some(t.updatedAt)
    ensures obj["description"] == JStr(t.description)
    ensures obj["accountId"] == JStr(t.accountId)
    ensures obj["amount"].JObj? && {"amount", "currencyCode"} <= obj["amount"].fields.Keys
    ensures obj["amount"].fields["currencyCode"] == JStr(t.amount.currencyCode)
    ensures c.toDecimal(obj["amount"].fields["amount"]) == Some(t.amount.amount)
    ensures c.toDatetime(obj["date"]) == Some(t.date)
    ensures obj["userId"] == JStr(t.userId)
    ensures c.toBool(obj["needsReview"]) == Some(t.needsReview)
  {
    ValidatedIsBuilt(obj, c, t);
  }

  /** The fields `id`, `createdAt`, `updatedAt`, `description`, `accountId`, `amount`,
      `date`, `userId` and `needsReview` are required. */
  lemma NamedFieldsRequired()
    ensures {"id", "createdAt", "updatedAt", "description", "accountId", "amount", "date", "userId", "needsReview"} <= RequiredKeys
  {
    HeadFieldsRequired();
    OtherFieldsRequired();
  }

  lemma HeadFieldsRequired()
    ensures "id" in RequiredKeys && "createdAt" in RequiredKeys && "updatedAt" in RequiredKeys
    ensures "description" in RequiredKeys && "accountId" in RequiredKeys
  {
    var fs := TransactionFields;
    assert fs[0].key in RequiredKeys && fs[1].key in RequiredKeys && fs[2].key in RequiredKeys;
    assert fs[3].key in RequiredKeys && fs[5].key in RequiredKeys;
  }

  lemma OtherFieldsRequired()
    ensures "amount" in RequiredKeys && "date" in RequiredKeys
    ensures "userId" in RequiredKeys && "needsReview" in RequiredKeys
  {
    var fs := TransactionFields;
    assert fs[6].key in RequiredKeys && fs[7].key in RequiredKeys;
    assert fs[12].key in RequiredKeys && fs[13].key in RequiredKeys;
  }

  /** No other field is required. */
  lemma OnlyNamedFieldsRequired()
    ensures RequiredKeys <= {"id", "createdAt", "updatedAt", "description", "accountId", "amount", "date", "userId", "needsReview"}
  {
    var fs := TransactionFields;
    forall i | 0 <= i < |fs| && fs[i].presence == Required
      ensures fs[i].key in {"id", "createdAt", "updatedAt", "description", "accountId", "amount", "date", "userId", "needsReview"}
    {
      if i < 7 {} else if i < 14 {} else {}
    }
  }

  lemma SameHeadFields(o1: map<string, Json>, o2: map<string, Json>)
    requires forall k :: k in WireNames ==> Lookup(o1, k) == Lookup(o2, k)
    ensures Lookup(o1, "id") == Lookup(o2, "id")
    ensures Lookup(o1, "createdAt") == Lookup(o2, "createdAt")
    ensures Lookup(o1, "updatedAt") == Lookup(o2, "updatedAt")
    ensures Lookup(o1, "description") == Lookup(o2, "description")
    ensures Lookup(o1, "originalDescription") == Lookup(o2, "originalDescription")
    ensures Lookup(o1, "accountId") == Lookup(o2, "accountId")
    ensures Lookup(o1, "amount") == Lookup(o2, "amount")
  {
    var fs := TransactionFields;
    assert fs[0].key in WireNames;
    assert fs[1].key in WireNames;
    assert fs[2].key in WireNames;
    assert fs[3].key in WireNames;
    assert fs[4].key in WireNames;
    assert fs[5].key in WireNames;
    assert fs[6].key in WireNames;
  }

  lemma SameMiddleFields(o1: map<string, Json>, o2: map<string, Json>)
    requires forall k :: k in WireNames ==> Lookup(o1, k) == Lookup(o2, k)
    ensures Lookup(o1, "date") == Lookup(o2, "date")
    ensures Lookup(o1, "transactionCategoryId") == Lookup(o2, "transactionCategoryId")
    ensures Lookup(o1, "originalTransactionCategoryId") == Lookup(o2, "originalTransactionCategoryId")
    ensures Lookup(o1, "merchantId") == Lookup(o2, "merchantId")
    ensures Lookup(o1, "originalMerchantId") == Lookup(o2, "originalMerchantId")
    ensures Lookup(o1, "userId") == Lookup(o2, "userId")
    ensures Lookup(o1, "needsReview") == Lookup(o2, "needsReview")
  {
    var fs := TransactionFields;
    assert fs[7].key in WireNames;
    assert fs[8].key in WireNames;
    assert fs[9].key in WireNames;
    assert fs[10].key in WireNames;
    assert fs[11].key in WireNames;
    assert fs[12].key in WireNames;
    assert fs[13].key in WireNames;
  }

  lemma SameLaterFields(o1: map<string, Json>, o2: map<string, Json>)
    requires forall k :: k in WireNames ==> Lookup(o1, k) == Lookup(o2, k)
    ensures Lookup(o1, "transactionTags") == Lookup(o2, "transactionTags")
    ensures Lookup(o1, "fileRecords") == Lookup(o2, "fileRecords")
    ensures Lookup(o1, "parentTransactionId") == Lookup(o2, "parentTransactionId")
    ensures Lookup(o1, "splits") == Lookup(o2, "splits")
    ensures Lookup(o1, "isManual") == Lookup(o2, "isManual")
    ensures Lookup(o1, "isTransfer") == Lookup(o2, "isTransfer")
    ensures Lookup(o1, "notes") == Lookup(o2, "notes")
  {
    var fs := TransactionFields;
    assert fs[14].key in WireNames;
    assert fs[15].key in WireNames;
    assert fs[16].key in WireNames;
    assert fs[17].key in WireNames;
    assert fs[18].key in WireNames;
    assert fs[19].key in WireNames;
    assert fs[20].key in WireNames;
  }

  lemma SameTailFields(o1: map<string, Json>, o2: map<string, Json>)
    requires forall k :: k in WireNames ==> Lookup(o1, k) == Lookup(o2, k)
    ensures Lookup(o1, "archivedAt") == Lookup(o2, "archivedAt")
    ensures Lookup(o1, "effectiveDate") == Lookup(o2, "effectiveDate")
    ensures Lookup(o1, "dataImportId") == Lookup(o2, "dataImportId")
    ensures Lookup(o1, "isPending") == Lookup(o2, "isPending")
    ensures Lookup(o1, "pendingTransactionId") == Lookup(o2, "pendingTransactionId")
    ensures Lookup(o1, "internalNotes") == Lookup(o2, "internalNotes")
    ensures Lookup(o1, "originalAccountId") == Lookup(o2, "originalAccountId")
  {
    var fs := TransactionFields;
    assert fs[21].key in WireNames;
    assert fs[22].key in WireNames;
    assert fs[23].key in WireNames;
    assert fs[24].key in WireNames;
    assert fs[25].key in WireNames;
    assert fs[26].key in WireNames;
    assert fs[27].key in WireNames;
  }

  /** Keys other than the wire names, such as the snake_case field names, are ignored. */
  lemma OnlyWireNamesRead(o1: map<string, Json>, o2: map<string, Json>, c: Coercion)
    requires forall k :: k in WireNames ==> Lookup(o1, k) == Lookup(o2, k)
    ensures Validate(JObj(o1), c) == Validate(JObj(o2), c)
  {
    assert forall k :: k in WireNames ==> (k in o1 <==> k in o2) && (k in o1 ==> o1[k] == o2[k]) by {
      forall k | k in WireNames ensures (k in o1 <==> k in o2) && (k in o1 ==> o1[k] == o2[k]) {
        assert Lookup(o1, k) == Lookup(o2, k);
      }
    }
    FieldErrorsReadOnlyKeys(o1, o2, c, TransactionFields);
    SameHeadFields(o1, o2);
    SameMiddleFields(o1, o2);
    SameLaterFields(o1, o2);
    SameTailFields(o1, o2);
  }
}
