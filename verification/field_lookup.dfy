/**
 * The lookup half of `FieldLookupBackend`: splitting a query-string key into a
 * field path and a lookup operator, resolving the path against the model, and
 * converting the string value to what the ORM expects for that field and
 * operator (`get_fields_from_lookup`, `get_field_from_lookup`,
 * `to_python_related`, `value_to_python_for_field`, `value_to_python`,
 * `reserved_names`).
 *
 * Django's model introspection and field conversions are not modelled: the
 * `Schema` datatype carries them as given functions.
 */
module FieldLookup {
  import opened Options
  import opened Text

  /** SUPPORTED_LOOKUPS, in the order the backend lists them. */
  const SupportedLookups: seq<string> := [
    "exact", "iexact", "contains", "icontains", "startswith", "istartswith",
    "endswith", "iendswith", "regex", "iregex", "gt", "gte", "lt", "lte",
    "in", "isnull", "search"
  ]

  /** The names of related-model fields that `__search` looks into. */
  const SearchableNames: seq<string> := [
    "username", "first_name", "last_name", "email", "name", "description", "playbook"
  ]

  /** The class of a model field, as far as the backend tells them apart. */
  datatype FieldKind =
    | CharField      // CharField and its subclasses
    | TextField
    | IntegerField   // IntegerField and its subclasses
    | BooleanField
    | JsonField
    | RelationField  // ForeignKey, ManyToManyField, reverse relations, GenericForeignKey
    | OtherField
  {
    /** Membership in NO_DUPLICATES_ALLOW_LIST: filtering on it cannot duplicate rows. */
    predicate CannotDuplicate() {
      this == CharField || this == IntegerField || this == BooleanField || this == TextField
    }
  }

  /**
   * A model field: its name, its kind, and the names of the fields of its
   * related model (`related_model._meta.fields`), absent when it has none.
   */
  datatype Field = Field(name: string, kind: FieldKind, relatedFields: Option<seq<string>>)

  /** The fields traversed by a lookup path; never empty. */
  type FieldChain = s: seq<Field> | |s| > 0 witness [Field("id", IntegerField, None)]

  /** What `get_fields_from_path` gives back: the traversed fields and the canonical path, or its FieldError. */
  datatype Resolution = Resolved(fields: FieldChain, path: string) | Unresolvable(reason: string)

  /** A Python value handed to or produced by the conversions. */
  datatype Value =
    | Str(s: string)
    | Int(i: int)
    | Bool(b: bool)
    | NoneValue
    | List(items: seq<Value>)
    | AccessibleTo(role: string)   // the primary keys `accessible_pk_qs` yields for a role

  /** Query-string values are strings, or integers after the `__int` suffix. */
  predicate IsParam(v: Value) {
    v.Str? || v.Int?
  }

  /** Python truthiness of a parameter value. */
  predicate IsFalsy(v: Value)
    requires IsParam(v)
  {
    if v.Str? then v.s == "" else v.i == 0
  }

  /**
   * What the backend consults outside itself: path resolution on
   * `queryset.model` (with the JSON-as-text switch), `field.to_python`,
   * `to_python_boolean`, whether `re.compile` accepts a pattern, and whether the
   * model has `accessible_pk_qs`. A conversion that raises is `None`.
   */
  datatype Schema = Schema(
    resolve: (string, bool) -> Resolution,
    toPython: (Field, Value) -> Option<Value>,
    toBoolean: Value -> Option<bool>,
    regexCompiles: string -> bool,
    hasAccessiblePkQs: bool)

  /** The backend's configuration: the model it filters, and TREAT_JSONFIELD_AS_TEXT. */
  datatype Backend = Backend(schema: Schema, treatJsonAsText: bool)

  /** Exceptions that escape `filter_queryset` instead of turning into ParseError. */
  datatype Escape = AttributeError | IndexError | AssertionError | StopIteration | UnboundLocalError

  /** Why a filter could not be built. Every kind but `Uncaught` reaches the client as ParseError. */
  datatype Error =
    | FieldNameNotProvided
    | NotAscii(lookup: string)
    | Unresolved(reason: string)
    | InvalidRelatedId(fieldName: string, id: Value)
    | NotBoolean(given: Value)
    | Invalid(fieldName: string, given: Value)
    | EmptyIn
    | BadRegex(pattern: string)
    | RegexNotString
    | NotTextField(fieldName: string)
    | NotSearchable(prefix: string)
    | NotAnInteger(text: string)
    | NoRoleAccess
    | BoolNotCallable  // a TypeError, reported as ParseError("'bool' object is not callable")
    | UnhashableKey   // a list of lookups used as a filter keyword; never reached (see FilterCompiler.CompileNeverUnhashable)
    | Uncaught(escape: Escape)
  {
    predicate IsParseError() {
      !Uncaught?
    }
  }

  datatype Result<+T> = Ok(value: T) | Err(error: Error) {
    predicate IsFailure() {
      Err?
    }

    function PropagateFailure<U>(): Result<U>
      requires Err?
    {
      Err(error)
    }

    function Extract(): T
      requires Ok?
    {
      value
    }
  }

  /** A lookup resolved by `get_fields_from_lookup`: the traversed fields and the new lookup string. */
  datatype Found = Found(fields: FieldChain, lookup: string)

  /** The lookup `value_to_python` hands back: one key, or for `__search` one key per searchable field. */
  datatype LookupKey = Key(key: string) | SearchKeys(keys: seq<string>)

  /** The triple `value_to_python` returns. */
  datatype Converted = Converted(value: Value, lookup: LookupKey, needsDistinct: bool)

  // ---------------------------------------------------------------------------
  // Splitting a key into path and operator

  /** `s` ends with `__` followed by a supported lookup operator. */
  predicate EndsWithOperator(s: string) {
    exists op :: op in SupportedLookups && EndsWith(s, "__" + op)
  }

  /** A lookup operator: a non-empty word without underscores. */
  predicate IsOperatorWord(op: string) {
    |op| > 0 && '_' !in op
  }

  lemma SupportedIsOperatorWord(op: string)
    requires op in SupportedLookups
    ensures IsOperatorWord(op)
  {
  }

  /**
   * When `s` ends with `__op`, the last `__` in `s` is the one just before `op`:
   * no later pair of underscores can start inside `op`.
   */
  lemma {:induction false} LastSeparatorBeforeOperator(s: string, op: string)
    requires IsOperatorWord(op) && EndsWith(s, "__" + op)
    ensures FindLast(s, "__") == Some(|s| - |op| - 2)
  {
    var k := |s| - |op| - 2;
    var tail := s[k..];
    assert tail == "__" + op;
    assert s[k..k + 2] == tail[..2];
    assert OccursAt(s, "__", k);
    forall t | k + 2 <= t < |s| ensures s[t] != '_' {
      assert s[t] == tail[t - k] == op[t - k - 2];
    }
    var i := FindLast(s, "__").value;
    assert s[i + 1] == s[i..i + 2][1] == '_';
  }

  /** Two operator words that both end `s` after a `__` are the same word. */
  lemma {:induction false} OperatorSuffixUnique(s: string, a: string, b: string)
    requires IsOperatorWord(a) && IsOperatorWord(b)
    requires EndsWith(s, "__" + a) && EndsWith(s, "__" + b)
    ensures a == b
  {
    LastSeparatorBeforeOperator(s, a);
    LastSeparatorBeforeOperator(s, b);
    assert s[|s| - |a|..] == a && s[|s| - |b|..] == b;
  }

  /** A key that ends with a supported operator has it right after its last `__`. */
  lemma {:induction false} OperatorFollowsLastSeparator(lookup: string)
    ensures EndsWithOperator(lookup) ==>
      FindLast(lookup, "__").Some? && lookup[FindLast(lookup, "__").value + 2..] in SupportedLookups
  {
    if EndsWithOperator(lookup) {
      var op :| op in SupportedLookups && EndsWith(lookup, "__" + op);
      SupportedIsOperatorWord(op);
      LastSeparatorBeforeOperator(lookup, op);
      var i := |lookup| - |op| - 2;
      assert lookup[i..] == "__" + op;
      assert lookup[i + 2..] == lookup[i..][2..] == op;
    }
  }

  /** A supported operator after the last `__` of a key is one the key ends with. */
  lemma {:induction false} LastSeparatorBeforeSupported(lookup: string, i: nat)
    requires OccursAt(lookup, "__", i) && lookup[i + 2..] in SupportedLookups
    ensures EndsWithOperator(lookup)
  {
    var op := lookup[i + 2..];
    assert lookup[i..] == lookup[i..i + 2] + op;
    assert EndsWith(lookup, "__" + op);
  }

  /** A string is its part before `i`, its part from `i` to `j`, and the rest. */
  lemma SplitAround(s: string, i: nat, j: nat)
    requires i <= j <= |s|
    ensures s == s[..i] + s[i..j] + s[j..]
  {
    assert s[..j] == s[..i] + s[i..j];
  }

  /**
   * The string half of `get_fields_from_lookup`: split on the last `__` when
   * what follows it is a supported operator, otherwise the whole key is the
   * path and the operator is `exact`.
   */
  function SplitLookup(lookup: string): (r: (string, string))
    ensures r.1 in SupportedLookups
    ensures r == (lookup, "exact") || lookup == r.0 + "__" + r.1
  {
    match FindLast(lookup, "__")
    case Some(i) =>
      if lookup[i + 2..] in SupportedLookups then
        assert lookup[i..i + 2] == "__";
        SplitAround(lookup, i, i + 2);
        (lookup[..i], lookup[i + 2..])
      else
        (lookup, "exact")
    case None =>
      (lookup, "exact")
  }

  /**
   * A key is split exactly when it ends with `__` and a supported operator,
   * and then the operator is that one.
   */
  lemma SplitLookupOnOperator(lookup: string)
    ensures EndsWithOperator(lookup) ==> lookup == SplitLookup(lookup).0 + "__" + SplitLookup(lookup).1
    ensures !EndsWithOperator(lookup) ==> SplitLookup(lookup) == (lookup, "exact")
  {
    OperatorFollowsLastSeparator(lookup);
    match FindLast(lookup, "__")
    case Some(i) =>
      if lookup[i + 2..] in SupportedLookups {
        LastSeparatorBeforeSupported(lookup, i);
      }
    case None =>
  }

  /**
   * The new lookup is `path__op`, so testing it with `endswith("__x")` for an
   * operator word `x` is the same as asking whether the operator is `x`.
   */
  lemma {:induction false} ResolvedLookupEndsWith(path: string, op: string, x: string)
    requires IsOperatorWord(op) && IsOperatorWord(x)
    ensures EndsWith(path + "__" + op, "__" + x) <==> op == x
  {
    var s := path + "__" + op;
    assert s[|s| - |"__" + op|..] == "__" + op;
    assert EndsWith(s, "__" + op);
    if EndsWith(s, "__" + x) {
      OperatorSuffixUnique(s, op, x);
    }
  }

  /**
   * `get_fields_from_lookup`: split the key, refuse an empty path, resolve the
   * path and glue the operator back onto the resolved path.
   */
  function FieldsFromLookup(schema: Schema, treatJsonAsText: bool, lookup: string): Result<Found> {
    var (path, op) := SplitLookup(lookup);
    if path == "" then Err(FieldNameNotProvided)
    else
      match schema.resolve(path, treatJsonAsText)
      case Unresolvable(reason) => Err(Unresolved(reason))
      case Resolved(fields, newPath) => Ok(Found(fields, newPath + "__" + op))
  }

  /**
   * An empty path is refused before the model is consulted; otherwise the key
   * resolves exactly when its path does, and the new lookup is the resolved
   * path joined to the operator by `__`.
   */
  lemma FieldsFromLookupSpec(schema: Schema, treatJsonAsText: bool, lookup: string)
    ensures FieldsFromLookup(schema, treatJsonAsText, lookup) == Err(FieldNameNotProvided) <==>
      SplitLookup(lookup).0 == ""
    ensures FieldsFromLookup(schema, treatJsonAsText, lookup).Ok? <==>
      SplitLookup(lookup).0 != "" && schema.resolve(SplitLookup(lookup).0, treatJsonAsText).Resolved?
    ensures FieldsFromLookup(schema, treatJsonAsText, lookup).Ok? ==>
      var res := schema.resolve(SplitLookup(lookup).0, treatJsonAsText);
      var found := FieldsFromLookup(schema, treatJsonAsText, lookup).value;
      found.fields == res.fields && found.lookup == res.path + "__" + SplitLookup(lookup).1
  {
  }

  /** An empty field path is refused before the model is consulted, e.g. for `''` and `'__in'`. */
  lemma EmptyPathRefused(schema: Schema, treatJsonAsText: bool)
    ensures FieldsFromLookup(schema, treatJsonAsText, "") == Err(FieldNameNotProvided)
    ensures FieldsFromLookup(schema, treatJsonAsText, "__in") == Err(FieldNameNotProvided)
  {
    var s := "__in";
    assert OccursAt(s, "__", 0);
    assert s[1..3][1] == 'i' && s[2..4][0] == 'i';
    assert !OccursAt(s, "__", 1) && !OccursAt(s, "__", 2);
    assert FindLast(s, "__") == Some(0);
    assert s[2..] == "in";
  }

  /** `get_field_from_lookup`: the last traversed field together with the new lookup. */
  function FieldFromLookup(schema: Schema, treatJsonAsText: bool, lookup: string): (r: Result<(Field, string)>)
    ensures r.Ok? <==> FieldsFromLookup(schema, treatJsonAsText, lookup).Ok?
    ensures r.Ok? ==>
      var found := FieldsFromLookup(schema, treatJsonAsText, lookup).value;
      r.value.0 == found.fields[|found.fields| - 1] && r.value.1 == found.lookup
  {
    var found :- FieldsFromLookup(schema, treatJsonAsText, lookup);
    Ok((found.fields[|found.fields| - 1], found.lookup))
  }

  // ---------------------------------------------------------------------------
  // Converting values

  /** `force_str` of a parameter value. */
  function ForceStr(v: Value): string
    requires IsParam(v)
  {
    if v.Str? then v.s else IntToString(v.i)
  }

  /** `value.lower() in ('none', 'null')`. */
  predicate IsNullWord(s: string) {
    Lower(s) == "none" || Lower(s) == "null"
  }

  /**
   * `to_python_related`: `none`/`null` in any letter case is the absent id,
   * anything else must parse as an integer; `None` stands for the ValueError.
   */
  function ToPythonRelated(v: Value): Option<Value>
    requires IsParam(v)
  {
    var text := ForceStr(v);
    if IsNullWord(text) then Some(NoneValue)
    else
      match ParseInt(text)
      case Some(n) => Some(Int(n))
      case None => None
  }

  /** The text of an integer ends in a digit, so it is never `none` or `null`. */
  lemma IntToStringNotNullWord(i: int)
    ensures !IsNullWord(IntToString(i))
  {
    var s := IntToString(i);
    if i < 0 {
      NatToStringDigits(-i);
    } else {
      NatToStringDigits(i);
    }
    assert IsDigit(s[|s| - 1]);
    assert Lower(s)[|s| - 1] == s[|s| - 1];
  }

  /**
   * A related id is absent exactly for `none`/`null` in any letter case, is
   * the number for numeric text, and an integer given after `__int` comes
   * back unchanged.
   */
  lemma RelatedIdConversion(v: Value)
    requires IsParam(v)
    ensures ToPythonRelated(v) == Some(NoneValue) <==> IsNullWord(ForceStr(v))
    ensures !IsNullWord(ForceStr(v)) ==>
      (ToPythonRelated(v).Some? <==> ParseInt(ForceStr(v)).Some?) &&
      (ToPythonRelated(v).Some? ==> ToPythonRelated(v).value == Int(ParseInt(ForceStr(v)).value))
    ensures v.Int? ==> ToPythonRelated(v) == Some(v)
  {
    if v.Int? {
      IntToStringRoundTrip(v.i);
      IntToStringNotNullWord(v.i);
    }
  }

  /** `value_to_python_for_field`: boolean, related-id, or the field's own conversion. */
  function ValueForField(schema: Schema, field: Field, v: Value): Result<Value>
    requires IsParam(v)
  {
    match field.kind
    case BooleanField =>
      (match schema.toBoolean(v)
       case Some(b) => Ok(Bool(b))
       case None => Err(NotBoolean(v)))
    case RelationField =>
      (match ToPythonRelated(v)
       case Some(x) => Ok(x)
       case None => Err(InvalidRelatedId(field.name, v)))
    case _ =>
      (match schema.toPython(field, v)
       case Some(x) => Ok(x)
       case None => Err(Invalid(field.name, v)))
  }

  /**
   * A relation field turns `none`/`null` into the absent id and numeric text
   * into its number; anything else is refused with the field's name and the
   * value as given.
   */
  lemma RelationFieldConversion(schema: Schema, field: Field, v: Value)
    requires IsParam(v) && field.kind == RelationField
    ensures IsNullWord(ForceStr(v)) ==> ValueForField(schema, field, v) == Ok(NoneValue)
    ensures !IsNullWord(ForceStr(v)) && ParseInt(ForceStr(v)).Some? ==>
      ValueForField(schema, field, v) == Ok(Int(ParseInt(ForceStr(v)).value))
    ensures !IsNullWord(ForceStr(v)) && ParseInt(ForceStr(v)).None? ==>
      ValueForField(schema, field, v) == Err(InvalidRelatedId(field.name, v))
    ensures v.Int? ==> ValueForField(schema, field, v) == Ok(v)
  {
    RelatedIdConversion(v);
  }

  /** The first `__in` item that fails to convert, if any. */
  predicate FirstFailure(schema: Schema, field: Field, parts: seq<string>, k: int) {
    0 <= k < |parts| && ValueForField(schema, field, Str(parts[k])).Err? &&
    forall j :: 0 <= j < k ==> ValueForField(schema, field, Str(parts[j])).Ok?
  }

  /**
   * The items of an `__in` list converted one by one, stopping at the first
   * that fails.
   */
  function ConvertItems(schema: Schema, field: Field, parts: seq<string>): (r: Result<seq<Value>>)
    ensures r.Ok? ==> |r.value| == |parts|
    ensures r.Ok? ==> forall k :: 0 <= k < |parts| ==> ValueForField(schema, field, Str(parts[k])) == Ok(r.value[k])
  {
    if parts == [] then Ok([])
    else
      var n := |parts| - 1;
      var xs :- ConvertItems(schema, field, parts[..n]);
      var x :- ValueForField(schema, field, Str(parts[n]));
      Ok(xs + [x])
  }

  /** A failed `__in` list reports the error of its first item that does not convert. */
  lemma {:induction false} ConvertItemsFirstFailure(schema: Schema, field: Field, parts: seq<string>)
    ensures ConvertItems(schema, field, parts).Err? ==>
      exists k :: FirstFailure(schema, field, parts, k) &&
                  ValueForField(schema, field, Str(parts[k])) == Err(ConvertItems(schema, field, parts).error)
  {
    if parts != [] {
      var n := |parts| - 1;
      var init := parts[..n];
      ConvertItemsFirstFailure(schema, field, init);
      match ConvertItems(schema, field, init)
      case Err(e) =>
        assert ConvertItems(schema, field, parts) == Err(e);
        var k :| FirstFailure(schema, field, init, k) && ValueForField(schema, field, Str(init[k])) == Err(e);
        assert FirstFailure(schema, field, parts, k) by {
          forall j | 0 <= j <= k ensures parts[j] == init[j] {
          }
        }
      case Ok(xs) =>
        var last := ValueForField(schema, field, Str(parts[n]));
        if last.Err? {
          assert ConvertItems(schema, field, parts) == Err(last.error);
          assert FirstFailure(schema, field, parts, n) by {
            forall j | 0 <= j < n ensures ValueForField(schema, field, Str(parts[j])).Ok? {
              assert parts[j] == init[j];
            }
          }
        }
    }
  }

  /** The related-model field names that `__search` looks into, in their order. */
  function SearchableOf(names: seq<string>): (r: seq<string>)
    ensures forall x :: x in r <==> x in names && x in SearchableNames
  {
    if names == [] then []
    else
      SearchableOf(names[..|names| - 1]) +
      (if names[|names| - 1] in SearchableNames then [names[|names| - 1]] else [])
  }

  /**
   * `SearchableOf` is the order-keeping filter on the allow-list: it maps a
   * concatenation to the concatenation of the parts, and keeps a single name
   * exactly when the name is allowed. So the searchable names come in the
   * order of the related model's fields, each as often as it occurs there.
   */
  lemma {:induction false} SearchableOfIsFilter(a: seq<string>, b: seq<string>, name: string)
    ensures SearchableOf(a + b) == SearchableOf(a) + SearchableOf(b)
    ensures SearchableOf([name]) == if name in SearchableNames then [name] else []
    decreases |b|
  {
    if b != [] {
      var init := b[..|b| - 1];
      var last := b[|b| - 1];
      SearchableOfIsFilter(a, init, name);
      assert (a + b)[..|a + b| - 1] == a + init;
      assert (a + b)[|a + b| - 1] == last;
    } else {
      assert a + b == a;
    }
    assert [name][..0] == [];
  }

  /** The `new_lookups` of a `__search`: one `<prefix>__<name>__icontains` per searchable name. */
  function SearchLookups(prefix: string, names: seq<string>): (r: seq<string>)
    ensures |r| == |SearchableOf(names)|
    ensures forall k :: 0 <= k < |r| ==> r[k] == prefix + "__" + SearchableOf(names)[k] + "__icontains"
  {
    if names == [] then []
    else
      var last := names[|names| - 1];
      SearchLookups(prefix, names[..|names| - 1]) +
      (if last in SearchableNames then [prefix + "__" + last + "__icontains"] else [])
  }

  /** The NO_DUPLICATES_ALLOW_LIST test: some traversed field may duplicate rows. */
  predicate NeedsDistinct(fields: seq<Field>) {
    exists i :: 0 <= i < |fields| && !fields[i].kind.CannotDuplicate()
  }

  /** `__iexact` applies to text fields, and to JSON fields only when they are not treated as text. */
  predicate IexactAllowed(kind: FieldKind, treatJsonAsText: bool) {
    kind == CharField || kind == TextField || (kind == JsonField && !treatJsonAsText)
  }

  /** The lookup after the JSON-as-text rename of the default branch. */
  function TextCastLookup(treatJsonAsText: bool, field: Field, lookup: string): string {
    if treatJsonAsText && field.kind == JsonField then
      ReplaceAll(lookup, field.name, field.name + "_as_txt")
    else lookup
  }

  /** The branch of `value_to_python` a resolved lookup takes. */
  datatype Branch =
    | PolymorphicModel
    | IsNullTest
    | InList
    | RegexMatch
    | CaseInsensitive
    | RelatedSearch(prefix: string)   // the lookup without its `__search`
    | FieldConversion

  /** The tests of `value_to_python` on the new lookup, in their order; the first that holds wins. */
  function BranchOf(newLookup: string): Branch {
    if StartsWith(newLookup, "polymorphic_ctype__model") then PolymorphicModel
    else if EndsWith(newLookup, "__isnull") then IsNullTest
    else if EndsWith(newLookup, "__in") then InList
    else if EndsWith(newLookup, "__regex") || EndsWith(newLookup, "__iregex") then RegexMatch
    else if EndsWith(newLookup, "__iexact") then CaseInsensitive
    else if EndsWith(newLookup, "__search") then RelatedSearch(newLookup[..|newLookup| - 8])
    else FieldConversion
  }

  /** The branch each operator leads to, away from polymorphic type names. */
  function OperatorBranch(path: string, op: string): Branch {
    match op
    case "isnull" => IsNullTest
    case "in" => InList
    case "regex" => RegexMatch
    case "iregex" => RegexMatch
    case "iexact" => CaseInsensitive
    case "search" => RelatedSearch(path)
    case _ => FieldConversion
  }

  /** `ResolvedLookupEndsWith` for a suffix given whole, as the `endswith` tests of `value_to_python` write it. */
  lemma SuffixTest(path: string, op: string, suffix: string)
    requires IsOperatorWord(op) && |suffix| > 2 && suffix[..2] == "__" && IsOperatorWord(suffix[2..])
    ensures EndsWith(path + "__" + op, suffix) <==> op == suffix[2..]
  {
    assert suffix == "__" + suffix[2..];
    ResolvedLookupEndsWith(path, op, suffix[2..]);
  }

  /**
   * On a resolved lookup `path__op` the suffix tests of `value_to_python` pick
   * out exactly the operator: `__in` is never mistaken for part of `__isnull`,
   * nor `__regex` for `__iregex`.
   */
  lemma SuffixTestsAreOperators(path: string, op: string)
    requires IsOperatorWord(op)
    ensures EndsWith(path + "__" + op, "__isnull") <==> op == "isnull"
    ensures EndsWith(path + "__" + op, "__in") <==> op == "in"
    ensures EndsWith(path + "__" + op, "__regex") <==> op == "regex"
    ensures EndsWith(path + "__" + op, "__iregex") <==> op == "iregex"
    ensures EndsWith(path + "__" + op, "__iexact") <==> op == "iexact"
    ensures EndsWith(path + "__" + op, "__search") <==> op == "search"
  {
    assert EndsWith(path + "__" + op, "__isnull") <==> op == "isnull" by {
      SuffixTest(path, op, "__isnull");
    }
    assert EndsWith(path + "__" + op, "__in") <==> op == "in" by {
      SuffixTest(path, op, "__in");
    }
    assert EndsWith(path + "__" + op, "__regex") <==> op == "regex" by {
      SuffixTest(path, op, "__regex");
    }
    assert EndsWith(path + "__" + op, "__iregex") <==> op == "iregex" by {
      SuffixTest(path, op, "__iregex");
    }
    assert EndsWith(path + "__" + op, "__iexact") <==> op == "iexact" by {
      SuffixTest(path, op, "__iexact");
    }
    assert EndsWith(path + "__" + op, "__search") <==> op == "search" by {
      SuffixTest(path, op, "__search");
    }
  }

  /** Away from polymorphic type names, the branch taken is the one the operator names. */
  lemma BranchOfOperator(path: string, op: string)
    requires IsOperatorWord(op)
    requires !StartsWith(path + "__" + op, "polymorphic_ctype__model")
    ensures BranchOf(path + "__" + op) == OperatorBranch(path, op)
  {
    SuffixTestsAreOperators(path, op);
    if op == "search" {
      var s := path + "__" + op;
      assert s[..|s| - 8] == path;
    }
  }

  /**
   * The value and lookup `value_to_python` gives for the resolved lookup
   * `newLookup` whose last field is `field`, as the branch of `newLookup` says.
   */
  function ConvertFor(b: Backend, field: Field, newLookup: string, v: Value): Result<(Value, LookupKey)>
    requires IsParam(v)
  {
    match BranchOf(newLookup)
    case PolymorphicModel =>
      if v.Str? then Ok((Str(ReplaceAll(v.s, "_", "")), Key(newLookup)))
      else Err(Uncaught(AttributeError))
    case IsNullTest =>
      (match b.schema.toBoolean(v)
       case Some(x) => Ok((Bool(x), Key(newLookup)))
       case None => Err(NotBoolean(v)))
    case InList =>
      if IsFalsy(v) then Err(EmptyIn)
      else if v.Int? then Err(Uncaught(AttributeError))
      else
        var items :- ConvertItems(b.schema, field, Split(v.s, ","));
        Ok((List(items), Key(newLookup)))
    case RegexMatch =>
      if v.Int? then Err(RegexNotString)
      else if b.schema.regexCompiles(v.s) then Ok((v, Key(newLookup)))
      else Err(BadRegex(v.s))
    case CaseInsensitive =>
      if IexactAllowed(field.kind, b.treatJsonAsText) then Ok((v, Key(newLookup)))
      else Err(NotTextField(field.name))
    case RelatedSearch(prefix) =>
      (match field.relatedFields
       case None => Err(NotSearchable(prefix))
       case Some(names) => Ok((v, SearchKeys(SearchLookups(prefix, names)))))
    case FieldConversion =>
      var x :- ValueForField(b.schema, field, v);
      Ok((x, Key(TextCastLookup(b.treatJsonAsText, field, newLookup))))
  }

  /**
   * `value_to_python`: refuse a non-ASCII key, resolve it, convert the value
   * for the last field reached, and say whether the join needs `distinct()`.
   */
  function LookupValue(b: Backend, lookup: string, v: Value): Result<Converted>
    requires IsParam(v)
  {
    if !IsAscii(lookup) then Err(NotAscii(lookup))
    else
      var found :- FieldsFromLookup(b.schema, b.treatJsonAsText, lookup);
      ConvertFound(b, found, v)
  }

  /** `value_to_python` once the key has resolved: convert for the last field and report `needs_distinct`. */
  function ConvertFound(b: Backend, found: Found, v: Value): Result<Converted>
    requires IsParam(v)
  {
    var field := found.fields[|found.fields| - 1];
    var converted :- ConvertFor(b, field, found.lookup, v);
    Ok(Converted(converted.0, converted.1, NeedsDistinct(found.fields)))
  }

  // ---------------------------------------------------------------------------
  // What `value_to_python` promises

  /** The fields and new lookup of a key that resolves. */
  function ResolvedOf(b: Backend, lookup: string): Found
    requires FieldsFromLookup(b.schema, b.treatJsonAsText, lookup).Ok?
  {
    FieldsFromLookup(b.schema, b.treatJsonAsText, lookup).value
  }

  /** The last field a resolved key reaches. */
  function TargetOf(b: Backend, lookup: string): Field
    requires FieldsFromLookup(b.schema, b.treatJsonAsText, lookup).Ok?
  {
    var fields := ResolvedOf(b, lookup).fields;
    fields[|fields| - 1]
  }

  /**
   * A key that is not ASCII is refused before anything else, and a key that
   * does not resolve gives its resolution error.
   */
  lemma LookupValueRefusals(b: Backend, lookup: string, v: Value)
    requires IsParam(v)
    ensures !IsAscii(lookup) ==> LookupValue(b, lookup, v) == Err(NotAscii(lookup))
    ensures IsAscii(lookup) && FieldsFromLookup(b.schema, b.treatJsonAsText, lookup).Err? ==>
      LookupValue(b, lookup, v) == Err(FieldsFromLookup(b.schema, b.treatJsonAsText, lookup).error)
    ensures LookupValue(b, lookup, v).Ok? ==>
      IsAscii(lookup) && FieldsFromLookup(b.schema, b.treatJsonAsText, lookup).Ok?
  {
  }

  /**
   * A key that resolves has its value converted for the last field reached
   * under the lookup `path__op`, and the result needs `distinct()` exactly
   * when some traversed field is outside NO_DUPLICATES_ALLOW_LIST.
   */
  lemma LookupValueDispatch(b: Backend, lookup: string, v: Value)
    requires IsParam(v) && IsAscii(lookup) && FieldsFromLookup(b.schema, b.treatJsonAsText, lookup).Ok?
    ensures ResolvedOf(b, lookup).lookup ==
      b.schema.resolve(SplitLookup(lookup).0, b.treatJsonAsText).path + "__" + SplitLookup(lookup).1
    ensures
      var c := ConvertFor(b, TargetOf(b, lookup), ResolvedOf(b, lookup).lookup, v);
      (c.Err? ==> LookupValue(b, lookup, v) == Err(c.error)) &&
      (c.Ok? ==> LookupValue(b, lookup, v) == Ok(Converted(c.value.0, c.value.1, NeedsDistinct(ResolvedOf(b, lookup).fields))))
  {
    FieldsFromLookupSpec(b.schema, b.treatJsonAsText, lookup);
    assert LookupValue(b, lookup, v) == ConvertFound(b, ResolvedOf(b, lookup), v);
  }

  /** Polymorphic type names are matched with their underscores dropped; an integer has no `replace`. */
  lemma PolymorphicModelValue(b: Backend, field: Field, newLookup: string, v: Value)
    requires IsParam(v) && StartsWith(newLookup, "polymorphic_ctype__model")
    ensures v.Str? ==> ConvertFor(b, field, newLookup, v) == Ok((Str(Without(v.s, '_')), Key(newLookup)))
    ensures v.Int? ==> ConvertFor(b, field, newLookup, v) == Err(Uncaught(AttributeError))
  {
    if v.Str? {
      ReplaceCharByNothing(v.s, '_');
    }
  }

  /** The lookup `path__op` outside the polymorphic-type case. */
  predicate PlainLookup(path: string, op: string) {
    !StartsWith(path + "__" + op, "polymorphic_ctype__model")
  }

  /** `__isnull` takes a boolean, as `to_python_boolean` reads it. */
  lemma IsNullValue(b: Backend, field: Field, path: string, v: Value)
    requires IsParam(v) && PlainLookup(path, "isnull")
    ensures ConvertFor(b, field, path + "__isnull", v) ==
      match b.schema.toBoolean(v)
      case Some(x) => Ok((Bool(x), Key(path + "__isnull")))
      case None => Err(NotBoolean(v))
  {
    assert path + "__isnull" == path + "__" + "isnull";
    BranchOfOperator(path, "isnull");
    assert BranchOf(path + "__isnull") == IsNullTest;
  }

  /**
   * `__in` refuses an empty value, splits the rest on commas and converts every
   * item for the target field, failing on the first item that does not convert.
   */
  lemma InListValue(b: Backend, field: Field, path: string, v: Value)
    requires IsParam(v) && PlainLookup(path, "in")
    ensures IsFalsy(v) ==> ConvertFor(b, field, path + "__in", v) == Err(EmptyIn)
    ensures !IsFalsy(v) && v.Int? ==> ConvertFor(b, field, path + "__in", v) == Err(Uncaught(AttributeError))
    ensures !IsFalsy(v) && v.Str? ==>
      (var items := ConvertItems(b.schema, field, Split(v.s, ","));
       (items.Ok? ==> ConvertFor(b, field, path + "__in", v) == Ok((List(items.value), Key(path + "__in")))) &&
       (items.Err? ==> ConvertFor(b, field, path + "__in", v) == Err(items.error)))
  {
    assert path + "__in" == path + "__" + "in";
    BranchOfOperator(path, "in");
    assert BranchOf(path + "__in") == InList;
  }

  /** `__regex` and `__iregex` pass a string pattern through when it compiles. */
  lemma RegexValue(b: Backend, field: Field, path: string, op: string, v: Value)
    requires IsParam(v) && (op == "regex" || op == "iregex") && PlainLookup(path, op)
    ensures ConvertFor(b, field, path + "__" + op, v).Ok? <==> v.Str? && b.schema.regexCompiles(v.s)
    ensures v.Int? ==> ConvertFor(b, field, path + "__" + op, v) == Err(RegexNotString)
    ensures v.Str? && !b.schema.regexCompiles(v.s) ==> ConvertFor(b, field, path + "__" + op, v) == Err(BadRegex(v.s))
    ensures ConvertFor(b, field, path + "__" + op, v).Ok? ==>
      ConvertFor(b, field, path + "__" + op, v).value == (v, Key(path + "__" + op))
  {
    BranchOfOperator(path, op);
    assert BranchOf(path + "__" + op) == RegexMatch;
  }

  /** `__iexact` is allowed on text fields only, and leaves the value alone. */
  lemma IexactValue(b: Backend, field: Field, path: string, v: Value)
    requires IsParam(v) && PlainLookup(path, "iexact")
    ensures IexactAllowed(field.kind, b.treatJsonAsText) ==>
      ConvertFor(b, field, path + "__iexact", v) == Ok((v, Key(path + "__iexact")))
    ensures !IexactAllowed(field.kind, b.treatJsonAsText) ==>
      ConvertFor(b, field, path + "__iexact", v) == Err(NotTextField(field.name))
  {
    assert path + "__iexact" == path + "__" + "iexact";
    BranchOfOperator(path, "iexact");
    assert BranchOf(path + "__iexact") == CaseInsensitive;
  }

  /**
   * `__search` on a relation expands to one `icontains` key per searchable
   * field of the related model, under the resolved path; a field without a
   * related model is not searchable.
   */
  lemma SearchValue(b: Backend, field: Field, path: string, v: Value)
    requires IsParam(v) && PlainLookup(path, "search")
    ensures field.relatedFields.None? ==>
      ConvertFor(b, field, path + "__search", v) == Err(NotSearchable(path))
    ensures field.relatedFields.Some? ==>
      ConvertFor(b, field, path + "__search", v) == Ok((v, SearchKeys(SearchLookups(path, field.relatedFields.value))))
  {
    assert path + "__search" == path + "__" + "search";
    BranchOfOperator(path, "search");
    assert BranchOf(path + "__search") == RelatedSearch(path);
  }

  /** The operators `value_to_python` treats specially. */
  predicate SpecialOperator(op: string) {
    op == "isnull" || op == "in" || op == "regex" || op == "iregex" || op == "iexact" || op == "search"
  }

  /** Only `__search` turns one key into several. */
  lemma SearchKeysOnlyForSearch(b: Backend, field: Field, path: string, op: string, v: Value)
    requires IsParam(v) && IsOperatorWord(op) && PlainLookup(path, op)
    ensures (ConvertFor(b, field, path + "__" + op, v).Ok? &&
             ConvertFor(b, field, path + "__" + op, v).value.1.SearchKeys?) ==> op == "search"
  {
    BranchOfOperator(path, op);
  }

  /** `value_to_python` itself never fails on an unhashable key: that can only happen to its caller. */
  lemma {:induction false} ConvertItemsNeverUnhashable(schema: Schema, field: Field, parts: seq<string>)
    ensures ConvertItems(schema, field, parts) != Err(UnhashableKey)
    decreases |parts|
  {
    if parts != [] {
      ConvertItemsNeverUnhashable(schema, field, parts[..|parts| - 1]);
    }
  }

  lemma ConvertForNeverUnhashable(b: Backend, field: Field, newLookup: string, v: Value)
    requires IsParam(v)
    ensures ConvertFor(b, field, newLookup, v) != Err(UnhashableKey)
  {
    if v.Str? {
      ConvertItemsNeverUnhashable(b.schema, field, Split(v.s, ","));
    }
  }

  lemma LookupValueNeverUnhashable(b: Backend, lookup: string, v: Value)
    requires IsParam(v)
    ensures LookupValue(b, lookup, v) != Err(UnhashableKey)
  {
    if IsAscii(lookup) && FieldsFromLookup(b.schema, b.treatJsonAsText, lookup).Ok? {
      var found := ResolvedOf(b, lookup);
      ConvertForNeverUnhashable(b, found.fields[|found.fields| - 1], found.lookup, v);
      assert LookupValue(b, lookup, v) == ConvertFound(b, found, v);
    }
  }

  /** The `__search` branch hands the value back unchanged beside its lookups. */
  lemma ConvertForSearchKeepsValue(b: Backend, field: Field, newLookup: string, v: Value)
    requires IsParam(v) && ConvertFor(b, field, newLookup, v).Ok? && ConvertFor(b, field, newLookup, v).value.1.SearchKeys?
    ensures ConvertFor(b, field, newLookup, v).value.0 == v
  {
  }

  /** When `value_to_python` gives a list of lookups, it gives the value back unchanged with it. */
  lemma SearchKeysKeepValue(b: Backend, lookup: string, v: Value)
    requires IsParam(v) && LookupValue(b, lookup, v).Ok? && LookupValue(b, lookup, v).value.lookup.SearchKeys?
    ensures LookupValue(b, lookup, v).value.value == v
  {
    var found := ResolvedOf(b, lookup);
    assert LookupValue(b, lookup, v) == ConvertFound(b, found, v);
    ConvertForSearchKeepsValue(b, found.fields[|found.fields| - 1], found.lookup, v);
  }

  /** Only the `__search` branch yields several lookups. */
  lemma SearchKeysFromSearchBranch(b: Backend, field: Field, newLookup: string, v: Value)
    requires IsParam(v) && ConvertFor(b, field, newLookup, v).Ok? && ConvertFor(b, field, newLookup, v).value.1.SearchKeys?
    ensures EndsWith(newLookup, "__search")
  {
  }

  /** A key turns into several lookups only when it ends with `__search` itself. */
  lemma OnlySearchKeysFanOut(b: Backend, lookup: string, v: Value)
    requires IsParam(v) && LookupValue(b, lookup, v).Ok? && LookupValue(b, lookup, v).value.lookup.SearchKeys?
    ensures EndsWith(lookup, "__search")
  {
    LookupValueRefusals(b, lookup, v);
    LookupValueDispatch(b, lookup, v);
    var newLookup := ResolvedOf(b, lookup).lookup;
    var c := ConvertFor(b, TargetOf(b, lookup), newLookup, v);
    assert c.Ok? && c.value.1 == LookupValue(b, lookup, v).value.lookup;
    SearchKeysFromSearchBranch(b, TargetOf(b, lookup), newLookup, v);
    var split := SplitLookup(lookup);
    SearchOperatorOfKey(b.schema.resolve(split.0, b.treatJsonAsText).path, split.1);
    assert lookup == split.0 + "__search";
  }

  /** A resolved lookup ending with `__search` has `search` for operator. */
  lemma SearchOperatorOfKey(resolved: string, op: string)
    requires op in SupportedLookups && EndsWith(resolved + "__" + op, "__search")
    ensures op == "search"
  {
    SupportedIsOperatorWord(op);
    SuffixTest(resolved, op, "__search");
  }

  /**
   * Every other operator converts the value for the target field, and a JSON
   * field treated as text is filtered through its `_as_txt` annotation.
   */
  lemma FieldValue(b: Backend, field: Field, path: string, op: string, v: Value)
    requires IsParam(v) && IsOperatorWord(op) && !SpecialOperator(op) && PlainLookup(path, op)
    ensures ConvertFor(b, field, path + "__" + op, v).Ok? <==> ValueForField(b.schema, field, v).Ok?
    ensures ValueForField(b.schema, field, v).Err? ==>
      ConvertFor(b, field, path + "__" + op, v) == Err(ValueForField(b.schema, field, v).error)
    ensures ValueForField(b.schema, field, v).Ok? ==>
      ConvertFor(b, field, path + "__" + op, v) ==
      Ok((ValueForField(b.schema, field, v).value, Key(TextCastLookup(b.treatJsonAsText, field, path + "__" + op))))
  {
    assert OperatorBranch(path, op) == FieldConversion;
    BranchOfOperator(path, op);
    assert BranchOf(path + "__" + op) == FieldConversion;
  }

  /** Once an item of an `__in` list fails, the items after it change nothing. */
  lemma {:induction false} ConvertItemsErrorSticks(schema: Schema, field: Field, parts: seq<string>, k: nat)
    requires k <= |parts| && ConvertItems(schema, field, parts[..k]).Err?
    ensures ConvertItems(schema, field, parts) == ConvertItems(schema, field, parts[..k])
    decreases |parts|
  {
    if k < |parts| {
      var init := parts[..|parts| - 1];
      assert init[..k] == parts[..k];
      ConvertItemsErrorSticks(schema, field, init, k);
    } else {
      assert parts[..k] == parts;
    }
  }

  // ---------------------------------------------------------------------------
  // `value_to_python` as the backend runs it

  /** The loop over the items of an `__in` list, stopping at the first that fails. */
  method ConvertInItems(schema: Schema, field: Field, parts: seq<string>) returns (r: Result<seq<Value>>)
    ensures r == ConvertItems(schema, field, parts)
  {
    var items: seq<Value> := [];
    var j := 0;
    while j < |parts|
      invariant 0 <= j <= |parts|
      invariant ConvertItems(schema, field, parts[..j]) == Ok(items)
    {
      var item := ValueForField(schema, field, Str(parts[j]));
      assert parts[..j + 1][..j] == parts[..j];
      if item.Err? {
        ConvertItemsErrorSticks(schema, field, parts, j + 1);
        return Err(item.error);
      }
      items := items + [item.value];
      j := j + 1;
    }
    assert parts[..j] == parts;
    r := Ok(items);
  }

  /** The loop that gathers `new_lookups` from the related model's fields. */
  method CollectSearchLookups(prefix: string, names: seq<string>) returns (newLookups: seq<string>)
    ensures newLookups == SearchLookups(prefix, names)
  {
    newLookups := [];
    var j := 0;
    while j < |names|
      invariant 0 <= j <= |names|
      invariant newLookups == SearchLookups(prefix, names[..j])
    {
      assert names[..j + 1][..j] == names[..j];
      if names[j] in SearchableNames {
        newLookups := newLookups + [prefix + "__" + names[j] + "__icontains"];
      }
      j := j + 1;
    }
    assert names[..j] == names;
  }

  /**
   * The branch of `value_to_python` after the key has resolved, with the
   * `__in` items and the `__search` keys gathered in loops.
   */
  method ConvertValue(b: Backend, field: Field, newLookup: string, v: Value) returns (converted: Result<(Value, LookupKey)>)
    requires IsParam(v)
    ensures converted == ConvertFor(b, field, newLookup, v)
  {
    var branch := BranchOf(newLookup);
    if branch == InList && !IsFalsy(v) && v.Str? {
      var items := ConvertInItems(b.schema, field, Split(v.s, ","));
      converted := if items.Err? then Err(items.error) else Ok((List(items.value), Key(newLookup)));
    } else if branch.RelatedSearch? && field.relatedFields.Some? {
      var newLookups := CollectSearchLookups(branch.prefix, field.relatedFields.value);
      converted := Ok((v, SearchKeys(newLookups)));
    } else {
      converted := ConvertFor(b, field, newLookup, v);
    }
  }

  /** `value_to_python`: the ASCII check, the resolution, then the conversion. */
  method ValueToPython(b: Backend, lookup: string, v: Value) returns (r: Result<Converted>)
    requires IsParam(v)
    ensures r == LookupValue(b, lookup, v)
  {
    if !IsAscii(lookup) {
      return Err(NotAscii(lookup));
    }
    var resolved := FieldsFromLookup(b.schema, b.treatJsonAsText, lookup);
    if resolved.Err? {
      return Err(resolved.error);
    }
    var found := resolved.value;
    assert LookupValue(b, lookup, v) == ConvertFound(b, found, v);
    var field := found.fields[|found.fields| - 1];
    var converted := ConvertValue(b, field, found.lookup, v);
    r := if converted.Err? then Err(converted.error)
         else Ok(Converted(converted.value.0, converted.value.1, NeedsDistinct(found.fields)));
  }

  /** `reserved_names`: the names from the settings, with the view's own added when it declares any. */
  function ReservedNames(settingsNames: seq<string>, viewNames: Option<seq<string>>): (r: set<string>)
    ensures forall x :: x in r <==> x in settingsNames || (viewNames.Some? && x in viewNames.value)
  {
    var fromSettings := set x | x in settingsNames;
    match viewNames
    case None => fromSettings
    case Some(names) => fromSettings + set x | x in names
  }
}
