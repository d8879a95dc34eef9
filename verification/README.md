# Query-string filtering and authenticator plugin logic, modelled in Dafny

This project models two parts of a Django REST framework support library.

**The field-lookup filter backend (`FieldLookupBackend`).** It reads the
query string of a list request and turns it into filters on a queryset.

- Each parameter key names a model path and, optionally, an operator from a
  fixed allow-list (`name__icontains`, `owner__id__in`, …).
- Keys may carry the custom markers `__int`, `chain__`, `or__` and `not__`, and
  the special keys `role_level` and `…__search`.
- Each value is converted for the model field the path reaches.
- The terms are collected into AND, OR, chain, role and search groups.
- The groups become `annotate`, `filter` and `distinct` calls, in a fixed order.

The model has three modules:

- `Text` (`text.dfy`) gives the Python string builtins the backend uses, over
  `seq<char>`.
- `FieldLookup` (`field_lookup.dfy`) covers lookup splitting and resolution,
  value conversion and `reserved_names`.
- `FilterCompiler` (`filter_compiler.dfy`) covers `filter_queryset`. Its
  specification functions `Collect` (the parameter loop) and `Assemble` (the
  queryset calls) come with the lemmas that state what they promise. Its
  methods run the same loops step by step and are proved equal to those
  functions, or, for the assembly, to `AssembleAsWritten`. That function is
  `Assemble` except for what the role refusal raises (see "## Findings").

**Authenticator plugins (`AuthenticatorPlugins`, `authenticator_plugins.dfy`).**

- The schema a configuration serializer publishes for the UI.
- The check a plugin applies to a configuration.
- How a plugin tracks the `Authenticator` row it was loaded from. The
  plugin's mutable state (`database_instance`, `settings`, `logger`) is a
  class whose methods update it.

What the code consults outside itself is passed in as data:

- Model introspection: `Schema.resolve`, the result of
  `get_fields_from_path`.
- Field conversion: `Schema.toPython`, `Schema.toBoolean`.
- Whether a regular expression compiles: `Schema.regexCompiles`.
- Whether the model has `accessible_pk_qs`.
- The serializer's `get_fields()` and `is_valid()`.
- `reverse()`.

Every error is an `Err` value. `Error.IsParseError` says which of them reach
the client as a ParseError. The exceptions that escape the handler are
`Err(Uncaught(…))`: AttributeError, IndexError, AssertionError, StopIteration
and, in the code as written, UnboundLocalError.

## Model

| member | source | states |
|---|---|---|
| FieldLookup.SplitLookup | ansible_base/rest_filters/rest_framework/field_lookup_backend.py:53-58 | The operator is always in SUPPORTED_LOOKUPS. Either the key is kept whole with `exact`, or the key is exactly `path__op`. |
| FieldLookup.SplitLookupOnOperator | ansible_base/rest_filters/rest_framework/field_lookup_backend.py:53-58 | A key is split exactly when it ends with `__` plus a supported operator, and then the operator is that suffix. Otherwise the whole key is the path and the operator is `exact`. |
| FieldLookup.FieldsFromLookupSpec | ansible_base/rest_filters/rest_framework/field_lookup_backend.py:53-70 | An empty path is refused with "field name not provided". Otherwise the key resolves exactly when its path does. The traversed fields are the resolver's, and the new lookup is `resolved_path__op`. |
| FieldLookup.EmptyPathRefused | ansible_base/rest_filters/rest_framework/field_lookup_backend.py:60-61 | The keys `''` and `'__in'` are both refused before the model is consulted. |
| FieldLookup.FieldFromLookup | ansible_base/rest_filters/rest_framework/field_lookup_backend.py:72-75 | Succeeds exactly when `get_fields_from_lookup` does. It gives the last traversed field and the same new lookup. |
| FieldLookup.RelatedIdConversion | ansible_base/rest_filters/rest_framework/field_lookup_backend.py:77-82 | The id is absent exactly for `none`/`null` in any letter case. Other text converts exactly when it parses as an integer, and then to that integer. An integer comes back unchanged (`int(str(i)) == i`). |
| FieldLookup.SearchKeysKeepValue | ansible_base/rest_filters/rest_framework/field_lookup_backend.py:129-137 | When `value_to_python` gives a list of search lookups, the value it gives back is the value it was given. |
| FieldLookup.RelationFieldConversion | ansible_base/rest_filters/rest_framework/field_lookup_backend.py:84-94 | For a relation field: the null words give None, numeric text gives its number, and anything else is the "Invalid <field> id" error naming the field and the value. |
| FieldLookup.ConvertItems | ansible_base/rest_filters/rest_framework/field_lookup_backend.py:115-120 | A converted `__in` list has one item per comma-separated part. Item k is the field conversion of part k. |
| FieldLookup.ConvertItemsFirstFailure | ansible_base/rest_filters/rest_framework/field_lookup_backend.py:115-120 | A failed `__in` list reports the error of the first part that does not convert, and every earlier part converts. |
| FieldLookup.SearchableOf | ansible_base/rest_filters/rest_framework/field_lookup_backend.py:134-136 | Keeps exactly the related-model fields whose names are in the seven-name allow-list. |
| FieldLookup.SearchableOfIsFilter | ansible_base/rest_filters/rest_framework/field_lookup_backend.py:134-136 | The searchable names are the field names filtered in place. A concatenation maps to the concatenation of its parts, and a single name is kept exactly when it is in the allow-list. So order and repeats follow the model's fields. |
| FieldLookup.SearchLookups | ansible_base/rest_filters/rest_framework/field_lookup_backend.py:133-137 | One `<prefix>__<name>__icontains` per searchable name, entry k built from name k of `SearchableOf`. |
| FieldLookup.SuffixTestsAreOperators | ansible_base/rest_filters/rest_framework/field_lookup_backend.py:112-129 | On a resolved `path__op`, each `endswith('__x')` test holds exactly when the operator is `x`. So `__in` is never confused with `__isnull`, nor `__regex` with `__iregex`. |
| FieldLookup.BranchOfOperator | ansible_base/rest_filters/rest_framework/field_lookup_backend.py:110-142 | Away from `polymorphic_ctype__model`, the first-match-wins if-chain takes the branch that the operator names. |
| FieldLookup.LookupValueRefusals | ansible_base/rest_filters/rest_framework/field_lookup_backend.py:96-102 | A non-ASCII key is refused before any resolution. A resolution error is passed on unchanged. Success implies an ASCII key that resolves. |
| FieldLookup.LookupValueDispatch | ansible_base/rest_filters/rest_framework/field_lookup_backend.py:102-105 | For a resolved key, the value is converted for the last traversed field under `resolved_path__op`. `needs_distinct` holds exactly when some traversed field is outside NO_DUPLICATES_ALLOW_LIST. |
| FieldLookup.PolymorphicModelValue | ansible_base/rest_filters/rest_framework/field_lookup_backend.py:110-111 | Under `polymorphic_ctype__model`, a string value loses every underscore and nothing else. An integer value fails with AttributeError. |
| FieldLookup.IsNullValue | ansible_base/rest_filters/rest_framework/field_lookup_backend.py:112-113 | `__isnull` gives the boolean `to_python_boolean` reads, or its error. |
| FieldLookup.InListValue | ansible_base/rest_filters/rest_framework/field_lookup_backend.py:114-120 | `__in` refuses a falsy value. An integer has no `split`. Otherwise the result is the list of converted items, or the error of the first item that fails. |
| FieldLookup.RegexValue | ansible_base/rest_filters/rest_framework/field_lookup_backend.py:121-125 | `__regex`/`__iregex` succeed exactly for a string pattern that compiles, and then keep value and lookup. A pattern that does not compile and a non-string are refused. |
| FieldLookup.IexactValue | ansible_base/rest_filters/rest_framework/field_lookup_backend.py:126-128 | `__iexact` is accepted exactly on Char/Text fields, and on JSON fields when TREAT_JSONFIELD_AS_TEXT is off. Otherwise it is refused, naming the field. |
| FieldLookup.SearchValue | ansible_base/rest_filters/rest_framework/field_lookup_backend.py:129-137 | `__search` on a field without a related model is refused, naming the path. Otherwise it gives the value with the list of `icontains` lookups. |
| FieldLookup.SearchKeysOnlyForSearch | ansible_base/rest_filters/rest_framework/field_lookup_backend.py:129-142 | Only the `search` operator yields a list of lookups. |
| FieldLookup.OnlySearchKeysFanOut | ansible_base/rest_filters/rest_framework/field_lookup_backend.py:96-137 | `value_to_python` returns a list of lookups only for a key that itself ends with `__search`. |
| FieldLookup.FieldValue | ansible_base/rest_filters/rest_framework/field_lookup_backend.py:138-142 | Every other operator succeeds exactly when the field conversion does, and gives its value. A JSON field treated as text is renamed to `<name>_as_txt` in the lookup. |
| FieldLookup.LookupValueNeverUnhashable | ansible_base/rest_filters/rest_framework/field_lookup_backend.py:96-142 | No error that `value_to_python` raises is the unhashable-key failure of its caller. |
| FieldLookup.ConvertInItems | ansible_base/rest_filters/rest_framework/field_lookup_backend.py:115-120 | The `__in` item loop computes exactly `ConvertItems`. |
| FieldLookup.CollectSearchLookups | ansible_base/rest_filters/rest_framework/field_lookup_backend.py:133-136 | The `new_lookups` loop computes exactly `SearchLookups`. |
| FieldLookup.ConvertValue | ansible_base/rest_filters/rest_framework/field_lookup_backend.py:110-142 | The branch code, with its loops, computes exactly the branch specification `ConvertFor`. |
| FieldLookup.ValueToPython | ansible_base/rest_filters/rest_framework/field_lookup_backend.py:96-142 | `value_to_python` as written computes exactly `LookupValue`, whose properties the lemmas above state. |
| FieldLookup.ReservedNames | ansible_base/rest_filters/rest_framework/field_lookup_backend.py:144-153 | A name is reserved exactly when the settings list it or the view declares it. |
| FilterCompiler.Disjunction | ansible_base/rest_filters/rest_framework/field_lookup_backend.py:256-263 | The condition the or-assignment fold builds: the empty `Q()` for no conditions, otherwise the disjunction of exactly those conditions. The fold itself is stated by `OrTerms` and `OrSearch`. |
| FilterCompiler.StripInt | ansible_base/rest_filters/rest_framework/field_lookup_backend.py:185-189 | The int flag is set exactly when the key ends with `__int`, and the key is the stripped key plus `__int`. Otherwise the key is unchanged. |
| FilterCompiler.RouteKey | ansible_base/rest_filters/rest_framework/field_lookup_backend.py:210-225 | Chain exactly when the key starts with `chain__`. OR exactly when it starts with `or__` but not `chain__`. Negated exactly when `not__` follows the bucket prefix. The key is prefix, then `not__` if negated, then the lookup. |
| FilterCompiler.FirstEndingWith | ansible_base/rest_filters/rest_framework/field_lookup_backend.py:235 | Gives the first segment that ends with `_as_txt`: no segment before it does. None only when no segment does. |
| FilterCompiler.TextAnnotation | ansible_base/rest_filters/rest_framework/field_lookup_backend.py:234-236 | No annotation exactly when the new lookup has no `_as_txt`. An annotation's alias is the first `__` segment of the lookup that ends with `_as_txt`, and its cast column is the alias without `_as_txt`. When no segment ends with `_as_txt`, `next()` raises StopIteration. |
| FilterCompiler.AnnotationOf | ansible_base/rest_filters/rest_framework/field_lookup_backend.py:234-236 | Finding the `_as_txt` segment step by step computes exactly `TextAnnotation`. |
| FilterCompiler.PutSearchSpec | ansible_base/rest_filters/rest_framework/field_lookup_backend.py:204 | Dict assignment: the term then maps to the new lookups, and every entry with another term is kept. Nothing else is added, and terms stay unique. |
| FilterCompiler.SplitAllJoin | ansible_base/rest_filters/rest_framework/field_lookup_backend.py:200 | Splitting every value on commas loses no text: the pieces joined with commas are the values joined with commas. No piece holds a comma. |
| FilterCompiler.ParamValue | ansible_base/rest_filters/rest_framework/field_lookup_backend.py:228-230 | Without `__int` the value is the raw text unchanged. With `__int` it succeeds exactly when the text parses as an integer, and gives that integer. Otherwise the error names the text. |
| FilterCompiler.ParamValueOfPrintedInt | ansible_base/rest_filters/rest_framework/field_lookup_backend.py:228-230 | The text `str(i)` of any integer passes the `__int` conversion as `i`. |
| FilterCompiler.TermFoldFilesEveryValue | ansible_base/rest_filters/rest_framework/field_lookup_backend.py:228-242 | Each value of an ordinary key adds exactly one term at the end of the one list its prefix names. Other lists, roles and search state are untouched. Annotations are only appended, at most one per value. `needs_distinct` is never cleared. |
| FilterCompiler.TermFoldTerms | ansible_base/rest_filters/rest_framework/field_lookup_backend.py:228-242 | The k-th term the value loop adds to its bucket is the term of the k-th value. That term is the `not__` flag with the new lookup and value `value_to_python` gives for that value, after `int()` under `__int`. |
| FilterCompiler.StepFacts | ansible_base/rest_filters/rest_framework/field_lookup_backend.py:169-242 | One loop turn. A reserved key changes nothing at all. `role_level` appends its first value to the roles and changes nothing else. Only a `__search` key with a comma in its first value switches to AND, and every `__search` key sets `needs_distinct`. Only ordinary keys add terms, one per value. |
| FilterCompiler.RelationIsAnd | ansible_base/rest_filters/rest_framework/field_lookup_backend.py:197-200 | After the loop the relation is AND exactly when some unreserved `__search` parameter has a comma in its first value. |
| FilterCompiler.SearchValueRead | ansible_base/rest_filters/rest_framework/field_lookup_backend.py:197-204 | After the loop, the search dict is non-empty exactly when some unreserved `__search` parameter has a value, that is exactly when the search loop's assignment to `_` ran. |
| FilterCompiler.SearchMakesDistinct | ansible_base/rest_filters/rest_framework/field_lookup_backend.py:197-208 | Any unreserved `__search` parameter leaves `needs_distinct` set. |
| FilterCompiler.AnnotationsNeedTerms | ansible_base/rest_filters/rest_framework/field_lookup_backend.py:234-242 | There are never more `_as_txt` annotations than recorded terms. |
| FilterCompiler.NoFiltersNoCalls | ansible_base/rest_filters/rest_framework/field_lookup_backend.py:245-285 | With no recorded filter, the queryset is returned unchanged: no calls at all. |
| FilterCompiler.ReservedParamSkipped | ansible_base/rest_filters/rest_framework/field_lookup_backend.py:170-171 | Inserting a parameter with a reserved key anywhere does not change the outcome. |
| FilterCompiler.CompileNeverUnhashable | ansible_base/rest_filters/rest_framework/field_lookup_backend.py:169-242 | The filter is never built with a list of lookups as a keyword, because only `__search` keys give such lists and those never reach the term lists. |
| FilterCompiler.TermLeaves | ansible_base/rest_filters/rest_framework/field_lookup_backend.py:247-251 | One condition per AND term, negated where the term is. |
| FilterCompiler.RoleLeaves | ansible_base/rest_filters/rest_framework/field_lookup_backend.py:252-255 | One `pk__in` condition per role name, in order. |
| FilterCompiler.EntryLeaves | ansible_base/rest_filters/rest_framework/field_lookup_backend.py:266-268 | The conditions the inner search loop or-assigns for one entry: one per lookup, each matched against the entry's term. The loop itself is stated by `OrSearch`. |
| FilterCompiler.SearchFilters | ansible_base/rest_filters/rest_framework/field_lookup_backend.py:270-275 | In AND mode, one filter per search term, each the disjunction over that term's lookups. |
| FilterCompiler.ChainFilters | ansible_base/rest_filters/rest_framework/field_lookup_backend.py:276-281 | One filter per chain term, negated where the term is. |
| FilterCompiler.AnnotateCalls | ansible_base/rest_filters/rest_framework/field_lookup_backend.py:236 | One `annotate` per recorded annotation, in order. |
| FilterCompiler.AssembleRefusal | ansible_base/rest_filters/rest_framework/field_lookup_backend.py:252-254 | The intended assembly fails exactly when a role filter meets a model without `accessible_pk_qs`, and then with the role ParseError. |
| FilterCompiler.RoleRefusalAsWritten | ansible_base/rest_filters/rest_framework/field_lookup_backend.py:254 | As written, the role refusal is a ParseError exactly when a search value was read, and then it is "'bool' object is not callable". Otherwise it is an UnboundLocalError. It is never the role message. |
| FilterCompiler.AssembleAsWritten | ansible_base/rest_filters/rest_framework/field_lookup_backend.py:245-284 | As written, the assembly fails exactly when a role filter meets a model without `accessible_pk_qs`, with the as-written refusal. Otherwise it makes exactly the calls of `Assemble`. |
| FilterCompiler.CompileAsWrittenAgrees | ansible_base/rest_filters/rest_framework/field_lookup_backend.py:155-289 | `filter_queryset` as written (`CompileAsWritten`) succeeds exactly when `Compile` does, with the same calls, and fails with the same error when the parameter loop fails. The two differ only in the role refusal, which raises `RoleRefusalAsWritten` instead of the role ParseError. |
| FilterCompiler.RoleRefusalDiscrepancy | ansible_base/rest_filters/rest_framework/field_lookup_backend.py:254 | For `role_level=admin` alone on a model without `accessible_pk_qs`, the intended outcome is the role ParseError. The code as written raises an UnboundLocalError, which is not a ParseError. |
| FilterCompiler.AssembleDistinct | ansible_base/rest_filters/rest_framework/field_lookup_backend.py:245-284 | `distinct()` is called exactly when some filter was recorded and `needs_distinct` is set, and it is the last call. |
| FilterCompiler.AssembleOrder | ansible_base/rest_filters/rest_framework/field_lookup_backend.py:245-284 | The calls come in this order: annotations, then the AND-mode search filters, then one filter per chain term, then the one main filter, then `distinct()` when flagged. |
| FilterCompiler.MainArgsLayout | ansible_base/rest_filters/rest_framework/field_lookup_backend.py:246-269 | The main filter holds, in order: every AND term; one `pk__in` per role; one disjunction of all OR terms if there are any; and, in OR mode, one disjunction of all search lookups. |
| FilterCompiler.SearchLeavesCover | ansible_base/rest_filters/rest_framework/field_lookup_backend.py:264-269 | The OR-mode search disjunction contains a condition for every (term, lookup) pair, and no other. |
| FilterCompiler.SearchQueryIsDistinct | ansible_base/rest_filters/rest_framework/field_lookup_backend.py:197-284 | When the query records a filter, any `__search` parameter makes `distinct()` the last call. |
| FilterCompiler.FileConverted | ansible_base/rest_filters/rest_framework/field_lookup_backend.py:231-242 | Filing one converted value step by step computes exactly `FileTerm`. |
| FilterCompiler.RecordValue | ansible_base/rest_filters/rest_framework/field_lookup_backend.py:228-242 | One value of an ordinary key, step by step, computes exactly `AddTerm`. |
| FilterCompiler.RecordValues | ansible_base/rest_filters/rest_framework/field_lookup_backend.py:228-242 | The value loop of an ordinary key computes exactly `TermFold`. |
| FilterCompiler.RecordSearch | ansible_base/rest_filters/rest_framework/field_lookup_backend.py:201-204 | The `__search` value loop computes exactly `SearchFold`, whose contents `SearchFoldRecords` states. |
| FilterCompiler.SearchFoldRecords | ansible_base/rest_filters/rest_framework/field_lookup_backend.py:201-204 | After the value loop, every value read has an entry whose term is that value and whose lookups are the `icontains` lookups `value_to_python` gives it. Every other entry is one that was there before, with a term that is none of the values read. Terms stay unique. |
| FilterCompiler.StepSearchRecords | ansible_base/rest_filters/rest_framework/field_lookup_backend.py:197-208 | A `__search` turn reads the key's values, comma-split in AND mode, and records each of them as `SearchFoldRecords` says. It switches to AND exactly in AND mode and sets `needs_distinct`; roles, terms and annotations are unchanged. |
| FilterCompiler.StepKeepsDistinct | ansible_base/rest_filters/rest_framework/field_lookup_backend.py:169-242 | No loop turn makes two search entries share a term. |
| FilterCompiler.CollectDistinctSearch | ansible_base/rest_filters/rest_framework/field_lookup_backend.py:169-242 | The search dict built by the parameter loop never holds a term twice, as a Python dict cannot. |
| FilterCompiler.SplitValues | ansible_base/rest_filters/rest_framework/field_lookup_backend.py:200 | The comma-splitting of AND-mode search values computes exactly `SplitAll`. |
| FilterCompiler.HandleParam | ansible_base/rest_filters/rest_framework/field_lookup_backend.py:169-242 | One turn of the loop, as written, computes exactly `Step`. |
| FilterCompiler.OrTerms | ansible_base/rest_filters/rest_framework/field_lookup_backend.py:256-263 | The or-assignment loop over OR terms gives the disjunction of their conditions. |
| FilterCompiler.OrSearch | ansible_base/rest_filters/rest_framework/field_lookup_backend.py:264-269 | The nested or-assignment loop over search entries gives the disjunction of every search condition. |
| FilterCompiler.BuildArgs | ansible_base/rest_filters/rest_framework/field_lookup_backend.py:246-269 | Building `args` fails exactly when a role filter meets a model without `accessible_pk_qs`, with the error the code as written raises (`RoleRefusalAsWritten`). Otherwise it gives `MainArgs`. |
| FilterCompiler.AndSearch | ansible_base/rest_filters/rest_framework/field_lookup_backend.py:270-275 | The AND-mode loop makes exactly the calls `SearchFilters` lists. |
| FilterCompiler.BuildFilters | ansible_base/rest_filters/rest_framework/field_lookup_backend.py:245-284 | The assembly as written computes exactly `AssembleAsWritten`. |
| FilterCompiler.FilterQueryset | ansible_base/rest_filters/rest_framework/field_lookup_backend.py:155-289 | `filter_queryset` as written computes exactly `CompileAsWritten`: the parameter loop followed by the assembly as written. |
| AuthenticatorPlugins.FieldRequired | ansible_base/authentication/authenticator_plugins/base.py:15-20 | `required` when the field has it; otherwise the negation of `allow_null` when it has that; otherwise true. |
| AuthenticatorPlugins.EntryOfSpec | ansible_base/authentication/authenticator_plugins/base.py:39-52 | An entry carries the field's name, class name, help text and `_field_required`. An `empty` default shows as null and any other default as itself. The label is the field's own `ui_field_label`, null included, and "Undefined" only when the field has no such attribute. `choices` is present exactly when the field has truthy choices, and then it is those choices. |
| AuthenticatorPlugins.GetConfigurationSchema | ansible_base/authentication/authenticator_plugins/base.py:32-55 | One entry per field, in field order, each the field's description. The name is the field key and `required` is `_field_required`. |
| AuthenticatorPlugins.FieldNames | ansible_base/authentication/authenticator_plugins/base.py:83 | The allowed option names are exactly the serializer's field keys. |
| AuthenticatorPlugins.GetLoginUrl | ansible_base/authentication/authenticator_plugins/base.py:128-130 | A URL exactly for the `sso` category: the social-auth start URL for the authenticator's slug. |
| AuthenticatorPlugins.AddRelatedFields | ansible_base/authentication/authenticator_plugins/base.py:132-133 | No related fields, whatever the authenticator. |
| AuthenticatorPlugins.Validate | ansible_base/authentication/authenticator_plugins/base.py:135-136 | The data comes back unchanged. |
| AuthenticatorPlugins.AuthenticatorPlugin.constructor | ansible_base/authentication/authenticator_plugins/base.py:66-68 | The plugin starts with the given `database_instance`, no settings and no logger. |
| AuthenticatorPlugins.AuthenticatorPlugin.SetLogger | ansible_base/authentication/authenticator_plugins/base.py:70-74 | A given logger is kept. None gives the default named logger. Nothing else changes. |
| AuthenticatorPlugins.AuthenticatorPlugin.UpdateSettings | ansible_base/authentication/authenticator_plugins/base.py:101-102 | The settings become the authenticator's configuration, and nothing else changes. |
| AuthenticatorPlugins.AuthenticatorPlugin.UpdateIfNeeded | ansible_base/authentication/authenticator_plugins/base.py:104-113 | The instance and settings are adopted exactly when there was no instance or the `modified` stamps differ; otherwise both are unchanged. The log line names which case held. Afterwards nothing is left to update, so a second call with the same authenticator is a no-op. The plugin must have a logger, since every branch logs first. |
| AuthenticatorPlugins.AuthenticatorPlugin.ValidateConfiguration | ansible_base/authentication/authenticator_plugins/base.py:76-92 | A configuration class that is not a BaseAuthenticatorConfiguration is refused before the data is looked at. Then the field errors of `is_valid` are raised as they are. Then the errors name exactly the data keys with no serializer field, with their messages, and the call fails exactly when there is one. Otherwise the validated data is returned. |

## Findings

| source | as written | input that shows it | evidently intended | confidence | as-written member | corrected member |
|---|---|---|---|---|---|---|
| ansible_base/rest_filters/rest_framework/field_lookup_backend.py:254 | `_(...)` calls the local `_` that line 202 assigns, not gettext. Unbound, it raises UnboundLocalError, which escapes the handler. Bound, it is a bool and the TypeError becomes ParseError("'bool' object is not callable"). | `role_level=admin` alone, on a model without `accessible_pk_qs` | ParseError "Cannot apply role_level filter to this list…" | not executed | FilterCompiler.CompileAsWritten, FilterCompiler.CompileAsWrittenAgrees, FilterCompiler.RoleRefusalDiscrepancy | FilterCompiler.Compile, FilterCompiler.AssembleRefusal |

## Left out

- The AWX-specific key rewrites in `filter_queryset` are not modelled (field_lookup_backend.py:175-183). They are `created` to `date_joined` for the User model, and `hosts__name` to `or__host__name` with an extra `isnull` term for JobEvent. Both depend on the model's name, which the model does not carry.
- `get_fields_from_path`, `field.to_python`, `to_python_boolean`, `re.compile`, `accessible_pk_qs`, `Cast`, `Q` evaluation and the queryset itself are given functions or data, not modelled code. `get_fields_from_path` is in `ansible_base/rest_filters/utils.py`, and that file is not part of this model.
- Text.ParseInt: Python's `int()` also accepts surrounding whitespace, `_` digit separators and non-ASCII digits. The model accepts only an optional sign followed by ASCII digits.
- Text.Lower: lower-cases ASCII letters only. Its only use is comparing with `none` and `null`, and no other character lower-cases to those letters.
- FilterCompiler.Disjunction: `Q() | Q(a)` is modelled as a one-element disjunction rather than as Django's internal `Q` tree. It is the same condition.
- AuthenticatorPlugins.AuthenticatorPlugin.ValidateConfiguration: configurations and the unsupported-option errors are maps, so the order of `errors` (base.py:85-87), which follows the order of the keys in `data`, is not modelled. Which keys are named, and with which messages, is.
- Error messages are tags with their arguments, not the translated text. The `json.dumps` of a ValidationError's messages is not modelled.
- AuthenticatorPlugins.AuthenticatorPlugin.UpdateIfNeeded: requires a logger, because every branch writes a log line before anything else and the constructor sets none; without one the source raises AttributeError. The log lines also name `self.type`, which only subclasses define. The text of the log lines is not modelled; the method reports which of the three it would write.
- `to_representation` and `get_default_attributes` are left out. The first only hands over to the serializer. The second only raises NotImplementedError.
- The `ADDITIONAL_UNVERIFIED_ARGS` declaration is left out. It is one of the serializer's fields, and fields are given as data.
- `FieldLookup.Error.UnhashableKey` stands for the TypeError Python would raise if a list of lookups reached a filter keyword. FilterCompiler.CompileNeverUnhashable shows that this never happens.
