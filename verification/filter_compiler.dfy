/**
 * The parameter loop and the filter assembly of
 * `FieldLookupBackend.filter_queryset`: every query-string parameter is
 * classified by its key, its values are converted with `value_to_python`, and
 * the recorded terms are turned into the calls made on the queryset.
 *
 * `Collect` and `Assemble` state what the backend computes; `FilterQueryset`
 * does it step by step, as the backend does, and is proved to agree with them.
 */
module FilterCompiler {
  import opened Options
  import opened Text
  import opened FieldLookup

  /** A Django `Q` object: the empty `Q()`, one (possibly negated) keyword condition, or a disjunction. */
  datatype Q = All | Leaf(negate: bool, key: string, value: Value) | AnyOf(disjuncts: seq<Q>)

  /** Folding `|=` over a list of conditions, starting from `Q()`: the empty `Q()` when the list is empty. */
  function Disjunction(qs: seq<Q>): (q: Q)
    ensures q == All <==> qs == []
    ensures qs != [] ==> q.AnyOf? && q.disjuncts == qs
  {
    if qs == [] then All else AnyOf(qs)
  }

  /** A call made on the queryset, in the order the backend makes them. */
  datatype QuerysetCall =
    | Annotate(alias: string, source: string)   // `annotate(alias=Cast(source, TextField()))`
    | Filter(args: seq<Q>)
    | Distinct

  /** A query-string key with all its values, as `query_params.lists()` yields it. */
  datatype Param = Param(key: string, values: seq<string>)

  /** An entry of `and_filters`, `or_filters` or `chain_filters`: `(negate, lookup, value)`. */
  datatype Term = Term(negate: bool, key: string, value: Value)

  /** Which list a converted value goes to. */
  datatype Bucket = AndBucket | OrBucket | ChainBucket

  /** `search_filter_relation`. */
  datatype Relation = AnyTerm | AllTerms

  /** An entry of the `search_filters` dict: a search term and the lookups it is matched against. */
  datatype SearchEntry = SearchEntry(term: Value, constraints: seq<string>)

  /** A `_as_txt` annotation recorded while the parameters are read. */
  datatype Annotation = Annotation(alias: string, source: string)

  /** The local state of the parameter loop of `filter_queryset`. */
  datatype Pending = Pending(
    ands: seq<Term>,
    ors: seq<Term>,
    chains: seq<Term>,
    roles: seq<string>,
    search: seq<SearchEntry>,
    relation: Relation,
    needsDistinct: bool,
    annotations: seq<Annotation>)

  const Start: Pending := Pending([], [], [], [], [], AnyTerm, false, [])

  // ---------------------------------------------------------------------------
  // Reading a key

  /** The custom `__int` suffix: the key without it, and whether it was there. */
  function StripInt(key: string): (r: (string, bool))
    ensures r.1 <==> EndsWith(key, "__int")
    ensures r.1 ==> key == r.0 + "__int"
    ensures !r.1 ==> r.0 == key
  {
    if EndsWith(key, "__int") then
      assert key == key[..|key| - 5] + key[|key| - 5..];
      (key[..|key| - 5], true)
    else (key, false)
  }

  /** The text a bucket's prefix is written with. */
  function BucketPrefix(bucket: Bucket): string {
    match bucket
    case AndBucket => ""
    case OrBucket => "or__"
    case ChainBucket => "chain__"
  }

  /**
   * The custom `chain__`, `or__` and `not__` prefixes: the lookup left, its
   * bucket and whether it is negated. `chain__` is checked before `or__`, and
   * `not__` is looked for after either is removed, so the key is always the
   * bucket's prefix, then `not__` when negated, then the lookup.
   */
  function RouteKey(key: string): (r: (string, Bucket, bool))
    ensures r.1 == ChainBucket <==> StartsWith(key, "chain__")
    ensures r.1 == OrBucket <==> !StartsWith(key, "chain__") && StartsWith(key, "or__")
    ensures key == BucketPrefix(r.1) + (if r.2 then "not__" else "") + r.0
    ensures r.2 <==> StartsWith(key[|BucketPrefix(r.1)|..], "not__")
  {
    var (rest, bucket) :=
      if StartsWith(key, "chain__") then (key[7..], ChainBucket)
      else if StartsWith(key, "or__") then (key[4..], OrBucket)
      else (key, AndBucket);
    assert key == BucketPrefix(bucket) + rest;
    if StartsWith(rest, "not__") then
      assert rest == "not__" + rest[5..];
      (rest[5..], bucket, true)
    else (rest, bucket, false)
  }

  /** `parts[i]` ends with `suffix` and no part before it does. */
  predicate FirstEndingAt(parts: seq<string>, suffix: string, i: int) {
    0 <= i < |parts| && EndsWith(parts[i], suffix) && forall k :: 0 <= k < i ==> !EndsWith(parts[k], suffix)
  }

  /** `x` is the earliest of `parts` that ends with `suffix`. */
  ghost predicate IsFirstEndingWith(parts: seq<string>, suffix: string, x: string) {
    exists i :: FirstEndingAt(parts, suffix, i) && parts[i] == x
  }

  /** The earliest match of the tail, behind a head that does not match, is the earliest match of the whole. */
  lemma FirstEndingBehind(parts: seq<string>, suffix: string, x: string)
    requires parts != [] && !EndsWith(parts[0], suffix)
    requires IsFirstEndingWith(parts[1..], suffix, x)
    ensures IsFirstEndingWith(parts, suffix, x)
  {
    var i :| FirstEndingAt(parts[1..], suffix, i) && parts[1..][i] == x;
    forall k | 0 <= k < i + 1 ensures !EndsWith(parts[k], suffix) {
      if k > 0 {
        assert parts[k] == parts[1..][k - 1];
      }
    }
    assert FirstEndingAt(parts, suffix, i + 1);
  }

  /** The first of `parts` that ends with `suffix`, as `next(item for item in parts if ...)` finds it. */
  function FirstEndingWith(parts: seq<string>, suffix: string): (r: Option<string>)
    ensures r.Some? ==> r.value in parts && EndsWith(r.value, suffix)
    ensures r.Some? ==> IsFirstEndingWith(parts, suffix, r.value)
    ensures r.None? ==> forall k :: 0 <= k < |parts| ==> !EndsWith(parts[k], suffix)
  {
    if parts == [] then None
    else if EndsWith(parts[0], suffix) then
      assert FirstEndingAt(parts, suffix, 0);
      Some(parts[0])
    else
      var r := FirstEndingWith(parts[1..], suffix);
      if r.Some? then
        FirstEndingBehind(parts, suffix, r.value);
        r
      else
        r
  }

  // ---------------------------------------------------------------------------
  // The parameter loop

  /** No two entries of the `search_filters` dict share a term. */
  predicate DistinctTerms(entries: seq<SearchEntry>) {
    forall i, j :: 0 <= i < j < |entries| ==> entries[i].term != entries[j].term
  }

  /** Puts `term: constraints` into the `search_filters` dict: an existing term keeps its place. */
  function PutSearch(entries: seq<SearchEntry>, term: Value, constraints: seq<string>): seq<SearchEntry> {
    if entries == [] then [SearchEntry(term, constraints)]
    else if entries[0].term == term then [SearchEntry(term, constraints)] + entries[1..]
    else [entries[0]] + PutSearch(entries[1..], term, constraints)
  }

  /**
   * Dict assignment: afterwards the term maps to the new constraints, every
   * other entry is still there, nothing else is added, and terms stay unique.
   */
  lemma {:induction false} PutSearchSpec(entries: seq<SearchEntry>, term: Value, constraints: seq<string>)
    requires DistinctTerms(entries)
    ensures SearchEntry(term, constraints) in PutSearch(entries, term, constraints)
    ensures forall e :: e in PutSearch(entries, term, constraints) ==>
      e == SearchEntry(term, constraints) || (e in entries && e.term != term)
    ensures forall e :: e in entries && e.term != term ==> e in PutSearch(entries, term, constraints)
    ensures DistinctTerms(PutSearch(entries, term, constraints))
  {
    if entries != [] {
      var rest := entries[1..];
      DistinctTail(entries);
      assert entries == [entries[0]] + rest;
      if entries[0].term != term {
        PutSearchSpec(rest, term, constraints);
        var put := PutSearch(rest, term, constraints);
        assert PutSearch(entries, term, constraints) == [entries[0]] + put;
        DistinctCons(entries[0], put);
      }
    }
  }

  /** An entry whose term is new, put in front of a dict without repeated terms, repeats none. */
  lemma DistinctCons(head: SearchEntry, entries: seq<SearchEntry>)
    requires DistinctTerms(entries)
    requires forall e :: e in entries ==> e.term != head.term
    ensures DistinctTerms([head] + entries)
  {
    var r := [head] + entries;
    forall i, j | 0 <= i < j < |r| ensures r[i].term != r[j].term {
      assert r[j] == entries[j - 1];
      if i > 0 {
        assert r[i] == entries[i - 1];
      }
    }
  }

  /** Behind the head of a dict without repeated terms: no repeated terms, and none equal to the head's. */
  lemma DistinctTail(entries: seq<SearchEntry>)
    requires entries != [] && DistinctTerms(entries)
    ensures DistinctTerms(entries[1..])
    ensures forall e :: e in entries[1..] ==> e.term != entries[0].term
  {
    var rest := entries[1..];
    forall i, j | 0 <= i < j < |rest| ensures rest[i].term != rest[j].term {
      assert rest[i] == entries[i + 1] && rest[j] == entries[j + 1];
    }
    forall e | e in rest ensures e.term != entries[0].term {
      var k :| 0 <= k < |rest| && rest[k] == e;
      assert entries[k + 1] == e;
    }
  }

  /** `reduce(lambda a, b: a + b, [v.split(',') for v in values])`. */
  function SplitAll(values: seq<string>): (r: seq<string>)
    ensures |r| >= |values|
  {
    if values == [] then []
    else SplitAll(values[..|values| - 1]) + Split(values[|values| - 1], ",")
  }

  /**
   * Splitting every value on commas loses no text and leaves no comma inside a
   * piece: joined with commas, the pieces give the values joined with commas.
   */
  lemma {:induction false} SplitAllJoin(values: seq<string>)
    ensures Join(SplitAll(values), ",") == Join(values, ",")
    ensures forall k :: 0 <= k < |SplitAll(values)| ==> !Contains(SplitAll(values)[k], ",")
    decreases |values|
  {
    if values != [] {
      var init := values[..|values| - 1];
      var last := values[|values| - 1];
      SplitAllJoin(init);
      JoinSplit(last, ",");
      SplitPiecesAvoidSeparator(last, ",");
      var front := SplitAll(init);
      var pieces := Split(last, ",");
      assert SplitAll(values) == front + pieces;
      assert values == init + [last];
      if init != [] {
        JoinAppend(front, pieces, ",");
        JoinAppend(init, [last], ",");
      } else {
        assert SplitAll(values) == pieces;
      }
      forall k | 0 <= k < |SplitAll(values)| ensures !Contains(SplitAll(values)[k], ",") {
        if k >= |front| {
          assert SplitAll(values)[k] == pieces[k - |front|];
        }
      }
    }
  }

  /** The loop over the values of a `__search` key. */
  function SearchFold(b: Backend, key: string, values: seq<string>, entries: seq<SearchEntry>): Result<seq<SearchEntry>> {
    if values == [] then Ok(entries)
    else
      var before :- SearchFold(b, key, values[..|values| - 1], entries);
      var c :- LookupValue(b, key, Str(values[|values| - 1]));
      match c.lookup
      case Key(_) => Err(Uncaught(AssertionError))
      case SearchKeys(keys) => Ok(PutSearch(before, c.value, keys))
  }

  /** `raw` is recorded: its term maps to the lookups `value_to_python` gives it under `key`. */
  predicate Recorded(b: Backend, key: string, raw: string, entries: seq<SearchEntry>) {
    var c := LookupValue(b, key, Str(raw));
    c.Ok? && c.value.lookup.SearchKeys? && SearchEntry(Str(raw), c.value.lookup.keys) in entries
  }

  /** The term is one of the text values. */
  predicate TermOf(values: seq<string>, t: Value) {
    t.Str? && t.s in values
  }

  /** The search loop keeps the dict free of repeated terms. */
  lemma {:induction false} SearchFoldDistinct(b: Backend, key: string, values: seq<string>, entries: seq<SearchEntry>)
    requires DistinctTerms(entries) && SearchFold(b, key, values, entries).Ok?
    ensures DistinctTerms(SearchFold(b, key, values, entries).value)
    decreases |values|
  {
    if values != [] {
      var init := values[..|values| - 1];
      var before := SearchFold(b, key, init, entries).value;
      var c := LookupValue(b, key, Str(values[|values| - 1])).value;
      assert SearchFold(b, key, values, entries) == Ok(PutSearch(before, c.value, c.lookup.keys));
      SearchFoldDistinct(b, key, init, entries);
      PutSearchSpec(before, c.value, c.lookup.keys);
    }
  }

  /** The `k`-th value read by the search loop is recorded in the dict it leaves. */
  lemma {:induction false} SearchFoldRecordsAt(b: Backend, key: string, values: seq<string>, entries: seq<SearchEntry>, k: nat)
    requires DistinctTerms(entries) && SearchFold(b, key, values, entries).Ok?
    requires k < |values|
    ensures Recorded(b, key, values[k], SearchFold(b, key, values, entries).value)
    decreases |values|
  {
    var init := values[..|values| - 1];
    var last := values[|values| - 1];
    var before := SearchFold(b, key, init, entries).value;
    var c := LookupValue(b, key, Str(last)).value;
    var r := PutSearch(before, c.value, c.lookup.keys);
    assert SearchFold(b, key, values, entries) == Ok(r);
    SearchKeysKeepValue(b, key, Str(last));
    SearchFoldDistinct(b, key, init, entries);
    PutSearchSpec(before, Str(last), c.lookup.keys);
    if k < |init| {
      SearchFoldRecordsAt(b, key, init, entries, k);
      assert values[k] == init[k];
      var ck := LookupValue(b, key, Str(init[k])).value;
      var earlier := SearchEntry(Str(init[k]), ck.lookup.keys);
      assert earlier in before;
      if init[k] != last {
        assert earlier.term != Str(last);
      }
    } else {
      assert k == |init|;
    }
  }

  /** An entry whose term is none of the values is in the dict after the loop exactly when it was before. */
  lemma {:induction false} SearchFoldKeepsOthers(b: Backend, key: string, values: seq<string>, entries: seq<SearchEntry>,
                                                 e: SearchEntry)
    requires DistinctTerms(entries) && SearchFold(b, key, values, entries).Ok?
    requires !TermOf(values, e.term)
    ensures e in SearchFold(b, key, values, entries).value <==> e in entries
    decreases |values|
  {
    if values != [] {
      var init := values[..|values| - 1];
      var last := values[|values| - 1];
      var before := SearchFold(b, key, init, entries).value;
      var c := LookupValue(b, key, Str(last)).value;
      assert SearchFold(b, key, values, entries) == Ok(PutSearch(before, c.value, c.lookup.keys));
      assert values == init + [last];
      SearchKeysKeepValue(b, key, Str(last));
      SearchFoldDistinct(b, key, init, entries);
      PutSearchSpec(before, Str(last), c.lookup.keys);
      SearchFoldKeepsOthers(b, key, init, entries, e);
    }
  }

  /**
   * What the `__search` value loop leaves in the `search_filters` dict: every
   * value it read maps to the `icontains` lookups `value_to_python` gives it,
   * every entry whose term is not one of the values is kept, nothing else is
   * there, and no term is repeated.
   */
  lemma SearchFoldRecords(b: Backend, key: string, values: seq<string>, entries: seq<SearchEntry>)
    requires DistinctTerms(entries) && SearchFold(b, key, values, entries).Ok?
    ensures DistinctTerms(SearchFold(b, key, values, entries).value)
    ensures forall k :: 0 <= k < |values| ==> Recorded(b, key, values[k], SearchFold(b, key, values, entries).value)
    ensures forall e: SearchEntry :: !TermOf(values, e.term) ==> (e in SearchFold(b, key, values, entries).value <==> e in entries)
  {
    SearchFoldDistinct(b, key, values, entries);
    forall k | 0 <= k < |values| ensures Recorded(b, key, values[k], SearchFold(b, key, values, entries).value) {
      SearchFoldRecordsAt(b, key, values, entries, k);
    }
    forall e: SearchEntry | !TermOf(values, e.term)
      ensures e in SearchFold(b, key, values, entries).value <==> e in entries
    {
      SearchFoldKeepsOthers(b, key, values, entries, e);
    }
  }

  /** Puts a term into the list its bucket names. */
  function Route(p: Pending, bucket: Bucket, t: Term): Pending {
    match bucket
    case AndBucket => p.(ands := p.ands + [t])
    case OrBucket => p.(ors := p.ors + [t])
    case ChainBucket => p.(chains := p.chains + [t])
  }

  /** The `_as_txt` annotation a new lookup asks for, if any; `StopIteration` when no segment ends with it. */
  function TextAnnotation(newKey: string): (r: Result<Option<Annotation>>)
    ensures r == Ok(None) <==> !Contains(newKey, "_as_txt")
    ensures r.Err? ==> r.error == Uncaught(StopIteration)
    ensures r.Err? ==> forall k :: 0 <= k < |Split(newKey, "__")| ==> !EndsWith(Split(newKey, "__")[k], "_as_txt")
    ensures r.Ok? && r.value.Some? ==>
      r.value.value.alias in Split(newKey, "__") && r.value.value.alias == r.value.value.source + "_as_txt"
    ensures r.Ok? && r.value.Some? ==> IsFirstEndingWith(Split(newKey, "__"), "_as_txt", r.value.value.alias)
  {
    if !Contains(newKey, "_as_txt") then Ok(None)
    else
      match FirstEndingWith(Split(newKey, "__"), "_as_txt")
      case None => Err(Uncaught(StopIteration))
      case Some(fname) =>
        assert fname == fname[..|fname| - 7] + fname[|fname| - 7..];
        Ok(Some(Annotation(fname, fname[..|fname| - 7])))
  }

  /** A raw query-string value, passed through `int()` after the `__int` suffix. */
  function ParamValue(raw: string, asInt: bool): (r: Result<Value>)
    ensures r.Ok? ==> IsParam(r.value)
    ensures !asInt ==> r == Ok(Str(raw))
    ensures asInt ==> (r.Ok? <==> ParseInt(raw).Some?)
    ensures asInt && r.Ok? ==> r.value == Int(ParseInt(raw).value)
    ensures r.Err? ==> r.error == NotAnInteger(raw)
  {
    if !asInt then Ok(Str(raw))
    else
      match ParseInt(raw)
      case Some(i) => Ok(Int(i))
      case None => Err(NotAnInteger(raw))
  }

  /** The text of an integer, as `str()` writes it, comes back through the `__int` conversion as that integer. */
  lemma ParamValueOfPrintedInt(i: int)
    ensures ParamValue(IntToString(i), true) == Ok(Int(i))
  {
    IntToStringRoundTrip(i);
  }

  /**
   * What the loop does with a converted value: flag `distinct`, annotate an
   * `_as_txt` lookup, and file the term in its bucket.
   */
  function FileTerm(bucket: Bucket, negate: bool, c: Converted, p: Pending): Result<Pending> {
    match c.lookup
    case SearchKeys(_) => Err(UnhashableKey)
    case Key(newKey) =>
      var annotation :- TextAnnotation(newKey);
      var annotations := if annotation.Some? then p.annotations + [annotation.value] else p.annotations;
      var q := p.(needsDistinct := p.needsDistinct || c.needsDistinct, annotations := annotations);
      Ok(Route(q, bucket, Term(negate, newKey, c.value)))
  }

  /** The body of the loop over the values of an ordinary key. */
  function AddTerm(b: Backend, key: string, asInt: bool, bucket: Bucket, negate: bool, raw: string, p: Pending): Result<Pending> {
    var v :- ParamValue(raw, asInt);
    var c :- LookupValue(b, key, v);
    FileTerm(bucket, negate, c, p)
  }

  /** The loop over the values of an ordinary key. */
  function TermFold(b: Backend, key: string, asInt: bool, bucket: Bucket, negate: bool, values: seq<string>, p: Pending): Result<Pending> {
    if values == [] then Ok(p)
    else
      var before :- TermFold(b, key, asInt, bucket, negate, values[..|values| - 1], p);
      AddTerm(b, key, asInt, bucket, negate, values[|values| - 1], before)
  }

  /** Whether a `__search` parameter switches to AND mode: its first value holds a comma. */
  predicate AndModeSearch(values: seq<string>) {
    |values| > 0 && Contains(values[0], ",")
  }

  /** One turn of the parameter loop. */
  function Step(b: Backend, reserved: set<string>, p: Pending, param: Param): Result<Pending> {
    if param.key in reserved then Ok(p)
    else
      var (key, asInt) := StripInt(param.key);
      if key == "role_level" then
        if param.values == [] then Err(Uncaught(IndexError))
        else Ok(p.(roles := p.roles + [param.values[0]]))
      else if EndsWith(key, "__search") then
        var andMode := AndModeSearch(param.values);
        var values := if andMode then SplitAll(param.values) else param.values;
        var search :- SearchFold(b, key, values, p.search);
        Ok(p.(search := search, relation := if andMode then AllTerms else p.relation, needsDistinct := true))
      else
        var (lookup, bucket, negate) := RouteKey(key);
        TermFold(b, lookup, asInt, bucket, negate, param.values, p)
  }

  /** The parameter loop over all parameters, stopping at the first error. */
  function Collect(b: Backend, reserved: set<string>, params: seq<Param>): Result<Pending> {
    if params == [] then Ok(Start)
    else
      var p :- Collect(b, reserved, params[..|params| - 1]);
      Step(b, reserved, p, params[|params| - 1])
  }

  // ---------------------------------------------------------------------------
  // Building the filters

  function TermQ(t: Term): Q {
    Leaf(t.negate, t.key, t.value)
  }

  /** `Q(**{k: v})`, negated where flagged, for each term. */
  function TermLeaves(ts: seq<Term>): (r: seq<Q>)
    ensures |r| == |ts|
    ensures forall k :: 0 <= k < |ts| ==> r[k] == TermQ(ts[k])
  {
    if ts == [] then [] else TermLeaves(ts[..|ts| - 1]) + [TermQ(ts[|ts| - 1])]
  }

  /** `Q(pk__in=accessible_pk_qs(user, role))` for each role name. */
  function RoleLeaves(roles: seq<string>): (r: seq<Q>)
    ensures |r| == |roles|
    ensures forall k :: 0 <= k < |roles| ==> r[k] == Leaf(false, "pk__in", AccessibleTo(roles[k]))
  {
    if roles == [] then [] else RoleLeaves(roles[..|roles| - 1]) + [Leaf(false, "pk__in", AccessibleTo(roles[|roles| - 1]))]
  }

  /** `Q(**{constraint: term})` for each constraint of one search entry. */
  function EntryLeaves(e: SearchEntry): (r: seq<Q>)
    ensures |r| == |e.constraints|
    ensures forall k :: 0 <= k < |r| ==> r[k] == Leaf(false, e.constraints[k], e.term)
  {
    seq(|e.constraints|, k requires 0 <= k < |e.constraints| => Leaf(false, e.constraints[k], e.term))
  }

  /** The conditions of all search entries, entry by entry. */
  function SearchLeaves(entries: seq<SearchEntry>): seq<Q> {
    if entries == [] then [] else SearchLeaves(entries[..|entries| - 1]) + EntryLeaves(entries[|entries| - 1])
  }

  /** In AND mode, one filter per search entry. */
  function SearchFilters(entries: seq<SearchEntry>): (r: seq<QuerysetCall>)
    ensures |r| == |entries|
    ensures forall k :: 0 <= k < |entries| ==> r[k] == Filter([Disjunction(EntryLeaves(entries[k]))])
  {
    if entries == [] then []
    else SearchFilters(entries[..|entries| - 1]) + [Filter([Disjunction(EntryLeaves(entries[|entries| - 1]))])]
  }

  /** One filter per chain term. */
  function ChainFilters(ts: seq<Term>): (r: seq<QuerysetCall>)
    ensures |r| == |ts|
    ensures forall k :: 0 <= k < |ts| ==> r[k] == Filter([TermQ(ts[k])])
  {
    if ts == [] then [] else ChainFilters(ts[..|ts| - 1]) + [Filter([TermQ(ts[|ts| - 1])])]
  }

  function AnnotateCalls(annotations: seq<Annotation>): (r: seq<QuerysetCall>)
    ensures |r| == |annotations|
    ensures forall k :: 0 <= k < |r| ==> r[k] == Annotate(annotations[k].alias, annotations[k].source)
  {
    if annotations == [] then []
    else
      var a := annotations[|annotations| - 1];
      AnnotateCalls(annotations[..|annotations| - 1]) + [Annotate(a.alias, a.source)]
  }

  /** Some filter was recorded. */
  predicate HasFilters(p: Pending) {
    p.ands != [] || p.ors != [] || p.chains != [] || p.roles != [] || p.search != []
  }

  /** The arguments of the one `filter(*args)` call. */
  function MainArgs(p: Pending): seq<Q> {
    TermLeaves(p.ands) + RoleLeaves(p.roles) +
    (if p.ors != [] then [Disjunction(TermLeaves(p.ors))] else []) +
    (if p.search != [] && p.relation == AnyTerm then [Disjunction(SearchLeaves(p.search))] else [])
  }

  /** The calls made on the queryset once the parameters are read. */
  function Assemble(schema: Schema, p: Pending): Result<seq<QuerysetCall>> {
    if !HasFilters(p) then Ok(AnnotateCalls(p.annotations))
    else if p.roles != [] && !schema.hasAccessiblePkQs then Err(NoRoleAccess)
    else
      Ok(AnnotateCalls(p.annotations) +
         (if p.relation == AllTerms then SearchFilters(p.search) else []) +
         ChainFilters(p.chains) +
         [Filter(MainArgs(p))] +
         (if p.needsDistinct then [Distinct] else []))
  }

  /** `filter_queryset`: the calls made on the queryset, or the error that stops it. */
  function Compile(b: Backend, reserved: set<string>, params: seq<Param>): Result<seq<QuerysetCall>> {
    var p :- Collect(b, reserved, params);
    Assemble(b.schema, p)
  }

  // ---------------------------------------------------------------------------
  // The role refusal as written

  /**
   * What the role refusal raises as the code is written. The search loop's
   * `search_value, new_keys, _ = ...` makes `_` a local name of
   * `filter_queryset`, so the `_(...)` meant as gettext calls that local
   * instead. When no search value was read it is unbound, an
   * UnboundLocalError that escapes; otherwise it holds the bool
   * `needs_distinct`, a TypeError that the handler reports as a ParseError.
   * A search value was read exactly when the `search_filters` dict is not
   * empty (`SearchValueRead`).
   */
  function RoleRefusalAsWritten(p: Pending): (e: Error)
    ensures e.IsParseError() <==> p.search != []
    ensures e == Uncaught(UnboundLocalError) || e == BoolNotCallable
    ensures e != NoRoleAccess
  {
    if p.search == [] then Uncaught(UnboundLocalError) else BoolNotCallable
  }

  /** `Assemble` with the role refusal raising what the code as written raises. */
  function AssembleAsWritten(schema: Schema, p: Pending): (r: Result<seq<QuerysetCall>>)
    ensures r.Err? <==> p.roles != [] && !schema.hasAccessiblePkQs
    ensures r.Err? ==> r.error == RoleRefusalAsWritten(p)
    ensures r.Ok? ==> r == Assemble(schema, p)
  {
    if Assemble(schema, p).Err? then Err(RoleRefusalAsWritten(p)) else Assemble(schema, p)
  }

  /** `filter_queryset` as written: the parameter loop, then the assembly as written. */
  function CompileAsWritten(b: Backend, reserved: set<string>, params: seq<Param>): Result<seq<QuerysetCall>> {
    var p :- Collect(b, reserved, params);
    AssembleAsWritten(b.schema, p)
  }

  /** The code as written and the intended `Compile` differ only in what the role refusal raises. */
  lemma CompileAsWrittenAgrees(b: Backend, reserved: set<string>, params: seq<Param>)
    ensures CompileAsWritten(b, reserved, params).Ok? <==> Compile(b, reserved, params).Ok?
    ensures CompileAsWritten(b, reserved, params).Ok? ==> CompileAsWritten(b, reserved, params) == Compile(b, reserved, params)
    ensures Collect(b, reserved, params).Err? ==> CompileAsWritten(b, reserved, params) == Compile(b, reserved, params)
    ensures Collect(b, reserved, params).Ok? && Compile(b, reserved, params).Err? ==>
      Compile(b, reserved, params) == Err(NoRoleAccess) &&
      CompileAsWritten(b, reserved, params) == Err(RoleRefusalAsWritten(Collect(b, reserved, params).value))
  {
    if Collect(b, reserved, params).Ok? {
      AssembleRefusal(b.schema, Collect(b, reserved, params).value);
    }
  }

  /**
   * A request whose only parameter is `role_level=admin`, on a model without
   * `accessible_pk_qs`: the intended refusal is the role ParseError, but the
   * code as written raises an UnboundLocalError that escapes the handler.
   */
  lemma RoleRefusalDiscrepancy(b: Backend, reserved: set<string>)
    requires !b.schema.hasAccessiblePkQs && "role_level" !in reserved
    ensures Compile(b, reserved, [Param("role_level", ["admin"])]) == Err(NoRoleAccess)
    ensures CompileAsWritten(b, reserved, [Param("role_level", ["admin"])]) == Err(Uncaught(UnboundLocalError))
    ensures !CompileAsWritten(b, reserved, [Param("role_level", ["admin"])]).error.IsParseError()
  {
    var params := [Param("role_level", ["admin"])];
    assert "role_level"[|"role_level"| - 5..] == "level";
    assert StripInt(params[0].key) == ("role_level", false);
    assert params[..0] == [];
    assert Collect(b, reserved, params) == Step(b, reserved, Start, params[0]);
    assert Step(b, reserved, Start, params[0]) == Ok(Start.(roles := Start.roles + ["admin"]));
    assert Start.roles + ["admin"] == ["admin"];
  }

  // ---------------------------------------------------------------------------
  // `filter_queryset` as the backend runs it

  /** A failed loop over parameters stays failed whatever parameters follow. */
  lemma {:induction false} CollectErrorSticks(b: Backend, reserved: set<string>, params: seq<Param>, k: nat)
    requires k <= |params| && Collect(b, reserved, params[..k]).Err?
    ensures Collect(b, reserved, params) == Collect(b, reserved, params[..k])
    decreases |params|
  {
    if k < |params| {
      var init := params[..|params| - 1];
      assert init[..k] == params[..k];
      CollectErrorSticks(b, reserved, init, k);
    } else {
      assert params[..k] == params;
    }
  }

  lemma {:induction false} TermFoldErrorSticks(b: Backend, key: string, asInt: bool, bucket: Bucket, negate: bool,
                                               values: seq<string>, p: Pending, k: nat)
    requires k <= |values| && TermFold(b, key, asInt, bucket, negate, values[..k], p).Err?
    ensures TermFold(b, key, asInt, bucket, negate, values, p) == TermFold(b, key, asInt, bucket, negate, values[..k], p)
    decreases |values|
  {
    if k < |values| {
      var init := values[..|values| - 1];
      assert init[..k] == values[..k];
      TermFoldErrorSticks(b, key, asInt, bucket, negate, init, p, k);
    } else {
      assert values[..k] == values;
    }
  }

  lemma {:induction false} SearchFoldErrorSticks(b: Backend, key: string, values: seq<string>, entries: seq<SearchEntry>, k: nat)
    requires k <= |values| && SearchFold(b, key, values[..k], entries).Err?
    ensures SearchFold(b, key, values, entries) == SearchFold(b, key, values[..k], entries)
    decreases |values|
  {
    if k < |values| {
      var init := values[..|values| - 1];
      assert init[..k] == values[..k];
      SearchFoldErrorSticks(b, key, init, entries, k);
    } else {
      assert values[..k] == values;
    }
  }

  /** The `_as_txt` column a new lookup asks to annotate, found as `next(...)` finds it. */
  method AnnotationOf(newKey: string) returns (r: Result<Option<Annotation>>)
    ensures r == TextAnnotation(newKey)
  {
    if !Contains(newKey, "_as_txt") {
      return Ok(None);
    }
    var fname := FirstEndingWith(Split(newKey, "__"), "_as_txt");
    if fname.None? {
      return Err(Uncaught(StopIteration));
    }
    var name := fname.value;
    r := Ok(Some(Annotation(name, name[..|name| - 7])));
  }

  /** What the loop does with a converted value, step by step. */
  method FileConverted(bucket: Bucket, negate: bool, c: Converted, p: Pending) returns (r: Result<Pending>)
    ensures r == FileTerm(bucket, negate, c, p)
  {
    if c.lookup.SearchKeys? {
      return Err(UnhashableKey);
    }
    var newKey := c.lookup.key;
    var q := p;
    if c.needsDistinct {
      q := q.(needsDistinct := true);
    }
    var annotation := AnnotationOf(newKey);
    if annotation.Err? {
      return Err(annotation.error);
    }
    if annotation.value.Some? {
      q := q.(annotations := q.annotations + [annotation.value.value]);
    }
    var t := Term(negate, newKey, c.value);
    match bucket {
      case ChainBucket => q := q.(chains := q.chains + [t]);
      case OrBucket => q := q.(ors := q.ors + [t]);
      case AndBucket => q := q.(ands := q.ands + [t]);
    }
    r := Ok(q);
  }

  /** The loop over the first `j + 1` values is the loop over the first `j`, then one more value. */
  lemma TermFoldNext(b: Backend, key: string, asInt: bool, bucket: Bucket, negate: bool, values: seq<string>, p: Pending, j: nat)
    requires j < |values|
    ensures TermFold(b, key, asInt, bucket, negate, values[..j + 1], p) ==
      if TermFold(b, key, asInt, bucket, negate, values[..j], p).Err? then TermFold(b, key, asInt, bucket, negate, values[..j], p)
      else AddTerm(b, key, asInt, bucket, negate, values[j], TermFold(b, key, asInt, bucket, negate, values[..j], p).value)
  {
    assert values[..j + 1][..j] == values[..j];
  }

  /** One value of an ordinary key: convert it, then file it. */
  method RecordValue(b: Backend, key: string, asInt: bool, bucket: Bucket, negate: bool, raw: string, p: Pending)
    returns (r: Result<Pending>)
    ensures r == AddTerm(b, key, asInt, bucket, negate, raw, p)
  {
    var v := Str(raw);
    if asInt {
      var n := ParseInt(raw);
      if n.None? {
        return Err(NotAnInteger(raw));
      }
      v := Int(n.value);
    }
    assert ParamValue(raw, asInt) == Ok(v);
    var c := ValueToPython(b, key, v);
    if c.Err? {
      return Err(c.error);
    }
    r := FileConverted(bucket, negate, c.value, p);
  }

  /** The loop over the values of an ordinary key. */
  method RecordValues(b: Backend, key: string, asInt: bool, bucket: Bucket, negate: bool, values: seq<string>, p: Pending)
    returns (r: Result<Pending>)
    ensures r == TermFold(b, key, asInt, bucket, negate, values, p)
  {
    var q := p;
    var j := 0;
    while j < |values|
      invariant 0 <= j <= |values|
      invariant TermFold(b, key, asInt, bucket, negate, values[..j], p) == Ok(q)
    {
      TermFoldNext(b, key, asInt, bucket, negate, values, p, j);
      var next := RecordValue(b, key, asInt, bucket, negate, values[j], q);
      if next.Err? {
        TermFoldErrorSticks(b, key, asInt, bucket, negate, values, p, j + 1);
        return next;
      }
      q := next.value;
      j := j + 1;
    }
    assert values[..j] == values;
    r := Ok(q);
  }

  /** The loop over the first `j + 1` search values is the loop over the first `j`, then one more. */
  lemma SearchFoldNext(b: Backend, key: string, values: seq<string>, entries: seq<SearchEntry>, j: nat)
    requires j < |values|
    ensures SearchFold(b, key, values[..j + 1], entries) ==
      if SearchFold(b, key, values[..j], entries).Err? then SearchFold(b, key, values[..j], entries)
      else
        match LookupValue(b, key, Str(values[j]))
        case Err(e) => Err(e)
        case Ok(c) =>
          if c.lookup.Key? then Err(Uncaught(AssertionError))
          else Ok(PutSearch(SearchFold(b, key, values[..j], entries).value, c.value, c.lookup.keys))
  {
    assert values[..j + 1][..j] == values[..j];
  }

  /** The loop over the values of a `__search` key, filling the `search_filters` dict. */
  method RecordSearch(b: Backend, key: string, values: seq<string>, entries: seq<SearchEntry>)
    returns (r: Result<seq<SearchEntry>>)
    ensures r == SearchFold(b, key, values, entries)
  {
    var search := entries;
    var j := 0;
    while j < |values|
      invariant 0 <= j <= |values|
      invariant SearchFold(b, key, values[..j], entries) == Ok(search)
    {
      SearchFoldNext(b, key, values, entries, j);
      var c := ValueToPython(b, key, Str(values[j]));
      if c.Err? {
        SearchFoldErrorSticks(b, key, values, entries, j + 1);
        return Err(c.error);
      }
      if c.value.lookup.Key? {
        SearchFoldErrorSticks(b, key, values, entries, j + 1);
        return Err(Uncaught(AssertionError));
      }
      search := PutSearch(search, c.value.value, c.value.lookup.keys);
      j := j + 1;
    }
    assert values[..j] == values;
    r := Ok(search);
  }

  /** The values of an AND-mode `__search` key, each split on commas, all in one list. */
  method SplitValues(values: seq<string>) returns (all: seq<string>)
    ensures all == SplitAll(values)
  {
    all := [];
    var j := 0;
    while j < |values|
      invariant 0 <= j <= |values|
      invariant all == SplitAll(values[..j])
    {
      assert values[..j + 1][..j] == values[..j];
      all := all + Split(values[j], ",");
      j := j + 1;
    }
    assert values[..j] == values;
  }

  /** One turn of the parameter loop. */
  method HandleParam(b: Backend, reserved: set<string>, p: Pending, param: Param) returns (r: Result<Pending>)
    ensures r == Step(b, reserved, p, param)
  {
    if param.key in reserved {
      return Ok(p);
    }
    var key := param.key;
    var asInt := false;
    if EndsWith(key, "__int") {
      key := key[..|key| - 5];
      asInt := true;
    }
    assert (key, asInt) == StripInt(param.key);
    if key == "role_level" {
      if param.values == [] {
        return Err(Uncaught(IndexError));
      }
      return Ok(p.(roles := p.roles + [param.values[0]]));
    }
    if EndsWith(key, "__search") {
      var relation := p.relation;
      var values := param.values;
      if |values| > 0 && Contains(values[0], ",") {
        relation := AllTerms;
        values := SplitValues(values);
      }
      var search := RecordSearch(b, key, values, p.search);
      if search.Err? {
        return Err(search.error);
      }
      return Ok(p.(search := search.value, relation := relation, needsDistinct := true));
    }
    var lookup := key;
    var bucket := AndBucket;
    if StartsWith(lookup, "chain__") {
      lookup := lookup[7..];
      bucket := ChainBucket;
    } else if StartsWith(lookup, "or__") {
      lookup := lookup[4..];
      bucket := OrBucket;
    }
    var negate := false;
    if StartsWith(lookup, "not__") {
      lookup := lookup[5..];
      negate := true;
    }
    assert (lookup, bucket, negate) == RouteKey(key);
    r := RecordValues(b, lookup, asInt, bucket, negate, param.values, p);
  }

  /** `q |= x`, starting from `Q()`. */
  function OrWith(q: Q, x: Q): Q {
    if q.AnyOf? then AnyOf(q.disjuncts + [x]) else AnyOf([x])
  }

  /** The `q |= ...` loop over the or-terms. */
  method OrTerms(ts: seq<Term>) returns (q: Q)
    ensures q == Disjunction(TermLeaves(ts))
  {
    q := All;
    var j := 0;
    while j < |ts|
      invariant 0 <= j <= |ts|
      invariant q == Disjunction(TermLeaves(ts[..j]))
    {
      assert ts[..j + 1][..j] == ts[..j];
      q := OrWith(q, TermQ(ts[j]));
      j := j + 1;
    }
    assert ts[..j] == ts;
  }

  /** The `q |= ...` loop over the constraints of one search entry, continuing `q`. */
  method OrEntry(q0: Q, e: SearchEntry, ghost before: seq<Q>) returns (q: Q)
    requires q0 == Disjunction(before)
    ensures q == Disjunction(before + EntryLeaves(e))
  {
    q := q0;
    var k := 0;
    while k < |e.constraints|
      invariant 0 <= k <= |e.constraints|
      invariant q == Disjunction(before + EntryLeaves(e)[..k])
    {
      assert EntryLeaves(e)[..k + 1] == EntryLeaves(e)[..k] + [Leaf(false, e.constraints[k], e.term)];
      q := OrWith(q, Leaf(false, e.constraints[k], e.term));
      k := k + 1;
    }
    assert EntryLeaves(e)[..k] == EntryLeaves(e);
  }

  /** The OR-mode search: one disjunction over every term and constraint. */
  method OrSearch(entries: seq<SearchEntry>) returns (q: Q)
    ensures q == Disjunction(SearchLeaves(entries))
  {
    q := All;
    var j := 0;
    while j < |entries|
      invariant 0 <= j <= |entries|
      invariant q == Disjunction(SearchLeaves(entries[..j]))
    {
      assert entries[..j + 1][..j] == entries[..j];
      q := OrEntry(q, entries[j], SearchLeaves(entries[..j]));
      j := j + 1;
    }
    assert entries[..j] == entries;
  }

  /** The arguments of the one `filter(*args)` call, or what the refusal of roles on a model without them raises. */
  method BuildArgs(schema: Schema, p: Pending) returns (r: Result<seq<Q>>)
    ensures p.roles != [] && !schema.hasAccessiblePkQs ==> r == Err(RoleRefusalAsWritten(p))
    ensures !(p.roles != [] && !schema.hasAccessiblePkQs) ==> r == Ok(MainArgs(p))
  {
    var args: seq<Q> := [];
    var j := 0;
    while j < |p.ands|
      invariant 0 <= j <= |p.ands|
      invariant args == TermLeaves(p.ands[..j])
    {
      assert p.ands[..j + 1][..j] == p.ands[..j];
      args := args + [TermQ(p.ands[j])];
      j := j + 1;
    }
    assert p.ands[..j] == p.ands;
    j := 0;
    while j < |p.roles|
      invariant 0 <= j <= |p.roles|
      invariant j > 0 ==> schema.hasAccessiblePkQs
      invariant args == TermLeaves(p.ands) + RoleLeaves(p.roles[..j])
    {
      if !schema.hasAccessiblePkQs {
        return Err(RoleRefusalAsWritten(p));
      }
      assert p.roles[..j + 1][..j] == p.roles[..j];
      args := args + [Leaf(false, "pk__in", AccessibleTo(p.roles[j]))];
      j := j + 1;
    }
    assert p.roles[..j] == p.roles;
    ghost var fixed := args;
    var orPart: seq<Q> := [];
    if p.ors != [] {
      var q := OrTerms(p.ors);
      orPart := [q];
    }
    var searchPart: seq<Q> := [];
    if p.search != [] && p.relation == AnyTerm {
      var q := OrSearch(p.search);
      searchPart := [q];
    }
    args := args + orPart + searchPart;
    assert MainArgs(p) == fixed + orPart + searchPart;
    r := Ok(args);
  }

  /** The AND-mode search: one filter per search entry. */
  method AndSearch(entries: seq<SearchEntry>) returns (calls: seq<QuerysetCall>)
    ensures calls == SearchFilters(entries)
  {
    calls := [];
    var j := 0;
    while j < |entries|
      invariant 0 <= j <= |entries|
      invariant calls == SearchFilters(entries[..j])
    {
      assert entries[..j + 1][..j] == entries[..j];
      var qChain := OrEntry(All, entries[j], []);
      assert [] + EntryLeaves(entries[j]) == EntryLeaves(entries[j]);
      calls := calls + [Filter([qChain])];
      j := j + 1;
    }
    assert entries[..j] == entries;
  }

  /** The calls made once the parameters are read. */
  method BuildFilters(schema: Schema, p: Pending) returns (r: Result<seq<QuerysetCall>>)
    ensures r == AssembleAsWritten(schema, p)
  {
    var calls := AnnotateCalls(p.annotations);
    if !HasFilters(p) {
      return Ok(calls);
    }
    var args := BuildArgs(schema, p);
    if args.Err? {
      return Err(args.error);
    }
    assert args.value == MainArgs(p);
    var searchCalls: seq<QuerysetCall> := [];
    if p.relation == AllTerms {
      searchCalls := AndSearch(p.search);
    }
    var chainCalls: seq<QuerysetCall> := [];
    var j := 0;
    while j < |p.chains|
      invariant 0 <= j <= |p.chains|
      invariant chainCalls == ChainFilters(p.chains[..j])
    {
      assert p.chains[..j + 1][..j] == p.chains[..j];
      chainCalls := chainCalls + [Filter([TermQ(p.chains[j])])];
      j := j + 1;
    }
    assert p.chains[..j] == p.chains;
    var distinct: seq<QuerysetCall> := [];
    if p.needsDistinct {
      distinct := [Distinct];
    }
    calls := calls + searchCalls + chainCalls + [Filter(args.value)] + distinct;
    r := Ok(calls);
  }

  /**
   * `filter_queryset`: read every parameter in order, stopping at the first
   * error, then build the filters.
   */
  method FilterQueryset(b: Backend, reserved: set<string>, params: seq<Param>) returns (r: Result<seq<QuerysetCall>>)
    ensures r == CompileAsWritten(b, reserved, params)
  {
    var p := Start;
    var i := 0;
    while i < |params|
      invariant 0 <= i <= |params|
      invariant Collect(b, reserved, params[..i]) == Ok(p)
    {
      assert params[..i + 1][..i] == params[..i];
      var next := HandleParam(b, reserved, p, params[i]);
      if next.Err? {
        CollectErrorSticks(b, reserved, params, i + 1);
        return Err(next.error);
      }
      p := next.value;
      i := i + 1;
    }
    assert params[..i] == params;
    r := BuildFilters(b.schema, p);
  }

  // ---------------------------------------------------------------------------
  // What the parameter loop promises

  /**
   * After a loop over values for one bucket: that bucket gained exactly `n`
   * terms at its end, the other lists and the search state are untouched,
   * annotations were only appended (at most one per value), and `distinct`
   * was never switched off.
   */
  predicate FiledIn(p: Pending, q: Pending, bucket: Bucket, n: nat) {
    (if bucket == AndBucket then |q.ands| == |p.ands| + n && q.ands[..|p.ands|] == p.ands else q.ands == p.ands) &&
    (if bucket == OrBucket then |q.ors| == |p.ors| + n && q.ors[..|p.ors|] == p.ors else q.ors == p.ors) &&
    (if bucket == ChainBucket then |q.chains| == |p.chains| + n && q.chains[..|p.chains|] == p.chains else q.chains == p.chains) &&
    q.roles == p.roles && q.search == p.search && q.relation == p.relation &&
    (p.needsDistinct ==> q.needsDistinct) &&
    |p.annotations| <= |q.annotations| <= |p.annotations| + n && q.annotations[..|p.annotations|] == p.annotations
  }

  /** A converted value is filed as exactly one term of its bucket. */
  lemma FileTermFilesOne(bucket: Bucket, negate: bool, c: Converted, p: Pending)
    requires FileTerm(bucket, negate, c, p).Ok?
    ensures FiledIn(p, FileTerm(bucket, negate, c, p).value, bucket, 1)
  {
    var q := FileTerm(bucket, negate, c, p).value;
    assert q.annotations[..|p.annotations|] == p.annotations;
    match bucket {
      case AndBucket => assert q.ands[..|p.ands|] == p.ands;
      case OrBucket => assert q.ors[..|p.ors|] == p.ors;
      case ChainBucket => assert q.chains[..|p.chains|] == p.chains;
    }
  }

  lemma AddTermFilesOne(b: Backend, key: string, asInt: bool, bucket: Bucket, negate: bool, raw: string, p: Pending)
    requires AddTerm(b, key, asInt, bucket, negate, raw, p).Ok?
    ensures FiledIn(p, AddTerm(b, key, asInt, bucket, negate, raw, p).value, bucket, 1)
  {
    var v := ParamValue(raw, asInt).value;
    var c := LookupValue(b, key, v).value;
    FileTermFilesOne(bucket, negate, c, p);
  }

  lemma FiledInTrans(p: Pending, m: Pending, q: Pending, bucket: Bucket, n: nat)
    requires FiledIn(p, m, bucket, n) && FiledIn(m, q, bucket, 1)
    ensures FiledIn(p, q, bucket, n + 1)
  {
    assert q.annotations[..|p.annotations|] == m.annotations[..|p.annotations|];
    match bucket {
      case AndBucket => assert q.ands[..|p.ands|] == m.ands[..|p.ands|];
      case OrBucket => assert q.ors[..|p.ors|] == m.ors[..|p.ors|];
      case ChainBucket => assert q.chains[..|p.chains|] == m.chains[..|p.chains|];
    }
  }

  /** The list of terms a bucket names. */
  function BucketOf(p: Pending, bucket: Bucket): seq<Term> {
    match bucket
    case AndBucket => p.ands
    case OrBucket => p.ors
    case ChainBucket => p.chains
  }

  /**
   * The term the loop makes of one raw value of an ordinary key: the value
   * converted by `value_to_python`, under the lookup that call gives back,
   * negated when the key had `not__`.
   */
  function ValueTerm(b: Backend, key: string, asInt: bool, negate: bool, raw: string): Result<Term> {
    var v :- ParamValue(raw, asInt);
    var c :- LookupValue(b, key, v);
    match c.lookup
    case SearchKeys(_) => Err(UnhashableKey)
    case Key(newKey) => Ok(Term(negate, newKey, c.value))
  }

  /** The term filed for a value is the value's own term, put at the end of its bucket. */
  lemma AddTermTerm(b: Backend, key: string, asInt: bool, bucket: Bucket, negate: bool, raw: string, p: Pending)
    requires AddTerm(b, key, asInt, bucket, negate, raw, p).Ok?
    ensures ValueTerm(b, key, asInt, negate, raw).Ok?
    ensures BucketOf(AddTerm(b, key, asInt, bucket, negate, raw, p).value, bucket) ==
      BucketOf(p, bucket) + [ValueTerm(b, key, asInt, negate, raw).value]
  {
  }

  /** Every value of an ordinary key lands in the one list its prefix names, in order. */
  lemma {:induction false} TermFoldFilesEveryValue(b: Backend, key: string, asInt: bool, bucket: Bucket, negate: bool,
                                                   values: seq<string>, p: Pending)
    requires TermFold(b, key, asInt, bucket, negate, values, p).Ok?
    ensures FiledIn(p, TermFold(b, key, asInt, bucket, negate, values, p).value, bucket, |values|)
    decreases |values|
  {
    if values == [] {
      assert p.ands[..|p.ands|] == p.ands && p.ors[..|p.ors|] == p.ors && p.chains[..|p.chains|] == p.chains;
      assert p.annotations[..|p.annotations|] == p.annotations;
    } else {
      var init := values[..|values| - 1];
      var m := TermFold(b, key, asInt, bucket, negate, init, p).value;
      TermFoldFilesEveryValue(b, key, asInt, bucket, negate, init, p);
      AddTermFilesOne(b, key, asInt, bucket, negate, values[|values| - 1], m);
      FiledInTrans(p, m, TermFold(b, key, asInt, bucket, negate, values, p).value, bucket, |init|);
    }
  }

  /** The loop adds one term to its bucket per value. */
  lemma {:induction false} TermFoldLength(b: Backend, key: string, asInt: bool, bucket: Bucket, negate: bool,
                                          values: seq<string>, p: Pending)
    requires TermFold(b, key, asInt, bucket, negate, values, p).Ok?
    ensures |BucketOf(TermFold(b, key, asInt, bucket, negate, values, p).value, bucket)| == |BucketOf(p, bucket)| + |values|
    decreases |values|
  {
    if values != [] {
      var init := values[..|values| - 1];
      var m := TermFold(b, key, asInt, bucket, negate, init, p).value;
      TermFoldLength(b, key, asInt, bucket, negate, init, p);
      AddTermTerm(b, key, asInt, bucket, negate, values[|values| - 1], m);
    }
  }

  /** The term the loop adds for the `k`-th value is that value's term. */
  lemma {:induction false} TermFoldTermAt(b: Backend, key: string, asInt: bool, bucket: Bucket, negate: bool,
                                          values: seq<string>, p: Pending, k: nat)
    requires TermFold(b, key, asInt, bucket, negate, values, p).Ok?
    requires k < |values|
    ensures |BucketOf(p, bucket)| + k < |BucketOf(TermFold(b, key, asInt, bucket, negate, values, p).value, bucket)|
    ensures ValueTerm(b, key, asInt, negate, values[k]) ==
      Ok(BucketOf(TermFold(b, key, asInt, bucket, negate, values, p).value, bucket)[|BucketOf(p, bucket)| + k])
    decreases |values|
  {
    var init := values[..|values| - 1];
    var last := values[|values| - 1];
    var m := TermFold(b, key, asInt, bucket, negate, init, p).value;
    var q := TermFold(b, key, asInt, bucket, negate, values, p).value;
    assert q == AddTerm(b, key, asInt, bucket, negate, last, m).value;
    AddTermTerm(b, key, asInt, bucket, negate, last, m);
    TermFoldLength(b, key, asInt, bucket, negate, init, p);
    var before := BucketOf(m, bucket);
    var after := BucketOf(q, bucket);
    var t := ValueTerm(b, key, asInt, negate, last);
    assert after == before + [t.value];
    var base := |BucketOf(p, bucket)|;
    if k < |init| {
      TermFoldTermAt(b, key, asInt, bucket, negate, init, p, k);
      assert values[k] == init[k];
      assert after[base + k] == before[base + k];
    } else {
      assert k == |init|;
    }
  }

  /**
   * What lands in the bucket: the `k`-th term the loop adds is the term of the
   * `k`-th value, so the values are filed in order, none dropped or repeated.
   */
  lemma TermFoldTerms(b: Backend, key: string, asInt: bool, bucket: Bucket, negate: bool,
                      values: seq<string>, p: Pending)
    requires TermFold(b, key, asInt, bucket, negate, values, p).Ok?
    ensures |BucketOf(TermFold(b, key, asInt, bucket, negate, values, p).value, bucket)| == |BucketOf(p, bucket)| + |values|
    ensures forall k :: 0 <= k < |values| ==>
      ValueTerm(b, key, asInt, negate, values[k]) ==
        Ok(BucketOf(TermFold(b, key, asInt, bucket, negate, values, p).value, bucket)[|BucketOf(p, bucket)| + k])
  {
    TermFoldLength(b, key, asInt, bucket, negate, values, p);
    forall k | 0 <= k < |values|
      ensures ValueTerm(b, key, asInt, negate, values[k]) ==
        Ok(BucketOf(TermFold(b, key, asInt, bucket, negate, values, p).value, bucket)[|BucketOf(p, bucket)| + k])
    {
      TermFoldTermAt(b, key, asInt, bucket, negate, values, p, k);
    }
  }

  /** The key after `__int` is removed, as the loop compares it. */
  function BareKey(param: Param): string {
    StripInt(param.key).0
  }

  /** A parameter the loop reads as a `__search`. */
  predicate SearchParam(reserved: set<string>, param: Param) {
    param.key !in reserved && BareKey(param) != "role_level" && EndsWith(BareKey(param), "__search")
  }

  /** A parameter the loop reads as an ordinary filter. */
  predicate TermParam(reserved: set<string>, param: Param) {
    param.key !in reserved && BareKey(param) != "role_level" && !EndsWith(BareKey(param), "__search")
  }

  /** A `__search` parameter whose first value holds a comma: it switches the search to AND mode. */
  predicate AndSearchParam(reserved: set<string>, param: Param) {
    SearchParam(reserved, param) && AndModeSearch(param.values)
  }

  /**
   * One turn of the loop: a `__search` parameter switches to AND mode exactly
   * when its first value holds a comma and always asks for `distinct()`;
   * nothing switches back to OR mode or turns `distinct()` off; and terms,
   * and the annotations that go with them, are only ever added by ordinary
   * parameters, one term per value. A reserved key changes nothing at all, and
   * `role_level` records its first value only.
   */
  lemma StepFacts(b: Backend, reserved: set<string>, p: Pending, param: Param)
    requires Step(b, reserved, p, param).Ok?
    ensures param.key in reserved ==> Step(b, reserved, p, param).value == p
    ensures param.key !in reserved && BareKey(param) == "role_level" ==>
      param.values != [] && Step(b, reserved, p, param).value == p.(roles := p.roles + [param.values[0]])
    ensures var q := Step(b, reserved, p, param).value;
      (q.relation == AllTerms <==> p.relation == AllTerms || AndSearchParam(reserved, param)) &&
      (p.needsDistinct ==> q.needsDistinct) &&
      (SearchParam(reserved, param) ==> q.needsDistinct) &&
      (!TermParam(reserved, param) ==> q.ands == p.ands && q.ors == p.ors && q.chains == p.chains && q.annotations == p.annotations) &&
      (TermParam(reserved, param) ==>
        |q.ands| + |q.ors| + |q.chains| == |p.ands| + |p.ors| + |p.chains| + |param.values| &&
        |q.annotations| <= |p.annotations| + |param.values|)
  {
    if TermParam(reserved, param) {
      var (lookup, bucket, negate) := RouteKey(BareKey(param));
      TermFoldFilesEveryValue(b, lookup, StripInt(param.key).1, bucket, negate, param.values, p);
    }
  }

  /**
   * A `__search` turn of the loop: the values it reads are the parameter's
   * values, split on commas in AND mode, and each is recorded in the search
   * dict; entries for other terms are kept and nothing else is added. Apart
   * from the dict, the turn only sets the relation (AND in AND mode) and
   * `needs_distinct`; terms, roles and annotations stay as they were.
   */
  lemma StepSearchRecords(b: Backend, reserved: set<string>, p: Pending, param: Param)
    requires Step(b, reserved, p, param).Ok? && SearchParam(reserved, param) && DistinctTerms(p.search)
    ensures var q := Step(b, reserved, p, param).value;
      q == p.(search := q.search, relation := if AndModeSearch(param.values) then AllTerms else p.relation,
              needsDistinct := true)
    ensures var q := Step(b, reserved, p, param).value;
      var read := if AndModeSearch(param.values) then SplitAll(param.values) else param.values;
      DistinctTerms(q.search) &&
      (forall k :: 0 <= k < |read| ==> Recorded(b, BareKey(param), read[k], q.search)) &&
      (forall e: SearchEntry :: !TermOf(read, e.term) ==> (e in q.search <==> e in p.search))
  {
    var read := if AndModeSearch(param.values) then SplitAll(param.values) else param.values;
    assert Step(b, reserved, p, param).value.search == SearchFold(b, BareKey(param), read, p.search).value;
    SearchFoldRecords(b, BareKey(param), read, p.search);
  }

  /** One turn of the loop keeps the search dict free of repeated terms. */
  lemma StepKeepsDistinct(b: Backend, reserved: set<string>, p: Pending, param: Param)
    requires Step(b, reserved, p, param).Ok? && DistinctTerms(p.search)
    ensures DistinctTerms(Step(b, reserved, p, param).value.search)
  {
    if SearchParam(reserved, param) {
      StepSearchRecords(b, reserved, p, param);
    } else if TermParam(reserved, param) {
      var (lookup, bucket, negate) := RouteKey(BareKey(param));
      TermFoldFilesEveryValue(b, lookup, StripInt(param.key).1, bucket, negate, param.values, p);
    }
  }

  /** After the loop the search dict has each term at most once, as a dict does. */
  lemma {:induction false} CollectDistinctSearch(b: Backend, reserved: set<string>, params: seq<Param>)
    requires Collect(b, reserved, params).Ok?
    ensures DistinctTerms(Collect(b, reserved, params).value.search)
    decreases |params|
  {
    if params != [] {
      var init := params[..|params| - 1];
      var before := Collect(b, reserved, init);
      assert before.Ok?;
      CollectDistinctSearch(b, reserved, init);
      StepKeepsDistinct(b, reserved, before.value, params[|params| - 1]);
    }
  }

  /** Some `__search` parameter among `params` has a comma in its first value. */
  predicate SomeAndSearch(reserved: set<string>, params: seq<Param>) {
    exists i :: 0 <= i < |params| && AndSearchParam(reserved, params[i])
  }

  lemma SomeAndSearchLast(reserved: set<string>, params: seq<Param>)
    requires params != []
    ensures SomeAndSearch(reserved, params) <==>
      SomeAndSearch(reserved, params[..|params| - 1]) || AndSearchParam(reserved, params[|params| - 1])
  {
    var init := params[..|params| - 1];
    var n := |params| - 1;
    if AndSearchParam(reserved, params[n]) {
      assert 0 <= n < |params|;
    } else if SomeAndSearch(reserved, init) {
      var i :| 0 <= i < |init| && AndSearchParam(reserved, init[i]);
      assert params[i] == init[i];
    } else {
      forall i | 0 <= i < |params| ensures !AndSearchParam(reserved, params[i]) {
        if i < n {
          assert params[i] == init[i];
        }
      }
    }
  }

  /** The search relation is AND exactly when some `__search` parameter's first value holds a comma. */
  lemma {:induction false} RelationIsAnd(b: Backend, reserved: set<string>, params: seq<Param>)
    requires Collect(b, reserved, params).Ok?
    ensures Collect(b, reserved, params).value.relation == AllTerms <==> SomeAndSearch(reserved, params)
    decreases |params|
  {
    if params != [] {
      var init := params[..|params| - 1];
      RelationIsAnd(b, reserved, init);
      StepFacts(b, reserved, Collect(b, reserved, init).value, params[|params| - 1]);
      SomeAndSearchLast(reserved, params);
    }
  }

  /** One loop turn never turns `distinct()` off, and a `__search` parameter turns it on. */
  lemma StepDistinct(b: Backend, reserved: set<string>, p: Pending, param: Param)
    requires Step(b, reserved, p, param).Ok?
    ensures p.needsDistinct ==> Step(b, reserved, p, param).value.needsDistinct
    ensures SearchParam(reserved, param) ==> Step(b, reserved, p, param).value.needsDistinct
  {
    if TermParam(reserved, param) {
      var (lookup, bucket, negate) := RouteKey(BareKey(param));
      TermFoldFilesEveryValue(b, lookup, StripInt(param.key).1, bucket, negate, param.values, p);
    }
  }

  /** Any `__search` parameter makes the result distinct. */
  lemma {:induction false} SearchMakesDistinct(b: Backend, reserved: set<string>, params: seq<Param>, i: nat)
    requires Collect(b, reserved, params).Ok?
    requires i < |params| && SearchParam(reserved, params[i])
    ensures Collect(b, reserved, params).value.needsDistinct
    decreases |params|
  {
    var init, last := params[..|params| - 1], params[|params| - 1];
    var before := Collect(b, reserved, init);
    assert before.Ok? && Collect(b, reserved, params) == Step(b, reserved, before.value, last);
    StepDistinct(b, reserved, before.value, last);
    if i < |init| {
      assert params[i] == init[i];
      SearchMakesDistinct(b, reserved, init, i);
    }
  }

  /** The search loop leaves the dict non-empty exactly when it was already, or it read some value. */
  lemma SearchFoldNonEmpty(b: Backend, key: string, values: seq<string>, entries: seq<SearchEntry>)
    requires SearchFold(b, key, values, entries).Ok?
    ensures SearchFold(b, key, values, entries).value != [] <==> entries != [] || values != []
  {
  }

  /** A `__search` parameter with at least one value: the search loop reads it. */
  predicate ReadsSearch(reserved: set<string>, param: Param) {
    SearchParam(reserved, param) && param.values != []
  }

  /** Some parameter among `params` is read by the search loop. */
  predicate SomeSearchRead(reserved: set<string>, params: seq<Param>) {
    exists i :: 0 <= i < |params| && ReadsSearch(reserved, params[i])
  }

  lemma SomeSearchReadLast(reserved: set<string>, params: seq<Param>)
    requires params != []
    ensures SomeSearchRead(reserved, params) <==>
      SomeSearchRead(reserved, params[..|params| - 1]) || ReadsSearch(reserved, params[|params| - 1])
  {
    var init := params[..|params| - 1];
    var n := |params| - 1;
    if ReadsSearch(reserved, params[n]) {
      assert 0 <= n < |params|;
    } else if SomeSearchRead(reserved, init) {
      var i :| 0 <= i < |init| && ReadsSearch(reserved, init[i]);
      assert params[i] == init[i];
    } else {
      forall i | 0 <= i < |params| ensures !ReadsSearch(reserved, params[i]) {
        if i < n {
          assert params[i] == init[i];
        }
      }
    }
  }

  /** One turn of the loop reads a search value exactly when it handles a `__search` key with values. */
  lemma StepSearchRead(b: Backend, reserved: set<string>, p: Pending, param: Param)
    requires Step(b, reserved, p, param).Ok?
    ensures Step(b, reserved, p, param).value.search != [] <==> p.search != [] || ReadsSearch(reserved, param)
  {
    if TermParam(reserved, param) {
      var (lookup, bucket, negate) := RouteKey(BareKey(param));
      TermFoldFilesEveryValue(b, lookup, StripInt(param.key).1, bucket, negate, param.values, p);
    } else if SearchParam(reserved, param) {
      var key := BareKey(param);
      var values := if AndModeSearch(param.values) then SplitAll(param.values) else param.values;
      assert values != [] <==> param.values != [];
      SearchFoldNonEmpty(b, key, values, p.search);
    }
  }

  /**
   * After the loop, the `search_filters` dict is non-empty exactly when some
   * unreserved `__search` parameter had a value, that is exactly when the
   * search loop's assignment to `_` ran.
   */
  lemma {:induction false} SearchValueRead(b: Backend, reserved: set<string>, params: seq<Param>)
    requires Collect(b, reserved, params).Ok?
    ensures Collect(b, reserved, params).value.search != [] <==> SomeSearchRead(reserved, params)
    decreases |params|
  {
    if params != [] {
      var init := params[..|params| - 1];
      var before := Collect(b, reserved, init);
      assert before.Ok?;
      SearchValueRead(b, reserved, init);
      StepSearchRead(b, reserved, before.value, params[|params| - 1]);
      SomeSearchReadLast(reserved, params);
    }
  }

  /** Every `_as_txt` annotation comes with a recorded term. */
  lemma {:induction false} AnnotationsNeedTerms(b: Backend, reserved: set<string>, params: seq<Param>)
    requires Collect(b, reserved, params).Ok?
    ensures var p := Collect(b, reserved, params).value;
      |p.annotations| <= |p.ands| + |p.ors| + |p.chains|
    decreases |params|
  {
    if params != [] {
      var init := params[..|params| - 1];
      AnnotationsNeedTerms(b, reserved, init);
      StepFacts(b, reserved, Collect(b, reserved, init).value, params[|params| - 1]);
    }
  }

  /** With no filter recorded, the queryset is returned untouched. */
  lemma NoFiltersNoCalls(b: Backend, reserved: set<string>, params: seq<Param>)
    requires Collect(b, reserved, params).Ok? && !HasFilters(Collect(b, reserved, params).value)
    ensures Compile(b, reserved, params) == Ok([])
  {
    AnnotationsNeedTerms(b, reserved, params);
  }

  /** The parameter loop over `params` and one more parameter. */
  lemma CollectSnoc(b: Backend, reserved: set<string>, params: seq<Param>, last: Param)
    ensures Collect(b, reserved, params + [last]) ==
      if Collect(b, reserved, params).Err? then Collect(b, reserved, params)
      else Step(b, reserved, Collect(b, reserved, params).value, last)
  {
    assert (params + [last])[..|params|] == params;
  }

  /** A parameter whose key is reserved can be put anywhere without changing the outcome. */
  lemma {:induction false} ReservedParamSkipped(b: Backend, reserved: set<string>, params: seq<Param>, k: nat, extra: Param)
    requires k <= |params| && extra.key in reserved
    ensures Collect(b, reserved, params[..k] + [extra] + params[k..]) == Collect(b, reserved, params)
    decreases |params|
  {
    if k == |params| {
      assert params[..k] + [extra] + params[k..] == params + [extra];
      ReservedParamAppended(b, reserved, params, extra);
    } else {
      var init := params[..|params| - 1];
      var last := params[|params| - 1];
      var mixed := init[..k] + [extra] + init[k..];
      ReservedParamSkipped(b, reserved, init, k, extra);
      InsertBeforeLast(params, k, extra);
      CollectSnoc(b, reserved, mixed, last);
      CollectSnoc(b, reserved, init, last);
    }
  }

  /** Inserting before position `k < |s|` leaves the last element last. */
  lemma InsertBeforeLast<T>(s: seq<T>, k: nat, x: T)
    requires k < |s|
    ensures s == s[..|s| - 1] + [s[|s| - 1]]
    ensures s[..k] + [x] + s[k..] == s[..|s| - 1][..k] + [x] + s[..|s| - 1][k..] + [s[|s| - 1]]
  {
    var init := s[..|s| - 1];
    assert s[k..] == init[k..] + [s[|s| - 1]];
  }

  /** A parameter with a reserved key at the end changes nothing. */
  lemma ReservedParamAppended(b: Backend, reserved: set<string>, params: seq<Param>, extra: Param)
    requires extra.key in reserved
    ensures Collect(b, reserved, params + [extra]) == Collect(b, reserved, params)
  {
    CollectSnoc(b, reserved, params, extra);
  }

  // ---------------------------------------------------------------------------
  // The unhashable-key path is never taken

  /** A converted value is refused as a dictionary key only when it carries several lookups. */
  lemma FileTermUnhashable(bucket: Bucket, negate: bool, c: Converted, p: Pending)
    ensures FileTerm(bucket, negate, c, p) == Err(UnhashableKey) <==> c.lookup.SearchKeys?
  {
  }

  /** A value of an ordinary key never comes back as a list of lookups. */
  lemma AddTermNeverUnhashable(b: Backend, key: string, asInt: bool, bucket: Bucket, negate: bool, raw: string, p: Pending)
    requires !EndsWith(key, "__search")
    ensures AddTerm(b, key, asInt, bucket, negate, raw, p) != Err(UnhashableKey)
  {
    var pv := ParamValue(raw, asInt);
    if pv.Ok? {
      LookupValueNeverUnhashable(b, key, pv.value);
      var c := LookupValue(b, key, pv.value);
      if c.Ok? {
        if c.value.lookup.SearchKeys? {
          OnlySearchKeysFanOut(b, key, pv.value);
        }
        FileTermUnhashable(bucket, negate, c.value, p);
        assert AddTerm(b, key, asInt, bucket, negate, raw, p) == FileTerm(bucket, negate, c.value, p);
      }
    }
  }

  lemma {:induction false} TermFoldNeverUnhashable(b: Backend, key: string, asInt: bool, bucket: Bucket, negate: bool,
                                                   values: seq<string>, p: Pending)
    requires !EndsWith(key, "__search")
    ensures TermFold(b, key, asInt, bucket, negate, values, p) != Err(UnhashableKey)
    decreases |values|
  {
    if values != [] {
      var init := values[..|values| - 1];
      TermFoldNeverUnhashable(b, key, asInt, bucket, negate, init, p);
      var before := TermFold(b, key, asInt, bucket, negate, init, p);
      if before.Ok? {
        AddTermNeverUnhashable(b, key, asInt, bucket, negate, values[|values| - 1], before.value);
      }
    }
  }

  /** Removing prefixes keeps a key's ending. */
  lemma EndsWithSuffixOf(prefix: string, rest: string, suffix: string)
    requires EndsWith(rest, suffix)
    ensures EndsWith(prefix + rest, suffix)
  {
    var s := prefix + rest;
    assert s[|s| - |suffix|..] == rest[|rest| - |suffix|..];
  }

  lemma {:induction false} SearchFoldNeverUnhashable(b: Backend, key: string, values: seq<string>, entries: seq<SearchEntry>)
    ensures SearchFold(b, key, values, entries) != Err(UnhashableKey)
    decreases |values|
  {
    if values != [] {
      SearchFoldNeverUnhashable(b, key, values[..|values| - 1], entries);
      LookupValueNeverUnhashable(b, key, Str(values[|values| - 1]));
    }
  }

  /** The lookup of an ordinary parameter does not end with `__search`. */
  lemma TermLookupNotSearch(reserved: set<string>, param: Param)
    requires TermParam(reserved, param)
    ensures !EndsWith(RouteKey(BareKey(param)).0, "__search")
  {
    var (lookup, bucket, negate) := RouteKey(BareKey(param));
    if EndsWith(lookup, "__search") {
      EndsWithSuffixOf(BucketPrefix(bucket) + (if negate then "not__" else ""), lookup, "__search");
    }
  }

  lemma StepNeverUnhashable(b: Backend, reserved: set<string>, p: Pending, param: Param)
    ensures Step(b, reserved, p, param) != Err(UnhashableKey)
  {
    var key := BareKey(param);
    if param.key !in reserved && key != "role_level" {
      if EndsWith(key, "__search") {
        var values := if AndModeSearch(param.values) then SplitAll(param.values) else param.values;
        SearchFoldNeverUnhashable(b, key, values, p.search);
      } else {
        TermLookupNotSearch(reserved, param);
        var r := RouteKey(key);
        TermFoldNeverUnhashable(b, r.0, StripInt(param.key).1, r.1, r.2, param.values, p);
      }
    }
  }

  /**
   * The search dictionary is keyed by a value of an ordinary key only if that
   * value came back with a list of lookups, which happens for `__search` keys
   * alone; so `filter_queryset` never fails on an unhashable dictionary key.
   */
  lemma {:induction false} CompileNeverUnhashable(b: Backend, reserved: set<string>, params: seq<Param>)
    ensures Collect(b, reserved, params) != Err(UnhashableKey)
    ensures Compile(b, reserved, params) != Err(UnhashableKey)
    decreases |params|
  {
    if params != [] {
      var init := params[..|params| - 1];
      CompileNeverUnhashable(b, reserved, init);
      if Collect(b, reserved, init).Ok? {
        StepNeverUnhashable(b, reserved, Collect(b, reserved, init).value, params[|params| - 1]);
      }
    }
  }

  // ---------------------------------------------------------------------------
  // What the filter assembly promises

  /** The only failure of the assembly is a `role_level` filter on a model without role-based access. */
  lemma AssembleRefusal(schema: Schema, p: Pending)
    ensures Assemble(schema, p).Err? <==> p.roles != [] && !schema.hasAccessiblePkQs
    ensures Assemble(schema, p).Err? ==> Assemble(schema, p).error == NoRoleAccess
  {
  }

  /** `distinct()` is applied exactly when some filter was recorded and it was asked for, and always last. */
  lemma AssembleDistinct(schema: Schema, p: Pending)
    requires Assemble(schema, p).Ok?
    ensures Distinct in Assemble(schema, p).value <==> HasFilters(p) && p.needsDistinct
    ensures Distinct in Assemble(schema, p).value ==> Assemble(schema, p).value[|Assemble(schema, p).value| - 1] == Distinct
  {
    var r := Assemble(schema, p).value;
    var annotate := AnnotateCalls(p.annotations);
    assert Distinct !in annotate;
    if HasFilters(p) {
      var searchCalls := if p.relation == AllTerms then SearchFilters(p.search) else [];
      var chainCalls := ChainFilters(p.chains);
      var head := annotate + searchCalls + chainCalls + [Filter(MainArgs(p))];
      assert Distinct !in searchCalls && Distinct !in chainCalls;
      assert Distinct !in head;
      assert r == head + (if p.needsDistinct then [Distinct] else []);
    }
  }

  /** How many filters the AND-mode search makes: one per search term, none in OR mode. */
  function AndSearchCount(p: Pending): nat {
    if p.relation == AllTerms then |p.search| else 0
  }

  /**
   * The order of the calls: the `_as_txt` annotations; in AND mode one filter
   * per search term, each a disjunction over its lookups; one filter per chain
   * term; the one filter holding everything else; then `distinct()` if flagged.
   */
  lemma AssembleOrder(schema: Schema, p: Pending)
    requires HasFilters(p) && Assemble(schema, p).Ok?
    ensures |Assemble(schema, p).value| ==
      |p.annotations| + AndSearchCount(p) + |p.chains| + 1 + (if p.needsDistinct then 1 else 0)
    ensures forall k :: 0 <= k < |p.annotations| ==>
      Assemble(schema, p).value[k] == Annotate(p.annotations[k].alias, p.annotations[k].source)
    ensures forall k :: 0 <= k < AndSearchCount(p) ==>
      Assemble(schema, p).value[|p.annotations| + k] == Filter([Disjunction(EntryLeaves(p.search[k]))])
    ensures forall k :: 0 <= k < |p.chains| ==>
      Assemble(schema, p).value[|p.annotations| + AndSearchCount(p) + k] == Filter([TermQ(p.chains[k])])
    ensures Assemble(schema, p).value[|p.annotations| + AndSearchCount(p) + |p.chains|] == Filter(MainArgs(p))
  {
    AssembleParts(schema, p);
    var tail := [Filter(MainArgs(p))] + (if p.needsDistinct then [Distinct] else []);
    var sc := if p.relation == AllTerms then SearchFilters(p.search) else [];
    PartsOrder(p, AnnotateCalls(p.annotations), sc, ChainFilters(p.chains), tail, Assemble(schema, p).value);
  }

  /** The index layout of the calls, given as their parts. */
  lemma PartsOrder(p: Pending, ann: seq<QuerysetCall>, sc: seq<QuerysetCall>, cc: seq<QuerysetCall>,
                   tail: seq<QuerysetCall>, r: seq<QuerysetCall>)
    requires ann == AnnotateCalls(p.annotations)
    requires sc == if p.relation == AllTerms then SearchFilters(p.search) else []
    requires cc == ChainFilters(p.chains)
    requires tail != [] && r == ann + sc + cc + tail
    ensures |r| == |p.annotations| + AndSearchCount(p) + |p.chains| + |tail|
    ensures forall k :: 0 <= k < |p.annotations| ==> r[k] == Annotate(p.annotations[k].alias, p.annotations[k].source)
    ensures forall k :: 0 <= k < AndSearchCount(p) ==>
      r[|p.annotations| + k] == Filter([Disjunction(EntryLeaves(p.search[k]))])
    ensures forall k :: 0 <= k < |p.chains| ==>
      r[|p.annotations| + AndSearchCount(p) + k] == Filter([TermQ(p.chains[k])])
    ensures r[|p.annotations| + AndSearchCount(p) + |p.chains|] == tail[0]
  {
    assert |ann| == |p.annotations| && |sc| == AndSearchCount(p);
    forall k | 0 <= k < |p.annotations|
      ensures r[k] == Annotate(p.annotations[k].alias, p.annotations[k].source)
    {
      CallsAt(ann, sc, cc, tail, r, k);
      assert r[k] == ann[k];
    }
    forall k | 0 <= k < AndSearchCount(p)
      ensures r[|p.annotations| + k] == Filter([Disjunction(EntryLeaves(p.search[k]))])
    {
      assert sc == SearchFilters(p.search);
      CallsAt(ann, sc, cc, tail, r, k);
      assert r[|ann| + k] == sc[k];
    }
    forall k | 0 <= k < |p.chains|
      ensures r[|p.annotations| + AndSearchCount(p) + k] == Filter([TermQ(p.chains[k])])
    {
      CallsAt(ann, sc, cc, tail, r, k);
      assert r[|ann| + |sc| + k] == cc[k];
    }
    CallsAt(ann, sc, cc, tail, r, 0);
  }

  /** Where the `k`-th call of each of four concatenated runs sits in the whole. */
  lemma CallsAt(ann: seq<QuerysetCall>, sc: seq<QuerysetCall>, cc: seq<QuerysetCall>, tail: seq<QuerysetCall>,
                r: seq<QuerysetCall>, k: nat)
    requires r == ann + sc + cc + tail
    ensures |r| == |ann| + |sc| + |cc| + |tail|
    ensures k < |ann| ==> r[k] == ann[k]
    ensures k < |sc| ==> r[|ann| + k] == sc[k]
    ensures k < |cc| ==> r[|ann| + |sc| + k] == cc[k]
    ensures k < |tail| ==> r[|ann| + |sc| + |cc| + k] == tail[k]
  {
    var front := ann + sc;
    var head := front + cc;
    assert r == head + tail;
    if k < |ann| {
      assert r[k] == head[k] == front[k];
    }
    if k < |sc| {
      assert r[|ann| + k] == head[|ann| + k] == front[|ann| + k];
    }
    if k < |cc| {
      assert r[|ann| + |sc| + k] == head[|ann| + |sc| + k];
    }
  }

  /** The calls of a successful assembly, part by part. */
  lemma AssembleParts(schema: Schema, p: Pending)
    requires HasFilters(p) && Assemble(schema, p).Ok?
    ensures Assemble(schema, p).value ==
      AnnotateCalls(p.annotations) +
      (if p.relation == AllTerms then SearchFilters(p.search) else []) +
      ChainFilters(p.chains) +
      ([Filter(MainArgs(p))] + (if p.needsDistinct then [Distinct] else []))
  {
  }

  /**
   * The arguments of the main filter: every AND term, negated where flagged;
   * one `pk__in` condition per role; one disjunction of all OR terms when
   * there are any; and in OR mode one disjunction of every search lookup.
   */
  lemma MainArgsLayout(p: Pending)
    ensures var args := MainArgs(p);
      var n := |p.ands| + |p.roles|;
      var o := if p.ors != [] then 1 else 0;
      |args| == n + o + (if p.search != [] && p.relation == AnyTerm then 1 else 0) &&
      (forall k :: 0 <= k < |p.ands| ==> args[k] == Leaf(p.ands[k].negate, p.ands[k].key, p.ands[k].value)) &&
      (forall k :: 0 <= k < |p.roles| ==> args[|p.ands| + k] == Leaf(false, "pk__in", AccessibleTo(p.roles[k]))) &&
      (p.ors != [] ==> args[n] == AnyOf(TermLeaves(p.ors))) &&
      (p.search != [] && p.relation == AnyTerm ==> args[n + o] == Disjunction(SearchLeaves(p.search)))
  {
    var args := MainArgs(p);
    var ands := TermLeaves(p.ands);
    var roles := RoleLeaves(p.roles);
    var orPart := if p.ors != [] then [Disjunction(TermLeaves(p.ors))] else [];
    var searchPart := if p.search != [] && p.relation == AnyTerm then [Disjunction(SearchLeaves(p.search))] else [];
    var fixed := ands + roles;
    var front := fixed + orPart;
    assert args == front + searchPart;
    forall k | 0 <= k < |p.ands| ensures args[k] == TermQ(p.ands[k]) {
      assert args[k] == front[k] && front[k] == fixed[k] && fixed[k] == ands[k];
    }
    forall k | 0 <= k < |p.roles| ensures args[|p.ands| + k] == roles[k] {
      assert args[|p.ands| + k] == front[|p.ands| + k] && front[|p.ands| + k] == fixed[|p.ands| + k];
    }
    if p.ors != [] {
      assert args[|fixed|] == front[|fixed|];
    }
  }

  /** The OR-mode search disjunction holds one condition per search term and lookup, and no other. */
  lemma {:induction false} SearchLeavesCover(entries: seq<SearchEntry>)
    ensures forall i, k :: 0 <= i < |entries| && 0 <= k < |entries[i].constraints| ==>
      Leaf(false, entries[i].constraints[k], entries[i].term) in SearchLeaves(entries)
    ensures forall q :: q in SearchLeaves(entries) ==>
      exists i, k :: 0 <= i < |entries| && 0 <= k < |entries[i].constraints| &&
        q == Leaf(false, entries[i].constraints[k], entries[i].term)
    decreases |entries|
  {
    if entries != [] {
      var init := entries[..|entries| - 1];
      var last := entries[|entries| - 1];
      SearchLeavesCover(init);
      assert SearchLeaves(entries) == SearchLeaves(init) + EntryLeaves(last);
      forall i, k | 0 <= i < |entries| && 0 <= k < |entries[i].constraints|
        ensures Leaf(false, entries[i].constraints[k], entries[i].term) in SearchLeaves(entries)
      {
        if i < |init| {
          assert entries[i] == init[i];
        } else {
          assert EntryLeaves(last)[k] == Leaf(false, entries[i].constraints[k], entries[i].term);
        }
      }
      forall q | q in SearchLeaves(entries)
        ensures exists i, k ::
          0 <= i < |entries| && 0 <= k < |entries[i].constraints| && q == Leaf(false, entries[i].constraints[k], entries[i].term)
      {
        if q in SearchLeaves(init) {
          var i, k :| 0 <= i < |init| && 0 <= k < |init[i].constraints| && q == Leaf(false, init[i].constraints[k], init[i].term);
          assert entries[i] == init[i];
        } else {
          var k :| 0 <= k < |EntryLeaves(last)| && EntryLeaves(last)[k] == q;
          assert q == Leaf(false, entries[|entries| - 1].constraints[k], entries[|entries| - 1].term);
        }
      }
    }
  }

  /** Once some filter is recorded, a query string with a `__search` parameter ends in `distinct()`. */
  lemma SearchQueryIsDistinct(b: Backend, reserved: set<string>, params: seq<Param>, i: nat)
    requires Compile(b, reserved, params).Ok? && HasFilters(Collect(b, reserved, params).value)
    requires i < |params| && SearchParam(reserved, params[i])
    ensures var calls := Compile(b, reserved, params).value;
      |calls| > 0 && calls[|calls| - 1] == Distinct
  {
    var p := Collect(b, reserved, params).value;
    SearchMakesDistinct(b, reserved, params, i);
    AssembleDistinct(b.schema, p);
    assert Compile(b, reserved, params) == Assemble(b.schema, p);
  }
}
