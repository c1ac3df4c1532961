/**
 * The command-line query parsers of the sandbox tool (`sandbox.ts`): the
 * classification of a record id in `findById`, `maybeParseValue`, and the
 * predicate, combination and sort-spec parsing of `find`. The database
 * calls themselves are not modelled; the result is the query object and
 * the cursor options that would be handed to them. `parseInt`,
 * `parseFloat`, `JSON.parse`, `new RegExp` and `new ObjectId` stay
 * uninterpreted: the query records the call and its argument.
 */
module Query {
  import opened Wrappers
  import opened Strings

  /** A value inside a query object. */
  datatype QValue =
    | QNull
    | QBool(b: bool)
    | QStr(s: string)
    | QParseFloat(text: string)   // parseFloat(text)
    | QParseInt(text: string)     // parseInt(text)
    | QJson(text: string)         // JSON.parse(text)
    | QObjectId(hex: string)      // new ObjectId(hex)
    | QRegex(source: QValue)      // new RegExp(source)
    | QOp(op: string, operand: QValue) // {[op]: operand}

  /** A query object: field name to value. */
  type Predicate = map<string, QValue>

  const IdField := "_id"
  const ActiveRowStatus := "A"

  function CollectionNotFound(collection: string): string {
    "collection " + collection + " not found"
  }

  // ------------------------------------------------------------ findById

  /** A 24-hex-digit string becomes an ObjectId; anything else stays a string. */
  function IdValue(s: string): (r: QValue)
    ensures r.QObjectId? <==> IsObjectIdHex(s)
    ensures r == QObjectId(s) || r == QStr(s)
  {
    if IsObjectIdHex(s) then QObjectId(s) else QStr(s)
  }

  /**
   * `findById(collection, id)`: `field=value` looks the value up in that
   * field (split at the first `=`, which wins over any `.`); `name.version`
   * looks up a version (split at the first `.`); a bare ObjectId looks up
   * `_id`; anything else is the latest active row with that id.
   */
  function FindById(models: set<string>, collection: string, id: string): (r: Result<Predicate, string>)
    ensures collection !in models <==> r.Err?
    ensures r.Err? ==> r.error == CollectionNotFound(collection)
    ensures r.Ok? && '=' in id ==>
      var e := IndexOf(id, '=');
      r.value == map[id[..e] := IdValue(id[e + 1..])]
    ensures r.Ok? && '=' !in id && '.' in id ==>
      var d := IndexOf(id, '.');
      r.value == map["id" := QStr(id[..d]), "version" := QParseInt(id[d + 1..])]
    ensures r.Ok? && '=' !in id && '.' !in id ==>
      r.value == if IsObjectIdHex(id) then map[IdField := QObjectId(id)]
                 else map["id" := QStr(id), "row_status" := QStr(ActiveRowStatus)]
  {
    if collection !in models then Err(CollectionNotFound(collection))
    else
      var e := IndexOf(id, '=');
      var d := IndexOf(id, '.');
      if e != -1 then Ok(map[id[..e] := IdValue(id[e + 1..])])
      else if d != -1 then Ok(map["id" := QStr(id[..d]), "version" := QParseInt(id[d + 1..])])
      else if IsObjectIdHex(id) then Ok(map[IdField := QObjectId(id)])
      else Ok(map["id" := QStr(id), "row_status" := QStr(ActiveRowStatus)])
  }

  /** `field=value` with a field free of `=` looks up exactly that field, whatever dots either side holds. */
  lemma FieldLookupRoundTrip(models: set<string>, collection: string, field: string, value: string)
    requires collection in models && '=' !in field
    ensures FindById(models, collection, field + "=" + value) == Ok(map[field := IdValue(value)])
  {
    var id := field + "=" + value;
    assert id[|field|] == '=' && id[..|field|] == field && id[|field| + 1..] == value;
  }

  /** `name.version` with a name free of `.` and `=` and a version free of `=` looks up that version. */
  lemma VersionLookupRoundTrip(models: set<string>, collection: string, name: string, version: string)
    requires collection in models && '=' !in name && '.' !in name && '=' !in version
    ensures FindById(models, collection, name + "." + version)
         == Ok(map["id" := QStr(name), "version" := QParseInt(version)])
  {
    var id := name + "." + version;
    assert id[|name|] == '.' && id[..|name|] == name && id[|name| + 1..] == version;
    assert '=' !in id by {
      forall i | 0 <= i < |id|
        ensures id[i] != '='
      {
        if i < |name| { assert id[i] == name[i]; }
        else if i > |name| { assert id[i] == version[i - |name| - 1]; }
      }
    }
  }

  // ---------------------------------------------------- maybeParseValue

  predicate IsNumberText(v: string) {
    |v| > 0 && forall i :: 0 <= i < |v| ==> '0' <= v[i] <= '9' || v[i] == '.'
  }

  predicate LooksLikeJson(v: string) {
    |v| > 0 && v[0] in "{['\""
  }

  /** The strings `maybeParseValue` hands back unchanged. */
  predicate IsPlainText(v: string) {
    v != "null" && v != "true" && v != "false" && !IsNumberText(v) && !LooksLikeJson(v)
  }

  /**
   * `maybeParseValue`: the literals `null`, `true` and `false`; digits and
   * dots go through `parseFloat`; text opening with a brace, a bracket or
   * a quote goes through `JSON.parse`; anything else is kept as it is.
   */
  function MaybeParseValue(v: string): (r: QValue)
    ensures r.QStr? <==> IsPlainText(v)
    ensures r.QStr? ==> r.s == v
    ensures r.QParseFloat? <==> IsNumberText(v)
    ensures r.QJson? <==> LooksLikeJson(v) && !IsNumberText(v)
    ensures (r.QNull? || r.QBool?) <==> v in {"null", "true", "false"}
    ensures r.QBool? ==> (r.b <==> v == "true")
  {
    if v == "null" then assert v[0] == 'n'; QNull
    else if v == "true" then assert v[0] == 't'; QBool(true)
    else if v == "false" then assert v[0] == 'f'; QBool(false)
    else if IsNumberText(v) then QParseFloat(v)
    else if LooksLikeJson(v) then QJson(v)
    else QStr(v)
  }

  // ---------------------------------------------------------- predicates

  /**
   * The match of `/(.+)\.(\$[a-zA-Z]+$)/` against a field name: the name
   * part and the operator. The operator is `$` and the trailing letters;
   * the name part is what precedes the dot back to the nearest line
   * terminator (`.` matches anything else), and must not be empty.
   */
  function OperatorSuffix(f: string): (r: Option<(string, string)>)
    ensures r.Some? ==>
      var (name, op) := r.value;
      && |name| > 0 && |op| >= 2 && op[0] == '$'
      && (forall i :: 1 <= i < |op| ==> IsAsciiLetter(op[i]))
      && (forall i :: 0 <= i < |name| ==> !IsLineTerminator(name[i]))
      && |name| + 1 + |op| <= |f|
      && f[|f| - |op|..] == op && f[|f| - |op| - 1] == '.'
      && f[|f| - |op| - 1 - |name|..|f| - |op| - 1] == name
  {
    var n := TrailingRun(f, IsAsciiLetter);
    if n == 0 || |f| < n + 2 || f[|f| - n - 1] != '$' || f[|f| - n - 2] != '.' then None
    else
      var k := |f| - n - 2;
      var head := f[..k];
      var m := TrailingRun(head, c => !IsLineTerminator(c));
      if m == 0 then None
      else
        var name := head[k - m..];
        var op := f[k + 1..];
        Some((name, op))
  }

  /** A `field.$op` suffix is recognised and split off. */
  lemma OperatorSuffixRecognised(field: string, letters: string)
    requires |field| > 0 && forall i :: 0 <= i < |field| ==> !IsLineTerminator(field[i])
    requires |letters| > 0 && forall i :: 0 <= i < |letters| ==> IsAsciiLetter(letters[i])
    ensures OperatorSuffix(field + ".$" + letters) == Some((field, "$" + letters))
  {
    var f := field + ".$" + letters;
    var n := TrailingRun(f, IsAsciiLetter);
    assert f[|f| - |letters| - 1] == '$';
    assert n == |letters|;
    var k := |f| - n - 2;
    assert f[..k] == field;
    assert TrailingRun(field, c => !IsLineTerminator(c)) == |field|;
    assert f[k + 1..] == "$" + letters;
  }

  function InvalidPredicate(item: string): string {
    "invalid predicate \"" + item + "\", = must follow field name"
  }

  /** `/x/` shaped text, three characters or more. */
  predicate IsSlashed(v: QValue) {
    v.QStr? && |v.s| >= 3 && v.s[0] == '/' && v.s[|v.s| - 1] == '/'
  }

  /**
   * The object one predicate builds: `$regex` wraps the value in a
   * `RegExp`; any operator but `$eq` nests the value under it.
   */
  function Shape(field: string, op: Option<string>, value: QValue): (r: Predicate)
    ensures r.Keys == {field}
    ensures op.Some? && op.value != "$eq" ==> r[field].QOp? && r[field].op == op.value
    ensures op.None? || op.value == "$eq" ==> r[field] == value
    ensures op == Some("$regex") ==> r[field].operand == QRegex(value)
  {
    var v := if op == Some("$regex") then QRegex(value) else value;
    if op.Some? && op.value != "$eq" then map[field := QOp(op.value, v)] else map[field := v]
  }

  /**
   * The left-hand side `lhs` of a predicate (before its first `=`) and the
   * parsed value: `!` at the end negates; a `.$op` suffix on the field sets
   * the operator (overriding `!=`); otherwise a `/…/` value becomes a
   * `$regex` (overriding `!=` too).
   */
  function Comparison(lhs: string, value: QValue): (r: Predicate)
    ensures |r.Keys| == 1
  {
    var negated := |lhs| > 0 && lhs[|lhs| - 1] == '!';
    var field := if negated then lhs[..|lhs| - 1] else lhs;
    match OperatorSuffix(field)
    case Some((name, op)) => Shape(name, Some(op), value)
    case None =>
      if IsSlashed(value) then Shape(field, Some("$regex"), QStr(value.s[1..|value.s| - 1]))
      else Shape(field, if negated then Some("$ne") else None, value)
  }

  /**
   * One argument of `find`. Without `=` it is an `_id`; `=` first is an
   * error; otherwise the text before the first `=` is compared with the
   * parsed text after it.
   */
  function ParsePredicate(item: string): (r: Result<Predicate, string>)
    ensures r.Err? <==> IndexOf(item, '=') == 0
    ensures r.Err? ==> r.error == InvalidPredicate(item)
    ensures '=' !in item ==> r == Ok(map[IdField := MaybeParseValue(item)])
    ensures r.Ok? ==> |r.value.Keys| == 1
  {
    var eq := IndexOf(item, '=');
    if eq == -1 then Ok(map[IdField := MaybeParseValue(item)])
    else if eq == 0 then Err(InvalidPredicate(item))
    else Ok(Comparison(item[..eq], MaybeParseValue(item[eq + 1..])))
  }

  /** A predicate splits at its first `=`. */
  lemma SplitAtFirstEquals(lhs: string, rhs: string)
    requires |lhs| > 0 && '=' !in lhs
    ensures ParsePredicate(lhs + "=" + rhs) == Ok(Comparison(lhs, MaybeParseValue(rhs)))
  {
    var item := lhs + "=" + rhs;
    assert item[|lhs|] == '=' && item[..|lhs|] == lhs && item[|lhs| + 1..] == rhs;
  }

  /** A field name with no special ending: not `!`, no `.$op`, no `=`. */
  predicate IsPlainField(field: string) {
    |field| > 0 && '=' !in field && field[|field| - 1] != '!' && OperatorSuffix(field).None?
  }

  /** `field=value` for a plain field: exact match on the parsed value, unless the value is `/…/`. */
  lemma EqualityRoundTrip(field: string, value: string)
    requires IsPlainField(field) && !IsSlashed(MaybeParseValue(value))
    ensures ParsePredicate(field + "=" + value) == Ok(map[field := MaybeParseValue(value)])
  {
    SplitAtFirstEquals(field, value);
  }

  /** After `!`, a plain field compares with `$ne`, or with `$regex` for a `/…/` value. */
  lemma NegatedComparison(field: string, value: QValue)
    requires IsPlainField(field)
    ensures Comparison(field + "!", value)
         == if IsSlashed(value) then Shape(field, Some("$regex"), QStr(value.s[1..|value.s| - 1]))
            else Shape(field, Some("$ne"), value)
  {
    var lhs := field + "!";
    assert lhs[..|lhs| - 1] == field;
  }

  /** `field!=value` for a plain field: `$ne` on the parsed value, unless the value is `/…/`. */
  lemma NegationRoundTrip(field: string, value: string)
    requires IsPlainField(field) && !IsSlashed(MaybeParseValue(value))
    ensures ParsePredicate(field + "!=" + value) == Ok(map[field := QOp("$ne", MaybeParseValue(value))])
  {
    var lhs := field + "!";
    assert field + "!=" + value == lhs + "=" + value;
    assert '=' !in lhs;
    SplitAtFirstEquals(lhs, value);
    NegatedComparison(field, MaybeParseValue(value));
  }

  /** A `/…/` value becomes a regular expression, even after `!=`: the negation is lost. */
  lemma RegexOverridesNegation(field: string, body: string)
    requires IsPlainField(field) && |body| > 0
    ensures ParsePredicate(field + "!=/" + body + "/")
         == Ok(map[field := QOp("$regex", QRegex(QStr(body)))])
  {
    var lhs := field + "!";
    var value := "/" + body + "/";
    assert field + "!=/" + body + "/" == lhs + "=" + value;
    assert '=' !in lhs;
    SplitAtFirstEquals(lhs, value);
    SlashedValue(body);
    NegatedComparison(field, QStr(value));
  }

  /** `/body/` is kept as text and is slashed around `body`. */
  lemma SlashedValue(body: string)
    requires |body| > 0
    ensures var value := "/" + body + "/";
      MaybeParseValue(value) == QStr(value) && IsSlashed(QStr(value)) && value[1..|value| - 1] == body
  {
    var value := "/" + body + "/";
    assert value[0] == '/' && value[|value| - 1] == '/';
    assert !IsNumberText(value);
    assert value[1..|value| - 1] == body;
  }

  /**
   * `field.$op=value` (also after `!`): the operator nests the parsed value,
   * except `$eq`, which is plain equality.
   */
  lemma OperatorRoundTrip(field: string, letters: string, value: string)
    requires |field| > 0 && '=' !in field && forall i :: 0 <= i < |field| ==> !IsLineTerminator(field[i])
    requires |letters| > 0 && forall i :: 0 <= i < |letters| ==> IsAsciiLetter(letters[i])
    ensures ParsePredicate(field + ".$" + letters + "=" + value)
         == Ok(Shape(field, Some("$" + letters), MaybeParseValue(value)))
  {
    var f := field + ".$" + letters;
    assert '=' !in f by {
      forall i | 0 <= i < |f|
        ensures f[i] != '='
      {
        if i < |field| { assert f[i] == field[i]; }
        else if i >= |field| + 2 { assert f[i] == letters[i - |field| - 2]; }
      }
    }
    SplitAtFirstEquals(f, value);
    assert f[|f| - 1] == letters[|letters| - 1];
    OperatorSuffixRecognised(field, letters);
  }

  /** The operator suffix wins over a `!` before the `=`: the negation is lost. */
  lemma OperatorOverridesNegation(field: string, letters: string, value: string)
    requires |field| > 0 && '=' !in field && forall i :: 0 <= i < |field| ==> !IsLineTerminator(field[i])
    requires |letters| > 0 && forall i :: 0 <= i < |letters| ==> IsAsciiLetter(letters[i])
    ensures ParsePredicate(field + ".$" + letters + "!=" + value)
         == Ok(Shape(field, Some("$" + letters), MaybeParseValue(value)))
  {
    var f := field + ".$" + letters;
    var lhs := f + "!";
    assert field + ".$" + letters + "!=" + value == lhs + "=" + value;
    assert '=' !in lhs by {
      forall i | 0 <= i < |lhs|
        ensures lhs[i] != '='
      {
        if i < |field| { assert lhs[i] == field[i]; }
        else if |field| + 2 <= i < |f| { assert lhs[i] == letters[i - |field| - 2]; }
      }
    }
    SplitAtFirstEquals(lhs, value);
    assert lhs[..|lhs| - 1] == f;
    OperatorSuffixRecognised(field, letters);
  }

  /** `field.$eq=value` is plain equality. */
  lemma EqOperatorIsEquality(field: string, value: string)
    requires |field| > 0 && '=' !in field && forall i :: 0 <= i < |field| ==> !IsLineTerminator(field[i])
    ensures ParsePredicate(field + ".$" + "eq" + "=" + value) == Ok(map[field := MaybeParseValue(value)])
  {
    OperatorRoundTrip(field, "eq", value);
    assert "$" + "eq" == "$eq";
  }

  // --------------------------------------------------------- combination

  /** The query `find` sends: all predicates at once, or any of them. */
  datatype Filter = AllOf(fields: Predicate) | AnyOf(predicates: seq<Predicate>)

  /** `_.reduce(predicates, _.assignIn, {})`: merged left to right. */
  function MergeAll(ps: seq<Predicate>): (r: Predicate)
    ensures forall k :: k in r <==> exists i :: 0 <= i < |ps| && k in ps[i]
    decreases |ps|
  {
    if |ps| == 0 then map[]
    else
      var front := MergeAll(ps[..|ps| - 1]);
      assert forall i :: 0 <= i < |ps| - 1 ==> ps[..|ps| - 1][i] == ps[i];
      front + ps[|ps| - 1]
  }

  /** A field takes its value from the last predicate that mentions it. */
  lemma {:induction false} LaterPredicateWins(ps: seq<Predicate>, j: nat, k: string)
    requires j < |ps| && k in ps[j]
    requires forall i :: j < i < |ps| ==> k !in ps[i]
    ensures k in MergeAll(ps) && MergeAll(ps)[k] == ps[j][k]
    decreases |ps|
  {
    if j < |ps| - 1 {
      var front := ps[..|ps| - 1];
      assert front[j] == ps[j];
      LaterPredicateWins(front, j, k);
    }
  }

  /** `options.operator == "or"` selects `$or`; anything else merges. */
  function Combine(ps: seq<Predicate>, operator: Option<string>): (r: Filter)
    ensures operator == Some("or") <==> r.AnyOf?
    ensures r.AnyOf? ==> r.predicates == ps
    ensures r.AllOf? ==> r.fields == MergeAll(ps)
  {
    if operator == Some("or") then AnyOf(ps) else AllOf(MergeAll(ps))
  }

  // -------------------------------------------------------------- sorting

  datatype Direction = Ascending | Descending

  datatype SortKey = SortKey(field: string, direction: Direction)

  /** One comma-separated entry: `-f` descending, `+f` or `f` ascending. */
  function ParseSortKey(sv: string): (r: SortKey)
    ensures r.direction == Descending <==> |sv| > 0 && sv[0] == '-'
    ensures |sv| > 0 && sv[0] in "+-" ==> r.field == sv[1..]
    ensures !(|sv| > 0 && sv[0] in "+-") ==> r.field == sv
  {
    if |sv| > 0 && sv[0] == '-' then SortKey(sv[1..], Descending)
    else if |sv| > 0 && sv[0] == '+' then SortKey(sv[1..], Ascending)
    else SortKey(sv, Ascending)
  }

  function ParseSortKeys(svs: seq<string>): (r: seq<SortKey>)
    ensures |r| == |svs| && forall i :: 0 <= i < |svs| ==> r[i] == ParseSortKey(svs[i])
  {
    if |svs| == 0 then [] else [ParseSortKey(svs[0])] + ParseSortKeys(svs[1..])
  }

  /** `options.sort.split(",").map(…)`. */
  function ParseSort(spec: string): (r: seq<SortKey>)
    ensures |r| >= 1
  {
    ParseSortKeys(Split(spec, ','))
  }

  /** How a sort key is written: a leading `-` for descending, nothing for ascending. */
  function FormatSortKey(k: SortKey): string {
    (if k.direction == Descending then "-" else "") + k.field
  }

  function FormatSortKeys(ks: seq<SortKey>): (r: seq<string>)
    ensures |r| == |ks| && forall i :: 0 <= i < |ks| ==> r[i] == FormatSortKey(ks[i])
  {
    if |ks| == 0 then [] else [FormatSortKey(ks[0])] + FormatSortKeys(ks[1..])
  }

  /** A field a sort key can carry: no comma, and no leading sign. */
  predicate IsSortField(f: string) {
    ',' !in f && !(|f| > 0 && f[0] in "+-")
  }

  /** Writing sort keys out and parsing them back gives the same keys. */
  lemma SortRoundTrip(ks: seq<SortKey>)
    requires |ks| >= 1 && forall i :: 0 <= i < |ks| ==> IsSortField(ks[i].field)
    ensures ParseSort(Join(FormatSortKeys(ks), ',')) == ks
  {
    var parts := FormatSortKeys(ks);
    forall i | 0 <= i < |parts|
      ensures ',' !in parts[i] && ParseSortKey(parts[i]) == ks[i]
    {
      SortKeyRoundTrip(ks[i]);
    }
    SplitJoin(parts, ',');
  }

  /** One sort key written out has no comma and parses back to itself. */
  lemma SortKeyRoundTrip(k: SortKey)
    requires IsSortField(k.field)
    ensures ',' !in FormatSortKey(k) && ParseSortKey(FormatSortKey(k)) == k
  {
    if k.direction == Descending {
      assert FormatSortKey(k)[1..] == k.field;
    } else {
      assert FormatSortKey(k) == k.field;
    }
  }

  // ---------------------------------------------------------------- find

  /** The string options of `find`. */
  datatype FindOptions = FindOptions(operator: Option<string>, sort: Option<string>, offset: Option<string>, limit: Option<string>)

  /** What `find` asks of the database: the filter, then the optional sort, skip and limit (still text for `parseInt`). */
  datatype Plan = Plan(filter: Filter, sort: Option<seq<SortKey>>, skip: Option<string>, limit: Option<string>)

  /** A string option that is set and not empty (`if (options.x)`). */
  function Given(o: Option<string>): (r: Option<string>)
    ensures r.Some? <==> o.Some? && o.value != ""
    ensures r.Some? ==> r == o
  {
    if o.Some? && o.value != "" then o else None
  }

  /**
   * `xs.map(f)` where `f` may throw: the results in order, or the error of
   * the first input `f` fails on.
   */
  function MapOrFail<A, B>(f: A -> Result<B, string>, xs: seq<A>): (r: Result<seq<B>, string>)
    ensures r.Ok? <==> forall i :: 0 <= i < |xs| ==> f(xs[i]).Ok?
    ensures r.Ok? ==> |r.value| == |xs| && forall i :: 0 <= i < |xs| ==> r.value[i] == f(xs[i]).value
    ensures r.Err? ==> exists i :: 0 <= i < |xs| && f(xs[i]).Err? && r.error == f(xs[i]).error
                                   && forall j :: 0 <= j < i ==> f(xs[j]).Ok?
  {
    if |xs| == 0 then Ok([])
    else match f(xs[0])
      case Err(e) => Err(e)
      case Ok(y) =>
        var rest := MapOrFail(f, xs[1..]);
        assert forall i :: 1 <= i < |xs| ==> xs[1..][i - 1] == xs[i];
        match rest
        case Err(e) =>
          var i :| 0 <= i < |xs[1..]| && f(xs[1..][i]).Err? && e == f(xs[1..][i]).error
                   && forall j :: 0 <= j < i ==> f(xs[1..][j]).Ok?;
          assert forall j :: 1 <= j < i + 1 ==> f(xs[j]).Ok? by {
            forall j | 1 <= j < i + 1
              ensures f(xs[j]).Ok?
            {
              assert xs[1..][j - 1] == xs[j];
            }
          }
          Err(e)
        case Ok(ys) => Ok([y] + ys)
  }

  /** The predicates of the arguments in order (`args.map(…)`); the first invalid one stops the parse. */
  function ParsePredicates(args: seq<string>): (r: Result<seq<Predicate>, string>)
    ensures r.Ok? <==> forall i :: 0 <= i < |args| ==> ParsePredicate(args[i]).Ok?
    ensures r.Ok? ==> |r.value| == |args| && forall i :: 0 <= i < |args| ==> r.value[i] == ParsePredicate(args[i]).value
    ensures r.Err? ==> exists i :: 0 <= i < |args| && ParsePredicate(args[i]).Err? && r.error == InvalidPredicate(args[i])
                                   && forall j :: 0 <= j < i ==> ParsePredicate(args[j]).Ok?
  {
    MapOrFail(ParsePredicate, args)
  }

  /**
   * `find(collection, args, options)`: the collection must exist; every
   * argument is a predicate; the predicates are combined; a non-empty sort
   * spec, offset and limit are passed on.
   */
  function Find(models: set<string>, collection: string, args: seq<string>, options: Option<FindOptions>): (r: Result<Plan, string>)
    ensures collection !in models ==> r == Err(CollectionNotFound(collection))
    ensures collection in models ==>
      (r.Ok? <==> forall i :: 0 <= i < |args| ==> ParsePredicate(args[i]).Ok?)
    ensures r.Ok? ==>
      var o := options.GetOr(FindOptions(None, None, None, None));
      && r.value.filter == Combine(ParsePredicates(args).value, o.operator)
      && r.value.sort == (if Given(o.sort).Some? then Some(ParseSort(o.sort.value)) else None)
      && r.value.skip == Given(o.offset) && r.value.limit == Given(o.limit)
  {
    var o := options.GetOr(FindOptions(None, None, None, None));
    if collection !in models then Err(CollectionNotFound(collection))
    else match ParsePredicates(args)
      case Err(e) => Err(e)
      case Ok(ps) =>
        var sort := if Given(o.sort).Some? then Some(ParseSort(o.sort.value)) else None;
        Ok(Plan(Combine(ps, o.operator), sort, Given(o.offset), Given(o.limit)))
  }
}
