/** The request-parameter processing of `advancedFilter`
    (controllers/propertyController.js). The query-string object becomes a
    record of what is handed to the document store: the filter (the text
    `JSON.parse` receives, plus the clauses assigned on top of it), the sort
    and projection strings, skip and limit. */
module AdvancedFilter {
  import opened Wrappers
  import opened JsStrings

  /** A value of the parsed query string: a string, an array (a repeated
      parameter) or a nested object (`price[gte]=100`). */
  datatype QueryValue = Str(s: string) | List(items: seq<QueryValue>) | Obj(members: seq<(string, QueryValue)>)

  type Query = map<string, QueryValue>

  /** The parameters that steer the query and are not filter fields. */
  const ControlKeys: seq<string> := ["page", "sort", "limit", "fields", "search"]

  /** The parameters that become `$all` list clauses. */
  const ListFields: seq<string> := ["amenities", "tags"]

  const DefaultSort: string := "-createdAt"
  const DefaultProjection: string := "-__v"
  const DefaultPage: int := 1
  const DefaultLimit: int := 100

  // ---------------------------------------------------------------------------
  // 1. Filtering: the control parameters are deleted from a copy of the query.

  /** The copy of `req.query` with each control key deleted in turn. */
  method RemoveControlKeys(query: Query) returns (filter: Query)
    ensures filter.Keys == query.Keys - {"page", "sort", "limit", "fields", "search"}
    ensures forall k :: k in filter ==> filter[k] == query[k]
    ensures filter == query - {"page", "sort", "limit", "fields", "search"}
  {
    filter := query;
    for i := 0 to |ControlKeys|
      invariant filter.Keys == query.Keys - set j | 0 <= j < i :: ControlKeys[j]
      invariant forall k :: k in filter ==> filter[k] == query[k]
    {
      filter := filter - {ControlKeys[i]};
    }
    assert (set j | 0 <= j < |ControlKeys| :: ControlKeys[j]) == {"page", "sort", "limit", "fields", "search"} by {
      assert ControlKeys[0] == "page" && ControlKeys[1] == "sort" && ControlKeys[2] == "limit";
      assert ControlKeys[3] == "fields" && ControlKeys[4] == "search";
    }
    assert filter == query - {"page", "sort", "limit", "fields", "search"};
  }

  // ---------------------------------------------------------------------------
  // 2. Advanced filtering: `\b(gte|gt|lte|lt)\b` gets a `$` in front, in the
  //    serialised filter text.

  /** A character of the regular-expression class `\w`. */
  predicate IsWordChar(c: char) {
    'a' <= c <= 'z' || 'A' <= c <= 'Z' || '0' <= c <= '9' || c == '_'
  }

  /** The length of the run of word characters `s` starts with. */
  function WordRun(s: string): (n: nat)
    ensures n <= |s|
    ensures forall i :: 0 <= i < n ==> IsWordChar(s[i])
    ensures n < |s| ==> !IsWordChar(s[n])
    decreases |s|
  {
    if s == [] || !IsWordChar(s[0]) then 0 else 1 + WordRun(s[1..])
  }

  predicate IsOperator(w: string) {
    w == "gte" || w == "gt" || w == "lte" || w == "lt"
  }

  /** `s` starts with a whole word that is an operator. */
  predicate StartsWithOperator(s: string) {
    WordRun(s) > 0 && IsOperator(s[..WordRun(s)])
  }

  /** The regular expression matches exactly the maximal runs of word
      characters that equal an operator (the `\b` on both sides); each
      match is replaced by `$` and the match. `s` is read run by run. */
  function RewriteOperators(s: string): (r: string)
    ensures |r| >= |s|
    decreases |s|
  {
    if s == [] then []
    else if !IsWordChar(s[0]) then [s[0]] + RewriteOperators(s[1..])
    else
      var n := WordRun(s);
      (if IsOperator(s[..n]) then "$" + s[..n] else s[..n]) + RewriteOperators(s[n..])
  }

  /** The number of maximal word runs of `s` that are operators. */
  function OperatorRuns(s: string): nat
    decreases |s|
  {
    if s == [] then 0
    else if !IsWordChar(s[0]) then OperatorRuns(s[1..])
    else
      var n := WordRun(s);
      (if IsOperator(s[..n]) then 1 else 0) + OperatorRuns(s[n..])
  }

  /** The inverse of the rewrite: a `$` directly in front of an operator word
      is dropped, everything else is kept. */
  function RestoreOperators(r: string): string
    decreases |r|
  {
    if r == [] then []
    else if r[0] == '$' && StartsWithOperator(r[1..]) then RestoreOperators(r[1..])
    else if !IsWordChar(r[0]) then [r[0]] + RestoreOperators(r[1..])
    else
      var n := WordRun(r);
      r[..n] + RestoreOperators(r[n..])
  }

  /** A run of word characters followed by a non-word character (or nothing)
      is the whole first run. */
  lemma {:induction false} WordRunOfConcat(w: string, u: string)
    requires forall i :: 0 <= i < |w| ==> IsWordChar(w[i])
    requires u == [] || !IsWordChar(u[0])
    ensures WordRun(w + u) == |w|
    decreases |w|
  {
    if w != [] {
      assert (w + u)[1..] == w[1..] + u;
      WordRunOfConcat(w[1..], u);
    } else {
      assert w + u == u;
    }
  }

  /** The rewrite starts with the same non-word character as its input. */
  lemma RewriteKeepsLeadingSeparator(t: string)
    requires t != [] && !IsWordChar(t[0])
    ensures RewriteOperators(t) != [] && RewriteOperators(t)[0] == t[0]
  {
  }

  /** The rewrite never starts with a bare operator word: each one now has a
      `$` in front. */
  lemma NoBareOperatorAtStart(t: string)
    ensures !StartsWithOperator(RewriteOperators(t))
  {
    if t != [] && IsWordChar(t[0]) {
      var n := WordRun(t);
      var u := RewriteOperators(t[n..]);
      if !IsOperator(t[..n]) {
        if t[n..] != [] {
          RewriteKeepsLeadingSeparator(t[n..]);
        }
        WordRunOfConcat(t[..n], u);
        assert (t[..n] + u)[..n] == t[..n];
      }
    }
  }

  /** Position `i` of `r` is properly marked: when a whole word starts
      there and is an operator, a `$` stands right in front of it. */
  predicate MarkedAt(r: string, i: int)
    requires 0 <= i < |r|
  {
    (i == 0 || !IsWordChar(r[i - 1])) && StartsWithOperator(r[i..]) ==> i > 0 && r[i - 1] == '$'
  }

  /** Every operator word of `r` has a `$` in front of it. */
  predicate OperatorsMarked(r: string) {
    forall i :: 0 <= i < |r| ==> MarkedAt(r, i)
  }

  /** Text in front of marked text that does not start with an operator
      keeps the positions of the marked text marked. */
  lemma ShiftMarked(c: string, t: string)
    requires OperatorsMarked(t) && !StartsWithOperator(t)
    ensures forall i :: |c| <= i < |c + t| ==> MarkedAt(c + t, i)
  {
    var r := c + t;
    forall i | |c| <= i < |r|
      ensures MarkedAt(r, i)
    {
      var j := i - |c|;
      assert r[i..] == t[j..];
      if j == 0 {
        assert t[j..] == t;
      } else {
        assert r[i - 1] == t[j - 1];
        assert MarkedAt(t, j);
      }
    }
  }

  /** The rewritten first word, followed by a separator, is marked at each
      of its own positions. */
  lemma MarkedWordPrefix(w: string, t: string)
    requires w != [] && forall i :: 0 <= i < |w| ==> IsWordChar(w[i])
    requires t == [] || !IsWordChar(t[0])
    ensures var p := if IsOperator(w) then "$" + w else w;
            forall i :: 0 <= i < |p| ==> MarkedAt(p + t, i)
  {
    var p := if IsOperator(w) then "$" + w else w;
    var r := p + t;
    forall i | 0 <= i < |p|
      ensures MarkedAt(r, i)
    {
      if i == 0 {
        if IsOperator(w) {
          assert r[0] == '$';
          assert WordRun(r[0..]) == 0;
        } else {
          WordRunOfConcat(w, t);
          assert r[0..] == r && r[..|w|] == w;
        }
      } else if IsOperator(w) && i == 1 {
        assert r[0] == '$';
      } else {
        var k := if IsOperator(w) then i - 2 else i - 1;
        assert r[i - 1] == w[k];
      }
    }
  }

  /** The rewrite marks every operator word: wherever a whole word equal to
      `gte`, `gt`, `lte` or `lt` starts in the result, a `$` precedes it. */
  lemma {:induction false} EveryOperatorMarked(s: string)
    ensures OperatorsMarked(RewriteOperators(s))
    decreases |s|
  {
    if s != [] {
      if !IsWordChar(s[0]) {
        var t := RewriteOperators(s[1..]);
        var r := [s[0]] + t;
        assert RewriteOperators(s) == r;
        EveryOperatorMarked(s[1..]);
        NoBareOperatorAtStart(s[1..]);
        ShiftMarked([s[0]], t);
        assert r[0..] == r && WordRun(r) == 0;
        assert MarkedAt(r, 0);
      } else {
        var n := WordRun(s);
        var w := s[..n];
        var t := RewriteOperators(s[n..]);
        var p := if IsOperator(w) then "$" + w else w;
        assert RewriteOperators(s) == p + t;
        EveryOperatorMarked(s[n..]);
        NoBareOperatorAtStart(s[n..]);
        if s[n..] != [] {
          RewriteKeepsLeadingSeparator(s[n..]);
        }
        ShiftMarked(p, t);
        MarkedWordPrefix(w, t);
      }
    }
  }

  /** Restoring text that starts with a whole word keeps that word. */
  lemma RestoreKeepsWord(w: string, u: string)
    requires w != [] && forall i :: 0 <= i < |w| ==> IsWordChar(w[i])
    requires u == [] || !IsWordChar(u[0])
    ensures RestoreOperators(w + u) == w + RestoreOperators(u)
  {
    WordRunOfConcat(w, u);
    var r := w + u;
    assert r[0] == w[0];
    assert r[..|w|] == w && r[|w|..] == u;
  }

  /** An operator word followed by a separator starts with an operator. */
  lemma OperatorWordStarts(w: string, u: string)
    requires IsOperator(w) && forall i :: 0 <= i < |w| ==> IsWordChar(w[i])
    requires u == [] || !IsWordChar(u[0])
    ensures StartsWithOperator(w + u)
  {
    WordRunOfConcat(w, u);
    assert (w + u)[..|w|] == w;
  }

  /** Restoring drops the `$` in front of an operator word. */
  lemma RestoreDropsDollar(v: string)
    requires StartsWithOperator(v)
    ensures RestoreOperators("$" + v) == RestoreOperators(v)
  {
    assert ("$" + v)[1..] == v;
  }

  /** Restoring a rewritten word and the restored text after it. */
  lemma RestoreRewrittenWord(w: string, u: string, rest: string)
    requires w != [] && forall i :: 0 <= i < |w| ==> IsWordChar(w[i])
    requires u == [] || !IsWordChar(u[0])
    requires RestoreOperators(u) == rest
    ensures RestoreOperators((if IsOperator(w) then "$" + w else w) + u) == w + rest
  {
    RestoreKeepsWord(w, u);
    if IsOperator(w) {
      OperatorWordStarts(w, u);
      RestoreDropsDollar(w + u);
      assert "$" + w + u == "$" + (w + u);
    }
  }

  /** One step of the round trip: a leading word and what follows it. */
  lemma RestoreRewriteWord(s: string)
    requires s != [] && IsWordChar(s[0])
    requires RestoreOperators(RewriteOperators(s[WordRun(s)..])) == s[WordRun(s)..]
    ensures RestoreOperators(RewriteOperators(s)) == s
  {
    var n := WordRun(s);
    var rest := s[n..];
    var u := RewriteOperators(rest);
    assert RewriteOperators(s) == (if IsOperator(s[..n]) then "$" + s[..n] else s[..n]) + u;
    if rest != [] {
      RewriteKeepsLeadingSeparator(rest);
    }
    RestoreRewrittenWord(s[..n], u, rest);
    SplitAt(s, n);
  }

  /** A string is its two halves at any cut. */
  lemma SplitAt(s: string, n: nat)
    requires n <= |s|
    ensures s[..n] + s[n..] == s
  {
  }

  /** Restoring the rewritten text gives the serialised filter back: the
      rewrite only inserts `$` signs and loses nothing. */
  lemma {:induction false} RestoreRewrite(s: string)
    ensures RestoreOperators(RewriteOperators(s)) == s
    decreases |s|
  {
    if s != [] {
      if !IsWordChar(s[0]) {
        var u := RewriteOperators(s[1..]);
        assert RewriteOperators(s) == [s[0]] + u;
        NoBareOperatorAtStart(s[1..]);
        assert ([s[0]] + u)[1..] == u;
        RestoreRewrite(s[1..]);
        assert [s[0]] + s[1..] == s;
      } else {
        RestoreRewrite(s[WordRun(s)..]);
        RestoreRewriteWord(s);
      }
    }
  }

  /** The rewrite adds exactly one character per operator word. */
  lemma {:induction false} RewriteLength(s: string)
    ensures |RewriteOperators(s)| == |s| + OperatorRuns(s)
    decreases |s|
  {
    if s != [] {
      if !IsWordChar(s[0]) {
        RewriteLength(s[1..]);
      } else {
        RewriteLength(s[WordRun(s)..]);
      }
    }
  }

  /** Text without operator words is left as it is. */
  lemma {:induction false} RewriteWithoutOperators(s: string)
    requires OperatorRuns(s) == 0
    ensures RewriteOperators(s) == s
    decreases |s|
  {
    if s != [] {
      if !IsWordChar(s[0]) {
        assert OperatorRuns(s[1..]) == 0;
        RewriteWithoutOperators(s[1..]);
        assert RewriteOperators(s) == [s[0]] + s[1..];
        assert [s[0]] + s[1..] == s;
      } else {
        var n := WordRun(s);
        assert !IsOperator(s[..n]) && OperatorRuns(s[n..]) == 0;
        RewriteWithoutOperators(s[n..]);
        assert RewriteOperators(s) == s[..n] + s[n..];
        SplitAt(s, n);
      }
    }
  }

  // ---------------------------------------------------------------------------
  // 3-8. The parameters read directly from `req.query`.

  /** JavaScript truthiness of a query parameter: absent and "" are falsy,
      arrays and objects are truthy. */
  predicate Truthy(v: Option<QueryValue>) {
    v.Some? && (v.value.Str? ==> v.value.s != "")
  }

  function Param(query: Query, name: string): Option<QueryValue> {
    if name in query then Some(query[name]) else None
  }

  /** A truthy parameter that is not a string has no `split`: calling it throws. */
  predicate NotSplittable(v: Option<QueryValue>) {
    v.Some? && !v.value.Str?
  }

  /** The thrown TypeError that answers 400, naming the parameter. */
  datatype Failure = SplitNotAFunction(param: string)

  /** The clauses assigned onto the parsed filter. */
  datatype Clause =
    | TextSearch(term: QueryValue)        // `$or` of three case-insensitive `$regex` matches
    | AllOf(values: seq<string>)          // `{ $all: [...] }`
    | OnOrAfter(date: QueryValue)         // `{ $gte: new Date(...) }`

  /** `split(',').join(' ')` of a truthy string parameter, or the default. */
  function OrderSpec(v: Option<QueryValue>, name: string, default: string): (r: Result<string, Failure>)
    ensures r.Err? <==> NotSplittable(v)
    ensures r.Err? ==> r.error == SplitNotAFunction(name)
    ensures r.Ok? && Truthy(v) ==> r.value == Replaced(v.value.s, ',', ' ')
    ensures !Truthy(v) ==> r == Ok(default)
  {
    if !Truthy(v) then Ok(default)
    else if !v.value.Str? then Err(SplitNotAFunction(name))
    else
      SplitJoinReplaces(v.value.s, ',', ' ');
      Ok(Join(Split(v.value.s, ','), " "))
  }

  // ---------------------------------------------------------------------------
  // 9. Pagination: `parseInt(x, 10) || default`.

  /** `StrWhiteSpaceChar`: what `parseInt` skips before the number. */
  predicate IsJsSpace(c: char) {
    c == '\t' || c == '\n' || c == '\U{000B}' || c == '\U{000C}' || c == '\r' || c == ' '
    || c == '\U{00A0}' || c == '\U{1680}' || ('\U{2000}' <= c <= '\U{200A}')
    || c == '\U{2028}' || c == '\U{2029}' || c == '\U{202F}' || c == '\U{205F}'
    || c == '\U{3000}' || c == '\U{FEFF}'
  }

  predicate IsDigit(c: char) {
    '0' <= c <= '9'
  }

  function TrimStart(s: string): (t: string)
    ensures |t| <= |s| && t == s[|s| - |t|..]
    ensures t == [] || !IsJsSpace(t[0])
    decreases |s|
  {
    if s != [] && IsJsSpace(s[0]) then TrimStart(s[1..]) else s
  }

  /** The length of the run of decimal digits `s` starts with. */
  function DigitRun(s: string): (n: nat)
    ensures n <= |s|
    ensures forall i :: 0 <= i < n ==> IsDigit(s[i])
    ensures n < |s| ==> !IsDigit(s[n])
    decreases |s|
  {
    if s == [] || !IsDigit(s[0]) then 0 else 1 + DigitRun(s[1..])
  }

  function DigitValue(c: char): nat
    requires IsDigit(c)
  {
    c as int - '0' as int
  }

  /** The value of a string of decimal digits, most significant first. */
  function DecimalValue(ds: string): nat
    requires forall i :: 0 <= i < |ds| ==> IsDigit(ds[i])
    decreases |ds|
  {
    if ds == [] then 0
    else 10 * DecimalValue(ds[..|ds| - 1]) + DigitValue(ds[|ds| - 1])
  }

  /** `parseInt(text, 10)`: leading white space, an optional sign and the
      longest run of digits; no digits is NaN (None). */
  function ParseInt(text: string): (r: Option<int>)
    ensures r.None? <==> DigitRun(Unsigned(TrimStart(text))) == 0
  {
    ParseSigned(TrimStart(text))
  }

  /** `parseInt` once the white space is skipped: an optional sign, then digits. */
  function ParseSigned(t: string): Option<int> {
    var negative := t != [] && t[0] == '-';
    match ParseDigits(Unsigned(t))
    case None => None
    case Some(magnitude) => Some(if negative then -magnitude else magnitude)
  }

  /** The text after a leading sign, if there is one. */
  function Unsigned(t: string): string {
    if t != [] && (t[0] == '-' || t[0] == '+') then t[1..] else t
  }

  /** The value of the longest run of digits `u` starts with; None without one. */
  function ParseDigits(u: string): Option<int> {
    var n := DigitRun(u);
    if n == 0 then None else Some(DecimalValue(u[..n]))
  }

  /** The digit character for a value below ten. */
  function DigitChar(d: nat): (c: char)
    requires d < 10
    ensures IsDigit(c) && DigitValue(c) == d
  {
    ('0' as int + d) as char
  }

  /** The canonical decimal text of a natural number. */
  function DecimalText(k: nat): (ds: string)
    ensures |ds| >= 1 && forall i :: 0 <= i < |ds| ==> IsDigit(ds[i])
  {
    (if k < 10 then "" else DecimalText(k / 10)) + [DigitChar(k % 10)]
  }

  lemma {:induction false} DecimalValueOfText(k: nat)
    ensures DecimalValue(DecimalText(k)) == k
  {
    var front := if k < 10 then "" else DecimalText(k / 10);
    var ds := DecimalText(k);
    assert ds[..|ds| - 1] == front;
    assert DecimalValue(ds) == 10 * DecimalValue(front) + k % 10;
    if k >= 10 {
      DecimalValueOfText(k / 10);
    }
  }

  /** `parseInt` reads back the decimal text of a number, signed, after any
      white space and before any text that does not start with a digit. */
  lemma ParseIntReadsDecimal(space: string, negative: bool, k: nat, rest: string)
    requires forall i :: 0 <= i < |space| ==> IsJsSpace(space[i])
    requires rest == [] || !IsDigit(rest[0])
    ensures ParseInt(space + (if negative then "-" else "") + DecimalText(k) + rest)
            == Some(if negative then -(k as int) else k as int)
  {
    var sign := if negative then "-" else "";
    var d := DecimalText(k);
    SignedDigitsStart(negative, d, rest);
    ParseIntAfterSpace(space, sign + (d + rest));
    Regroup(space, sign, d, rest);
    ParseSignedReadsDecimal(negative, k, rest);
  }

  /** Concatenation regrouped to the right. */
  lemma Regroup(a: string, b: string, c: string, d: string)
    ensures a + b + c + d == a + (b + (c + d))
  {
  }

  /** A sign or a digit is not white space. */
  lemma SignedDigitsStart(negative: bool, d: string, rest: string)
    requires d != [] && IsDigit(d[0])
    ensures !IsJsSpace(((if negative then "-" else "") + (d + rest))[0])
  {
    if !negative {
      assert ("" + (d + rest))[0] == d[0];
    }
  }

  /** `parseInt` skips the white space in front of the text. */
  lemma ParseIntAfterSpace(space: string, body: string)
    requires forall i :: 0 <= i < |space| ==> IsJsSpace(space[i])
    requires body == [] || !IsJsSpace(body[0])
    ensures ParseInt(space + body) == ParseSigned(body)
  {
    TrimAfterSpace(space, body);
  }

  lemma ParseSignedReadsDecimal(negative: bool, k: nat, rest: string)
    requires rest == [] || !IsDigit(rest[0])
    ensures ParseSigned((if negative then "-" else "") + (DecimalText(k) + rest))
            == Some(if negative then -(k as int) else k as int)
  {
    var u := DecimalText(k) + rest;
    assert u[0] == DecimalText(k)[0];
    ParseDigitsReadsDecimal(k, rest);
    ParseSignedOfDigits(negative, u, k);
  }

  /** A sign in front of digits only sets the sign of their value. */
  lemma ParseSignedOfDigits(negative: bool, u: string, m: int)
    requires u != [] && IsDigit(u[0]) && ParseDigits(u) == Some(m)
    ensures ParseSigned((if negative then "-" else "") + u) == Some(if negative then -m else m)
  {
    var t := (if negative then "-" else "") + u;
    UnsignedAfterSign(negative, u);
    if negative {
      assert t[0] == '-';
    } else {
      assert t == u;
    }
  }

  lemma UnsignedAfterSign(negative: bool, u: string)
    requires u != [] && IsDigit(u[0])
    ensures Unsigned((if negative then "-" else "") + u) == u
  {
    var t := (if negative then "-" else "") + u;
    if negative {
      assert t[1..] == u;
    } else {
      assert t == u;
    }
  }

  lemma ParseDigitsReadsDecimal(k: nat, rest: string)
    requires rest == [] || !IsDigit(rest[0])
    ensures ParseDigits(DecimalText(k) + rest) == Some(k)
  {
    var ds := DecimalText(k);
    var u := ds + rest;
    DigitRunOfConcat(ds, rest);
    assert u[..|ds|] == ds;
    DecimalValueOfText(k);
  }

  lemma {:induction false} TrimAfterSpace(space: string, body: string)
    requires forall i :: 0 <= i < |space| ==> IsJsSpace(space[i])
    requires body == [] || !IsJsSpace(body[0])
    ensures TrimStart(space + body) == body
    decreases |space|
  {
    if space == [] {
      assert space + body == body;
    } else {
      assert (space + body)[1..] == space[1..] + body;
      TrimAfterSpace(space[1..], body);
    }
  }

  lemma {:induction false} DigitRunOfConcat(ds: string, rest: string)
    requires forall i :: 0 <= i < |ds| ==> IsDigit(ds[i])
    requires rest == [] || !IsDigit(rest[0])
    ensures DigitRun(ds + rest) == |ds|
    decreases |ds|
  {
    if ds == [] {
      assert ds + rest == rest;
    } else {
      assert (ds + rest)[1..] == ds[1..] + rest;
      DigitRunOfConcat(ds[1..], rest);
    }
  }

  /** `String(value)`, which `parseInt` applies to its argument: arrays are
      joined with commas, objects print as `[object Object]`. */
  function ToJsString(v: QueryValue): (r: string)
    ensures v.Str? ==> r == v.s
    ensures v.List? && v.items == [] ==> r == ""
    ensures v.List? && |v.items| == 1 ==> r == ToJsString(v.items[0])
    decreases v
  {
    match v
    case Str(s) => s
    case List(items) => Join(seq(|items|, i requires 0 <= i < |items| => ToJsString(items[i])), ",")
    case Obj(_) => "[object Object]"
  }

  /** `parseInt(req.query[name], 10) || default`: NaN and 0 give the default. */
  function IntParam(v: Option<QueryValue>, default: int): (r: int)
    ensures v.None? ==> r == default
    ensures (v.Some? && ParseInt(ToJsString(v.value)).Some? && ParseInt(ToJsString(v.value)).value != 0)
              ==> r == ParseInt(ToJsString(v.value)).value
    ensures (v.Some? && (ParseInt(ToJsString(v.value)).None? || ParseInt(ToJsString(v.value)) == Some(0)))
              ==> r == default
  {
    if v.None? then default
    else
      var p := ParseInt(ToJsString(v.value));
      if p.None? || p.value == 0 then default else p.value
  }

  /** `Math.ceil(total / limit)` for a limit that is never 0. */
  function CeilDiv(total: nat, limit: int): (q: int)
    requires limit != 0
    ensures limit > 0 ==> (q - 1) * limit < total <= q * limit
    ensures limit < 0 ==> q * limit <= total < (q - 1) * limit
  {
    if limit > 0 then
      var q := (total + limit - 1) / limit;
      DivBounds(total + limit - 1, limit);
      q
    else
      var q := -(total / -limit);
      DivBounds(total, -limit);
      q
  }

  /** Euclidean division of a non-negative number by a positive one. */
  lemma DivBounds(a: int, b: int)
    requires a >= 0 && b > 0
    ensures (a / b) * b <= a < (a / b) * b + b
  {
  }

  /** The summary `advancedFilter` answers with, after the query ran:
      `results` documents on this page out of `total` matches. */
  datatype PageSummary = PageSummary(results: nat, total: nat, page: int, pages: int)

  function Summary(returned: nat, total: nat, page: int, limit: int): (r: PageSummary)
    requires limit != 0
    ensures r.results == returned && r.total == total && r.page == page
    ensures limit > 0 ==> (r.pages - 1) * limit < total <= r.pages * limit
  {
    PageSummary(returned, total, page, CeilDiv(total, limit))
  }

  // ---------------------------------------------------------------------------
  // The whole parameter processing.

  /** The filter: `base` is the text `JSON.parse` receives; the clauses are
      assigned on top of the parsed object, replacing fields of the same name. */
  datatype Filter = Filter(base: string, clauses: map<string, Clause>)

  /** What `advancedFilter` hands to the document store. */
  datatype MongoQuery = MongoQuery(
    filter: Filter,
    sort: string,
    projection: string,
    page: int,
    skip: int,
    limit: int)

  /** The filter built from the query: the control parameters removed, the
      operators marked in the serialised text, and a clause for each truthy
      `search`, list parameter and `availableFrom`. */
  ghost predicate IsFilterOf(f: Filter, query: Query, stringify: Query -> string) {
    && f.base == RewriteOperators(stringify(query - {"page", "sort", "limit", "fields", "search"}))
    && f.clauses.Keys <= {"$or", "amenities", "tags", "availableFrom"}
    && ("$or" in f.clauses <==> Truthy(Param(query, "search")))
    && ("$or" in f.clauses ==> f.clauses["$or"] == TextSearch(query["search"]))
    && (forall g :: g in ListFields ==>
          && (g in f.clauses <==> Truthy(Param(query, g)))
          && (g in f.clauses ==> g in query && query[g].Str? && f.clauses[g] == AllOf(Split(query[g].s, ','))))
    && ("availableFrom" in f.clauses <==> Truthy(Param(query, "availableFrom")))
    && ("availableFrom" in f.clauses ==> f.clauses["availableFrom"] == OnOrAfter(query["availableFrom"]))
  }

  /** Some parameter that `advancedFilter` splits is an array or an object. */
  predicate SplitThrows(query: Query) {
    || NotSplittable(Param(query, "amenities")) || NotSplittable(Param(query, "tags"))
    || NotSplittable(Param(query, "sort")) || NotSplittable(Param(query, "fields"))
  }

  /** Step 4: `['amenities', 'tags'].forEach(...)` assigns an `$all` clause for
      each truthy list parameter, split at commas. */
  method AddListClauses(query: Query, clauses: map<string, Clause>) returns (r: Result<map<string, Clause>, Failure>)
    requires "amenities" !in clauses && "tags" !in clauses
    ensures r.Err? <==> NotSplittable(Param(query, "amenities")) || NotSplittable(Param(query, "tags"))
    ensures r.Err? ==> NotSplittable(Param(query, r.error.param))
    ensures r.Ok? ==>
      && r.value.Keys <= clauses.Keys + {"amenities", "tags"}
      && (forall k :: k in clauses ==> k in r.value && r.value[k] == clauses[k])
      && (forall f :: f in ListFields ==>
            && (f in r.value <==> Truthy(Param(query, f)))
            && (f in r.value ==> r.value[f] == AllOf(Split(query[f].s, ','))))
  {
    var added := clauses;
    for i := 0 to |ListFields|
      invariant added.Keys <= clauses.Keys + (set j | 0 <= j < i :: ListFields[j])
      invariant forall k :: k in clauses ==> k in added && added[k] == clauses[k]
      invariant forall j :: 0 <= j < i ==> !NotSplittable(Param(query, ListFields[j]))
      invariant forall j :: 0 <= j < i ==>
                  && (ListFields[j] in added <==> Truthy(Param(query, ListFields[j])))
                  && (ListFields[j] in added ==> added[ListFields[j]] == AllOf(Split(query[ListFields[j]].s, ',')))
    {
      var field := ListFields[i];
      var v := Param(query, field);
      if Truthy(v) {
        if !v.value.Str? {
          return Err(SplitNotAFunction(field));
        }
        added := added[field := AllOf(Split(v.value.s, ','))];
      }
    }
    assert ListFields[0] == "amenities" && ListFields[1] == "tags";
    r := Ok(added);
  }

  /** Steps 1 to 5: the filter. */
  method BuildFilter(query: Query, stringify: Query -> string) returns (r: Result<Filter, Failure>)
    ensures r.Err? <==> NotSplittable(Param(query, "amenities")) || NotSplittable(Param(query, "tags"))
    ensures r.Err? ==> NotSplittable(Param(query, r.error.param))
    ensures r.Ok? ==> IsFilterOf(r.value, query, stringify)
  {
    // 1. filtering
    var queryObj := RemoveControlKeys(query);
    // 2. operators
    var base := RewriteOperators(stringify(queryObj));
    var clauses: map<string, Clause> := map[];
    // 3. text search
    if Truthy(Param(query, "search")) {
      clauses := clauses["$or" := TextSearch(query["search"])];
    }
    // 4. list filters
    var listed := AddListClauses(query, clauses);
    if listed.Err? {
      return Err(listed.error);
    }
    clauses := listed.value;
    // 5. date filter
    if Truthy(Param(query, "availableFrom")) {
      clauses := clauses["availableFrom" := OnOrAfter(query["availableFrom"])];
    }
    r := Ok(Filter(base, clauses));
  }

  /** `advancedFilter` up to the execution of the query. `stringify` stands
      for `JSON.stringify`. A parameter whose `split` throws ends the request
      with 400. */
  method AdvancedFilter(query: Query, stringify: Query -> string) returns (r: Result<MongoQuery, Failure>)
    ensures r.Err? <==> SplitThrows(query)
    ensures r.Err? ==> NotSplittable(Param(query, r.error.param))
    ensures r.Ok? ==> IsFilterOf(r.value.filter, query, stringify)
    ensures r.Ok? ==> r.value.sort == OrderSpec(Param(query, "sort"), "sort", DefaultSort).value
    ensures r.Ok? ==> r.value.projection == OrderSpec(Param(query, "fields"), "fields", DefaultProjection).value
    ensures r.Ok? ==> r.value.page == IntParam(Param(query, "page"), DefaultPage)
    ensures r.Ok? ==> r.value.limit == IntParam(Param(query, "limit"), DefaultLimit)
    ensures r.Ok? ==> r.value.skip == (r.value.page - 1) * r.value.limit
  {
    var filter := BuildFilter(query, stringify);
    if filter.Err? {
      return Err(filter.error);
    }
    // 7. sorting
    var sort := OrderSpec(Param(query, "sort"), "sort", DefaultSort);
    if sort.Err? {
      return Err(sort.error);
    }
    // 8. field limiting
    var projection := OrderSpec(Param(query, "fields"), "fields", DefaultProjection);
    if projection.Err? {
      return Err(projection.error);
    }
    // 9. pagination
    var page := IntParam(Param(query, "page"), DefaultPage);
    var limit := IntParam(Param(query, "limit"), DefaultLimit);
    var skip := (page - 1) * limit;
    r := Ok(MongoQuery(filter.value, sort.value, projection.value, page, skip, limit));
  }
}
