/** The rewriting of `{{name}}` placeholders in a SQL template into the numbered parameters of a query. */
module SqlTemplate {
  import opened Wrappers
  import opened Strings
  import opened Lines

  // ---------------------------------------------------------------- placeholders

  predicate IsWord(c: char) {
    'a' <= c <= 'z' || 'A' <= c <= 'Z' || '0' <= c <= '9' || c == '_'
  }

  /** By code point: the digits and letters of ASCII and the underscore. */
  lemma WordIs(c: char)
    ensures IsWord(c) <==> c as int == 95 || 48 <= c as int <= 57 || 65 <= c as int <= 90 || 97 <= c as int <= 122
  {}

  predicate AllWord(s: string) {
    forall c :: c in s ==> IsWord(c)
  }

  /** The longest start of `s` whose characters satisfy `p`, and the rest. */
  function Span(s: string, p: char -> bool): (r: (string, string))
    ensures s == r.0 + r.1
    ensures forall c :: c in r.0 ==> p(c)
    ensures r.1 != "" ==> !p(r.1[0])
  {
    if s == "" || !p(s[0]) then ("", s)
    else
      var (run, rest) := Span(s[1..], p);
      ([s[0]] + run, rest)
  }

  lemma {:induction false} SpanAppend(a: string, b: string, p: char -> bool)
    requires forall c :: c in a ==> p(c)
    ensures Span(a + b, p) == (a + Span(b, p).0, Span(b, p).1)
    decreases |a|
  {
    if a != "" {
      assert (a + b)[1..] == a[1..] + b;
      SpanAppend(a[1..], b, p);
      assert p(a[0]) && [a[0]] + (a[1..] + Span(b, p).0) == a + Span(b, p).0;
    } else {
      assert a + b == b && a + Span(b, p).0 == Span(b, p).0;
    }
  }

  lemma SpanIs(a: string, b: string, p: char -> bool)
    requires forall c :: c in a ==> p(c)
    requires b != "" ==> !p(b[0])
    ensures Span(a + b, p) == (a, b)
  {
    SpanAppend(a, b, p);
    assert a + "" == a;
  }

  function Strip(s: string, prefix: string): (rest: Option<string>)
    ensures rest.Some? ==> s == prefix + rest.value
  {
    if prefix <= s then Some(s[|prefix|..]) else None
  }

  lemma StripIs(prefix: string, rest: string)
    ensures Strip(prefix + rest, prefix) == Some(rest)
  {}

  /** A placeholder, its name and the text after it. */
  datatype Match = Match(name: string, text: string, rest: string)

  lemma Regroup(a: string, b: string, c: string, d: string, e: string, rest: string)
    ensures a + b + c + d + e + rest == a + (b + (c + (d + (e + rest))))
  {}

  /** The match of `{{\s*(\w+)\s*}}` at the start of `s`. */
  function MatchAt(s: string): (m: Option<Match>)
    ensures m.Some? ==> s == m.value.text + m.value.rest && m.value.text != ""
  {
    match Strip(s, "{{")
    case None => None
    case Some(t) =>
      var (before, u) := Span(t, IsSpace);
      var (name, v) := Span(u, IsWord);
      var (after, w) := Span(v, IsSpace);
      match Strip(w, "}}")
      case None => None
      case Some(rest) =>
        Regroup("{{", before, name, after, "}}", rest);
        if name == "" then None else Some(Match(name, "{{" + before + name + after + "}}", rest))
  }

  /** The text of a placeholder for `name` with `before` and `after` as its white space. */
  predicate Placeholder(text: string, name: string, before: string, after: string) {
    AllSpace(before) && AllSpace(after) && name != "" && AllWord(name) && text == "{{" + before + name + after + "}}"
  }

  /** What matches is a placeholder. */
  lemma MatchIsPlaceholder(s: string) returns (before: string, after: string)
    requires MatchAt(s).Some?
    ensures Placeholder(MatchAt(s).value.text, MatchAt(s).value.name, before, after)
  {
    var (b, u) := Span(Strip(s, "{{").value, IsSpace);
    var (name, v) := Span(u, IsWord);
    var (a, w) := Span(v, IsSpace);
    before, after := b, a;
  }

  lemma WordsAreNotSpace(c: char)
    ensures !(IsWord(c) && IsSpace(c)) && !IsSpace('}') && !IsWord('}')
  {}

  lemma OtherAfter(after: string, rest: string)
    requires AllSpace(after)
    ensures !IsWord((after + ("}}" + rest))[0])
  {
    if after != "" {
      assert after[0] in after;
      WordsAreNotSpace(after[0]);
    }
  }

  /** Whatever text starts with a placeholder matches it. */
  lemma PlaceholderMatches(text: string, name: string, before: string, after: string, rest: string)
    requires Placeholder(text, name, before, after)
    ensures MatchAt(text + rest) == Some(Match(name, text, rest))
  {
    var w := "}}" + rest;
    var v := after + w;
    var u := name + v;
    Regroup("{{", before, name, after, "}}", rest);
    assert name[0] in name && u[0] == name[0];
    WordsAreNotSpace(name[0]);
    OtherAfter(after, rest);
    StripIs("{{", before + u);
    SpanIs(before, u, IsSpace);
    SpanIs(name, v, IsWord);
    SpanIs(after, w, IsSpace);
    StripIs("}}", rest);
  }

  // ---------------------------------------------------------------- tokens

  datatype Token = Literal(c: char) | Variable(name: string, text: string)

  /** Matches are taken leftmost first and do not overlap. */
  function Tokens(s: string): (tokens: seq<Token>)
    ensures s != "" ==> tokens != []
    decreases |s|
  {
    if s == "" then []
    else
      match MatchAt(s)
      case Some(m) =>
        assert |s| == |m.text| + |m.rest|;
        [Variable(m.name, m.text)] + Tokens(m.rest)
      case None => [Literal(s[0])] + Tokens(s[1..])
  }

  function Spelled(t: Token): string {
    if t.Literal? then [t.c] else t.text
  }

  function TextOf(tokens: seq<Token>): string {
    if tokens == [] then "" else Spelled(tokens[0]) + TextOf(tokens[1..])
  }

  ghost predicate StartsPlaceholder(s: string) {
    exists text, name, before, after :: Placeholder(text, name, before, after) && text <= s
  }

  lemma MatchStarts(s: string)
    requires MatchAt(s).Some?
    ensures StartsPlaceholder(s)
  {
    var before, after := MatchIsPlaceholder(s);
  }

  lemma StartMatches(s: string)
    requires StartsPlaceholder(s)
    ensures MatchAt(s).Some?
  {
    var text, name, before, after :| Placeholder(text, name, before, after) && text <= s;
    PlaceholderMatches(text, name, before, after, s[|text|..]);
    assert text + s[|text|..] == s;
  }

  lemma StartsIffMatches(s: string)
    ensures StartsPlaceholder(s) <==> MatchAt(s).Some?
  {
    if MatchAt(s).Some? { MatchStarts(s); }
    if StartsPlaceholder(s) { StartMatches(s); }
  }

  lemma FirstToken(s: string) returns (first: Token, rest: string)
    requires s != ""
    ensures Tokens(s) == [first] + Tokens(rest)
    ensures s == Spelled(first) + rest && |rest| < |s|
    ensures first.Literal? <==> !StartsPlaceholder(s)
    ensures match MatchAt(s)
            case Some(m) => first == Variable(m.name, m.text) && rest == m.rest
            case None => first == Literal(s[0]) && rest == s[1..]
  {
    StartsIffMatches(s);
    match MatchAt(s) {
      case Some(m) => first, rest := Variable(m.name, m.text), m.rest;
      case None => first, rest := Literal(s[0]), s[1..];
    }
  }

  /** The tokens spell the template. */
  lemma {:induction false} TokensSpell(s: string)
    ensures TextOf(Tokens(s)) == s
    decreases |s|
  {
    if s != "" {
      var first, rest := FirstToken(s);
      TokensSpell(rest);
      assert ([first] + Tokens(rest))[1..] == Tokens(rest);
    }
  }

  /** A character is taken literally exactly where no placeholder starts. */
  lemma {:induction false} LiteralIffNoPlaceholder(s: string, i: nat)
    requires i < |Tokens(s)|
    ensures Tokens(s)[i].Literal? <==> !StartsPlaceholder(TextOf(Tokens(s)[i..]))
    decreases |s|
  {
    var first, rest := FirstToken(s);
    if i == 0 {
      TokensSpell(s);
      assert Tokens(s)[0..] == Tokens(s);
    } else {
      LiteralIffNoPlaceholder(rest, i - 1);
      ConsSlices(first, Tokens(rest), i);
      assert Tokens(s)[i] == Tokens(rest)[i - 1];
    }
  }

  // ---------------------------------------------------------------- the rewriting

  /** The names in order of first occurrence. */
  function Order(tokens: seq<Token>): (order: seq<string>)
    ensures NoDup(order)
    ensures forall n :: n in order <==> Uses(tokens, n)
  {
    if tokens == [] then []
    else
      var front, last := tokens[..|tokens| - 1], tokens[|tokens| - 1];
      assert tokens == front + [last];
      var before := Order(front);
      assert forall n :: Uses(tokens, n) <==> Uses(front, n) || (last.Variable? && last.name == n);
      if last.Literal? || last.name in before then before else before + [last.name]
  }

  ghost predicate Uses(tokens: seq<Token>, name: string) {
    exists t :: t in tokens && t.Variable? && t.name == name
  }

  /** `list.indexOf(name)` */
  function IndexOf(order: seq<string>, name: string): (i: int)
    ensures -1 <= i < |order|
    ensures name in order <==> i >= 0
    ensures i >= 0 ==> order[i] == name && name !in order[..i]
  {
    if order == [] then -1
    else if order[0] == name then 0
    else
      var rest := IndexOf(order[1..], name);
      if rest < 0 then -1
      else
        assert order[..rest + 1] == [order[0]] + order[1..][..rest];
        rest + 1
  }

  lemma IndexIsFirst(order: seq<string>, name: string, i: nat)
    requires i < |order| && order[i] == name && name !in order[..i]
    ensures IndexOf(order, name) == i
  {
    assert forall j :: 0 <= j < i ==> order[j] in order[..i];
    assert forall j :: 0 <= j < IndexOf(order, name) ==> order[j] in order[..IndexOf(order, name)];
  }

  predicate IsDigit(c: char) {
    '0' <= c <= '9'
  }

  function Decimal(n: nat): (s: string)
    ensures s != "" && forall c :: c in s ==> IsDigit(c)
  {
    if n < 10 then [('0' as int + n) as char] else Decimal(n / 10) + [('0' as int + n % 10) as char]
  }

  function Number(s: string): nat
    requires forall c :: c in s ==> IsDigit(c)
  {
    if s == "" then 0
    else
      assert IsDigit(s[|s| - 1]);
      Number(s[..|s| - 1]) * 10 + (s[|s| - 1] as int - '0' as int)
  }

  lemma {:induction false} NumberOfDecimal(n: nat)
    ensures Number(Decimal(n)) == n
  {
    if n >= 10 {
      NumberOfDecimal(n / 10);
      assert Decimal(n)[..|Decimal(n)| - 1] == Decimal(n / 10);
    }
  }

  function Piece(t: Token, order: seq<string>): string {
    if t.Literal? then [t.c]
    else if IndexOf(order, t.name) < 0 then "$0"
    else "$" + Decimal(IndexOf(order, t.name) + 1)
  }

  function Rendered(tokens: seq<Token>, order: seq<string>): string {
    if tokens == [] then "" else Piece(tokens[0], order) + Rendered(tokens[1..], order)
  }

  function ValuesOf(order: seq<string>, variables: map<string, string>): seq<string>
    requires forall n :: n in order ==> n in variables
  {
    seq(|order|, i requires 0 <= i < |order| => variables[order[i]])
  }

  datatype Query = Query(query: string, values: seq<string>)

  datatype SqlError = MissingValue(name: string)

  /** The first name in the order without a value. */
  predicate FirstMissing(order: seq<string>, variables: map<string, string>, name: string) {
    exists i :: 0 <= i < |order| && order[i] == name && name !in variables && forall j :: 0 <= j < i ==> order[j] in variables
  }

  lemma {:induction false} RenderedSnoc(tokens: seq<Token>, t: Token, order: seq<string>)
    ensures Rendered(tokens + [t], order) == Rendered(tokens, order) + Piece(t, order)
    decreases |tokens|
  {
    if tokens == [] {
      assert [t][1..] == [];
    } else {
      var whole := tokens + [t];
      RenderedSnoc(tokens[1..], t, order);
      ConsTail(tokens, [t]);
      assert Rendered(whole, order) == Piece(whole[0], order) + Rendered(whole[1..], order);
      Assoc(Piece(tokens[0], order), Rendered(tokens[1..], order), Piece(t, order));
    }
  }

  lemma {:induction false} RenderedStable(tokens: seq<Token>, order: seq<string>, name: string)
    requires forall t :: t in tokens && t.Variable? ==> t.name in order
    ensures Rendered(tokens, order + [name]) == Rendered(tokens, order)
  {
    if tokens != [] {
      assert tokens[0] in tokens;
      if tokens[0].Variable? {
        var i := IndexOf(order, tokens[0].name);
        assert (order + [name])[..i] == order[..i];
        IndexIsFirst(order + [name], tokens[0].name, i);
      }
      RenderedStable(tokens[1..], order, name);
    }
  }

  lemma OrderSnoc(tokens: seq<Token>, t: Token)
    ensures Order(tokens + [t]) ==
              if t.Literal? || t.name in Order(tokens) then Order(tokens) else Order(tokens) + [t.name]
  {
    assert (tokens + [t])[..|tokens|] == tokens;
  }

  lemma Scanned(tokens: seq<Token>, t: Token)
    ensures var order := Order(tokens + [t]);
            Rendered(tokens + [t], order) == Rendered(tokens, Order(tokens)) + Piece(t, order)
  {
    OrderSnoc(tokens, t);
    RenderedSnoc(tokens, t, Order(tokens + [t]));
    forall u | u in tokens && u.Variable? ensures u.name in Order(tokens) { assert Uses(tokens, u.name); }
    if t.Variable? && t.name !in Order(tokens) { RenderedStable(tokens, Order(tokens), t.name); }
  }

  lemma ScanNext(all: seq<Token>, done: seq<Token>, token: Token, later: seq<Token>)
    requires all == done + ([token] + later)
    ensures all == done + [token] + later
  {}

  ghost predicate Rewritten(done: seq<Token>, order: seq<string>, query: string) {
    order == Order(done) && query == Rendered(done, order)
  }

  lemma RewriteNext(done: seq<Token>, order: seq<string>, query: string, t: Token)
    requires Rewritten(done, order, query)
    ensures var order' := if t.Literal? || t.name in order then order else order + [t.name];
            Rewritten(done + [t], order', query + Piece(t, order'))
  {
    Scanned(done, t);
    OrderSnoc(done, t);
  }

  method Replace(template: string) returns (query: string, paramOrder: seq<string>)
    ensures Rewritten(Tokens(template), paramOrder, query)
  {
    query, paramOrder := "", [];
    var seen: set<string> := {};
    var rest := template;
    ghost var done: seq<Token> := [];
    while rest != ""
      invariant Tokens(template) == done + Tokens(rest)
      invariant Rewritten(done, paramOrder, query)
      invariant forall n :: n in seen <==> n in paramOrder
      decreases |rest|
    {
      ghost var token, next := FirstToken(rest);
      ScanNext(Tokens(template), done, token, Tokens(next));
      RewriteNext(done, paramOrder, query, token);
      done := done + [token];
      match MatchAt(rest) {
        case Some(m) =>
          if m.name !in seen {
            paramOrder := paramOrder + [m.name];
            seen := seen + {m.name};
          }
          var index := IndexOf(paramOrder, m.name) + 1;
          query := query + ("$" + Decimal(index));
          rest := m.rest;
        case None =>
          query := query + [rest[0]];
          rest := rest[1..];
      }
    }
    assert done + Tokens("") == done;
  }

  method ToSafePgQuery(template: string, variables: map<string, string>) returns (r: Result<Query, SqlError>)
    ensures var order := Order(Tokens(template));
            match r
            case Ok(q) =>
              && (forall n :: n in order ==> n in variables)
              && q == Query(Rendered(Tokens(template), order), ValuesOf(order, variables))
            case Err(MissingValue(name)) => FirstMissing(order, variables, name)
  {
    var query, paramOrder := Replace(template);
    var values := ReadValues(paramOrder, variables);
    if values.Err? {
      return Err(values.error);
    }
    return Ok(Query(query, values.value));
  }

  method ReadValues(paramOrder: seq<string>, variables: map<string, string>) returns (r: Result<seq<string>, SqlError>)
    ensures match r
            case Ok(values) => (forall n :: n in paramOrder ==> n in variables) && values == ValuesOf(paramOrder, variables)
            case Err(MissingValue(name)) => FirstMissing(paramOrder, variables, name)
  {
    var values: seq<string> := [];
    for i := 0 to |paramOrder|
      invariant forall j :: 0 <= j < i ==> paramOrder[j] in variables
      invariant |values| == i && forall j :: 0 <= j < i ==> values[j] == variables[paramOrder[j]]
    {
      if paramOrder[i] !in variables {
        return Err(MissingValue(paramOrder[i]));
      }
      values := values + [variables[paramOrder[i]]];
    }
    return Ok(values);
  }

  // ---------------------------------------------------------------- order of the values

  /** The first use of an earlier parameter comes before any use of a later one. */
  lemma {:induction false} ParametersInOrder(tokens: seq<Token>, i: nat, j: nat) returns (k: nat)
    requires i < j < |Order(tokens)|
    ensures k < |tokens| && tokens[k].Variable? && tokens[k].name == Order(tokens)[i]
    ensures !Uses(tokens[..k], Order(tokens)[j])
  {
    var front, last := tokens[..|tokens| - 1], tokens[|tokens| - 1];
    assert tokens == front + [last];
    OrderSnoc(front, last);
    if j < |Order(front)| {
      k := ParametersInOrder(front, i, j);
      assert tokens[..k] == front[..k];
    } else {
      assert Order(front)[i] in Order(front) && Uses(front, Order(front)[i]);
      var t :| t in front && t.Variable? && t.name == Order(front)[i];
      k :| 0 <= k < |front| && front[k] == t;
      assert !Uses(front, last.name);
      assert forall u :: u in tokens[..k] ==> u in front;
    }
  }

  // ---------------------------------------------------------------- reading the query back

  /** The text a query stands for: a dollar sign and the digits after it stand for that value. */
  function ReadBack(q: string, values: seq<string>): Option<string>
    decreases |q|
  {
    if q == "" then Some("")
    else
      var (digits, rest) := Span(q[1..], IsDigit);
      assert |q[1..]| == |digits| + |rest|;
      if q[0] == '$' && digits != "" then
        if 1 <= Number(digits) <= |values| then Before(values[Number(digits) - 1], ReadBack(rest, values)) else None
      else Before([q[0]], ReadBack(q[1..], values))
  }

  function Before(s: string, t: Option<string>): Option<string> {
    if t.Some? then Some(s + t.value) else None
  }

  ghost predicate Covers(tokens: seq<Token>, variables: map<string, string>) {
    forall n :: n in Order(tokens) ==> n in variables
  }

  /** Every variable of `tokens` is one of `names`. */
  ghost predicate Only(tokens: seq<Token>, names: seq<string>) {
    forall t :: t in tokens && t.Variable? ==> t.name in names
  }

  /** The variables written straight into the template. */
  function Substituted(tokens: seq<Token>, variables: map<string, string>): string {
    if tokens == [] then ""
    else if tokens[0].Literal? then [tokens[0].c] + Substituted(tokens[1..], variables)
    else (if tokens[0].name in variables then variables[tokens[0].name] else "") + Substituted(tokens[1..], variables)
  }

  /** A digit written after a placeholder, or after a dollar sign, joins the number. */
  predicate Clash(t: Token, u: Token) {
    u.Literal? && IsDigit(u.c) && (t.Variable? || t.c == '$')
  }

  predicate Safe(tokens: seq<Token>) {
    forall i :: 0 <= i < |tokens| - 1 ==> !Clash(tokens[i], tokens[i + 1])
  }

  predicate ClashesFirst(tokens: seq<Token>) {
    |tokens| > 1 && Clash(tokens[0], tokens[1])
  }

  lemma SafeCons(tokens: seq<Token>)
    requires tokens != []
    ensures Safe(tokens) <==> Safe(tokens[1..]) && !ClashesFirst(tokens)
  {
    var rest := tokens[1..];
    if Safe(rest) && !ClashesFirst(tokens) {
      forall i | 0 <= i < |tokens| - 1 ensures !Clash(tokens[i], tokens[i + 1]) {
        if i > 0 { assert !Clash(rest[i - 1], rest[i]); }
      }
    }
    if Safe(tokens) {
      forall i | 0 <= i < |rest| - 1 ensures !Clash(rest[i], rest[i + 1]) {
        assert !Clash(tokens[i + 1], tokens[i + 2]);
      }
    }
  }

  predicate StartsWithDigit(tokens: seq<Token>) {
    tokens != [] && tokens[0].Literal? && IsDigit(tokens[0].c)
  }

  lemma RenderedStart(tokens: seq<Token>, order: seq<string>)
    ensures (Rendered(tokens, order) != "" && IsDigit(Rendered(tokens, order)[0])) <==> StartsWithDigit(tokens)
  {}

  lemma PieceOf(t: Token, order: seq<string>)
    requires t.Variable? && t.name in order
    ensures Piece(t, order) == "$" + Decimal(IndexOf(order, t.name) + 1)
    ensures Number(Decimal(IndexOf(order, t.name) + 1)) == IndexOf(order, t.name) + 1
  {
    NumberOfDecimal(IndexOf(order, t.name) + 1);
  }

  /** What reading the number `digits` gives, when `later` follows it. */
  function Parameter(digits: string, later: string, values: seq<string>): Option<string>
    requires forall c :: c in digits ==> IsDigit(c)
  {
    if 1 <= Number(digits) <= |values| then Before(values[Number(digits) - 1], ReadBack(later, values)) else None
  }

  /** Reading a parameter takes its own digits and those that follow. */
  lemma ReadParameter(digits: string, rest: string, values: seq<string>)
    requires digits != "" && forall c :: c in digits ==> IsDigit(c)
    ensures forall c :: c in digits + Span(rest, IsDigit).0 ==> IsDigit(c)
    ensures ReadBack("$" + digits + rest, values) == Parameter(digits + Span(rest, IsDigit).0, Span(rest, IsDigit).1, values)
  {
    var q := "$" + digits + rest;
    assert q[1..] == digits + rest;
    SpanAppend(digits, rest, IsDigit);
  }

  lemma ReadLiteral(c: char, rest: string, values: seq<string>)
    requires c == '$' ==> rest == "" || !IsDigit(rest[0])
    ensures ReadBack([c] + rest, values) == Before([c], ReadBack(rest, values))
  {
    assert ([c] + rest)[1..] == rest;
    if c == '$' {
      SpanIs("", rest, IsDigit);
      assert "" + rest == rest;
    }
  }

  lemma ReadWhole(digits: string, rest: string, values: seq<string>)
    requires digits != "" && forall c :: c in digits ==> IsDigit(c)
    requires rest != "" ==> !IsDigit(rest[0])
    ensures ReadBack("$" + digits + rest, values) == Parameter(digits, rest, values)
  {
    ReadParameter(digits, rest, values);
    assert Span(rest, IsDigit) == ("", rest) && digits + "" == digits;
  }

  lemma ValueAt(order: seq<string>, variables: map<string, string>, name: string)
    requires name in order && forall n :: n in order ==> n in variables
    ensures ValuesOf(order, variables)[IndexOf(order, name)] == variables[name]
  {}

  lemma ReadVariable(t: Token, order: seq<string>, variables: map<string, string>, rest: string)
    requires t.Variable? && t.name in order && forall n :: n in order ==> n in variables
    requires rest != "" ==> !IsDigit(rest[0])
    ensures ReadBack(Piece(t, order) + rest, ValuesOf(order, variables)) ==
              Before(variables[t.name], ReadBack(rest, ValuesOf(order, variables)))
  {
    PieceOf(t, order);
    ValueAt(order, variables, t.name);
    ReadWhole(Decimal(IndexOf(order, t.name) + 1), rest, ValuesOf(order, variables));
  }

  lemma {:induction false} SafeReadsBack(tokens: seq<Token>, order: seq<string>, variables: map<string, string>)
    requires Safe(tokens) && Only(tokens, order) && forall n :: n in order ==> n in variables
    ensures ReadBack(Rendered(tokens, order), ValuesOf(order, variables)) == Some(Substituted(tokens, variables))
  {
    if tokens != [] {
      SafeCons(tokens);
      SafeReadsBack(tokens[1..], order, variables);
      RenderedStart(tokens[1..], order);
      if tokens[0].Literal? {
        ReadLiteral(tokens[0].c, Rendered(tokens[1..], order), ValuesOf(order, variables));
      } else {
        assert tokens[0] in tokens;
        ReadVariable(tokens[0], order, variables, Rendered(tokens[1..], order));
      }
    }
  }

  // ---------------------------------------------------------------- and only then

  function Literals(tokens: seq<Token>): nat {
    if tokens == [] then 0 else (if tokens[0].Literal? then 1 else 0) + Literals(tokens[1..])
  }

  /** The digits a number runs into are literal tokens; what follows them is rendered from the tokens left. */
  lemma {:induction false} DigitsTaken(tokens: seq<Token>, order: seq<string>) returns (later: seq<Token>)
    ensures Span(Rendered(tokens, order), IsDigit).1 == Rendered(later, order)
    ensures |later| <= |tokens| && Literals(tokens) == Literals(later) + (|tokens| - |later|)
    ensures StartsWithDigit(tokens) ==> |later| < |tokens|
    ensures Safe(tokens) <==> Safe(later)
    ensures forall t :: t in later ==> t in tokens
  {
    RenderedStart(tokens, order);
    if StartsWithDigit(tokens) {
      later := DigitsTaken(tokens[1..], order);
      SafeCons(tokens);
      SpanAppend([tokens[0].c], Rendered(tokens[1..], order), IsDigit);
    } else {
      later := tokens;
      SpanIs("", Rendered(tokens, order), IsDigit);
      assert "" + Rendered(tokens, order) == Rendered(tokens, order);
    }
  }

  function Blank(n: nat): (values: seq<string>)
    ensures |values| == n && forall i :: 0 <= i < n ==> values[i] == ""
  {
    seq(n, i => "")
  }

  /** With empty values a query reads back at most as long as its literals, and shorter when digits were joined. */
  ghost predicate ReadsShort(tokens: seq<Token>, read: Option<string>) {
    read.Some? ==> |read.value| <= Literals(tokens) && (!Safe(tokens) ==> |read.value| < Literals(tokens))
  }

  lemma {:induction false} UnsafeReadsShort(tokens: seq<Token>, order: seq<string>)
    requires Only(tokens, order)
    ensures ReadsShort(tokens, ReadBack(Rendered(tokens, order), Blank(|order|)))
    decreases |tokens|
  {
    if tokens != [] {
      SafeCons(tokens);
      RenderedStart(tokens[1..], order);
      assert tokens[0] in tokens;
      if tokens[0].Literal? && !ClashesFirst(tokens) {
        UnsafeReadsShort(tokens[1..], order);
        ReadLiteral(tokens[0].c, Rendered(tokens[1..], order), Blank(|order|));
      } else if tokens[0].Literal? {
        DollarReadsShort(tokens, order);
      } else {
        ParameterReadsShort(tokens, order);
      }
    }
  }

  lemma ReadDollar(rest: string, values: seq<string>)
    requires rest != "" && IsDigit(rest[0])
    ensures ReadBack(['$'] + rest, values) == Parameter(Span(rest, IsDigit).0, Span(rest, IsDigit).1, values)
  {
    assert (['$'] + rest)[1..] == rest;
  }

  /** An empty value, and then what is left. */
  lemma BlankReadsShort(digits: string, later: seq<Token>, order: seq<string>, tokens: seq<Token>)
    requires forall c :: c in digits ==> IsDigit(c)
    requires ReadsShort(later, ReadBack(Rendered(later, order), Blank(|order|)))
    requires Literals(later) < Literals(tokens) || (Literals(later) == Literals(tokens) && (Safe(tokens) <==> Safe(later)))
    ensures ReadsShort(tokens, Parameter(digits, Rendered(later, order), Blank(|order|)))
  {}

  lemma DollarReadsShort(tokens: seq<Token>, order: seq<string>)
    requires Only(tokens, order) && tokens != [] && tokens[0].Literal? && ClashesFirst(tokens)
    ensures ReadsShort(tokens, ReadBack(Rendered(tokens, order), Blank(|order|)))
    decreases |tokens|, 0
  {
    var rest := Rendered(tokens[1..], order);
    var later := DigitsTaken(tokens[1..], order);
    UnsafeReadsShort(later, order);
    RenderedStart(tokens[1..], order);
    ReadDollar(rest, Blank(|order|));
    BlankReadsShort(Span(rest, IsDigit).0, later, order, tokens);
  }

  lemma ParameterReadsShort(tokens: seq<Token>, order: seq<string>)
    requires Only(tokens, order) && tokens != [] && tokens[0].Variable?
    ensures ReadsShort(tokens, ReadBack(Rendered(tokens, order), Blank(|order|)))
    decreases |tokens|, 0
  {
    var rest, digits := Rendered(tokens[1..], order), Decimal(IndexOf(order, tokens[0].name) + 1);
    var later := DigitsTaken(tokens[1..], order);
    SafeCons(tokens);
    assert tokens[0] in tokens;
    PieceOf(tokens[0], order);
    UnsafeReadsShort(later, order);
    ReadParameter(digits, rest, Blank(|order|));
  }

  lemma {:induction false} SubstitutedBlank(tokens: seq<Token>, variables: map<string, string>)
    requires forall n :: n in variables ==> variables[n] == ""
    ensures |Substituted(tokens, variables)| == Literals(tokens)
  {
    if tokens != [] { SubstitutedBlank(tokens[1..], variables); }
  }

  ghost predicate ReadsAsSubstituted(tokens: seq<Token>, variables: map<string, string>)
    requires Covers(tokens, variables)
  {
    ReadBack(Rendered(tokens, Order(tokens)), ValuesOf(Order(tokens), variables)) == Some(Substituted(tokens, variables))
  }

  /**
   The rewriting is faithful, for all values, exactly when no digit follows a placeholder or a literal dollar sign.
   */
  lemma FaithfulIffSafe(template: string)
    ensures var tokens := Tokens(template);
            (forall variables :: Covers(tokens, variables) ==> ReadsAsSubstituted(tokens, variables)) <==> Safe(tokens)
  {
    var tokens := Tokens(template);
    var order := Order(tokens);
    forall t | t in tokens && t.Variable? ensures t.name in order { assert Uses(tokens, t.name); }
    if Safe(tokens) {
      forall variables | Covers(tokens, variables) ensures ReadsAsSubstituted(tokens, variables) {
        SafeReadsBack(tokens, order, variables);
      }
    } else {
      var blank := map n | n in order :: "";
      assert Covers(tokens, blank);
      assert ValuesOf(order, blank) == Blank(|order|);
      SubstitutedBlank(tokens, blank);
      UnsafeReadsShort(tokens, order);
      assert !ReadsAsSubstituted(tokens, blank);
    }
  }

  /** A digit right after a placeholder is never safe. */
  lemma DigitAfterPlaceholder(text: string, name: string, before: string, after: string, c: char, rest: string)
    requires Placeholder(text, name, before, after) && IsDigit(c)
    ensures !Safe(Tokens(text + ([c] + rest)))
  {
    var tail := [c] + rest;
    PlaceholderMatches(text, name, before, after, tail);
    assert tail[0] == c && !("{{" <= tail);
    var tokens := Tokens(text + tail);
    assert tokens == [Variable(name, text)] + Tokens(tail);
    assert tokens[1] == Tokens(tail)[0] == Literal(c);
    assert Clash(tokens[0], tokens[1]);
  }

  /** A template that shows it: its query ends in a parameter 11, and there is one value. */
  lemma DigitJoinsParameter()
    ensures !Safe(Tokens("{{" + "" + "a" + "" + "}}" + (['1'] + "")))
  {
    DigitAfterPlaceholder("{{" + "" + "a" + "" + "}}", "a", "", "", '1', "");
  }
}
