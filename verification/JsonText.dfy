/** The text of a canonical form, as it is hashed: strings in quotes and escaped, lexemes joined without spaces. */
module JsonText {
  import opened Common
  import opened CanonicalJson

  // ----- strings

  function Hex(n: nat): char
    requires n < 16
  {
    "0123456789abcdef"[n]
  }

  /** `JSON.stringify` of one character. */
  function Escape(c: char): (s: string)
    ensures s != [] && s[0] != '"' && (s[0] == '\\' <==> |s| > 1) && (|s| == 1 ==> s[0] == c)
  {
    var n := c as int;
    if c == '"' then ['\\', '"']
    else if c == '\\' then ['\\', '\\']
    else if n == 8 then ['\\', 'b']
    else if n == 9 then ['\\', 't']
    else if n == 10 then ['\\', 'n']
    else if n == 12 then ['\\', 'f']
    else if n == 13 then ['\\', 'r']
    else if n < 32 then ['\\', 'u', '0', '0', Hex(n / 16), Hex(n % 16)]
    else [c]
  }

  function Escaped(s: string): string {
    if s == [] then [] else Escape(s[0]) + Escaped(s[1..])
  }

  /** A string up to its closing quote, with what follows. */
  function Tail(s: string, x: string): string {
    Escaped(s) + (['"'] + x)
  }

  lemma HexRead(a: nat, b: nat)
    requires a < 16 && b < 16 && Hex(a) == Hex(b)
    ensures a == b
  {
  }

  lemma EscapeRead(c: char, d: char)
    requires Escape(c) == Escape(d)
    ensures c == d
  {
    if c as int < 32 && |Escape(c)| == 6 {
      assert Escape(c)[4] == Escape(d)[4] && Escape(c)[5] == Escape(d)[5];
      HexRead(c as int / 16, d as int / 16);
      HexRead(c as int % 16, d as int % 16);
    }
  }

  /** The length of an escape shows in its first two characters. */
  lemma EscapeLength(c: char)
    ensures |Escape(c)| == 1 || (|Escape(c)| == 2 && Escape(c)[1] != 'u') || (|Escape(c)| == 6 && Escape(c)[1] == 'u')
  {
  }

  lemma EscapeSplits(c: char, x: string, d: char, y: string)
    requires Escape(c) + x == Escape(d) + y
    ensures c == d && x == y
  {
    var p, q := Escape(c), Escape(d);
    assert p[0] == (p + x)[0] == (q + y)[0] == q[0];
    if |p| > 1 {
      assert p[1] == (p + x)[1] == (q + y)[1] == q[1];
    }
    EscapeLength(c);
    EscapeLength(d);
    hide Escape;
    SameSplit(p, x, q, y);
    EscapeRead(c, d);
  }

  lemma SameSplit<T>(p: seq<T>, x: seq<T>, q: seq<T>, y: seq<T>)
    requires |p| == |q| && p + x == q + y
    ensures p == q && x == y
  {
    assert p == (p + x)[..|p|] == (q + y)[..|q|] == q;
    assert x == (p + x)[|p|..] == (q + y)[|q|..] == y;
  }

  lemma {:induction false} TailRead(s: string, x: string, t: string, y: string)
    requires Tail(s, x) == Tail(t, y)
    ensures s == t && x == y
  {
    TailStarts(s, x);
    TailStarts(t, y);
    if s == [] || t == [] {
      assert s == [] && t == [];
      SameSplit(['"'], x, ['"'], y);
    } else {
      hide Tail, Escape;
      EscapeSplits(s[0], Tail(s[1..], x), t[0], Tail(t[1..], y));
      TailRead(s[1..], x, t[1..], y);
      assert s == [s[0]] + s[1..] && t == [t[0]] + t[1..];
    }
  }

  lemma TailStarts(s: string, x: string)
    ensures Tail(s, x) != []
    ensures if s == [] then Tail(s, x) == ['"'] + x && Tail(s, x)[0] == '"'
            else Tail(s, x) == Escape(s[0]) + Tail(s[1..], x) && Tail(s, x)[0] != '"'
  {
    if s != [] {
      hide Escape;
      Regroup(Escape(s[0]), Escaped(s[1..]), ['"'] + x);
    }
  }

  // ----- lexemes

  function Render(l: Lexeme): string {
    match l
    case Atom(Null) => "null"
    case Atom(Boolean(b)) => if b then "true" else "false"
    case Atom(Number(text)) => text
    case Atom(Text(s)) => ['"'] + Tail(s, [])
    case Atom(_) => "?"  // lists and records have lexemes of their own
    case OpenList => "["
    case CloseList => "]"
    case OpenRecord => "{"
    case CloseRecord => "}"
    case Comma => ","
    case Key(key) => ['"'] + Tail(key, [':'])
  }

  function RenderAll(lexemes: seq<Lexeme>): string {
    if lexemes == [] then [] else Render(lexemes[0]) + RenderAll(lexemes[1..])
  }

  /** What may follow a value. */
  predicate Ends(l: Lexeme) {
    l.Comma? || l.CloseList? || l.CloseRecord?
  }

  predicate Written(l: Lexeme) {
    l.Atom? ==> !l.value.List? && !l.value.Record? && (l.value.Number? ==> NumberText(l.value.text))
  }

  /** Every value is followed by a separator or a closing bracket, if by anything. */
  ghost predicate Spaced(lexemes: seq<Lexeme>) {
    lexemes == []
    || (Written(lexemes[0]) && (lexemes[0].Atom? ==> EndsNext(lexemes[1..])) && Spaced(lexemes[1..]))
  }

  predicate EndsNext(lexemes: seq<Lexeme>) {
    lexemes == [] || Ends(lexemes[0])
  }

  lemma SpacedWith(l: Lexeme, rest: seq<Lexeme>)
    requires Written(l) && Spaced(rest) && (l.Atom? ==> EndsNext(rest))
    ensures Spaced([l] + rest)
  {
    assert ([l] + rest)[1..] == rest;
  }

  // ----- the form of a value is spaced

  lemma {:induction false} LexemesSpaced(v: Json, x: seq<Lexeme>)
    requires Wellformed(v) && Spaced(x) && EndsNext(x)
    ensures Spaced(Lexemes(v) + x)
    decreases Nodes(v), 0, 0
  {
    match v {
      case List(items) =>
        SpacedWith(CloseList, x);
        ItemsSpaced(items, true, [CloseList] + x);
        SpacedWith(OpenList, ListLexemes(items, true) + ([CloseList] + x));
        Opened(OpenList, ListLexemes(items, true), CloseList, x);
      case Record(members) =>
        MembersWellformed(members);
        SpacedWith(CloseRecord, x);
        MembersSpaced(InOrder(members), true, [CloseRecord] + x);
        SpacedWith(OpenRecord, RecordLexemes(InOrder(members), true) + ([CloseRecord] + x));
        Opened(OpenRecord, RecordLexemes(InOrder(members), true), CloseRecord, x);
      case _ => SpacedWith(Atom(v), x);
    }
  }

  lemma MembersWellformed(members: seq<Member>)
    requires Wellformed(Record(members))
    ensures forall i :: 0 <= i < |members| ==> Wellformed(InOrder(members)[i].value)
  {
    hide InOrder;
    forall i | 0 <= i < |members| ensures Wellformed(InOrder(members)[i].value) {
      SameElements(InOrder(members), members, i);
    }
  }

  lemma {:induction false} ItemsSpaced(items: seq<Json>, first: bool, x: seq<Lexeme>)
    requires forall i :: 0 <= i < |items| ==> Wellformed(items[i])
    requires Spaced(x) && x != [] && Closing(x[0])
    ensures Spaced(ListLexemes(items, first) + x)
    ensures !first ==> EndsNext(ListLexemes(items, first) + x)
    decreases NodesOfItems(items), 1, |items|
  {
    if items == [] {
      assert ListLexemes(items, first) + x == x;
    } else {
      ItemsUnfold(items, first, x);
      hide ListLexemes, Lexemes, Wellformed, Spaced;
      var rest := ListLexemes(items[1..], false) + x;
      ItemsSpaced(items[1..], false, x);
      LexemesSpaced(items[0], rest);
      if first {
        assert Separator(true) + (Lexemes(items[0]) + rest) == Lexemes(items[0]) + rest;
      } else {
        SpacedWith(Comma, Lexemes(items[0]) + rest);
      }
    }
  }

  lemma {:induction false} MembersSpaced(members: seq<Member>, first: bool, x: seq<Lexeme>)
    requires forall i :: 0 <= i < |members| ==> Wellformed(members[i].value)
    requires Spaced(x) && x != [] && Closing(x[0])
    ensures Spaced(RecordLexemes(members, first) + x)
    ensures !first ==> EndsNext(RecordLexemes(members, first) + x)
    decreases NodesOfMembers(members), 1, |members|
  {
    if members == [] {
      assert RecordLexemes(members, first) + x == x;
    } else {
      MembersUnfold(members, first, x);
      hide RecordLexemes, Lexemes, Wellformed, Spaced;
      var rest := RecordLexemes(members[1..], false) + x;
      MembersSpaced(members[1..], false, x);
      LexemesSpaced(members[0].value, rest);
      var pair := [Key(members[0].key)] + (Lexemes(members[0].value) + rest);
      SpacedWith(Key(members[0].key), Lexemes(members[0].value) + rest);
      if first {
        assert Separator(true) + pair == pair;
      } else {
        SpacedWith(Comma, pair);
      }
    }
  }

  // ----- a text has one reading

  /** The character a lexeme starts with, which tells its kind. */
  predicate Starts(l: Lexeme, c: char) {
    match l
    case Atom(Null) => c == 'n'
    case Atom(Boolean(b)) => c == if b then 't' else 'f'
    case Atom(Number(_)) => NumberChar(c)
    case Atom(Text(_)) => c == '"'
    case Atom(_) => false
    case OpenList => c == '['
    case CloseList => c == ']'
    case OpenRecord => c == '{'
    case CloseRecord => c == '}'
    case Comma => c == ','
    case Key(_) => c == '"'
  }

  lemma RenderStarts(l: Lexeme)
    requires Written(l)
    ensures Render(l) != [] && Starts(l, Render(l)[0])
  {
    hide Tail;
  }

  lemma RestStarts(lexemes: seq<Lexeme>)
    requires Spaced(lexemes)
    ensures lexemes != [] ==> RenderAll(lexemes) != [] && Starts(lexemes[0], RenderAll(lexemes)[0])
  {
    if lexemes != [] {
      RenderStarts(lexemes[0]);
      hide Render;
      var p, rest := Render(lexemes[0]), RenderAll(lexemes[1..]);
      assert (p + rest)[0] == p[0];
    }
  }

  /** After a value: a comma, a closing bracket, or nothing. */
  predicate Stops(x: string) {
    x == [] || x[0] in ",]}"
  }

  /** How many number characters a text starts with. */
  function Leading(text: string): nat {
    if text == [] || !NumberChar(text[0]) then 0 else 1 + Leading(text[1..])
  }

  lemma {:induction false} LeadingRead(m: string, x: string)
    requires Stops(x) && forall i :: 0 <= i < |m| ==> NumberChar(m[i])
    ensures Leading(m + x) == |m|
  {
    if m == [] {
      assert m + x == x;
    } else {
      assert (m + x)[0] == m[0] && (m + x)[1..] == m[1..] + x;
      LeadingRead(m[1..], x);
    }
  }

  lemma NumberRead(m: string, x: string, n: string, y: string)
    requires NumberText(m) && NumberText(n) && Stops(x) && Stops(y) && m + x == n + y
    ensures m == n && x == y
  {
    LeadingRead(m, x);
    LeadingRead(n, y);
    SameSplit(m, x, n, y);
  }

  /** The first lexeme of a text and what is left of it are the only ones possible. */
  lemma FirstRead(l: Lexeme, x: string, m: Lexeme, y: string)
    requires Written(l) && Written(m) && (l.Atom? ==> Stops(x)) && (m.Atom? ==> Stops(y))
    requires Render(l) + x == Render(m) + y
    ensures l == m && x == y
  {
    RenderStarts(l);
    RenderStarts(m);
    assert Render(l)[0] == (Render(l) + x)[0] == (Render(m) + y)[0] == Render(m)[0];
    var c := Render(l)[0];
    if c == '"' {
      QuotedRead(l, x, m, y);
    } else if NumberChar(c) {
      NumberRead(Render(l), x, Render(m), y);
    } else {
      SameSplit(Render(l), x, Render(m), y);
    }
  }

  function Quoted(l: Lexeme): string {
    match l case Atom(Text(s)) => s case Key(key) => key case _ => []
  }

  function AfterQuote(l: Lexeme, x: string): string {
    if l.Key? then [':'] + x else x
  }

  lemma QuotedIsTail(l: Lexeme, x: string)
    requires l.Key? || (l.Atom? && l.value.Text?)
    ensures Render(l) + x == ['"'] + Tail(Quoted(l), AfterQuote(l, x))
  {
    hide Escaped;
    var colon := if l.Key? then [':'] else [];
    assert Render(l) == ['"'] + (Escaped(Quoted(l)) + (['"'] + colon));
    assert (['"'] + (Escaped(Quoted(l)) + (['"'] + colon))) + x == ['"'] + (Escaped(Quoted(l)) + (['"'] + (colon + x)));
    assert colon + x == AfterQuote(l, x);
  }

  lemma QuotedRead(l: Lexeme, x: string, m: Lexeme, y: string)
    requires l.Key? || (l.Atom? && l.value.Text?)
    requires m.Key? || (m.Atom? && m.value.Text?)
    requires (l.Atom? ==> Stops(x)) && (m.Atom? ==> Stops(y))
    requires Render(l) + x == Render(m) + y
    ensures l == m && x == y
  {
    QuotedIsTail(l, x);
    QuotedIsTail(m, y);
    hide Render, Tail;
    SameSplit(['"'], Tail(Quoted(l), AfterQuote(l, x)), ['"'], Tail(Quoted(m), AfterQuote(m, y)));
    TailRead(Quoted(l), AfterQuote(l, x), Quoted(m), AfterQuote(m, y));
    if l.Key? && m.Key? {
      SameSplit([':'], x, [':'], y);
    }
  }

  /** Two spaced sequences of lexemes with the same text are the same. */
  lemma {:induction false} TextRead(a: seq<Lexeme>, b: seq<Lexeme>)
    requires Spaced(a) && Spaced(b) && RenderAll(a) == RenderAll(b)
    ensures a == b
    decreases |a|
  {
    RestStarts(a);
    RestStarts(b);
    if a != [] && b != [] {
      RestStarts(a[1..]);
      RestStarts(b[1..]);
      hide Render;
      FirstRead(a[0], RenderAll(a[1..]), b[0], RenderAll(b[1..]));
      TextRead(a[1..], b[1..]);
      assert a == [a[0]] + a[1..] && b == [b[0]] + b[1..];
    }
  }

  /** `canonicalJson`: nothing when there are too many nodes. */
  function CanonicalText(v: Json, maxNodes: nat): Option<string> {
    if Nodes(v) > maxNodes then None else Some(RenderAll(Lexemes(v)))
  }

  /** Two parsed values have the same canonical text exactly when they are equal up to the order of keys. */
  lemma CanonicalTextDecidesSame(a: Json, b: Json, maxNodes: nat)
    requires Wellformed(a) && Wellformed(b) && CanonicalText(a, maxNodes).Some?
    ensures CanonicalText(a, maxNodes) == CanonicalText(b, maxNodes) <==> Same(a, b)
  {
    LexemesSpaced(a, []);
    LexemesSpaced(b, []);
    assert Lexemes(a) + [] == Lexemes(a) && Lexemes(b) + [] == Lexemes(b);
    hide Same, Lexemes, Wellformed, RenderAll, Spaced;
    CanonicalDecidesSame(a, b, maxNodes);
    if CanonicalText(a, maxNodes) == CanonicalText(b, maxNodes) {
      TextRead(Lexemes(a), Lexemes(b));
    }
  }
}
