/** Decimal text of integers, as `Display` prints them. */
module Decimal {
  predicate IsDigit(c: char) { '0' <= c <= '9' }

  function DigitChar(d: nat): (c: char)
    requires d < 10
    ensures IsDigit(c) && c as int - '0' as int == d
  {
    ['0', '1', '2', '3', '4', '5', '6', '7', '8', '9'][d]
  }

  function NatText(n: nat): (s: string)
    ensures s != [] && forall c | c in s :: IsDigit(c)
  {
    if n < 10 then [DigitChar(n)] else NatText(n / 10) + [DigitChar(n % 10)]
  }

  function IntText(n: int): (s: string)
    ensures s != [] && forall c | c in s :: IsDigit(c) || c == '-'
  {
    if n < 0 then "-" + NatText(-n) else NatText(n)
  }

  function NatValue(s: string): nat
    requires forall c | c in s :: IsDigit(c)
  {
    if s == [] then 0
    else
      var last := s[|s| - 1];
      assert IsDigit(last);
      10 * NatValue(s[..|s| - 1]) + (last as int - '0' as int)
  }

  /** Reading the printed digits gives the number back. */
  lemma {:induction false} NatTextRoundTrip(n: nat)
    ensures NatValue(NatText(n)) == n
  {
    if n < 10 {
      assert NatText(n)[..0] == [];
    } else {
      NatTextRoundTrip(n / 10);
      var s := NatText(n);
      assert s[..|s| - 1] == NatText(n / 10);
    }
  }

  lemma NatTextInjective(m: nat, n: nat)
    requires NatText(m) == NatText(n)
    ensures m == n
  {
    NatTextRoundTrip(m);
    NatTextRoundTrip(n);
  }

  lemma NatTextSnoc(n: nat, d: nat)
    requires n > 0 && d < 10
    ensures NatText(10 * n + d) == NatText(n) + [DigitChar(d)]
  {
    assert (10 * n + d) / 10 == n && (10 * n + d) % 10 == d;
  }

  /** Digits without leading zeros are what their value prints to. */
  lemma {:induction false} NatTextOfValue(s: string)
    requires s != "" && (forall c | c in s :: IsDigit(c)) && (s[0] == '0' ==> |s| == 1)
    ensures NatText(NatValue(s)) == s
    ensures NatValue(s) == 0 ==> s == "0"
  {
    var front, last := s[..|s| - 1], s[|s| - 1];
    assert last in s && s == front + [last];
    assert IsDigit(last) && DigitChar(last as int - '0' as int) == last;
    if front != "" {
      assert front[0] == s[0] && forall c | c in front :: c in s;
      NatTextOfValue(front);
      NatTextSnoc(NatValue(front), last as int - '0' as int);
    }
    hide NatText, DigitChar;
  }

  /** The text of a number: a sign if it is negative, then digits of its size without leading zeros. */
  lemma IntTextReads(n: int)
    ensures var s := IntText(n);
            if n < 0 then s[0] == '-' && s[1..] == NatText(-n) else s == NatText(n)
    ensures n != 0 ==> NatText(if n < 0 then -n else n)[0] != '0'
    ensures NatValue(NatText(if n < 0 then -n else n)) == if n < 0 then -n else n
    ensures |NatText(0)| == 1
  {
    var m: nat := if n < 0 then -n else n;
    NatTextRoundTrip(m);
    NoLeadingZero(m);
  }

  lemma {:induction false} NoLeadingZero(n: nat)
    ensures NatText(n)[0] == '0' ==> n == 0 && |NatText(n)| == 1
  {
    if n >= 10 {
      NoLeadingZero(n / 10);
      assert NatText(n)[0] == NatText(n / 10)[0];
    }
  }

  lemma SignOfText(n: int)
    ensures IntText(n)[0] == '-' <==> n < 0
  {
    if n >= 0 {
      assert NatText(n)[0] in NatText(n);
    }
  }

  lemma IntTextInjective(m: int, n: int)
    requires IntText(m) == IntText(n)
    ensures m == n
  {
    SignOfText(m);
    SignOfText(n);
    if m < 0 {
      assert IntText(m)[1..] == NatText(-m) && IntText(n)[1..] == NatText(-n);
      NatTextInjective(-m, -n);
    } else {
      NatTextInjective(m, n);
    }
  }
}

/** Text order and text surgery shared by the printer's proofs. */
module Text {
  /** Code-point order, which is also the byte order of UTF-8 text. */
  predicate Less(a: string, b: string) {
    if b == [] then false
    else if a == [] then true
    else a[0] < b[0] || (a[0] == b[0] && Less(a[1..], b[1..]))
  }

  /** One text is below another if and only if it is a proper prefix, or has the smaller character where they first differ. */
  lemma {:induction false} LessIff(a: string, b: string)
    ensures Less(a, b) <==>
            exists n :: 0 <= n <= |a| && n < |b| && a[..n] == b[..n] && (n == |a| || a[n] < b[n])
  {
    if a != [] && b != [] && a[0] == b[0] {
      var s, t := a[1..], b[1..];
      LessIff(s, t);
      if n :| 0 <= n <= |s| && n < |t| && s[..n] == t[..n] && (n == |s| || s[n] < t[n]) {
        assert a[..n + 1] == [a[0]] + s[..n] && b[..n + 1] == [b[0]] + t[..n];
      }
      if n :| 0 <= n <= |a| && n < |b| && a[..n] == b[..n] && (n == |a| || a[n] < b[n]) {
        assert n > 0;
        assert s[..n - 1] == a[..n][1..] && t[..n - 1] == b[..n][1..];
      }
    } else if b != [] {
      assert a[..0] == b[..0];
      assert forall n :: 0 < n <= |a| && n < |b| ==> a[..n][0] == a[0] && b[..n][0] == b[0];
    }
  }

  lemma {:induction false} LessTotal(a: string, b: string)
    ensures Less(a, b) || Less(b, a) || a == b
    ensures !(Less(a, b) && Less(b, a)) && !Less(a, a)
  {
    if a != [] && b != [] {
      LessTotal(a[1..], b[1..]);
      LessTotal(a[1..], a[1..]);
      if a[0] == b[0] && a[1..] == b[1..] {
        assert a == [a[0]] + a[1..] == b;
      }
    } else if a != [] {
      LessTotal(a[1..], a[1..]);
    }
  }

  lemma {:induction false} LessTransitive(a: string, b: string, c: string)
    requires Less(a, b) && Less(b, c)
    ensures Less(a, c)
  {
    if a != [] && a[0] == b[0] == c[0] {
      LessTransitive(a[1..], b[1..], c[1..]);
    }
  }

  lemma Regroup(a: string, b: string, c: string, d: string)
    ensures (a + b) + c + d == a + (b + c + d)
  {
  }

  lemma Reassociate(a: string, b: string, c: string, d: string)
    ensures (a + b + c) + d == a + (b + (c + d))
  {
  }

  lemma SplitEqual(a: string, s: string, b: string, t: string)
    requires a + s == b + t && |a| == |b|
    ensures a == b && s == t
  {
    assert a == (a + s)[..|a|] && b == (b + t)[..|b|];
    assert s == (a + s)[|a|..] && t == (b + t)[|b|..];
  }
}

/**
 The canonical JSON printer behind idempotency keys: object members in key
 order, no white space, texts escaped as in sections 4, 5 and 7 of RFC 8259.
 */
module CanonicalJson {
  import opened Wrappers
  import Decimal
  import Text

  /** A float is represented by the token it prints to. */
  datatype Json =
    | Null
    | Bool(b: bool)
    | Int(n: int)
    | Float(token: string)
    | Str(s: string)
    | Arr(items: seq<Json>)
    | Obj(members: seq<Member>)

  datatype Member = Member(key: string, value: Json)

  predicate IsNumChar(c: char) {
    Decimal.IsDigit(c) || c in "+-.eE"
  }

  function DigitRun(s: string): (n: nat)
    ensures n <= |s| && forall i :: 0 <= i < n ==> Decimal.IsDigit(s[i])
  {
    if s != "" && Decimal.IsDigit(s[0]) then 1 + DigitRun(s[1..]) else 0
  }

  /** Nothing, or an exponent. */
  predicate IsExponent(s: string) {
    s == "" ||
    (s[0] in "eE" && var t := s[if |s| > 1 && s[1] in "+-" then 2 else 1..]; t != "" && DigitRun(t) == |t|)
  }

  /** What follows the integer part: a fraction, an exponent, both or nothing. */
  predicate IsTail(s: string) {
    if s != "" && s[0] == '.' then
      var n := DigitRun(s[1..]);
      n > 0 && IsExponent(s[1 + n..])
    else IsExponent(s)
  }

  /** A number as in section 6 of RFC 8259: a sign, an integer part without leading zeros, and a tail. */
  predicate IsNumber(s: string) {
    var t := if s != "" && s[0] == '-' then s[1..] else s;
    var n := DigitRun(t);
    n > 0 && (t[0] == '0' ==> n == 1) && IsTail(t[n..])
  }

  /** Shortest round-trip printing of a finite float always shows a point or an exponent. */
  predicate IsFloatToken(s: string) {
    && IsNumber(s)
    && (forall c | c in s :: IsNumChar(c))
    && exists c | c in s :: c in ".eE"
  }

  predicate DistinctKeys(ms: seq<Member>) {
    forall i, j :: 0 <= i < j < |ms| ==> ms[i].key != ms[j].key
  }

  /** Object keys are distinct at every depth, as in any decoded value. */
  predicate WellFormed(j: Json) {
    match j
    case Float(t) => IsFloatToken(t)
    case Arr(items) => forall x | x in items :: WellFormed(x)
    case Obj(ms) => DistinctKeys(ms) && forall m | m in ms :: WellFormed(m.value)
    case _ => true
  }

  // ---------------------------------------------------------------- texts

  function HexDigit(d: nat): char
    requires d < 16
  {
    ['0', '1', '2', '3', '4', '5', '6', '7', '8', '9', 'a', 'b', 'c', 'd', 'e', 'f'][d]
  }

  /** The characters with a two-character escape. */
  function ShortEscape(c: char): Option<char> {
    if c == '"' then Some('"')
    else if c == '\\' then Some('\\')
    else if c as int == 8 then Some('b')
    else if c as int == 9 then Some('t')
    else if c as int == 10 then Some('n')
    else if c as int == 12 then Some('f')
    else if c as int == 13 then Some('r')
    else None
  }

  function EscapeChar(c: char): string {
    match ShortEscape(c)
    case Some(k) => ['\\', k]
    case None =>
      var n := c as int;
      if n < 32 then ['\\', 'u', '0', '0', HexDigit(n / 16), HexDigit(n % 16)] else [c]
  }

  function Escape(s: string): string {
    if s == [] then [] else EscapeChar(s[0]) + Escape(s[1..])
  }

  function Quote(s: string): string {
    ['"'] + Escape(s) + ['"']
  }

  lemma HexDigitInjective(d: nat, e: nat)
    requires d < 16 && e < 16 && HexDigit(d) == HexDigit(e)
    ensures d == e
  {
  }

  lemma EscapeCharDecodes(c: char, s: string, d: char, t: string)
    requires EscapeChar(c) + s == EscapeChar(d) + t
    ensures c == d && s == t
  {
    var x, y := EscapeChar(c) + s, EscapeChar(d) + t;
    assert x[..|EscapeChar(c)|] == EscapeChar(c) && y[..|EscapeChar(d)|] == EscapeChar(d);
    assert x[0] == EscapeChar(c)[0] && y[0] == EscapeChar(d)[0];
    if x[0] == '\\' {
      assert x[1] == EscapeChar(c)[1] && y[1] == EscapeChar(d)[1];
      if x[1] == 'u' {
        assert x[4] == EscapeChar(c)[4] && y[4] == EscapeChar(d)[4];
        assert x[5] == EscapeChar(c)[5] && y[5] == EscapeChar(d)[5];
        HexDigitInjective(c as int / 16, d as int / 16);
        HexDigitInjective(c as int % 16, d as int % 16);
      }
    }
    Text.SplitEqual(EscapeChar(c), s, EscapeChar(d), t);
  }

  lemma NotYetClosed(x: string, s: string, t: string)
    requires x != []
    ensures Escape(x) + ['"'] + s != ['"'] + t
  {
    assert EscapeChar(x[0])[0] != '"';
    assert (Escape(x) + ['"'] + s)[0] == EscapeChar(x[0])[0];
  }

  lemma {:induction false} EscapeDecodes(x: string, s: string, y: string, t: string)
    requires Escape(x) + ['"'] + s == Escape(y) + ['"'] + t
    ensures x == y && s == t
  {
    hide EscapeChar;
    if x == [] && y == [] {
      assert ([] + ['"']) + s == ['"'] + s && ([] + ['"']) + t == ['"'] + t;
      Text.SplitEqual(['"'], s, ['"'], t);
    } else if x == [] {
      assert ([] + ['"']) + s == ['"'] + s;
      NotYetClosed(y, t, s);
    } else if y == [] {
      assert ([] + ['"']) + t == ['"'] + t;
      NotYetClosed(x, s, t);
    } else {
      var ls, rs := Escape(x[1..]) + ['"'] + s, Escape(y[1..]) + ['"'] + t;
      Text.Regroup(EscapeChar(x[0]), Escape(x[1..]), ['"'], s);
      Text.Regroup(EscapeChar(y[0]), Escape(y[1..]), ['"'], t);
      EscapeCharDecodes(x[0], ls, y[0], rs);
      EscapeDecodes(x[1..], s, y[1..], t);
      assert x == [x[0]] + x[1..] && y == [y[0]] + y[1..];
    }
  }

  /** A printed text ends at its own closing quote, whatever follows. */
  lemma QuoteDecodes(x: string, s: string, y: string, t: string)
    requires Quote(x) + s == Quote(y) + t
    ensures x == y && s == t
  {
    assert Quote(x) + s == ['"'] + (Escape(x) + ['"'] + s);
    assert Quote(y) + t == ['"'] + (Escape(y) + ['"'] + t);
    Text.SplitEqual(['"'], Escape(x) + ['"'] + s, ['"'], Escape(y) + ['"'] + t);
    EscapeDecodes(x, s, y, t);
  }

  // ---------------------------------------------------------------- key order

  function Insert(m: Member, ms: seq<Member>): (r: seq<Member>)
    ensures |r| == |ms| + 1
    ensures forall x :: x in r <==> x == m || x in ms
  {
    if ms == [] || Text.Less(m.key, ms[0].key) then [m] + ms
    else
      var rest := Insert(m, ms[1..]);
      assert forall x :: x in ms <==> x == ms[0] || x in ms[1..];
      [ms[0]] + rest
  }

  function SortByKey(ms: seq<Member>): (r: seq<Member>)
    ensures |r| == |ms|
    ensures forall x :: x in r <==> x in ms
  {
    if ms == [] then []
    else
      assert forall x :: x in ms <==> x == ms[0] || x in ms[1..];
      Insert(ms[0], SortByKey(ms[1..]))
  }

  predicate Ascending(ms: seq<Member>) {
    forall i, j :: 0 <= i < j < |ms| ==> Text.Less(ms[i].key, ms[j].key)
  }

  lemma {:induction false} InsertAscending(m: Member, ms: seq<Member>)
    requires Ascending(ms) && forall x | x in ms :: x.key != m.key
    ensures Ascending(Insert(m, ms))
  {
    if ms == [] {
    } else if Text.Less(m.key, ms[0].key) {
      forall j | 0 < j < |ms| ensures Text.Less(m.key, ms[j].key) {
        Text.LessTransitive(m.key, ms[0].key, ms[j].key);
      }
    } else {
      Text.LessTotal(m.key, ms[0].key);
      assert ms[0] in ms;
      InsertAscending(m, ms[1..]);
      forall x | x in Insert(m, ms[1..]) ensures Text.Less(ms[0].key, x.key) {
        if x != m {
          var j :| 0 <= j < |ms[1..]| && ms[1..][j] == x;
          assert ms[j + 1] == x;
        }
      }
    }
  }

  lemma {:induction false} SortAscending(ms: seq<Member>)
    requires DistinctKeys(ms)
    ensures Ascending(SortByKey(ms))
  {
    if ms != [] {
      SortAscending(ms[1..]);
      forall x | x in SortByKey(ms[1..]) ensures x.key != ms[0].key {
        var j :| 0 <= j < |ms[1..]| && ms[1..][j] == x;
        assert ms[j + 1] == x;
      }
      InsertAscending(ms[0], SortByKey(ms[1..]));
    }
  }

  // ---------------------------------------------------------------- the printer

  function Canonical(j: Json): string
    decreases j, 1, 0
  {
    match j
    case Null => "null"
    case Bool(b) => if b then "true" else "false"
    case Int(n) => Decimal.IntText(n)
    case Float(t) => t
    case Str(s) => Quote(s)
    case Arr(items) => "[" + Items(items, j) + "]"
    case Obj(ms) =>
      var sorted := SortByKey(ms);
      assert forall i :: 0 <= i < |sorted| ==> sorted[i] in ms;
      "{" + Members(sorted, j) + "}"
  }

  function Items(items: seq<Json>, ghost parent: Json): string
    requires forall i :: 0 <= i < |items| ==> items[i] < parent
    decreases parent, 0, |items|
  {
    if items == [] then ""
    else if |items| == 1 then Canonical(items[0])
    else Canonical(items[0]) + "," + Items(items[1..], parent)
  }

  function MemberText(m: Member): string
    decreases m.value, 1, 1
  {
    Quote(m.key) + ":" + Canonical(m.value)
  }

  function Members(ms: seq<Member>, ghost parent: Json): string
    requires forall i :: 0 <= i < |ms| ==> ms[i].value < parent
    decreases parent, 0, |ms|
  {
    if ms == [] then ""
    else if |ms| == 1 then MemberText(ms[0])
    else MemberText(ms[0]) + "," + Members(ms[1..], parent)
  }

  /** Equality of JSON values: objects compare by key, in any order, at every depth. */
  ghost predicate SameValue(a: Json, b: Json)
    decreases a, 0
  {
    match a
    case Arr(xs) => b.Arr? && |xs| == |b.items| && forall i :: 0 <= i < |xs| ==> SameValue(xs[i], b.items[i])
    case Obj(xs) =>
      && b.Obj?
      && (forall x | x in xs :: exists y | y in b.members :: Matches(x, y))
      && (forall y | y in b.members :: exists x | x in xs :: Matches(x, y))
    case _ => a == b
  }

  ghost predicate Matches(x: Member, y: Member)
    decreases x.value, 1
  {
    x.key == y.key && SameValue(x.value, y.value)
  }

  /** Every member of one object has a partner in the other. */
  ghost predicate SameMembers(xs: seq<Member>, ys: seq<Member>) {
    PartneredRight(xs, ys) && PartneredLeft(xs, ys)
  }

  ghost predicate PartneredRight(xs: seq<Member>, ys: seq<Member>) {
    forall x | x in xs :: exists y | y in ys :: Matches(x, y)
  }

  ghost predicate PartneredLeft(xs: seq<Member>, ys: seq<Member>) {
    forall y | y in ys :: exists x | x in xs :: Matches(x, y)
  }

  // ---------------------------------------------------------------- decoding

  /** What can follow a value inside a canonical text. */
  predicate Terminated(s: string) {
    s == [] || s[0] == ',' || s[0] == ']' || s[0] == '}'
  }

  predicate StartsAs(j: Json, c: char) {
    match j
    case Null => c == 'n'
    case Bool(b) => c == if b then 't' else 'f'
    case Int(_) => IsNumChar(c)
    case Float(_) => IsNumChar(c)
    case Str(_) => c == '"'
    case Arr(_) => c == '['
    case Obj(_) => c == '{'
  }

  lemma FirstChar(j: Json)
    requires WellFormed(j)
    ensures Canonical(j) != "" && StartsAs(j, Canonical(j)[0])
    ensures !Terminated(Canonical(j))
  {
    match j
    case Int(n) => assert Decimal.IntText(n)[0] in Decimal.IntText(n);
    case Float(t) => assert t[0] in t;
    case _ =>
  }

  lemma ShorterTokenDiffers(x: string, s: string, y: string, t: string)
    requires (forall c | c in y :: IsNumChar(c)) && Terminated(s) && |x| < |y|
    ensures x + s != y + t
  {
    assert (y + t)[|x|] == y[|x|] && y[|x|] in y;
    assert s != "" ==> (x + s)[|x|] == s[0];
  }

  lemma TokenMunch(x: string, s: string, y: string, t: string)
    requires (forall c | c in x :: IsNumChar(c)) && (forall c | c in y :: IsNumChar(c))
    requires Terminated(s) && Terminated(t) && x + s == y + t
    ensures x == y && s == t
  {
    if |x| < |y| {
      ShorterTokenDiffers(x, s, y, t);
    } else if |y| < |x| {
      ShorterTokenDiffers(y, t, x, s);
    }
    Text.SplitEqual(x, s, y, t);
  }

  lemma NumberTokens(a: Json, b: Json)
    requires WellFormed(a) && WellFormed(b) && (a.Int? || a.Float?) && (b.Int? || b.Float?)
    ensures forall c | c in Canonical(a) :: IsNumChar(c)
    ensures Canonical(a) == Canonical(b) ==> a == b
  {
    if a.Int? && b.Int? && Canonical(a) == Canonical(b) {
      Decimal.IntTextInjective(a.n, b.n);
    }
  }

  /**
   Prefix decodability: from the start of a text one can tell which value was printed there and
   where its text ends.
   */
  lemma {:induction false} PrefixDecode(a: Json, s: string, b: Json, t: string)
    requires WellFormed(a) && WellFormed(b) && Terminated(s) && Terminated(t)
    requires Canonical(a) + s == Canonical(b) + t
    ensures SameValue(a, b) && s == t
    decreases a, 1, 0
  {
    FirstChar(a);
    FirstChar(b);
    assert (Canonical(a) + s)[0] == Canonical(a)[0] == Canonical(b)[0] == (Canonical(b) + t)[0];
    match a
    case Null => Text.SplitEqual(Canonical(a), s, Canonical(b), t);
    case Bool(_) => Text.SplitEqual(Canonical(a), s, Canonical(b), t);
    case Int(_) =>
      NumberTokens(a, b);
      NumberTokens(b, a);
      TokenMunch(Canonical(a), s, Canonical(b), t);
    case Float(_) =>
      NumberTokens(a, b);
      NumberTokens(b, a);
      TokenMunch(Canonical(a), s, Canonical(b), t);
    case Str(x) =>
      QuoteDecodes(x, s, b.s, t);
    case Arr(_) => ArrDecode(a, s, b, t);
    case Obj(_) => ObjDecode(a, s, b, t);
  }

  lemma {:induction false} ArrDecode(a: Json, s: string, b: Json, t: string)
    requires a.Arr? && b.Arr? && WellFormed(a) && WellFormed(b)
    requires Canonical(a) + s == Canonical(b) + t
    ensures SameValue(a, b) && s == t
    decreases a, 0, |a.items| + 1
  {
    StripBracket("[", Items(a.items, a), "]", s, Items(b.items, b), t);
    ItemsDecode(a.items, a, s, b.items, b, t);
  }

  lemma {:induction false} ObjDecode(a: Json, s: string, b: Json, t: string)
    requires a.Obj? && b.Obj? && WellFormed(a) && WellFormed(b)
    requires Canonical(a) + s == Canonical(b) + t
    ensures SameValue(a, b) && s == t
    decreases a, 0, |a.members| + 1
  {
    var xs, ys := SortByKey(a.members), SortByKey(b.members);
    SortedBelow(a.members, a);
    SortedBelow(b.members, b);
    assert Canonical(a) == "{" + Members(xs, a) + "}" && Canonical(b) == "{" + Members(ys, b) + "}";
    StripBracket("{", Members(xs, a), "}", s, Members(ys, b), t);
    MembersDecode(xs, a, s, ys, b, t);
    PairwiseIsSame(xs, ys);
    assert SameMembers(a.members, b.members);
  }

  lemma SortedBelow(ms: seq<Member>, parent: Json)
    requires forall i :: 0 <= i < |ms| ==> ms[i].value < parent && WellFormed(ms[i].value)
    ensures forall i :: 0 <= i < |SortByKey(ms)| ==>
              SortByKey(ms)[i].value < parent && WellFormed(SortByKey(ms)[i].value)
  {
    hide WellFormed;
    var r := SortByKey(ms);
    forall i | 0 <= i < |r| ensures r[i].value < parent && WellFormed(r[i].value) {
      assert r[i] in ms;
    }
  }

  lemma StripBracket(open: string, x: string, close: string, s: string, y: string, t: string)
    requires (open + x + close) + s == (open + y + close) + t
    ensures x + (close + s) == y + (close + t)
  {
    assert (open + x + close) + s == open + (x + (close + s));
    assert (open + y + close) + t == open + (y + (close + t));
    Text.SplitEqual(open, x + (close + s), open, y + (close + t));
  }

  ghost predicate Pairwise(xs: seq<Member>, ys: seq<Member>) {
    |xs| == |ys| && forall i :: 0 <= i < |xs| ==> Matches(xs[i], ys[i])
  }

  lemma PairwiseIsSame(xs: seq<Member>, ys: seq<Member>)
    requires Pairwise(xs, ys)
    ensures SameMembers(xs, ys)
  {
    forall x | x in xs ensures exists y | y in ys :: Matches(x, y) {
      var i :| 0 <= i < |xs| && xs[i] == x;
      assert Matches(xs[i], ys[i]) && ys[i] in ys;
    }
    forall y | y in ys ensures exists x | x in xs :: Matches(x, y) {
      var i :| 0 <= i < |ys| && ys[i] == y;
      assert Matches(xs[i], ys[i]) && xs[i] in xs;
    }
  }

  /** The text after the first item: the closing bracket or a comma and the other items. */
  function ItemsRest(xs: seq<Json>, ghost parent: Json, s: string): string
    requires xs != [] && forall i :: 0 <= i < |xs| ==> xs[i] < parent
  {
    if |xs| == 1 then "]" + s else "," + (Items(xs[1..], parent) + ("]" + s))
  }

  lemma ItemsSplit(xs: seq<Json>, parent: Json, s: string)
    requires xs != [] && forall i :: 0 <= i < |xs| ==> xs[i] < parent
    ensures Items(xs, parent) + ("]" + s) == Canonical(xs[0]) + ItemsRest(xs, parent, s)
  {
    if |xs| > 1 {
      Text.Reassociate(Canonical(xs[0]), ",", Items(xs[1..], parent), "]" + s);
    }
  }

  lemma {:induction false} ItemsDecode(xs: seq<Json>, a: Json, s: string, ys: seq<Json>, b: Json, t: string)
    requires forall i :: 0 <= i < |xs| ==> xs[i] < a && WellFormed(xs[i])
    requires forall i :: 0 <= i < |ys| ==> ys[i] < b && WellFormed(ys[i])
    requires Items(xs, a) + ("]" + s) == Items(ys, b) + ("]" + t)
    ensures |xs| == |ys| && s == t
    ensures forall i :: 0 <= i < |xs| ==> SameValue(xs[i], ys[i])
    decreases a, 0, |xs|
  {
    hide SameValue;
    hide Canonical;
    if xs != [] { FirstChar(xs[0]); ItemsSplit(xs, a, s); }
    if ys != [] { FirstChar(ys[0]); ItemsSplit(ys, b, t); }
    if xs == [] || ys == [] {
      assert (Items(xs, a) + ("]" + s))[0] == (Items(ys, b) + ("]" + t))[0];
      assert xs == [] && ys == [];
      assert "" + ("]" + s) == "]" + s && "" + ("]" + t) == "]" + t;
      Text.SplitEqual("]", s, "]", t);
    } else {
      var rs, rt := ItemsRest(xs, a, s), ItemsRest(ys, b, t);
      PrefixDecode(xs[0], rs, ys[0], rt);
      assert rs[0] == rt[0];
      if |xs| == 1 {
        Text.SplitEqual("]", s, "]", t);
      } else {
        Text.SplitEqual(",", Items(xs[1..], a) + ("]" + s), ",", Items(ys[1..], b) + ("]" + t));
        ItemsDecode(xs[1..], a, s, ys[1..], b, t);
      }
    }
  }

  function MembersRest(xs: seq<Member>, ghost parent: Json, s: string): string
    requires xs != [] && forall i :: 0 <= i < |xs| ==> xs[i].value < parent
  {
    if |xs| == 1 then "}" + s else "," + (Members(xs[1..], parent) + ("}" + s))
  }

  lemma Regroup(q: string, c: string, r: string)
    ensures (q + ":" + c) + r == q + (":" + (c + r))
  {
  }

  lemma MembersSplit(xs: seq<Member>, parent: Json, s: string)
    requires xs != [] && forall i :: 0 <= i < |xs| ==> xs[i].value < parent
    ensures Members(xs, parent) + ("}" + s)
         == Quote(xs[0].key) + (":" + (Canonical(xs[0].value) + MembersRest(xs, parent, s)))
  {
    hide Quote, Canonical;
    MembersFirst(xs, parent, s);
    Regroup(Quote(xs[0].key), Canonical(xs[0].value), MembersRest(xs, parent, s));
  }

  lemma MembersFirst(xs: seq<Member>, parent: Json, s: string)
    requires xs != [] && forall i :: 0 <= i < |xs| ==> xs[i].value < parent
    ensures Members(xs, parent) + ("}" + s) == MemberText(xs[0]) + MembersRest(xs, parent, s)
  {
    hide MemberText;
    if |xs| > 1 {
      Text.Reassociate(MemberText(xs[0]), ",", Members(xs[1..], parent), "}" + s);
    }
  }

  lemma {:induction false} MembersDecode(xs: seq<Member>, a: Json, s: string, ys: seq<Member>, b: Json, t: string)
    requires forall i :: 0 <= i < |xs| ==> xs[i].value < a && WellFormed(xs[i].value)
    requires forall i :: 0 <= i < |ys| ==> ys[i].value < b && WellFormed(ys[i].value)
    requires Members(xs, a) + ("}" + s) == Members(ys, b) + ("}" + t)
    ensures Pairwise(xs, ys) && s == t
    decreases a, 0, |xs|
  {
    if xs != [] { MembersSplit(xs, a, s); }
    if ys != [] { MembersSplit(ys, b, t); }
    if xs == [] || ys == [] {
      assert (Members(xs, a) + ("}" + s))[0] == (Members(ys, b) + ("}" + t))[0];
      assert xs == [] && ys == [];
      assert "" + ("}" + s) == "}" + s && "" + ("}" + t) == "}" + t;
      Text.SplitEqual("}", s, "}", t);
    } else {
      var rs, rt := MembersRest(xs, a, s), MembersRest(ys, b, t);
      var vs, vt := Canonical(xs[0].value) + rs, Canonical(ys[0].value) + rt;
      QuoteDecodes(xs[0].key, ":" + vs, ys[0].key, ":" + vt);
      Text.SplitEqual(":", vs, ":", vt);
      PrefixDecode(xs[0].value, rs, ys[0].value, rt);
      assert rs[0] == rt[0];
      if |xs| == 1 {
        Text.SplitEqual("}", s, "}", t);
      } else {
        Text.SplitEqual(",", Members(xs[1..], a) + ("}" + s), ",", Members(ys[1..], b) + ("}" + t));
        MembersDecode(xs[1..], a, s, ys[1..], b, t);
      }
    }
  }

  // ---------------------------------------------------------------- reordering

  lemma NeitherEmpty(xs: seq<Member>, ys: seq<Member>)
    requires SameMembers(xs, ys)
    ensures xs == [] <==> ys == []
  {
    hide SameValue;
    assert xs != [] ==> xs[0] in xs;
    assert ys != [] ==> ys[0] in ys;
  }

  /** Members with the same keys and the same values print to the same text once sorted. */
  lemma {:induction false} MembersSameText(xs: seq<Member>, a: Json, ys: seq<Member>, b: Json)
    requires forall i :: 0 <= i < |xs| ==> xs[i].value < a && WellFormed(xs[i].value)
    requires forall i :: 0 <= i < |ys| ==> ys[i].value < b && WellFormed(ys[i].value)
    requires Ascending(xs) && Ascending(ys)
    requires SameMembers(xs, ys)
    ensures Members(xs, a) == Members(ys, b)
    decreases a, 0, |xs|
  {
    hide SameValue, PartneredRight, PartneredLeft, Quote;
    NeitherEmpty(xs, ys);
    if xs != [] {
      SameHeads(xs, ys);
      TailsRight(xs, ys);
      TailsLeft(xs, ys);
      assert SameMembers(xs[1..], ys[1..]);
      SameText(xs[0].value, ys[0].value);
      MembersSameText(xs[1..], a, ys[1..], b);
    }
  }

  lemma PartnerRight(xs: seq<Member>, ys: seq<Member>, x: Member) returns (y: Member)
    requires SameMembers(xs, ys) && x in xs
    ensures y in ys && Matches(x, y)
  {
    hide SameValue, PartneredLeft;
    y :| y in ys && Matches(x, y);
  }

  lemma PartnerLeft(xs: seq<Member>, ys: seq<Member>, y: Member) returns (x: Member)
    requires SameMembers(xs, ys) && y in ys
    ensures x in xs && Matches(x, y)
  {
    hide SameValue, PartneredRight;
    x :| x in xs && Matches(x, y);
  }

  lemma SameHeads(xs: seq<Member>, ys: seq<Member>)
    requires xs != [] && ys != [] && Ascending(xs) && Ascending(ys)
    requires SameMembers(xs, ys)
    ensures Matches(xs[0], ys[0])
  {
    hide SameValue, SameMembers;
    var y := PartnerRight(xs, ys, xs[0]);
    var x := PartnerLeft(xs, ys, ys[0]);
    HeadIsLeast(xs, x);
    HeadIsLeast(ys, y);
    Text.LessTotal(xs[0].key, ys[0].key);
  }

  lemma TailsRight(xs: seq<Member>, ys: seq<Member>)
    requires xs != [] && ys != [] && Ascending(xs) && Ascending(ys)
    requires SameMembers(xs, ys) && xs[0].key == ys[0].key
    ensures PartneredRight(xs[1..], ys[1..])
  {
    hide SameValue, SameMembers;
    forall x | x in xs[1..] ensures exists y | y in ys[1..] :: Matches(x, y) {
      HeadIsBelow(xs, x);
      var y := PartnerRight(xs, ys, x);
      assert y in ys[1..];
    }
  }

  lemma TailsLeft(xs: seq<Member>, ys: seq<Member>)
    requires xs != [] && ys != [] && Ascending(xs) && Ascending(ys)
    requires SameMembers(xs, ys) && xs[0].key == ys[0].key
    ensures PartneredLeft(xs[1..], ys[1..])
  {
    hide SameValue, SameMembers;
    forall y | y in ys[1..] ensures exists x | x in xs[1..] :: Matches(x, y) {
      HeadIsBelow(ys, y);
      var x := PartnerLeft(xs, ys, y);
      assert x in xs[1..];
    }
  }

  lemma HeadIsBelow(xs: seq<Member>, x: Member)
    requires xs != [] && Ascending(xs) && x in xs[1..]
    ensures x in xs && Text.Less(xs[0].key, x.key) && xs[0].key != x.key
  {
    var j :| 0 <= j < |xs[1..]| && xs[1..][j] == x;
    assert xs[j + 1] == x;
    Text.LessTotal(xs[0].key, x.key);
  }

  lemma HeadIsLeast(xs: seq<Member>, x: Member)
    requires xs != [] && Ascending(xs) && x in xs
    ensures x == xs[0] || Text.Less(xs[0].key, x.key)
  {
    if x != xs[0] {
      assert x in xs[1..];
      HeadIsBelow(xs, x);
    }
  }

  lemma {:induction false} ItemsSameText(xs: seq<Json>, a: Json, ys: seq<Json>, b: Json)
    requires forall i :: 0 <= i < |xs| ==> xs[i] < a && WellFormed(xs[i])
    requires forall i :: 0 <= i < |ys| ==> ys[i] < b && WellFormed(ys[i])
    requires |xs| == |ys| && forall i :: 0 <= i < |xs| ==> SameValue(xs[i], ys[i])
    ensures Items(xs, a) == Items(ys, b)
    decreases a, 0, |xs|
  {
    hide SameValue;
    hide Canonical;
    if xs != [] {
      assert SameValue(xs[0], ys[0]);
      SameText(xs[0], ys[0]);
      ItemsSameText(xs[1..], a, ys[1..], b);
    }
  }

  lemma SortedSameMembers(xs: seq<Member>, ys: seq<Member>)
    requires SameMembers(xs, ys)
    ensures SameMembers(SortByKey(xs), SortByKey(ys))
  {
    hide SameValue;
  }

  /** Equal values have equal texts: the order of keys, at any depth, leaves no trace. */
  lemma {:induction false} SameText(a: Json, b: Json)
    requires WellFormed(a) && WellFormed(b) && SameValue(a, b)
    ensures Canonical(a) == Canonical(b)
    decreases a, 1, 0
  {
    match a
    case Arr(xs) => ItemsSameText(xs, a, b.items, b);
    case Obj(xs) =>
      SortAscending(xs);
      SortAscending(b.members);
      SortedSameMembers(xs, b.members);
      SortedBelow(xs, a);
      SortedBelow(b.members, b);
      MembersSameText(SortByKey(xs), a, SortByKey(b.members), b);
    case _ =>
  }

  /** The canonical text identifies the value, and nothing but the value. */
  lemma CanonicalIffSameValue(a: Json, b: Json)
    requires WellFormed(a) && WellFormed(b)
    ensures Canonical(a) == Canonical(b) <==> SameValue(a, b)
  {
    if Canonical(a) == Canonical(b) {
      assert Canonical(a) + "" == Canonical(b) + "";
      PrefixDecode(a, "", b, "");
    }
    if SameValue(a, b) {
      SameText(a, b);
    }
  }

  // ---------------------------------------------------------------- the idempotency key

  /** `digest` stands for the hexadecimal SHA-256 of a text. */
  function BuildKey(digest: string -> string, taskId: string, tool: string, args: Json): string
    requires |digest(Canonical(args))| >= 16
  {
    taskId + ":bank:" + tool + ":" + digest(Canonical(args))[..16]
  }

  /** The part of the key that names the call. */
  function CallName(taskId: string, tool: string): string { taskId + ":bank:" + tool }

  lemma KeyParts(digest: string -> string, taskId: string, tool: string, args: Json)
    requires |digest(Canonical(args))| >= 16
    ensures BuildKey(digest, taskId, tool, args) == CallName(taskId, tool) + (":" + digest(Canonical(args))[..16])
  {
    hide Canonical;
  }

  /**
   Whatever the task ids: as long as the shortened digest tells the two texts apart, two calls share a
   key if and only if their arguments are equal up to key order and `task:bank:tool` spells the same.
   */
  lemma KeyEqualIff(digest: string -> string, task1: string, tool1: string, args1: Json,
                    task2: string, tool2: string, args2: Json)
    requires WellFormed(args1) && WellFormed(args2)
    requires |digest(Canonical(args1))| >= 16 && |digest(Canonical(args2))| >= 16
    requires digest(Canonical(args1))[..16] == digest(Canonical(args2))[..16] ==> Canonical(args1) == Canonical(args2)
    ensures BuildKey(digest, task1, tool1, args1) == BuildKey(digest, task2, tool2, args2)
       <==> CallName(task1, tool1) == CallName(task2, tool2) && SameValue(args1, args2)
  {
    CanonicalIffSameValue(args1, args2);
    KeyParts(digest, task1, tool1, args1);
    KeyParts(digest, task2, tool2, args2);
    hide Canonical, SameValue, WellFormed, BuildKey, CallName;
    var h1, h2 := ":" + digest(Canonical(args1))[..16], ":" + digest(Canonical(args2))[..16];
    var n1, n2 := CallName(task1, tool1), CallName(task2, tool2);
    if n1 + h1 == n2 + h2 {
      assert |n1| == |n2|;
      Text.SplitEqual(n1, h1, n2, h2);
      assert h1[1..] == digest(Canonical(args1))[..16] && h2[1..] == digest(Canonical(args2))[..16];
    }
  }

  /** One task id goes on where the other, followed by the separator, ends. */
  predicate Extends(a: string, b: string) {
    b == a + ":bank" || a + ":bank:" <= b
  }

  lemma ExtensionShares(a: string, b: string)
    requires Extends(a, b)
    ensures exists u, v :: CallName(a, u) == CallName(b, v)
  {
    if b == a + ":bank" {
      assert CallName(a, "bank:") == CallName(b, "");
    } else {
      var w := b[|a| + 6..];
      assert b == a + ":bank:" + w;
      assert CallName(a, w + ":bank:") == CallName(b, "");
    }
  }

  lemma SharingExtends(a: string, u: string, b: string, v: string)
    requires CallName(a, u) == CallName(b, v) && |a| < |b|
    ensures Extends(a, b)
  {
    var name, sep := CallName(a, u), ":bank:";
    assert name == CallName(b, v);
    assert name[..|a|] == a && name[|a|..|a| + 6] == sep && name[..|b|] == b && name[|b|..|b| + 6] == sep;
    hide CallName;
    assert b[..|a|] == a;
    if |a| + 6 <= |b| {
      assert b[..|a| + 6] == a + sep;
    } else {
      var d := |b| - |a|;
      assert name[|b|] == sep[0] && name[|b|] == sep[d];
      assert d == 5;
      assert b == a + sep[..5];
    }
  }

  /** Two calls of the same task with the same spelled name are calls of the same tool. */
  lemma SameTaskSameTool(task: string, tool1: string, tool2: string)
    requires CallName(task, tool1) == CallName(task, tool2)
    ensures tool1 == tool2
  {
    Text.SplitEqual(task + ":bank:", tool1, task + ":bank:", tool2);
  }

  /** Two different task ids can spell the same name if and only if one extends the other over the separator. */
  lemma NamesMeetIff(a: string, b: string)
    requires a != b
    ensures (exists u, v :: CallName(a, u) == CallName(b, v)) <==> Extends(a, b) || Extends(b, a)
  {
    if u, v :| CallName(a, u) == CallName(b, v) {
      assert CallName(a, u)[..|a|] == a && CallName(b, v)[..|b|] == b;
      if |a| < |b| {
        SharingExtends(a, u, b, v);
      } else {
        SharingExtends(b, v, a, u);
      }
    }
    if Extends(a, b) {
      ExtensionShares(a, b);
    }
    if Extends(b, a) {
      ExtensionShares(b, a);
      var u, v :| CallName(b, u) == CallName(a, v);
      assert CallName(a, v) == CallName(b, u);
    }
  }

  /** Whatever the arguments, two different tasks can share a key if and only if one id extends the other. */
  lemma TasksShareKeyIff(digest: string -> string, a: string, b: string, args: Json)
    requires a != b && |digest(Canonical(args))| >= 16
    ensures (exists u, v :: BuildKey(digest, a, u, args) == BuildKey(digest, b, v, args)) <==> Extends(a, b) || Extends(b, a)
  {
    hide Canonical, BuildKey, CallName, Extends;
    NamesMeetIff(a, b);
    var h := ":" + digest(Canonical(args))[..16];
    forall u, v
      ensures BuildKey(digest, a, u, args) == BuildKey(digest, b, v, args) <==> CallName(a, u) == CallName(b, v)
    {
      KeyParts(digest, a, u, args);
      KeyParts(digest, b, v, args);
      if CallName(a, u) + h == CallName(b, v) + h {
        Text.SplitEqual(CallName(a, u), h, CallName(b, v), h);
      }
    }
  }

  /**
   A retry with its arguments spelled in another key order reuses the key; and, as long as neither task
   id extends the other, two calls share a key only for the same task, tool and arguments.
   */
  lemma KeyIdentifiesCall(digest: string -> string, task1: string, tool1: string, args1: Json,
                          task2: string, tool2: string, args2: Json)
    requires WellFormed(args1) && WellFormed(args2) && !Extends(task1, task2) && !Extends(task2, task1)
    requires |digest(Canonical(args1))| >= 16 && |digest(Canonical(args2))| >= 16
    requires digest(Canonical(args1))[..16] == digest(Canonical(args2))[..16] ==> Canonical(args1) == Canonical(args2)
    ensures BuildKey(digest, task1, tool1, args1) == BuildKey(digest, task2, tool2, args2)
       <==> task1 == task2 && tool1 == tool2 && SameValue(args1, args2)
  {
    KeyEqualIff(digest, task1, tool1, args1, task2, tool2, args2);
    hide Canonical, SameValue, WellFormed, BuildKey, CallName, Extends;
    if CallName(task1, tool1) == CallName(task2, tool2) {
      if task1 != task2 {
        NamesMeetIff(task1, task2);
      } else {
        SameTaskSameTool(task1, tool1, tool2);
      }
    }
  }

  /** Only an id with a colon extends another; generated ids have none. */
  lemma ExtensionHasColon(a: string, b: string)
    requires Extends(a, b)
    ensures ':' in b
  {
    assert b[|a|] == ':';
  }

  /** The separator can move: an id extended by a tool name shares a key with the id itself. */
  lemma ColonTaskIdsCollide(digest: string -> string, x: string, y: string, z: string, args: Json)
    requires |digest(Canonical(args))| >= 16
    ensures BuildKey(digest, CallName(x, y), z, args) == BuildKey(digest, x, CallName(y, z), args)
    ensures CallName(x, y) != x
  {
    KeyParts(digest, CallName(x, y), z, args);
    KeyParts(digest, x, CallName(y, z), args);
    hide Canonical, BuildKey;
    assert CallName(CallName(x, y), z) == CallName(x, CallName(y, z));
    assert |CallName(x, y)| > |x|;
  }
}
