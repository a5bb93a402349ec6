/**
 A reader of JSON texts after sections 3 to 7 of RFC 8259, without the optional white space. It shares
 nothing with the printer but the values, so reading back says what a printed text means.
 */
module JsonReader {
  import opened Wrappers
  import Decimal
  import Text
  import opened CanonicalJson

  /** A value and the text behind it. */
  datatype Read<T> = Got(value: T, rest: string) | Fail

  // ---------------------------------------------------------------- strings, section 7

  /** The code point of a two-character escape. */
  function Unescape(letter: char): Option<int> {
    match letter
    case '"' => Some(0x22)
    case '\\' => Some(0x5C)
    case '/' => Some(0x2F)
    case 'b' => Some(0x08)
    case 'f' => Some(0x0C)
    case 'n' => Some(0x0A)
    case 'r' => Some(0x0D)
    case 't' => Some(0x09)
    case _ => None
  }

  function HexValue(c: char): Option<nat> {
    if '0' <= c <= '9' then Some(c as int - '0' as int)
    else if 'a' <= c <= 'f' then Some(c as int - 'a' as int + 10)
    else if 'A' <= c <= 'F' then Some(c as int - 'A' as int + 10)
    else None
  }

  /** The number of four hexadecimal digits at the start of a text. */
  function Hex4(s: string): Option<int> {
    if |s| < 4 then None
    else
      match (HexValue(s[0]), HexValue(s[1]), HexValue(s[2]), HexValue(s[3]))
      case (Some(a), Some(b), Some(c), Some(d)) => Some(((a * 16 + b) * 16 + c) * 16 + d)
      case _ => None
  }

  predicate IsScalar(n: int) { 0 <= n < 0xD800 || 0xE000 <= n < 0x11_0000 }

  function Char(n: int, rest: string): Read<char> {
    if IsScalar(n) then Got(n as char, rest) else Fail
  }

  /** What follows `\u`: four digits, or two such groups that form a surrogate pair. */
  function ReadUnicode(s: string): Read<char> {
    match Hex4(s)
    case None => Fail
    case Some(n) =>
      if 0xD800 <= n < 0xDC00 then
        if |s| >= 6 && s[4..6] == "\\u" then
          match Hex4(s[6..])
          case Some(m) =>
            if 0xDC00 <= m < 0xE000 then Char(0x1_0000 + (n - 0xD800) * 0x400 + (m - 0xDC00), s[10..]) else Fail
          case None => Fail
        else Fail
      else Char(n, s[4..])
  }

  /** One character of a string, escaped or not; control characters must be escaped. */
  function ReadChar(s: string): (r: Read<char>)
    requires s != ""
    ensures r.Got? ==> |r.rest| < |s|
  {
    if s[0] == '\\' then
      if |s| < 2 then Fail
      else if s[1] == 'u' then ReadUnicode(s[2..])
      else
        match Unescape(s[1])
        case Some(n) => Char(n, s[2..])
        case None => Fail
    else if s[0] as int < 0x20 then Fail
    else Got(s[0], s[1..])
  }

  /** The characters up to the closing quotation mark. */
  function ReadChars(s: string): (r: Read<string>)
    ensures r.Got? ==> |r.rest| < |s|
    decreases |s|
  {
    if s == "" then Fail
    else if s[0] == '"' then Got("", s[1..])
    else
      match ReadChar(s)
      case Fail => Fail
      case Got(c, rest) =>
        match ReadChars(rest)
        case Fail => Fail
        case Got(text, rest') => Got([c] + text, rest')
  }

  // ---------------------------------------------------------------- numbers, section 6

  function NumberRun(s: string): (n: nat)
    ensures n <= |s|
  {
    if s != "" && (Decimal.IsDigit(s[0]) || s[0] in "+-.eE") then 1 + NumberRun(s[1..]) else 0
  }

  /** A number without fraction and exponent is an integer; any other is kept as its token. */
  function ReadNumber(s: string): (r: Read<Json>)
    ensures r.Got? ==> |r.rest| < |s|
  {
    var n := NumberRun(s);
    var token, rest := s[..n], s[n..];
    if !IsNumber(token) then Fail
    else if exists c | c in token :: c in ".eE" then Got(Float(token), rest)
    else Got(Int(IntegerValue(token)), rest)
  }

  lemma PlainDigits(token: string)
    requires IsNumber(token) && !exists c | c in token :: c in ".eE"
    ensures token != ""
    ensures forall c | c in token[if token[0] == '-' then 1 else 0..] :: Decimal.IsDigit(c)
  {
    var t := token[if token[0] == '-' then 1 else 0..];
    assert token[0..] == token;
    assert forall c | c in t :: c in token;
    TailStart(t[DigitRun(t)..]);
    SuffixHead(t, DigitRun(t));
  }

  lemma SuffixHead(t: string, n: nat)
    requires n <= |t|
    ensures t[n..] == "" || t[n..][0] in t
  {
  }

  lemma TailStart(s: string)
    requires IsTail(s)
    ensures s == "" || s[0] in ".eE"
  {
  }

  function IntegerValue(token: string): int
    requires IsNumber(token) && !exists c | c in token :: c in ".eE"
  {
    PlainDigits(token);
    var n: int := Decimal.NatValue(token[if token[0] == '-' then 1 else 0..]);
    if token[0] == '-' then -n else n
  }

  // ---------------------------------------------------------------- values, sections 3 to 5

  function After(s: string, word: string, j: Json): (r: Read<Json>)
    requires word != ""
    ensures r.Got? ==> |r.rest| < |s|
  {
    if word <= s then Got(j, s[|word|..]) else Fail
  }

  function ReadValue(s: string): (r: Read<Json>)
    ensures r.Got? ==> |r.rest| < |s|
    decreases |s|, 0
  {
    if s == "" then Fail
    else
      match s[0]
      case 'n' => After(s, "null", Null)
      case 't' => After(s, "true", Bool(true))
      case 'f' => After(s, "false", Bool(false))
      case '"' =>
        (match ReadChars(s[1..])
         case Got(text, rest) => Got(Str(text), rest)
         case Fail => Fail)
      case '[' =>
        if "]" <= s[1..] then Got(Arr([]), s[2..])
        else
          (match ReadItems(s[1..])
           case Got(items, rest) => Got(Arr(items), rest)
           case Fail => Fail)
      case '{' =>
        if "}" <= s[1..] then Got(Obj([]), s[2..])
        else
          (match ReadMembers(s[1..])
           case Got(members, rest) => Got(Obj(members), rest)
           case Fail => Fail)
      case _ => ReadNumber(s)
  }

  /** One item or more, and the closing bracket. */
  function ReadItems(s: string): (r: Read<seq<Json>>)
    ensures r.Got? ==> |r.rest| < |s|
    decreases |s|, 1
  {
    match ReadValue(s)
    case Fail => Fail
    case Got(item, rest) =>
      if "]" <= rest then Got([item], rest[1..])
      else if "," <= rest then
        match ReadItems(rest[1..])
        case Got(items, rest') => Got([item] + items, rest')
        case Fail => Fail
      else Fail
  }

  /** One member or more, and the closing brace. */
  function ReadMembers(s: string): (r: Read<seq<Member>>)
    ensures r.Got? ==> |r.rest| < |s|
    decreases |s|, 1
  {
    match ReadMember(s)
    case Fail => Fail
    case Got(member, rest) =>
      if "}" <= rest then Got([member], rest[1..])
      else if "," <= rest then
        match ReadMembers(rest[1..])
        case Got(members, rest') => Got([member] + members, rest')
        case Fail => Fail
      else Fail
  }

  function ReadMember(s: string): (r: Read<Member>)
    ensures r.Got? ==> |r.rest| < |s|
    decreases |s|, 0
  {
    if !("\"" <= s) then Fail
    else
      match ReadChars(s[1..])
      case Fail => Fail
      case Got(key, rest) =>
        if !(":" <= rest) then Fail
        else
          match ReadValue(rest[1..])
          case Got(value, rest') => Got(Member(key, value), rest')
          case Fail => Fail
  }

  /** The value of a whole text. */
  function Parse(s: string): Option<Json> {
    match ReadValue(s)
    case Got(j, rest) => if rest == "" then Some(j) else None
    case Fail => None
  }

  // ---------------------------------------------------------------- reading back

  lemma ReadsHex(d: nat, e: nat, s: string)
    requires d < 2 && e < 16
    ensures Hex4(['0', '0', HexDigit(d), HexDigit(e)] + s) == Some(d * 16 + e)
    ensures (['0', '0', HexDigit(d), HexDigit(e)] + s)[4..] == s
  {
    var x := ['0', '0', HexDigit(d), HexDigit(e)] + s;
    assert x[0] == '0' && x[1] == '0' && x[2] == HexDigit(d) && x[3] == HexDigit(e);
  }

  /** A printed character reads back, whatever follows. */
  lemma ReadsChar(c: char, s: string)
    ensures ReadChar(EscapeChar(c) + s) == Got(c, s)
  {
    var x, n := EscapeChar(c) + s, c as int;
    assert x[0] == EscapeChar(c)[0] && x[|EscapeChar(c)|..] == s;
    if ShortEscape(c).Some? {
      assert x[1] == EscapeChar(c)[1] && Unescape(x[1]) == Some(n);
    } else if n < 32 {
      assert x[1] == EscapeChar(c)[1];
      ReadsHex(n / 16, n % 16, s);
      assert x[2..] == ['0', '0', HexDigit(n / 16), HexDigit(n % 16)] + s;
    }
  }

  /** Of the texts that read as a character the printed one is itself, one of the seven short escapes, or four lower-case digits. */
  lemma EscapeShape(c: char)
    ensures |EscapeChar(c)| == 2 <==> c as int in {0x22, 0x5C, 0x08, 0x09, 0x0A, 0x0C, 0x0D}
    ensures |EscapeChar(c)| == 1 <==> c as int >= 0x20 && c != '"' && c != '\\'
    ensures |EscapeChar(c)| > 2 ==> |EscapeChar(c)| == 6 && forall x | x in EscapeChar(c) :: x in "\\u0123456789abcdef"
  {
  }

  lemma {:induction false} ReadsChars(x: string, s: string)
    ensures ReadChars(Escape(x) + ['"'] + s) == Got(x, s)
  {
    if x == [] {
      assert [] + ['"'] + s == ['"'] + s;
    } else {
      var behind := Escape(x[1..]) + ['"'] + s;
      Text.Regroup(EscapeChar(x[0]), Escape(x[1..]), ['"'], s);
      ReadsChar(x[0], behind);
      ReadsChars(x[1..], s);
      assert EscapeChar(x[0])[0] != '"';
      assert x == [x[0]] + x[1..];
      hide ReadChar, EscapeChar;
    }
  }

  lemma ReadsQuoted(x: string, s: string)
    ensures (Quote(x) + s)[0] == '"' && ReadChars((Quote(x) + s)[1..]) == Got(x, s)
  {
    ReadsChars(x, s);
    hide Escape, ReadChars;
    assert (Quote(x) + s)[1..] == Escape(x) + ['"'] + s;
  }

  // The first character decides how a text is read.

  lemma NumberAhead(s: string)
    requires s != "" && IsNumChar(s[0])
    ensures ReadValue(s) == ReadNumber(s)
  {
    hide ReadNumber, ReadChars, ReadItems, ReadMembers;
  }

  lemma StringAhead(s: string)
    requires s != "" && s[0] == '"' && ReadChars(s[1..]).Got?
    ensures ReadValue(s) == Got(Str(ReadChars(s[1..]).value), ReadChars(s[1..]).rest)
  {
    hide ReadNumber, ReadChars, ReadItems, ReadMembers;
  }

  lemma ItemsAhead(s: string)
    requires s != "" && s[0] == '['
    ensures s[1..] != "" && s[1] == ']' ==> ReadValue(s) == Got(Arr([]), s[2..])
    ensures s[1..] != "" && s[1] != ']' && ReadItems(s[1..]).Got? ==>
              ReadValue(s) == Got(Arr(ReadItems(s[1..]).value), ReadItems(s[1..]).rest)
  {
    hide ReadNumber, ReadChars, ReadItems, ReadMembers;
  }

  lemma MembersAhead(s: string)
    requires s != "" && s[0] == '{'
    ensures s[1..] != "" && s[1] == '}' ==> ReadValue(s) == Got(Obj([]), s[2..])
    ensures s[1..] != "" && s[1] != '}' && ReadMembers(s[1..]).Got? ==>
              ReadValue(s) == Got(Obj(ReadMembers(s[1..]).value), ReadMembers(s[1..]).rest)
  {
    hide ReadNumber, ReadChars, ReadItems, ReadMembers;
  }

  lemma WordAhead(j: Json, s: string)
    requires j.Null? || j.Bool?
    ensures ReadValue(Canonical(j) + s) == Got(j, s)
  {
    var word := Canonical(j);
    assert (word + s)[0] == word[0] && word <= word + s && (word + s)[|word|..] == s;
    hide ReadNumber, ReadChars, ReadItems, ReadMembers;
  }

  lemma {:induction false} RunOfToken(t: string, s: string)
    requires (forall c | c in t :: IsNumChar(c)) && Terminated(s)
    ensures NumberRun(t + s) == |t|
  {
    if t == "" {
      assert t + s == s;
    } else {
      assert t[0] in t && (t + s)[0] == t[0] && (t + s)[1..] == t[1..] + s;
      RunOfToken(t[1..], s);
    }
  }

  lemma {:induction false} RunOfDigits(t: string)
    requires forall c | c in t :: Decimal.IsDigit(c)
    ensures DigitRun(t) == |t|
  {
    if t != "" {
      assert t[0] in t;
      RunOfDigits(t[1..]);
    }
  }

  lemma IntegerTokens(n: int)
    ensures IsNumber(Decimal.IntText(n)) && !exists c | c in Decimal.IntText(n) :: c in ".eE"
    ensures IntegerValue(Decimal.IntText(n)) == n
  {
    var m: nat := if n < 0 then -n else n;
    var digits, token := Decimal.NatText(m), Decimal.IntText(n);
    assert digits[0] in digits;
    assert n < 0 ==> token[1..] == digits;
    assert token[0..] == token;
    Decimal.NoLeadingZero(m);
    RunOfDigits(digits);
    Decimal.NatTextRoundTrip(m);
    hide Decimal.NatText, Decimal.NatValue, DigitRun;
    assert digits[|digits|..] == "";
  }

  lemma ReadsNumber(j: Json, s: string)
    requires (j.Int? || j.Float?) && WellFormed(j) && Terminated(s)
    ensures ReadNumber(Canonical(j) + s) == Got(j, s)
  {
    var token := Canonical(j);
    NumberTokens(j, j);
    RunOfToken(token, s);
    assert (token + s)[..|token|] == token && (token + s)[|token|..] == s;
    if j.Int? {
      IntegerTokens(j.n);
    }
    hide IsNumber, NumberRun, IntegerValue, Decimal.IntText;
  }

  /** Object members stand in ascending order of their keys, at every depth. */
  ghost predicate Ordered(j: Json) {
    match j
    case Arr(items) => forall x | x in items :: Ordered(x)
    case Obj(ms) => Ascending(ms) && forall m | m in ms :: Ordered(m.value)
    case _ => true
  }

  /**
   A printed value reads back as the same value, its object members in ascending order of their keys,
   and reading stops where the printed text ends.
   */
  lemma {:induction false} ReadsBack(j: Json, s: string) returns (read: Json)
    requires WellFormed(j) && Terminated(s)
    ensures ReadValue(Canonical(j) + s) == Got(read, s) && SameValue(j, read) && Ordered(read)
    decreases j, 1, 0
  {
    if j.Arr? {
      read := ReadsArr(j, s);
    } else if j.Obj? {
      read := ReadsObj(j, s);
    } else {
      ReadsLeaf(j, s);
      read := j;
    }
    hide Canonical, ReadValue, WellFormed;
  }

  lemma ReadsLeaf(j: Json, s: string)
    requires WellFormed(j) && Terminated(s) && !j.Arr? && !j.Obj?
    ensures ReadValue(Canonical(j) + s) == Got(j, s)
  {
    FirstChar(j);
    var x := Canonical(j) + s;
    assert x[0] == Canonical(j)[0];
    if j.Str? {
      ReadsQuoted(j.s, s);
      assert x == Quote(j.s) + s;
      hide Quote, ReadChars, ReadValue, Canonical;
      StringAhead(x);
    } else if j.Int? || j.Float? {
      ReadsNumber(j, s);
      hide Canonical, ReadNumber, ReadValue;
      NumberAhead(x);
    } else {
      WordAhead(j, s);
    }
  }

  lemma {:induction false} ReadsArr(j: Json, s: string) returns (read: Json)
    requires j.Arr? && WellFormed(j)
    ensures ReadValue(Canonical(j) + s) == Got(read, s) && SameValue(j, read) && Ordered(read)
    decreases j, 0, |j.items| + 1
  {
    var x := Canonical(j) + s;
    var inner := Items(j.items, j) + ("]" + s);
    assert x[0] == '[' && x[1..] == inner;
    hide Canonical, ReadValue, ReadItems;
    ItemsAhead(x);
    if j.items == [] {
      assert inner == "]" + s && x[1] == ']' && x[2..] == s;
      read := Arr([]);
    } else {
      FirstChar(j.items[0]);
      ItemsSplit(j.items, j, s);
      assert x[1] == inner[0] == Canonical(j.items[0])[0];
      var items := ReadsItems(j.items, j, s);
      read := Arr(items);
    }
  }

  lemma {:induction false} ReadsItems(xs: seq<Json>, j: Json, s: string) returns (items: seq<Json>)
    requires xs != [] && forall i :: 0 <= i < |xs| ==> xs[i] < j && WellFormed(xs[i])
    ensures ReadItems(Items(xs, j) + ("]" + s)) == Got(items, s)
    ensures |items| == |xs| && forall i :: 0 <= i < |xs| ==> SameValue(xs[i], items[i]) && Ordered(items[i])
    decreases j, 0, |xs|
  {
    hide SameValue, Canonical, ReadValue, WellFormed;
    var behind := ItemsRest(xs, j, s);
    ItemsSplit(xs, j, s);
    assert Terminated(behind);
    var first := ReadsBack(xs[0], behind);
    if |xs| == 1 {
      items := [first];
      assert behind[1..] == s;
    } else {
      var others := ReadsItems(xs[1..], j, s);
      assert behind[1..] == Items(xs[1..], j) + ("]" + s);
      items := [first] + others;
    }
  }

  lemma SameObject(j: Json, members: seq<Member>)
    requires j.Obj? && Pairwise(SortByKey(j.members), members) && DistinctKeys(j.members)
    requires forall i :: 0 <= i < |members| ==> Ordered(members[i].value)
    ensures SameValue(j, Obj(members)) && Ordered(Obj(members))
  {
    SortAscending(j.members);
    PairwiseIsSame(SortByKey(j.members), members);
    assert SameMembers(j.members, members);
  }

  lemma {:induction false} ReadsObj(j: Json, s: string) returns (read: Json)
    requires j.Obj? && WellFormed(j)
    ensures ReadValue(Canonical(j) + s) == Got(read, s) && SameValue(j, read) && Ordered(read)
    decreases j, 0, |j.members| + 1
  {
    var xs := SortByKey(j.members);
    SortedBelow(j.members, j);
    var x := Canonical(j) + s;
    var inner := Members(xs, j) + ("}" + s);
    assert x[0] == '{' && x[1..] == inner;
    hide Canonical, ReadValue, ReadMembers, WellFormed;
    MembersAhead(x);
    if xs == [] {
      assert inner == "}" + s && x[1] == '}' && x[2..] == s;
      assert j.members == [];
      read := Obj([]);
    } else {
      MembersSplit(xs, j, s);
      assert x[1] == inner[0] == '"';
      var members := ReadsMembers(xs, j, s);
      read := Obj(members);
      SameObject(j, members);
    }
  }

  lemma {:induction false} ReadsMembers(xs: seq<Member>, j: Json, s: string) returns (members: seq<Member>)
    requires xs != [] && forall i :: 0 <= i < |xs| ==> xs[i].value < j && WellFormed(xs[i].value)
    ensures ReadMembers(Members(xs, j) + ("}" + s)) == Got(members, s)
    ensures Pairwise(xs, members) && forall i :: 0 <= i < |xs| ==> Ordered(members[i].value)
    decreases j, 0, |xs|
  {
    hide SameValue, Canonical, ReadValue, WellFormed, Quote;
    var behind := MembersRest(xs, j, s);
    MembersSplit(xs, j, s);
    assert Terminated(behind);
    var text := Canonical(xs[0].value) + behind;
    ReadsQuoted(xs[0].key, ":" + text);
    assert (":" + text)[1..] == text;
    var value := ReadsBack(xs[0].value, behind);
    var first := Member(xs[0].key, value);
    assert ReadMember(Members(xs, j) + ("}" + s)) == Got(first, behind);
    if |xs| == 1 {
      members := [first];
      assert behind[1..] == s;
    } else {
      var others := ReadsMembers(xs[1..], j, s);
      assert behind[1..] == Members(xs[1..], j) + ("}" + s);
      members := [first] + others;
    }
  }

  /** The text of a value means that value: a reader of RFC 8259 gets it back, with members in key order. */
  lemma CanonicalReadsBack(j: Json)
    requires WellFormed(j)
    ensures Parse(Canonical(j)).Some? && SameValue(j, Parse(Canonical(j)).value) && Ordered(Parse(Canonical(j)).value)
  {
    var read := ReadsBack(j, "");
    assert Canonical(j) + "" == Canonical(j);
    hide Canonical, ReadValue, SameValue, Ordered;
  }
}
