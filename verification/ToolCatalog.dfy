/** The operator's tool catalog: argv templates, their rendering, and the loading of extra tools. */
module ToolCatalog {
  import opened Wrappers
  import opened CanonicalJson
  import Decimal

  datatype ArgvPart =
    | Literal(text: string)
    | Arg(name: string)
    | Flag(name: string, value: string)

  datatype BinIo = ReadIo | WriteIo | NoIo

  datatype CatalogError =
    | EmptyArgv(tool: string)
    | UnknownIo(io: string)
    | DuplicateName(tool: string)
    | UnknownPlaceholder(element: string)

  datatype RenderError = MissingArg(name: string) | ArgTypeMismatch(name: string)

  // ---------------------------------------------------------------- parsing one element

  predicate IsAlpha(c: char) { 'A' <= c <= 'Z' || 'a' <= c <= 'z' }

  predicate IsIdentChar(c: char) { IsAlpha(c) || Decimal.IsDigit(c) || c == '_' }

  predicate IsIdent(s: string) {
    s != [] && (IsAlpha(s[0]) || s[0] == '_') && forall i :: 1 <= i < |s| ==> IsIdentChar(s[i])
  }

  /** The ASCII codes of letters, of digits and of the underscore. */
  predicate IsWordCode(n: int) {
    0x41 <= n <= 0x5A || 0x61 <= n <= 0x7A || 0x30 <= n <= 0x39 || n == 0x5F
  }

  /** An identifier is made of letters, digits and underscores and does not start with a digit. */
  lemma IdentMeaning(s: string)
    ensures IsIdent(s) <==>
            s != "" && !(0x30 <= s[0] as int <= 0x39) && forall i :: 0 <= i < |s| ==> IsWordCode(s[i] as int)
  {
  }

  predicate BraceWrapped(s: string) {
    |s| >= 2 && s[0] == '{' && s[|s| - 1] == '}'
  }

  /** The position of the first colon. */
  function FirstColon(s: string): (r: Option<nat>)
    ensures r.None? ==> ':' !in s
    ensures r.Some? ==> r.value < |s| && s[r.value] == ':' && ':' !in s[..r.value]
  {
    if s == [] then None
    else if s[0] == ':' then Some(0)
    else
      match FirstColon(s[1..])
      case None => None
      case Some(i) =>
        assert s[..i + 1] == [s[0]] + s[1..][..i];
        Some(i + 1)
  }

  function ParseFlag(rest: string): Option<ArgvPart> {
    match FirstColon(rest)
    case None => None
    case Some(i) =>
      var name, value := rest[..i], rest[i + 1..];
      if IsIdent(name) && value != [] then Some(Flag(name, value)) else None
  }

  /** `{name}` is an argument, `{?name:value}` a flag, any other braced element an error, all else literal. */
  function ParseArgvElement(s: string): (r: Result<ArgvPart, CatalogError>)
    ensures r.Err? ==> r.error == UnknownPlaceholder(s)
  {
    if BraceWrapped(s) then
      var inner := s[1..|s| - 1];
      if inner != [] && inner[0] == '?' then
        match ParseFlag(inner[1..])
        case None => Err(UnknownPlaceholder(s))
        case Some(p) => Ok(p)
      else if IsIdent(inner) then Ok(Arg(inner))
      else Err(UnknownPlaceholder(s))
    else Ok(Literal(s))
  }

  function Braced(inner: string): string { "{" + inner + "}" }

  /** The text a part is written as. */
  function Written(p: ArgvPart): string {
    match p
    case Literal(s) => s
    case Arg(n) => Braced(n)
    case Flag(n, v) => Braced("?" + (n + ":" + v))
  }

  predicate WellFormedPart(p: ArgvPart) {
    match p
    case Literal(s) => !BraceWrapped(s)
    case Arg(n) => IsIdent(n)
    case Flag(n, v) => IsIdent(n) && v != []
  }

  lemma IdentHasNoMark(s: string)
    requires IsIdent(s)
    ensures ':' !in s && s[0] != '?'
  {
    forall i | 0 <= i < |s| ensures s[i] != ':' {
    }
  }

  lemma {:induction false} FirstColonAt(a: string, b: string)
    requires ':' !in a
    ensures FirstColon(a + ":" + b) == Some(|a|)
  {
    var s := a + ":" + b;
    if a != [] {
      FirstColonAt(a[1..], b);
      assert s[1..] == a[1..] + ":" + b;
    }
  }

  lemma ParseOfFlag(n: string, v: string)
    requires IsIdent(n) && v != []
    ensures ParseFlag(n + ":" + v) == Some(Flag(n, v))
  {
    IdentHasNoMark(n);
    FirstColonAt(n, v);
    hide IsIdent, FirstColon;
    var rest := n + ":" + v;
    assert rest[..|n|] == n && rest[|n| + 1..] == v;
  }

  lemma FlagOfParse(rest: string)
    requires ParseFlag(rest).Some?
    ensures WellFormedPart(ParseFlag(rest).value) && Written(ParseFlag(rest).value) == Braced("?" + rest)
  {
    hide IsIdent, BraceWrapped, Braced;
    var i := FirstColon(rest).value;
    assert rest == rest[..i] + ":" + rest[i + 1..];
  }

  lemma BracedIsWrapped(inner: string)
    ensures BraceWrapped(Braced(inner)) && Braced(inner)[1..|Braced(inner)| - 1] == inner
  {
  }

  lemma WrappedIsBraced(s: string)
    requires BraceWrapped(s)
    ensures s == Braced(s[1..|s| - 1])
  {
  }

  /** Writing a well-formed part and parsing it gives the part back. */
  lemma ParseOfWritten(p: ArgvPart)
    requires WellFormedPart(p)
    ensures ParseArgvElement(Written(p)) == Ok(p)
  {
    match p {
      case Literal(_) =>
      case Arg(n) =>
        IdentHasNoMark(n);
        BracedIsWrapped(n);
        hide IsIdent, BraceWrapped, ParseFlag, Braced;
      case Flag(n, v) =>
        ParseOfFlag(n, v);
        var inner := "?" + (n + ":" + v);
        BracedIsWrapped(inner);
        assert inner[1..] == n + ":" + v;
        hide IsIdent, BraceWrapped, ParseFlag, Braced;
    }
  }

  /** Whatever parses was well formed, and writing the result gives the source text back. */
  lemma WrittenOfParse(s: string)
    requires ParseArgvElement(s).Ok?
    ensures WellFormedPart(ParseArgvElement(s).value) && Written(ParseArgvElement(s).value) == s
  {
    if BraceWrapped(s) {
      var inner := s[1..|s| - 1];
      WrappedIsBraced(s);
      if inner != [] && inner[0] == '?' {
        assert inner == "?" + inner[1..];
        FlagOfParse(inner[1..]);
      }
      hide IsIdent, ParseFlag, BraceWrapped, Braced;
    }
  }

  /** An element is refused exactly when it is no part's text. */
  lemma RefusedIffNoPart(s: string)
    ensures ParseArgvElement(s).Err? <==> forall p | WellFormedPart(p) :: Written(p) != s
  {
    if ParseArgvElement(s).Ok? {
      WrittenOfParse(s);
    }
    forall p | WellFormedPart(p) ensures ParseArgvElement(Written(p)) == Ok(p) {
      ParseOfWritten(p);
    }
  }

  // ---------------------------------------------------------------- rendering

  /** The fields of the argument object; a value that is not an object has none. */
  type Args = map<string, Json>

  function NotNull(args: Args, name: string): Option<Json> {
    if name in args && !args[name].Null? then Some(args[name]) else None
  }

  function RenderArg(args: Args, name: string): Result<string, RenderError> {
    match NotNull(args, name)
    case None => Err(MissingArg(name))
    case Some(Str(s)) => Ok(s)
    case Some(Int(n)) => Ok(Decimal.IntText(n))
    case Some(Float(t)) => Ok(t)
    case Some(Bool(b)) => Ok(if b then "true" else "false")
    case Some(_) => Err(ArgTypeMismatch(name))
  }

  /** Whether an optional flag is present. */
  function FlagOn(args: Args, name: string): Result<bool, RenderError> {
    match NotNull(args, name)
    case None => Ok(false)
    case Some(Bool(b)) => Ok(b)
    case Some(_) => Err(ArgTypeMismatch(name))
  }

  /** What one part contributes: nothing or one element. */
  function RenderPart(p: ArgvPart, args: Args): Result<Option<string>, RenderError> {
    match p
    case Literal(s) => Ok(Some(s))
    case Arg(n) =>
      (match RenderArg(args, n)
       case Ok(s) => Ok(Some(s))
       case Err(e) => Err(e))
    case Flag(n, v) =>
      (match FlagOn(args, n)
       case Ok(on) => Ok(if on then Some(v) else None)
       case Err(e) => Err(e))
  }

  /** The positions of the parts that contribute an element, in order. */
  function Sources(argv: seq<ArgvPart>, args: Args): (r: seq<nat>)
    ensures forall i :: 0 <= i < |r| ==> r[i] < |argv|
  {
    if argv == [] then []
    else
      var before := Sources(argv[..|argv| - 1], args);
      match RenderPart(argv[|argv| - 1], args)
      case Ok(Some(_)) => before + [|argv| - 1]
      case _ => before
  }

  predicate AllRender(argv: seq<ArgvPart>, args: Args) {
    forall i :: 0 <= i < |argv| ==> RenderPart(argv[i], args).Ok?
  }

  /** The elements are those of the contributing parts, one each, in order. */
  ghost predicate RenderedAs(argv: seq<ArgvPart>, args: Args, out: seq<string>) {
    var src := Sources(argv, args);
    |out| == |src| && forall i :: 0 <= i < |out| ==> RenderPart(argv[src[i]], args) == Ok(Some(out[i]))
  }

  lemma RenderedSnoc(argv: seq<ArgvPart>, args: Args, i: nat, out: seq<string>)
    requires i < |argv| && RenderedAs(argv[..i], args, out) && RenderPart(argv[i], args).Ok?
    ensures match RenderPart(argv[i], args).value
            case None => RenderedAs(argv[..i + 1], args, out)
            case Some(e) => RenderedAs(argv[..i + 1], args, out + [e])
  {
    hide RenderPart;
    var more := argv[..i + 1];
    assert more[..|more| - 1] == argv[..i];
  }

  // ---------------------------------------------------------------- what a part means

  /** A text that spells an integer: a sign if it is negative, then digits that read as its size, without leading zeros. */
  predicate Spells(s: string, n: int) {
    var digits := if n < 0 && s != "" && s[0] == '-' then s[1..] else s;
    && digits != "" && (forall c | c in digits :: Decimal.IsDigit(c))
    && (n < 0 ==> digits != s) && (digits[0] == '0' ==> |digits| == 1)
    && Decimal.NatValue(digits) == if n < 0 then -n else n
  }

  /** A value as one element of a command line. */
  predicate WordFor(j: Json, s: string) {
    match j
    case Str(t) => s == t
    case Int(n) => Spells(s, n)
    case Float(t) => s == t
    case Bool(b) => s == if b then "true" else "false"
    case _ => false
  }

  /** The part puts this element on the command line. */
  predicate Adds(p: ArgvPart, args: Args, e: string) {
    match p
    case Literal(s) => e == s
    case Arg(n) => n in args && WordFor(args[n], e)
    case Flag(n, v) => n in args && args[n] == Bool(true) && e == v
  }

  /** The part is a flag that is not asked for. */
  predicate Skips(p: ArgvPart, args: Args) {
    p.Flag? && (p.name !in args || args[p.name] == Null || args[p.name] == Bool(false))
  }

  /** The part cannot be rendered: an argument without value, or a value of a kind it cannot take. */
  predicate Refuses(p: ArgvPart, args: Args, e: RenderError) {
    match p
    case Literal(_) => false
    case Arg(n) =>
      if n !in args || args[n] == Null then e == MissingArg(n)
      else (args[n].Arr? || args[n].Obj?) && e == ArgTypeMismatch(n)
    case Flag(n, _) => n in args && !args[n].Null? && !args[n].Bool? && e == ArgTypeMismatch(n)
  }

  lemma IntTextSpells(n: int, s: string)
    ensures Spells(s, n) <==> s == Decimal.IntText(n)
  {
    Decimal.IntTextReads(n);
    if Spells(s, n) {
      var digits := if n < 0 && s[0] == '-' then s[1..] else s;
      Decimal.NatTextOfValue(digits);
      assert n < 0 ==> s == "-" + digits;
    }
  }

  /** Of every part, exactly one of three things holds on the arguments: it adds one element, it is skipped, or it is refused. */
  lemma PartMeaning(p: ArgvPart, args: Args)
    ensures forall e :: RenderPart(p, args) == Ok(Some(e)) <==> Adds(p, args, e)
    ensures RenderPart(p, args) == Ok(None) <==> Skips(p, args)
    ensures forall e :: RenderPart(p, args) == Err(e) <==> Refuses(p, args, e)
  {
    if p.Arg? && p.name in args && args[p.name].Int? {
      forall e ensures Spells(e, args[p.name].n) <==> e == Decimal.IntText(args[p.name].n) {
        IntTextSpells(args[p.name].n, e);
      }
    }
    hide Decimal.IntText, Spells;
  }

  /** The command line holds what the parts add, in their order, and nothing for the skipped ones. */
  predicate Lists(argv: seq<ArgvPart>, args: Args, out: seq<string>) {
    if argv == [] then out == []
    else
      var front, p := argv[..|argv| - 1], argv[|argv| - 1];
      || (Skips(p, args) && Lists(front, args, out))
      || (out != [] && Adds(p, args, out[|out| - 1]) && Lists(front, args, out[..|out| - 1]))
  }

  lemma ListsSnoc(argv: seq<ArgvPart>, args: Args, i: nat, out: seq<string>)
    requires i < |argv| && Lists(argv[..i], args, out)
    ensures Skips(argv[i], args) ==> Lists(argv[..i + 1], args, out)
    ensures forall e :: Adds(argv[i], args, e) ==> Lists(argv[..i + 1], args, out + [e])
  {
    var more := argv[..i + 1];
    assert more[..|more| - 1] == argv[..i];
    hide Adds, Skips;
    forall e | Adds(argv[i], args, e) ensures Lists(more, args, out + [e]) {
      assert (out + [e])[..|out + [e]| - 1] == out;
    }
  }

  /**
   Rendering succeeds exactly when every part does, and an error is that of the first part that does not.
   On the arguments themselves: the elements are what the parts add, and an error is what the first
   refused part says.
   */
  method RenderArgv(argv: seq<ArgvPart>, args: Args) returns (r: Result<seq<string>, RenderError>)
    ensures r.Ok? <==> AllRender(argv, args)
    ensures r.Ok? ==> RenderedAs(argv, args, r.value)
    ensures r.Err? ==> exists i :: 0 <= i < |argv| && AllRender(argv[..i], args) && RenderPart(argv[i], args) == Err(r.error)
    ensures r.Ok? ==> Lists(argv, args, r.value)
    ensures r.Err? ==> exists i :: 0 <= i < |argv| && Refuses(argv[i], args, r.error) && NoneRefused(argv[..i], args)
    ensures r.Ok? <==> NoneRefused(argv, args)
  {
    hide RenderedAs, Lists, Adds, Skips, Refuses, NoneRefused;
    NoneRefusedIff(argv, args);
    var out := [];
    RenderedNone(argv, args);
    for i := 0 to |argv|
      invariant AllRender(argv[..i], args)
      invariant RenderedAs(argv[..i], args, out)
      invariant Lists(argv[..i], args, out)
    {
      PartMeaning(argv[i], args);
      NoneRefusedIff(argv[..i], args);
      ListsSnoc(argv, args, i, out);
      if RenderPart(argv[i], args).Ok? {
        RenderedSnoc(argv, args, i, out);
      }
      match argv[i] {
        case Literal(s) => out := out + [s];
        case Arg(name) =>
          match RenderArg(args, name) {
            case Ok(s) => out := out + [s];
            case Err(e) => return Err(e);
          }
        case Flag(name, value) =>
          match FlagOn(args, name) {
            case Ok(on) =>
              if on {
                out := out + [value];
              }
            case Err(e) => return Err(e);
          }
      }
    }
    assert argv[..|argv|] == argv;
    r := Ok(out);
  }

  ghost predicate NoneRefused(argv: seq<ArgvPart>, args: Args) {
    forall i, e :: 0 <= i < |argv| ==> !Refuses(argv[i], args, e)
  }

  lemma NoneRefusedIff(argv: seq<ArgvPart>, args: Args)
    ensures NoneRefused(argv, args) <==> AllRender(argv, args)
  {
    hide RenderPart, Refuses;
    forall i | 0 <= i < |argv|
      ensures RenderPart(argv[i], args).Ok? <==> forall e :: !Refuses(argv[i], args, e)
    {
      PartMeaning(argv[i], args);
      if RenderPart(argv[i], args).Err? {
        assert Refuses(argv[i], args, RenderPart(argv[i], args).error);
      }
    }
    if NoneRefused(argv, args) {
      forall i | 0 <= i < |argv| ensures RenderPart(argv[i], args).Ok? {
        assert forall e :: !Refuses(argv[i], args, e);
      }
    }
  }

  lemma RenderedNone(argv: seq<ArgvPart>, args: Args)
    ensures RenderedAs(argv[..0], args, []) && Lists(argv[..0], args, [])
  {
  }

  /** No part contributes twice, and elements keep the parts' order. */
  lemma {:induction false} SourcesAscend(argv: seq<ArgvPart>, args: Args)
    ensures forall i, j :: 0 <= i < j < |Sources(argv, args)| ==> Sources(argv, args)[i] < Sources(argv, args)[j]
  {
    if argv != [] {
      SourcesAscend(argv[..|argv| - 1], args);
    }
  }

  // ---------------------------------------------------------------- replacing one argument

  lemma ReplacedPart(p: ArgvPart, args: Args, name: string, v: string, w: string)
    ensures var a, b := RenderPart(p, args[name := Str(v)]), RenderPart(p, args[name := Str(w)]);
            && (p == Arg(name) ==> a == Ok(Some(v)) && b == Ok(Some(w)))
            && (p != Arg(name) ==> a == b)
  {
  }

  lemma {:induction false} ReplacedSources(argv: seq<ArgvPart>, args: Args, name: string, v: string, w: string)
    ensures Sources(argv, args[name := Str(v)]) == Sources(argv, args[name := Str(w)])
  {
    if argv != [] {
      ReplacedSources(argv[..|argv| - 1], args, name, v, w);
      ReplacedPart(argv[|argv| - 1], args, name, v, w);
      hide RenderPart;
    }
  }

  /** The positions of the elements that come from `Arg(name)` parts. */
  function Hits(argv: seq<ArgvPart>, src: seq<nat>, name: string): set<nat>
    requires forall i :: 0 <= i < |src| ==> src[i] < |argv|
  {
    set i: nat | i < |src| && argv[src[i]] == Arg(name)
  }

  function CountArg(argv: seq<ArgvPart>, name: string): nat {
    if argv == [] then 0
    else CountArg(argv[..|argv| - 1], name) + if argv[|argv| - 1] == Arg(name) then 1 else 0
  }

  /**
   Replacing one string argument by another keeps whether the template renders and which parts
   contribute; it changes the elements that come from `Arg(name)` parts and no others.
   */
  lemma ReplaceArgument(argv: seq<ArgvPart>, args: Args, name: string, v: string, w: string,
                        out: seq<string>, out': seq<string>)
    ensures AllRender(argv, args[name := Str(v)]) <==> AllRender(argv, args[name := Str(w)])
    ensures RenderedAs(argv, args[name := Str(v)], out) && RenderedAs(argv, args[name := Str(w)], out') ==>
              var hits := Hits(argv, Sources(argv, args[name := Str(v)]), name);
              && |out'| == |out|
              && (forall i :: 0 <= i < |out| && i in hits ==> out[i] == v && out'[i] == w)
              && (forall i :: 0 <= i < |out| && i !in hits ==> out'[i] == out[i])
  {
    var a, b := args[name := Str(v)], args[name := Str(w)];
    ReplacedSources(argv, args, name, v, w);
    forall i | 0 <= i < |argv|
      ensures argv[i] == Arg(name) ==> RenderPart(argv[i], a) == Ok(Some(v)) && RenderPart(argv[i], b) == Ok(Some(w))
      ensures argv[i] != Arg(name) ==> RenderPart(argv[i], a) == RenderPart(argv[i], b)
    {
      ReplacedPart(argv[i], args, name, v, w);
    }
    hide RenderPart, Sources;
  }

  lemma HitsSnoc(argv: seq<ArgvPart>, src: seq<nat>, name: string)
    requires argv != [] && forall i :: 0 <= i < |src| ==> src[i] < |argv| - 1
    ensures var before := argv[..|argv| - 1];
            && Hits(argv, src, name) == Hits(before, src, name)
            && Hits(argv, src + [|before|], name)
               == Hits(before, src, name) + if argv[|before|] == Arg(name) then {|src|} else {}
  {
  }

  /** As many elements come from `Arg(name)` as the template has such parts. */
  lemma {:induction false} HitsAreAll(argv: seq<ArgvPart>, args: Args, name: string, v: string)
    ensures |Hits(argv, Sources(argv, args[name := Str(v)]), name)| == CountArg(argv, name)
  {
    var a := args[name := Str(v)];
    if argv == [] {
      assert Hits(argv, Sources(argv, a), name) == {};
    } else {
      var before, p := argv[..|argv| - 1], argv[|argv| - 1];
      var src := Sources(before, a);
      HitsAreAll(before, args, name, v);
      ReplacedPart(p, args, name, v, v);
      HitsSnoc(argv, src, name);
      assert |src| !in Hits(before, src, name);
      hide RenderPart, Hits;
    }
  }

  // ---------------------------------------------------------------- turning one flag on

  predicate IsFlag(p: ArgvPart, name: string) { p.Flag? && p.name == name }

  /** The elements with the flag's values taken out and its argument, where it is printed as such, off again. */
  function TurnedOff(argv: seq<ArgvPart>, src: seq<nat>, out: seq<string>, name: string): seq<string>
    requires |out| == |src| && forall i :: 0 <= i < |src| ==> src[i] < |argv|
  {
    if src == [] then []
    else
      var rest := TurnedOff(argv, src[..|src| - 1], out[..|src| - 1], name);
      var p := argv[src[|src| - 1]];
      if IsFlag(p, name) then rest else rest + [if p == Arg(name) then "false" else out[|src| - 1]]
  }

  function CountFlag(argv: seq<ArgvPart>, name: string): nat {
    if argv == [] then 0
    else CountFlag(argv[..|argv| - 1], name) + if IsFlag(argv[|argv| - 1], name) then 1 else 0
  }

  lemma {:induction false} TurnedOffPrefix(argv: seq<ArgvPart>, src: seq<nat>, out: seq<string>, name: string)
    requires argv != [] && |out| == |src| && forall i :: 0 <= i < |src| ==> src[i] < |argv| - 1
    ensures TurnedOff(argv, src, out, name) == TurnedOff(argv[..|argv| - 1], src, out, name)
  {
    if src != [] {
      TurnedOffPrefix(argv, src[..|src| - 1], out[..|src| - 1], name);
    }
  }

  lemma FlippedPart(p: ArgvPart, args: Args, name: string)
    ensures var off, on := RenderPart(p, args[name := Bool(false)]), RenderPart(p, args[name := Bool(true)]);
            if IsFlag(p, name) then off == Ok(None) && on == Ok(Some(p.value))
            else if p == Arg(name) then off == Ok(Some("false")) && on == Ok(Some("true"))
            else off == on
  {
  }

  /** The part that the last element comes from is the last part, if that contributes. */
  lemma RenderedLast(argv: seq<ArgvPart>, args: Args, out: seq<string>)
    requires argv != [] && RenderedAs(argv, args, out)
    ensures var front, p := argv[..|argv| - 1], argv[|argv| - 1];
            match RenderPart(p, args)
            case Ok(Some(e)) =>
              && Sources(argv, args) == Sources(front, args) + [|argv| - 1]
              && out != [] && out[|out| - 1] == e && RenderedAs(front, args, out[..|out| - 1])
            case _ => Sources(argv, args) == Sources(front, args) && RenderedAs(front, args, out)
  {
    hide RenderPart;
  }

  /** `out'` is `out` with the flag's values inserted, its elements coming from the parts at `src`. */
  predicate Inserted(argv: seq<ArgvPart>, src: seq<nat>, name: string, out: seq<string>, out': seq<string>)
    requires forall i :: 0 <= i < |src| ==> src[i] < |argv|
  {
    && |out'| == |src| == |out| + CountFlag(argv, name)
    && TurnedOff(argv, src, out', name) == out
    && (forall i :: 0 <= i < |src| && IsFlag(argv[src[i]], name) ==> out'[i] == argv[src[i]].value)
    && (forall i :: 0 <= i < |src| && argv[src[i]] == Arg(name) ==> out'[i] == "true")
  }

  lemma InsertedSkips(argv: seq<ArgvPart>, src: seq<nat>, name: string, out: seq<string>, out': seq<string>)
    requires argv != [] && (forall i :: 0 <= i < |src| ==> src[i] < |argv| - 1)
    requires Inserted(argv[..|argv| - 1], src, name, out, out') && !IsFlag(argv[|argv| - 1], name)
    ensures Inserted(argv, src, name, out, out')
  {
    TurnedOffPrefix(argv, src, out', name);
    hide TurnedOff;
  }

  /** What the last part adds with the flag off, when it adds `e` with the flag on. */
  function AddsOff(p: ArgvPart, name: string, e: string): seq<string> {
    if IsFlag(p, name) then [] else if p == Arg(name) then ["false"] else [e]
  }

  lemma InsertedAdds(argv: seq<ArgvPart>, src: seq<nat>, name: string, out: seq<string>, out': seq<string>, e: string)
    requires argv != [] && (forall i :: 0 <= i < |src| ==> src[i] < |argv| - 1)
    requires Inserted(argv[..|argv| - 1], src, name, out, out')
    requires IsFlag(argv[|argv| - 1], name) ==> e == argv[|argv| - 1].value
    requires argv[|argv| - 1] == Arg(name) ==> e == "true"
    ensures Inserted(argv, src + [|argv| - 1], name, out + AddsOff(argv[|argv| - 1], name, e), out' + [e])
  {
    var more, more' := src + [|argv| - 1], out' + [e];
    TurnedOffPrefix(argv, src, out', name);
    assert more[..|more| - 1] == src && more'[..|more| - 1] == out';
    assert out + [] == out;
  }

  /** Turning the flag on has inserted its values and nothing else. */
  ghost predicate FlagInserted(argv: seq<ArgvPart>, args: Args, name: string, out: seq<string>, out': seq<string>) {
    Inserted(argv, Sources(argv, args[name := Bool(true)]), name, out, out')
  }

  /** How the last part takes the two command lines on: it adds to both what it adds, or nothing to either. */
  ghost predicate TakenOn(argv: seq<ArgvPart>, args: Args, name: string, before: seq<string>, before': seq<string>,
                          out: seq<string>, out': seq<string>)
    requires argv != []
  {
    var on, front, p := args[name := Bool(true)], argv[..|argv| - 1], argv[|argv| - 1];
    match RenderPart(p, on)
    case Ok(Some(e)) =>
      && Sources(argv, on) == Sources(front, on) + [|argv| - 1]
      && out' == before' + [e] && out == before + AddsOff(p, name, e)
      && (IsFlag(p, name) ==> e == p.value) && (p == Arg(name) ==> e == "true")
    case _ => Sources(argv, on) == Sources(front, on) && out' == before' && out == before && !IsFlag(p, name)
  }

  /** The two command lines before the last part. */
  lemma FlipLast(argv: seq<ArgvPart>, args: Args, name: string, out: seq<string>, out': seq<string>)
    returns (before: seq<string>, before': seq<string>)
    requires argv != []
    requires RenderedAs(argv, args[name := Bool(false)], out) && RenderedAs(argv, args[name := Bool(true)], out')
    ensures RenderedAs(argv[..|argv| - 1], args[name := Bool(false)], before)
    ensures RenderedAs(argv[..|argv| - 1], args[name := Bool(true)], before')
    ensures TakenOn(argv, args, name, before, before', out, out')
  {
    var off, on, p := args[name := Bool(false)], args[name := Bool(true)], argv[|argv| - 1];
    FlippedPart(p, args, name);
    RenderedLast(argv, off, out);
    RenderedLast(argv, on, out');
    hide RenderPart, RenderedAs, Sources;
    match RenderPart(p, on) {
      case Ok(Some(e)) =>
        before, before' := if IsFlag(p, name) then out else out[..|out| - 1], out'[..|out'| - 1];
        assert before' + [e] == out' && before + AddsOff(p, name, e) == out;
      case _ =>
        before, before' := out, out';
    }
  }

  lemma TakenOnInserted(argv: seq<ArgvPart>, args: Args, name: string, before: seq<string>, before': seq<string>,
                        out: seq<string>, out': seq<string>)
    requires argv != [] && TakenOn(argv, args, name, before, before', out, out')
    requires FlagInserted(argv[..|argv| - 1], args, name, before, before')
    ensures FlagInserted(argv, args, name, out, out')
  {
    var on, p := args[name := Bool(true)], argv[|argv| - 1];
    var src := Sources(argv[..|argv| - 1], on);
    hide RenderPart, Sources, Inserted, AddsOff, IsFlag;
    match RenderPart(p, on) {
      case Ok(Some(e)) => InsertedAdds(argv, src, name, before, before', e);
      case _ => InsertedSkips(argv, src, name, out, out');
    }
  }

  lemma {:induction false} FlagIsInserted(argv: seq<ArgvPart>, args: Args, name: string, out: seq<string>, out': seq<string>)
    requires RenderedAs(argv, args[name := Bool(false)], out) && RenderedAs(argv, args[name := Bool(true)], out')
    ensures FlagInserted(argv, args, name, out, out')
  {
    if argv != [] {
      var before, before' := FlipLast(argv, args, name, out, out');
      hide RenderedAs, FlagInserted, TakenOn;
      FlagIsInserted(argv[..|argv| - 1], args, name, before, before');
      TakenOnInserted(argv, args, name, before, before', out, out');
    }
  }

  /**
   Turning one flag from false to true keeps whether the template renders, inserts the flag's value once
   for each of its parts, turns "false" into "true" where the flag's argument is printed as such, and
   changes no other element.
   */
  lemma TurnFlagOn(argv: seq<ArgvPart>, args: Args, name: string, out: seq<string>, out': seq<string>)
    ensures AllRender(argv, args[name := Bool(false)]) <==> AllRender(argv, args[name := Bool(true)])
    ensures RenderedAs(argv, args[name := Bool(false)], out) && RenderedAs(argv, args[name := Bool(true)], out') ==>
              FlagInserted(argv, args, name, out, out')
  {
    var off, on := args[name := Bool(false)], args[name := Bool(true)];
    forall p | p in argv ensures RenderPart(p, off).Ok? <==> RenderPart(p, on).Ok? {
      FlippedPart(p, args, name);
    }
    hide RenderPart, RenderedAs, FlagInserted;
    if RenderedAs(argv, off, out) && RenderedAs(argv, on, out') {
      FlagIsInserted(argv, args, name, out, out');
    }
  }

  // ---------------------------------------------------------------- loading the extras

  /** One decoded entry of the extras file, defaults filled in. */
  datatype RawTool = RawTool(name: string, description: string, binary: string, argv: seq<string>,
                             io: string, pathArgs: seq<string>, timeoutSecs: nat, schema: Json)

  datatype BinSpec = BinSpec(binary: string, argv: seq<ArgvPart>, io: BinIo, pathArgs: seq<string>)

  datatype ToolSpec = ToolSpec(name: string, description: string, schema: Json, timeoutSecs: nat, bin: Option<BinSpec>)

  function ParseBinIo(s: string): Result<BinIo, CatalogError> {
    if s == "read" then Ok(ReadIo)
    else if s == "write" then Ok(WriteIo)
    else if s == "none" then Ok(NoIo)
    else Err(UnknownIo(s))
  }

  /** Each kind has one word. */
  function IoWord(io: BinIo): string {
    match io
    case ReadIo => "read"
    case WriteIo => "write"
    case NoIo => "none"
  }

  lemma IoWordParses(s: string, io: BinIo)
    ensures ParseBinIo(s) == Ok(io) <==> s == IoWord(io)
    ensures ParseBinIo(s).Err? ==> ParseBinIo(s) == Err(UnknownIo(s))
  {
    assert "read"[0] != "write"[0] && "read"[0] != "none"[0] && "write"[0] != "none"[0];
  }

  predicate AllParse(argv: seq<string>) {
    forall i :: 0 <= i < |argv| ==> ParseArgvElement(argv[i]).Ok?
  }

  /** The error is that of the first element that does not parse. */
  predicate FirstBad(argv: seq<string>, e: CatalogError) {
    exists i :: 0 <= i < |argv| && AllParse(argv[..i]) && ParseArgvElement(argv[i]) == Err(e)
  }

  predicate Acceptable(raw: RawTool) {
    raw.argv != [] && AllParse(raw.argv) && ParseBinIo(raw.io).Ok?
  }

  predicate DistinctNames(names: seq<string>) {
    forall i, j :: 0 <= i < j < |names| ==> names[i] != names[j]
  }

  function RawNames(raws: seq<RawTool>): seq<string> {
    seq(|raws|, i requires 0 <= i < |raws| => raws[i].name)
  }

  function Names(specs: seq<ToolSpec>): seq<string> {
    seq(|specs|, i requires 0 <= i < |specs| => specs[i].name)
  }

  /** The specification holds what the entry says, its template written back to the entry's own text. */
  predicate Loaded(raw: RawTool, spec: ToolSpec) {
    && spec.name == raw.name && spec.description == raw.description && spec.schema == raw.schema
    && spec.timeoutSecs == raw.timeoutSecs && spec.bin.Some?
    && spec.bin.value.binary == raw.binary && spec.bin.value.pathArgs == raw.pathArgs
    && Ok(spec.bin.value.io) == ParseBinIo(raw.io)
    && |spec.bin.value.argv| == |raw.argv|
    && forall i :: 0 <= i < |raw.argv| ==> WellFormedPart(spec.bin.value.argv[i]) && Written(spec.bin.value.argv[i]) == raw.argv[i]
  }

  method ParseArgv(argv: seq<string>) returns (r: Result<seq<ArgvPart>, CatalogError>)
    ensures r.Ok? <==> AllParse(argv)
    ensures r.Ok? ==> |r.value| == |argv|
    ensures r.Ok? ==> forall i :: 0 <= i < |argv| ==> WellFormedPart(r.value[i]) && Written(r.value[i]) == argv[i]
    ensures r.Err? ==> FirstBad(argv, r.error) && r.error.UnknownPlaceholder?
  {
    hide ParseArgvElement, WellFormedPart, Written;
    var parts: seq<ArgvPart> := [];
    for i := 0 to |argv|
      invariant |parts| == i && AllParse(argv[..i])
      invariant forall j :: 0 <= j < i ==> WellFormedPart(parts[j]) && Written(parts[j]) == argv[j]
    {
      match ParseArgvElement(argv[i]) {
        case Ok(p) =>
          WrittenOfParse(argv[i]);
          parts := parts + [p];
        case Err(e) => return Err(e);
      }
    }
    r := Ok(parts);
  }

  method LoadTool(raw: RawTool) returns (r: Result<ToolSpec, CatalogError>)
    ensures r.Ok? <==> Acceptable(raw)
    ensures r.Ok? ==> Loaded(raw, r.value) && r.value.name == raw.name
    ensures raw.argv == [] ==> r == Err(EmptyArgv(raw.name))
    ensures r.Err? && raw.argv != [] ==>
              if AllParse(raw.argv) then ParseBinIo(raw.io) == Err(r.error) else FirstBad(raw.argv, r.error)
  {
    hide AllParse, FirstBad, WellFormedPart, Written;
    if raw.argv == [] {
      return Err(EmptyArgv(raw.name));
    }
    var argv := ParseArgv(raw.argv);
    match argv {
      case Err(e) => return Err(e);
      case Ok(parts) =>
        match ParseBinIo(raw.io) {
          case Err(e) => return Err(e);
          case Ok(io) =>
            r := Ok(ToolSpec(raw.name, raw.description, raw.schema, raw.timeoutSecs,
                             Some(BinSpec(raw.binary, parts, io, raw.pathArgs))));
        }
    }
  }

  predicate Repeats(raws: seq<RawTool>, i: nat)
    requires i < |raws|
  {
    exists j :: 0 <= j < i && raws[j].name == raws[i].name
  }

  /** Entry `i` is the first with a fault; a repeated name is reported before any other fault of the entry. */
  predicate FirstFault(raws: seq<RawTool>, i: nat, e: CatalogError)
    requires i < |raws|
  {
    && DistinctNames(RawNames(raws[..i]))
    && (forall j :: 0 <= j < i ==> Acceptable(raws[j]))
    && (if Repeats(raws, i) then e == DuplicateName(raws[i].name)
        else if raws[i].argv == [] then e == EmptyArgv(raws[i].name)
        else if AllParse(raws[i].argv) then ParseBinIo(raws[i].io) == Err(e)
        else FirstBad(raws[i].argv, e))
  }

  /** One more entry keeps the names distinct if and only if its name is new. */
  lemma DistinctSnoc(raws: seq<RawTool>, i: nat)
    requires i < |raws| && DistinctNames(RawNames(raws[..i]))
    ensures DistinctNames(RawNames(raws[..i + 1])) <==> forall j :: 0 <= j < i ==> raws[j].name != raws[i].name
  {
    var names, more := RawNames(raws[..i]), RawNames(raws[..i + 1]);
    assert more == names + [raws[i].name];
    if DistinctNames(more) {
      forall j | 0 <= j < i ensures raws[j].name != raws[i].name {
        assert more[j] != more[i];
      }
    }
    if forall j :: 0 <= j < i ==> raws[j].name != raws[i].name {
      forall a, b | 0 <= a < b < |more| ensures more[a] != more[b] {
        assert b < i ==> names[a] != names[b];
      }
    }
  }

  lemma PrefixDistinct(raws: seq<RawTool>, i: nat)
    requires i <= |raws| && DistinctNames(RawNames(raws))
    ensures DistinctNames(RawNames(raws[..i]))
  {
    assert RawNames(raws[..i]) == RawNames(raws)[..i];
  }

  /** Loading succeeds exactly when the names are distinct and every entry is acceptable; then nothing is dropped. */
  method ParseExtraCatalog(raws: seq<RawTool>) returns (r: Result<seq<ToolSpec>, CatalogError>)
    ensures r.Ok? <==> DistinctNames(RawNames(raws)) && forall i :: 0 <= i < |raws| ==> Acceptable(raws[i])
    ensures r.Ok? ==> |r.value| == |raws| && Names(r.value) == RawNames(raws)
    ensures r.Ok? ==> forall i :: 0 <= i < |raws| ==> Loaded(raws[i], r.value[i])
    ensures r.Err? ==> exists i :: 0 <= i < |raws| && FirstFault(raws, i, r.error)
  {
    hide Acceptable, Loaded, DistinctNames;
    var specs: seq<ToolSpec> := [];
    var seen: set<string> := {};
    NoneDistinct(raws);
    for i := 0 to |raws|
      invariant |specs| == i && forall j :: 0 <= j < i ==> Loaded(raws[j], specs[j]) && specs[j].name == raws[j].name
      invariant forall j :: 0 <= j < i ==> Acceptable(raws[j])
      invariant forall name :: name in seen <==> exists j :: 0 <= j < i && raws[j].name == name
      invariant DistinctNames(RawNames(raws[..i]))
    {
      DistinctSnoc(raws, i);
      if raws[i].name in seen {
        if DistinctNames(RawNames(raws)) {
          PrefixDistinct(raws, i + 1);
        }
        assert Repeats(raws, i) && FirstFault(raws, i, DuplicateName(raws[i].name));
        return Err(DuplicateName(raws[i].name));
      }
      seen := seen + {raws[i].name};
      var spec := LoadTool(raws[i]);
      match spec {
        case Err(e) =>
          assert FirstFault(raws, i, e);
          return Err(e);
        case Ok(s) => specs := specs + [s];
      }
    }
    assert raws[..|raws|] == raws;
    r := Ok(specs);
  }

  lemma NoneDistinct(raws: seq<RawTool>)
    ensures DistinctNames(RawNames(raws[..0]))
  {
  }

  /** Extras that do not bear a reserved name, in order. */
  function FilterCollisions(extras: seq<ToolSpec>, reserved: set<string>): seq<ToolSpec> {
    if extras == [] then []
    else if extras[0].name in reserved then FilterCollisions(extras[1..], reserved)
    else [extras[0]] + FilterCollisions(extras[1..], reserved)
  }

  /** Exactly the extras without a reserved name are kept. */
  lemma {:induction false} FilterKeeps(extras: seq<ToolSpec>, reserved: set<string>, e: ToolSpec)
    ensures e in FilterCollisions(extras, reserved) <==> e in extras && e.name !in reserved
  {
    if extras != [] {
      FilterKeeps(extras[1..], reserved, e);
      assert e in extras <==> e == extras[0] || e in extras[1..];
    }
  }

  lemma ConsDistinct(name: string, names: seq<string>)
    ensures DistinctNames([name] + names) <==> name !in names && DistinctNames(names)
  {
    var all := [name] + names;
    forall j | 0 <= j < |names| ensures all[j + 1] == names[j] {
    }
    if DistinctNames(all) {
      forall j | 0 <= j < |names| ensures names[j] != name {
        assert all[0] != all[j + 1];
      }
      forall i, j | 0 <= i < j < |names| ensures names[i] != names[j] {
        assert all[i + 1] != all[j + 1];
      }
    }
  }

  lemma FilteredNames(extras: seq<ToolSpec>, reserved: set<string>, name: string)
    ensures name in Names(FilterCollisions(extras, reserved)) <==> name in Names(extras) && name !in reserved
  {
    hide FilterCollisions;
    var kept := FilterCollisions(extras, reserved);
    if name in Names(kept) {
      var i :| 0 <= i < |kept| && Names(kept)[i] == name;
      assert kept[i] in kept;
      FilterKeeps(extras, reserved, kept[i]);
      var j :| 0 <= j < |extras| && extras[j] == kept[i];
      assert Names(extras)[j] == name;
    }
    if name in Names(extras) && name !in reserved {
      var i :| 0 <= i < |extras| && Names(extras)[i] == name;
      assert extras[i] in extras;
      FilterKeeps(extras, reserved, extras[i]);
      var j :| 0 <= j < |kept| && kept[j] == extras[i];
      assert Names(kept)[j] == name;
    }
  }

  lemma FilterStep(extras: seq<ToolSpec>, reserved: set<string>)
    requires extras != []
    ensures var rest := Names(FilterCollisions(extras[1..], reserved));
            && Names(extras) == [extras[0].name] + Names(extras[1..])
            && Names(FilterCollisions(extras, reserved)) == if extras[0].name in reserved then rest else [extras[0].name] + rest
  {
    NamesCons(extras[0], extras[1..]);
    NamesCons(extras[0], FilterCollisions(extras[1..], reserved));
    assert extras == [extras[0]] + extras[1..];
    hide Names;
  }

  lemma NamesCons(first: ToolSpec, rest: seq<ToolSpec>)
    ensures Names([first] + rest) == [first.name] + Names(rest)
  {
  }

  lemma {:induction false} FilteredStayDistinct(extras: seq<ToolSpec>, reserved: set<string>)
    requires DistinctNames(Names(extras))
    ensures DistinctNames(Names(FilterCollisions(extras, reserved)))
  {
    hide Names, DistinctNames;
    if extras != [] {
      var first, more := extras[0].name, extras[1..];
      FilterStep(extras, reserved);
      ConsDistinct(first, Names(more));
      FilteredStayDistinct(more, reserved);
      FilteredNames(more, reserved, first);
      ConsDistinct(first, Names(FilterCollisions(more, reserved)));
    } else {
      assert FilterCollisions(extras, reserved) == extras;
    }
  }
}
