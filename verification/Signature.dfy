/**
 * The issuer's name, cut out of a compiler's spelling of a whole signature.
 *
 * The scan runs from the right and counts brackets of both kinds with one
 * counter, so what has to be shown is that the first '(' it stops at is the
 * one that opens the parameter list.
 */
module Signature {
  import opened Basics

  predicate IsNameChar(c: char) {
    || c == '_' || c == ':' || c == '~'
    || 'a' <= c <= 'z' || 'A' <= c <= 'Z' || '0' <= c <= '9'
  }

  predicate IsBracket(c: char) {
    c == '(' || c == ')' || c == '<' || c == '>'
  }

  /** Where a scan of `text` from its right end stops, having `depth` brackets open. */
  function ParameterList(text: string, depth: nat): (at: Option<nat>)
    ensures at.Some? ==> at.value < |text|
  {
    if text == "" then None
    else
      var i := |text| - 1;
      var c := text[i];
      if c == ')' || c == '>' then ParameterList(text[..i], depth + 1)
      else if c == '(' || c == '<' then
        var d := if depth > 0 then depth - 1 else 0;
        if c == '(' && d == 0 then Some(i) else ParameterList(text[..i], d)
      else ParameterList(text[..i], depth)
  }

  /** Where the run of name characters that ends `text` begins. */
  function NameStart(text: string): (begin: nat)
    ensures begin <= |text|
  {
    if text != "" && IsNameChar(text[|text| - 1]) then NameStart(text[..|text| - 1]) else |text|
  }

  function QualifiedName(signature: string): string {
    var end := match ParameterList(signature, 0) case Some(at) => at case None => |signature|;
    var begin := NameStart(signature[..end]);
    if begin >= end then signature else signature[begin..end]
  }

  method Qualified(signature: string) returns (name: string)
    ensures name == QualifiedName(signature)
  {
    if signature == "" {
      return signature;
    }
    var depth: nat := 0;
    var found := None;
    var i := |signature|;
    assert signature[..i] == signature;
    while i > 0 && found.None?
      invariant 0 <= i <= |signature|
      invariant found.Some? ==> found.value < |signature|
      invariant ParameterList(signature, 0) ==
                if found.Some? then found else ParameterList(signature[..i], depth)
      decreases i, found.None?
    {
      i := i - 1;
      assert signature[..i + 1][..i] == signature[..i];
      var c := signature[i];
      if c == ')' || c == '>' {
        depth := depth + 1;
      } else if c == '(' || c == '<' {
        if depth > 0 {
          depth := depth - 1;
        }
        if c == '(' && depth == 0 {
          found := Some(i);
        }
      }
    }
    var end := if found.Some? then found.value else |signature|;
    var begin := end;
    while begin > 0 && IsNameChar(signature[begin - 1])
      invariant 0 <= begin <= end
      invariant NameStart(signature[..end]) == NameStart(signature[..begin])
    {
      begin := begin - 1;
      assert signature[..begin + 1][..begin] == signature[..begin];
    }
    if begin >= end {
      return signature;
    }
    return signature[begin..end];
  }

  /** Text in which every bracket is closed by one of its own kind. */
  datatype Nested =
    | Nothing
    | Plain(c: char, rest: Nested)
    | Round(inner: Nested, rest: Nested)
    | Angle(inner: Nested, rest: Nested)

  function Show(t: Nested): string {
    match t
    case Nothing => ""
    case Plain(c, rest) => [c] + Show(rest)
    case Round(inner, rest) => "(" + Show(inner) + ")" + Show(rest)
    case Angle(inner, rest) => "<" + Show(inner) + ">" + Show(rest)
  }

  /** The characters the tree calls plain really are. */
  predicate WellNested(t: Nested) {
    match t
    case Nothing => true
    case Plain(c, rest) => !IsBracket(c) && WellNested(rest)
    case Round(inner, rest) => WellNested(inner) && WellNested(rest)
    case Angle(inner, rest) => WellNested(inner) && WellNested(rest)
  }

  /** No parenthesis outside angle brackets, as in `[with T = std::function<void(int)>]`. */
  predicate NoOuterRound(t: Nested) {
    match t
    case Nothing => true
    case Plain(_, rest) => NoOuterRound(rest)
    case Round(_, _) => false
    case Angle(_, rest) => NoOuterRound(rest)
  }

  /** A scan goes straight through balanced text, unless it could take its '(' for the one it wants. */
  lemma {:induction false} ScanPassesBalancedText(before: string, t: Nested, depth: nat)
    requires WellNested(t) && (depth > 0 || NoOuterRound(t))
    ensures ParameterList(before + Show(t), depth) == ParameterList(before, depth)
    decreases t, 1
  {
    match t
    case Nothing =>
      assert before + "" == before;
    case Plain(c, rest) =>
      ScanPassesBalancedText(before + [c], rest, depth);
      assert before + Show(t) == (before + [c]) + Show(rest);
      assert (before + [c])[..|before|] == before;
    case Round(_, _) =>
      ScanPassesABracket(before, '(', ')', t, depth);
    case Angle(_, _) =>
      ScanPassesABracket(before, '<', '>', t, depth);
  }

  lemma {:induction false} ScanPassesABracket(before: string, open: char, close: char, t: Nested, depth: nat)
    requires WellNested(t) && (depth > 0 || NoOuterRound(t))
    requires (t.Round? && open == '(' && close == ')') || (t.Angle? && open == '<' && close == '>')
    ensures ParameterList(before + Show(t), depth) == ParameterList(before, depth)
    decreases t, 0
  {
    var upto := before + [open];
    var closed := upto + Show(t.inner) + [close];
    assert before + Show(t) == closed + Show(t.rest) by {
      assert Show(t) == [open] + Show(t.inner) + [close] + Show(t.rest);
    }
    ScanPassesBalancedText(closed, t.rest, depth);
    ScanPassesBalancedText(upto, t.inner, depth + 1);
    ScanOfAPair(before, open, Show(t.inner), close, depth);
  }

  lemma ScanOfAPair(before: string, open: char, inner: string, close: char, depth: nat)
    requires (open == '(' && close == ')' && depth > 0) || (open == '<' && close == '>')
    requires ParameterList(before + [open] + inner, depth + 1) == ParameterList(before + [open], depth + 1)
    ensures ParameterList(before + [open] + inner + [close], depth) == ParameterList(before, depth)
  {
    var upto := before + [open];
    assert (upto + inner + [close])[..|upto + inner|] == upto + inner;
    assert upto[..|before|] == before;
  }

  lemma {:induction false} NameStartOf(prefix: string, name: string)
    requires prefix == "" || !IsNameChar(prefix[|prefix| - 1])
    requires forall i :: 0 <= i < |name| ==> IsNameChar(name[i])
    ensures NameStart(prefix + name) == |prefix|
  {
    if name == "" {
      assert prefix + name == prefix;
    } else {
      var shorter := name[..|name| - 1];
      assert (prefix + name)[..|prefix + name| - 1] == prefix + shorter;
      NameStartOf(prefix, shorter);
    }
  }

  /**
   * Whatever precedes the name, whatever is nested in the parameters, and
   * whatever bracketed text the compiler adds after them, the name comes out
   * exactly.
   */
  lemma QualifiedFindsTheName(prefix: string, name: string, parameters: Nested, tail: Nested)
    requires prefix == "" || !IsNameChar(prefix[|prefix| - 1])
    requires name != "" && forall i :: 0 <= i < |name| ==> IsNameChar(name[i])
    requires WellNested(parameters) && WellNested(tail) && NoOuterRound(tail)
    ensures QualifiedName(prefix + name + "(" + Show(parameters) + ")" + Show(tail)) == name
  {
    hide ParameterList, NameStart, Show;
    var named := prefix + name;
    var upto := named + "(";
    var closed := upto + Show(parameters) + ")";
    var signature := closed + Show(tail);
    ScanPassesBalancedText(closed, tail, 0);
    ScanGoesIn(upto + Show(parameters));
    ScanPassesBalancedText(upto, parameters, 1);
    ScanStops(named);
    assert signature[..|named|] == named;
    NameStartOf(prefix, name);
    assert signature[|prefix|..|named|] == name;
  }

  lemma ScanGoesIn(text: string)
    ensures ParameterList(text + ")", 0) == ParameterList(text, 1)
  {
    assert (text + ")")[..|text|] == text;
  }

  lemma ScanStops(text: string)
    ensures ParameterList(text + "(", 1) == Some(|text|)
  {
  }

  lemma {:induction false} NameRun(text: string)
    ensures forall i :: NameStart(text) <= i < |text| ==> IsNameChar(text[i])
    ensures NameStart(text) > 0 ==> !IsNameChar(text[NameStart(text) - 1])
  {
    if text != "" && IsNameChar(text[|text| - 1]) {
      NameRun(text[..|text| - 1]);
    }
  }

  /** For any text at all: a contiguous piece of it, either the whole or a longest run of name characters. */
  lemma QualifiedIsAPiece(signature: string) returns (begin: nat, end: nat)
    ensures begin <= end <= |signature|
    ensures QualifiedName(signature) == signature[begin..end]
    ensures signature != "" ==> begin < end
    ensures (begin, end) == (0, |signature|) ||
            (&& (forall i :: begin <= i < end ==> IsNameChar(signature[i]))
             && (begin > 0 ==> !IsNameChar(signature[begin - 1])))
  {
    end := match ParameterList(signature, 0) case Some(at) => at case None => |signature|;
    begin := NameStart(signature[..end]);
    NameRun(signature[..end]);
    if begin >= end {
      begin, end := 0, |signature|;
    }
  }

  /** By the numbers of the characters: digits, a colon, letters, an underscore, letters, and a tilde. */
  lemma NameCharsAreThese(c: char)
    ensures IsNameChar(c) <==>
            var n := c as int; 48 <= n <= 58 || 65 <= n <= 90 || n == 95 || 97 <= n <= 122 || n == 126
  {
  }

  function Spelled(text: string): Nested {
    if text == "" then Nothing else Plain(text[0], Spelled(text[1..]))
  }

  lemma {:induction false} SpelledIsShown(text: string)
    requires forall i :: 0 <= i < |text| ==> !IsBracket(text[i])
    ensures Show(Spelled(text)) == text && WellNested(Spelled(text))
  {
    if text != "" {
      SpelledIsShown(text[1..]);
    }
  }

  lemma PlainSignature(prefix: string, name: string, parameters: string)
    requires prefix == "" || !IsNameChar(prefix[|prefix| - 1])
    requires name != "" && forall i :: 0 <= i < |name| ==> IsNameChar(name[i])
    requires forall i :: 0 <= i < |parameters| ==> !IsBracket(parameters[i])
    ensures QualifiedName(prefix + name + "(" + parameters + ")") == name
  {
    hide QualifiedName;
    SpelledIsShown(parameters);
    QualifiedFindsTheName(prefix, name, Spelled(parameters), Nothing);
    assert prefix + name + "(" + parameters + ")" + "" == prefix + name + "(" + parameters + ")";
  }

  /** One method as two compilers spell it. */
  lemma BothSpellings()
    ensures QualifiedName("void " + "stlink::Transport::open" + "(" + "int" + ")") == "stlink::Transport::open"
    ensures QualifiedName("void __cdecl " + "stlink::Transport::open" + "(" + "int" + ")") == "stlink::Transport::open"
  {
    hide QualifiedName;
    var name := "stlink::Transport::open";
    assert forall i :: 0 <= i < |name| ==> IsNameChar(name[i]);
    PlainSignature("void ", name, "int");
    PlainSignature("void __cdecl ", name, "int");
  }
}
